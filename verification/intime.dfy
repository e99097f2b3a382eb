/** The step system with a clock: why the wait of the poll loop keeps the budget from being late.
    What the world does is restricted step by step, and the payer sees only its answers. */
module InTime {
  import opened Basics
  import opened Config
  import opened Polling
  import opened Ledgers
  import opened Payers
  import opened Clients
  import opened Systems
  import opened Invariants
  import opened NeverLate

  /** How long after it was sent a transaction can reach a block, and how old an answer can be. */
  datatype World = World(window: nat, lag: nat)

  /** The payment whose bytes a block took, and when. */
  datatype Stamp = Stamp(payment: nat, at: nat)

  /** A question about an open payment: when it began, and the polls that came back so far. */
  datatype Asking = Asking(began: nat, polls: seq<Poll>)

  /** `sent` runs along the records, and `stamps` along the log. `refused` are the payments that
      the sidecar refused. */
  datatype Timed = Timed(
    x: State, now: nat, sent: seq<nat>, stamps: seq<Stamp>, refused: set<nat>, asking: Option<Asking>)

  datatype Move =
    | Tick(ticks: nat)
    | Step(e: Event)                  // any step but an answer about a transaction, or a block
    | Take(i: nat, code: nat)         // a block takes the transaction of payment `i`
    | Ask(t: nat)                     // call `t` begins to wait for an open payment
    | Answer(t: nat, p: Poll)         // one poll comes back

  function Dawn(calls: nat): Timed {
    Timed(Init(calls), 0, [], [], {}, None)
  }

  const NOTHING := Poll(Status.Failed, 0, true, false, 0)

  /** The polls so far, as the loop reads them. */
  function Stream(polls: seq<Poll>): nat -> Poll {
    (j: nat) => if j < |polls| then polls[j] else NOTHING
  }

  /** When the answer to the last of these polls arrives, counted from the start of the loop. */
  function Arrival(t: Timing, polls: seq<Poll>): nat
    requires polls != []
  {
    Received(t, Stream(polls), 0, |polls| - 1)
  }

  /** The loop of `waitForTx` ends with the last of these polls. */
  predicate Ends(t: Timing, polls: seq<Poll>)
    requires t.interval > 0
  {
    Wait(t, Stream(polls), 0).next == |polls|
  }

  function Asked(c: Timed, p: Poll): seq<Poll>
    requires c.asking.Some?
  {
    c.asking.value.polls + [p]
  }

  predicate CanMove(s: Setup, c: Timed, m: Move) {
    match m
    case Tick(_) => true
    case Step(e) => Enabled(c.x, e) && !e.Resolve? && !e.Include?
    case Take(i, code) => i < |c.x.records| && Enabled(c.x, Include(c.x.records[i].tx, code))
    case Ask(t) => c.asking.None? && Enabled(c.x, Resolve(t, Unknown))
    case Answer(t, p) =>
      && c.asking.Some? && Enabled(c.x, Resolve(t, Unknown))
      && c.now == c.asking.value.began + Arrival(s.timing, Asked(c, p))
  }

  /** The step of the untimed system that a move is, if it is one. */
  function StepOf(s: Setup, c: Timed, m: Move): Option<Event>
    requires s.timing.interval > 0 && CanMove(s, c, m)
  {
    match m
    case Step(e) => Some(e)
    case Take(i, code) => Some(Include(c.x.records[i].tx, code))
    case Answer(t, p) =>
      if Ends(s.timing, Asked(c, p)) then
        Some(Resolve(t, Wait(s.timing, Stream(Asked(c, p)), 0).outcome))
      else None
    case _ => None
  }

  function After(s: Setup, c: Timed, m: Move): Timed
    requires s.timing.interval > 0 && CanMove(s, c, m)
  {
    var e := StepOf(s, c, m);
    var y := if e.Some? then Next(s, c.x, e.value) else c.x;
    match m
    case Tick(ticks) => c.(now := c.now + ticks)
    case Step(e) =>
      c.(x := y,
         sent := if |y.records| > |c.x.records| then c.sent + [c.now] else c.sent,
         refused := if Releases(s, c.x, e) then c.refused + {ReleasedBy(s, c.x, e)} else c.refused)
    case Take(i, _) => c.(x := y, stamps := c.stamps + [Stamp(i, c.now)])
    case Ask(_) => c.(asking := Some(Asking(c.now, [])))
    case Answer(_, p) =>
      c.(x := y, asking := if e.Some? then None else Some(c.asking.value.(polls := Asked(c, p))))
  }

  /** Entry `j` is not of this transaction, or so young that an answer may not know it. */
  predicate Unseen(w: World, c: Timed, tx: Tx, j: int)
    requires 0 <= j < |c.stamps|
  {
    j < |c.x.chain.log| && c.x.chain.log[j].tx == tx ==> c.now <= c.stamps[j].at + w.lag
  }

  /** The laws of the world, step by step. A block takes a transaction within the window after it
      was sent, and not when the sidecar refused it; the sidecar refuses nothing that it gave to
      the chain; "not there" is an answer about the chain as it stood at most `lag` ago; and a
      transaction that is said to have failed did. */
  ghost predicate Obeys(s: Setup, w: World, c: Timed, m: Move)
    requires CanMove(s, c, m)
  {
    match m
    case Step(e) =>
      Releases(s, c.x, e) ==> forall j :: 0 <= j < |c.stamps| ==> c.stamps[j].payment != ReleasedBy(s, c.x, e)
    case Take(i, _) => i !in c.refused && i < |c.sent| && c.now < c.sent[i] + w.window
    case Answer(t, p) =>
      var r := c.x.records[c.x.ledger.open[c.x.threads[t].stage.k].serial];
      && (Denied(p) ==> forall j :: 0 <= j < |c.stamps| ==> Unseen(w, c, r.tx, j))
      && (Found(p) && p.status.code != 0 ==> HasReverted(c.x, r.tx))
    case _ => true
  }

  /** A course of the world. */
  ghost predicate Course(s: Setup, w: World, c: Timed, ms: seq<Move>)
    requires s.timing.interval > 0
    decreases |ms|
  {
    ms == [] || (CanMove(s, c, ms[0]) && Obeys(s, w, c, ms[0]) && Course(s, w, After(s, c, ms[0]), ms[1..]))
  }

  function End(s: Setup, w: World, c: Timed, ms: seq<Move>): Timed
    requires s.timing.interval > 0 && Course(s, w, c, ms)
    decreases |ms|
  {
    if ms == [] then c else End(s, w, After(s, c, ms[0]), ms[1..])
  }

  /** An `Absent` of the loop comes when its time is over, from a last question that was answered. */
  predicate RunsOut(s: Setup, c: Timed, m: Move)
    requires s.timing.interval > 0 && CanMove(s, c, m)
  {
    m.Answer? && StepOf(s, c, m).Some? && StepOf(s, c, m).value.outcome.Absent? ==>
      m.p.status.Told? && Arrival(s.timing, Asked(c, m.p)) >= s.timing.wait
  }

  /** Every loop does. */
  ghost predicate Patient(s: Setup, w: World, c: Timed, ms: seq<Move>)
    requires s.timing.interval > 0 && Course(s, w, c, ms)
    decreases |ms|
  {
    ms == [] || (RunsOut(s, c, ms[0]) && Patient(s, w, After(s, c, ms[0]), ms[1..]))
  }

  /** The time limit of the loop covers the window and the age of an answer. */
  predicate InWindow(s: Setup, w: World) {
    w.window == 0 || w.window + w.lag <= s.timing.wait
  }

  // The loop of the moves is the loop of `waitForTx`.

  /** Whatever polls would come after these, the loop ends with them, and with this outcome. */
  lemma LoopIsWait(t: Timing, polls: seq<Poll>, all: nat -> Poll)
    requires t.interval > 0 && Ends(t, polls) && forall j :: 0 <= j < |polls| ==> all(j) == polls[j]
    ensures Wait(t, all, 0) == Wait(t, Stream(polls), 0) && Wait(t, all, 0).next == |polls|
  {
    WaitAgrees(t, Stream(polls), all, 0, 0, Unknown);
  }

  /** A loop that did not end before, and does not end with this poll, goes on after it. */
  lemma LoopGoesOn(t: Timing, polls: seq<Poll>, p: Poll)
    requires t.interval > 0 && Wait(t, Stream(polls), 0).next > |polls| && !Ends(t, polls + [p])
    ensures Wait(t, Stream(polls + [p]), 0).next > |polls + [p]|
  {
    if Wait(t, Stream(polls + [p]), 0).next <= |polls| {
      WaitAgrees(t, Stream(polls + [p]), Stream(polls), 0, 0, Unknown);
    }
  }

  // What every move keeps.

  ghost predicate SentInv(c: Timed) {
    |c.sent| == |c.x.records| && forall i :: 0 <= i < |c.sent| ==> c.sent[i] <= c.now
  }

  /** What a block took belongs to a payment that was sent, in its window. */
  ghost predicate StampInv(w: World, c: Timed) {
    && |c.stamps| == |c.x.chain.log|
    && forall j :: 0 <= j < |c.stamps| ==>
         var i := c.stamps[j].payment;
         && i < |c.sent| && i < |c.x.records| && c.x.records[i].tx == c.x.chain.log[j].tx
         && c.sent[i] <= c.stamps[j].at < c.sent[i] + w.window
  }

  /** While a call waits for an answer it holds the lock, its loop goes on, and every payment was
      sent before. */
  ghost predicate AskInv(s: Setup, c: Timed)
    requires s.timing.interval > 0
  {
    c.asking.Some? ==>
      && c.asking.value.began <= c.now
      && c.x.holder.Some? && c.x.holder.value < |c.x.threads| && c.x.threads[c.x.holder.value].stage.Resolving?
      && c.x.threads[c.x.holder.value].stage.k < |c.x.ledger.open|
      && Wait(s.timing, Stream(c.asking.value.polls), 0).next > |c.asking.value.polls|
      && forall i :: 0 <= i < |c.sent| ==> c.sent[i] <= c.asking.value.began
  }

  /** No block took the bytes of payment `i` for it, and none will. */
  ghost predicate Off(w: World, c: Timed, i: nat) {
    && (forall j :: 0 <= j < |c.stamps| ==> c.stamps[j].payment != i)
    && (i in c.refused || (i < |c.sent| && c.now >= c.sent[i] + w.window))
  }

  ghost predicate BackInv(w: World, c: Timed) {
    forall i :: 0 <= i < |c.x.records| && c.x.records[i].fate.Released? ==> Off(w, c, i)
  }

  ghost predicate TimedInv(s: Setup, w: World, c: Timed)
    requires s.timing.interval > 0
  {
    && Inv(s, c.x) && RevertedInv(c.x)
    && SentInv(c) && StampInv(w, c) && AskInv(s, c) && BackInv(w, c)
  }

  /** What the last poll of the loop says. */
  lemma LastPoll(t: Timing, polls: seq<Poll>, p: Poll)
    requires t.interval > 0 && Ends(t, polls + [p])
    ensures var outcome := Wait(t, Stream(polls + [p]), 0).outcome;
      && (outcome.InBlock? ==> Found(p) && outcome.code == p.status.code)
      && (outcome.Absent? && p.status.Told? ==> Denied(p))
  {
    WaitReports(t, Stream(polls + [p]), 0, 0, Unknown);
    assert Stream(polls + [p])(|polls|) == p;
  }

  lemma StepIsHonest(s: Setup, w: World, c: Timed, m: Move)
    requires s.timing.interval > 0 && CanMove(s, c, m) && Obeys(s, w, c, m) && StepOf(s, c, m).Some?
    requires RecordsInv(s, c.x) && OpenInv(c.x)
    ensures Enabled(c.x, StepOf(s, c, m).value) && HonestStatus(s, c.x, StepOf(s, c, m).value)
  {
    if m.Answer? {
      LastPoll(s.timing, c.asking.value.polls, m.p);
      var pay := c.x.ledger.open[c.x.threads[m.t].stage.k];
      OpenMember(c.x.records, c.x.threads[m.t].stage.k);
      assert WellMade(s, pay.serial, c.x.records[pay.serial]);
    }
  }

  /** A move is a step of the untimed system, or none. */
  lemma BaseKept(s: Setup, w: World, c: Timed, m: Move)
    requires s.timing.interval > 0 && CanMove(s, c, m) && Obeys(s, w, c, m) && LawfulSigner(s)
    requires Inv(s, c.x) && RevertedInv(c.x)
    ensures Inv(s, After(s, c, m).x) && RevertedInv(After(s, c, m).x)
  {
    var e := StepOf(s, c, m);
    if e.Some? {
      assert RecordsInv(s, c.x) && OpenInv(c.x);
      StepIsHonest(s, w, c, m);
      StepKeeps(s, c.x, e.value);
      RevertedKept(s, c.x, e.value);
    }
  }

  /** Only a signature adds a payment, and only a block an entry. */
  lemma SizesMove(s: Setup, x: State, e: Event)
    requires Enabled(x, e)
    ensures var y := Next(s, x, e);
      && (e.Include? ==> y.records == x.records && |y.chain.log| == |x.chain.log| + 1
                         && y.chain.log[..|x.chain.log|] == x.chain.log
                         && y.chain.log[|x.chain.log|].tx == e.tx)
      && (!e.Include? ==> y.chain.log == x.chain.log)
      && (e.Sign? ==> |x.records| <= |y.records| <= |x.records| + 1)
      && (!e.Sign? ==> |y.records| == |x.records|)
  {
  }

  lemma SentKept(s: Setup, c: Timed, m: Move)
    requires s.timing.interval > 0 && CanMove(s, c, m) && SentInv(c)
    ensures SentInv(After(s, c, m)) && c.sent <= After(s, c, m).sent && c.now <= After(s, c, m).now
    ensures |c.sent| < |After(s, c, m).sent| ==> m.Step? && m.e.Sign?
  {
    var e := StepOf(s, c, m);
    if e.Some? {
      SizesMove(s, c.x, e.value);
    }
  }

  lemma StampKept(s: Setup, w: World, c: Timed, m: Move)
    requires s.timing.interval > 0 && CanMove(s, c, m) && Obeys(s, w, c, m) && SentInv(c) && StampInv(w, c)
    ensures StampInv(w, After(s, c, m))
  {
    var d, e := After(s, c, m), StepOf(s, c, m);
    SentKept(s, c, m);
    if e.Some? {
      SizesMove(s, c.x, e.value);
      RecordsGrow(s, c.x, e.value);
    }
    forall j | 0 <= j < |d.stamps|
      ensures var i := d.stamps[j].payment;
        && i < |d.sent| && i < |d.x.records| && d.x.records[i].tx == d.x.chain.log[j].tx
        && d.sent[i] <= d.stamps[j].at < d.sent[i] + w.window
    {
      if j < |c.stamps| {
        assert d.stamps[j] == c.stamps[j] && d.x.chain.log[j] == c.x.chain.log[j];
      }
    }
  }

  lemma AskKept(s: Setup, c: Timed, m: Move)
    requires s.timing.interval > 0 && CanMove(s, c, m) && SentInv(c) && AskInv(s, c) && LockInv(c.x)
    ensures AskInv(s, After(s, c, m))
  {
    SentKept(s, c, m);
    var d := After(s, c, m);
    match m
    case Step(e) =>
      if c.asking.Some? {
        WaiterKeepsLock(s, c.x, e, c.x.holder.value);
      }
    case Take(i, code) => SizesMove(s, c.x, Include(c.x.records[i].tx, code));
    case Ask(t) =>
      assert c.x.holder == Some(t);
      WaitStops(s.timing, Stream([]), 0, 0, Unknown);
    case Answer(t, p) =>
      if d.asking.Some? {
        LoopGoesOn(s.timing, c.asking.value.polls, p);
      }
    case _ =>
  }

  /** Only an answer moves a call that waits for one. */
  lemma WaiterKeepsLock(s: Setup, x: State, e: Event, t: nat)
    requires Enabled(x, e) && !e.Resolve? && LockInv(x) && x.holder == Some(t)
    requires t < |x.threads| && x.threads[t].stage.Resolving? && x.threads[t].stage.k < |x.ledger.open|
    ensures var y := Next(s, x, e);
      y.holder == x.holder && |y.threads| == |x.threads| && y.threads[t] == x.threads[t] && y.ledger == x.ledger
    ensures !e.Sign?
  {
  }

  /** The heart of it: an `Absent` at the end of the time rules the payment out. It was sent
      before the question began, so its window is over when the last answer is formed. */
  lemma AbsentIsOff(s: Setup, w: World, c: Timed, t: nat, p: Poll)
    requires s.timing.interval > 0 && InWindow(s, w)
    requires CanMove(s, c, Answer(t, p)) && Obeys(s, w, c, Answer(t, p)) && RunsOut(s, c, Answer(t, p))
    requires StepOf(s, c, Answer(t, p)) == Some(Resolve(t, Absent))
    requires SentInv(c) && StampInv(w, c) && AskInv(s, c)
    ensures Off(w, c, c.x.ledger.open[c.x.threads[t].stage.k].serial)
  {
    LastPoll(s.timing, c.asking.value.polls, p);
    var i := c.x.ledger.open[c.x.threads[t].stage.k].serial;
    forall j | 0 <= j < |c.stamps|
      ensures c.stamps[j].payment != i
    {
      assert Unseen(w, c, c.x.records[i].tx, j);
      assert c.x.chain.log[j].tx == c.x.records[c.stamps[j].payment].tx;
    }
  }

  /** What is off stays off. */
  lemma OffKept(s: Setup, w: World, c: Timed, m: Move, i: nat)
    requires s.timing.interval > 0 && CanMove(s, c, m) && Obeys(s, w, c, m) && SentInv(c) && Off(w, c, i)
    ensures Off(w, After(s, c, m), i)
  {
    SentKept(s, c, m);
  }

  lemma BackKept(s: Setup, w: World, c: Timed, m: Move)
    requires s.timing.interval > 0 && InWindow(s, w)
    requires CanMove(s, c, m) && Obeys(s, w, c, m) && RunsOut(s, c, m)
    requires SentInv(c) && StampInv(w, c) && AskInv(s, c) && BackInv(w, c)
    ensures BackInv(w, After(s, c, m))
  {
    var d, e := After(s, c, m), StepOf(s, c, m);
    forall i | 0 <= i < |d.x.records| && d.x.records[i].fate.Released?
      ensures Off(w, d, i)
    {
      if i < |c.x.records| && c.x.records[i].fate.Released? {
        OffKept(s, w, c, m, i);
      } else {
        NewlyReleased(s, c.x, e.value, i);
        if m.Answer? {
          AbsentIsOff(s, w, c, m.t, m.p);
          OffKept(s, w, c, m, i);
        }
      }
    }
  }

  lemma MoveKeeps(s: Setup, w: World, c: Timed, m: Move)
    requires s.timing.interval > 0 && InWindow(s, w) && LawfulSigner(s)
    requires CanMove(s, c, m) && Obeys(s, w, c, m) && RunsOut(s, c, m) && TimedInv(s, w, c)
    ensures TimedInv(s, w, After(s, c, m))
  {
    BaseKept(s, w, c, m);
    SentKept(s, c, m);
    StampKept(s, w, c, m);
    assert LockInv(c.x);
    AskKept(s, c, m);
    BackKept(s, w, c, m);
  }

  lemma {:induction false} CourseKeeps(s: Setup, w: World, c: Timed, ms: seq<Move>)
    requires s.timing.interval > 0 && InWindow(s, w) && LawfulSigner(s)
    requires Course(s, w, c, ms) && Patient(s, w, c, ms) && TimedInv(s, w, c)
    ensures TimedInv(s, w, End(s, w, c, ms))
    decreases |ms|
  {
    if ms != [] {
      MoveKeeps(s, w, c, ms[0]);
      CourseKeeps(s, w, After(s, c, ms[0]), ms[1..]);
    }
  }

  lemma BackIsCovered(w: World, c: Timed)
    requires StampInv(w, c) && BackInv(w, c)
    ensures AllCovered(c.x)
  {
    forall j | 0 <= j < |c.x.chain.log|
      ensures Covered(c.x, c.x.chain.log[j].tx)
    {
      var i := c.stamps[j].payment;
      assert c.x.records[i].tx == c.x.chain.log[j].tx;
      assert c.x.records[i].fate.Released? ==> Off(w, c, i);
    }
  }

  lemma DawnFits(s: Setup, w: World, calls: nat)
    requires s.timing.interval > 0
    ensures TimedInv(s, w, Dawn(calls))
  {
    InitHolds(s, calls);
  }

  lemma StateIsInTime(s: Setup, w: World, c: Timed)
    requires s.timing.interval > 0 && TimedInv(s, w, c)
    ensures Outflow(c.x.chain.log) <= c.x.ledger.spent
    ensures BudgetAmount(s.cfg) != 0 ==> c.x.ledger.spent <= BudgetAmount(s.cfg)
  {
    BackIsCovered(w, c);
    NothingUncovered(c.x, c.x.chain.log);
    CountedCovers(s, c.x);
  }

  lemma EndFits(s: Setup, w: World, calls: nat, ms: seq<Move>)
    requires s.timing.interval > 0 && InWindow(s, w) && LawfulSigner(s)
    requires Course(s, w, Dawn(calls), ms) && Patient(s, w, Dawn(calls), ms)
    ensures TimedInv(s, w, End(s, w, Dawn(calls), ms))
  {
    DawnFits(s, w, calls);
    CourseKeeps(s, w, Dawn(calls), ms);
  }

  /** The wait keeps the budget from being late. If the time limit of the loop covers the window
      in which a block can take a transaction, and the age of an answer, then in every course of
      the world in which every `Absent` comes from a loop that ran to the end of its time with its
      last question answered, the money that left the wallet is at most the counted money, and at
      most the budget if one is set. */
  lemma NeverLateInTime(s: Setup, w: World, calls: nat, ms: seq<Move>)
    requires s.timing.interval > 0 && InWindow(s, w) && LawfulSigner(s)
    requires Course(s, w, Dawn(calls), ms) && Patient(s, w, Dawn(calls), ms)
    ensures var x := End(s, w, Dawn(calls), ms).x;
      && Outflow(x.chain.log) <= x.ledger.spent
      && (BudgetAmount(s.cfg) != 0 ==> Outflow(x.chain.log) <= BudgetAmount(s.cfg))
  {
    EndFits(s, w, calls, ms);
    StateIsInTime(s, w, End(s, w, Dawn(calls), ms));
  }

  /** A course is an honest run of the system without a clock. */
  lemma {:induction false} CourseIsARun(s: Setup, w: World, c: Timed, ms: seq<Move>) returns (es: seq<Event>)
    requires s.timing.interval > 0 && LawfulSigner(s) && Course(s, w, c, ms)
    requires Inv(s, c.x) && RevertedInv(c.x)
    ensures HonestRun(s, c.x, es) && Possible(s, c.x, es)
    ensures Run(s, c.x, es) == End(s, w, c, ms).x
    decreases |ms|
  {
    if ms == [] {
      return [];
    }
    BaseKept(s, w, c, ms[0]);
    var rest := CourseIsARun(s, w, After(s, c, ms[0]), ms[1..]);
    var e := StepOf(s, c, ms[0]);
    if e.None? {
      return rest;
    }
    StepIsHonest(s, w, c, ms[0]);
    es := [e.value] + rest;
    assert es[1..] == rest;
  }

  lemma {:induction false} CourseConcat(s: Setup, w: World, c: Timed, a: seq<Move>, b: seq<Move>)
    requires s.timing.interval > 0 && Course(s, w, c, a) && Course(s, w, End(s, w, c, a), b)
    ensures Course(s, w, c, a + b) && End(s, w, c, a + b) == End(s, w, End(s, w, c, a), b)
    decreases |a|
  {
    if a == [] {
      assert a + b == b;
    } else {
      CourseConcat(s, w, After(s, c, a[0]), a[1..], b);
      assert (a + b)[0] == a[0] && (a + b)[1..] == a[1..] + b;
    }
  }

  lemma PatientCons(s: Setup, w: World, c: Timed, m: Move, ms: seq<Move>)
    requires s.timing.interval > 0 && CanMove(s, c, m) && Obeys(s, w, c, m) && RunsOut(s, c, m)
    requires Course(s, w, After(s, c, m), ms) && Patient(s, w, After(s, c, m), ms)
    ensures Course(s, w, c, [m] + ms) && Patient(s, w, c, [m] + ms)
  {
    assert ([m] + ms)[1..] == ms;
  }

  lemma {:induction false} PatientConcat(s: Setup, w: World, c: Timed, a: seq<Move>, b: seq<Move>)
    requires s.timing.interval > 0 && Course(s, w, c, a) && Course(s, w, End(s, w, c, a), b)
    requires Patient(s, w, c, a) && Patient(s, w, End(s, w, c, a), b)
    ensures Course(s, w, c, a + b) && Patient(s, w, c, a + b)
    decreases |a|
  {
    if a == [] {
      assert a + b == b;
    } else {
      PatientConcat(s, w, After(s, c, a[0]), a[1..], b);
      PatientCons(s, w, c, a[0], a[1..] + b);
      assert a + b == [a[0]] + (a[1..] + b);
    }
  }
}
