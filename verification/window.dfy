/** Exactly how long the poll loop has to wait. */
module Windows {
  import opened Basics
  import opened Polling
  import opened Ledgers
  import opened Payers
  import opened Clients
  import opened Systems
  import opened Invariants
  import opened NeverLate
  import opened Simulation
  import opened Witnesses
  import opened InTime

  function Steps(es: seq<Event>): (ms: seq<Move>)
    ensures |ms| == |es|
  {
    if es == [] then [] else [Step(es[0])] + Steps(es[1..])
  }

  lemma CourseCons(s: Setup, w: World, c: Timed, m: Move, ms: seq<Move>)
    requires s.timing.interval > 0 && CanMove(s, c, m) && Obeys(s, w, c, m)
    requires Course(s, w, After(s, c, m), ms)
    ensures Course(s, w, c, [m] + ms)
    ensures RunsOut(s, c, m) && Patient(s, w, After(s, c, m), ms) ==> Patient(s, w, c, [m] + ms)
    ensures End(s, w, c, [m] + ms) == End(s, w, After(s, c, m), ms)
  {
    assert ([m] + ms)[1..] == ms;
  }

  /** A lost payment is not given back by its own call. */
  lemma LossReleasesNothing(s: Setup, x: State, e: Event)
    requires Enabled(x, e) && RecordsInv(s, x) && FlightInv(x) && LawfulSigner(s)
    requires !e.Resolve? && (e.Second? ==> e.reply == NoReply)
    ensures !Releases(s, x, e)
  {
    if e.Second? {
      var pay := x.threads[e.t].stage.pay;
      assert IsRecord(x, pay, InFlight) && WellMade(s, pay.serial, x.records[pay.serial]);
    }
  }

  /** Nothing reached a block or was refused so far, and nobody waits. */
  predicate Untouched(c: Timed) {
    c.stamps == [] && c.refused == {} && c.asking.None?
  }

  lemma PlainStep(s: Setup, w: World, c: Timed, e: Event)
    requires s.timing.interval > 0 && LawfulSigner(s) && Inv(s, c.x) && SentInv(c) && Untouched(c)
    requires Enabled(c.x, e) && !e.Resolve? && !e.Include? && (e.Second? ==> e.reply == NoReply)
    ensures CanMove(s, c, Step(e)) && Obeys(s, w, c, Step(e)) && RunsOut(s, c, Step(e))
    ensures var d := After(s, c, Step(e));
      && d.x == Next(s, c.x, e) && d.now == c.now && SentInv(d) && Untouched(d)
      && d.x.chain.log == c.x.chain.log && Inv(s, d.x)
  {
    assert RecordsInv(s, c.x) && FlightInv(c.x);
    LossReleasesNothing(s, c.x, e);
    StepKeeps(s, c.x, e);
    SentKept(s, c, Step(e));
    SizesMove(s, c.x, e);
  }

  /** The steps of a call take no time. */
  lemma {:induction false} StepsAreACourse(s: Setup, w: World, c: Timed, es: seq<Event>)
    requires s.timing.interval > 0 && LawfulSigner(s) && Inv(s, c.x) && SentInv(c) && Untouched(c)
    requires Possible(s, c.x, es) && OfCall(es, NoReply)
    ensures Course(s, w, c, Steps(es)) && Patient(s, w, c, Steps(es))
    ensures var d := End(s, w, c, Steps(es));
      && d.x == Run(s, c.x, es) && d.now == c.now && SentInv(d) && Untouched(d)
      && d.x.chain.log == c.x.chain.log
    decreases |es|
  {
    if es != [] {
      PlainStep(s, w, c, es[0]);
      var d := After(s, c, Step(es[0]));
      assert OfCall(es[1..], NoReply);
      StepsAreACourse(s, w, d, es[1..]);
      CourseCons(s, w, c, Step(es[0]), Steps(es[1..]));
    }
  }

  /** Call 1 is about to ask about the payment of call 0. */
  ghost predicate AboutToAsk(s: Setup, m: Terms, x: State) {
    && |x.threads| == 2 && x.holder == Some(1) && x.threads[1].stage == Resolving(m.o, m.amount, m.fee, 0)
    && |x.records| == 1 && x.ledger.open == [x.records[0].pay] && WellMade(s, 0, x.records[0])
    && x.records[0].tx.amount == m.amount && x.records[0].tx.fee == m.fee
    && x.records[0].tx.sequence == 0 && x.chain.next == 0 && x.ledger.spent == m.amount + m.fee
  }

  /** The same, when a block took that payment. */
  ghost predicate AboutToAnswer(s: Setup, m: Terms, x: State) {
    && |x.threads| == 2 && x.holder == Some(1) && x.threads[1].stage == Resolving(m.o, m.amount, m.fee, 0)
    && |x.records| == 1 && x.ledger.open == [x.records[0].pay] && WellMade(s, 0, x.records[0])
    && x.records[0].tx.amount == m.amount && x.records[0].tx.fee == m.fee
    && x.chain.log == [Entry(x.records[0].tx, 0)] && x.ledger.spent == m.amount + m.fee
  }

  /** The payment was sent just now. */
  ghost predicate JustLost(s: Setup, m: Terms, c: Timed) {
    c.now == 0 && c.sent == [0] && Untouched(c) && c.x.chain.log == [] && AboutToAsk(s, m, c.x)
  }

  lemma LoseOneUntimed(s: Setup, m: Terms) returns (es: seq<Event>)
    requires Payable(s, m)
    ensures Possible(s, Init(2), es) && OfCall(es, NoReply)
    ensures AboutToAsk(s, m, Run(s, Init(2), es))
  {
    var lose := FirstRound(s, m, 2);
    var x := Run(s, Init(2), lose);
    NewestIsWellMade(s, 2, lose, 0);
    var ask := StartRound(s, x, m, 1);
    RunConcat(s, Init(2), lose, ask);
    OfCallConcat(lose, ask, NoReply);
    es := lose + ask;
  }

  lemma LoseFrom(s: Setup, m: Terms, w: World, c: Timed, es: seq<Event>)
    requires s.timing.interval > 0 && LawfulSigner(s) && Inv(s, c.x) && SentInv(c) && Untouched(c)
    requires c.now == 0 && c.x.chain.log == []
    requires Possible(s, c.x, es) && OfCall(es, NoReply) && AboutToAsk(s, m, Run(s, c.x, es))
    ensures Course(s, w, c, Steps(es)) && Patient(s, w, c, Steps(es))
    ensures JustLost(s, m, End(s, w, c, Steps(es)))
  {
    StepsAreACourse(s, w, c, es);
    var d := End(s, w, c, Steps(es));
    assert |d.sent| == 1 && d.sent[0] == 0;
  }

  lemma LoseOne(s: Setup, m: Terms, w: World) returns (ms: seq<Move>)
    requires s.timing.interval > 0 && Payable(s, m) && LawfulSigner(s)
    ensures Course(s, w, Dawn(2), ms) && Patient(s, w, Dawn(2), ms)
    ensures JustLost(s, m, End(s, w, Dawn(2), ms))
  {
    var es := LoseOneUntimed(s, m);
    DawnFits(s, w, 2);
    LoseFrom(s, m, w, Dawn(2), es);
    ms := Steps(es);
  }

  /** A block takes the payment before the last answer, which does not know it yet. */
  lemma TakeThenAnswer(s: Setup, m: Terms, w: World, c: Timed) returns (ms: seq<Move>)
    requires s.timing.interval > 0 && JustLost(s, m, c) && !InWindow(s, w)
    ensures Course(s, w, c, ms) && Patient(s, w, c, ms)
    ensures var x := End(s, w, c, ms).x;
      x.ledger.spent == 0 && Outflow(x.chain.log) == m.amount + m.fee
  {
    var wait := s.timing.wait;
    var at := if w.window - 1 <= wait then w.window - 1 else wait;
    var c1 := After(s, c, Ask(1));
    var c2 := After(s, c1, Tick(at));
    TakeInWindow(s, m, w, c2, at);
    var c3 := After(s, c2, Take(0, 0));
    ms := LateAnswer(s, m, w, After(s, c3, Tick(wait - at)), at);
    CourseCons(s, w, c3, Tick(wait - at), ms);
    ms := [Tick(wait - at)] + ms;
    CourseCons(s, w, c2, Take(0, 0), ms);
    ms := [Take(0, 0)] + ms;
    CourseCons(s, w, c1, Tick(at), ms);
    ms := [Tick(at)] + ms;
    CourseCons(s, w, c, Ask(1), ms);
    ms := [Ask(1)] + ms;
  }

  lemma TakeInWindow(s: Setup, m: Terms, w: World, c: Timed, at: nat)
    requires s.timing.interval > 0 && AboutToAsk(s, m, c.x) && c.x.chain.log == []
    requires c.now == at < w.window && c.sent == [0] && c.stamps == [] && c.refused == {}
    ensures CanMove(s, c, Take(0, 0)) && Obeys(s, w, c, Take(0, 0)) && RunsOut(s, c, Take(0, 0))
    ensures var d := After(s, c, Take(0, 0));
      && AboutToAnswer(s, m, d.x) && d.stamps == [Stamp(0, at)] && d.now == at && d.asking == c.asking
  {
  }

  /** One poll that takes all the time, and is told "not there". */
  lemma OnePoll(t: Timing)
    requires t.interval > 0
    ensures var polls := [] + [Poll(Told(false, 0), t.wait, false, false, 0)];
      Ends(t, polls) && Wait(t, Stream(polls), 0).outcome == Absent && Arrival(t, polls) == t.wait
  {
  }

  lemma LateAnswer(s: Setup, m: Terms, w: World, c: Timed, at: nat) returns (ms: seq<Move>)
    requires s.timing.interval > 0 && c.now == s.timing.wait <= at + w.lag && c.asking == Some(Asking(0, []))
    requires AboutToAnswer(s, m, c.x) && c.stamps == [Stamp(0, at)]
    ensures Course(s, w, c, ms) && Patient(s, w, c, ms)
    ensures var x := End(s, w, c, ms).x;
      x.ledger.spent == 0 && Outflow(x.chain.log) == m.amount + m.fee
  {
    OnePoll(s.timing);
    var a := Answer(1, Poll(Told(false, 0), s.timing.wait, false, false, 0));
    AbsentGivesBack(s, m, c.x);
    assert StepOf(s, c, a) == Some(Resolve(1, Absent));
    CourseCons(s, w, c, a, []);
    ms := [a] + [];
  }

  lemma AbsentGivesBack(s: Setup, m: Terms, x: State)
    requires AboutToAnswer(s, m, x)
    ensures Enabled(x, Resolve(1, Absent)) && Enabled(x, Resolve(1, Unknown))
    ensures var y := Next(s, x, Resolve(1, Absent));
      y.ledger.spent == 0 && Outflow(y.chain.log) == m.amount + m.fee
  {
    OutflowAppend([], Entry(x.records[0].tx, 0));
  }

  /** At the end of a course whose loops run to their end, more left the wallet than is counted. */
  ghost predicate EndsLate(s: Setup, w: World, calls: nat, ms: seq<Move>)
    requires s.timing.interval > 0
  {
    && Course(s, w, Dawn(calls), ms) && Patient(s, w, Dawn(calls), ms)
    && var x := End(s, w, Dawn(calls), ms).x;
    Outflow(x.chain.log) > x.ledger.spent
  }

  lemma LateCourse(s: Setup, m: Terms, w: World) returns (ms: seq<Move>)
    requires s.timing.interval > 0 && Payable(s, m) && LawfulSigner(s) && !InWindow(s, w)
    ensures EndsLate(s, w, 2, ms)
  {
    PaymentCosts(s, m);
    var a := LoseOne(s, m, w);
    var b := TakeThenAnswer(s, m, w, End(s, w, Dawn(2), a));
    CourseConcat(s, w, Dawn(2), a, b);
    PatientConcat(s, w, Dawn(2), a, b);
    ms := a + b;
  }

  /** The time limit of the loop is long enough exactly when it covers the window in which a
      block can take a transaction and the age of an answer: then no course in which the loops run
      to their end is late, and otherwise one is, for every payment that the budget has room for. */
  lemma InTimeExactlyWhen(s: Setup, m: Terms, w: World)
    requires s.timing.interval > 0 && Payable(s, m) && LawfulSigner(s)
    ensures (forall calls, ms :: !EndsLate(s, w, calls, ms)) <==> InWindow(s, w)
  {
    if InWindow(s, w) {
      forall calls: nat, ms
        ensures !EndsLate(s, w, calls, ms)
      {
        if Course(s, w, Dawn(calls), ms) && Patient(s, w, Dawn(calls), ms) {
          NeverLateInTime(s, w, calls, ms);
        }
      }
    } else {
      var ms := LateCourse(s, m, w);
    }
  }

  /** The patience is needed: in every world in which a block can come at all, one question whose
      context is cancelled is enough. */
  lemma CancelledIsLate(s: Setup, m: Terms, w: World) returns (ms: seq<Move>)
    requires s.timing.interval > 0 && Payable(s, m) && LawfulSigner(s) && w.window > 0
    ensures Course(s, w, Dawn(2), ms)
    ensures var x := End(s, w, Dawn(2), ms).x;
      x.ledger.spent == 0 && Outflow(x.chain.log) == m.amount + m.fee > 0
  {
    PaymentCosts(s, m);
    var a := LoseOne(s, m, w);
    var b := CancelThenTake(s, m, w, End(s, w, Dawn(2), a));
    CourseConcat(s, w, Dawn(2), a, b);
    ms := a + b;
  }

  lemma CancelledPoll(t: Timing)
    requires t.interval > 0
    ensures var polls := [] + [Poll(Told(false, 0), 0, true, false, 0)];
      Ends(t, polls) && Wait(t, Stream(polls), 0).outcome == Absent && Arrival(t, polls) == 0
  {
  }

  lemma EarlyGivesBack(s: Setup, m: Terms, x: State)
    requires AboutToAsk(s, m, x) && x.chain.log == []
    ensures Enabled(x, Resolve(1, Absent)) && Enabled(x, Resolve(1, Unknown))
    ensures var y := Next(s, x, Resolve(1, Absent));
      && |y.records| == 1 && Enabled(y, Include(y.records[0].tx, 0))
      && var z := Next(s, y, Include(y.records[0].tx, 0));
      z.ledger.spent == 0 && Outflow(z.chain.log) == m.amount + m.fee
  {
    var y := Next(s, x, Resolve(1, Absent));
    assert y.records[0].tx == x.records[0].tx;
    OutflowAppend([], Entry(x.records[0].tx, 0));
  }

  lemma CancelThenTake(s: Setup, m: Terms, w: World, c: Timed) returns (ms: seq<Move>)
    requires s.timing.interval > 0 && JustLost(s, m, c) && w.window > 0
    ensures Course(s, w, c, ms)
    ensures var x := End(s, w, c, ms).x;
      x.ledger.spent == 0 && Outflow(x.chain.log) == m.amount + m.fee
  {
    CancelledPoll(s.timing);
    EarlyGivesBack(s, m, c.x);
    var a := Answer(1, Poll(Told(false, 0), 0, true, false, 0));
    var c1 := After(s, c, Ask(1));
    assert StepOf(s, c1, a) == Some(Resolve(1, Absent));
    var c2 := After(s, c1, a);
    CourseCons(s, w, c2, Take(0, 0), []);
    CourseCons(s, w, c1, a, [Take(0, 0)] + []);
    CourseCons(s, w, c, Ask(1), [a] + ([Take(0, 0)] + []));
    ms := [Ask(1)] + ([a] + ([Take(0, 0)] + []));
  }
}
