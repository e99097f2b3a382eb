/** What every step keeps. */
module Invariants {
  import opened Basics
  import opened Codec
  import opened Config
  import opened Polling
  import opened Ledgers
  import opened Payers
  import opened Clients
  import opened Systems

  /** A record holds what `Pay` puts in a payment, and the transaction that it signed. */
  ghost predicate WellMade(s: Setup, i: int, r: Record) {
    && r.pay.serial == i
    && r.pay.amount == Some(r.tx.amount) && 0 < r.tx.amount <= MaxPerCallAmount(s.cfg)
    && r.pay.fee == Some(r.tx.fee) && FeeAmount(s.cfg) == Ok(r.tx.fee) && 0 <= r.tx.fee
    && r.pay.sequence == r.tx.sequence && r.pay.txHash == s.hash(s.txBytes(r.tx))
  }

  ghost predicate RecordsInv(s: Setup, x: State) {
    forall i :: 0 <= i < |x.records| ==> WellMade(s, i, x.records[i])
  }

  ghost predicate IsRecord(x: State, pay: Payment, fate: Fate) {
    pay.serial < |x.records| && x.records[pay.serial].pay == pay && x.records[pay.serial].fate == fate
  }

  /** `open` is the list of the payments without an answer, each once, oldest first. */
  ghost predicate OpenInv(x: State) {
    Numbered(x.records) && x.ledger.open == OpenOf(x.records)
  }

  /** One call at a time is between the lock and the unlock. */
  ghost predicate LockInv(x: State) {
    && (x.holder.Some? ==> x.holder.value < |x.threads|)
    && (forall t :: 0 <= t < |x.threads| ==> (Locked(x.threads[t].stage) <==> x.holder == Some(t)))
  }

  /** A signed but undecided payment belongs to the call that holds the lock. */
  ghost predicate FlightInv(x: State) {
    && (forall i :: 0 <= i < |x.records| && x.records[i].fate.InFlight? ==>
          && x.holder.Some? && x.holder.value < |x.threads|
          && x.threads[x.holder.value].stage == Sending(x.records[i].pay))
    && (forall t :: 0 <= t < |x.threads| && x.threads[t].stage.Sending? ==>
          IsRecord(x, x.threads[t].stage.pay, InFlight))
  }

  ghost predicate StageOk(s: Setup, l: Ledger, stage: Stage) {
    match stage
    case Resolving(o, amount, fee, k) =>
      CheckOption(s.cfg, o) == Ok(amount) && FeeAmount(s.cfg) == Ok(fee) && k <= |l.open|
    case Reading(o, amount, fee) =>
      CheckOption(s.cfg, o) == Ok(amount) && FeeAmount(s.cfg) == Ok(fee)
      && WithinBudget(s.cfg, l.spent, amount, fee)
    case Signing(o, amount, fee, _) =>
      CheckOption(s.cfg, o) == Ok(amount) && FeeAmount(s.cfg) == Ok(fee)
      && WithinBudget(s.cfg, l.spent, amount, fee)
    case _ => true
  }

  ghost predicate StageInv(s: Setup, x: State) {
    forall t :: 0 <= t < |x.threads| ==> StageOk(s, x.ledger, x.threads[t].stage)
  }

  /** A call sends at most two requests, and the second one exactly when it signed. */
  ghost predicate CallOk(th: Thread) {
    && th.signs <= 1 && th.sends == (if th.stage.Start? then 0 else 1) + th.signs
    && (th.stage.Sending? ==> th.signs == 1)
    && (th.signs == 1 ==> th.stage.Sending? || th.stage.Done?)
  }

  ghost predicate CallInv(x: State) {
    forall t :: 0 <= t < |x.threads| ==> CallOk(x.threads[t])
  }

  /** A payment is disposed of once, at the moment it stops being undecided. */
  ghost predicate DisposalInv(x: State) {
    forall i :: 0 <= i < |x.records| ==>
      x.records[i].disposals == if x.records[i].fate.InFlight? then 0 else 1
  }

  /** Only the newest payment can be undecided: whoever signed it still holds the lock. */
  ghost predicate NewestInFlight(x: State) {
    forall i :: 0 <= i < |x.records| && x.records[i].fate.InFlight? ==> i == |x.records| - 1
  }

  /** The running sums are the sums over the records. */
  ghost predicate BooksInv(x: State) {
    x.ledger.spent == Total(x.records) && x.ledger.count == Standing(x.records)
  }

  ghost predicate BudgetInv(s: Setup, x: State) {
    BudgetAmount(s.cfg) == 0 || x.ledger.spent <= BudgetAmount(s.cfg)
  }

  /** Blocks hold signed transactions with rising sequences. */
  ghost predicate ChainInv(x: State) {
    && (forall j :: 0 <= j < |x.chain.log| ==>
          Signed(x, x.chain.log[j].tx) && x.chain.log[j].tx.sequence < x.chain.next)
    && (forall j, k :: 0 <= j < k < |x.chain.log| ==>
          x.chain.log[j].tx.sequence < x.chain.log[k].tx.sequence)
  }

  ghost predicate Inv(s: Setup, x: State) {
    && RecordsInv(s, x) && OpenInv(x) && LockInv(x) && FlightInv(x) && StageInv(s, x)
    && CallInv(x) && DisposalInv(x) && NewestInFlight(x) && BooksInv(x) && BudgetInv(s, x) && ChainInv(x)
  }

  lemma InitHolds(s: Setup, calls: nat)
    ensures Inv(s, Init(calls))
  {
  }

  lemma NewRecordIsWellMade(s: Setup, serial: nat, o: PaymentOption, amount: int, fee: int,
                            tx: Tx, clock: int)
    requires CheckOption(s.cfg, o) == Ok(amount) && FeeAmount(s.cfg) == Ok(fee)
    requires tx.amount == amount && tx.fee == fee
    requires MakePayment(s, serial, o, amount, fee, tx, clock).Some?
    ensures WellMade(s, serial,
      Record(MakePayment(s, serial, o, amount, fee, tx, clock).value, tx, InFlight, 0))
  {
  }

  lemma RecordsKeptOnSign(s: Setup, x: State, t: nat, signs: bool, clock: int)
    requires Enabled(x, Sign(t, signs, clock)) && RecordsInv(s, x) && StageInv(s, x)
    ensures RecordsInv(s, Next(s, x, Sign(t, signs, clock)))
  {
    var Signing(o, amount, fee, account) := x.threads[t].stage;
    assert StageOk(s, x.ledger, x.threads[t].stage);
    var tx := MakeTx(s, o, amount, fee, account.number, ChooseSequence(x.ledger, account.sequence));
    if signs && MakePayment(s, |x.records|, o, amount, fee, tx, clock).Some? {
      NewRecordIsWellMade(s, |x.records|, o, amount, fee, tx, clock);
    }
  }

  lemma RecordsKept(s: Setup, x: State, e: Event)
    requires Enabled(x, e) && RecordsInv(s, x) && StageInv(s, x)
    ensures RecordsInv(s, Next(s, x, e))
  {
    if e.Sign? {
      RecordsKeptOnSign(s, x, e.t, e.signs, e.clock);
    }
  }

  lemma LockKept(s: Setup, x: State, e: Event)
    requires Enabled(x, e) && LockInv(x)
    ensures LockInv(Next(s, x, e))
  {
  }

  lemma CallKept(s: Setup, x: State, e: Event)
    requires Enabled(x, e) && CallInv(x)
    ensures CallInv(Next(s, x, e))
  {
  }

  lemma DisposalKept(s: Setup, x: State, e: Event)
    requires Enabled(x, e) && DisposalInv(x) && OpenInv(x) && FlightInv(x)
    ensures DisposalInv(Next(s, x, e))
  {
    if e.Resolve? {
      OpenMember(x.records, x.threads[e.t].stage.k);
    }
  }

  /** Records are never forgotten, and what they say about a transaction never changes. */
  lemma RecordsGrow(s: Setup, x: State, e: Event)
    requires Enabled(x, e)
    ensures var y := Next(s, x, e);
      && |x.records| <= |y.records|
      && forall i :: 0 <= i < |x.records| ==>
           y.records[i].tx == x.records[i].tx && y.records[i].pay == x.records[i].pay
  {
  }

  lemma ChainKept(s: Setup, x: State, e: Event)
    requires Enabled(x, e) && ChainInv(x)
    ensures ChainInv(Next(s, x, e))
  {
    RecordsGrow(s, x, e);
    var y := Next(s, x, e);
    forall tx | Signed(x, tx)
      ensures Signed(y, tx)
    {
      var i :| 0 <= i < |x.records| && x.records[i].tx == tx;
      assert y.records[i].tx == tx;
    }
  }

  /** Events that touch neither the books nor the records nor who may send. */
  lemma FlightKeptQuietly(s: Setup, x: State, e: Event)
    requires Enabled(x, e) && FlightInv(x) && LockInv(x) && !e.Sign? && !e.Second? && !e.Resolve?
    ensures FlightInv(Next(s, x, e))
  {
  }

  lemma FlightKeptOnResolve(s: Setup, x: State, t: nat, outcome: Outcome)
    requires Enabled(x, Resolve(t, outcome)) && FlightInv(x) && LockInv(x) && OpenInv(x)
    ensures FlightInv(Next(s, x, Resolve(t, outcome)))
  {
    OpenMember(x.records, x.threads[t].stage.k);
  }

  lemma FlightKeptOnSign(s: Setup, x: State, t: nat, signs: bool, clock: int)
    requires Enabled(x, Sign(t, signs, clock)) && FlightInv(x) && LockInv(x)
    ensures FlightInv(Next(s, x, Sign(t, signs, clock)))
  {
  }

  lemma FlightKeptOnSecond(s: Setup, x: State, t: nat, reply: Reply)
    requires Enabled(x, Second(t, reply)) && FlightInv(x) && LockInv(x) && RecordsInv(s, x)
    ensures FlightInv(Next(s, x, Second(t, reply)))
  {
  }

  lemma FlightKept(s: Setup, x: State, e: Event)
    requires Enabled(x, e) && FlightInv(x) && LockInv(x) && OpenInv(x) && RecordsInv(s, x)
    ensures FlightInv(Next(s, x, e))
  {
    match e
    case Resolve(t, outcome) => FlightKeptOnResolve(s, x, t, outcome);
    case Sign(t, signs, clock) => FlightKeptOnSign(s, x, t, signs, clock);
    case Second(t, reply) => FlightKeptOnSecond(s, x, t, reply);
    case _ => FlightKeptQuietly(s, x, e);
  }

  /** What the second answer does to the books, by the fate that it gives the payment. */
  lemma DisposeByFate(s: Setup, l: Ledger, pay: Payment, reply: Reply)
    ensures var (l', fate) := (Dispose(s, l, pay, reply).0, SecondFate(s, pay, reply));
      && fate in {Fate.Open, Kept, Released}
      && l'.open == l.open + (if fate == Fate.Open then [pay] else [])
      && l'.spent == l.spent - (if fate == Released then Worth(pay.amount) + Worth(pay.fee) else 0)
      && l'.count == l.count - (if fate == Released then 1 else 0)
      && l'.nextSeq == l.nextSeq && l'.haveSeq == (l.haveSeq && fate != Released)
  {
    assert l.open + [] == l.open;
  }

  lemma OpenKeptOnResolve(s: Setup, x: State, t: nat, outcome: Outcome)
    requires Enabled(x, Resolve(t, outcome)) && OpenInv(x)
    ensures OpenInv(Next(s, x, Resolve(t, outcome)))
  {
    var y, k := Next(s, x, Resolve(t, outcome)), x.threads[t].stage.k;
    var i := x.ledger.open[k].serial;
    OpenMember(x.records, k);
    assert y.records == x.records[i := y.records[i]];
    if outcome.Unknown? {
      assert y.records[i] == x.records[i] && y.records == x.records;
    } else {
      OpenDrop(x.records, k, y.records[i]);
    }
  }

  lemma OpenKeptOnSecond(s: Setup, x: State, t: nat, reply: Reply)
    requires Enabled(x, Second(t, reply)) && OpenInv(x) && FlightInv(x) && NewestInFlight(x)
    ensures OpenInv(Next(s, x, Second(t, reply)))
  {
    var y, pay := Next(s, x, Second(t, reply)), x.threads[t].stage.pay;
    assert IsRecord(x, pay, InFlight) && pay.serial == |x.records| - 1;
    DisposeByFate(s, x.ledger, pay, reply);
    OpenNewest(x.records, y.records[pay.serial]);
    assert y.records == x.records[pay.serial := y.records[pay.serial]];
  }

  /** `y` has one new payment that is not decided yet, and the books of `x` with it. */
  ghost predicate Grew(x: State, y: State) {
    && |y.records| == |x.records| + 1
    && y.records == x.records + [y.records[|x.records|]]
    && var r := y.records[|x.records|];
    && r.fate.InFlight? && r.disposals == 0 && r.pay.serial == |x.records|
    && r.pay.sequence == r.tx.sequence
    && y.ledger == Commit(x.ledger, r.tx.amount, r.tx.fee, r.tx.sequence)
  }

  lemma SignGrows(s: Setup, x: State, t: nat, signs: bool, clock: int)
    requires Enabled(x, Sign(t, signs, clock))
    ensures var y := Next(s, x, Sign(t, signs, clock));
      Grew(x, y) || (y.records == x.records && y.ledger == x.ledger)
  {
  }

  lemma OpenKeptWhenGrown(x: State, y: State)
    requires Grew(x, y) && OpenInv(x)
    ensures OpenInv(y)
  {
    OpenAppend(x.records, y.records[|x.records|]);
  }

  lemma OpenKeptOnSign(s: Setup, x: State, t: nat, signs: bool, clock: int)
    requires Enabled(x, Sign(t, signs, clock)) && OpenInv(x)
    ensures OpenInv(Next(s, x, Sign(t, signs, clock)))
  {
    SignGrows(s, x, t, signs, clock);
    var y := Next(s, x, Sign(t, signs, clock));
    if Grew(x, y) {
      OpenKeptWhenGrown(x, y);
    }
  }

  lemma OpenKept(s: Setup, x: State, e: Event)
    requires Enabled(x, e) && OpenInv(x) && FlightInv(x) && NewestInFlight(x)
    ensures OpenInv(Next(s, x, e))
  {
    match e
    case Resolve(t, outcome) => OpenKeptOnResolve(s, x, t, outcome);
    case Second(t, reply) => OpenKeptOnSecond(s, x, t, reply);
    case Sign(t, signs, clock) => OpenKeptOnSign(s, x, t, signs, clock);
    case _ =>
  }

  lemma NewestKeptOnSign(s: Setup, x: State, t: nat, signs: bool, clock: int)
    requires Enabled(x, Sign(t, signs, clock)) && FlightInv(x) && LockInv(x)
    ensures NewestInFlight(Next(s, x, Sign(t, signs, clock)))
         || Next(s, x, Sign(t, signs, clock)).records == x.records
  {
    SignGrows(s, x, t, signs, clock);
    var y := Next(s, x, Sign(t, signs, clock));
    if Grew(x, y) {
      // The call that signs holds the lock, and it is not sending.
      assert Locked(x.threads[t].stage) && x.holder == Some(t);
      assert forall i :: 0 <= i < |x.records| ==> !x.records[i].fate.InFlight?;
    }
  }

  /** Other steps only decide payments. */
  lemma NewestKeptOtherwise(s: Setup, x: State, e: Event)
    requires Enabled(x, e) && NewestInFlight(x) && !e.Sign?
    ensures NewestInFlight(Next(s, x, e))
  {
    var y := Next(s, x, e);
    assert |y.records| == |x.records|;
    assert forall i :: 0 <= i < |x.records| && y.records[i].fate.InFlight? ==> x.records[i].fate.InFlight?;
  }

  lemma NewestKept(s: Setup, x: State, e: Event)
    requires Enabled(x, e) && NewestInFlight(x) && FlightInv(x) && LockInv(x)
    ensures NewestInFlight(Next(s, x, e))
  {
    if e.Sign? {
      NewestKeptOnSign(s, x, e.t, e.signs, e.clock);
    } else {
      NewestKeptOtherwise(s, x, e);
    }
  }

  lemma StageKept(s: Setup, x: State, e: Event)
    requires Enabled(x, e) && StageInv(s, x) && LockInv(x)
    ensures StageInv(s, Next(s, x, e))
  {
  }

  lemma BooksKeptOnResolve(s: Setup, x: State, t: nat, outcome: Outcome)
    requires Enabled(x, Resolve(t, outcome)) && BooksInv(x) && OpenInv(x) && RecordsInv(s, x)
    ensures BooksInv(Next(s, x, Resolve(t, outcome)))
  {
    var pay, y := x.ledger.open[x.threads[t].stage.k], Next(s, x, Resolve(t, outcome));
    OpenMember(x.records, x.threads[t].stage.k);
    assert WellMade(s, pay.serial, x.records[pay.serial]);
    TotalUpdate(x.records, pay.serial, y.records[pay.serial]);
    assert y.records == x.records[pay.serial := y.records[pay.serial]];
  }

  lemma BooksKeptOnSecond(s: Setup, x: State, t: nat, reply: Reply)
    requires Enabled(x, Second(t, reply)) && BooksInv(x) && FlightInv(x) && RecordsInv(s, x)
    ensures BooksInv(Next(s, x, Second(t, reply)))
  {
    var pay, y := x.threads[t].stage.pay, Next(s, x, Second(t, reply));
    assert IsRecord(x, pay, InFlight) && WellMade(s, pay.serial, x.records[pay.serial]);
    DisposeByFate(s, x.ledger, pay, reply);
    TotalUpdate(x.records, pay.serial, y.records[pay.serial]);
    assert y.records == x.records[pay.serial := y.records[pay.serial]];
  }

  lemma BooksKeptWhenGrown(x: State, y: State)
    requires Grew(x, y) && BooksInv(x)
    ensures BooksInv(y)
  {
    TotalAppend(x.records, y.records[|x.records|]);
  }

  lemma BooksKeptOnSign(s: Setup, x: State, t: nat, signs: bool, clock: int)
    requires Enabled(x, Sign(t, signs, clock)) && BooksInv(x)
    ensures BooksInv(Next(s, x, Sign(t, signs, clock)))
  {
    SignGrows(s, x, t, signs, clock);
    var y := Next(s, x, Sign(t, signs, clock));
    if Grew(x, y) {
      BooksKeptWhenGrown(x, y);
    }
  }

  lemma BooksKept(s: Setup, x: State, e: Event)
    requires Enabled(x, e) && BooksInv(x) && OpenInv(x) && RecordsInv(s, x) && FlightInv(x)
    ensures BooksInv(Next(s, x, e))
  {
    match e
    case Resolve(t, outcome) => BooksKeptOnResolve(s, x, t, outcome);
    case Second(t, reply) => BooksKeptOnSecond(s, x, t, reply);
    case Sign(t, signs, clock) => BooksKeptOnSign(s, x, t, signs, clock);
    case _ =>
  }

  /** An answer of the chain never raises the counted money. */
  lemma RefundIsNotNegative(s: Setup, x: State, t: nat, outcome: Outcome)
    requires Enabled(x, Resolve(t, outcome)) && OpenInv(x) && RecordsInv(s, x)
    ensures Next(s, x, Resolve(t, outcome)).ledger.spent <= x.ledger.spent
  {
    var pay := x.ledger.open[x.threads[t].stage.k];
    OpenMember(x.records, x.threads[t].stage.k);
    assert WellMade(s, pay.serial, x.records[pay.serial]);
  }

  lemma DisposalIsNotNegative(s: Setup, x: State, t: nat, reply: Reply)
    requires Enabled(x, Second(t, reply)) && FlightInv(x) && RecordsInv(s, x)
    ensures Next(s, x, Second(t, reply)).ledger.spent <= x.ledger.spent
  {
    var pay := x.threads[t].stage.pay;
    assert IsRecord(x, pay, InFlight) && WellMade(s, pay.serial, x.records[pay.serial]);
    DisposeByFate(s, x.ledger, pay, reply);
  }

  lemma BudgetKept(s: Setup, x: State, e: Event)
    requires Enabled(x, e) && BudgetInv(s, x) && StageInv(s, x) && OpenInv(x) && RecordsInv(s, x) && FlightInv(x)
    ensures BudgetInv(s, Next(s, x, e))
  {
    match e
    case Resolve(t, outcome) => RefundIsNotNegative(s, x, t, outcome);
    case Second(t, reply) => DisposalIsNotNegative(s, x, t, reply);
    case _ =>
  }

  /** Every step of every call, and of the chain, keeps all of it. */
  lemma StepKeeps(s: Setup, x: State, e: Event)
    requires Enabled(x, e) && Inv(s, x)
    ensures Inv(s, Next(s, x, e))
  {
    RecordsKept(s, x, e); LockKept(s, x, e); CallKept(s, x, e); DisposalKept(s, x, e);
    ChainKept(s, x, e); FlightKept(s, x, e); OpenKept(s, x, e); NewestKept(s, x, e);
    StageKept(s, x, e); BooksKept(s, x, e); BudgetKept(s, x, e);
  }

  lemma {:induction false} RunKeeps(s: Setup, x: State, es: seq<Event>)
    requires Possible(s, x, es) && Inv(s, x)
    ensures Inv(s, Run(s, x, es))
    decreases |es|
  {
    if es != [] {
      StepKeeps(s, x, es[0]);
      RunKeeps(s, Next(s, x, es[0]), es[1..]);
    }
  }

  lemma RunKeepsRecords(s: Setup, calls: nat, es: seq<Event>)
    requires Possible(s, Init(calls), es)
    ensures RecordsInv(s, Run(s, Init(calls), es)) && BooksInv(Run(s, Init(calls), es))
  {
    InitHolds(s, calls);
    RunKeeps(s, Init(calls), es);
  }

  lemma {:induction false} TotalBetween(rs: seq<Record>, worst: int)
    requires forall i :: 0 <= i < |rs| ==> 0 <= Counted(rs[i]) <= worst
    requires forall i :: 0 <= i < |rs| && rs[i].fate.Released? ==> Counted(rs[i]) == 0
    ensures 0 <= Total(rs) <= Standing(rs) * worst
  {
    if rs != [] {
      var n := |rs| - 1;
      TotalBetween(rs[..n], worst);
      var m := Standing(rs[..n]);
      assert (m + 1) * worst == m * worst + worst;
    }
  }

  lemma {:induction false} TotalIsNotNegative(rs: seq<Record>)
    requires forall i :: 0 <= i < |rs| ==> 0 <= Counted(rs[i])
    ensures 0 <= Total(rs)
  {
    if rs != [] {
      TotalIsNotNegative(rs[..|rs| - 1]);
    }
  }

  /** For every interleaving of any number of calls: the running sums are the sums over the
      payments, the counted money is never negative, and it is never above a budget that is set. */
  lemma BudgetHolds(s: Setup, calls: nat, es: seq<Event>)
    requires Possible(s, Init(calls), es)
    ensures var x := Run(s, Init(calls), es);
      && x.ledger.spent == Total(x.records) && x.ledger.count == Standing(x.records)
      && 0 <= x.ledger.spent
      && (BudgetAmount(s.cfg) != 0 ==> x.ledger.spent <= BudgetAmount(s.cfg))
  {
    InitHolds(s, calls);
    RunKeeps(s, Init(calls), es);
    var x := Run(s, Init(calls), es);
    forall i | 0 <= i < |x.records|
      ensures 0 <= Counted(x.records[i])
    {
      assert WellMade(s, i, x.records[i]);
    }
    TotalIsNotNegative(x.records);
  }

  /** The most that one payment can cost: the limit and the fee. */
  function WorstPrice(c: Settings): int
    requires FeeAmount(c).Ok?
  {
    MaxPerCallAmount(c) + FeeAmount(c).value
  }

  lemma CountedBetween(s: Setup, i: int, r: Record)
    requires WellMade(s, i, r)
    ensures 0 <= Counted(r) <= WorstPrice(s.cfg)
  {
  }

  /** The payments that stand cost at most the limit and the fee each. */
  lemma WorstCase(s: Setup, x: State)
    requires RecordsInv(s, x) && BooksInv(x) && FeeAmount(s.cfg).Ok?
    ensures 0 <= x.ledger.spent <= x.ledger.count * WorstPrice(s.cfg)
  {
    var worst := WorstPrice(s.cfg);
    forall i | 0 <= i < |x.records|
      ensures 0 <= Counted(x.records[i]) <= worst
    {
      CountedBetween(s, i, x.records[i]);
    }
    TotalBetween(x.records, worst);
  }

  /** For every interleaving: at most one payment is signed and undecided, the call that signed
      it holds the lock, every other payment was disposed of exactly once, and a call sends at
      most two requests and signs at most one payment. */
  lemma OneUndecidedAtMost(s: Setup, calls: nat, es: seq<Event>)
    requires Possible(s, Init(calls), es)
    ensures var x := Run(s, Init(calls), es);
      && (forall i, j :: 0 <= i < j < |x.records| ==>
            !x.records[i].fate.InFlight? || !x.records[j].fate.InFlight?)
      && (forall i :: 0 <= i < |x.records| && x.records[i].fate.InFlight? ==>
            x.holder.Some? && x.records[i].disposals == 0)
      && (forall i :: 0 <= i < |x.records| && !x.records[i].fate.InFlight? ==>
            x.records[i].disposals == 1)
      && (x.holder.None? ==> forall i :: 0 <= i < |x.records| ==> !x.records[i].fate.InFlight?)
      && (forall t :: 0 <= t < |x.threads| ==> x.threads[t].sends <= 2 && x.threads[t].signs <= 1)
  {
    InitHolds(s, calls);
    RunKeeps(s, Init(calls), es);
    var x := Run(s, Init(calls), es);
    assert forall t :: 0 <= t < |x.threads| ==> CallOk(x.threads[t]);
  }
}
