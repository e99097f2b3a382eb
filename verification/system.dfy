/** The payer as a step system: any number of concurrent calls of `Do`, one payer behind the
    lock of the client, and a chain that takes signed transactions whenever it likes. One event
    is one atomic step; between two steps of a call, any other step can happen. */
module Systems {
  import opened Basics
  import opened Codec
  import opened Config
  import opened Polling
  import opened Ledgers
  import opened Payers
  import opened Clients

  /** What became of a signed payment. `Stands` and `Reverted` were found in a block with code 0
      and with another code. */
  datatype Fate = InFlight | Open | Kept | Stands | Reverted | Released

  /** A signed payment, its transaction, its fate, and how often a call disposed of it. */
  datatype Record = Record(pay: Payment, tx: Tx, fate: Fate, disposals: nat)

  /** A transaction in a block, with its result code. */
  datatype Entry = Entry(tx: Tx, code: nat)

  /** The account of the payer on the chain: its next sequence, and what reached a block. */
  datatype Chain = Chain(next: nat, log: seq<Entry>)

  datatype Stage =
    | Start                                                     // no request is out
    | Waiting(o: PaymentOption)                                 // waits for the lock of the client
    | Resolving(o: PaymentOption, amount: int, fee: int, k: nat)   // asks about open payment k
    | Reading(o: PaymentOption, amount: int, fee: int)             // asks for the account
    | Signing(o: PaymentOption, amount: int, fee: int, account: Account)
    | Sending(pay: Payment)                                     // the second request is out
    | Done

  datatype Thread = Thread(stage: Stage, sends: nat, signs: nat)

  datatype State = State(
    ledger: Ledger, records: seq<Record>, chain: Chain, threads: seq<Thread>, holder: Option<nat>)

  datatype Event =
    | First(t: nat, reply: Reply)
    | Enter(t: nat)
    | Resolve(t: nat, outcome: Outcome)
    | CheckBudget(t: nat)
    | ReadAccount(t: nat, account: Option<Account>)
    | Sign(t: nat, signs: bool, clock: int)
    | Second(t: nat, reply: Reply)
    | Include(tx: Tx, code: nat)       // a block takes a signed transaction
    | Foreign(next: nat)               // the account moves on without the payer

  function Init(calls: nat): State {
    State(EMPTY, [], Chain(0, []), seq(calls, _ => Thread(Start, 0, 0)), None)
  }

  predicate Locked(stage: Stage) {
    !stage.Start? && !stage.Waiting? && !stage.Done?
  }

  predicate Signed(x: State, tx: Tx) {
    exists i :: 0 <= i < |x.records| && x.records[i].tx == tx
  }

  predicate Enabled(x: State, e: Event) {
    match e
    case First(t, _) => t < |x.threads| && x.threads[t].stage.Start?
    case Enter(t) => t < |x.threads| && x.threads[t].stage.Waiting? && x.holder.None?
    case Resolve(t, _) =>
      t < |x.threads| && x.threads[t].stage.Resolving? && x.threads[t].stage.k < |x.ledger.open|
      && x.ledger.open[x.threads[t].stage.k].serial < |x.records|
    case CheckBudget(t) =>
      t < |x.threads| && x.threads[t].stage.Resolving? && x.threads[t].stage.k == |x.ledger.open|
    case ReadAccount(t, _) => t < |x.threads| && x.threads[t].stage.Reading?
    case Sign(t, _, _) => t < |x.threads| && x.threads[t].stage.Signing?
    case Second(t, _) =>
      t < |x.threads| && x.threads[t].stage.Sending? && x.threads[t].stage.pay.serial < |x.records|
    // The signature is the payer's, and the chain takes the sequences one by one.
    case Include(tx, _) => Signed(x, tx) && tx.sequence == x.chain.next
    case Foreign(next) => next >= x.chain.next
  }

  function Move(x: State, t: nat, stage: Stage): State
    requires t < |x.threads|
  {
    x.(threads := x.threads[t := x.threads[t].(stage := stage)],
       holder := if Locked(stage) then Some(t) else None)
  }

  function FateOf(outcome: Outcome): Fate {
    match outcome
    case Unknown => Open
    case Absent => Released
    case InBlock(code) => if code == 0 then Stands else Reverted
  }

  function Settle(x: State, serial: nat, fate: Fate, disposals: nat): State
    requires serial < |x.records|
  {
    x.(records := x.records[serial := x.records[serial].(fate := fate,
         disposals := x.records[serial].disposals + disposals)])
  }

  function AfterFirst(s: Setup, x: State, t: nat, reply: Reply): State
    requires t < |x.threads|
  {
    var o := Wanted(s, reply);
    var stage := if o.Some? then Waiting(o.value) else Done;
    x.(threads := x.threads[t := Thread(stage, x.threads[t].sends + 1, x.threads[t].signs)])
  }

  function AfterEnter(s: Setup, x: State, t: nat): State
    requires t < |x.threads| && x.threads[t].stage.Waiting?
  {
    var o := x.threads[t].stage.o;
    var amount, fee := CheckOption(s.cfg, o), FeeAmount(s.cfg);
    Move(x, t, if amount.Err? || fee.Err? then Done else Resolving(o, amount.value, fee.value, 0))
  }

  function AfterResolved(x: State, t: nat, outcome: Outcome): State
    requires Enabled(x, Resolve(t, outcome))
  {
    var stage := x.threads[t].stage;
    var y := Settle(x, x.ledger.open[stage.k].serial, FateOf(outcome), 0)
               .(ledger := ResolveOne(x.ledger, stage.k, outcome));
    Move(y, t, if outcome.Unknown? then stage.(k := stage.k + 1) else stage)
  }

  function AfterSign(s: Setup, x: State, t: nat, signs: bool, clock: int): State
    requires t < |x.threads| && x.threads[t].stage.Signing?
  {
    var Signing(o, amount, fee, account) := x.threads[t].stage;
    var sequence := ChooseSequence(x.ledger, account.sequence);
    var tx := MakeTx(s, o, amount, fee, account.number, sequence);
    var pay := MakePayment(s, |x.records|, o, amount, fee, tx, clock);
    if !signs || pay.None? then Move(x, t, Done)
    else
      var y := Move(x, t, Sending(pay.value));
      y.(ledger := Commit(x.ledger, amount, fee, sequence),
         records := x.records + [Record(pay.value, tx, InFlight, 0)],
         threads := y.threads[t := Thread(Sending(pay.value), y.threads[t].sends + 1, y.threads[t].signs + 1)])
  }

  function SecondFate(s: Setup, pay: Payment, reply: Reply): Fate {
    match reply
    case NoReply => if pay.txHash == "" then Released else Open
    case Reply(status, _, header, _) =>
      if PaymentWorked(status, ReadPaymentResponse(s.json, header)) then Kept else Released
  }

  function Next(s: Setup, x: State, e: Event): State
    requires Enabled(x, e)
  {
    match e
    case First(t, reply) => AfterFirst(s, x, t, reply)
    case Enter(t) => AfterEnter(s, x, t)
    case Resolve(t, outcome) => AfterResolved(x, t, outcome)
    case CheckBudget(t) =>
      var Resolving(o, amount, fee, _) := x.threads[t].stage;
      Move(x, t, if WithinBudget(s.cfg, x.ledger.spent, amount, fee) then Reading(o, amount, fee) else Done)
    case ReadAccount(t, account) =>
      var Reading(o, amount, fee) := x.threads[t].stage;
      Move(x, t, if account.Some? then Signing(o, amount, fee, account.value) else Done)
    case Sign(t, signs, clock) => AfterSign(s, x, t, signs, clock)
    case Second(t, reply) =>
      var pay := x.threads[t].stage.pay;
      Move(Settle(x, pay.serial, SecondFate(s, pay, reply), 1)
             .(ledger := Dispose(s, x.ledger, pay, reply).0), t, Done)
    case Include(tx, code) => x.(chain := Chain(x.chain.next + 1, x.chain.log + [Entry(tx, code)]))
    case Foreign(next) => x.(chain := x.chain.(next := next))
  }

  predicate Possible(s: Setup, x: State, es: seq<Event>)
    decreases |es|
  {
    es == [] || (Enabled(x, es[0]) && Possible(s, Next(s, x, es[0]), es[1..]))
  }

  /** Where a run ends. */
  function Run(s: Setup, x: State, es: seq<Event>): State
    requires Possible(s, x, es)
    decreases |es|
  {
    if es == [] then x else Run(s, Next(s, x, es[0]), es[1..])
  }

  /** What the books count for a payment: the price and the fee, or the fee alone, or nothing. */
  function Counted(r: Record): int {
    match r.fate
    case InFlight | Open | Kept | Stands => r.tx.amount + r.tx.fee
    case Reverted => r.tx.fee
    case Released => 0
  }

  function Total(rs: seq<Record>): int {
    if rs == [] then 0 else Total(rs[..|rs| - 1]) + Counted(rs[|rs| - 1])
  }

  function Standing(rs: seq<Record>): nat {
    if rs == [] then 0
    else Standing(rs[..|rs| - 1]) + if rs[|rs| - 1].fate.Released? then 0 else 1
  }

  lemma {:induction false} TotalUpdate(rs: seq<Record>, i: nat, r: Record)
    requires i < |rs|
    ensures Total(rs[i := r]) == Total(rs) - Counted(rs[i]) + Counted(r)
    ensures Standing(rs[i := r]) == Standing(rs) - (if rs[i].fate.Released? then 0 else 1)
                                    + (if r.fate.Released? then 0 else 1)
  {
    var n := |rs| - 1;
    if i < n {
      TotalUpdate(rs[..n], i, r);
      assert rs[i := r][..n] == rs[..n][i := r];
    } else {
      assert rs[i := r][..n] == rs[..n];
    }
  }

  lemma TotalAppend(rs: seq<Record>, r: Record)
    ensures Total(rs + [r]) == Total(rs) + Counted(r)
    ensures Standing(rs + [r]) == Standing(rs) + if r.fate.Released? then 0 else 1
  {
    assert (rs + [r])[..|rs|] == rs;
  }

  predicate Numbered(rs: seq<Record>) {
    forall i :: 0 <= i < |rs| ==> rs[i].pay.serial == i
  }

  /** The payments that are left open, oldest first. */
  function OpenOf(rs: seq<Record>): seq<Payment> {
    if rs == [] then []
    else
      var last := rs[|rs| - 1];
      OpenOf(rs[..|rs| - 1]) + if last.fate == Fate.Open then [last.pay] else []
  }

  lemma {:induction false} OpenMember(rs: seq<Record>, k: nat)
    requires Numbered(rs) && k < |OpenOf(rs)|
    ensures var pay := OpenOf(rs)[k];
      pay.serial < |rs| && rs[pay.serial].pay == pay && rs[pay.serial].fate == Fate.Open
  {
    var n := |rs| - 1;
    if k < |OpenOf(rs[..n])| {
      OpenMember(rs[..n], k);
    }
  }

  /** Closing a payment takes it out of the list and leaves the others where they are. */
  lemma {:induction false} OpenDrop(rs: seq<Record>, k: nat, r: Record)
    requires Numbered(rs) && k < |OpenOf(rs)| && r.fate != Fate.Open
    ensures OpenOf(rs)[k].serial < |rs|
    ensures OpenOf(rs[OpenOf(rs)[k].serial := r]) == Without(OpenOf(rs), k)
  {
    OpenMember(rs, k);
    var n, i := |rs| - 1, OpenOf(rs)[k].serial;
    if k < |OpenOf(rs[..n])| {
      OpenMember(rs[..n], k);
      OpenDrop(rs[..n], k, r);
      assert rs[i := r][..n] == rs[..n][i := r];
    } else {
      assert rs[i := r][..n] == rs[..n];
    }
  }

  /** Deciding the newest payment adds it to the end of the list, if it stays open. */
  lemma OpenNewest(rs: seq<Record>, r: Record)
    requires rs != [] && rs[|rs| - 1].fate != Fate.Open
    ensures OpenOf(rs[|rs| - 1 := r]) == OpenOf(rs) + if r.fate == Fate.Open then [r.pay] else []
  {
    var n := |rs| - 1;
    assert rs[n := r][..n] == rs[..n];
  }

  lemma OpenAppend(rs: seq<Record>, r: Record)
    requires r.fate != Fate.Open
    ensures OpenOf(rs + [r]) == OpenOf(rs)
  {
    assert (rs + [r])[..|rs|] == rs;
  }
}
