/** Two runs that the comments of the source do not expect, in every setup that can pay at all,
    and what becomes of a payment that the sidecar never says anything about. */
module Witnesses {
  import opened Basics
  import opened Codec
  import opened Config
  import opened Polling
  import opened Ledgers
  import opened Payers
  import opened Clients
  import opened Systems
  import opened Invariants
  import opened NeverLate
  import opened Exactness
  import opened Simulation
  import opened Sequences

  /** The sidecar asks for a price that the payer is ready to pay, and nothing but the budget
      stops the payment. */
  ghost predicate CanPay(s: Setup, ask: Reply, o: PaymentOption, amount: int, fee: int) {
    && Wanted(s, ask) == Some(o) && CheckOption(s.cfg, o) == Ok(amount) && FeeAmount(s.cfg) == Ok(fee)
    && LawfulSigner(s) && forall v :: s.json.writePayload(v).Some?
  }

  const REFUSAL := Reply(402, [], [], None)

  predicate Silent(e: Event) {
    e.Resolve? ==> e.outcome.Unknown? || e.outcome.Absent?
  }

  predicate AllSilent(es: seq<Event>) {
    forall i :: 0 <= i < |es| ==> Silent(es[i])
  }

  lemma SilentConcat(a: seq<Event>, b: seq<Event>)
    requires AllSilent(a) && AllSilent(b)
    ensures AllSilent(a + b)
  {
  }

  /** Who reports no failed transaction invents none. */
  lemma {:induction false} SilentIsHonest(s: Setup, x: State, es: seq<Event>)
    requires Possible(s, x, es) && AllSilent(es)
    ensures HonestRun(s, x, es)
    decreases |es|
  {
    if es != [] {
      assert Silent(es[0]);
      SilentIsHonest(s, Next(s, x, es[0]), es[1..]);
    }
  }

  function Unknowns(n: nat): (r: seq<Outcome>)
    ensures |r| == n && forall i :: 0 <= i < n ==> r[i] == Unknown
  {
    if n == 0 then [] else [Unknown] + Unknowns(n - 1)
  }

  lemma {:induction false} UnknownsChangeNothing(l: Ledger, k: nat, n: nat)
    requires k + n == |l.open|
    ensures ResolveFrom(l, k, Unknowns(n)) == l
    decreases n
  {
    if n > 0 {
      UnknownsChangeNothing(l, k + 1, n - 1);
      assert Unknowns(n)[1..] == Unknowns(n - 1);
    }
  }

  lemma {:induction false} ResolveEventsAreSilent(t: nat, n: nat)
    ensures AllSilent(ResolveEvents(t, Unknowns(n)))
  {
    if n > 0 {
      ResolveEventsAreSilent(t, n - 1);
      assert Unknowns(n)[1..] == Unknowns(n - 1);
    }
  }

  function TxFor(s: Setup, x: State, o: PaymentOption, amount: int, fee: int, account: Account): Tx {
    MakeTx(s, o, amount, fee, account.number, ChooseSequence(x.ledger, account.sequence))
  }

  /** Call `t` paid, and the answer decided its payment; all else is as it was. */
  ghost predicate Paid(s: Setup, x: State, y: State, t: nat, tx: Tx, fate: Fate) {
    && OnlyMoved(x, y, t) && y.holder == None
    && |y.records| == |x.records| + 1 && y.records[..|x.records|] == x.records
    && var r := y.records[|x.records|];
    && r.tx == tx && r.fate == fate
    && y.ledger.haveSeq == (fate != Released) && y.ledger.nextSeq == Succ(tx.sequence)
    && y.ledger.spent == x.ledger.spent + (if fate == Released then 0 else tx.amount + tx.fee)
    && y.ledger.open == x.ledger.open + (if fate == Released then [] else [r.pay])
  }

  lemma SigningPays(s: Setup, x: State, y: State, t: nat, o: PaymentOption, amount: int, fee: int,
                    account: Account, w: PayWorld, reply: Reply)
    requires t < |x.threads| && x.threads[t].stage.Resolving?
    requires WithinBudget(s.cfg, x.ledger.spent, amount, fee)
    requires LawfulSigner(s) && forall v :: s.json.writePayload(v).Some?
    requires w.account == Some(account) && w.signs
    requires EndsAs(s, x, y, t, o, amount, fee, w, reply)
    requires reply.NoReply? || reply == REFUSAL
    ensures Paid(s, x, y, t, TxFor(s, x, o, amount, fee, account),
                 if reply.NoReply? then Fate.Open else Released)
  {
    var tx := TxFor(s, x, o, amount, fee, account);
    var (l, r) := SignOutcome(s, x.ledger, |x.records|, o, amount, fee, w);
    assert s.json.writePayload(MakePayload(s, o, amount, tx, w.clock)).Some?;
    assert r.Ok? && r.value.txHash != "";
    DisposeByFate(s, l, r.value, reply);
    assert x.ledger.open + [] == x.ledger.open;
  }

  /** The last steps of a call that asked about all open payments. */
  lemma PayNow(s: Setup, x: State, t: nat, o: PaymentOption, amount: int, fee: int,
               account: Account, reply: Reply) returns (es: seq<Event>)
    requires WithinBudget(s.cfg, x.ledger.spent, amount, fee)
    requires LawfulSigner(s) && forall v :: s.json.writePayload(v).Some?
    requires t < |x.threads| && x.threads[t].stage == Resolving(o, amount, fee, |x.ledger.open|)
    requires reply.NoReply? || reply == REFUSAL
    ensures Possible(s, x, es) && AllSilent(es) && OfCall(es, reply)
    ensures Paid(s, x, Run(s, x, es), t, TxFor(s, x, o, amount, fee, account),
                 if reply.NoReply? then Fate.Open else Released)
  {
    var w := PayWorld(_ => Poll(Status.Failed, 0, true, false, 0), Some(account), 0, true);
    es := SignIsARun(s, x, t, w, reply);
    SigningPays(s, x, Run(s, x, es), t, o, amount, fee, account, w, reply);
  }

  /** The part of such a call under the lock. */
  lemma PayLocked(s: Setup, x: State, t: nat, o: PaymentOption, amount: int, fee: int,
                  account: Account, reply: Reply) returns (es: seq<Event>)
    requires WithinBudget(s.cfg, x.ledger.spent, amount, fee)
    requires LawfulSigner(s) && forall v :: s.json.writePayload(v).Some?
    requires Asks(x, t, o, amount, fee, 0, Thread(Start, 1, 0))
    requires reply.NoReply? || reply == REFUSAL
    ensures Possible(s, x, es) && AllSilent(es)
    ensures Paid(s, x, Run(s, x, es), t, TxFor(s, x, o, amount, fee, account),
                 if reply.NoReply? then Fate.Open else Released)
  {
    var n := |x.ledger.open|;
    ResolveIsARun(s, x, t, o, amount, fee, 0, Thread(Start, 1, 0), Unknowns(n));
    UnknownsChangeNothing(x.ledger, 0, n);
    ResolveEventsAreSilent(t, n);
    var y := Run(s, x, ResolveEvents(t, Unknowns(n)));
    var rest := PayNow(s, y, t, o, amount, fee, account, reply);
    RunConcat(s, x, ResolveEvents(t, Unknowns(n)), rest);
    es := ResolveEvents(t, Unknowns(n)) + rest;
  }

  /** A call that wants to pay, once it holds the lock. */
  lemma StartsPaying(s: Setup, x: State, t: nat, ask: Reply, o: PaymentOption, amount: int, fee: int)
    requires CanPay(s, ask, o, amount, fee) && x.holder.None?
    requires t < |x.threads| && x.threads[t] == Thread(Start, 0, 0)
    ensures Enabled(x, First(t, ask)) && Enabled(Next(s, x, First(t, ask)), Enter(t))
    ensures Next(s, Next(s, x, First(t, ask)), Enter(t))
         == x.(threads := x.threads[t := Thread(Resolving(o, amount, fee, 0), 1, 0)], holder := Some(t))
  {
    var x1 := Next(s, x, First(t, ask));
    assert x1.threads[t] == Thread(Waiting(o), 1, 0);
    assert x1.threads[t := Thread(Resolving(o, amount, fee, 0), 1, 0)]
        == x.threads[t := Thread(Resolving(o, amount, fee, 0), 1, 0)];
  }

  lemma StartRun(s: Setup, x: State, t: nat, ask: Reply, o: PaymentOption, amount: int, fee: int)
    returns (es: seq<Event>)
    requires CanPay(s, ask, o, amount, fee) && x.holder.None?
    requires t < |x.threads| && x.threads[t] == Thread(Start, 0, 0)
    ensures Possible(s, x, es) && AllSilent(es) && OfCall(es, NoReply)
    ensures Run(s, x, es)
         == x.(threads := x.threads[t := Thread(Resolving(o, amount, fee, 0), 1, 0)], holder := Some(t))
  {
    StartsPaying(s, x, t, ask, o, amount, fee);
    RunCons(s, Next(s, x, First(t, ask)), Enter(t), []);
    RunCons(s, x, First(t, ask), [Enter(t)] + []);
    es := [First(t, ask)] + ([Enter(t)] + []);
  }

  /** A call that asks about the open payments in vain, pays, and gets no answer or a refusal. */
  lemma PayRun(s: Setup, x: State, t: nat, ask: Reply, o: PaymentOption, amount: int, fee: int,
               account: Account, reply: Reply) returns (es: seq<Event>)
    requires CanPay(s, ask, o, amount, fee) && WithinBudget(s.cfg, x.ledger.spent, amount, fee)
    requires OpenInv(x) && x.holder.None?
    requires t < |x.threads| && x.threads[t] == Thread(Start, 0, 0)
    requires reply.NoReply? || reply == REFUSAL
    ensures Possible(s, x, es) && AllSilent(es)
    ensures Paid(s, x, Run(s, x, es), t, TxFor(s, x, o, amount, fee, account),
                 if reply.NoReply? then Fate.Open else Released)
  {
    var begin := StartRun(s, x, t, ask, o, amount, fee);
    var rest := PayLocked(s, Run(s, x, begin), t, o, amount, fee, account, reply);
    RunConcat(s, x, begin, rest);
    SilentConcat(begin, rest);
    es := begin + rest;
  }

  /** The account that the sidecar reports once `n` payments reached a block. */
  function AccountAt(number: uint64, n: nat): Account
    requires n < UINT64_LIMIT
  {
    Account(number, n)
  }

  /** The terms of a payment, how the sidecar asks call `k` for it, and the account that pays. */
  datatype Terms = Terms(ask: nat -> Reply, o: PaymentOption, amount: int, fee: int, number: uint64)

  ghost predicate PayableBy(s: Setup, m: Terms, k: nat) {
    CanPay(s, m.ask(k), m.o, m.amount, m.fee) && WithinBudget(s.cfg, 0, m.amount, m.fee)
  }

  /** Every call can pay, as long as the books count nothing else. */
  ghost predicate Payable(s: Setup, m: Terms) {
    forall k: nat :: PayableBy(s, m, k)
  }

  lemma PaymentCosts(s: Setup, m: Terms)
    requires Payable(s, m)
    ensures m.amount > 0 && m.fee >= 0 && FeeAmount(s.cfg) == Ok(m.fee)
  {
    assert PayableBy(s, m, 0);
  }

  /** `n * cost` */
  function CostOf(n: nat, cost: int): int {
    if n == 0 then 0 else CostOf(n - 1, cost) + cost
  }

  /** After `n` rounds: `n` transactions are in blocks, all their payments were given back, and
      the newest payment is the only open one. */
  ghost predicate Round(s: Setup, x: State, m: Terms, n: nat) {
    && n < UINT64_LIMIT && x.holder.None?
    && n < |x.threads| && (forall u :: n < u < |x.threads| ==> x.threads[u] == Thread(Start, 0, 0))
    && |x.records| == n + 1 && x.ledger.open == [x.records[n].pay]
    && x.records[n].tx == MakeTx(s, m.o, m.amount, m.fee, m.number, n)
    && x.ledger.spent == m.amount + m.fee
    && x.chain.next == n && Outflow(x.chain.log) == CostOf(n, m.amount + m.fee)
  }

  /** The same in the middle of the next round, when its call was told `Absent`. */
  ghost predicate GivenBack(s: Setup, x: State, m: Terms, n: nat) {
    && n < UINT64_LIMIT && n + 1 < |x.threads|
    && x.threads[n + 1].stage == Resolving(m.o, m.amount, m.fee, 0) && x.holder == Some(n + 1)
    && (forall u :: n + 1 < u < |x.threads| ==> x.threads[u] == Thread(Start, 0, 0))
    && |x.records| == n + 1 && x.ledger.open == [] && x.ledger.spent == 0 && !x.ledger.haveSeq
  }

  lemma GiveBack(s: Setup, x: State, m: Terms, n: nat)
    requires n < UINT64_LIMIT && n + 1 < |x.threads| && x.holder == Some(n + 1)
    requires x.threads[n + 1].stage == Resolving(m.o, m.amount, m.fee, 0)
    requires forall u :: n + 1 < u < |x.threads| ==> x.threads[u] == Thread(Start, 0, 0)
    requires |x.records| == n + 1 && x.ledger.open == [x.records[n].pay] && WellMade(s, n, x.records[n])
    requires x.records[n].tx.amount == m.amount && x.records[n].tx.fee == m.fee
    requires x.ledger.spent == m.amount + m.fee
    ensures Enabled(x, Resolve(n + 1, Absent))
    ensures var y := Next(s, x, Resolve(n + 1, Absent));
      GivenBack(s, y, m, n) && y.chain == x.chain && y.records[n].tx == x.records[n].tx
  {
  }

  lemma StartRound(s: Setup, x: State, m: Terms, t: nat) returns (es: seq<Event>)
    requires Payable(s, m) && x.holder.None? && t < |x.threads| && x.threads[t] == Thread(Start, 0, 0)
    ensures Possible(s, x, es) && AllSilent(es) && OfCall(es, NoReply)
    ensures Run(s, x, es)
         == x.(threads := x.threads[t := Thread(Resolving(m.o, m.amount, m.fee, 0), 1, 0)], holder := Some(t))
  {
    assert PayableBy(s, m, t);
    es := StartRun(s, x, t, m.ask(t), m.o, m.amount, m.fee);
  }

  /** With empty books, call `t` pays, and gets no answer. */
  lemma LoseNext(s: Setup, x: State, m: Terms, t: nat) returns (es: seq<Event>)
    requires Payable(s, m) && t < |x.threads| && t < UINT64_LIMIT
    requires x.threads[t].stage == Resolving(m.o, m.amount, m.fee, 0)
    requires x.ledger.open == [] && x.ledger.spent == 0
    ensures Possible(s, x, es) && AllSilent(es) && OfCall(es, NoReply)
    ensures Paid(s, x, Run(s, x, es), t, TxFor(s, x, m.o, m.amount, m.fee, AccountAt(m.number, t)), Fate.Open)
  {
    assert PayableBy(s, m, t);
    es := PayNow(s, x, t, m.o, m.amount, m.fee, AccountAt(m.number, t), NoReply);
  }

  /** The call of the next round asks about the open payment, and is told too early that the
      chain does not hold it. */
  lemma AbsentRun(s: Setup, x: State, m: Terms, n: nat) returns (es: seq<Event>)
    requires Payable(s, m) && Round(s, x, m, n) && n + 1 < |x.threads| && WellMade(s, n, x.records[n])
    ensures Possible(s, x, es) && AllSilent(es)
    ensures GivenBack(s, Run(s, x, es), m, n) && Run(s, x, es).chain == x.chain
    ensures Run(s, x, es).records[n].tx == x.records[n].tx && |Run(s, x, es).threads| == |x.threads|
  {
    var t := n + 1;
    var begin := StartRound(s, x, m, t);
    var y := Run(s, x, begin);
    GiveBack(s, y, m, n);
    RunCons(s, y, Resolve(t, Absent), []);
    RunConcat(s, x, begin, [Resolve(t, Absent)] + []);
    SilentConcat(begin, [Resolve(t, Absent)] + []);
    es := begin + ([Resolve(t, Absent)] + []);
  }

  lemma {:induction false} OutflowAppend(log: seq<Entry>, e: Entry)
    ensures Outflow(log + [e]) == Outflow(log) + Cost(e)
  {
    if log == [] {
      assert log + [e] == [e] && Outflow([e]) == Cost(e) + Outflow([]);
    } else {
      OutflowAppend(log[1..], e);
      assert (log + [e])[1..] == log[1..] + [e];
    }
  }

  /** A block takes the payment that was given back. */
  lemma BlockTakes(s: Setup, x: State, m: Terms, n: nat)
    requires GivenBack(s, x, m, n) && x.records[n].tx == MakeTx(s, m.o, m.amount, m.fee, m.number, n)
    requires x.chain.next == n && Outflow(x.chain.log) == CostOf(n, m.amount + m.fee)
    ensures Enabled(x, Include(x.records[n].tx, 0))
    ensures var y := Next(s, x, Include(x.records[n].tx, 0));
      && GivenBack(s, y, m, n) && |y.threads| == |x.threads|
      && y.chain.next == n + 1 && Outflow(y.chain.log) == CostOf(n + 1, m.amount + m.fee)
  {
    OutflowAppend(x.chain.log, Entry(x.records[n].tx, 0));
  }

  /** The call that was told `Absent` pays with the next sequence, and gets no answer. */
  lemma PayAgain(s: Setup, x: State, m: Terms, n: nat) returns (es: seq<Event>)
    requires Payable(s, m) && GivenBack(s, x, m, n) && n + 1 < UINT64_LIMIT
    requires x.chain.next == n + 1 && Outflow(x.chain.log) == CostOf(n + 1, m.amount + m.fee)
    ensures Possible(s, x, es) && AllSilent(es)
    ensures Round(s, Run(s, x, es), m, n + 1) && |Run(s, x, es).threads| == |x.threads|
  {
    es := LoseNext(s, x, m, n + 1);
  }

  /** One round: the open payment is given back too early, a block takes it, and the next
      payment gets no answer either. */
  lemma NextRound(s: Setup, x: State, m: Terms, n: nat) returns (es: seq<Event>)
    requires Payable(s, m) && Round(s, x, m, n) && WellMade(s, n, x.records[n])
    requires n + 1 < |x.threads| && n + 1 < UINT64_LIMIT
    ensures Possible(s, x, es) && AllSilent(es)
    ensures Round(s, Run(s, x, es), m, n + 1) && |Run(s, x, es).threads| == |x.threads|
  {
    var a := AbsentRun(s, x, m, n);
    var y := Run(s, x, a);
    BlockTakes(s, y, m, n);
    var take := Include(y.records[n].tx, 0);
    var b := PayAgain(s, Next(s, y, take), m, n);
    RunCons(s, y, take, b);
    RunConcat(s, x, a, [take] + b);
    SilentConcat([take], b);
    SilentConcat(a, [take] + b);
    es := a + ([take] + b);
  }

  lemma FirstRound(s: Setup, m: Terms, calls: nat) returns (es: seq<Event>)
    requires Payable(s, m) && 0 < calls
    ensures Possible(s, Init(calls), es) && AllSilent(es) && OfCall(es, NoReply)
    ensures Round(s, Run(s, Init(calls), es), m, 0) && |Run(s, Init(calls), es).threads| == calls
  {
    var x0 := Init(calls);
    var begin := StartRound(s, x0, m, 0);
    var rest := LoseNext(s, Run(s, x0, begin), m, 0);
    RunConcat(s, x0, begin, rest);
    SilentConcat(begin, rest);
    OfCallConcat(begin, rest, NoReply);
    es := begin + rest;
  }

  lemma NewestIsWellMade(s: Setup, calls: nat, es: seq<Event>, n: nat)
    requires Possible(s, Init(calls), es) && n < |Run(s, Init(calls), es).records|
    ensures WellMade(s, n, Run(s, Init(calls), es).records[n])
  {
    RunKeepsRecords(s, calls, es);
  }

  lemma OneMoreRound(s: Setup, m: Terms, n: nat, calls: nat, before: seq<Event>) returns (es: seq<Event>)
    requires Payable(s, m) && n + 1 < calls && n + 1 < UINT64_LIMIT
    requires Possible(s, Init(calls), before) && AllSilent(before)
    requires Round(s, Run(s, Init(calls), before), m, n) && |Run(s, Init(calls), before).threads| == calls
    ensures Possible(s, Init(calls), es) && AllSilent(es)
    ensures Round(s, Run(s, Init(calls), es), m, n + 1) && |Run(s, Init(calls), es).threads| == calls
  {
    NewestIsWellMade(s, calls, before, n);
    var more := NextRound(s, Run(s, Init(calls), before), m, n);
    RunConcat(s, Init(calls), before, more);
    SilentConcat(before, more);
    es := before + more;
  }

  lemma {:induction false} Rounds(s: Setup, m: Terms, n: nat, calls: nat) returns (es: seq<Event>)
    requires Payable(s, m) && n < calls && n < UINT64_LIMIT
    ensures Possible(s, Init(calls), es) && AllSilent(es)
    ensures Round(s, Run(s, Init(calls), es), m, n) && |Run(s, Init(calls), es).threads| == calls
    decreases n
  {
    if n == 0 {
      es := FirstRound(s, m, calls);
    } else {
      es := Rounds(s, m, n - 1, calls);
      es := OneMoreRound(s, m, n - 1, calls, es);
    }
  }

  lemma OneMore(n: nat, cost: int)
    ensures (n + 1) * cost == n * cost + cost
  {
  }

  lemma {:induction false} CostOfIsProduct(n: nat, cost: int)
    ensures CostOf(n, cost) == n * cost
  {
    if n > 0 {
      CostOfIsProduct(n - 1, cost);
      OneMore(n - 1, cost);
    }
  }

  lemma TakeNewest(s: Setup, x: State, m: Terms, n: nat)
    requires Round(s, x, m, n)
    ensures var es := [Include(x.records[n].tx, 0)];
      && Possible(s, x, es) && AllSilent(es)
      && Run(s, x, es).ledger == x.ledger
      && Outflow(Run(s, x, es).chain.log) == CostOf(n + 1, m.amount + m.fee)
  {
    var tx := x.records[n].tx;
    RunCons(s, x, Include(tx, 0), []);
    OutflowAppend(x.chain.log, Entry(tx, 0));
  }

  lemma RoundsThenTake(s: Setup, m: Terms, n: nat, calls: nat) returns (es: seq<Event>)
    requires Payable(s, m) && n < calls && n < UINT64_LIMIT
    ensures Possible(s, Init(calls), es) && AllSilent(es)
    ensures var x := Run(s, Init(calls), es);
      x.ledger.spent == m.amount + m.fee && Outflow(x.chain.log) == CostOf(n + 1, m.amount + m.fee)
  {
    var before := Rounds(s, m, n, calls);
    var x := Run(s, Init(calls), before);
    var more := [Include(x.records[n].tx, 0)];
    TakeNewest(s, x, m, n);
    RunConcat(s, Init(calls), before, more);
    SilentConcat(before, more);
    es := before + more;
  }

  /** Late, without limit: the payer gives a lost payment back on an `Absent` that came too early,
      for example because the context ended, and then a block takes it. After any number of
      rounds the money of all of them is gone, and the books count the last payment alone. */
  lemma EarlyAbsentIsLate(s: Setup, m: Terms, n: nat) returns (es: seq<Event>)
    requires Payable(s, m) && n < UINT64_LIMIT
    ensures Possible(s, Init(n + 1), es) && HonestRun(s, Init(n + 1), es)
    ensures var x := Run(s, Init(n + 1), es);
      x.ledger.spent == m.amount + m.fee > 0 && Outflow(x.chain.log) == (n + 1) * (m.amount + m.fee)
  {
    PaymentCosts(s, m);
    es := RoundsThenTake(s, m, n, n + 1);
    CostOfIsProduct(n + 1, m.amount + m.fee);
    SilentIsHonest(s, Init(n + 1), es);
  }

  /** An honest run at whose end more than `budget` left the wallet. */
  ghost predicate Overruns(s: Setup, budget: nat, calls: nat, es: seq<Event>) {
    && Possible(s, Init(calls), es) && HonestRun(s, Init(calls), es)
    && Outflow(Run(s, Init(calls), es).chain.log) > budget
  }

  lemma {:induction false} OutflowBelow(log: seq<Entry>, worst: int)
    requires worst >= 0 && forall j :: 0 <= j < |log| ==> Cost(log[j]) <= worst
    ensures Outflow(log) <= |log| * worst
  {
    if log != [] {
      OutflowBelow(log[1..], worst);
      OneMore(|log| - 1, worst);
    }
  }

  lemma {:induction false} RisesByOne(x: State, j: nat)
    requires ChainInv(x) && j < |x.chain.log|
    ensures x.chain.log[j].tx.sequence >= j
  {
    if j > 0 {
      RisesByOne(x, j - 1);
    }
  }

  lemma LogIsShort(x: State)
    requires ChainInv(x)
    ensures |x.chain.log| <= UINT64_LIMIT
  {
    if x.chain.log != [] {
      RisesByOne(x, |x.chain.log| - 1);
    }
  }

  lemma Scaled(a: int, b: int, c: nat)
    requires a <= b
    ensures a * c <= b * c
  {
  }

  lemma CostAtMost(s: Setup, x: State, tx: Tx)
    requires RecordsInv(s, x) && Signed(x, tx)
    ensures FeeAmount(s.cfg).Ok?
    ensures 0 <= tx.fee <= tx.amount + tx.fee <= WorstPrice(s.cfg)
  {
    var i :| 0 <= i < |x.records| && x.records[i].tx == tx;
    assert WellMade(s, i, x.records[i]);
  }

  /** What can leave the wallet at all: the sequences end. */
  lemma OutflowHasACeiling(s: Setup, x: State, worst: nat)
    requires RecordsInv(s, x) && ChainInv(x)
    requires FeeAmount(s.cfg).Ok? && worst == WorstPrice(s.cfg)
    ensures Outflow(x.chain.log) <= UINT64_LIMIT * worst
  {
    var log := x.chain.log;
    forall j | 0 <= j < |log|
      ensures Cost(log[j]) <= worst
    {
      CostAtMost(s, x, log[j].tx);
    }
    OutflowBelow(log, worst);
    LogIsShort(x);
    Scaled(|log|, UINT64_LIMIT, worst);
  }

  /** A budget that is set can be late exactly below that ceiling: for a sidecar that asks for the
      limit, some honest run takes more than the budget from the wallet, unless the budget is more than
      all sequences of the account can pay. */
  lemma BudgetIsOverrunExactlyWhen(s: Setup, m: Terms)
    requires Payable(s, m) && m.amount == MaxPerCallAmount(s.cfg) && BudgetAmount(s.cfg) != 0
    ensures (exists calls, es :: Overruns(s, BudgetAmount(s.cfg), calls, es))
       <==> BudgetAmount(s.cfg) < UINT64_LIMIT * (m.amount + m.fee)
  {
    PaymentCosts(s, m);
    var budget, cost: nat := BudgetAmount(s.cfg), m.amount + m.fee;
    if budget < UINT64_LIMIT * cost {
      var calls, es := Overrun(s, m, budget);
    } else if calls, es :| Overruns(s, budget, calls, es) {
      assert RecordsInv(s, Run(s, Init(calls), es)) && ChainInv(Run(s, Init(calls), es)) by {
        InitHolds(s, calls);
        RunKeeps(s, Init(calls), es);
      }
      OutflowHasACeiling(s, Run(s, Init(calls), es), cost);
    }
  }

  lemma QuotientTurns(budget: nat, cost: nat, limit: nat) returns (q: nat)
    requires cost > 0 && budget < limit * cost
    ensures q < limit && (q + 1) * cost > budget
  {
    q := budget / cost;
    assert budget == q * cost + budget % cost;
    if q >= limit {
      Scaled(limit, q, cost);
    }
  }

  /** Below the ceiling there is such a run for every price that the budget has room for. */
  lemma Overrun(s: Setup, m: Terms, budget: nat) returns (calls: nat, es: seq<Event>)
    requires Payable(s, m) && budget < UINT64_LIMIT * (m.amount + m.fee)
    ensures Overruns(s, budget, calls, es)
  {
    PaymentCosts(s, m);
    var cost: nat := m.amount + m.fee;
    var n := QuotientTurns(budget, cost, UINT64_LIMIT);
    calls := n + 1;
    es := EarlyAbsentIsLate(s, m, n);
  }

  /** A sidecar that reports an account which the chain has left behind makes a new payer sign a
      transaction that no block will ever take. */
  lemma StaleAccountSignsInVain(s: Setup, m: Terms) returns (es: seq<Event>)
    requires Payable(s, m)
    ensures Possible(s, Init(1), es) && HonestRun(s, Init(1), es)
    ensures var x := Run(s, Init(1), es);
      && |x.records| == 1 && x.records[0].fate == Fate.Open && x.ledger.spent == m.amount + m.fee
      && !exists more :: Takes(s, x, more, x.records[0].tx)
  {
    var x0 := Init(1);
    var x1 := Next(s, x0, Foreign(1));
    assert PayableBy(s, m, 0);
    var pay := PayRun(s, x1, 0, m.ask(0), m.o, m.amount, m.fee, Account(m.number, 0), NoReply);
    RunCons(s, x0, Foreign(1), pay);
    SilentConcat([Foreign(1)], pay);
    es := [Foreign(1)] + pay;
    SilentIsHonest(s, x0, es);
    var x := Run(s, x0, es);
    assert x.records[0].tx == TxFor(s, x1, m.o, m.amount, m.fee, Account(m.number, 0));
    assert Signed(x, x.records[0].tx);
    FutureIsTaken(s, x, x.records[0].tx);
  }

  lemma TwinsAppear(s: Setup, x0: State, x1: State, x2: State, x3: State,
                    o: PaymentOption, amount: int, fee: int, account: Account)
    requires x0.ledger == EMPTY && x0.records == [] && account.sequence == 0
    requires Paid(s, x0, x1, 0, TxFor(s, x0, o, amount, fee, account), Fate.Open)
    requires Paid(s, x1, x2, 1, TxFor(s, x1, o, amount, fee, account), Released)
    requires Paid(s, x2, x3, 2, TxFor(s, x2, o, amount, fee, account), Fate.Open)
    ensures |x3.records| == 3 && x3.chain == x0.chain && x3.ledger.spent == 2 * (amount + fee)
    ensures x3.records[0].fate == x3.records[2].fate == Fate.Open
    ensures x3.records[0].tx == x3.records[2].tx
  {
    assert x3.records[0] == x3.records[..2][0] && x2.records[0] == x2.records[..1][0];
  }

  /** Twins: a payment is lost, the next one is refused, and the refusal makes the payer read
      the sequence of the chain again, which does not hold the lost payment yet. It then signs
      the same bytes a second time while the first payment is still open, and counts both. */
  lemma RefusalMakesTwins(s: Setup, ask: Reply, o: PaymentOption, amount: int, fee: int, number: uint64)
    returns (es: seq<Event>)
    requires CanPay(s, ask, o, amount, fee) && WithinBudget(s.cfg, amount + fee, amount, fee)
    ensures HonestRun(s, Init(3), es) && Possible(s, Init(3), es)
    ensures var x := Run(s, Init(3), es);
      && |x.records| == 3 && x.chain.next == 0
      && x.records[0].fate == x.records[2].fate == Fate.Open
      && x.records[0].tx == x.records[2].tx && !NoTwins(x)
      && x.ledger.spent == 2 * (amount + fee)
  {
    var account, x0 := Account(number, 0), Init(3);
    var a := PayRun(s, x0, 0, ask, o, amount, fee, account, NoReply);
    var x1 := Run(s, x0, a);
    assert OpenInv(x1) by {
      InitHolds(s, 3);
      RunKeeps(s, x0, a);
    }
    var b := PayRun(s, x1, 1, ask, o, amount, fee, account, REFUSAL);
    var x2 := Run(s, x1, b);
    assert OpenInv(x2) by {
      InitHolds(s, 3);
      RunKeeps(s, x0, a);
      RunKeeps(s, x1, b);
    }
    var c := PayRun(s, x2, 2, ask, o, amount, fee, account, NoReply);
    var x3 := Run(s, x2, c);
    TwinsAppear(s, x0, x1, x2, x3, o, amount, fee, account);
    RunConcat(s, x1, b, c);
    RunConcat(s, x0, a, b + c);
    es := a + (b + c);
    SilentIsHonest(s, x0, es);
  }

  /** No step of the run tells anything about payment `i`. */
  predicate SilentAbout(s: Setup, x: State, es: seq<Event>, i: nat)
    decreases |es|
  {
    es == [] ||
    (&& Enabled(x, es[0])
     && (es[0].Resolve? && x.ledger.open[x.threads[es[0].t].stage.k].serial == i ==> es[0].outcome.Unknown?)
     && SilentAbout(s, Next(s, x, es[0]), es[1..], i))
  }

  lemma StaysOpenOneStep(s: Setup, x: State, e: Event, i: nat)
    requires Enabled(x, e) && FlightInv(x)
    requires i < |x.records| && x.records[i].fate == Fate.Open
    requires e.Resolve? && x.ledger.open[x.threads[e.t].stage.k].serial == i ==> e.outcome.Unknown?
    ensures Next(s, x, e).records[i].fate == Fate.Open
  {
    if e.Second? {
      assert IsRecord(x, x.threads[e.t].stage.pay, InFlight);
    }
  }

  lemma {:induction false} InOpenList(rs: seq<Record>, i: nat)
    requires i < |rs| && rs[i].fate == Fate.Open
    ensures rs[i].pay in OpenOf(rs)
  {
    var n := |rs| - 1;
    if i < n {
      InOpenList(rs[..n], i);
    }
  }

  /** Silence never refunds. A lost payment about which no call ever learns anything stays open
      and counted, with its price and its fee, through any interleaving of calls and blocks. */
  lemma {:induction false} SilenceNeverRefunds(s: Setup, x: State, es: seq<Event>, i: nat)
    requires Inv(s, x) && Possible(s, x, es) && SilentAbout(s, x, es, i)
    requires i < |x.records| && x.records[i].fate == Fate.Open
    ensures var y := Run(s, x, es);
      && i < |y.records| && y.records[i].pay == x.records[i].pay
      && y.records[i].pay in y.ledger.open
      && Counted(y.records[i]) == x.records[i].tx.amount + x.records[i].tx.fee
    decreases |es|
  {
    if es == [] {
      InOpenList(x.records, i);
    } else {
      StaysOpenOneStep(s, x, es[0], i);
      RecordsGrow(s, x, es[0]);
      StepKeeps(s, x, es[0]);
      SilenceNeverRefunds(s, Next(s, x, es[0]), es[1..], i);
    }
  }
}
