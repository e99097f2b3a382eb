/** The two models are one: a call of `Client.Do` on the books is a run of the step system, so
    what holds of every interleaving holds of the class. */
module Simulation {
  import opened Basics
  import opened Codec
  import opened Config
  import opened Polling
  import opened Ledgers
  import opened Payers
  import opened Clients
  import opened Systems
  import opened Invariants

  lemma {:induction false} RunConcat(s: Setup, x: State, a: seq<Event>, b: seq<Event>)
    requires Possible(s, x, a) && Possible(s, Run(s, x, a), b)
    ensures Possible(s, x, a + b) && Run(s, x, a + b) == Run(s, Run(s, x, a), b)
    decreases |a|
  {
    if a == [] {
      assert a + b == b;
    } else {
      RunConcat(s, Next(s, x, a[0]), a[1..], b);
      assert (a + b)[1..] == a[1..] + b;
    }
  }

  /** One more step in front of a run. */
  lemma RunCons(s: Setup, x: State, e: Event, es: seq<Event>)
    requires Enabled(x, e) && Possible(s, Next(s, x, e), es)
    ensures Possible(s, x, [e] + es) && Run(s, x, [e] + es) == Run(s, Next(s, x, e), es)
  {
    assert ([e] + es)[1..] == es;
  }

  /** Only call `t` moved, and the chain did not. */
  ghost predicate OnlyMoved(x: State, y: State, t: nat) {
    && |y.threads| == |x.threads| && y.chain == x.chain && |x.records| <= |y.records|
    && forall u :: 0 <= u < |x.threads| && u != t ==> y.threads[u] == x.threads[u]
  }

  function ResolveEvents(t: nat, outcomes: seq<Outcome>): seq<Event> {
    if outcomes == [] then [] else [Resolve(t, outcomes[0])] + ResolveEvents(t, outcomes[1..])
  }

  /** What call `t` still has to do to the open payments. */
  ghost predicate Asks(x: State, t: nat, o: PaymentOption, amount: int, fee: int, k: nat, th: Thread) {
    && t < |x.threads| && x.holder == Some(t) && k <= |x.ledger.open| && OpenInv(x)
    && x.threads[t] == Thread(Resolving(o, amount, fee, k), th.sends, th.signs)
  }

  lemma ResolveStepIsResolveOne(s: Setup, x: State, t: nat, o: PaymentOption, amount: int, fee: int,
                                k: nat, th: Thread, outcome: Outcome)
    requires Asks(x, t, o, amount, fee, k, th) && k < |x.ledger.open|
    ensures Enabled(x, Resolve(t, outcome))
    ensures var y := Next(s, x, Resolve(t, outcome));
      && y.ledger == ResolveOne(x.ledger, k, outcome)
      && Asks(y, t, o, amount, fee, if outcome.Unknown? then k + 1 else k, th)
      && OnlyMoved(x, y, t) && |y.records| == |x.records|
      && (outcome.Unknown? ==> y.records == x.records)
  {
    OpenMember(x.records, k);
    OpenKeptOnResolve(s, x, t, outcome);
    var i := x.ledger.open[k].serial;
    if outcome.Unknown? {
      assert x.records[i := x.records[i]] == x.records;
    }
  }

  lemma {:induction false} ResolveIsARun(s: Setup, x: State, t: nat, o: PaymentOption, amount: int, fee: int,
                                         k: nat, th: Thread, outcomes: seq<Outcome>)
    requires Asks(x, t, o, amount, fee, k, th) && k + |outcomes| == |x.ledger.open|
    ensures Possible(s, x, ResolveEvents(t, outcomes))
    ensures var y := Run(s, x, ResolveEvents(t, outcomes));
      && y.ledger == ResolveFrom(x.ledger, k, outcomes)
      && Asks(y, t, o, amount, fee, |y.ledger.open|, th)
      && OnlyMoved(x, y, t) && |y.records| == |x.records|
      && ((forall i :: 0 <= i < |outcomes| ==> outcomes[i].Unknown?) ==> y.records == x.records)
    decreases |outcomes|
  {
    if outcomes != [] {
      ResolveStepIsResolveOne(s, x, t, o, amount, fee, k, th, outcomes[0]);
      var k' := if outcomes[0].Unknown? then k + 1 else k;
      ResolveIsARun(s, Next(s, x, Resolve(t, outcomes[0])), t, o, amount, fee, k', th, outcomes[1..]);
      RunCons(s, x, Resolve(t, outcomes[0]), ResolveEvents(t, outcomes[1..]));
    }
  }

  lemma FailedSignIsARun(s: Setup, x: State, t: nat, w: PayWorld)
    requires t < |x.threads| && x.threads[t].stage.Signing?
    requires w.account == Some(x.threads[t].stage.account)
    requires var Signing(o, amount, fee, _) := x.threads[t].stage;
      && WithinBudget(s.cfg, x.ledger.spent, amount, fee)
      && SignOutcome(s, x.ledger, |x.records|, o, amount, fee, w).1.Err?
    ensures var es := [Sign(t, w.signs, w.clock)];
      && Possible(s, x, es)
      && Run(s, x, es) == Move(x, t, Done)
  {
    RunCons(s, x, Sign(t, w.signs, w.clock), []);
  }

  /** The record of the payment that call `t` is about to sign, once it is decided. */
  function NewRecord(s: Setup, x: State, stage: Stage, pay: Payment, second: Reply): Record
    requires stage.Signing?
  {
    var Signing(o, amount, fee, account) := stage;
    Record(pay,
           MakeTx(s, o, amount, fee, account.number, ChooseSequence(x.ledger, account.sequence)),
           SecondFate(s, pay, second), 1)
  }

  lemma SignAndSendIsARun(s: Setup, x: State, t: nat, w: PayWorld, second: Reply)
    requires t < |x.threads| && x.threads[t].stage.Signing?
    requires w.account == Some(x.threads[t].stage.account)
    requires var Signing(o, amount, fee, _) := x.threads[t].stage;
      && WithinBudget(s.cfg, x.ledger.spent, amount, fee)
      && SignOutcome(s, x.ledger, |x.records|, o, amount, fee, w).1.Ok?
    ensures var Signing(o, amount, fee, _) := x.threads[t].stage;
      var (l, r) := SignOutcome(s, x.ledger, |x.records|, o, amount, fee, w);
      var es := [Sign(t, w.signs, w.clock), Second(t, second)];
      && Possible(s, x, es)
      && var y := Run(s, x, es);
      && OnlyMoved(x, y, t) && y.holder == None
      && y.ledger == Dispose(s, l, r.value, second).0
      && y.threads[t] == Thread(Done, x.threads[t].sends + 1, x.threads[t].signs + 1)
      && y.records == x.records + [NewRecord(s, x, x.threads[t].stage, r.value, second)]
  {
    var Signing(o, amount, fee, account) := x.threads[t].stage;
    var r := SignOutcome(s, x.ledger, |x.records|, o, amount, fee, w).1;
    var x1 := Next(s, x, Sign(t, w.signs, w.clock));
    assert x1.threads[t].stage == Sending(r.value) && r.value.serial == |x.records|;
    RunCons(s, x1, Second(t, second), []);
    RunCons(s, x, Sign(t, w.signs, w.clock), [Second(t, second)]);
    assert [Sign(t, w.signs, w.clock)] + [Second(t, second)] == [Sign(t, w.signs, w.clock), Second(t, second)];
  }

  /** Steps of a call that ask about no open payment, and the second answer to it. */
  predicate OfCall(es: seq<Event>, second: Reply) {
    forall i :: 0 <= i < |es| ==>
      !es[i].Resolve? && !es[i].Include? && (es[i].Second? ==> es[i].reply == second)
  }

  lemma OfCallConcat(a: seq<Event>, b: seq<Event>, second: Reply)
    requires OfCall(a, second) && OfCall(b, second)
    ensures OfCall(a + b, second)
  {
  }

  /** Where call `t` ends, given what `SignOutcome` says about the payment. */
  ghost predicate EndsAs(s: Setup, x: State, y: State, t: nat, o: PaymentOption, amount: int, fee: int,
                         w: PayWorld, second: Reply)
    requires t < |x.threads|
  {
    var (l, r) := SignOutcome(s, x.ledger, |x.records|, o, amount, fee, w);
    && OnlyMoved(x, y, t) && y.holder == None
    && (r.Err? ==>
          && y.ledger == l && y.records == x.records
          && y.threads[t] == Thread(Done, x.threads[t].sends, x.threads[t].signs))
    && (r.Ok? ==>
          && w.account.Some? && y.ledger == Dispose(s, l, r.value, second).0
          && y.threads[t] == Thread(Done, x.threads[t].sends + 1, x.threads[t].signs + 1)
          && y.records == x.records + [NewRecord(s, x, Signing(o, amount, fee, w.account.value), r.value, second)])
  }

  lemma SigningIsARun(s: Setup, x: State, t: nat, w: PayWorld, second: Reply) returns (es: seq<Event>)
    requires t < |x.threads| && x.threads[t].stage.Signing?
    requires w.account == Some(x.threads[t].stage.account)
    requires WithinBudget(s.cfg, x.ledger.spent, x.threads[t].stage.amount, x.threads[t].stage.fee)
    ensures Possible(s, x, es) && OfCall(es, second)
    ensures var Signing(o, amount, fee, _) := x.threads[t].stage;
      EndsAs(s, x, Run(s, x, es), t, o, amount, fee, w, second)
  {
    var Signing(o, amount, fee, _) := x.threads[t].stage;
    if SignOutcome(s, x.ledger, |x.records|, o, amount, fee, w).1.Err? {
      FailedSignIsARun(s, x, t, w);
      es := [Sign(t, w.signs, w.clock)];
    } else {
      SignAndSendIsARun(s, x, t, w, second);
      es := [Sign(t, w.signs, w.clock), Second(t, second)];
    }
  }

  /** The steps before the signature change nothing but the stage of the call. */
  lemma EndsCarries(s: Setup, x: State, y: State, z: State, t: nat, o: PaymentOption, amount: int, fee: int,
                    w: PayWorld, second: Reply)
    requires t < |x.threads| && OnlyMoved(x, y, t) && y.ledger == x.ledger && y.records == x.records
    requires y.threads[t].sends == x.threads[t].sends && y.threads[t].signs == x.threads[t].signs
    requires EndsAs(s, y, z, t, o, amount, fee, w, second)
    ensures EndsAs(s, x, z, t, o, amount, fee, w, second)
  {
  }

  lemma ReadingIsARun(s: Setup, x: State, t: nat, w: PayWorld, second: Reply) returns (es: seq<Event>)
    requires t < |x.threads| && x.threads[t].stage.Reading?
    requires WithinBudget(s.cfg, x.ledger.spent, x.threads[t].stage.amount, x.threads[t].stage.fee)
    ensures Possible(s, x, es) && OfCall(es, second)
    ensures var Reading(o, amount, fee) := x.threads[t].stage;
      EndsAs(s, x, Run(s, x, es), t, o, amount, fee, w, second)
  {
    var Reading(o, amount, fee) := x.threads[t].stage;
    var y, rest := Next(s, x, ReadAccount(t, w.account)), [];
    if w.account.Some? {
      rest := SigningIsARun(s, y, t, w, second);
      EndsCarries(s, x, y, Run(s, y, rest), t, o, amount, fee, w, second);
    }
    RunCons(s, x, ReadAccount(t, w.account), rest);
    es := [ReadAccount(t, w.account)] + rest;
  }

  /** The rest of a call, once it asked about the open payments. */
  lemma SignIsARun(s: Setup, x: State, t: nat, w: PayWorld, second: Reply) returns (es: seq<Event>)
    requires t < |x.threads| && x.threads[t].stage.Resolving? && x.threads[t].stage.k == |x.ledger.open|
    ensures Possible(s, x, es) && OfCall(es, second)
    ensures var Resolving(o, amount, fee, _) := x.threads[t].stage;
      EndsAs(s, x, Run(s, x, es), t, o, amount, fee, w, second)
  {
    var Resolving(o, amount, fee, _) := x.threads[t].stage;
    var y, rest := Next(s, x, CheckBudget(t)), [];
    if WithinBudget(s.cfg, x.ledger.spent, amount, fee) {
      rest := ReadingIsARun(s, y, t, w, second);
      EndsCarries(s, x, y, Run(s, y, rest), t, o, amount, fee, w, second);
    }
    RunCons(s, x, CheckBudget(t), rest);
    es := [CheckBudget(t)] + rest;
  }

  /** What a whole call does to the state, in terms of `DoOutcome`. */
  ghost predicate Did(s: Setup, x: State, y: State, t: nat, first: Reply, w: PayWorld, second: Reply)
    requires s.timing.interval > 0 && t < |x.threads|
  {
    var (l, r) := DoOutcome(s, x.ledger, |x.records|, first, w, second);
    && OnlyMoved(x, y, t) && y.holder == None && y.ledger == l
    && y.threads[t] == Thread(Done, r.sends, if r.signed.Some? then 1 else 0)
    && |y.records| == |x.records| + (if r.signed.Some? then 1 else 0)
    && (r.signed.Some? ==>
          y.records[|x.records|].pay == r.signed.value && y.records[|x.records|].disposals == 1)
  }

  lemma PayingIsARun(s: Setup, x: State, t: nat, o: PaymentOption, amount: int, fee: int,
                     w: PayWorld, second: Reply) returns (es: seq<Event>)
    requires s.timing.interval > 0 && Asks(x, t, o, amount, fee, 0, Thread(Start, 1, 0))
    ensures Possible(s, x, es)
    ensures var y := Run(s, x, es);
      var (l, r) := SignOutcome(s, AfterResolve(s, x.ledger, w), |x.records|, o, amount, fee, w);
      && OnlyMoved(x, y, t) && y.holder == None
      && y.ledger == (if r.Ok? then Dispose(s, l, r.value, second).0 else l)
      && y.threads[t] == (if r.Ok? then Thread(Done, 2, 1) else Thread(Done, 1, 0))
      && |y.records| == |x.records| + (if r.Ok? then 1 else 0)
      && (r.Ok? ==> y.records[|x.records|].pay == r.value && y.records[|x.records|].disposals == 1)
  {
    var outcomes := Outcomes(s.timing, w.polls, 0, |x.ledger.open|);
    ResolveIsARun(s, x, t, o, amount, fee, 0, Thread(Start, 1, 0), outcomes);
    ResolveAll(x.ledger, outcomes);
    var mid := Run(s, x, ResolveEvents(t, outcomes));
    var rest := SignIsARun(s, mid, t, w, second);
    RunConcat(s, x, ResolveEvents(t, outcomes), rest);
    es := ResolveEvents(t, outcomes) + rest;
  }

  /** The rest of a call, once it has an option that it may take. */
  lemma EnteringIsARun(s: Setup, x: State, t: nat, o: PaymentOption, w: PayWorld, second: Reply)
    returns (es: seq<Event>)
    requires s.timing.interval > 0 && OpenInv(x) && x.holder.None?
    requires t < |x.threads| && x.threads[t] == Thread(Waiting(o), 1, 0)
    ensures Possible(s, x, es)
    ensures var y := Run(s, x, es);
      var (l, r) := PayOutcome(s, x.ledger, |x.records|, o, w);
      && OnlyMoved(x, y, t) && y.holder == None
      && y.ledger == (if r.Ok? then Dispose(s, l, r.value, second).0 else l)
      && y.threads[t] == (if r.Ok? then Thread(Done, 2, 1) else Thread(Done, 1, 0))
      && |y.records| == |x.records| + (if r.Ok? then 1 else 0)
      && (r.Ok? ==> y.records[|x.records|].pay == r.value && y.records[|x.records|].disposals == 1)
  {
    var rest := [];
    if CheckOption(s.cfg, o).Ok? && FeeAmount(s.cfg).Ok? {
      rest := PayingIsARun(s, Next(s, x, Enter(t)), t, o,
                           CheckOption(s.cfg, o).value, FeeAmount(s.cfg).value, w, second);
    }
    RunCons(s, x, Enter(t), rest);
    es := [Enter(t)] + rest;
  }

  /** A call of `Do` is a run of its thread: the same books, the same number of requests, the
      same payment. */
  lemma DoIsARun(s: Setup, x: State, t: nat, first: Reply, w: PayWorld, second: Reply)
    returns (es: seq<Event>)
    requires s.timing.interval > 0 && OpenInv(x) && x.holder.None?
    requires t < |x.threads| && x.threads[t] == Thread(Start, 0, 0)
    ensures Possible(s, x, es) && Did(s, x, Run(s, x, es), t, first, w, second)
  {
    var x1 := Next(s, x, First(t, first));
    if Wanted(s, first).None? {
      es := [First(t, first)];
      RunCons(s, x, First(t, first), []);
      return;
    }
    var o := Wanted(s, first).value;
    var rest := EnteringIsARun(s, x1, t, o, w, second);
    RunCons(s, x, First(t, first), rest);
    es := [First(t, first)] + rest;
  }

  /** One call as the world plays it. */
  datatype Visit = Visit(first: Reply, w: PayWorld, second: Reply)

  /** Any number of calls of `Client.Do`, one after the other. */
  function DoAll(s: Setup, l: Ledger, serial: nat, visits: seq<Visit>): Ledger
    requires s.timing.interval > 0
    decreases |visits|
  {
    if visits == [] then l
    else
      var v := visits[0];
      var (l', r) := DoOutcome(s, l, serial, v.first, v.w, v.second);
      DoAll(s, l', serial + (if r.signed.Some? then 1 else 0), visits[1..])
  }

  lemma {:induction false} DoAllIsARun(s: Setup, x: State, t: nat, visits: seq<Visit>) returns (es: seq<Event>)
    requires s.timing.interval > 0 && Inv(s, x) && x.holder.None?
    requires t + |visits| == |x.threads|
    requires forall u :: t <= u < |x.threads| ==> x.threads[u] == Thread(Start, 0, 0)
    ensures Possible(s, x, es)
    ensures Run(s, x, es).ledger == DoAll(s, x.ledger, |x.records|, visits)
    decreases |visits|
  {
    if visits == [] {
      return [];
    }
    var v := visits[0];
    var one := DoIsARun(s, x, t, v.first, v.w, v.second);
    RunKeeps(s, x, one);
    var rest := DoAllIsARun(s, Run(s, x, one), t + 1, visits[1..]);
    RunConcat(s, x, one, rest);
    es := one + rest;
  }

  /** The counted money is not negative, within the budget, and within the worst case. */
  ghost predicate Promises(s: Setup, spent: int, count: int) {
    && 0 <= spent && 0 <= count
    && (BudgetAmount(s.cfg) != 0 ==> spent <= BudgetAmount(s.cfg))
    && (FeeAmount(s.cfg).Ok? ==> spent <= count * WorstPrice(s.cfg))
  }

  lemma RunKeepsPromises(s: Setup, calls: nat, es: seq<Event>)
    requires Possible(s, Init(calls), es)
    ensures Promises(s, Run(s, Init(calls), es).ledger.spent, Run(s, Init(calls), es).ledger.count)
  {
    BudgetHolds(s, calls, es);
    RunKeepsRecords(s, calls, es);
    if FeeAmount(s.cfg).Ok? {
      WorstCase(s, Run(s, Init(calls), es));
    }
  }

  /** Hence the promises of the step system are promises of the class: after any calls, the
      books of a new payer are not negative, within the budget, and within the worst case. */
  lemma ClassKeepsTheBudget(s: Setup, visits: seq<Visit>)
    requires s.timing.interval > 0
    ensures var l := DoAll(s, EMPTY, 0, visits); Promises(s, l.spent, l.count)
  {
    InitHolds(s, |visits|);
    var es := DoAllIsARun(s, Init(|visits|), 0, visits);
    RunKeepsPromises(s, |visits|, es);
  }

  /** A world in which the sidecar never answers the question about a transaction. */
  ghost predicate Mute(w: PayWorld) {
    forall j :: w.polls(j).status.Failed?
  }

  lemma {:induction false} MuteOutcomes(t: Timing, polls: nat -> Poll, k: nat, n: nat)
    requires t.interval > 0 && forall j :: polls(j).status.Failed?
    ensures forall i :: 0 <= i < n ==> Outcomes(t, polls, k, n)[i] == Unknown
    decreases n
  {
    if n > 0 {
      SilenceIsUnknown(t, polls, k);
      MuteOutcomes(t, polls, Wait(t, polls, k).next, n - 1);
    }
  }

  lemma {:induction false} UnknownsResolveNothing(open: seq<Payment>, outcomes: seq<Outcome>)
    requires |open| == |outcomes| && forall i :: 0 <= i < |outcomes| ==> outcomes[i] == Unknown
    ensures Undecided(open, outcomes) == open && Refunds(open, outcomes) == 0 && Absents(outcomes) == 0
  {
    if open != [] {
      UnknownsResolveNothing(open[1..], outcomes[1..]);
    }
  }

  lemma MuteResolveIsNothing(s: Setup, l: Ledger, w: PayWorld)
    requires s.timing.interval > 0 && Mute(w)
    ensures AfterResolve(s, l, w) == l
  {
    MuteOutcomes(s.timing, w.polls, 0, |l.open|);
    UnknownsResolveNothing(l.open, Outcomes(s.timing, w.polls, 0, |l.open|));
  }

  /** A call in a mute world forgets no lost payment and refunds none. */
  lemma MuteCallKeepsOpen(s: Setup, l: Ledger, serial: nat, v: Visit)
    requires s.timing.interval > 0 && Mute(v.w)
    ensures var (l', _) := DoOutcome(s, l, serial, v.first, v.w, v.second);
      l.open <= l'.open && l.spent <= l'.spent && l.count <= l'.count
  {
    MuteResolveIsNothing(s, l, v.w);
    if Wanted(s, v.first).Some? {
      var (l1, r) := PayOutcome(s, l, serial, Wanted(s, v.first).value, v.w);
      if r.Ok? {
        DisposeByFate(s, l1, r.value, v.second);
      }
    }
  }

  /** Silence never refunds, on the class: over any number of calls of `Do`, the lost payments
      stay open in their order and stay counted. */
  lemma {:induction false} MuteCallsKeepOpen(s: Setup, l: Ledger, serial: nat, visits: seq<Visit>)
    requires s.timing.interval > 0 && forall i :: 0 <= i < |visits| ==> Mute(visits[i].w)
    ensures var l' := DoAll(s, l, serial, visits);
      l.open <= l'.open && l.spent <= l'.spent && l.count <= l'.count
    decreases |visits|
  {
    if visits != [] {
      var v := visits[0];
      MuteCallKeepsOpen(s, l, serial, v);
      var (l', r) := DoOutcome(s, l, serial, v.first, v.w, v.second);
      MuteCallsKeepOpen(s, l', serial + (if r.signed.Some? then 1 else 0), visits[1..]);
    }
  }

  /** Any number of calls of one client with a wallet, and what `Spent` says after them. The books
      are those of `DoAll`, so the promises of the step system hold of the class. */
  method Serve(client: Client, visits: seq<Visit>) returns (spent: int, count: int)
    requires client.Valid() && client.payer != null
    modifies client.payer, client.payer.slots
    ensures client.Valid()
    ensures client.payer.Books() == DoAll(client.setup, old(client.payer.Books()), old(client.payer.made), visits)
    ensures spent == client.payer.Books().spent && count == client.payer.Books().count
    ensures old(client.payer.Books()) == EMPTY && old(client.payer.made) == 0 ==>
      Promises(client.setup, spent, count)
    ensures (forall i :: 0 <= i < |visits| ==> Mute(visits[i].w)) ==>
      old(client.payer.Books()).open <= client.payer.Books().open
      && old(client.payer.Books()).spent <= spent && old(client.payer.Books()).count <= count
  {
    var payer := client.payer;
    ghost var l, serial := payer.Books(), payer.made;
    for i := 0 to |visits|
      invariant client.Valid() && (payer.slots == old(payer.slots) || fresh(payer.slots))
      invariant DoAll(client.setup, payer.Books(), payer.made, visits[i..])
             == DoAll(client.setup, l, serial, visits)
    {
      var v := visits[i];
      assert visits[i..][0] == v && visits[i..][1..] == visits[i + 1..];
      var _ := client.Do(v.first, v.w, v.second);
    }
    spent, count := payer.Spent();
    if l == EMPTY && serial == 0 {
      ClassKeepsTheBudget(client.setup, visits);
    }
    if forall i :: 0 <= i < |visits| ==> Mute(visits[i].w) {
      MuteCallsKeepOpen(client.setup, l, serial, visits);
    }
  }
}
