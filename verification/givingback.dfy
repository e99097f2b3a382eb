/** When a payment may be given back: exactly when the chain has gone past its transaction. */
module GivingBack {
  import opened Basics
  import opened Config
  import opened Payers
  import opened Systems
  import opened Invariants
  import opened NeverLate
  import opened Exactness
  import opened Simulation

  /** The account of the payer is past the transaction, and no block holds it. */
  predicate Gone(x: State, tx: Tx) {
    tx.sequence < x.chain.next && !OnChain(x, tx)
  }

  /** The step gives back nothing, or what is gone, or what another counted payment covers. */
  ghost predicate SafeRelease(s: Setup, x: State, e: Event)
    requires Enabled(x, e)
  {
    Releases(s, x, e) ==>
      var tx := x.records[ReleasedBy(s, x, e)].tx;
      Gone(x, tx) || Covered(Next(s, x, e), tx)
  }

  ghost predicate SafeRun(s: Setup, x: State, es: seq<Event>)
    decreases |es|
  {
    es == [] || (Enabled(x, es[0]) && SafeRelease(s, x, es[0]) && SafeRun(s, Next(s, x, es[0]), es[1..]))
  }

  /** What the books do not count, no block can take. */
  ghost predicate UncoveredIsGone(x: State) {
    forall i :: 0 <= i < |x.records| && !Covered(x, x.records[i].tx) ==> Gone(x, x.records[i].tx)
  }

  lemma GoneStays(s: Setup, x: State, e: Event, tx: Tx)
    requires Enabled(x, e) && Gone(x, tx)
    ensures Gone(Next(s, x, e), tx)
  {
    var y := Next(s, x, e);
    forall j | 0 <= j < |y.chain.log|
      ensures y.chain.log[j].tx != tx
    {
      if j < |x.chain.log| {
        LogGrows(s, x, e);
        assert y.chain.log[j] == x.chain.log[j];
      } else {
        assert e.Include?;
      }
    }
  }

  /** A transaction loses its cover only when the payment that covers it is given back. */
  lemma CoverIsLost(s: Setup, x: State, e: Event, tx: Tx)
    requires Enabled(x, e) && Covered(x, tx) && !Covered(Next(s, x, e), tx)
    ensures Releases(s, x, e) && x.records[ReleasedBy(s, x, e)].tx == tx
    ensures Next(s, x, e).chain == x.chain
  {
    var y := Next(s, x, e);
    var i :| 0 <= i < |x.records| && x.records[i].tx == tx && !x.records[i].fate.Released?;
    RecordsGrow(s, x, e);
    assert y.records[i].tx == tx;
    NewlyReleased(s, x, e, i);
  }

  lemma NewIsCovered(s: Setup, x: State, e: Event, i: nat)
    requires Enabled(x, e) && |x.records| <= i < |Next(s, x, e).records|
    ensures Covered(Next(s, x, e), Next(s, x, e).records[i].tx)
  {
    assert e.Sign? && !Next(s, x, e).records[i].fate.Released?;
  }

  lemma UncoveredStaysGone(s: Setup, x: State, e: Event)
    requires Enabled(x, e) && SafeRelease(s, x, e) && UncoveredIsGone(x)
    ensures UncoveredIsGone(Next(s, x, e))
  {
    var y := Next(s, x, e);
    RecordsGrow(s, x, e);
    forall i | 0 <= i < |y.records| && !Covered(y, y.records[i].tx)
      ensures Gone(y, y.records[i].tx)
    {
      var tx := y.records[i].tx;
      if i >= |x.records| {
        NewIsCovered(s, x, e, i);
      } else if Covered(x, tx) {
        CoverIsLost(s, x, e, tx);
      } else {
        assert x.records[i].tx == tx;
        GoneStays(s, x, e, tx);
      }
    }
  }

  lemma {:induction false} SafeRunKeeps(s: Setup, x: State, es: seq<Event>)
    requires Possible(s, x, es) && SafeRun(s, x, es) && UncoveredIsGone(x)
    ensures UncoveredIsGone(Run(s, x, es))
    decreases |es|
  {
    if es != [] {
      UncoveredStaysGone(s, x, es[0]);
      SafeRunKeeps(s, Next(s, x, es[0]), es[1..]);
    }
  }

  lemma GoneIsCovered(x: State)
    requires UncoveredIsGone(x) && ChainInv(x)
    ensures AllCovered(x)
  {
    forall j | 0 <= j < |x.chain.log|
      ensures Covered(x, x.chain.log[j].tx)
    {
      assert Signed(x, x.chain.log[j].tx);
      var i :| 0 <= i < |x.records| && x.records[i].tx == x.chain.log[j].tx;
      assert OnChain(x, x.records[i].tx);
    }
  }

  lemma ReachableChain(s: Setup, calls: nat, es: seq<Event>)
    requires Possible(s, Init(calls), es)
    ensures ChainInv(Run(s, Init(calls), es))
  {
    InitHolds(s, calls);
    RunKeeps(s, Init(calls), es);
  }

  /** Never late, by a guard that can be checked at the moment of giving back. In every
      interleaving, whatever blocks come later: if each payment that is given back is gone, or
      covered by another payment, then the money that left the wallet is at most the counted
      money, and at most the budget if one is set. */
  lemma SafeRunsAreNeverLate(s: Setup, calls: nat, es: seq<Event>)
    requires LawfulSigner(s) && HonestRun(s, Init(calls), es) && SafeRun(s, Init(calls), es)
    ensures Possible(s, Init(calls), es)
    ensures var x := Run(s, Init(calls), es);
      && Outflow(x.chain.log) <= x.ledger.spent
      && (BudgetAmount(s.cfg) != 0 ==> Outflow(x.chain.log) <= BudgetAmount(s.cfg))
  {
    OutflowIsCounted(s, calls, es);
    SafeRunKeeps(s, Init(calls), es);
    ReachableChain(s, calls, es);
    GoneIsCovered(Run(s, Init(calls), es));
    NothingUncovered(Run(s, Init(calls), es), Run(s, Init(calls), es).chain.log);
    BudgetHolds(s, calls, es);
  }

  /** Blocks come, and no call moves. */
  predicate OnlyBlocks(es: seq<Event>) {
    forall i :: 0 <= i < |es| ==> es[i].Include? || es[i].Foreign?
  }

  lemma {:induction false} BlocksKeepRecords(s: Setup, x: State, es: seq<Event>)
    requires Possible(s, x, es) && OnlyBlocks(es)
    ensures Run(s, x, es).records == x.records && Run(s, x, es).ledger == x.ledger
    decreases |es|
  {
    if es != [] {
      assert es[0].Include? || es[0].Foreign?;
      BlocksKeepRecords(s, Next(s, x, es[0]), es[1..]);
    }
  }

  lemma {:induction false} BlocksReleaseNothing(s: Setup, x: State, es: seq<Event>)
    requires Possible(s, x, es) && OnlyBlocks(es)
    ensures SafeRun(s, x, es)
    decreases |es|
  {
    if es != [] {
      assert es[0].Include? || es[0].Foreign?;
      BlocksReleaseNothing(s, Next(s, x, es[0]), es[1..]);
    }
  }

  lemma {:induction false} GoneForGood(s: Setup, x: State, es: seq<Event>, tx: Tx)
    requires Possible(s, x, es) && Gone(x, tx)
    ensures Gone(Run(s, x, es), tx)
    decreases |es|
  {
    if es != [] {
      GoneStays(s, x, es[0], tx);
      GoneForGood(s, Next(s, x, es[0]), es[1..], tx);
    }
  }

  /** The blocks that take a transaction which is not gone. */
  lemma TakeIt(s: Setup, x: State, tx: Tx) returns (es: seq<Event>)
    requires Signed(x, tx) && !Gone(x, tx)
    ensures Possible(s, x, es) && OnlyBlocks(es) && OnChain(Run(s, x, es), tx)
  {
    if OnChain(x, tx) {
      es := [];
    } else {
      var y := Next(s, x, Foreign(tx.sequence));
      assert y.records == x.records && Signed(y, tx);
      var z := Next(s, y, Include(tx, 0));
      assert z.chain.log[|y.chain.log|].tx == tx;
      RunCons(s, y, Include(tx, 0), []);
      RunCons(s, x, Foreign(tx.sequence), [Include(tx, 0)] + []);
      es := [Foreign(tx.sequence)] + ([Include(tx, 0)] + []);
    }
  }

  /** No blocks ever take it, exactly when it is gone. */
  lemma NeverTakenExactlyWhen(s: Setup, x: State, tx: Tx)
    requires Signed(x, tx)
    ensures (forall es :: Possible(s, x, es) && OnlyBlocks(es) ==> !OnChain(Run(s, x, es), tx))
       <==> Gone(x, tx)
  {
    if Gone(x, tx) {
      forall es | Possible(s, x, es) && OnlyBlocks(es)
        ensures !OnChain(Run(s, x, es), tx)
      {
        GoneForGood(s, x, es, tx);
      }
    } else {
      var es := TakeIt(s, x, tx);
    }
  }

  /** The guard is exact, over runs. After any run whose releases were safe, a release keeps every
      transaction counted that blocks can bring from then on exactly when it is safe too. */
  lemma NextReleaseExactlyWhen(s: Setup, calls: nat, es: seq<Event>, e: Event)
    requires Possible(s, Init(calls), es) && SafeRun(s, Init(calls), es)
    requires Enabled(Run(s, Init(calls), es), e)
    ensures var x := Run(s, Init(calls), es); var y := Next(s, x, e);
      (forall more :: Possible(s, y, more) && OnlyBlocks(more) ==> AllCovered(Run(s, y, more)))
      <==> SafeRelease(s, x, e)
  {
    var x := Run(s, Init(calls), es);
    SafeRunKeeps(s, Init(calls), es);
    assert Inv(s, x) by {
      InitHolds(s, calls);
      RunKeeps(s, Init(calls), es);
    }
    ReleaseExactlyWhen(s, x, e);
  }

  lemma ReleaseExactlyWhen(s: Setup, x: State, e: Event)
    requires Inv(s, x) && UncoveredIsGone(x) && Enabled(x, e)
    ensures var y := Next(s, x, e);
      (forall more :: Possible(s, y, more) && OnlyBlocks(more) ==> AllCovered(Run(s, y, more)))
      <==> SafeRelease(s, x, e)
  {
    var y := Next(s, x, e);
    if SafeRelease(s, x, e) {
      StepKeeps(s, x, e);
      UncoveredStaysGone(s, x, e);
      forall more | Possible(s, y, more) && OnlyBlocks(more)
        ensures AllCovered(Run(s, y, more))
      {
        StaysCovered(s, y, more);
      }
    } else {
      var more := UnsafeIsTaken(s, x, e);
    }
  }

  lemma StaysCovered(s: Setup, y: State, more: seq<Event>)
    requires Inv(s, y) && UncoveredIsGone(y) && Possible(s, y, more) && OnlyBlocks(more)
    ensures AllCovered(Run(s, y, more))
  {
    RunKeeps(s, y, more);
    BlocksReleaseNothing(s, y, more);
    SafeRunKeeps(s, y, more);
    GoneIsCovered(Run(s, y, more));
  }

  /** After an unsafe release, blocks can take what nobody counts. */
  lemma UnsafeIsTaken(s: Setup, x: State, e: Event) returns (more: seq<Event>)
    requires Enabled(x, e) && !SafeRelease(s, x, e)
    ensures var y := Next(s, x, e);
      Possible(s, y, more) && OnlyBlocks(more) && !AllCovered(Run(s, y, more))
  {
    var y, i := Next(s, x, e), ReleasedBy(s, x, e);
    var tx := x.records[i].tx;
    RecordsGrow(s, x, e);
    assert y.records[i].tx == tx && Signed(y, tx) && y.chain == x.chain;
    more := TakeIt(s, y, tx);
    BlocksKeepRecords(s, y, more);
    var z := Run(s, y, more);
    assert !Covered(z, tx);
    var j :| 0 <= j < |z.chain.log| && z.chain.log[j].tx == tx;
  }
}
