/** The money that left the wallet against the money that the payer counts. */
module NeverLate {
  import opened Basics
  import opened Codec
  import opened Config
  import opened Polling
  import opened Ledgers
  import opened Payers
  import opened Clients
  import opened Systems
  import opened Invariants

  /** What a transaction in a block took: the price and the fee, or the fee alone. */
  function Cost(e: Entry): int {
    if e.code == 0 then e.tx.amount + e.tx.fee else e.tx.fee
  }

  /** A payment that the books still count signed this transaction. */
  predicate Covered(x: State, tx: Tx) {
    exists i :: 0 <= i < |x.records| && x.records[i].tx == tx && !x.records[i].fate.Released?
  }

  predicate OnChain(x: State, tx: Tx) {
    exists j :: 0 <= j < |x.chain.log| && x.chain.log[j].tx == tx
  }

  /** The money that left the wallet. */
  function Outflow(log: seq<Entry>): int {
    if log == [] then 0 else Cost(log[0]) + Outflow(log[1..])
  }

  /** The part of it that went to transactions whose payments were all given back. */
  function Uncovered(x: State, log: seq<Entry>): int {
    if log == [] then 0
    else (if Covered(x, log[0].tx) then 0 else Cost(log[0])) + Uncovered(x, log[1..])
  }

  // Two weighted lists of transactions, compared.

  datatype Item = Item(tx: Tx, worth: int)

  function Sum(items: seq<Item>): int {
    if items == [] then 0 else items[0].worth + Sum(items[1..])
  }

  /** No transaction of positive worth stands twice. */
  ghost predicate Distinct(a: seq<Item>) {
    forall i, j :: 0 <= i < j < |a| && a[i].worth > 0 && a[j].worth > 0 ==> a[i].tx != a[j].tx
  }

  ghost predicate Matched(e: Item, b: seq<Item>) {
    exists j :: 0 <= j < |b| && b[j].tx == e.tx && b[j].worth >= e.worth
  }

  lemma {:induction false} SumUpdate(a: seq<Item>, i: nat, e: Item)
    requires i < |a|
    ensures Sum(a[i := e]) == Sum(a) - a[i].worth + e.worth
  {
    if i == 0 {
      assert a[i := e][1..] == a[1..];
    } else {
      SumUpdate(a[1..], i - 1, e);
      assert a[i := e][1..] == a[1..][i - 1 := e];
    }
  }

  lemma {:induction false} SumIsNotNegative(b: seq<Item>)
    requires forall j :: 0 <= j < |b| ==> b[j].worth >= 0
    ensures Sum(b) >= 0
  {
    if b != [] {
      SumIsNotNegative(b[1..]);
    }
  }

  /** A list is not worth more than another one that matches each of its transactions. */
  lemma {:induction false} Dominated(a: seq<Item>, b: seq<Item>)
    requires forall j :: 0 <= j < |b| ==> b[j].worth >= 0
    requires Distinct(a)
    requires forall i :: 0 <= i < |a| && a[i].worth > 0 ==> Matched(a[i], b)
    ensures Sum(a) <= Sum(b)
  {
    if a == [] {
      SumIsNotNegative(b);
    } else if a[0].worth <= 0 {
      Dominated(a[1..], b);
    } else {
      assert Matched(a[0], b);
      var k :| 0 <= k < |b| && b[k].tx == a[0].tx && b[k].worth >= a[0].worth;
      var b' := b[k := Item(b[k].tx, 0)];
      forall i | 0 <= i < |a[1..]| && a[1..][i].worth > 0
        ensures Matched(a[1..][i], b')
      {
        var e := a[i + 1];
        assert e == a[1..][i] && Matched(e, b);
        var j :| 0 <= j < |b| && b[j].tx == e.tx && b[j].worth >= e.worth;
        assert b'[j] == b[j];
      }
      Dominated(a[1..], b');
      SumUpdate(b, k, Item(b[k].tx, 0));
    }
  }

  function BookItems(rs: seq<Record>): (r: seq<Item>)
    ensures |r| == |rs|
    ensures forall i :: 0 <= i < |rs| ==> r[i] == Item(rs[i].tx, Counted(rs[i]))
  {
    seq(|rs|, i requires 0 <= i < |rs| => Item(rs[i].tx, Counted(rs[i])))
  }

  function ChainItems(x: State, log: seq<Entry>): (r: seq<Item>)
    ensures |r| == |log|
    ensures forall j :: 0 <= j < |log| ==>
      r[j] == Item(log[j].tx, if Covered(x, log[j].tx) then Cost(log[j]) else 0)
  {
    seq(|log|, j requires 0 <= j < |log| =>
      Item(log[j].tx, if Covered(x, log[j].tx) then Cost(log[j]) else 0))
  }

  lemma {:induction false} SumAppend(a: seq<Item>, e: Item)
    ensures Sum(a + [e]) == Sum(a) + e.worth
  {
    if a == [] {
      assert a + [e] == [e] && Sum([e]) == e.worth + Sum([]);
    } else {
      SumAppend(a[1..], e);
      assert (a + [e])[1..] == a[1..] + [e];
    }
  }

  lemma {:induction false} BooksSum(rs: seq<Record>)
    ensures Sum(BookItems(rs)) == Total(rs)
  {
    if rs != [] {
      var n := |rs| - 1;
      BooksSum(rs[..n]);
      assert BookItems(rs) == BookItems(rs[..n]) + [Item(rs[n].tx, Counted(rs[n]))];
      SumAppend(BookItems(rs[..n]), Item(rs[n].tx, Counted(rs[n])));
    }
  }

  lemma {:induction false} ChainSum(x: State, log: seq<Entry>)
    ensures Outflow(log) == Sum(ChainItems(x, log)) + Uncovered(x, log)
  {
    if log != [] {
      ChainSum(x, log[1..]);
      assert ChainItems(x, log)[1..] == ChainItems(x, log[1..]);
    }
  }

  /** What was found with a code other than 0 is on the chain with such a code. */
  ghost predicate RevertedInv(x: State) {
    forall i :: 0 <= i < |x.records| && x.records[i].fate.Reverted? ==> HasReverted(x, x.records[i].tx)
  }

  ghost predicate HasReverted(x: State, tx: Tx) {
    exists j :: 0 <= j < |x.chain.log| && x.chain.log[j].tx == tx && x.chain.log[j].code != 0
  }

  /** The sidecar does not invent a failed transaction. Its other answers may be wrong. */
  ghost predicate HonestStatus(s: Setup, x: State, e: Event)
    requires Enabled(x, e)
  {
    e.Resolve? && e.outcome.InBlock? && e.outcome.code != 0 ==>
      exists j ::
        && 0 <= j < |x.chain.log| && x.chain.log[j].code != 0
        && s.hash(s.txBytes(x.chain.log[j].tx)) == x.ledger.open[x.threads[e.t].stage.k].txHash
  }

  ghost predicate HonestRun(s: Setup, x: State, es: seq<Event>)
    decreases |es|
  {
    es == [] || (Enabled(x, es[0]) && HonestStatus(s, x, es[0]) && HonestRun(s, Next(s, x, es[0]), es[1..]))
  }

  /** The log only grows. */
  lemma LogGrows(s: Setup, x: State, e: Event)
    requires Enabled(x, e)
    ensures x.chain.log <= Next(s, x, e).chain.log
  {
  }

  lemma RevertedKept(s: Setup, x: State, e: Event)
    requires Enabled(x, e) && HonestStatus(s, x, e) && LawfulSigner(s)
    requires RevertedInv(x) && Inv(s, x)
    ensures RevertedInv(Next(s, x, e))
  {
    var y := Next(s, x, e);
    LogGrows(s, x, e);
    RecordsGrow(s, x, e);
    forall i | 0 <= i < |y.records| && y.records[i].fate.Reverted?
      ensures HasReverted(y, y.records[i].tx)
    {
      if i < |x.records| && x.records[i].fate.Reverted? {
        assert HasReverted(x, x.records[i].tx);
        var j :| 0 <= j < |x.chain.log| && x.chain.log[j].tx == x.records[i].tx && x.chain.log[j].code != 0;
        assert y.chain.log[j] == x.chain.log[j];
      } else {
        NewlyReverted(s, x, e, i);
      }
    }
  }

  lemma OnlyResolveReverts(s: Setup, x: State, e: Event, i: nat)
    requires Enabled(x, e)
    requires i < |Next(s, x, e).records| && Next(s, x, e).records[i].fate.Reverted?
    requires i < |x.records| ==> !x.records[i].fate.Reverted?
    ensures e.Resolve? && e.outcome.InBlock? && e.outcome.code != 0
    ensures i == x.ledger.open[x.threads[e.t].stage.k].serial
    ensures i < |x.records| && Next(s, x, e).records[i].tx == x.records[i].tx
    ensures Next(s, x, e).chain == x.chain
  {
  }

  lemma NewlyReverted(s: Setup, x: State, e: Event, i: nat)
    requires Enabled(x, e) && HonestStatus(s, x, e) && LawfulSigner(s)
    requires OpenInv(x) && RecordsInv(s, x)
    requires i < |Next(s, x, e).records| && Next(s, x, e).records[i].fate.Reverted?
    requires i < |x.records| ==> !x.records[i].fate.Reverted?
    ensures HasReverted(Next(s, x, e), Next(s, x, e).records[i].tx)
  {
    OnlyResolveReverts(s, x, e, i);
    var k := x.threads[e.t].stage.k;
    OpenMember(x.records, k);
    assert WellMade(s, i, x.records[i]);
    var j :| 0 <= j < |x.chain.log| && x.chain.log[j].code != 0
      && s.hash(s.txBytes(x.chain.log[j].tx)) == x.ledger.open[k].txHash;
    assert x.chain.log[j].tx == x.records[i].tx;
  }

  lemma {:induction false} HonestRunKeeps(s: Setup, x: State, es: seq<Event>)
    requires HonestRun(s, x, es) && LawfulSigner(s) && Inv(s, x) && RevertedInv(x)
    ensures Possible(s, x, es) && Inv(s, Run(s, x, es)) && RevertedInv(Run(s, x, es))
    decreases |es|
  {
    if es != [] {
      StepKeeps(s, x, es[0]);
      RevertedKept(s, x, es[0]);
      HonestRunKeeps(s, Next(s, x, es[0]), es[1..]);
    }
  }

  /** A signed transaction costs at least nothing. */
  lemma SignedIsPositive(s: Setup, x: State, tx: Tx)
    requires RecordsInv(s, x) && Signed(x, tx)
    ensures tx.amount > 0 && tx.fee >= 0
  {
    var i :| 0 <= i < |x.records| && x.records[i].tx == tx;
    assert WellMade(s, i, x.records[i]);
  }

  /** Two entries of the log never hold the same transaction. */
  lemma LogIsDistinct(x: State, j: nat, k: nat)
    requires ChainInv(x) && j < |x.chain.log| && k < |x.chain.log|
    requires x.chain.log[j].tx == x.chain.log[k].tx
    ensures j == k
  {
  }

  /** A payment that was not given back counts at least what the chain took for its bytes. */
  lemma CountsAtLeast(s: Setup, x: State, i: nat, j: nat)
    requires RecordsInv(s, x) && ChainInv(x) && RevertedInv(x) && i < |x.records| && j < |x.chain.log|
    requires x.records[i].tx == x.chain.log[j].tx && !x.records[i].fate.Released?
    ensures Counted(x.records[i]) >= Cost(x.chain.log[j])
  {
    var tx := x.records[i].tx;
    assert WellMade(s, i, x.records[i]);
    if x.records[i].fate.Reverted? {
      assert HasReverted(x, tx);
      var k :| 0 <= k < |x.chain.log| && x.chain.log[k].tx == tx && x.chain.log[k].code != 0;
      LogIsDistinct(x, j, k);
    }
  }

  lemma CoveredIsMatched(s: Setup, x: State, j: nat)
    requires RecordsInv(s, x) && ChainInv(x) && RevertedInv(x)
    requires j < |x.chain.log| && Covered(x, x.chain.log[j].tx)
    ensures Matched(Item(x.chain.log[j].tx, Cost(x.chain.log[j])), BookItems(x.records))
  {
    var e := x.chain.log[j];
    var i :| 0 <= i < |x.records| && x.records[i].tx == e.tx && !x.records[i].fate.Released?;
    CountsAtLeast(s, x, i, j);
    assert BookItems(x.records)[i] == Item(e.tx, Counted(x.records[i]));
  }

  /** What the books count covers every transaction of the chain that they still cover. */
  lemma CountedCovers(s: Setup, x: State)
    requires Inv(s, x) && RevertedInv(x)
    ensures Outflow(x.chain.log) <= x.ledger.spent + Uncovered(x, x.chain.log)
  {
    var a, b := ChainItems(x, x.chain.log), BookItems(x.records);
    forall j | 0 <= j < |b|
      ensures b[j].worth >= 0
    {
      assert WellMade(s, j, x.records[j]);
    }
    forall j | 0 <= j < |a| && a[j].worth > 0
      ensures Matched(a[j], b)
    {
      CoveredIsMatched(s, x, j);
    }
    Dominated(a, b);
    BooksSum(x.records);
    ChainSum(x, x.chain.log);
  }

  /** In every interleaving, and whatever was given back: the money that left the wallet is at
      most the counted money, plus what the chain took for payments that were given back. */
  lemma OutflowIsCounted(s: Setup, calls: nat, es: seq<Event>)
    requires LawfulSigner(s) && HonestRun(s, Init(calls), es)
    ensures Possible(s, Init(calls), es)
    ensures var x := Run(s, Init(calls), es);
      Outflow(x.chain.log) <= x.ledger.spent + Uncovered(x, x.chain.log)
  {
    InitHolds(s, calls);
    HonestRunKeeps(s, Init(calls), es);
    CountedCovers(s, Run(s, Init(calls), es));
  }

  /** A step that gives a payment back. */
  predicate Releases(s: Setup, x: State, e: Event)
    requires Enabled(x, e)
  {
    || (e.Resolve? && e.outcome.Absent?)
    || (e.Second? && SecondFate(s, x.threads[e.t].stage.pay, e.reply).Released?)
  }

  /** The number of the payment that it gives back. */
  function ReleasedBy(s: Setup, x: State, e: Event): (i: nat)
    requires Enabled(x, e) && Releases(s, x, e)
    ensures i < |x.records|
  {
    if e.Resolve? then x.ledger.open[x.threads[e.t].stage.k].serial
    else x.threads[e.t].stage.pay.serial
  }

  /** Nothing else gives a payment back. */
  lemma NewlyReleased(s: Setup, x: State, e: Event, i: nat)
    requires Enabled(x, e)
    requires i < |Next(s, x, e).records| && Next(s, x, e).records[i].fate.Released?
    requires i < |x.records| ==> !x.records[i].fate.Released?
    ensures Releases(s, x, e) && i == ReleasedBy(s, x, e)
    ensures Next(s, x, e).records[i].tx == x.records[i].tx && Next(s, x, e).chain == x.chain
  {
  }

  /** What the source takes for granted when it gives a payment back: its transaction is not on
      the chain and will not be, unless another counted payment has the same bytes. */
  ghost predicate Final(s: Setup, x: State, e: Event)
    requires Enabled(x, e)
  {
    && (e.Include? ==> Covered(x, e.tx))
    && (Releases(s, x, e) ==>
          var tx := x.records[ReleasedBy(s, x, e)].tx;
          OnChain(x, tx) ==> Covered(Next(s, x, e), tx))
  }

  ghost predicate FinalRun(s: Setup, x: State, es: seq<Event>)
    decreases |es|
  {
    es == [] || (Enabled(x, es[0]) && Final(s, x, es[0]) && FinalRun(s, Next(s, x, es[0]), es[1..]))
  }

  ghost predicate AllCovered(x: State) {
    forall j :: 0 <= j < |x.chain.log| ==> Covered(x, x.chain.log[j].tx)
  }

  /** A transaction loses its cover only when a payment of it is given back. */
  lemma CoverKept(s: Setup, x: State, e: Event, tx: Tx)
    requires Enabled(x, e) && Covered(x, tx) && OnChain(x, tx) && Final(s, x, e)
    ensures Covered(Next(s, x, e), tx)
  {
    var y := Next(s, x, e);
    var i :| 0 <= i < |x.records| && x.records[i].tx == tx && !x.records[i].fate.Released?;
    RecordsGrow(s, x, e);
    if y.records[i].fate.Released? {
      NewlyReleased(s, x, e, i);
    } else {
      assert y.records[i].tx == tx;
    }
  }

  lemma AllCoveredKept(s: Setup, x: State, e: Event)
    requires Enabled(x, e) && Final(s, x, e) && AllCovered(x)
    ensures AllCovered(Next(s, x, e))
  {
    var y := Next(s, x, e);
    LogGrows(s, x, e);
    forall j | 0 <= j < |y.chain.log|
      ensures Covered(y, y.chain.log[j].tx)
    {
      if j < |x.chain.log| {
        assert x.chain.log[j] == y.chain.log[j];
        CoverKept(s, x, e, x.chain.log[j].tx);
      } else {
        assert e.Include? && y.records == x.records;
      }
    }
  }

  lemma {:induction false} FinalRunKeeps(s: Setup, x: State, es: seq<Event>)
    requires FinalRun(s, x, es) && AllCovered(x) && Possible(s, x, es)
    ensures AllCovered(Run(s, x, es))
    decreases |es|
  {
    if es != [] {
      AllCoveredKept(s, x, es[0]);
      FinalRunKeeps(s, Next(s, x, es[0]), es[1..]);
    }
  }

  lemma {:induction false} NothingUncovered(x: State, log: seq<Entry>)
    requires forall j :: 0 <= j < |log| ==> Covered(x, log[j].tx)
    ensures Uncovered(x, log) == 0
  {
    if log != [] {
      NothingUncovered(x, log[1..]);
    }
  }

  /** The budget stops early and never late. In every interleaving of calls and blocks in which
      a payment that was given back stays off the chain, the money that left the wallet is at
      most the counted money, and at most the budget if one is set. */
  lemma NeverLate(s: Setup, calls: nat, es: seq<Event>)
    requires LawfulSigner(s) && HonestRun(s, Init(calls), es) && FinalRun(s, Init(calls), es)
    ensures Possible(s, Init(calls), es)
    ensures var x := Run(s, Init(calls), es);
      && Outflow(x.chain.log) <= x.ledger.spent
      && (BudgetAmount(s.cfg) != 0 ==> Outflow(x.chain.log) <= BudgetAmount(s.cfg))
  {
    OutflowIsCounted(s, calls, es);
    FinalRunKeeps(s, Init(calls), es);
    NothingUncovered(Run(s, Init(calls), es), Run(s, Init(calls), es).chain.log);
    BudgetHolds(s, calls, es);
  }
}
