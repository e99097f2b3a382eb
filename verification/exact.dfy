/** The money that left the wallet and the money that is counted, to the last coin. */
module Exactness {
  import opened Basics
  import opened Config
  import opened Payers
  import opened Systems
  import opened Invariants
  import opened NeverLate

  /** Nothing is undecided, and what was kept is on the chain with code 0. */
  ghost predicate Decided(x: State) {
    forall i :: 0 <= i < |x.records| ==>
      var r := x.records[i];
      && !r.fate.InFlight? && r.fate != Fate.Open
      && (r.fate.Kept? || r.fate.Stands? ==>
            exists j :: 0 <= j < |x.chain.log| && x.chain.log[j] == Entry(r.tx, 0))
  }

  /** No two counted payments signed the same bytes. */
  ghost predicate NoTwins(x: State) {
    forall i, j :: 0 <= i < j < |x.records| && !x.records[i].fate.Released? && !x.records[j].fate.Released?
      ==> x.records[i].tx != x.records[j].tx
  }

  /** A payment of these bytes counts already. */
  predicate Counts(rs: seq<Record>, tx: Tx) {
    exists i :: 0 <= i < |rs| && rs[i].tx == tx && Counted(rs[i]) > 0
  }

  /** What the books count for bytes that an earlier payment counts too. The chain takes them once. */
  function Repeated(rs: seq<Record>): int {
    if rs == [] then 0
    else
      var n := |rs| - 1;
      Repeated(rs[..n]) + if Counts(rs[..n], rs[n].tx) then Counted(rs[n]) else 0
  }

  /** The first payment that counts these bytes. */
  lemma {:induction false} FirstCounts(rs: seq<Record>, m: nat) returns (i: nat)
    requires m < |rs| && Counted(rs[m]) > 0
    ensures i <= m && rs[i].tx == rs[m].tx && Counted(rs[i]) > 0 && !Counts(rs[..i], rs[i].tx)
  {
    i := m;
    if Counts(rs[..m], rs[m].tx) {
      var k :| 0 <= k < |rs[..m]| && rs[..m][k].tx == rs[m].tx && Counted(rs[..m][k]) > 0;
      i := FirstCounts(rs, k);
    }
  }

  /** Payment `j` counts bytes that an earlier payment counts too. */
  predicate CountsAgain(rs: seq<Record>, j: int)
    requires 0 <= j < |rs|
  {
    Counted(rs[j]) > 0 && Counts(rs[..j], rs[j].tx)
  }

  /** The books count something twice exactly when two counted payments signed the same bytes. */
  lemma {:induction false} RepeatedSign(rs: seq<Record>)
    requires forall i :: 0 <= i < |rs| ==> Counted(rs[i]) >= 0
    ensures Repeated(rs) >= 0
    ensures Repeated(rs) > 0
       <==> exists j :: 0 <= j < |rs| && CountsAgain(rs, j)
  {
    if rs != [] {
      var n := |rs| - 1;
      RepeatedSign(rs[..n]);
      forall j | 0 <= j < n
        ensures CountsAgain(rs[..n], j) == CountsAgain(rs, j)
      {
        assert rs[..n][..j] == rs[..j];
      }
      assert Repeated(rs) > 0 <==> Repeated(rs[..n]) > 0 || CountsAgain(rs, n);
    }
  }

  lemma ChainCostsNothingBack(s: Setup, x: State)
    requires RecordsInv(s, x) && ChainInv(x)
    ensures forall j :: 0 <= j < |x.chain.log| ==> Cost(x.chain.log[j]) >= 0
  {
    forall j | 0 <= j < |x.chain.log|
      ensures Cost(x.chain.log[j]) >= 0
    {
      SignedIsPositive(s, x, x.chain.log[j].tx);
    }
  }

  lemma ChainItemsAreDistinct(x: State)
    requires ChainInv(x)
    ensures Distinct(ChainItems(x, x.chain.log))
  {
  }

  lemma CountsNothingBack(s: Setup, x: State)
    requires RecordsInv(s, x)
    ensures forall i :: 0 <= i < |x.records| ==> Counted(x.records[i]) >= 0
  {
    forall i | 0 <= i < |x.records|
      ensures Counted(x.records[i]) >= 0
    {
      assert WellMade(s, i, x.records[i]);
    }
  }

  /** What the chain took for these bytes so far. */
  function Taken(log: seq<Entry>, tx: Tx): int {
    if log == [] then 0 else if log[0].tx == tx then Cost(log[0]) else Taken(log[1..], tx)
  }

  /** Payment `i` is the first one that counts its bytes. */
  predicate CountsFirst(rs: seq<Record>, i: int)
    requires 0 <= i < |rs|
  {
    Counted(rs[i]) > 0 && !Counts(rs[..i], rs[i].tx)
  }

  /** What the books count, each transaction once, and the chain did not take. */
  function Pending(rs: seq<Record>, log: seq<Entry>): int {
    if rs == [] then 0
    else
      var n := |rs| - 1;
      Pending(rs[..n], log) + if CountsFirst(rs, n) then Counted(rs[n]) - Taken(log, rs[n].tx) else 0
  }

  /** What the chain took for the transactions that the books count. */
  function TakenItems(rs: seq<Record>, log: seq<Entry>): (r: seq<Item>)
    ensures |r| == |rs|
    ensures forall i :: 0 <= i < |rs| ==>
      r[i] == Item(rs[i].tx, if CountsFirst(rs, i) then Taken(log, rs[i].tx) else 0)
  {
    seq(|rs|, i requires 0 <= i < |rs| =>
      Item(rs[i].tx, if CountsFirst(rs, i) then Taken(log, rs[i].tx) else 0))
  }

  lemma {:induction false} TakenSum(rs: seq<Record>, log: seq<Entry>)
    requires forall i :: 0 <= i < |rs| ==> Counted(rs[i]) >= 0
    ensures Sum(TakenItems(rs, log)) + Pending(rs, log) + Repeated(rs) == Total(rs)
  {
    if rs != [] {
      var n := |rs| - 1;
      TakenSum(rs[..n], log);
      var last := Item(rs[n].tx, if CountsFirst(rs, n) then Taken(log, rs[n].tx) else 0);
      assert TakenItems(rs, log) == TakenItems(rs[..n], log) + [last] by {
        assert forall i :: 0 <= i < n ==> rs[..n][..i] == rs[..i];
      }
      SumAppend(TakenItems(rs[..n], log), last);
    }
  }

  lemma {:induction false} TakenAt(log: seq<Entry>, j: nat)
    requires j < |log| && forall i, k :: 0 <= i < k < |log| ==> log[i].tx != log[k].tx
    ensures Taken(log, log[j].tx) == Cost(log[j])
  {
    if j > 0 {
      assert log[1..][j - 1] == log[j];
      TakenAt(log[1..], j - 1);
    }
  }

  lemma {:induction false} TakenSomewhere(log: seq<Entry>, tx: Tx) returns (j: nat)
    requires Taken(log, tx) != 0
    ensures j < |log| && log[j].tx == tx && Cost(log[j]) == Taken(log, tx)
  {
    j := 0;
    if log[0].tx != tx {
      j := TakenSomewhere(log[1..], tx);
      j := j + 1;
    }
  }

  lemma TakenItemsAreDistinct(rs: seq<Record>, log: seq<Entry>)
    ensures Distinct(TakenItems(rs, log))
  {
    var a := TakenItems(rs, log);
    forall i, j | 0 <= i < j < |a| && a[i].worth > 0 && a[j].worth > 0
      ensures a[i].tx != a[j].tx
    {
      assert CountsFirst(rs, i) && CountsFirst(rs, j);
      assert rs[..j][i] == rs[i] && !Counts(rs[..j], rs[j].tx);
    }
  }

  /** The chain took at most what the payment counts. */
  lemma TakenIsBounded(s: Setup, x: State, i: nat)
    requires RecordsInv(s, x) && ChainInv(x) && RevertedInv(x)
    requires i < |x.records| && !x.records[i].fate.Released?
    ensures 0 <= Taken(x.chain.log, x.records[i].tx) <= Counted(x.records[i])
  {
    assert WellMade(s, i, x.records[i]);
    ChainCostsNothingBack(s, x);
    if Taken(x.chain.log, x.records[i].tx) != 0 {
      var j := TakenSomewhere(x.chain.log, x.records[i].tx);
      CountsAtLeast(s, x, i, j);
    }
  }

  lemma TakenIsOnChain(s: Setup, x: State)
    requires RecordsInv(s, x) && ChainInv(x)
    ensures Sum(TakenItems(x.records, x.chain.log)) <= Sum(ChainItems(x, x.chain.log))
  {
    var a, b := TakenItems(x.records, x.chain.log), ChainItems(x, x.chain.log);
    forall i | 0 <= i < |a| && a[i].worth > 0
      ensures Matched(a[i], b)
    {
      assert CountsFirst(x.records, i) && Covered(x, x.records[i].tx);
      var j := TakenSomewhere(x.chain.log, x.records[i].tx);
      assert b[j] == a[i];
    }
    TakenItemsAreDistinct(x.records, x.chain.log);
    ChainCostsNothingBack(s, x);
    Dominated(a, b);
  }

  lemma LogTxsDiffer(x: State)
    requires ChainInv(x)
    ensures forall i, k :: 0 <= i < k < |x.chain.log| ==> x.chain.log[i].tx != x.chain.log[k].tx
  {
  }

  lemma CoveredIsTaken(s: Setup, x: State, j: nat)
    requires RecordsInv(s, x) && ChainInv(x) && RevertedInv(x)
    requires j < |x.chain.log| && Covered(x, x.chain.log[j].tx) && Cost(x.chain.log[j]) > 0
    ensures Matched(Item(x.chain.log[j].tx, Cost(x.chain.log[j])), TakenItems(x.records, x.chain.log))
  {
    CoveredIsMatched(s, x, j);
    var a := BookItems(x.records);
    var m :| 0 <= m < |a| && a[m].tx == x.chain.log[j].tx && a[m].worth >= Cost(x.chain.log[j]);
    var i := FirstCounts(x.records, m);
    LogTxsDiffer(x);
    TakenAt(x.chain.log, j);
    assert TakenItems(x.records, x.chain.log)[i] == Item(x.records[i].tx, Cost(x.chain.log[j]));
  }

  lemma OnChainIsTaken(s: Setup, x: State)
    requires RecordsInv(s, x) && ChainInv(x) && RevertedInv(x)
    ensures Sum(ChainItems(x, x.chain.log)) <= Sum(TakenItems(x.records, x.chain.log))
  {
    var a, b := TakenItems(x.records, x.chain.log), ChainItems(x, x.chain.log);
    forall j | 0 <= j < |b| && b[j].worth > 0
      ensures Matched(b[j], a)
    {
      CoveredIsTaken(s, x, j);
    }
    forall i | 0 <= i < |a|
      ensures a[i].worth >= 0
    {
      if CountsFirst(x.records, i) {
        TakenIsBounded(s, x, i);
      }
    }
    ChainItemsAreDistinct(x);
    Dominated(b, a);
  }

  /** Conservation, in every state of every honest run. The books differ from the outflow by three
      sums, and by nothing else: what the chain took for payments that were given back, which the
      books do not hold; what the books count for bytes that another payment counts already; and
      what they count and the chain did not take. */
  lemma BooksAreExact(s: Setup, x: State)
    requires RecordsInv(s, x) && ChainInv(x) && RevertedInv(x) && BooksInv(x)
    ensures Outflow(x.chain.log) + Repeated(x.records) + Pending(x.records, x.chain.log)
         == x.ledger.spent + Uncovered(x, x.chain.log)
  {
    TakenIsOnChain(s, x);
    OnChainIsTaken(s, x);
    ChainSum(x, x.chain.log);
    CountsNothingBack(s, x);
    TakenSum(x.records, x.chain.log);
  }

  /** The chain did not take all that payment `i` counts. */
  predicate Ahead(rs: seq<Record>, log: seq<Entry>, i: int)
    requires 0 <= i < |rs|
  {
    CountsFirst(rs, i) && Counted(rs[i]) > Taken(log, rs[i].tx)
  }

  lemma AheadBefore(rs: seq<Record>, log: seq<Entry>)
    requires rs != []
    ensures var n := |rs| - 1;
      forall i :: 0 <= i < n ==> CountsFirst(rs[..n], i) == CountsFirst(rs, i) && Ahead(rs[..n], log, i) == Ahead(rs, log, i)
  {
    var n := |rs| - 1;
    assert forall i :: 0 <= i < n ==> rs[..n][..i] == rs[..i] && rs[..n][i] == rs[i];
  }

  /** The chain did not take all that some payment counts. */
  predicate SomeAhead(rs: seq<Record>, log: seq<Entry>) {
    exists i :: 0 <= i < |rs| && Ahead(rs, log, i)
  }

  lemma SomeAheadBefore(rs: seq<Record>, log: seq<Entry>)
    requires rs != []
    ensures SomeAhead(rs, log) <==> SomeAhead(rs[..|rs| - 1], log) || Ahead(rs, log, |rs| - 1)
  {
    AheadBefore(rs, log);
    var n := |rs| - 1;
    if i :| 0 <= i < n && Ahead(rs, log, i) {
      assert Ahead(rs[..n], log, i);
    }
  }

  lemma {:induction false} PendingSign(rs: seq<Record>, log: seq<Entry>)
    requires forall i :: 0 <= i < |rs| && CountsFirst(rs, i) ==> Counted(rs[i]) >= Taken(log, rs[i].tx)
    ensures Pending(rs, log) >= 0
    ensures Pending(rs, log) > 0 <==> SomeAhead(rs, log)
  {
    if rs != [] {
      AheadBefore(rs, log);
      PendingSign(rs[..|rs| - 1], log);
      SomeAheadBefore(rs, log);
    }
  }

  /** When everything is decided, nothing is pending. */
  lemma DecidedIsTaken(s: Setup, x: State)
    requires RecordsInv(s, x) && ChainInv(x) && RevertedInv(x) && Decided(x)
    ensures Pending(x.records, x.chain.log) == 0
  {
    forall i | 0 <= i < |x.records| && CountsFirst(x.records, i)
      ensures Counted(x.records[i]) == Taken(x.chain.log, x.records[i].tx)
    {
      var j := EntryOf(x, i);
      LogTxsDiffer(x);
      TakenAt(x.chain.log, j);
    }
    PendingSign(x.records, x.chain.log);
  }

  /** Where the chain holds a decided payment. */
  lemma EntryOf(x: State, i: nat) returns (j: nat)
    requires RevertedInv(x) && Decided(x) && i < |x.records| && !x.records[i].fate.Released?
    ensures j < |x.chain.log| && x.chain.log[j].tx == x.records[i].tx
    ensures x.chain.log[j].code == 0 <==> !x.records[i].fate.Reverted?
  {
    var r := x.records[i];
    if r.fate.Reverted? {
      assert HasReverted(x, r.tx);
      j :| 0 <= j < |x.chain.log| && x.chain.log[j].tx == r.tx && x.chain.log[j].code != 0;
    } else {
      j :| 0 <= j < |x.chain.log| && x.chain.log[j] == Entry(r.tx, 0);
    }
  }

  /** The chain took entry `j` for payments that were all given back. */
  predicate Lost(x: State, log: seq<Entry>, j: int)
    requires 0 <= j < |log|
  {
    !Covered(x, log[j].tx) && Cost(log[j]) > 0
  }

  /** Each sum is above 0 exactly when there is such a payment. */
  ghost predicate SumsAreWitnessed(x: State, log: seq<Entry>, rs: seq<Record>) {
    && Uncovered(x, log) >= 0 && Repeated(rs) >= 0 && Pending(rs, log) >= 0
    && (Uncovered(x, log) > 0 <==> exists j :: 0 <= j < |log| && Lost(x, log, j))
    && (Repeated(rs) > 0 <==> exists j :: 0 <= j < |rs| && CountsAgain(rs, j))
    && (Pending(rs, log) > 0 <==> SomeAhead(rs, log))
  }

  lemma {:induction false} UncoveredSign(x: State, log: seq<Entry>)
    requires forall j :: 0 <= j < |log| ==> Cost(log[j]) >= 0
    ensures Uncovered(x, log) >= 0
    ensures Uncovered(x, log) > 0
       <==> exists j :: 0 <= j < |log| && Lost(x, log, j)
  {
    if log != [] {
      UncoveredSign(x, log[1..]);
      if j :| 0 <= j < |log[1..]| && Lost(x, log[1..], j) {
        assert Lost(x, log, j + 1);
      }
      if j :| 0 < j < |log| && Lost(x, log, j) {
        assert Lost(x, log[1..], j - 1);
      }
      assert Uncovered(x, log) > 0 <==> Uncovered(x, log[1..]) > 0 || Lost(x, log, 0);
    }
  }

  /** Exactly when the books are late, in every honest run at any moment: when the chain took more
      for payments that were given back than the books count twice and count ahead of the chain.
      Each of the three sums is above 0 exactly when there is such a payment. */
  lemma LateExactlyWhen(s: Setup, calls: nat, es: seq<Event>)
    requires LawfulSigner(s) && HonestRun(s, Init(calls), es) && Possible(s, Init(calls), es)
    ensures var x := Run(s, Init(calls), es);
      && Outflow(x.chain.log) - x.ledger.spent
         == Uncovered(x, x.chain.log) - Repeated(x.records) - Pending(x.records, x.chain.log)
      && SumsAreWitnessed(x, x.chain.log, x.records)
      && (Decided(x) ==> Pending(x.records, x.chain.log) == 0)
  {
    HonestRunFits(s, calls, es);
    var x := Run(s, Init(calls), es);
    BooksAreExact(s, x);
    SumsHaveSigns(s, x);
    if Decided(x) {
      DecidedIsTaken(s, x);
    }
  }

  lemma HonestRunFits(s: Setup, calls: nat, es: seq<Event>)
    requires LawfulSigner(s) && HonestRun(s, Init(calls), es) && Possible(s, Init(calls), es)
    ensures var x := Run(s, Init(calls), es);
      RecordsInv(s, x) && ChainInv(x) && RevertedInv(x) && BooksInv(x)
  {
    InitHolds(s, calls);
    HonestRunKeeps(s, Init(calls), es);
  }

  lemma SumsHaveSigns(s: Setup, x: State)
    requires RecordsInv(s, x) && ChainInv(x) && RevertedInv(x)
    ensures SumsAreWitnessed(x, x.chain.log, x.records)
  {
    ChainCostsNothingBack(s, x);
    UncoveredSign(x, x.chain.log);
    CountsNothingBack(s, x);
    RepeatedSign(x.records);
    forall i | 0 <= i < |x.records| && CountsFirst(x.records, i)
      ensures Counted(x.records[i]) >= Taken(x.chain.log, x.records[i].tx)
    {
      TakenIsBounded(s, x, i);
    }
    PendingSign(x.records, x.chain.log);
  }

  lemma NoTwinsRepeatsNothing(s: Setup, x: State)
    requires RecordsInv(s, x) && NoTwins(x)
    ensures Repeated(x.records) == 0
  {
    CountsNothingBack(s, x);
    RepeatedSign(x.records);
    forall i, j | 0 <= i < j < |x.records| && Counted(x.records[i]) > 0 && Counted(x.records[j]) > 0
      ensures x.records[..j][i].tx != x.records[j].tx
    {
      assert x.records[..j][i] == x.records[i];
    }
  }
}
