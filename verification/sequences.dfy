/** The account sequences that the payer signs. */
module Sequences {
  import opened Basics
  import opened Codec
  import opened Polling
  import opened Ledgers
  import opened Payers
  import opened Clients
  import opened Systems
  import opened Invariants
  import opened NeverLate
  import opened Exactness
  import opened Simulation

  const TOP: uint64 := UINT64_LIMIT - 1

  function LastSequence(x: State): uint64
    requires x.records != []
  {
    x.records[|x.records| - 1].tx.sequence
  }

  /** While no payment is given back, the next sequence follows the last signed one. */
  ghost predicate NextInv(x: State) {
    x.ledger.haveSeq ==> x.records != [] && x.ledger.nextSeq == Succ(LastSequence(x))
  }

  lemma NextKept(s: Setup, x: State, e: Event)
    requires Enabled(x, e) && NextInv(x)
    ensures NextInv(Next(s, x, e))
  {
    RecordsGrow(s, x, e);
    match e
    case Sign(t, signs, clock) => SignGrows(s, x, t, signs, clock);
    case Second(t, reply) => DisposeByFate(s, x.ledger, x.threads[t].stage.pay, reply);
    case _ =>
  }

  lemma {:induction false} RunKeepsNext(s: Setup, x: State, es: seq<Event>)
    requires Possible(s, x, es) && NextInv(x)
    ensures NextInv(Run(s, x, es))
    decreases |es|
  {
    if es != [] {
      NextKept(s, x, es[0]);
      RunKeepsNext(s, Next(s, x, es[0]), es[1..]);
    }
  }

  /** The transaction that call `t` signs when it is told `account`. */
  function TxOf(s: Setup, x: State, t: nat, account: Account): Tx
    requires t < |x.threads| && (x.threads[t].stage.Reading? || x.threads[t].stage.Signing?)
  {
    var stage := x.threads[t].stage;
    MakeTx(s, stage.o, stage.amount, stage.fee, account.number, ChooseSequence(x.ledger, account.sequence))
  }

  /** What the chain has gone past, it never takes. */
  lemma {:induction false} PastIsPast(s: Setup, x: State, es: seq<Event>, tx: Tx, code: nat)
    requires Possible(s, x, es) && tx.sequence < x.chain.next
    ensures Include(tx, code) !in es
    decreases |es|
  {
    if es != [] {
      PastIsPast(s, Next(s, x, es[0]), es[1..], tx, code);
      assert es == [es[0]] + es[1..];
    }
  }

  lemma SignedNow(s: Setup, x: State, t: nat, clock: int)
    requires t < |x.threads| && x.threads[t].stage.Signing? && forall v :: s.json.writePayload(v).Some?
    ensures Enabled(x, Sign(t, true, clock))
    ensures var y := Next(s, x, Sign(t, true, clock));
      && y.chain == x.chain && |y.records| == |x.records| + 1 && y.records[..|x.records|] == x.records
      && y.records[|x.records|].tx == TxOf(s, x, t, x.threads[t].stage.account)
      && y.records[|x.records|].fate == InFlight
  {
    var tx := TxOf(s, x, t, x.threads[t].stage.account);
    assert s.json.writePayload(MakePayload(s, x.threads[t].stage.o, x.threads[t].stage.amount, tx, clock)).Some?;
  }

  /** A block takes the transaction in this run. */
  predicate Takes(s: Setup, x: State, es: seq<Event>, tx: Tx) {
    Possible(s, x, es) && exists e: Event :: e in es && e.Include? && e.tx == tx
  }

  lemma FutureIsTaken(s: Setup, x: State, tx: Tx)
    requires Signed(x, tx)
    ensures (exists es :: Takes(s, x, es, tx)) <==> tx.sequence >= x.chain.next
  {
    if tx.sequence >= x.chain.next {
      var z := Next(s, x, Foreign(tx.sequence));
      assert z.records == x.records && Signed(z, tx);
      var es := [Foreign(tx.sequence), Include(tx, 0)];
      assert es[1..] == [Include(tx, 0)] && es[1] in es;
      assert Possible(s, Next(s, z, Include(tx, 0)), []) && Possible(s, z, [Include(tx, 0)]);
      assert Takes(s, x, es, tx);
    } else if es :| Takes(s, x, es, tx) {
      var e: Event :| e in es && e.Include? && e.tx == tx;
      PastIsPast(s, x, es, tx, e.code);
    }
  }

  /** The chain can still take what the payer signs exactly when the sidecar did not report an
      account that the chain has left behind, or the payer itself knows better. */
  lemma SignsAFreeSequence(s: Setup, x: State, t: nat, clock: int)
    requires t < |x.threads| && x.threads[t].stage.Signing? && forall v :: s.json.writePayload(v).Some?
    ensures Enabled(x, Sign(t, true, clock))
    ensures var y := Next(s, x, Sign(t, true, clock)); var account := x.threads[t].stage.account;
      (exists es :: Takes(s, y, es, TxOf(s, x, t, account)))
      <==> account.sequence >= x.chain.next || (x.ledger.haveSeq && x.ledger.nextSeq >= x.chain.next)
  {
    SignedNow(s, x, t, clock);
    FutureIsTaken(s, Next(s, x, Sign(t, true, clock)), TxOf(s, x, t, x.threads[t].stage.account));
  }

  // No two payments share a sequence: when it holds, exactly.

  /** Payment `i` was not given back. */
  predicate Live(x: State, i: int) {
    0 <= i < |x.records| && !x.records[i].fate.Released?
  }

  /** The next signature goes past payment `i`, whatever account from `least` on is reported. */
  predicate Past(x: State, i: int, least: nat)
    requires 0 <= i < |x.records|
  {
    var sequence := x.records[i].tx.sequence;
    sequence < least || (x.ledger.haveSeq && sequence < x.ledger.nextSeq)
  }

  /** It goes past every live payment. */
  ghost predicate Guarded(x: State, least: nat) {
    forall i :: Live(x, i) ==> Past(x, i, least)
  }

  /** The sequence that a signature takes. It is never below the reported one. It is above that
      of every live payment exactly when the guard holds for the reported number, and above the
      newest one exactly when nothing was given back since (and a number of the type is left), or
      the sidecar reports more. After the last number of the type the payer counts from 0. */
  lemma SignsAboveAll(s: Setup, calls: nat, es: seq<Event>, t: nat)
    requires Possible(s, Init(calls), es)
    requires var x := Run(s, Init(calls), es);
      x.records != [] && t < |x.threads| && x.threads[t].stage.Signing?
    ensures var x := Run(s, Init(calls), es);
      var reported := x.threads[t].stage.account.sequence;
      var sequence := ChooseSequence(x.ledger, reported);
      && sequence >= reported
      && ((forall i :: Live(x, i) ==> sequence > x.records[i].tx.sequence) <==> Guarded(x, reported))
      && (sequence > LastSequence(x)
          <==> (x.ledger.haveSeq && LastSequence(x) < TOP) || reported > LastSequence(x))
      && (LastSequence(x) == 18446744073709551615 ==> sequence == reported)
  {
    RunKeepsNext(s, Init(calls), es);
    var x := Run(s, Init(calls), es);
    var reported := x.threads[t].stage.account.sequence;
    forall i | Live(x, i)
      ensures ChooseSequence(x.ledger, reported) > x.records[i].tx.sequence <==> Past(x, i, reported)
    {
    }
  }

  /** The next sequence differs from those of all payments that were not given back, whatever
      account from `least` on is reported, exactly when it goes past all of them. In a run, that
      is when nothing was given back after the last signature, none of them is above the last
      one, and the numbers of the type are not used up; or when they all are below `least`. */
  lemma FreshExactlyWhen(s: Setup, calls: nat, es: seq<Event>, least: nat)
    requires Possible(s, Init(calls), es)
    ensures var x := Run(s, Init(calls), es);
      && ((forall reported: uint64, i :: reported >= least && Live(x, i) ==>
             ChooseSequence(x.ledger, reported) != x.records[i].tx.sequence)
          <==> Guarded(x, least))
      && (Guarded(x, least)
          <==> forall i :: Live(x, i) ==>
                 || x.records[i].tx.sequence < least
                 || (x.ledger.haveSeq && x.records[i].tx.sequence <= LastSequence(x) < TOP))
  {
    RunKeepsNext(s, Init(calls), es);
    var x := Run(s, Init(calls), es);
    if forall reported: uint64, i :: reported >= least && Live(x, i) ==>
         ChooseSequence(x.ledger, reported) != x.records[i].tx.sequence {
      forall i | Live(x, i)
        ensures Past(x, i, least)
      {
        if !Past(x, i, least) {
          assert ChooseSequence(x.ledger, x.records[i].tx.sequence) == x.records[i].tx.sequence;
        }
      }
    }
    if Guarded(x, least) {
      forall reported: uint64, i | reported >= least && Live(x, i)
        ensures ChooseSequence(x.ledger, reported) != x.records[i].tx.sequence
      {
        assert Past(x, i, least);
      }
    }
  }

  /** The same payments are live, and the payer expects the same number. */
  lemma SameGuard(x: State, y: State)
    requires |x.records| == |y.records|
    requires x.ledger.haveSeq == y.ledger.haveSeq && x.ledger.nextSeq == y.ledger.nextSeq
    requires forall i :: 0 <= i < |x.records| ==>
      x.records[i].tx == y.records[i].tx && x.records[i].fate.Released? == y.records[i].fate.Released?
    ensures Guarded(x, 0) <==> Guarded(y, 0)
  {
    assert forall i :: Live(x, i) <==> Live(y, i);
    if Guarded(x, 0) {
      assert forall i :: Live(y, i) ==> Past(x, i, 0);
    }
    if Guarded(y, 0) {
      assert forall i :: Live(x, i) ==> Past(y, i, 0);
    }
  }

  lemma NoneLiveAfterRelease(x: State)
    requires !x.ledger.haveSeq
    ensures Guarded(x, 0) <==> forall i :: !Live(x, i)
  {
    if i :| Live(x, i) {
      assert !Past(x, i, 0);
    }
  }

  lemma GuardMovesOnSign(x: State, y: State)
    requires Grew(x, y)
    ensures Guarded(y, 0)
       <==> LastSequence(y) < TOP
            && forall i :: Live(x, i) ==> x.records[i].tx.sequence <= LastSequence(y)
  {
    var n := |x.records|;
    assert Live(y, n) && forall i :: Live(x, i) ==> Live(y, i) && y.records[i] == x.records[i];
    assert forall i :: Live(y, i) ==> i == n || (Live(x, i) && y.records[i] == x.records[i]);
    if Guarded(y, 0) {
      assert Past(y, n, 0);
      assert forall i :: Live(x, i) ==> Past(y, i, 0);
    }
  }

  lemma GuardMovesOnResolve(s: Setup, x: State, t: nat, outcome: Outcome)
    requires Enabled(x, Resolve(t, outcome)) && OpenInv(x)
    ensures var y := Next(s, x, Resolve(t, outcome));
      if outcome.Absent? then !y.ledger.haveSeq else Guarded(y, 0) <==> Guarded(x, 0)
  {
    OpenMember(x.records, x.threads[t].stage.k);
    if !outcome.Absent? {
      SameGuard(x, Next(s, x, Resolve(t, outcome)));
    }
  }

  lemma GuardMovesOnSecond(s: Setup, x: State, t: nat, reply: Reply)
    requires Enabled(x, Second(t, reply)) && FlightInv(x)
    ensures var y := Next(s, x, Second(t, reply));
      if SecondFate(s, x.threads[t].stage.pay, reply).Released? then !y.ledger.haveSeq
      else Guarded(y, 0) <==> Guarded(x, 0)
  {
    var pay := x.threads[t].stage.pay;
    assert IsRecord(x, pay, InFlight);
    DisposeByFate(s, x.ledger, pay, reply);
    if !SecondFate(s, pay, reply).Released? {
      SameGuard(x, Next(s, x, Second(t, reply)));
    }
  }

  /** How each step moves the guard. A step that gives a payment back leaves it only if no
      other payment is live; a signature sets it exactly when the new sequence is not below any
      live one and has a successor; and no other step touches it. */
  lemma GuardMoves(s: Setup, x: State, e: Event)
    requires Enabled(x, e) && OpenInv(x) && FlightInv(x)
    ensures var y := Next(s, x, e);
      && (Releases(s, x, e) ==> (Guarded(y, 0) <==> forall i :: !Live(y, i)))
      && (Grew(x, y) ==>
            (Guarded(y, 0)
             <==> LastSequence(y) < TOP
                  && forall i :: Live(x, i) ==> x.records[i].tx.sequence <= LastSequence(y)))
      && (!Releases(s, x, e) && !Grew(x, y) ==> (Guarded(y, 0) <==> Guarded(x, 0)))
  {
    var y := Next(s, x, e);
    match e {
      case Sign(t, signs, clock) => SignGrows(s, x, t, signs, clock);
      case Second(t, reply) => GuardMovesOnSecond(s, x, t, reply);
      case Resolve(t, outcome) => GuardMovesOnResolve(s, x, t, outcome);
      case _ =>
    }
    if Grew(x, y) {
      GuardMovesOnSign(x, y);
    } else if Releases(s, x, e) {
      NoneLiveAfterRelease(y);
    } else if !e.Second? && !e.Resolve? {
      SameGuard(x, y);
    }
  }

  /** Call `t` asks for a payment of the same terms as payment `i`. */
  predicate SameTerms(s: Setup, x: State, t: nat, i: int)
    requires t < |x.threads| && (x.threads[t].stage.Reading? || x.threads[t].stage.Signing?)
    requires 0 <= i < |x.records|
  {
    var tx := x.records[i].tx;
    tx == MakeTx(s, x.threads[t].stage.o, x.threads[t].stage.amount, x.threads[t].stage.fee, tx.number, tx.sequence)
  }

  /** The next signature of call `t` goes past every live payment, or past every one of the same
      terms, whatever account from `least` on is reported. */
  ghost predicate GoesPast(s: Setup, x: State, t: nat, least: nat, all: bool)
    requires t < |x.threads| && (x.threads[t].stage.Reading? || x.threads[t].stage.Signing?)
  {
    forall i :: Live(x, i) && (all || SameTerms(s, x, t, i)) ==> Past(x, i, least)
  }

  /** Every signature of the run goes past them, for the account that it was told. */
  ghost predicate GuardedRun(s: Setup, x: State, es: seq<Event>, all: bool)
    decreases |es|
  {
    es == [] ||
    (&& Enabled(x, es[0])
     && (es[0].Sign? ==> GoesPast(s, x, es[0].t, x.threads[es[0].t].stage.account.sequence, all))
     && GuardedRun(s, Next(s, x, es[0]), es[1..], all))
  }

  /** No two live payments share their bytes or, with `all`, their sequence. */
  ghost predicate Apart(x: State, all: bool) {
    && NoTwins(x)
    && (all ==> forall i, j :: i < j && Live(x, i) && Live(x, j) ==>
          x.records[i].tx.sequence != x.records[j].tx.sequence)
  }

  lemma FewerAreLive(s: Setup, x: State, e: Event)
    requires Enabled(x, e) && OpenInv(x) && FlightInv(x) && !Grew(x, Next(s, x, e))
    ensures var y := Next(s, x, e);
      |y.records| == |x.records| && forall i :: Live(y, i) ==> Live(x, i) && y.records[i].tx == x.records[i].tx
  {
    RecordsGrow(s, x, e);
    match e
    case Sign(t, signs, clock) => SignGrows(s, x, t, signs, clock);
    case Second(t, reply) => assert IsRecord(x, x.threads[t].stage.pay, InFlight);
    case Resolve(t, outcome) => OpenMember(x.records, x.threads[t].stage.k);
    case _ =>
  }

  /** Call `t` reads this account and signs. */
  function ReadAndSign(t: nat, account: Account, clock: int): seq<Event> {
    [ReadAccount(t, Some(account)), Sign(t, true, clock)]
  }

  lemma ReadAndSignAdds(s: Setup, x: State, t: nat, account: Account, clock: int)
    requires t < |x.threads| && x.threads[t].stage.Reading? && forall v :: s.json.writePayload(v).Some?
    ensures Possible(s, x, ReadAndSign(t, account, clock))
    ensures var y := Run(s, x, ReadAndSign(t, account, clock));
      && |y.records| == |x.records| + 1 && y.records[..|x.records|] == x.records
      && y.records[|x.records|].tx == TxOf(s, x, t, account) && y.records[|x.records|].fate == InFlight
  {
    var z := Next(s, x, ReadAccount(t, Some(account)));
    SignedNow(s, z, t, clock);
    var es := ReadAndSign(t, account, clock);
    assert es[1..] == [Sign(t, true, clock)] && es[1..][1..] == [];
    assert Run(s, z, es[1..]) == Run(s, Next(s, z, Sign(t, true, clock)), []);
  }

  lemma NoTwinsMore(x: State, y: State)
    requires |y.records| == |x.records| + 1 && y.records[..|x.records|] == x.records
    requires NoTwins(x) && !y.records[|x.records|].fate.Released?
    ensures NoTwins(y)
       <==> forall i :: Live(x, i) ==> x.records[i].tx != y.records[|x.records|].tx
  {
    var n := |x.records|;
    assert forall i :: 0 <= i < n ==> y.records[i] == y.records[..n][i];
    if i :| Live(x, i) && x.records[i].tx == y.records[n].tx {
      assert 0 <= i < n < |y.records| && y.records[i].tx == y.records[n].tx;
    }
  }

  /** Exactly when a call that is about to read its account cannot be made to sign live bytes
      again: when the next signature goes past every live payment of its terms. */
  lemma TwinsExactlyWhen(s: Setup, x: State, t: nat, least: nat, clock: int)
    requires t < |x.threads| && x.threads[t].stage.Reading? && forall v :: s.json.writePayload(v).Some?
    requires NoTwins(x)
    ensures forall account :: Possible(s, x, ReadAndSign(t, account, clock))
    ensures (forall account: Account :: account.sequence >= least ==>
               NoTwins(Run(s, x, ReadAndSign(t, account, clock))))
       <==> GoesPast(s, x, t, least, false)
  {
    forall account: Account
      ensures Possible(s, x, ReadAndSign(t, account, clock))
      ensures NoTwins(Run(s, x, ReadAndSign(t, account, clock)))
         <==> forall i :: Live(x, i) ==> x.records[i].tx != TxOf(s, x, t, account)
    {
      ReadAndSignAdds(s, x, t, account, clock);
      NoTwinsMore(x, Run(s, x, ReadAndSign(t, account, clock)));
    }
    if i :| Live(x, i) && SameTerms(s, x, t, i) && !Past(x, i, least) {
      var account := Account(x.records[i].tx.number, x.records[i].tx.sequence);
      assert TxOf(s, x, t, account) == x.records[i].tx;
      assert !NoTwins(Run(s, x, ReadAndSign(t, account, clock)));
    }
    forall account: Account, i | account.sequence >= least && Live(x, i) && x.records[i].tx == TxOf(s, x, t, account)
      ensures SameTerms(s, x, t, i) && !Past(x, i, least)
    {
    }
  }

  lemma ApartWhenGrown(s: Setup, x: State, t: nat, signs: bool, clock: int, all: bool)
    requires Enabled(x, Sign(t, signs, clock)) && Apart(x, all) && Grew(x, Next(s, x, Sign(t, signs, clock)))
    requires GoesPast(s, x, t, x.threads[t].stage.account.sequence, all)
    ensures Apart(Next(s, x, Sign(t, signs, clock)), all)
  {
    var y, n := Next(s, x, Sign(t, signs, clock)), |x.records|;
    var account := x.threads[t].stage.account;
    assert y.records[n].tx == TxOf(s, x, t, account) && y.records[..n] == x.records;
    assert forall i :: 0 <= i < n ==> y.records[i] == x.records[i];
    forall i | Live(x, i) && (all || SameTerms(s, x, t, i))
      ensures x.records[i].tx.sequence != y.records[n].tx.sequence
    {
      assert Past(x, i, account.sequence);
    }
    forall i | Live(x, i)
      ensures x.records[i].tx != y.records[n].tx
    {
      assert x.records[i].tx == y.records[n].tx ==> SameTerms(s, x, t, i);
    }
    NoTwinsMore(x, y);
  }

  lemma ApartKept(s: Setup, x: State, e: Event, all: bool)
    requires Enabled(x, e) && OpenInv(x) && FlightInv(x) && Apart(x, all)
    requires e.Sign? ==> GoesPast(s, x, e.t, x.threads[e.t].stage.account.sequence, all)
    ensures Apart(Next(s, x, e), all)
  {
    var y := Next(s, x, e);
    if Grew(x, y) {
      ApartWhenGrown(s, x, e.t, e.signs, e.clock, all);
    } else {
      FewerAreLive(s, x, e);
      assert forall i :: 0 <= i < |y.records| && !y.records[i].fate.Released? ==> Live(y, i);
    }
  }

  lemma {:induction false} RunKeepsApart(s: Setup, x: State, es: seq<Event>, all: bool)
    requires Possible(s, x, es) && GuardedRun(s, x, es, all) && Inv(s, x) && Apart(x, all)
    ensures Apart(Run(s, x, es), all)
    decreases |es|
  {
    if es != [] {
      assert OpenInv(x) && FlightInv(x);
      ApartKept(s, x, es[0], all);
      StepKeeps(s, x, es[0]);
      RunKeepsApart(s, Next(s, x, es[0]), es[1..], all);
    }
  }

  /** Where every signature goes past the live payments of its terms, no two live payments share
      their bytes, in any interleaving and whatever is given back, and the books count nothing
      twice; where it goes past all live payments, none share a sequence. */
  lemma GuardedRunsHaveNoTwins(s: Setup, calls: nat, es: seq<Event>, all: bool)
    requires Possible(s, Init(calls), es) && GuardedRun(s, Init(calls), es, all)
    ensures var x := Run(s, Init(calls), es);
      Apart(x, all) && NoTwins(x) && Repeated(x.records) == 0
  {
    InitHolds(s, calls);
    RunKeepsApart(s, Init(calls), es, all);
    RunKeepsRecords(s, calls, es);
    NoTwinsRepeatsNothing(s, Run(s, Init(calls), es));
  }

  /** Twins, decided. In every interleaving whose signatures went past the live payments of their
      terms there are none, and there the same guard decides the next signature: no account from
      `least` on leads to twins exactly when it goes past them again. With `least == 0` that is
      for any sidecar, with the number of the chain for one that reports no older account. */
  lemma NextTwinsExactlyWhen(s: Setup, calls: nat, es: seq<Event>, t: nat, least: nat, clock: int)
    requires Possible(s, Init(calls), es) && GuardedRun(s, Init(calls), es, false)
    requires var x := Run(s, Init(calls), es); t < |x.threads| && x.threads[t].stage.Reading?
    requires forall v :: s.json.writePayload(v).Some?
    ensures NoTwins(Run(s, Init(calls), es))
    ensures forall account :: Possible(s, Init(calls), es + ReadAndSign(t, account, clock))
    ensures (forall account: Account :: account.sequence >= least ==>
               NoTwins(Run(s, Init(calls), es + ReadAndSign(t, account, clock))))
       <==> GoesPast(s, Run(s, Init(calls), es), t, least, false)
  {
    var x := Run(s, Init(calls), es);
    GuardedRunsHaveNoTwins(s, calls, es, false);
    TwinsExactlyWhen(s, x, t, least, clock);
    forall account: Account
      ensures Possible(s, Init(calls), es + ReadAndSign(t, account, clock))
      ensures Run(s, Init(calls), es + ReadAndSign(t, account, clock))
           == Run(s, x, ReadAndSign(t, account, clock))
    {
      RunConcat(s, Init(calls), es, ReadAndSign(t, account, clock));
    }
  }

  predicate NoRelease(s: Setup, x: State, es: seq<Event>)
    decreases |es|
  {
    es == [] || (Enabled(x, es[0]) && !Releases(s, x, es[0]) && NoRelease(s, Next(s, x, es[0]), es[1..]))
  }

  /** The payments from `from` on have rising sequences, and the next one continues them. */
  ghost predicate RisingFrom(x: State, from: nat) {
    && from <= |x.records|
    && (forall i, j :: from <= i < j < |x.records| ==> x.records[i].tx.sequence < x.records[j].tx.sequence)
    && (from < |x.records| ==> x.ledger.haveSeq && x.ledger.nextSeq == Succ(LastSequence(x)))
  }

  ghost predicate BelowTop(x: State) {
    forall i :: 0 <= i < |x.records| ==> x.records[i].tx.sequence < TOP
  }

  lemma NewSequenceRises(s: Setup, x: State, t: nat, signs: bool, clock: int, from: nat)
    requires Enabled(x, Sign(t, signs, clock)) && RisingFrom(x, from) && BelowTop(x)
    ensures RisingFrom(Next(s, x, Sign(t, signs, clock)), from)
  {
    SignGrows(s, x, t, signs, clock);
    var y := Next(s, x, Sign(t, signs, clock));
    if Grew(x, y) {
      assert y.records[|x.records|].tx.sequence == ChooseSequence(x.ledger, x.threads[t].stage.account.sequence);
      if from < |x.records| {
        assert y.records[|x.records|].tx.sequence > LastSequence(x);
        forall i | from <= i < |x.records|
          ensures y.records[i].tx.sequence <= LastSequence(x)
        {
        }
      }
    }
  }

  lemma QuietStep(s: Setup, x: State, e: Event)
    requires Enabled(x, e) && !Releases(s, x, e) && !e.Sign?
    ensures var y := Next(s, x, e);
      y.ledger.haveSeq == x.ledger.haveSeq && y.ledger.nextSeq == x.ledger.nextSeq && |y.records| == |x.records|
  {
    if e.Second? {
      DisposeByFate(s, x.ledger, x.threads[e.t].stage.pay, e.reply);
    }
  }

  lemma RisingKept(s: Setup, x: State, e: Event, from: nat)
    requires Enabled(x, e) && !Releases(s, x, e) && RisingFrom(x, from) && BelowTop(x)
    ensures RisingFrom(Next(s, x, e), from)
  {
    if e.Sign? {
      NewSequenceRises(s, x, e.t, e.signs, e.clock, from);
    } else {
      QuietStep(s, x, e);
      RecordsGrow(s, x, e);
    }
  }

  /** The records of a run hold all records on the way. */
  lemma {:induction false} RunGrows(s: Setup, x: State, es: seq<Event>)
    requires Possible(s, x, es)
    ensures var y := Run(s, x, es);
      && |x.records| <= |y.records|
      && forall i :: 0 <= i < |x.records| ==> y.records[i].tx == x.records[i].tx
    decreases |es|
  {
    if es != [] {
      RecordsGrow(s, x, es[0]);
      RunGrows(s, Next(s, x, es[0]), es[1..]);
    }
  }

  lemma {:induction false} StretchRises(s: Setup, x: State, es: seq<Event>, from: nat)
    requires NoRelease(s, x, es) && Possible(s, x, es)
    requires RisingFrom(x, from) && BelowTop(Run(s, x, es))
    ensures RisingFrom(Run(s, x, es), from)
    decreases |es|
  {
    if es != [] {
      RunGrows(s, x, es);
      assert BelowTop(x) by {
        var y := Run(s, x, es);
        assert forall i :: 0 <= i < |x.records| ==> y.records[i].tx == x.records[i].tx;
      }
      RisingKept(s, x, es[0], from);
      StretchRises(s, Next(s, x, es[0]), es[1..], from);
    }
  }

  /** In any stretch of any interleaving in which nothing is given back, the sequences that are
      signed strictly rise, whatever numbers the sidecar reports. */
  lemma SequencesRise(s: Setup, calls: nat, before: seq<Event>, stretch: seq<Event>)
    requires Possible(s, Init(calls), before)
    requires var x := Run(s, Init(calls), before);
      NoRelease(s, x, stretch) && Possible(s, x, stretch) && BelowTop(Run(s, x, stretch))
    ensures var x := Run(s, Init(calls), before); var y := Run(s, x, stretch);
      forall i, j :: |x.records| <= i < j < |y.records| ==>
        y.records[i].pay.sequence < y.records[j].pay.sequence
  {
    var x := Run(s, Init(calls), before);
    InitHolds(s, calls);
    RunKeeps(s, Init(calls), before);
    StretchRises(s, x, stretch, |x.records|);
    RunKeeps(s, x, stretch);
    var y := Run(s, x, stretch);
    assert forall i :: 0 <= i < |y.records| ==> WellMade(s, i, y.records[i]);
  }

  ghost predicate NoneReleased(x: State) {
    forall i :: 0 <= i < |x.records| ==> !x.records[i].fate.Released?
  }

  lemma StepReleasesNothing(s: Setup, x: State, e: Event)
    requires Enabled(x, e) && !Releases(s, x, e) && NoneReleased(x)
    ensures NoneReleased(Next(s, x, e))
  {
  }

  lemma {:induction false} NothingReleased(s: Setup, x: State, es: seq<Event>)
    requires NoRelease(s, x, es) && Possible(s, x, es) && NoneReleased(x)
    ensures NoneReleased(Run(s, x, es))
    decreases |es|
  {
    if es != [] {
      StepReleasesNothing(s, x, es[0]);
      NothingReleased(s, Next(s, x, es[0]), es[1..]);
    }
  }

  lemma AllCoveredWithoutRelease(x: State)
    requires NoneReleased(x) && ChainInv(x)
    ensures Uncovered(x, x.chain.log) == 0
  {
    forall j | 0 <= j < |x.chain.log|
      ensures Covered(x, x.chain.log[j].tx)
    {
      assert Signed(x, x.chain.log[j].tx);
      var i :| 0 <= i < |x.records| && x.records[i].tx == x.chain.log[j].tx;
      assert !x.records[i].fate.Released?;
    }
    NothingUncovered(x, x.chain.log);
  }

  lemma RisingHasNoTwins(x: State)
    requires RisingFrom(x, 0)
    ensures NoTwins(x)
  {
  }

  /** Without a release there is nothing to take for granted: no two payments share their
      bytes, every transaction of the chain is covered, and the books are never late; they are
      ahead by what the chain did not take yet, and exact once everything is decided. */
  lemma ExactWithoutRelease(s: Setup, calls: nat, es: seq<Event>)
    requires LawfulSigner(s) && HonestRun(s, Init(calls), es) && Possible(s, Init(calls), es)
    requires NoRelease(s, Init(calls), es) && BelowTop(Run(s, Init(calls), es))
    ensures var x := Run(s, Init(calls), es); var pending := Pending(x.records, x.chain.log);
      && Outflow(x.chain.log) + pending == x.ledger.spent && pending >= 0
      && (Decided(x) ==> Outflow(x.chain.log) == x.ledger.spent)
  {
    InitHolds(s, calls);
    HonestRunKeeps(s, Init(calls), es);
    StretchRises(s, Init(calls), es, 0);
    NothingReleased(s, Init(calls), es);
    AllCoveredWithoutRelease(Run(s, Init(calls), es));
    RisingHasNoTwins(Run(s, Init(calls), es));
    NoTwinsRepeatsNothing(s, Run(s, Init(calls), es));
    LateExactlyWhen(s, calls, es);
  }
}
