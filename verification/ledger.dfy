/** The books of the payer: what `Payer` keeps under its lock, and what each of its operations
    does to them, as functions on values. */
module Ledgers {
  import opened Basics
  import opened Polling

  /** One signed payment. `serial` tells two payments with the same content apart. */
  datatype Payment = Payment(
    serial: nat, header: Bytes, amount: Option<int>, fee: Option<int>, asset: string,
    sequence: uint64, txHash: string)

  /** `nextSeq`, `haveSeq`, `spent`, `count` and `open` of `Payer` */
  datatype Ledger = Ledger(nextSeq: uint64, haveSeq: bool, spent: int, count: int, open: seq<Payment>)

  const EMPTY := Ledger(0, false, 0, 0, [])

  function Worth(sum: Option<int>): int {
    if sum.Some? then sum.value else 0
  }

  /** The sequence that a payment takes when the sidecar reports `reported`. */
  function ChooseSequence(l: Ledger, reported: uint64): uint64 {
    if l.haveSeq && l.nextSeq > reported then l.nextSeq else reported
  }

  /** What a successful `Pay` adds. */
  function Commit(l: Ledger, amount: int, fee: int, sequence: uint64): Ledger {
    Ledger(Succ(sequence), true, l.spent + amount + fee, l.count + 1, l.open)
  }

  /** `release` */
  function Release(l: Ledger, pay: Payment): Ledger {
    l.(haveSeq := false, spent := l.spent - Worth(pay.amount) - Worth(pay.fee), count := l.count - 1)
  }

  /** `Rollback` */
  function RolledBack(l: Ledger, pay: Option<Payment>): Ledger {
    if pay.None? then l else Release(l, pay.value)
  }

  /** `Unresolved` */
  function LeftOpen(l: Ledger, pay: Option<Payment>): Ledger {
    if pay.None? then l
    else if pay.value.txHash == "" then Release(l, pay.value)
    else l.(open := l.open + [pay.value])
  }

  /** What the answer of the chain gives back for a payment. */
  function Refund(pay: Payment, outcome: Outcome): int {
    match outcome
    case Unknown => 0
    case Absent => Worth(pay.amount) + Worth(pay.fee)
    case InBlock(code) => if code != 0 then Worth(pay.amount) else 0
  }

  function Without(open: seq<Payment>, k: nat): seq<Payment>
    requires k < |open|
  {
    open[..k] + open[k + 1..]
  }

  /** One turn of `resolveOpen`: the payment at `k` gets its answer. */
  function ResolveOne(l: Ledger, k: nat, outcome: Outcome): Ledger
    requires k < |l.open|
  {
    if outcome.Unknown? then l
    else
      var pay := l.open[k];
      l.(haveSeq := l.haveSeq && !outcome.Absent?,
         spent := l.spent - Refund(pay, outcome),
         count := if outcome.Absent? then l.count - 1 else l.count,
         open := Without(l.open, k))
  }

  /** All turns from `k` on, one after the other. */
  function ResolveFrom(l: Ledger, k: nat, outcomes: seq<Outcome>): Ledger
    requires k + |outcomes| == |l.open|
    decreases |outcomes|
  {
    if outcomes == [] then l
    else ResolveFrom(ResolveOne(l, k, outcomes[0]), if outcomes[0].Unknown? then k + 1 else k, outcomes[1..])
  }

  /** The payments that stay open: those without an answer, in their order. */
  function Undecided(open: seq<Payment>, outcomes: seq<Outcome>): seq<Payment>
    requires |open| == |outcomes|
  {
    if open == [] then []
    else (if outcomes[0].Unknown? then [open[0]] else []) + Undecided(open[1..], outcomes[1..])
  }

  function Refunds(open: seq<Payment>, outcomes: seq<Outcome>): int
    requires |open| == |outcomes|
  {
    if open == [] then 0 else Refund(open[0], outcomes[0]) + Refunds(open[1..], outcomes[1..])
  }

  function Absents(outcomes: seq<Outcome>): nat {
    if outcomes == [] then 0
    else (if outcomes[0].Absent? then 1 else 0) + Absents(outcomes[1..])
  }

  /** `resolveOpen` at once, from the answers. */
  function Resolved(l: Ledger, outcomes: seq<Outcome>): Ledger
    requires |l.open| == |outcomes|
  {
    Ledger(l.nextSeq, l.haveSeq && Absents(outcomes) == 0, l.spent - Refunds(l.open, outcomes),
           l.count - Absents(outcomes), Undecided(l.open, outcomes))
  }

  lemma ResolveStep(l: Ledger, k: nat, outcome: Outcome)
    requires k < |l.open|
    ensures var l' := ResolveOne(l, k, outcome); var k' := if outcome.Unknown? then k + 1 else k;
      && k' <= |l'.open| && l'.open[k'..] == l.open[k + 1..]
      && l'.open[..k'] == l.open[..k] + (if outcome.Unknown? then [l.open[k]] else [])
  {
  }

  /** Answer by answer is the same as all at once: the payments before `k` stay, and the rest
      is filtered, refunded and counted down by its answers. */
  lemma {:induction false} ResolveFromIsResolved(l: Ledger, k: nat, outcomes: seq<Outcome>)
    requires k + |outcomes| == |l.open|
    ensures var r := ResolveFrom(l, k, outcomes);
      && r.open == l.open[..k] + Undecided(l.open[k..], outcomes)
      && r.spent == l.spent - Refunds(l.open[k..], outcomes)
      && r.count == l.count - Absents(outcomes)
      && r.haveSeq == (l.haveSeq && Absents(outcomes) == 0)
      && r.nextSeq == l.nextSeq
    decreases |outcomes|
  {
    if outcomes == [] {
      assert l.open[..k] + [] == l.open;
    } else {
      var l' := ResolveOne(l, k, outcomes[0]);
      var k' := if outcomes[0].Unknown? then k + 1 else k;
      ResolveStep(l, k, outcomes[0]);
      ResolveFromIsResolved(l', k', outcomes[1..]);
      assert l.open[k..][1..] == l.open[k + 1..] && l.open[k..][0] == l.open[k];
    }
  }

  lemma ResolveAll(l: Ledger, outcomes: seq<Outcome>)
    requires |l.open| == |outcomes|
    ensures ResolveFrom(l, 0, outcomes) == Resolved(l, outcomes)
  {
    ResolveFromIsResolved(l, 0, outcomes);
    assert l.open[0..] == l.open;
  }

  /** Which payments stay open: exactly those without an answer. */
  lemma {:induction false} UndecidedMembers(open: seq<Payment>, outcomes: seq<Outcome>, pay: Payment)
    requires |open| == |outcomes|
    ensures pay in Undecided(open, outcomes)
       <==> exists i :: 0 <= i < |open| && open[i] == pay && outcomes[i].Unknown?
  {
    if open != [] {
      UndecidedMembers(open[1..], outcomes[1..], pay);
      if pay in Undecided(open[1..], outcomes[1..]) {
        var i :| 0 <= i < |open[1..]| && open[1..][i] == pay && outcomes[1..][i].Unknown?;
        assert open[i + 1] == pay && outcomes[i + 1].Unknown?;
      }
      if i :| 0 < i < |open| && open[i] == pay && outcomes[i].Unknown? {
        assert open[1..][i - 1] == pay && outcomes[1..][i - 1].Unknown?;
      }
    }
  }
}
