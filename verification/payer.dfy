/** `Payer`: it checks an option, asks the chain about lost payments, signs, and counts. */
module Payers {
  import opened Basics
  import opened Codec
  import opened Config
  import opened Polling
  import opened Ledgers
  import Base64
  import Decimal

  /** The signed transaction, as the record that its bytes hold. It has no time limit. */
  datatype Tx = Tx(
    from: string, to: string, denom: string, amount: int, feeDenom: string, fee: int,
    gasLimit: uint64, memo: string, chainId: string, number: uint64, sequence: uint64)

  datatype Account = Account(number: uint64, sequence: uint64)

  /** What stays fixed while a payer runs: its configuration, its wallet, its timing, and the
      libraries that turn values into bytes. */
  datatype Setup = Setup(
    cfg: Settings, address: string, timing: Timing, json: Json,
    txBytes: Tx -> Bytes, hash: Bytes -> string)

  /** What the world does during one `Pay`: the answers to its polls, the account that the
      sidecar reports (`None` is an error), the clock, and whether the signing library fails. */
  datatype PayWorld = PayWorld(polls: nat -> Poll, account: Option<Account>, clock: int, signs: bool)

  function ChainId(network: string): string {
    if "cosmos:" <= network then network[7..] else network
  }

  function MakeTx(s: Setup, o: PaymentOption, amount: int, fee: int, number: uint64, sequence: uint64): Tx {
    Tx(s.address, o.payTo, o.asset, amount, s.cfg.asset, fee, s.cfg.gasLimit, s.cfg.memo,
       ChainId(s.cfg.network), number, sequence)
  }

  /** The body of the Payment-Signature header. */
  function MakePayload(s: Setup, o: PaymentOption, amount: int, tx: Tx, clock: int): PaymentPayload {
    PaymentPayload(VERSION_V2, None, o, s.json.writeCosmos(
      CosmosPayload(s.address, o.payTo, Decimal.Print(amount), o.asset,
                    clock + s.cfg.timeoutSeconds, Base64.Encode(Base64.Standard, s.txBytes(tx)))))
  }

  function MakePayment(s: Setup, serial: nat, o: PaymentOption, amount: int, fee: int, tx: Tx, clock: int)
    : Option<Payment>
  {
    match s.json.writePayload(MakePayload(s, o, amount, tx, clock))
    case None => None
    case Some(text) =>
      Some(Payment(serial, EncodeHeader(text), Some(amount), Some(fee), o.asset, tx.sequence,
                   s.hash(s.txBytes(tx))))
  }

  /** The answers to `n` open payments, asked one after the other from poll `k` on. */
  function Outcomes(t: Timing, polls: nat -> Poll, k: nat, n: nat): (r: seq<Outcome>)
    requires t.interval > 0
    ensures |r| == n
    decreases n
  {
    if n == 0 then []
    else
      var w := Wait(t, polls, k);
      [w.outcome] + Outcomes(t, polls, w.next, n - 1)
  }

  /** Once the payments from `k` on have had their turns, the books are `goal`. */
  ghost predicate Owes(t: Timing, polls: nat -> Poll, next: nat, l: Ledger, k: nat, goal: Ledger)
    requires t.interval > 0
  {
    forall n: nat :: k + |Outcomes(t, polls, next, n)| == |l.open| ==>
      ResolveFrom(l, k, Outcomes(t, polls, next, n)) == goal
  }

  /** One turn of the loop of `resolveOpen`. */
  lemma ResolveTurn(t: Timing, polls: nat -> Poll, next: nat, l: Ledger, k: nat, l': Ledger, k': nat, goal: Ledger)
    requires t.interval > 0 && k < |l.open| && Owes(t, polls, next, l, k, goal)
    requires l' == ResolveOne(l, k, Wait(t, polls, next).outcome)
    requires k' == if Wait(t, polls, next).outcome.Unknown? then k + 1 else k
    ensures Owes(t, polls, Wait(t, polls, next).next, l', k', goal)
  {
    var w := Wait(t, polls, next);
    forall n: nat | k' + n == |l'.open|
      ensures ResolveFrom(l', k', Outcomes(t, polls, w.next, n)) == goal
    {
      var all := Outcomes(t, polls, next, n + 1);
      assert all[0] == w.outcome && all[1..] == Outcomes(t, polls, w.next, n);
      assert ResolveFrom(l, k, all) == goal;
    }
  }

  /** `resolveOpen` */
  function AfterResolve(s: Setup, l: Ledger, w: PayWorld): Ledger
    requires s.timing.interval > 0
  {
    Resolved(l, Outcomes(s.timing, w.polls, 0, |l.open|))
  }

  /** The part of `Pay` after it asked the chain: the budget, the account, the signature. */
  function SignOutcome(s: Setup, l: Ledger, serial: nat, o: PaymentOption, amount: int, fee: int, w: PayWorld)
    : (Ledger, Result<Payment, PayError>)
  {
    if !WithinBudget(s.cfg, l.spent, amount, fee) then (l, Err(OverBudget))
    else if w.account.None? then (l, Err(NoAccount))
    else if !w.signs then (l, Err(CannotSign))
    else
      var sequence := ChooseSequence(l, w.account.value.sequence);
      var tx := MakeTx(s, o, amount, fee, w.account.value.number, sequence);
      match MakePayment(s, serial, o, amount, fee, tx, w.clock)
      case None => (l, Err(CannotEncode))
      case Some(pay) => (Commit(l, amount, fee, sequence), Ok(pay))
  }

  /** `Pay`: the books after it, and what it returns. */
  function PayOutcome(s: Setup, l: Ledger, serial: nat, o: PaymentOption, w: PayWorld)
    : (Ledger, Result<Payment, PayError>)
    requires s.timing.interval > 0
  {
    var amount, fee := CheckOption(s.cfg, o), FeeAmount(s.cfg);
    if amount.Err? then (l, Err(amount.error))
    else if fee.Err? then (l, Err(fee.error))
    else SignOutcome(s, AfterResolve(s, l, w), serial, o, amount.value, fee.value, w)
  }

  /** Writing an element to the front of the array it comes from loses nothing unread. */
  lemma KeepFront(a: seq<Payment>, keep: nat, i: nat, n: nat)
    requires keep <= i < n <= |a|
    ensures var b := a[keep := a[i]];
      b[..keep + 1] + b[i + 1..n] == a[..keep] + a[i..n]
  {
  }

  class Payer {
    const setup: Setup
    var nextSeq: uint64
    var haveSeq: bool
    var spent: int
    var count: int
    // The slice `open`: the first `used` elements of its backing array.
    var slots: array<Payment>
    var used: nat
    // How many payments this payer made; it numbers them.
    var made: nat

    ghost predicate Valid()
      reads this
    {
      used <= slots.Length && setup.timing.interval > 0
    }

    function Books(): Ledger
      requires used <= slots.Length
      reads this, slots
    {
      Ledger(nextSeq, haveSeq, spent, count, slots[..used])
    }

    /** `NewPayer` */
    constructor (setup: Setup)
      requires setup.timing.interval > 0
      ensures Valid() && fresh(slots) && this.setup == setup && made == 0
      ensures Books() == EMPTY
    {
      this.setup := setup;
      nextSeq, haveSeq, spent, count, used, made := 0, false, 0, 0, 0, 0;
      slots := new Payment[0];
    }

    /** `Spent` */
    method Spent() returns (spent: int, count: int)
      ensures spent == this.spent && count == this.count
    {
      spent, count := this.spent, this.count;
    }

    /** `Open` */
    method Open() returns (hashes: seq<string>)
      requires Valid()
      ensures |hashes| == |Books().open|
      ensures forall i :: 0 <= i < |hashes| ==> hashes[i] == Books().open[i].txHash
    {
      hashes := [];
      for i := 0 to used
        invariant |hashes| == i
        invariant forall j :: 0 <= j < i ==> hashes[j] == slots[j].txHash
      {
        hashes := hashes + [slots[i].txHash];
      }
    }

    /** `waitForTx`; `k` is the number of polls before it. */
    method WaitForTx(polls: nat -> Poll, k: nat) returns (outcome: Outcome, next: nat)
      requires Valid()
      ensures outcome == Wait(setup.timing, polls, k).outcome
      ensures next == Wait(setup.timing, polls, k).next
    {
      var now := 0;
      next, outcome := k, Unknown;
      while true
        invariant WaitFrom(setup.timing, polls, next, now, outcome) == Wait(setup.timing, polls, k)
        decreases if now < setup.timing.wait then setup.timing.wait - now else 0
      {
        var p := polls(next);
        next, now := next + 1, now + p.took;
        if p.status.Told? {
          if p.status.found {
            outcome := InBlock(p.status.code);
            return;
          }
          outcome := Absent;
        }
        if p.cancelled || now >= setup.timing.wait {
          return;
        }
        if p.woken {
          return;
        }
        now := now + setup.timing.interval + p.late;
      }
    }

    /** `release` */
    method Release(pay: Payment)
      requires Valid()
      modifies `haveSeq, `spent, `count
      ensures Valid() && Books() == Ledgers.Release(old(Books()), pay)
    {
      haveSeq := false;
      if pay.amount.Some? {
        spent := spent - pay.amount.value;
      }
      if pay.fee.Some? {
        spent := spent - pay.fee.value;
      }
      count := count - 1;
    }

    /** `Rollback` */
    method Rollback(pay: Option<Payment>)
      requires Valid()
      modifies `haveSeq, `spent, `count
      ensures Valid() && Books() == RolledBack(old(Books()), pay)
    {
      if pay.None? {
        return;
      }
      Release(pay.value);
    }

    /** `append(p.open, pay)`: in place while the backing array has room. */
    method Append(pay: Payment)
      requires Valid()
      modifies `slots, `used, slots
      ensures Valid() && (slots == old(slots) || fresh(slots))
      ensures Books() == old(Books()).(open := old(Books()).open + [pay])
    {
      if used == slots.Length {
        var more := new Payment[2 * used + 1](_ => pay);
        forall i | 0 <= i < used {
          more[i] := slots[i];
        }
        assert more[..used] == slots[..used];
        slots := more;
      }
      slots[used] := pay;
      used := used + 1;
    }

    /** `Unresolved` */
    method Unresolved(pay: Option<Payment>)
      requires Valid()
      modifies `haveSeq, `spent, `count, `slots, `used, slots
      ensures Valid() && (slots == old(slots) || fresh(slots))
      ensures Books() == LeftOpen(old(Books()), pay)
    {
      if pay.None? {
        return;
      }
      if pay.value.txHash == "" {
        Release(pay.value);
        return;
      }
      Append(pay.value);
    }

    /** The books in the middle of `resolveOpen`: `keep` payments stay open, and those from
        slot `i` on still wait for their turn. */
    function Midway(keep: nat, i: nat): Ledger
      requires keep <= i <= used <= slots.Length
      reads this, slots
    {
      Ledger(nextSeq, haveSeq, spent, count, slots[..keep] + slots[i..used])
    }

    /** The turn of slot `i`. The slot that it writes was read before. */
    method ResolveSlot(polls: nat -> Poll, next: nat, keep: nat, i: nat) returns (after: nat, keep': nat)
      requires Valid() && keep <= i < used
      modifies `haveSeq, `spent, `count, slots
      ensures Valid() && keep' == (if Wait(setup.timing, polls, next).outcome.Unknown? then keep + 1 else keep)
      ensures Midway(keep', i + 1)
           == ResolveOne(old(Midway(keep, i)), keep, Wait(setup.timing, polls, next).outcome)
      ensures after == Wait(setup.timing, polls, next).next
    {
      ghost var before, a := Midway(keep, i), slots[..];
      var pay := slots[i];
      assert before.open[keep] == pay;
      assert Without(before.open, keep) == slots[..keep] + slots[i + 1..used];
      var outcome;
      outcome, after := WaitForTx(polls, next);
      keep' := keep;
      match outcome
      case Unknown =>
        slots[keep] := pay;
        keep' := keep + 1;
        assert slots[..] == a[keep := a[i]];
        KeepFront(a, keep, i, used);
      case Absent =>
        Release(pay);
      case InBlock(code) =>
        if code != 0 {
          if pay.amount.Some? {
            spent := spent - pay.amount.value;
          }
        }
    }

    /** The same turn, seen from the end of the loop. */
    method ResolveNext(polls: nat -> Poll, next: nat, keep: nat, i: nat, ghost goal: Ledger)
      returns (after: nat, keep': nat)
      requires Valid() && keep <= i < used
      requires Owes(setup.timing, polls, next, Midway(keep, i), keep, goal)
      modifies `haveSeq, `spent, `count, slots
      ensures Valid() && keep' <= i + 1
      ensures Owes(setup.timing, polls, after, Midway(keep', i + 1), keep', goal)
    {
      ghost var l := Midway(keep, i);
      after, keep' := ResolveSlot(polls, next, keep, i);
      ResolveTurn(setup.timing, polls, next, l, keep, Midway(keep', i + 1), keep', goal);
    }

    /** The loop of `resolveOpen`. The kept payments go to the front of the same array that the
        loop still reads, and no payment is overwritten before its turn. */
    method ResolveSlots(polls: nat -> Poll, ghost goal: Ledger) returns (keep: nat)
      requires Valid() && Owes(setup.timing, polls, 0, Midway(0, 0), 0, goal)
      modifies `haveSeq, `spent, `count, slots
      ensures Valid() && keep <= used && Midway(keep, used) == goal
    {
      keep := 0;
      var next := 0;
      for i := 0 to used
        invariant keep <= i
        invariant Owes(setup.timing, polls, next, Midway(keep, i), keep, goal)
      {
        next, keep := ResolveNext(polls, next, keep, i, goal);
      }
      assert |Midway(keep, used).open| == keep + |Outcomes(setup.timing, polls, next, 0)|;
    }

    /** `resolveOpen` */
    method ResolveOpen(polls: nat -> Poll)
      requires Valid()
      modifies `haveSeq, `spent, `count, `used, slots
      ensures Valid()
      ensures Books() == Resolved(old(Books()), Outcomes(setup.timing, polls, 0, old(used)))
    {
      ghost var goal := Resolved(Books(), Outcomes(setup.timing, polls, 0, used));
      if used == 0 {
        return;
      }
      assert Owes(setup.timing, polls, 0, Midway(0, 0), 0, goal) by {
        assert Midway(0, 0) == Books();
        ResolveAll(Books(), Outcomes(setup.timing, polls, 0, used));
      }
      var keep := ResolveSlots(polls, goal);
      assert Midway(keep, used).open == slots[..keep];
      used := keep;
    }

    /** `Pay` */
    method Pay(o: PaymentOption, w: PayWorld) returns (r: Result<Payment, PayError>)
      requires Valid()
      modifies `nextSeq, `haveSeq, `spent, `count, `used, `made, slots
      ensures Valid()
      ensures (Books(), r) == PayOutcome(setup, old(Books()), old(made), o, w)
      ensures made == old(made) + if r.Ok? then 1 else 0
    {
      var amount := CheckOption(setup.cfg, o);
      if amount.Err? {
        return Err(amount.error);
      }
      var fee := FeeAmount(setup.cfg);
      if fee.Err? {
        return Err(fee.error);
      }
      ResolveOpen(w.polls);
      r := Sign(o, amount.value, fee.value, w);
    }

    /** The second half of `Pay`. */
    method Sign(o: PaymentOption, amount: int, fee: int, w: PayWorld) returns (r: Result<Payment, PayError>)
      requires Valid()
      modifies `nextSeq, `haveSeq, `spent, `count, `made
      ensures Valid()
      ensures Books() == SignOutcome(setup, old(Books()), old(made), o, amount, fee, w).0
      ensures r == SignOutcome(setup, old(Books()), old(made), o, amount, fee, w).1
      ensures made == old(made) + if r.Ok? then 1 else 0
    {
      if !WithinBudget(setup.cfg, spent, amount, fee) {
        return Err(OverBudget);
      }
      if w.account.None? {
        return Err(NoAccount);
      }
      var sequence := w.account.value.sequence;
      if haveSeq && nextSeq > sequence {
        sequence := nextSeq;
      }
      if !w.signs {
        return Err(CannotSign);
      }
      var tx := MakeTx(setup, o, amount, fee, w.account.value.number, sequence);
      var pay := MakePayment(setup, made, o, amount, fee, tx, w.clock);
      if pay.None? {
        return Err(CannotEncode);
      }
      nextSeq := Succ(sequence);
      haveSeq := true;
      spent := spent + amount;
      spent := spent + fee;
      count := count + 1;
      made := made + 1;
      return Ok(pay.value);
    }
  }

  /** A `Pay` that fails commits nothing of its own: the books are as they were, or as asking
      the chain about the lost payments alone leaves them. */
  lemma FailedPayCommitsNothing(s: Setup, l: Ledger, serial: nat, o: PaymentOption, w: PayWorld)
    requires s.timing.interval > 0
    ensures var (l', r) := PayOutcome(s, l, serial, o, w);
      r.Err? ==>
        && l' in {l, AfterResolve(s, l, w)}
        && l'.nextSeq == l.nextSeq
        && (l' == l || (CheckOption(s.cfg, o).Ok? && FeeAmount(s.cfg).Ok?))
  {
  }

  /** The option and the fee are in order, and the budget after the answers of the chain has room
      for both. */
  predicate Affords(s: Setup, l: Ledger, o: PaymentOption, w: PayWorld)
    requires s.timing.interval > 0
  {
    && CheckOption(s.cfg, o).Ok? && FeeAmount(s.cfg).Ok?
    && (BudgetAmount(s.cfg) == 0
        || AfterResolve(s, l, w).spent + CheckOption(s.cfg, o).value + FeeAmount(s.cfg).value
           <= BudgetAmount(s.cfg))
  }

  /** A payment is made exactly when the option and the fee are in order, the budget after the
      answers of the chain has room for both, the account is known, and the libraries work. */
  lemma PaySucceedsExactlyWhen(s: Setup, l: Ledger, serial: nat, o: PaymentOption, w: PayWorld)
    requires s.timing.interval > 0 && forall v :: s.json.writePayload(v).Some?
    ensures var r := PayOutcome(s, l, serial, o, w).1;
      var spent := AfterResolve(s, l, w).spent;
      && (r.Ok? <==> Affords(s, l, o, w) && w.account.Some? && w.signs)
      && (r == Err(OverBudget) <==>
            && CheckOption(s.cfg, o).Ok? && FeeAmount(s.cfg).Ok? && BudgetAmount(s.cfg) != 0
            && spent + CheckOption(s.cfg, o).value + FeeAmount(s.cfg).value > BudgetAmount(s.cfg))
      && (r == Err(NoAccount) <==> Affords(s, l, o, w) && w.account.None?)
      && (r == Err(CannotSign) <==> Affords(s, l, o, w) && w.account.Some? && !w.signs)
  {
    var amount, fee := CheckOption(s.cfg, o), FeeAmount(s.cfg);
    if amount.Ok? && fee.Ok? && w.account.Some? {
      var tx := MakeTx(s, o, amount.value, fee.value, w.account.value.number,
                       ChooseSequence(AfterResolve(s, l, w), w.account.value.sequence));
      assert s.json.writePayload(MakePayload(s, o, amount.value, tx, w.clock)).Some?;
    }
  }

  /** The laws of the libraries under the signer: different transactions have different bytes,
      different bytes have different hashes, and no hash is empty. */
  ghost predicate LawfulSigner(s: Setup) {
    && (forall x, y :: s.txBytes(x) == s.txBytes(y) ==> x == y)
    && (forall b, c :: s.hash(b) == s.hash(c) ==> b == c)
    && (forall b :: s.hash(b) != "")
  }

  lemma HeaderReadsBack(s: Setup, serial: nat, o: PaymentOption, amount: int, fee: int, tx: Tx, clock: int)
    requires Lawful(s.json) && MakePayment(s, serial, o, amount, fee, tx, clock).Some?
    ensures var pay := MakePayment(s, serial, o, amount, fee, tx, clock).value;
      ParsePaymentPayload(s.json, pay.header)
      == Ok(TidyPayload(s.json, MakePayload(s, o, amount, tx, clock)))
    ensures s.json.readCosmos(TidyPayload(s.json, MakePayload(s, o, amount, tx, clock)).payload)
         == Some(CosmosPayload(s.address, o.payTo, Decimal.Print(amount), o.asset,
                               clock + s.cfg.timeoutSeconds,
                               Base64.Encode(Base64.Standard, s.txBytes(tx))))
  {
    var payload := MakePayload(s, o, amount, tx, clock);
    PayloadRoundTrip(s.json, Base64.Url, payload, s.json.writePayload(payload).value);
  }

  lemma ChainIdIsTheRest(network: string)
    ensures "cosmos:" <= network ==> "cosmos:" + ChainId(network) == network
    ensures !("cosmos:" <= network) ==> ChainId(network) == network
  {
  }

  /** The signed transaction, field by field: one coin of the option goes from the wallet to the
      address of the option, with the fee, the gas and the memo of the file, for the chain whose
      name the network holds, and with the account that the sidecar reported. */
  ghost predicate Pays(s: Setup, o: PaymentOption, account: Account, pay: Payment, tx: Tx) {
    && tx.from == s.address && tx.to == o.payTo
    && tx.denom == o.asset && Some(tx.amount) == pay.amount
    && tx.feeDenom == s.cfg.asset && Some(tx.fee) == pay.fee
    && tx.gasLimit == s.cfg.gasLimit && tx.memo == s.cfg.memo
    && ("cosmos:" <= s.cfg.network ==> "cosmos:" + tx.chainId == s.cfg.network)
    && (!("cosmos:" <= s.cfg.network) ==> tx.chainId == s.cfg.network)
    && tx.number == account.number && tx.sequence == pay.sequence
  }

  /** A payment that `Pay` returns, and what the sidecar reads out of its header: the option
      that it accepts, the recipient, the counted amount as a number, and the very transaction
      whose hash the payer asks the chain about. The sequence is not below the reported one. */
  lemma HeaderTellsTheTruth(s: Setup, l: Ledger, serial: nat, o: PaymentOption, w: PayWorld)
    returns (tx: Tx, text: Bytes, p: PaymentPayload, c: CosmosPayload)
    requires s.timing.interval > 0 && Lawful(s.json)
    requires PayOutcome(s, l, serial, o, w).1.Ok?
    ensures var pay := PayOutcome(s, l, serial, o, w).1.value;
      && CheckOption(s.cfg, o) == Ok(Worth(pay.amount)) && FeeAmount(s.cfg) == Ok(Worth(pay.fee))
      && w.account.Some? && pay.sequence >= w.account.value.sequence
      && Pays(s, o, w.account.value, pay, tx)
      && pay.serial == serial && pay.asset == o.asset == s.cfg.asset
      && Base64.Encode(Base64.Url, text) == pay.header && s.json.readPayload(text) == Some(p)
      && ParsePaymentPayload(s.json, pay.header) == Ok(p)
      && p.version == 2 && p.resource == None && p.accepted == TidyOption(s.json, o)
      && s.json.readCosmos(p.payload) == Some(c)
      && c.from == s.address && c.to == o.payTo && c.denom == s.cfg.asset
      && c.timeoutAt == w.clock + s.cfg.timeoutSeconds
      && Decimal.ParseInt(c.amount) == Some(Worth(pay.amount))
      && Base64.Encode(Base64.Standard, s.txBytes(tx)) == c.signedTx
      && pay.txHash == s.hash(s.txBytes(tx))
  {
    var pay := PayOutcome(s, l, serial, o, w).1.value;
    var amount, fee := CheckOption(s.cfg, o).value, FeeAmount(s.cfg).value;
    var sequence := ChooseSequence(AfterResolve(s, l, w), w.account.value.sequence);
    tx := MakeTx(s, o, amount, fee, w.account.value.number, sequence);
    assert Some(pay) == MakePayment(s, serial, o, amount, fee, tx, w.clock);
    HeaderReadsBack(s, serial, o, amount, fee, tx, w.clock);
    ChainIdIsTheRest(s.cfg.network);
    text := s.json.writePayload(MakePayload(s, o, amount, tx, w.clock)).value;
    p := TidyPayload(s.json, MakePayload(s, o, amount, tx, w.clock));
    c := s.json.readCosmos(p.payload).value;
    Decimal.ParsePrint(amount);
  }
}
