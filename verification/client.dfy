/** `Client`: it sends a request, pays when the sidecar asks for it, and decides what becomes of
    the payment. */
module Clients {
  import opened Basics
  import opened Codec
  import opened Config
  import opened Polling
  import opened Ledgers
  import opened Payers
  import Base64
  import Decimal

  /** What comes back for one request. An absent header is empty, a body that cannot be read is
      `None`. */
  datatype Reply =
    | NoReply
    | Reply(status: int, required: Bytes, response: Bytes, body: Option<Bytes>)

  datatype Receipt = Receipt(paid: bool, amount: string, asset: string, response: Option<PaymentResponse>)

  const UNPAID := Receipt(false, "", "", None)

  /** What `Do` returns, the number of requests it sent, and the payment it signed, if any. */
  datatype Call = Call(reply: Reply, receipt: Option<Receipt>, sends: nat, signed: Option<Payment>)

  /** `readPaymentRequired`: the header, then the plain body, then the data of a JSON-RPC error. */
  function ReadPaymentRequired(json: Json, header: Bytes, body: Bytes): Option<PaymentRequired> {
    var parsed := ParsePaymentRequired(json, header);
    if header != [] && parsed.Ok? && parsed.value.accepts != [] then Some(parsed.value)
    else
      var text := json.trim(body);
      if text == [] then None
      else
        var plain := json.readRequired(text);
        if plain.Some? && plain.value.accepts != [] then plain
        else
          var rpc := json.readRpcRequired(text);
          if rpc.Some? && rpc.value.accepts != [] then rpc else None
  }

  /** Where the options of a 402 answer may stand, in the order of preference. */
  function Candidates(json: Json, header: Bytes, body: Bytes): seq<Option<PaymentRequired>> {
    var parsed := ParsePaymentRequired(json, header);
    var text := json.trim(body);
    [if header != [] && parsed.Ok? then Some(parsed.value) else None,
     if text == [] then None else json.readRequired(text),
     if text == [] then None else json.readRpcRequired(text)]
  }

  predicate Usable(c: Option<PaymentRequired>) {
    c.Some? && c.value.accepts != []
  }

  /** The payer takes the first candidate that names an option, and an answer without options
      is never taken. */
  lemma FirstUsableCandidate(json: Json, header: Bytes, body: Bytes)
    ensures var all := Candidates(json, header, body); var r := ReadPaymentRequired(json, header, body);
      && (r.None? <==> forall i :: 0 <= i < 3 ==> !Usable(all[i]))
      && (r.Some? ==> exists i ::
            0 <= i < 3 && r == all[i] && Usable(all[i]) && forall j :: 0 <= j < i ==> !Usable(all[j]))
  {
    var all, r := Candidates(json, header, body), ReadPaymentRequired(json, header, body);
    if Usable(all[0]) {
      assert r == all[0];
    } else if Usable(all[1]) {
      assert r == all[1];
    } else if Usable(all[2]) {
      assert r == all[2];
    }
  }

  /** `readPaymentResponse` */
  function ReadPaymentResponse(json: Json, header: Bytes): Option<PaymentResponse> {
    if header == [] then None
    else
      match Base64.DecodeBase64(header)
      case None => None
      case Some(b) => json.readResponse(b)
  }

  /** `paymentWorked` */
  predicate PaymentWorked(status: int, response: Option<PaymentResponse>) {
    status != 402 && !(response.Some? && response.value.status == "failed")
  }

  /** The option that `pickOption` returns. */
  function Pick(accepts: seq<PaymentOption>, network: string): Option<PaymentOption> {
    if accepts == [] then None
    else if accepts[0].network == network then Some(accepts[0])
    else Pick(accepts[1..], network)
  }

  /** It is the first one of the network, and there is none exactly when no option has it. */
  lemma {:induction false} PickIsFirst(accepts: seq<PaymentOption>, network: string)
    ensures match Pick(accepts, network)
      case None => forall i :: 0 <= i < |accepts| ==> accepts[i].network != network
      case Some(o) => exists i ::
        && 0 <= i < |accepts| && accepts[i] == o && o.network == network
        && forall j :: 0 <= j < i ==> accepts[j].network != network
  {
    if accepts != [] && accepts[0].network != network {
      PickIsFirst(accepts[1..], network);
      var r := Pick(accepts[1..], network);
      if r.Some? {
        var i :| 0 <= i < |accepts[1..]| && accepts[1..][i] == r.value
          && forall j :: 0 <= j < i ==> accepts[1..][j].network != network;
        assert accepts[i + 1] == r.value;
        assert forall j :: 0 < j < i + 1 ==> accepts[j] == accepts[1..][j - 1];
      } else {
        assert forall i :: 0 < i < |accepts| ==> accepts[i] == accepts[1..][i - 1];
      }
    }
  }

  /** The option that `Do` wants to pay for, if the first answer asks for a payment. */
  function Wanted(s: Setup, first: Reply): Option<PaymentOption> {
    if first.NoReply? || first.status != 402 || first.body.None? then None
    else
      match ReadPaymentRequired(s.json, first.required, first.body.value)
      case None => None
      case Some(required) => Pick(required.accepts, s.cfg.network)
  }

  /** The end of `Do`: what the second answer means for the payment. */
  function Dispose(s: Setup, l: Ledger, pay: Payment, second: Reply): (Ledger, Call) {
    match second
    case NoReply => (LeftOpen(l, Some(pay)), Call(NoReply, None, 2, Some(pay)))
    case Reply(status, _, header, _) =>
      var response := ReadPaymentResponse(s.json, header);
      var worked := PaymentWorked(status, response);
      (if worked then l else Release(l, pay),
       Call(second, Some(Receipt(worked, Decimal.Print(Worth(pay.amount)), pay.asset, response)), 2, Some(pay)))
  }

  /** `Do`: the books after it, and what it returns. */
  function DoOutcome(s: Setup, l: Ledger, serial: nat, first: Reply, w: PayWorld, second: Reply)
    : (Ledger, Call)
    requires s.timing.interval > 0
  {
    if first.NoReply? then (l, Call(NoReply, None, 1, None))
    else
      var unpaid := Call(first, Some(UNPAID), 1, None);
      match Wanted(s, first)
      case None => (l, unpaid)
      case Some(o) =>
        var (l1, r) := PayOutcome(s, l, serial, o, w);
        if r.Err? then (l1, unpaid) else Dispose(s, l1, r.value, second)
  }

  class Client {
    const setup: Setup
    // It is null when the payer has no wallet.
    const payer: Payer?

    constructor (setup: Setup, payer: Payer?)
      ensures this.setup == setup && this.payer == payer
    {
      this.setup, this.payer := setup, payer;
    }

    ghost predicate Valid()
      reads this, payer
    {
      payer != null ==> payer.Valid() && payer.setup == setup
    }

    /** `pickOption` */
    method PickOption(required: PaymentRequired) returns (r: Result<PaymentOption, seq<string>>)
      ensures r.Ok? <==> Pick(required.accepts, setup.cfg.network).Some?
      ensures r.Ok? ==> Some(r.value) == Pick(required.accepts, setup.cfg.network)
      ensures r.Err? ==> |r.error| == |required.accepts|
      ensures r.Err? ==> forall i :: 0 <= i < |r.error| ==> r.error[i] == required.accepts[i].network
    {
      var names := [];
      var a := required.accepts;
      for i := 0 to |a|
        invariant Pick(a, setup.cfg.network) == Pick(a[i..], setup.cfg.network)
        invariant |names| == i && forall j :: 0 <= j < i ==> names[j] == a[j].network
      {
        if a[i].network == setup.cfg.network {
          return Ok(a[i]);
        }
        names := names + [a[i].network];
        assert a[i..][1..] == a[i + 1..];
      }
      return Err(names);
    }

    /** `Do`. It is not reentrant: the caller holds the lock of the client. */
    method Do(first: Reply, w: PayWorld, second: Reply) returns (r: Call)
      requires Valid()
      modifies if payer == null then {} else {payer, payer.slots}
      ensures Valid()
      ensures payer != null ==> payer.slots == old(payer.slots) || fresh(payer.slots)
      ensures payer != null ==>
        payer.Books() == DoOutcome(setup, old(payer.Books()), old(payer.made), first, w, second).0
      ensures payer != null ==>
        r == DoOutcome(setup, old(payer.Books()), old(payer.made), first, w, second).1
      ensures payer != null ==> payer.made == old(payer.made) + if r.signed.Some? then 1 else 0
      ensures payer == null ==>
        r == Call(first, if first.NoReply? then None else Some(UNPAID), 1, None)
    {
      if first.NoReply? {
        return Call(NoReply, None, 1, None);
      }
      var unpaid := Call(first, Some(UNPAID), 1, None);
      if first.status != 402 || first.body.None? || payer == null {
        return unpaid;
      }
      var required := ReadPaymentRequired(setup.json, first.required, first.body.value);
      if required.None? {
        return unpaid;
      }
      var option := PickOption(required.value);
      if option.Err? {
        return unpaid;
      }
      var pay := payer.Pay(option.value, w);
      if pay.Err? {
        return unpaid;
      }
      r := Settle(payer, pay.value, second);
    }

    /** The end of `Do`. */
    method Settle(payer: Payer, pay: Payment, second: Reply) returns (r: Call)
      requires payer.Valid()
      modifies payer, payer.slots
      ensures payer.Valid() && payer.made == old(payer.made)
      ensures payer.slots == old(payer.slots) || fresh(payer.slots)
      ensures payer.Books() == Dispose(setup, old(payer.Books()), pay, second).0
      ensures r == Dispose(setup, old(payer.Books()), pay, second).1
    {
      if second.NoReply? {
        payer.Unresolved(Some(pay));
        return Call(NoReply, None, 2, Some(pay));
      }
      var receipt := Receipt(true, Decimal.Print(Worth(pay.amount)), pay.asset,
                             ReadPaymentResponse(setup.json, second.response));
      if !PaymentWorked(second.status, receipt.response) {
        payer.Rollback(Some(pay));
        receipt := receipt.(paid := false);
      }
      return Call(second, Some(receipt), 2, Some(pay));
    }
  }

  /** A call sends at most two requests, and the second one exactly when it signed. What it
      signed it disposes of once: kept when the receipt says paid, given back when the sidecar
      refused, left open when no answer came. */
  lemma DoDisposesOnce(s: Setup, l: Ledger, serial: nat, first: Reply, w: PayWorld, second: Reply)
    requires s.timing.interval > 0
    ensures var (l', r) := DoOutcome(s, l, serial, first, w, second);
      && 1 <= r.sends <= 2 && (r.sends == 2 <==> r.signed.Some?)
      && (r.receipt.Some? && r.receipt.value.paid ==> r.signed.Some?)
      && (r.signed.Some? ==>
            && Wanted(s, first).Some? && r.reply == second
            && var (l1, p) := PayOutcome(s, l, serial, Wanted(s, first).value, w);
            && p == Ok(r.signed.value)
            && (r.receipt.None? <==> second.NoReply?)
            && (second.NoReply? ==>
                  l' == if r.signed.value.txHash == "" then Release(l1, r.signed.value)
                        else l1.(open := l1.open + [r.signed.value]))
            && l' == if r.receipt.None? then LeftOpen(l1, r.signed)
                     else if r.receipt.value.paid then l1 else RolledBack(l1, r.signed))
  {
  }

  /** The header, read in alphabet `a`, says that the payment failed. */
  predicate SaysFailed(json: Json, header: Bytes, a: Base64.Alphabet) {
    var b := Base64.Decode(a, header);
    header != [] && b.Some? && json.readResponse(b.value).Some?
    && json.readResponse(b.value).value.status == "failed"
  }

  /** The answer names option `i` in place `c`: the first place that names an option at all, and
      the first option of the configured network in it. */
  predicate Offers(s: Setup, first: Reply, c: nat, i: nat)
    requires first.Reply? && first.body.Some?
  {
    var all := Candidates(s.json, first.required, first.body.value);
    && c < 3 && Usable(all[c]) && (forall d :: 0 <= d < c ==> !Usable(all[d]))
    && i < |all[c].value.accepts| && all[c].value.accepts[i].network == s.cfg.network
    && forall j :: 0 <= j < i ==> all[c].value.accepts[j].network != s.cfg.network
  }

  function Offered(s: Setup, first: Reply, c: nat, i: nat): PaymentOption
    requires first.Reply? && first.body.Some? && Offers(s, first, c, i)
  {
    Candidates(s.json, first.required, first.body.value)[c].value.accepts[i]
  }

  /** The sidecar asks for a payment that this payer could make. */
  ghost predicate AsksToPay(s: Setup, first: Reply) {
    first.Reply? && first.status == 402 && first.body.Some? && exists c, i :: Offers(s, first, c, i)
  }

  lemma OfferIsUnique(s: Setup, first: Reply, c: nat, i: nat, d: nat, j: nat)
    requires first.Reply? && first.body.Some? && Offers(s, first, c, i) && Offers(s, first, d, j)
    ensures c == d && i == j
  {
  }

  lemma WantedIsOffered(s: Setup, first: Reply)
    ensures Wanted(s, first).Some? <==> AsksToPay(s, first)
    ensures AsksToPay(s, first) ==>
      forall c, i :: Offers(s, first, c, i) ==> Wanted(s, first) == Some(Offered(s, first, c, i))
  {
    if first.Reply? && first.status == 402 && first.body.Some? {
      var all := Candidates(s.json, first.required, first.body.value);
      var r := ReadPaymentRequired(s.json, first.required, first.body.value);
      FirstUsableCandidate(s.json, first.required, first.body.value);
      if r.Some? {
        var c :| 0 <= c < 3 && r == all[c] && Usable(all[c]) && forall d :: 0 <= d < c ==> !Usable(all[d]);
        PickIsFirst(r.value.accepts, s.cfg.network);
        if Wanted(s, first).Some? {
          var required, i := WantedIsFirst(s, first);
          assert Offers(s, first, c, i);
          forall d: nat, j: nat | Offers(s, first, d, j)
            ensures Wanted(s, first) == Some(Offered(s, first, d, j))
          {
            OfferIsUnique(s, first, c, i, d, j);
          }
        }
      }
    }
  }

  /** When `Do` pays: exactly when the first answer is a readable 402 that offers an option of the
      configured network, and the payer can pay the first such option. Any other answer goes back
      as it came, unpaid, and unless the payer was asked to pay, the books do not move. */
  lemma PaysExactlyWhen(s: Setup, l: Ledger, serial: nat, first: Reply, w: PayWorld, second: Reply)
    requires s.timing.interval > 0 && forall v :: s.json.writePayload(v).Some?
    ensures var (l', r) := DoOutcome(s, l, serial, first, w, second);
      && (r.signed.Some?
          <==> && first.Reply? && first.status == 402 && first.body.Some? && w.account.Some? && w.signs
               && exists c, i :: Offers(s, first, c, i) && Affords(s, l, Offered(s, first, c, i), w))
      && (first.NoReply? ==> r == Call(NoReply, None, 1, None))
      && (first.Reply? && r.signed.None? ==>
            r == Call(first, Some(Receipt(false, "", "", None)), 1, None))
      && (!AsksToPay(s, first) ==> l' == l)
  {
    WantedIsOffered(s, first);
    if Wanted(s, first).Some? {
      PaySucceedsExactlyWhen(s, l, serial, Wanted(s, first).value, w);
    }
  }

  /** What a header says, in whichever alphabet reads it. */
  function HeaderSays(json: Json, header: Bytes): Option<PaymentResponse> {
    var url, standard := Base64.Decode(Base64.Url, header), Base64.Decode(Base64.Standard, header);
    if url.Some? then json.readResponse(url.value)
    else if standard.Some? then json.readResponse(standard.value)
    else None
  }

  /** What counts as a refusal: a second 402, or a Payment-Response header that says "failed" in
      one of the two alphabets. A missing or unreadable header refuses nothing. */
  lemma PaidExactlyWhen(s: Setup, l: Ledger, pay: Payment, second: Reply)
    requires second.Reply?
    ensures var (l', r) := Dispose(s, l, pay, second);
      var header := second.response;
      && r.receipt.Some?
      && (r.receipt.value.paid
          <==> second.status != 402
               && !SaysFailed(s.json, header, Base64.Url) && !SaysFailed(s.json, header, Base64.Standard))
      && l' == (if r.receipt.value.paid then l else Release(l, pay))
      && r.reply == second && r.sends == 2 && r.signed == Some(pay)
      && Decimal.ParseInt(r.receipt.value.amount) == Some(Worth(pay.amount))
      && Decimal.Canonical(r.receipt.value.amount)
      && r.receipt.value.asset == pay.asset
      && r.receipt.value.response == (if header == [] then None else HeaderSays(s.json, header))
  {
    Decimal.ParsePrint(Worth(pay.amount));
    if Base64.Decode(Base64.Url, second.response).Some? && Base64.Decode(Base64.Standard, second.response).Some? {
      Base64.AlphabetsAgree(second.response);
    }
  }

  lemma WantedIsFirst(s: Setup, first: Reply) returns (required: PaymentRequired, i: nat)
    requires Wanted(s, first).Some?
    ensures first.Reply? && first.body.Some?
    ensures ReadPaymentRequired(s.json, first.required, first.body.value) == Some(required)
    ensures i < |required.accepts| && Some(required.accepts[i]) == Wanted(s, first)
    ensures required.accepts[i].network == s.cfg.network
    ensures forall j :: 0 <= j < i ==> required.accepts[j].network != s.cfg.network
  {
    var o := Wanted(s, first).value;
    required := ReadPaymentRequired(s.json, first.required, first.body.value).value;
    PickIsFirst(required.accepts, s.cfg.network);
    i :| 0 <= i < |required.accepts| && required.accepts[i] == o && o.network == s.cfg.network
      && forall j :: 0 <= j < i ==> required.accepts[j].network != s.cfg.network;
  }

  /** Whatever the sidecar sends, a signed payment is for the first option of the configured
      network in the list that the answer gives, and the signed transaction pays the amount of
      that option, above 0 and within the limit, in the configured token, to an address with
      the fixed prefix. The header says so to the sidecar. */
  lemma SignedOptionIsTheWantedOne(s: Setup, l: Ledger, serial: nat, first: Reply, w: PayWorld, second: Reply)
    returns (required: PaymentRequired, i: nat, tx: Tx, c: CosmosPayload)
    requires s.timing.interval > 0 && Lawful(s.json)
    requires DoOutcome(s, l, serial, first, w, second).1.signed.Some?
    ensures var pay := DoOutcome(s, l, serial, first, w, second).1.signed.value;
      && first.Reply? && first.body.Some?
      && ReadPaymentRequired(s.json, first.required, first.body.value) == Some(required)
      && i < |required.accepts| && required.accepts[i].network == s.cfg.network
      && (forall j :: 0 <= j < i ==> required.accepts[j].network != s.cfg.network)
      && var o := required.accepts[i];
      && o.asset == s.cfg.asset == tx.denom && o.scheme in {"exact", "upto"}
      && "celestia1" <= o.payTo == tx.to == c.to
      && Decimal.ParseInt(Decimal.TrimSpace(o.amount)) == Some(tx.amount)
      && Decimal.ParseInt(c.amount) == Some(tx.amount)
      && 0 < tx.amount == Worth(pay.amount) <= MaxPerCallAmount(s.cfg)
      && tx.fee == Worth(pay.fee) >= 0 && tx.sequence == pay.sequence
      && Base64.Encode(Base64.Standard, s.txBytes(tx)) == c.signedTx
      && pay.txHash == s.hash(s.txBytes(tx))
  {
    required, i := WantedIsFirst(s, first);
    var o := required.accepts[i];
    var text, p;
    tx, text, p, c := HeaderTellsTheTruth(s, l, serial, o, w);
    CheckedAmount(s.cfg, o, tx.amount);
  }
}
