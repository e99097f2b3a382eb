/** The x402 headers: JSON in base64, two alphabets, two protocol versions. */
module Codec {
  import opened Basics
  import Base64

  const VERSION_V1 := 1
  const VERSION_V2 := 2

  datatype Resource = Resource(url: string, description: string, mimeType: string)

  datatype PaymentOption = PaymentOption(
    scheme: string, network: string, amount: string, asset: string, payTo: string,
    maxTimeoutSeconds: int, description: string, mimeType: string, extra: Bytes)

  /** `PaymentRequiredV2` */
  datatype PaymentRequired = PaymentRequired(
    version: int, error: string, resource: Option<Resource>, accepts: seq<PaymentOption>)

  /** `PaymentPayloadV2` */
  datatype PaymentPayload = PaymentPayload(
    version: int, resource: Option<Resource>, accepted: PaymentOption, payload: Bytes)

  /** `PaymentPayloadV1`, without its version */
  datatype PayloadV1 = PayloadV1(scheme: string, network: string, payload: Bytes)

  datatype CosmosPayload = CosmosPayload(
    from: string, to: string, amount: string, denom: string, timeoutAt: int, signedTx: Bytes)

  datatype PaymentResponse = PaymentResponse(
    status: string, transactionHash: string, network: string, payer: string, error: string)

  /** `encoding/json` at the types of the protocol, as functions that a caller supplies.
      Each reader gives `None` where `json.Unmarshal` gives an error. */
  datatype Json = Json(
    version: Bytes -> Option<int>,
    readRequiredV1: Bytes -> Option<seq<PaymentOption>>,
    readRequired: Bytes -> Option<PaymentRequired>,
    readRpcRequired: Bytes -> Option<PaymentRequired>,
    readPayloadV1: Bytes -> Option<PayloadV1>,
    readPayload: Bytes -> Option<PaymentPayload>,
    readCosmos: Bytes -> Option<CosmosPayload>,
    readResponse: Bytes -> Option<PaymentResponse>,
    writeRequired: PaymentRequired -> Option<Bytes>,
    writePayload: PaymentPayload -> Option<Bytes>,
    writeCosmos: CosmosPayload -> Bytes,
    // `bytes.TrimSpace`
    trim: Bytes -> Bytes,
    // What writing and reading again makes of a raw message.
    tidyExtra: Bytes -> Bytes,
    tidyPayload: Bytes -> Bytes)

  function TidyOption(json: Json, o: PaymentOption): PaymentOption {
    o.(extra := json.tidyExtra(o.extra))
  }

  function TidyRequired(json: Json, v: PaymentRequired): PaymentRequired {
    v.(accepts := seq(|v.accepts|, i requires 0 <= i < |v.accepts| => TidyOption(json, v.accepts[i])))
  }

  function TidyPayload(json: Json, v: PaymentPayload): PaymentPayload {
    v.(accepted := TidyOption(json, v.accepted), payload := json.tidyPayload(v.payload))
  }

  /** The laws of `encoding/json` that the theorems use: what is written is read back, up to
      the layout of raw messages, and the version field reads the same in every type. */
  ghost predicate Lawful(json: Json) {
    && (forall v, b :: json.writeRequired(v) == Some(b) ==>
          json.readRequired(b) == Some(TidyRequired(json, v)))
    && (forall v, b :: json.writePayload(v) == Some(b) ==>
          json.readPayload(b) == Some(TidyPayload(json, v)))
    && (forall b :: json.readRequired(b).Some? ==>
          json.version(b) == Some(json.readRequired(b).value.version))
    && (forall b :: json.readPayload(b).Some? ==>
          json.version(b) == Some(json.readPayload(b).value.version))
    && (forall c :: json.readCosmos(json.writeCosmos(c)) == Some(c))
    && (forall c :: json.tidyPayload(json.writeCosmos(c)) == json.writeCosmos(c))
    && (forall x :: json.tidyExtra(json.tidyExtra(x)) == json.tidyExtra(x))
    && (forall x :: json.tidyPayload(json.tidyPayload(x)) == json.tidyPayload(x))
  }

  datatype ParseError = NotBase64 | NoVersion | NotV1 | NotV2

  /** `EncodeHeader`, after `json.Marshal` */
  function EncodeHeader(text: Bytes): Bytes {
    Base64.Encode(Base64.Url, text)
  }

  /** `ParsePaymentRequired`: base64 of either alphabet, or else the plain text. */
  function ParsePaymentRequired(json: Json, raw: Bytes): Result<PaymentRequired, ParseError> {
    var decoded := Base64.DecodeBase64(raw);
    var b := if decoded.Some? then decoded.value else raw;
    match json.version(b)
    case None => Err(NoVersion)
    case Some(version) =>
      if version == VERSION_V1 then
        match json.readRequiredV1(b)
        case None => Err(NotV1)
        case Some(accepts) => Ok(PaymentRequired(VERSION_V2, "", None, accepts))
      else
        match json.readRequired(b)
        case None => Err(NotV2)
        case Some(v) => Ok(v)
  }

  /** The option that a v1 payload names: a scheme and a network, and nothing else. */
  function BareOption(scheme: string, network: string): PaymentOption {
    PaymentOption(scheme, network, "", "", "", 0, "", "", [])
  }

  /** `ParsePaymentPayload` */
  function ParsePaymentPayload(json: Json, raw: Bytes): Result<PaymentPayload, ParseError> {
    match Base64.DecodeBase64(raw)
    case None => Err(NotBase64)
    case Some(b) =>
      match json.version(b)
      case None => Err(NoVersion)
      case Some(version) =>
        if version == VERSION_V1 then
          match json.readPayloadV1(b)
          case None => Err(NotV1)
          case Some(v1) =>
            Ok(PaymentPayload(VERSION_V2, None, BareOption(v1.scheme, v1.network), v1.payload))
        else
          match json.readPayload(b)
          case None => Err(NotV2)
          case Some(v) => Ok(v)
  }

  /** A written header reads back as the value, in either alphabet, exactly when the value does
      not claim version 1: such a value would come back as version 2. */
  lemma RequiredRoundTrip(json: Json, a: Base64.Alphabet, v: PaymentRequired, b: Bytes)
    requires Lawful(json) && json.writeRequired(v) == Some(b)
    ensures ParsePaymentRequired(json, Base64.Encode(a, b)) == Ok(TidyRequired(json, v))
       <==> v.version != VERSION_V1
  {
    Base64.DecodeBase64Inverts(a, b);
  }

  lemma PayloadRoundTrip(json: Json, a: Base64.Alphabet, v: PaymentPayload, b: Bytes)
    requires Lawful(json) && json.writePayload(v) == Some(b)
    ensures ParsePaymentPayload(json, Base64.Encode(a, b)) == Ok(TidyPayload(json, v))
       <==> v.version != VERSION_V1
  {
    Base64.DecodeBase64Inverts(a, b);
  }

  /** A message of version 1 comes out as version 2, in either alphabet: the options in their
      order, and for a payload the scheme and the network in an option that is empty otherwise. */
  lemma VersionOneComesOutAsTwo(json: Json, a: Base64.Alphabet, b: Bytes)
    requires json.version(b) == Some(1)
    ensures json.readRequiredV1(b).Some? ==>
      ParsePaymentRequired(json, Base64.Encode(a, b))
      == Ok(PaymentRequired(2, "", None, json.readRequiredV1(b).value))
    ensures json.readPayloadV1(b).Some? ==>
      var r := ParsePaymentPayload(json, Base64.Encode(a, b));
      && r.Ok? && r.value.version == 2 && r.value.resource == None
      && r.value.payload == json.readPayloadV1(b).value.payload
      && r.value.accepted == PaymentOption(json.readPayloadV1(b).value.scheme,
                                           json.readPayloadV1(b).value.network, "", "", "", 0, "", "", [])
  {
    Base64.DecodeBase64Inverts(a, b);
  }

  /** A message of any other version comes out as it reads, or not at all. */
  lemma OtherVersionsComeOutAsTheyRead(json: Json, a: Base64.Alphabet, b: Bytes)
    requires json.version(b) != Some(1)
    ensures var r := ParsePaymentRequired(json, Base64.Encode(a, b));
      && (r.Ok? <==> json.version(b).Some? && json.readRequired(b).Some?)
      && (r.Ok? ==> Some(r.value) == json.readRequired(b))
    ensures var r := ParsePaymentPayload(json, Base64.Encode(a, b));
      && (r.Ok? <==> json.version(b).Some? && json.readPayload(b).Some?)
      && (r.Ok? ==> Some(r.value) == json.readPayload(b))
  {
    Base64.DecodeBase64Inverts(a, b);
  }

  /** A text that holds an opening brace, as every JSON object does, is never taken as base64:
      it is read as it stands. */
  lemma BraceIsPlain(json: Json, raw: Bytes, i: nat)
    requires i < |raw| && raw[i] == 123
    ensures Base64.DecodeBase64(raw) == None
    ensures json.version(raw) == Some(VERSION_V1) && json.readRequiredV1(raw).Some? ==>
      ParsePaymentRequired(json, raw)
      == Ok(PaymentRequired(VERSION_V2, "", None, json.readRequiredV1(raw).value))
  {
    Base64.ForeignByteIsRefused(Base64.Url, raw, i);
    Base64.ForeignByteIsRefused(Base64.Standard, raw, i);
  }

  /** The same v1 answer gives the same value as plain text, base64url or standard base64. */
  lemma ThreeFormsOneValue(json: Json, text: Bytes, i: nat, a: Base64.Alphabet)
    requires i < |text| && text[i] == 123
    ensures ParsePaymentRequired(json, text) == ParsePaymentRequired(json, Base64.Encode(a, text))
  {
    BraceIsPlain(json, text, i);
    Base64.DecodeBase64Inverts(a, text);
  }

  lemma TidyTwice(json: Json, v: PaymentRequired)
    requires Lawful(json)
    ensures TidyRequired(json, TidyRequired(json, v)) == TidyRequired(json, v)
  {
    var w := TidyRequired(json, v);
    forall i | 0 <= i < |v.accepts|
      ensures TidyRequired(json, w).accepts[i] == w.accepts[i]
    {
      assert w.accepts[i] == TidyOption(json, v.accepts[i]);
    }
    assert TidyRequired(json, w).accepts == w.accepts;
  }

  /** No reader of the payer ever sees version 1, and parsing, writing and parsing again
      changes nothing but the layout of raw messages; a second trip changes nothing at all. */
  lemma ParseIsNormal(json: Json, raw: Bytes, v: PaymentRequired)
    requires Lawful(json) && ParsePaymentRequired(json, raw) == Ok(v)
    ensures v.version != VERSION_V1
    ensures json.writeRequired(v).Some? ==>
      var again := ParsePaymentRequired(json, EncodeHeader(json.writeRequired(v).value));
      && again == Ok(TidyRequired(json, v))
      && again.value.version == v.version && |again.value.accepts| == |v.accepts|
      && (json.writeRequired(again.value).Some? ==>
            ParsePaymentRequired(json, EncodeHeader(json.writeRequired(again.value).value)) == again)
  {
    if json.writeRequired(v).Some? {
      RequiredRoundTrip(json, Base64.Url, v, json.writeRequired(v).value);
      var w := TidyRequired(json, v);
      TidyTwice(json, v);
      if json.writeRequired(w).Some? {
        RequiredRoundTrip(json, Base64.Url, w, json.writeRequired(w).value);
      }
    }
  }
}
