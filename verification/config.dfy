/** The configuration file, and the rules that a payment option must pass. */
module Config {
  import opened Basics
  import opened Codec
  import Decimal

  datatype Settings = Settings(
    listen: string, upstream: string, network: string, mnemonic: string, mnemonicFile: string,
    asset: string, maxPerCall: string, budget: string, fee: string,
    gasLimit: uint64, timeoutSeconds: int, memo: string)

  const BECH32_PREFIX := "celestia"

  const DEFAULT_UPSTREAM := "http://localhost:26658"

  /** `Config.applyDefaults`, on values */
  function WithDefaults(c: Settings): Settings {
    Settings(
      if c.listen == "" then ":26659" else c.listen,
      if c.upstream == "" then DEFAULT_UPSTREAM else c.upstream,
      c.network, c.mnemonic,
      if c.mnemonicFile == "" then ".mnemonic" else c.mnemonicFile,
      if c.asset == "" then "utia" else c.asset,
      if c.maxPerCall == "" then "20000" else c.maxPerCall,
      if c.budget == "" then "0" else c.budget,
      if c.fee == "" then "2000" else c.fee,
      if c.gasLimit == 0 then 100000 else c.gasLimit,
      if c.timeoutSeconds <= 0 then 120 else c.timeoutSeconds,
      c.memo)
  }

  /** The record that `LoadConfig` decodes, fills in and checks. */
  class File {
    var listen: string
    var upstream: string
    var network: string
    var mnemonic: string
    var mnemonicFile: string
    var asset: string
    var maxPerCall: string
    var budget: string
    var fee: string
    var gasLimit: uint64
    var timeoutSeconds: int
    var memo: string

    constructor (c: Settings)
      ensures Value() == c
    {
      listen, upstream, network, mnemonic := c.listen, c.upstream, c.network, c.mnemonic;
      mnemonicFile, asset, maxPerCall := c.mnemonicFile, c.asset, c.maxPerCall;
      budget, fee, gasLimit := c.budget, c.fee, c.gasLimit;
      timeoutSeconds, memo := c.timeoutSeconds, c.memo;
    }

    function Value(): Settings
      reads this
    {
      Settings(listen, upstream, network, mnemonic, mnemonicFile, asset, maxPerCall, budget, fee,
               gasLimit, timeoutSeconds, memo)
    }

    /** `Config.applyDefaults` */
    method ApplyDefaults()
      modifies this
      ensures Value() == WithDefaults(old(Value()))
    {
      FillNames();
      FillNumbers();
    }

    method FillNames()
      modifies `listen, `upstream, `mnemonicFile, `asset
      ensures Value() == old(Value()).(
        listen := WithDefaults(old(Value())).listen, upstream := WithDefaults(old(Value())).upstream,
        mnemonicFile := WithDefaults(old(Value())).mnemonicFile, asset := WithDefaults(old(Value())).asset)
    {
      if listen == "" { listen := ":26659"; }
      if upstream == "" { upstream := DEFAULT_UPSTREAM; }
      if mnemonicFile == "" { mnemonicFile := ".mnemonic"; }
      if asset == "" { asset := "utia"; }
    }

    method FillNumbers()
      modifies `maxPerCall, `budget, `fee, `gasLimit, `timeoutSeconds
      ensures Value() == old(Value()).(
        maxPerCall := WithDefaults(old(Value())).maxPerCall, budget := WithDefaults(old(Value())).budget,
        fee := WithDefaults(old(Value())).fee, gasLimit := WithDefaults(old(Value())).gasLimit,
        timeoutSeconds := WithDefaults(old(Value())).timeoutSeconds)
    {
      if maxPerCall == "" { maxPerCall := "20000"; }
      if budget == "" { budget := "0"; }
      if fee == "" { fee := "2000"; }
      if gasLimit == 0 { gasLimit := 100000; }
      if timeoutSeconds <= 0 { timeoutSeconds := 120; }
    }

    /** The end of `LoadConfig`: fill in, then check. A file is refused only for what its user
        wrote, or for a missing network; a file that loads pays with the numbers of its user. */
    method Load(parseUrl: string -> Option<Url>) returns (refused: Option<ConfigError>)
      requires parseUrl(DEFAULT_UPSTREAM) == Some(Url("http", "localhost:26658"))
      modifies this
      ensures refused.None? <==> WrittenWell(old(Value()), parseUrl)
      ensures refused.None? ==> PaysAsWritten(old(Value()), Value())
    {
      ApplyDefaults();
      refused := Validate(Value(), parseUrl);
      LoadsExactlyWhen(old(Value()), parseUrl);
    }
  }

  datatype Url = Url(scheme: string, host: string)

  datatype ConfigError =
    | NotAUrl | BadScheme | NoHost | NoNetwork | BadNetwork
    | BadMaxPerCall | BadBudget | BadFee | NoGas

  /** `parseAmount`: a whole number that is 0 or above. */
  function ParseAmount(text: string): Option<nat> {
    match Decimal.ParseInt(Decimal.TrimSpace(text))
    case None => None
    case Some(n) => if n < 0 then None else Some(n)
  }

  function AmountOrZero(text: string): nat {
    var n := ParseAmount(text);
    if n.Some? then n.value else 0
  }

  function MaxPerCallAmount(c: Settings): nat {
    AmountOrZero(c.maxPerCall)
  }

  function BudgetAmount(c: Settings): nat {
    AmountOrZero(c.budget)
  }

  /** `Config.validate`; the reader of URLs is a parameter. */
  function Validate(c: Settings, parseUrl: string -> Option<Url>): Option<ConfigError> {
    var u := parseUrl(c.upstream);
    if u.None? then Some(NotAUrl)
    else if u.value.scheme != "http" && u.value.scheme != "https" then Some(BadScheme)
    else if u.value.host == "" then Some(NoHost)
    else if c.network == "" then Some(NoNetwork)
    else if !("cosmos:" <= c.network) then Some(BadNetwork)
    else if ParseAmount(c.maxPerCall).None? || ParseAmount(c.maxPerCall).value == 0 then
      Some(BadMaxPerCall)
    else if ParseAmount(c.budget).None? then Some(BadBudget)
    else if ParseAmount(c.fee).None? then Some(BadFee)
    else if c.gasLimit == 0 then Some(NoGas)
    else None
  }

  /** The fields that a user filled in are in order, and the network is one of them. */
  predicate WrittenWell(c: Settings, parseUrl: string -> Option<Url>) {
    && (c.upstream == "" || (parseUrl(c.upstream).Some? && parseUrl(c.upstream).value.host != ""
                             && parseUrl(c.upstream).value.scheme in {"http", "https"}))
    && "cosmos:" <= c.network
    && (c.maxPerCall == "" || (ParseAmount(c.maxPerCall).Some? && ParseAmount(c.maxPerCall).value > 0))
    && (c.budget == "" || ParseAmount(c.budget).Some?)
    && (c.fee == "" || ParseAmount(c.fee).Some?)
  }

  /** The rules of `d` are those that `c` says, and the documented ones where `c` says nothing. */
  predicate PaysAsWritten(c: Settings, d: Settings) {
    && d.network == c.network && d.mnemonic == c.mnemonic && d.memo == c.memo
    && d.asset == (if c.asset == "" then "utia" else c.asset)
    && Some(MaxPerCallAmount(d)) == (if c.maxPerCall == "" then Some(20000) else ParseAmount(c.maxPerCall))
    && MaxPerCallAmount(d) > 0
    && Some(BudgetAmount(d)) == (if c.budget == "" then Some(0) else ParseAmount(c.budget))
    && FeeAmount(d).Ok?
    && Some(FeeAmount(d).value) == (if c.fee == "" then Some(2000) else ParseAmount(c.fee))
    && d.gasLimit == (if c.gasLimit == 0 then 100000 else c.gasLimit)
    && d.timeoutSeconds == (if c.timeoutSeconds <= 0 then 120 else c.timeoutSeconds)
    && d.listen == (if c.listen == "" then ":26659" else c.listen)
    && d.upstream == (if c.upstream == "" then "http://localhost:26658" else c.upstream)
    && d.mnemonicFile == (if c.mnemonicFile == "" then ".mnemonic" else c.mnemonicFile)
  }

  datatype PayError =
    | WrongNetwork | WrongAsset | UnknownScheme | WrongAddress
    | NotANumber | NotPositive | AboveLimit
    | FeeNotANumber | FeeBelowZero
    | OverBudget | NoAccount | CannotSign | CannotEncode

  /** `Payer.checkOption` */
  function CheckOption(c: Settings, o: PaymentOption): Result<int, PayError> {
    if o.network != c.network then Err(WrongNetwork)
    else if o.asset != c.asset then Err(WrongAsset)
    else if o.scheme != "exact" && o.scheme != "upto" then Err(UnknownScheme)
    else if !(BECH32_PREFIX + "1" <= o.payTo) then Err(WrongAddress)
    else match Decimal.ParseInt(Decimal.TrimSpace(o.amount))
      case None => Err(NotANumber)
      case Some(amount) =>
        if amount <= 0 then Err(NotPositive)
        else if amount > MaxPerCallAmount(c) then Err(AboveLimit)
        else Ok(amount)
  }

  /** `Payer.feeAmount` */
  function FeeAmount(c: Settings): Result<int, PayError> {
    match Decimal.ParseInt(Decimal.TrimSpace(c.fee))
    case None => Err(FeeNotANumber)
    case Some(fee) => if fee < 0 then Err(FeeBelowZero) else Ok(fee)
  }

  lemma PrintedAmount(n: nat)
    ensures ParseAmount(Decimal.Print(n)) == Some(n)
  {
    Decimal.PrintHasNoSpace(n);
  }

  lemma DefaultNumbers()
    ensures ParseAmount("20000") == Some(20000) && ParseAmount("2000") == Some(2000) && ParseAmount("0") == Some(0)
  {
    PrintedAmount(20000);
    PrintedAmount(2000);
    PrintedAmount(0);
    Decimal.PrintDefaults();
  }

  lemma ValidWhenFilled(d: Settings, parseUrl: string -> Option<Url>)
    ensures Validate(d, parseUrl).None?
       <==> && parseUrl(d.upstream).Some? && parseUrl(d.upstream).value.host != ""
            && parseUrl(d.upstream).value.scheme in {"http", "https"}
            && "cosmos:" <= d.network && d.gasLimit > 0
            && ParseAmount(d.maxPerCall).Some? && ParseAmount(d.maxPerCall).value > 0
            && ParseAmount(d.budget).Some? && ParseAmount(d.fee).Some?
  {
  }

  /** What the defaults buy: a file loads exactly when what its user wrote is in order, and a
      file that loads has a fee, a limit and a budget that the payer can read. */
  lemma LoadsExactlyWhen(c: Settings, parseUrl: string -> Option<Url>)
    requires parseUrl(DEFAULT_UPSTREAM) == Some(Url("http", "localhost:26658"))
    ensures Validate(WithDefaults(c), parseUrl).None? <==> WrittenWell(c, parseUrl)
    ensures Validate(WithDefaults(c), parseUrl).None? ==> PaysAsWritten(c, WithDefaults(c))
  {
    DefaultNumbers();
    ValidWhenFilled(WithDefaults(c), parseUrl);
  }

  /** `Payer.checkBudget`; a budget of 0 is no limit. */
  predicate WithinBudget(c: Settings, spent: int, amount: int, fee: int) {
    BudgetAmount(c) == 0 || spent + amount + fee <= BudgetAmount(c)
  }

  /** The option passes exactly when its fields are the configured ones and its amount reads
      as a number from 1 up to `maxPerCall`. */
  lemma CheckedAmount(c: Settings, o: PaymentOption, price: int)
    requires Decimal.ParseInt(Decimal.TrimSpace(o.amount)) == Some(price)
    ensures CheckOption(c, o) == Ok(price)
       <==> && o.network == c.network && o.asset == c.asset && o.scheme in {"exact", "upto"}
            && "celestia1" <= o.payTo && 0 < price <= MaxPerCallAmount(c)
  {
  }

  /** A valid file never stops a payment by itself: its fee is readable, and
      every price from 1 up to `maxPerCall` passes, in the digits that `big.Int` prints. */
  lemma ValidFilePays(c: Settings, parseUrl: string -> Option<Url>, o: PaymentOption, price: int)
    requires Validate(c, parseUrl) == None
    requires o.network == c.network && o.asset == c.asset && o.scheme == "exact"
    requires "celestia1" <= o.payTo && o.amount == Decimal.Print(price)
    ensures FeeAmount(c).Ok? && MaxPerCallAmount(c) > 0
    ensures CheckOption(c, o) == Ok(price) <==> 0 < price <= MaxPerCallAmount(c)
  {
    Decimal.PrintHasNoSpace(price);
    CheckedAmount(c, o, price);
  }

  /** Why a file is refused, in the order of the checks. */
  lemma FileRefusedExactlyWhen(c: Settings, parseUrl: string -> Option<Url>)
    ensures var u := parseUrl(c.upstream); var e := Validate(c, parseUrl);
      var web := u.Some? && u.value.scheme in {"http", "https"} && u.value.host != "";
      var named := web && "cosmos:" <= c.network;
      var limited := named && ParseAmount(c.maxPerCall).Some? && ParseAmount(c.maxPerCall).value > 0;
      && (e == Some(NotAUrl) <==> u.None?)
      && (e == Some(BadScheme) <==> u.Some? && u.value.scheme !in {"http", "https"})
      && (e == Some(NoHost) <==> u.Some? && u.value.scheme in {"http", "https"} && u.value.host == "")
      && (e == Some(NoNetwork) <==> web && c.network == "")
      && (e == Some(BadNetwork) <==> web && c.network != "" && !named)
      && (e == Some(BadMaxPerCall) <==> named && !limited)
      && (e == Some(BadBudget) <==> limited && ParseAmount(c.budget).None?)
      && (e == Some(BadFee) <==> limited && ParseAmount(c.budget).Some? && ParseAmount(c.fee).None?)
  {
  }

  /** Every amount of the file, and the price of an option, may have white space around it. */
  lemma WhiteSpaceIsIgnored(c: Settings, o: PaymentOption, l: string, n: nat, r: string)
    requires Decimal.Blank(l) && Decimal.Blank(r)
    ensures ParseAmount(l + Decimal.Print(n) + r) == Some(n)
    ensures c.fee == l + Decimal.Print(n) + r ==> FeeAmount(c) == Ok(n)
    ensures c.maxPerCall == l + Decimal.Print(n) + r ==> MaxPerCallAmount(c) == n
    ensures c.budget == l + Decimal.Print(n) + r ==> BudgetAmount(c) == n
    ensures o.amount == l + Decimal.Print(n) + r && CheckOption(c, o).Ok? ==> CheckOption(c, o).value == n
  {
    Decimal.PrintHasNoSpace(n);
    Decimal.PrintIsAWord(n);
    Decimal.TrimIsExact(l, Decimal.Print(n), r);
  }

  /** Why an option is refused, in the order of the checks. */
  lemma RefusedExactlyWhen(c: Settings, o: PaymentOption)
    ensures var price := Decimal.ParseInt(Decimal.TrimSpace(o.amount));
      var known := o.network == c.network && o.asset == c.asset && o.scheme in {"exact", "upto"} && "celestia1" <= o.payTo;
      var r := CheckOption(c, o);
      && (r == Err(WrongNetwork) <==> o.network != c.network)
      && (r == Err(WrongAsset) <==> o.network == c.network && o.asset != c.asset)
      && (r == Err(UnknownScheme)
          <==> o.network == c.network && o.asset == c.asset && o.scheme !in {"exact", "upto"})
      && (r in {Err(WrongNetwork), Err(WrongAsset), Err(UnknownScheme), Err(WrongAddress)} <==> !known)
      && (r == Err(NotANumber) <==> known && price.None?)
      && (r == Err(NotPositive) <==> known && price.Some? && price.value <= 0)
      && (r == Err(AboveLimit) <==> known && price.Some? && price.value > MaxPerCallAmount(c) >= 0 && price.value > 0)
  {
  }
}
