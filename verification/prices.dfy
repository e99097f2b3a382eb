/** The price list that `init` reads, the limit that it writes, and what a balance pays for. */
module Prices {
  import opened Basics
  import opened Config
  import opened Codec
  import opened Ledgers
  import opened Payers
  import opened Systems
  import opened Invariants
  import Decimal

  /** `sort.Strings` compares names character by character. */
  predicate Before(a: string, b: string) {
    if a == [] then true
    else if b == [] then false
    else if a[0] != b[0] then a[0] < b[0]
    else Before(a[1..], b[1..])
  }

  lemma {:induction false} BeforeIsTotal(a: string, b: string)
    ensures Before(a, b) || Before(b, a)
    ensures Before(a, b) && Before(b, a) ==> a == b
  {
    if a != [] && b != [] && a[0] == b[0] {
      BeforeIsTotal(a[1..], b[1..]);
      assert a == [a[0]] + a[1..] && b == [b[0]] + b[1..];
    }
  }

  lemma {:induction false} BeforeIsTransitive(a: string, b: string, c: string)
    requires Before(a, b) && Before(b, c)
    ensures Before(a, c)
  {
    if a != [] && b != [] && c != [] && a[0] == b[0] == c[0] {
      BeforeIsTransitive(a[1..], b[1..], c[1..]);
    }
  }

  predicate Sorted(names: seq<string>) {
    forall i, j :: 0 <= i < j < |names| ==> Before(names[i], names[j])
  }

  function Insert(name: string, names: seq<string>): (r: seq<string>)
    ensures multiset(r) == multiset(names) + multiset{name}
  {
    if names == [] then [name]
    else if Before(name, names[0]) then [name] + names
    else
      assert names == [names[0]] + names[1..];
      [names[0]] + Insert(name, names[1..])
  }

  lemma {:induction false} InsertKeepsOrder(name: string, names: seq<string>)
    requires Sorted(names)
    ensures Sorted(Insert(name, names))
  {
    if names != [] {
      if Before(name, names[0]) {
        forall j | 0 <= j < |names|
          ensures Before(name, names[j])
        {
          if j > 0 {
            BeforeIsTransitive(name, names[0], names[j]);
          }
        }
      } else {
        BeforeIsTotal(name, names[0]);
        InsertKeepsOrder(name, names[1..]);
        var r := Insert(name, names[1..]);
        forall j | 0 <= j < |r|
          ensures Before(names[0], r[j])
        {
          assert r[j] in multiset(r);
          assert r[j] == name || r[j] in multiset(names[1..]);
        }
      }
    }
  }

  /** `sort.Strings` */
  function Sort(names: seq<string>): (r: seq<string>)
    ensures multiset(r) == multiset(names)
  {
    if names == [] then []
    else
      assert names == [names[0]] + names[1..];
      Insert(names[0], Sort(names[1..]))
  }

  lemma {:induction false} SortSorts(names: seq<string>)
    ensures Sorted(Sort(names))
  {
    if names != [] {
      SortSorts(names[1..]);
      InsertKeepsOrder(names[0], Sort(names[1..]));
    }
  }

  /** The price of a method: its first word, if that is a number above 0. */
  function PriceOf(text: string): Option<int> {
    match Decimal.ParseInt(Decimal.FirstField(text))
    case None => None
    case Some(amount) => if amount <= 0 then None else Some(amount)
  }

  /** `name` has the highest price, and it is the least of the names that have it. */
  ghost predicate IsCostliest(methods: map<string, string>, name: string, best: int) {
    && name in methods && PriceOf(methods[name]) == Some(best)
    && forall other :: other in methods && PriceOf(methods[other]).Some? ==>
         && PriceOf(methods[other]).value <= best
         && (PriceOf(methods[other]).value == best ==> Before(name, other))
  }

  /** The same among the names that the loop has seen; no name while none has a price. */
  ghost predicate BestAmong(methods: map<string, string>, seen: seq<string>, name: string, best: Option<int>)
    requires forall other :: other in seen ==> other in methods
  {
    if best.None? then name == "" && forall other :: other in seen ==> PriceOf(methods[other]).None?
    else
      && name in seen && PriceOf(methods[name]) == best
      && forall other :: other in seen && PriceOf(methods[other]).Some? ==>
           && PriceOf(methods[other]).value <= best.value
           && (PriceOf(methods[other]).value == best.value ==> Before(name, other))
  }

  /** One more name, which stands after those that were seen. */
  lemma BestAmongMore(methods: map<string, string>, seen: seq<string>, name: string, best: Option<int>, more: string)
    requires more in methods && forall other :: other in seen ==> other in methods && Before(other, more)
    requires BestAmong(methods, seen, name, best)
    ensures var amount := PriceOf(methods[more]);
      if amount.Some? && (best.None? || amount.value > best.value)
      then BestAmong(methods, seen + [more], more, amount)
      else BestAmong(methods, seen + [more], name, best)
  {
    BeforeIsTotal(more, more);
  }

  lemma SortEnumerates(methods: map<string, string>, order: seq<string>)
    requires forall name :: name in order <==> name in methods
    ensures Sorted(Sort(order))
    ensures forall name :: name in Sort(order) <==> name in methods
  {
    SortSorts(order);
    forall name
      ensures name in Sort(order) <==> name in methods
    {
      assert name in Sort(order) <==> name in multiset(Sort(order));
      assert name in order <==> name in multiset(order);
    }
  }

  lemma BestAmongAll(methods: map<string, string>, names: seq<string>, name: string, best: Option<int>)
    requires forall other :: other in names <==> other in methods
    requires BestAmong(methods, names, name, best)
    ensures best.None? <==> forall other :: other in methods ==> PriceOf(methods[other]).None?
    ensures best.None? ==> name == ""
    ensures best.Some? ==> IsCostliest(methods, name, best.value)
  {
  }

  /** `costliest`. The order in which Go walks the map does not matter. */
  method Costliest(methods: map<string, string>, order: seq<string>) returns (bestName: string, best: Option<int>)
    requires forall name :: name in order <==> name in methods
    ensures best.None? <==> forall name :: name in methods ==> PriceOf(methods[name]).None?
    ensures best.None? ==> bestName == ""
    ensures best.Some? ==> IsCostliest(methods, bestName, best.value)
  {
    var names := Sort(order);
    SortEnumerates(methods, order);
    bestName, best := BestOf(methods, names);
    BestAmongAll(methods, names, bestName, best);
  }

  /** The loop of `costliest`, over the sorted names. */
  method BestOf(methods: map<string, string>, names: seq<string>) returns (bestName: string, best: Option<int>)
    requires Sorted(names) && forall name :: name in names ==> name in methods
    ensures BestAmong(methods, names, bestName, best)
  {
    bestName, best := "", None;
    for i := 0 to |names|
      invariant BestAmong(methods, names[..i], bestName, best)
    {
      var name := names[i];
      BestAmongMore(methods, names[..i], bestName, best, name);
      assert names[..i] + [name] == names[..i + 1];
      var amount := PriceOf(methods[name]);
      if amount.Some? && (best.None? || amount.value > best.value) {
        best, bestName := amount, name;
      }
    }
    assert names[..|names|] == names;
  }

  /** There is only one answer, whatever the order. */
  lemma CostliestIsUnique(methods: map<string, string>, a: string, x: int, b: string, y: int)
    requires IsCostliest(methods, a, x) && IsCostliest(methods, b, y)
    ensures a == b && x == y
  {
    BeforeIsTotal(a, b);
  }

  /** The limit that `runInit` writes. */
  function MaxPerCallOf(best: Option<int>): string {
    if best.Some? then Decimal.Print(best.value) else "20000"
  }

  /** With that limit in the file, the payer accepts the price of every method on the list, and
      refuses an option only for another reason. */
  lemma EveryListedPricePasses(methods: map<string, string>, name: string, best: int, c: Settings,
                               other: string, o: PaymentOption)
    requires IsCostliest(methods, name, best) && c.maxPerCall == MaxPerCallOf(Some(best))
    requires other in methods && PriceOf(methods[other]).Some?
    requires o.amount == Decimal.FirstField(methods[other])
    requires o.network == c.network && o.asset == c.asset && o.scheme == "exact" && "celestia1" <= o.payTo
    ensures CheckOption(c, o) == Ok(PriceOf(methods[other]).value)
  {
    Decimal.PrintHasNoSpace(best);
    Decimal.FirstFieldIsTrimmed(methods[other]);
    CheckedAmount(c, o, PriceOf(methods[other]).value);
  }

  /** The limit is exact: with that file, an option that is in order otherwise passes exactly from
      1 up to the highest price; and from 1 up to 20000 where no method has a price. */
  lemma LimitIsExact(methods: map<string, string>, best: Option<int>, c: Settings, o: PaymentOption, price: int)
    requires best.Some? ==> exists name :: IsCostliest(methods, name, best.value)
    requires c.maxPerCall == MaxPerCallOf(best)
    requires o.network == c.network && o.asset == c.asset && o.scheme in {"exact", "upto"} && "celestia1" <= o.payTo
    requires Decimal.ParseInt(Decimal.TrimSpace(o.amount)) == Some(price)
    ensures CheckOption(c, o) == Ok(price) <==> 0 < price <= (if best.Some? then best.value else 20000)
  {
    if best.Some? {
      Decimal.PrintHasNoSpace(best.value);
    } else {
      DefaultNumbers();
    }
    CheckedAmount(c, o, price);
  }

  /** The price of a text is its first word, if that is a number above 0. */
  lemma PriceIsTheFirstWord(l: string, n: int, rest: string)
    requires Decimal.Blank(l) && (rest == "" || Decimal.IsSpace(rest[0]))
    ensures PriceOf(l + Decimal.Print(n) + rest) == if n > 0 then Some(n) else None
  {
    Decimal.PrintIsAWord(n);
    Decimal.FirstFieldIsExact(l, Decimal.Print(n), rest);
    Decimal.ParsePrint(n);
  }

  /** The texts agree before `i`, and differ there, `a` with the smaller character. */
  predicate FirstDiffers(a: string, b: string, i: int) {
    0 <= i < |a| && i < |b| && a[..i] == b[..i] && a[i] < b[i]
  }

  lemma DiffersLater(c: char, a: string, b: string, i: nat)
    ensures FirstDiffers([c] + a, [c] + b, i + 1) == FirstDiffers(a, b, i)
    ensures !FirstDiffers([c] + a, [c] + b, 0)
  {
    if i < |a| && i < |b| {
      assert ([c] + a)[..i + 1] == [c] + a[..i] && ([c] + b)[..i + 1] == [c] + b[..i];
      assert a[..i] == ([c] + a[..i])[1..] && b[..i] == ([c] + b[..i])[1..];
    }
  }

  /** `Before` is the order of Go's strings: a beginning stands first, and otherwise the first
      character that differs decides. */
  lemma {:induction false} BeforeIsLexicographic(a: string, b: string)
    ensures Before(a, b) <==> a <= b || exists i :: FirstDiffers(a, b, i)
  {
    if a != [] && b != [] && a[0] == b[0] {
      var u, v := a[1..], b[1..];
      assert a == [a[0]] + u && b == [a[0]] + v;
      BeforeIsLexicographic(u, v);
      forall i | 0 <= i
        ensures FirstDiffers(a, b, i + 1) == FirstDiffers(u, v, i)
        ensures !FirstDiffers(a, b, 0)
      {
        DiffersLater(a[0], u, v, i);
      }
      if i :| FirstDiffers(a, b, i) {
        assert FirstDiffers(u, v, i - 1);
      }
      if i :| FirstDiffers(u, v, i) {
        assert FirstDiffers(a, b, i + 1);
      }
    } else if a != [] && b != [] {
      assert FirstDiffers(a, b, 0) <==> a[0] < b[0];
      forall i | 0 < i < |a| && i < |b|
        ensures a[..i] != b[..i]
      {
        assert a[..i][0] == a[0] && b[..i][0] == b[0];
      }
    }
  }

  const INT64_LIMIT: int := 0x8000_0000_0000_0000

  /** `big.Int.Int64`: the low 64 bits, as a signed number. */
  function ToInt64(n: int): int {
    var low := n % UINT64_LIMIT;
    if low < INT64_LIMIT then low else low - UINT64_LIMIT
  }

  /** `callsFor`; the division of `big.Int.Div` is the Euclidean one. */
  function CallsFor(balance: string, maxPerCall: string, fee: string): int {
    var have, price, cost := Decimal.ParseInt(balance), Decimal.ParseInt(maxPerCall), Decimal.ParseInt(fee);
    if have.None? || price.None? || cost.None? || cost.value + price.value <= 0 then 0
    else ToInt64(have.value / (cost.value + price.value))
  }

  /** The low 64 bits, signed. */
  lemma ToInt64Wraps(n: int)
    ensures -9223372036854775808 <= ToInt64(n) <= 9223372036854775807
    ensures (n - ToInt64(n)) % 18446744073709551616 == 0
  {
  }

  /** Without three numbers, or with a worst price that is not above 0, the answer is 0. */
  lemma CallsForIsZero(balance: string, maxPerCall: string, fee: string)
    requires || Decimal.ParseInt(balance).None? || Decimal.ParseInt(maxPerCall).None? || Decimal.ParseInt(fee).None?
             || Decimal.ParseInt(maxPerCall).value + Decimal.ParseInt(fee).value <= 0
    ensures CallsFor(balance, maxPerCall, fee) == 0
  {
  }

  lemma QuotientIsGreatest(have: int, cost: int, n: int)
    requires cost > 0
    ensures n * cost <= have <==> n <= have / cost
  {
    var q := have / cost;
    assert have == q * cost + have % cost;
    if n <= q {
      assert n * cost <= q * cost;
    } else {
      assert n * cost >= (q + 1) * cost;
      assert (q + 1) * cost == q * cost + cost;
    }
  }

  lemma FitsExactlyBelow(n: int)
    requires 0 <= n
    ensures ToInt64(n) == n <==> n < INT64_LIMIT
  {
  }

  lemma QuotientIsNotNegative(have: nat, cost: int)
    requires cost > 0
    ensures have / cost >= 0
  {
  }

  lemma CallsForNumbers(balance: string, maxPerCall: string, fee: string)
    requires Decimal.ParseInt(balance).Some? && Decimal.ParseInt(maxPerCall).Some? && Decimal.ParseInt(fee).Some?
    requires Decimal.ParseInt(fee).value + Decimal.ParseInt(maxPerCall).value > 0
    ensures CallsFor(balance, maxPerCall, fee)
         == ToInt64(Decimal.ParseInt(balance).value
                    / (Decimal.ParseInt(fee).value + Decimal.ParseInt(maxPerCall).value))
  {
  }

  lemma CallsForPrinted(have: nat, price: nat, fee: nat)
    requires fee + price > 0
    ensures CallsFor(Decimal.Print(have), Decimal.Print(price), Decimal.Print(fee))
         == ToInt64(have / (fee + price))
  {
    Decimal.ParsePrint(have);
    Decimal.ParsePrint(price);
    Decimal.ParsePrint(fee);
    CallsForNumbers(Decimal.Print(have), Decimal.Print(price), Decimal.Print(fee));
  }

  /** The answer is the quotient exactly when the quotient fits; above that it wraps. */
  lemma CallsForIsQuotient(have: nat, price: nat, fee: nat)
    requires fee + price > 0
    ensures CallsFor(Decimal.Print(have), Decimal.Print(price), Decimal.Print(fee)) == have / (fee + price)
       <==> have / (fee + price) < INT64_LIMIT
  {
    CallsForPrinted(have, price, fee);
    QuotientIsNotNegative(have, fee + price);
    FitsExactlyBelow(have / (fee + price));
  }

  /** `callsFor` does not trim its texts, and the payer does. For a file that the payer reads,
      the answer is the one that its numbers give exactly when both texts are trimmed as they
      stand, or that answer is 0 anyway. */
  lemma CallsForReadsExactlyWhen(balance: string, have: int, c: Settings, price: nat, fee: int)
    requires Decimal.ParseInt(balance) == Some(have)
    requires ParseAmount(c.maxPerCall) == Some(price) && FeeAmount(c) == Ok(fee) && fee + price > 0
    ensures var calls := ToInt64(have / (fee + price));
      CallsFor(balance, c.maxPerCall, c.fee) == calls
      <==> || (Decimal.TrimSpace(c.maxPerCall) == c.maxPerCall && Decimal.TrimSpace(c.fee) == c.fee)
           || calls == 0
  {
    if Decimal.ParseInt(c.maxPerCall).Some? {
      Decimal.NumberIsTrimmed(c.maxPerCall);
    }
    if Decimal.ParseInt(c.fee).Some? {
      Decimal.NumberIsTrimmed(c.fee);
    }
    if Decimal.ParseInt(c.maxPerCall).Some? && Decimal.ParseInt(c.fee).Some? {
      CallsForNumbers(balance, c.maxPerCall, c.fee);
    }
  }

  /** For a balance whose quotient fits, the answer is the greatest number of calls that the
      balance covers at the worst price. */
  lemma CallsForIsGreatest(have: nat, price: nat, fee: nat, n: int)
    requires fee + price > 0 && have / (fee + price) < INT64_LIMIT
    ensures n * (fee + price) <= have
       <==> n <= CallsFor(Decimal.Print(have), Decimal.Print(price), Decimal.Print(fee))
  {
    CallsForIsQuotient(have, price, fee);
    QuotientIsGreatest(have, fee + price, n);
  }

  lemma PrintedLimits(c: Settings, price: nat, fee: nat)
    requires c.maxPerCall == Decimal.Print(price) && c.fee == Decimal.Print(fee)
    ensures MaxPerCallAmount(c) == price && FeeAmount(c) == Ok(fee)
  {
    Decimal.PrintHasNoSpace(price);
    Decimal.PrintHasNoSpace(fee);
  }

  lemma StateIsAffordable(s: Setup, x: State, have: nat, price: nat, fee: nat)
    requires RecordsInv(s, x) && BooksInv(x)
    requires s.cfg.maxPerCall == Decimal.Print(price) && s.cfg.fee == Decimal.Print(fee)
    requires fee + price > 0 && have / (fee + price) < INT64_LIMIT
    requires x.ledger.count <= CallsFor(Decimal.Print(have), Decimal.Print(price), Decimal.Print(fee))
    ensures x.ledger.spent <= have
  {
    PrintedLimits(s.cfg, price, fee);
    WorstCase(s, x);
    assert WorstPrice(s.cfg) == fee + price;
    CallsForIsGreatest(have, price, fee, x.ledger.count);
  }

  /** The promise behind the number: in any interleaving of calls, while the payer counts no
      more payments than `callsFor` says, it spent no more than the balance. */
  lemma CallsAreAffordable(s: Setup, calls: nat, es: seq<Event>, have: nat, price: nat, fee: nat)
    requires Possible(s, Init(calls), es)
    requires s.cfg.maxPerCall == Decimal.Print(price) && s.cfg.fee == Decimal.Print(fee)
    requires fee + price > 0 && have / (fee + price) < INT64_LIMIT
    requires Run(s, Init(calls), es).ledger.count
          <= CallsFor(Decimal.Print(have), Decimal.Print(price), Decimal.Print(fee))
    ensures Run(s, Init(calls), es).ledger.spent <= have
  {
    RunKeepsRecords(s, calls, es);
    StateIsAffordable(s, Run(s, Init(calls), es), have, price, fee);
  }
}
