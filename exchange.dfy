/**
 * The CoinGecko adapter's normalisation path: the TickerInfo record and its
 * field-name projection, the rule that turns a base-asset code into a
 * canonical `BASE/USD` trading-pair symbol, and the loop that turns the raw
 * market list into a table from canonical symbol to ticker record.
 *
 * Prices and volumes are only copied, never computed on, so the values of a
 * raw item are kept abstract: `Json<V>` is either a string or some other JSON
 * value of type `V` (a number, null, ...).
 */
module Exchange {

  datatype Option<+T> = None | Some(value: T)

  /** The exceptions `normalize_data` can raise on a list of dictionaries. */
  datatype Error =
    | KeyError(key: string)         // `item[key]` on a dictionary without that key
    | AttributeError(name: string)  // `.upper()` on a symbol that is not a string

  datatype Result<+T> = Ok(value: T) | Err(error: Error)

  /** A raw JSON value: a string, or any other value, kept opaque. */
  datatype Json<V> = Str(s: string) | Other(v: V)

  /** One element of the exchange's market list, a JSON object. */
  type Item<V> = map<string, Json<V>>

  /** A trading-pair identifier such as `ETH/USD`. */
  type Symbol = string

  /** The ticker table: canonical symbol to the field-name projection of a TickerInfo. */
  type Table<V> = map<Symbol, map<string, Json<V>>>

  /** The fixed quote suffix: every CoinGecko price is quoted against USD. */
  const QuoteSuffix: string := "/USD"

  /** The four keys `normalize_data` reads, in the order it reads them. */
  const RequiredKeys: seq<string> := ["symbol", "current_price", "total_volume", "market_cap"]

  /** The keys of the projection of a TickerInfo. */
  const TickerKeys: set<string> := {"last", "baseVolume", "quoteVolume"}

  // ---------------------------------------------------------------------------
  // TickerInfo and its projection
  // ---------------------------------------------------------------------------

  /** A market snapshot of one trading pair. */
  datatype TickerInfo<T> = TickerInfo(last: T, baseVolume: T, quoteVolume: T)
  {
    /** The field-name-to-value map that `__dict__` returns. */
    function AsDict(): (d: map<string, T>)
      ensures d.Keys == TickerKeys
      ensures d["last"] == last && d["baseVolume"] == baseVolume && d["quoteVolume"] == quoteVolume
    {
      map["last" := last, "baseVolume" := baseVolume, "quoteVolume" := quoteVolume]
    }
  }

  /** Reads a TickerInfo back from a field-name map, if all three fields are there. */
  function FromDict<T>(d: map<string, T>): (r: Option<TickerInfo<T>>)
    ensures r.Some? <==> TickerKeys <= d.Keys
    ensures r.Some? ==> r.value.last == d["last"] && r.value.baseVolume == d["baseVolume"]
                        && r.value.quoteVolume == d["quoteVolume"]
  {
    if "last" in d && "baseVolume" in d && "quoteVolume" in d then
      Some(TickerInfo(d["last"], d["baseVolume"], d["quoteVolume"]))
    else
      None
  }

  /** The projection loses nothing: the record can be read back from it. */
  lemma DictRoundTrip<T>(t: TickerInfo<T>)
    ensures FromDict(t.AsDict()) == Some(t)
  {
  }

  /** Two different records never have the same projection. */
  lemma AsDictInjective<T>(t: TickerInfo<T>, u: TickerInfo<T>)
    ensures t.AsDict() == u.AsDict() <==> t == u
  {
  }

  // ---------------------------------------------------------------------------
  // ASCII upper case
  // ---------------------------------------------------------------------------

  predicate IsLower(c: char) {
    'a' <= c <= 'z'
  }

  predicate IsUpper(c: char) {
    'A' <= c <= 'Z'
  }

  /** No lower-case ASCII letter anywhere in `s`. */
  predicate NoLower(s: string) {
    forall i :: 0 <= i < |s| ==> !IsLower(s[i])
  }

  /** `a` and `b` are the same character up to the case of an ASCII letter. */
  predicate CaseVariant(a: char, b: char) {
    a == b
    || (IsLower(a) && IsUpper(b) && a as int - 'a' as int == b as int - 'A' as int)
    || (IsUpper(a) && IsLower(b) && a as int - 'A' as int == b as int - 'a' as int)
  }

  /** `a` and `b` spell the same text up to the case of ASCII letters. */
  predicate EqualIgnoringCase(a: string, b: string) {
    |a| == |b| && forall i :: 0 <= i < |a| ==> CaseVariant(a[i], b[i])
  }

  /** `str.upper()` on one character, for ASCII letters. */
  function ToUpperChar(c: char): (u: char)
    ensures !IsLower(u)
    ensures CaseVariant(c, u)
    ensures !IsLower(c) ==> u == c
  {
    if IsLower(c) then (c as int - 'a' as int + 'A' as int) as char else c
  }

  /** Two characters have the same upper case exactly when they differ only in case. */
  lemma ToUpperCharSame(a: char, b: char)
    ensures ToUpperChar(a) == ToUpperChar(b) <==> CaseVariant(a, b)
  {
  }

  /** `str.upper()` on a string, for ASCII letters. */
  function Upper(s: string): (r: string)
    ensures |r| == |s|
    ensures forall i :: 0 <= i < |s| ==> r[i] == ToUpperChar(s[i])
    ensures NoLower(r)
  {
    if s == [] then [] else [ToUpperChar(s[0])] + Upper(s[1..])
  }

  /** Upper-casing twice is upper-casing once. */
  lemma UpperIdempotent(s: string)
    ensures Upper(Upper(s)) == Upper(s)
  {
  }

  /** Two strings have the same upper case exactly when they differ only in letter case. */
  lemma UpperSame(a: string, b: string)
    ensures Upper(a) == Upper(b) <==> EqualIgnoringCase(a, b)
  {
    if |a| == |b| {
      forall i | 0 <= i < |a| ensures ToUpperChar(a[i]) == ToUpperChar(b[i]) <==> CaseVariant(a[i], b[i]) {
        ToUpperCharSame(a[i], b[i]);
      }
      if EqualIgnoringCase(a, b) {
        assert forall i :: 0 <= i < |a| ==> Upper(a)[i] == Upper(b)[i];
      }
    }
  }

  // ---------------------------------------------------------------------------
  // Symbol canonicalisation
  // ---------------------------------------------------------------------------

  /** `_convert_symbol_to_ccxt`: the upper-cased base-asset code followed by `/USD`. */
  function ConvertSymbol(s: string): (r: Symbol)
    ensures |r| == |s| + |QuoteSuffix|
    ensures r[|s|..] == QuoteSuffix
  {
    Upper(s) + QuoteSuffix
  }

  /** The canonical symbol has no lower-case letter, and before the quote it spells the base code up to case. */
  lemma ConvertSymbolCanonical(s: string)
    ensures NoLower(ConvertSymbol(s))
    ensures EqualIgnoringCase(ConvertSymbol(s)[..|s|], s)
  {
  }

  /** Canonicalisation ignores letter case, and only letter case. */
  lemma ConvertSymbolSame(a: string, b: string)
    ensures ConvertSymbol(a) == ConvertSymbol(b) <==> EqualIgnoringCase(a, b)
  {
  }

  /** Upper-casing before converting, as `normalize_data` does, changes nothing. */
  lemma ConvertSymbolUpperFirst(s: string)
    ensures ConvertSymbol(Upper(s)) == ConvertSymbol(s)
  {
    UpperIdempotent(s);
  }

  /** A base code without `/` yields a symbol with exactly one `/`, just before the quote. */
  lemma ConvertSymbolSeparator(s: string)
    requires forall i :: 0 <= i < |s| ==> s[i] != '/'
    ensures forall i :: 0 <= i < |ConvertSymbol(s)| ==> (ConvertSymbol(s)[i] == '/' <==> i == |s|)
  {
  }

  // ---------------------------------------------------------------------------
  // Normalisation of the raw market list
  // ---------------------------------------------------------------------------

  /** An item from which a ticker can be built: all four keys, and a string symbol. */
  predicate WellFormed<V>(item: Item<V>) {
    && "symbol" in item && item["symbol"].Str?
    && "current_price" in item && "total_volume" in item && "market_cap" in item
  }

  /** The canonical symbol a well-formed item is filed under. */
  function CanonicalOf<V>(item: Item<V>): Symbol
    requires WellFormed(item)
  {
    ConvertSymbol(item["symbol"].s)
  }

  /** The projection of the record built from a well-formed item: what the table stores for it. */
  function Projection<V>(item: Item<V>): (d: map<string, Json<V>>)
    requires WellFormed(item)
    ensures d.Keys == TickerKeys
    ensures d["last"] == item["current_price"] && d["baseVolume"] == item["total_volume"]
            && d["quoteVolume"] == item["market_cap"]
  {
    TickerInfo(item["current_price"], item["total_volume"], item["market_cap"]).AsDict()
  }

  /**
   * The exception raised on an item that is not well formed: the loop body
   * reads `symbol`, calls `.upper()` on it, then reads `current_price`,
   * `total_volume` and `market_cap`, and the first of these that fails raises.
   */
  function ItemError<V>(item: Item<V>): (e: Error)
    requires !WellFormed(item)
    ensures e.KeyError? ==> e.key !in item
    ensures e.AttributeError? <==> "symbol" in item && !item["symbol"].Str?
    ensures "symbol" in item && !item["symbol"].Str? ==> e == AttributeError("upper")
  {
    if "symbol" !in item then KeyError("symbol")
    else if !item["symbol"].Str? then AttributeError("upper")
    else if "current_price" !in item then KeyError("current_price")
    else if "total_volume" !in item then KeyError("total_volume")
    else KeyError("market_cap")
  }

  /**
   * A missing key is reported only when every key read before it is present,
   * and a key after `symbol` only when the symbol passed `.upper()`.
   */
  lemma ItemErrorOrder<V>(item: Item<V>)
    requires !WellFormed(item)
    ensures ItemError(item).KeyError? ==>
              exists j :: 0 <= j < |RequiredKeys| && RequiredKeys[j] == ItemError(item).key
                          && (forall i :: 0 <= i < j ==> RequiredKeys[i] in item)
                          && (j > 0 ==> item["symbol"].Str?)
  {
    if "symbol" !in item {
      assert RequiredKeys[0] == "symbol";
    } else if !item["symbol"].Str? {
    } else if "current_price" !in item {
      assert RequiredKeys[1] == "current_price";
    } else if "total_volume" !in item {
      assert RequiredKeys[2] == "total_volume";
    } else {
      assert RequiredKeys[3] == "market_cap";
    }
  }

  /**
   * One pass of the loop: a failed call stays failed, an item that is not
   * well formed fails the call, and otherwise the item's projection is
   * written under its canonical symbol, replacing any earlier entry.
   */
  function Step<V>(acc: Result<Table<V>>, item: Item<V>): Result<Table<V>>
  {
    if acc.Err? then acc
    else if !WellFormed(item) then Err(ItemError(item))
    else Ok(acc.value[CanonicalOf(item) := Projection(item)])
  }

  /**
   * What `normalize_data` returns, as a left fold of `Step` over the list,
   * starting from the empty table.
   */
  function Normalize<V>(data: seq<Item<V>>): (r: Result<Table<V>>)
    ensures r.Ok? ==> |r.value| <= |data|
  {
    if data == [] then Ok(map[])
    else
      Step(Normalize(data[..|data| - 1]), data[|data| - 1])
  }

  /** The call succeeds exactly when every item is well formed. */
  lemma {:induction false} NormalizeOk<V>(data: seq<Item<V>>)
    ensures Normalize(data).Ok? <==> forall i :: 0 <= i < |data| ==> WellFormed(data[i])
  {
    if data != [] {
      var front := data[..|data| - 1];
      assert forall i :: 0 <= i < |front| ==> front[i] == data[i];
      NormalizeOk(front);
    }
  }

  /** A failing call reports the error of the first item that cannot be normalised. */
  lemma {:induction false} NormalizeFirstError<V>(data: seq<Item<V>>)
    requires Normalize(data).Err?
    ensures exists i :: 0 <= i < |data| && !WellFormed(data[i]) && ItemError(data[i]) == Normalize(data).error
                        && forall j :: 0 <= j < i ==> WellFormed(data[j])
  {
    var front, item := data[..|data| - 1], data[|data| - 1];
    if Normalize(front).Err? {
      NormalizeFirstError(front);
      var i :| 0 <= i < |front| && !WellFormed(front[i]) && ItemError(front[i]) == Normalize(front).error
               && forall j :: 0 <= j < i ==> WellFormed(front[j]);
      assert front[i] == data[i];
      assert forall j :: 0 <= j < i ==> front[j] == data[j];
    } else {
      assert forall j :: 0 <= j < |front| ==> front[j] == data[j];
      NormalizeOk(front);
    }
  }

  /** Unfolding the fold once: the last item is applied to the table of the items before it. */
  lemma NormalizeSnoc<V>(data: seq<Item<V>>)
    requires data != []
    ensures Normalize(data) == Step(Normalize(data[..|data| - 1]), data[|data| - 1])
  {
  }

  /** Every item's canonical symbol is a key of the table. */
  lemma {:induction false} NormalizeHasKey<V>(data: seq<Item<V>>, i: nat)
    requires forall j :: 0 <= j < |data| ==> WellFormed(data[j])
    requires i < |data|
    ensures Normalize(data).Ok? && CanonicalOf(data[i]) in Normalize(data).value
  {
    var front := data[..|data| - 1];
    assert forall j :: 0 <= j < |front| ==> front[j] == data[j];
    NormalizeOk(data);
    if i < |front| {
      NormalizeHasKey(front, i);
    }
  }

  /** Every key of the table is the canonical symbol of some item. */
  lemma {:induction false} NormalizeKeyFrom<V>(data: seq<Item<V>>, k: Symbol)
    requires forall j :: 0 <= j < |data| ==> WellFormed(data[j])
    requires Normalize(data).Ok? && k in Normalize(data).value
    ensures exists i :: 0 <= i < |data| && CanonicalOf(data[i]) == k
  {
    var front, last := data[..|data| - 1], data[|data| - 1];
    assert forall j :: 0 <= j < |front| ==> front[j] == data[j];
    if k == CanonicalOf(last) {
      assert CanonicalOf(data[|data| - 1]) == k;
    } else {
      NormalizeKeyFrom(front, k);
      var i :| 0 <= i < |front| && CanonicalOf(front[i]) == k;
      assert CanonicalOf(data[i]) == k;
    }
  }

  /** The table has one key per distinct canonical symbol of the input, and no other. */
  lemma NormalizeKeys<V>(data: seq<Item<V>>)
    requires forall i :: 0 <= i < |data| ==> WellFormed(data[i])
    ensures Normalize(data).Ok?
    ensures forall k :: k in Normalize(data).value <==> exists i :: 0 <= i < |data| && CanonicalOf(data[i]) == k
  {
    NormalizeOk(data);
    forall k ensures k in Normalize(data).value <==> exists i :: 0 <= i < |data| && CanonicalOf(data[i]) == k {
      if k in Normalize(data).value {
        NormalizeKeyFrom(data, k);
      } else {
        forall i | 0 <= i < |data| ensures CanonicalOf(data[i]) != k {
          NormalizeHasKey(data, i);
        }
      }
    }
  }

  /**
   * The entry stored under an item's canonical symbol comes from that item when
   * no later item has the same canonical symbol: later duplicates overwrite
   * earlier ones.
   */
  lemma {:induction false} NormalizeLastWins<V>(data: seq<Item<V>>, i: nat)
    requires forall j :: 0 <= j < |data| ==> WellFormed(data[j])
    requires i < |data|
    requires forall j :: i < j < |data| ==> CanonicalOf(data[j]) != CanonicalOf(data[i])
    ensures Normalize(data).Ok?
    ensures CanonicalOf(data[i]) in Normalize(data).value
    ensures Normalize(data).value[CanonicalOf(data[i])] == Projection(data[i])
  {
    var front := data[..|data| - 1];
    assert forall j :: 0 <= j < |front| ==> front[j] == data[j];
    NormalizeOk(data);
    if i < |front| {
      NormalizeLastWins(front, i);
    }
  }

  /** An empty market list gives an empty table. */
  lemma NormalizeEmpty<V>()
    ensures Normalize<V>([]) == Ok(map[])
  {
  }

  /** The table of the first `n + 1` items is one step on from that of the first `n`. */
  lemma NormalizeAt<V>(data: seq<Item<V>>, n: nat)
    requires n < |data|
    ensures Normalize(data[..n + 1]) == Step(Normalize(data[..n]), data[n])
  {
    var prefix := data[..n + 1];
    assert prefix[..n] == data[..n];
    NormalizeSnoc(prefix);
  }

  /** The prefix ending in an item that cannot be normalised fails with that item's error. */
  lemma NormalizeFailsAt<V>(data: seq<Item<V>>, n: nat)
    requires n < |data|
    requires Normalize(data[..n]).Ok?
    requires !WellFormed(data[n])
    ensures Normalize(data[..n + 1]) == Err(ItemError(data[n]))
  {
    NormalizeAt(data, n);
  }

  /** An item that cannot be normalised, after a prefix that can, makes the whole call fail with its error. */
  lemma {:induction false} NormalizeStops<V>(data: seq<Item<V>>, n: nat)
    requires n < |data|
    requires Normalize(data[..n]).Ok?
    requires !WellFormed(data[n])
    ensures Normalize(data) == Err(ItemError(data[n]))
  {
    if |data| == n + 1 {
      NormalizeFailsAt(data, n);
      assert data[..n + 1] == data;
    } else {
      var front := data[..|data| - 1];
      assert front[..n] == data[..n] && front[n] == data[n];
      NormalizeStops(front, n);
    }
  }

  /** A well-formed item, after a prefix that can be normalised, is filed under its canonical symbol. */
  lemma NormalizeContinues<V>(data: seq<Item<V>>, n: nat)
    requires n < |data|
    requires Normalize(data[..n]).Ok?
    requires WellFormed(data[n])
    ensures Normalize(data[..n + 1]) == Ok(Normalize(data[..n]).value[CanonicalOf(data[n]) := Projection(data[n])])
  {
    NormalizeAt(data, n);
  }

  /** `normalize_data`: fills a fresh table item by item, overwriting duplicates. */
  method NormalizeData<V>(data: seq<Item<V>>) returns (r: Result<Table<V>>)
    ensures r == Normalize(data)
  {
    var normalized: Table<V> := map[];
    for n := 0 to |data|
      invariant Normalize(data[..n]) == Ok(normalized)
    {
      var item := data[n];
      if "symbol" !in item {
        r := Err(KeyError("symbol"));
        NormalizeStops(data, n);
        return;
      }
      if !item["symbol"].Str? {
        r := Err(AttributeError("upper"));
        NormalizeStops(data, n);
        return;
      }
      var symbol := ConvertSymbol(Upper(item["symbol"].s));
      if "current_price" !in item {
        r := Err(KeyError("current_price"));
        NormalizeStops(data, n);
        return;
      }
      var last := item["current_price"];
      if "total_volume" !in item {
        r := Err(KeyError("total_volume"));
        NormalizeStops(data, n);
        return;
      }
      var baseVolume := item["total_volume"];
      if "market_cap" !in item {
        r := Err(KeyError("market_cap"));
        NormalizeStops(data, n);
        return;
      }
      var quoteVolume := item["market_cap"];
      ConvertSymbolUpperFirst(item["symbol"].s);
      NormalizeContinues(data, n);
      normalized := normalized[symbol := TickerInfo(last, baseVolume, quoteVolume).AsDict()];
    }
    assert data[..|data|] == data;
    r := Ok(normalized);
  }

  /** A CoinGecko item for `eth` lands under `ETH/USD` with its three values. */
  lemma EthExample()
    ensures Normalize([map["symbol" := Str("eth"), "current_price" := Other(2500.5),
                           "total_volume" := Other(120000.0), "market_cap" := Other(300000000.0)]])
            == Ok(map["ETH/USD" := map["last" := Other(2500.5), "baseVolume" := Other(120000.0),
                                       "quoteVolume" := Other(300000000.0)]])
  {
    var item: Item<real> := map["symbol" := Str("eth"), "current_price" := Other(2500.5),
                                "total_volume" := Other(120000.0), "market_cap" := Other(300000000.0)];
    assert [item][..0] == [];
    assert ConvertSymbol("eth") == "ETH/USD";
  }

  /** An item without `current_price` makes the whole call fail with that key. */
  lemma MissingPriceExample()
    ensures Normalize([map["symbol" := Str("eth"), "total_volume" := Other(120000.0),
                           "market_cap" := Other(300000000.0)]])
            == Err(KeyError("current_price"))
  {
  }
}
