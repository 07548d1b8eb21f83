/** Exchange catalogues: parsing the market listing of Upbit and Binance into currencies and
    items, first-occurrence de-duplication of currencies by symbol and the optional
    base/quote filters (exchange_proxy/proxy.py, exchange.py and the older
    exchange_proxy.py, which share these loops). */
module Catalogue {
  import opened Basics
  import opened Text

  /** The two exchanges the service knows. */
  datatype Venue = Upbit | Binance

  /** One entry of a fetched market listing: an Upbit `/v1/market/all` entry or an entry
      of Binance's `exchangeInfo` `symbols` list. */
  datatype Listing =
    | UpbitMarket(market: string, englishName: string, koreanName: string)
    | BinanceSymbol(baseAsset: string, quoteAsset: string)

  /** A currency as the catalogue reports it: symbol, English and Korean names. */
  datatype Currency = Currency(symbol: string, englishName: string, koreanName: string)

  /** A tradable pair as the catalogue reports it. */
  datatype ItemInfo = ItemInfo(baseSymbol: string, quoteSymbol: string)

  /** The Python exceptions that end a catalogue call: indexing a split market string that
      has no second piece, unpacking a split that is not a pair, and the undefined name of
      the older `get_item`. */
  datatype CatalogueError = IndexError | ValueError | NameError

  /** The Upbit market string for a pair: quote, '-', base (the `market=` parameter). */
  function MarketString(baseSymbol: string, quoteSymbol: string): string
  {
    quoteSymbol + "-" + baseSymbol
  }

  /** `__currency_info_parser__`: Upbit takes the second piece of the market string and the
      two names, Binance the base asset and two empty names. */
  function ParseCurrency(l: Listing): (r: Result<Currency, CatalogueError>)
    ensures l.BinanceSymbol? ==> r == Ok(Currency(l.baseAsset, "", ""))
    ensures l.UpbitMarket? ==> (r.Ok? <==> '-' in l.market)
    ensures l.UpbitMarket? && r.Ok? ==>
      r.value.englishName == l.englishName && r.value.koreanName == l.koreanName
    ensures l.UpbitMarket? && r.Ok? ==> r.value.symbol == Split(l.market, '-')[1]
  {
    match l
    case UpbitMarket(m, en, ko) =>
      var parts := Split(m, '-');
      if |parts| < 2 then Err(IndexError) else Ok(Currency(parts[1], en, ko))
    case BinanceSymbol(b, _) => Ok(Currency(b, "", ""))
  }

  /** `__item_info_parser__`: the Upbit market string reversed into (base, quote), which
      unpacks only when it has exactly two pieces; Binance's base and quote assets. */
  function ParseItem(l: Listing): (r: Result<ItemInfo, CatalogueError>)
    ensures l.BinanceSymbol? ==> r == Ok(ItemInfo(l.baseAsset, l.quoteAsset))
    ensures l.UpbitMarket? ==> (r.Ok? <==> |Split(l.market, '-')| == 2)
    ensures l.UpbitMarket? && r.Err? ==> r.error == ValueError
    ensures l.UpbitMarket? && r.Ok? ==>
      r.value == ItemInfo(Split(l.market, '-')[1], Split(l.market, '-')[0])
  {
    match l
    case UpbitMarket(m, _, _) =>
      var parts := Split(m, '-');
      if |parts| != 2 then Err(ValueError) else Ok(ItemInfo(parts[1], parts[0]))
    case BinanceSymbol(b, q) => Ok(ItemInfo(b, q))
  }

  /** Writing a pair as a market string and parsing it back gives the pair, and the currency
      parser reads the same base, whenever neither symbol contains '-'. */
  lemma MarketStringRoundTrip(baseSymbol: string, quoteSymbol: string, englishName: string, koreanName: string)
    requires '-' !in baseSymbol && '-' !in quoteSymbol
    ensures var l := UpbitMarket(MarketString(baseSymbol, quoteSymbol), englishName, koreanName);
      ParseItem(l) == Ok(ItemInfo(baseSymbol, quoteSymbol)) &&
      ParseCurrency(l) == Ok(Currency(baseSymbol, englishName, koreanName))
  {
    SplitPair(quoteSymbol, baseSymbol, '-');
  }

  /** Conversely, an Upbit market string that parses as an item is exactly the market string
      of the parsed pair, and its currency is the item's base. */
  lemma ParsedMarketString(l: Listing)
    requires l.UpbitMarket? && ParseItem(l).Ok?
    ensures l.market == MarketString(ParseItem(l).value.baseSymbol, ParseItem(l).value.quoteSymbol)
    ensures ParseCurrency(l).Ok? && ParseCurrency(l).value.symbol == ParseItem(l).value.baseSymbol
  {
    var parts := Split(l.market, '-');
    JoinSplit(l.market, '-');
    assert parts == [parts[0], parts[1]];
    assert Join(parts, "-") == parts[0] + "-" + parts[1];
  }

  /** Parsing every listing in order; the first entry that fails ends the whole call with its
      error, as the exception does in the source's loops. */
  function ParseAll<A>(ls: seq<Listing>, parse: Listing -> Result<A, CatalogueError>): (r: Result<seq<A>, CatalogueError>)
    ensures r.Ok? <==> forall i :: 0 <= i < |ls| ==> parse(ls[i]).Ok?
    ensures r.Ok? ==> |r.value| == |ls| && forall i :: 0 <= i < |ls| ==> parse(ls[i]) == Ok(r.value[i])
    ensures r.Err? ==>
      exists i :: 0 <= i < |ls| && parse(ls[i]) == Err(r.error) && (forall j :: 0 <= j < i ==> parse(ls[j]).Ok?)
  {
    if ls == [] then Ok([])
    else
      var init := ls[..|ls| - 1];
      assert forall i :: 0 <= i < |init| ==> init[i] == ls[i];
      match ParseAll(init, parse)
      case Err(e) => Err(e)
      case Ok(xs) =>
        match parse(ls[|ls| - 1])
        case Err(e) => Err(e)
        case Ok(x) => Ok(xs + [x])
  }

  /** One more entry: a parsed prefix either grows by the entry or fails with its error. */
  lemma ParseAllSnoc<A>(ls: seq<Listing>, i: nat, parse: Listing -> Result<A, CatalogueError>)
    requires i < |ls| && ParseAll(ls[..i], parse).Ok?
    ensures parse(ls[i]).Err? ==> ParseAll(ls[..i + 1], parse) == Err(parse(ls[i]).error)
    ensures parse(ls[i]).Ok? ==> ParseAll(ls[..i + 1], parse) == Ok(ParseAll(ls[..i], parse).value + [parse(ls[i]).value])
  {
    assert ls[..i + 1][..i] == ls[..i];
  }

  /** One more entry: a failure decides the whole parse, and a success joins the prefix. */
  lemma ParseStep<A>(ls: seq<Listing>, i: nat, parse: Listing -> Result<A, CatalogueError>, done: seq<A>)
    requires i < |ls| && ParseAll(ls[..i], parse) == Ok(done)
    ensures parse(ls[i]).Err? ==> ParseAll(ls, parse) == Err(parse(ls[i]).error)
    ensures parse(ls[i]).Ok? ==> ParseAll(ls[..i + 1], parse) == Ok(done + [parse(ls[i]).value])
  {
    ParseAllSnoc(ls, i, parse);
    if parse(ls[i]).Err? {
      ParseAllErrExtends(ls, i + 1, parse);
    }
  }

  /** Once a prefix of the listing fails, the whole listing fails with the same error. */
  lemma {:induction false} ParseAllErrExtends<A>(ls: seq<Listing>, n: nat, parse: Listing -> Result<A, CatalogueError>)
    requires n <= |ls| && ParseAll(ls[..n], parse).Err?
    ensures ParseAll(ls, parse) == ParseAll(ls[..n], parse)
    decreases |ls| - n
  {
    if n < |ls| {
      assert ls[..n + 1][..n] == ls[..n];
      ParseAllErrExtends(ls, n + 1, parse);
    } else {
      assert ls[..n] == ls;
    }
  }

  /** Whether a currency with this symbol is already in the list (the `any(...)` test). */
  predicate HasSymbol(cs: seq<Currency>, symbol: string)
  {
    exists i :: 0 <= i < |cs| && cs[i].symbol == symbol
  }

  /** The position of the first currency carrying a symbol. */
  function FirstIndex(cs: seq<Currency>, symbol: string): (k: nat)
    requires HasSymbol(cs, symbol)
    ensures k < |cs| && cs[k].symbol == symbol
    ensures forall j :: 0 <= j < k ==> cs[j].symbol != symbol
  {
    if cs[0].symbol == symbol then 0
    else
      var i :| 0 <= i < |cs| && cs[i].symbol == symbol;
      assert cs[1..][i - 1] == cs[i];
      1 + FirstIndex(cs[1..], symbol)
  }

  /** The first currency of each symbol, in order of first occurrence. */
  function DedupBySymbol(cs: seq<Currency>): seq<Currency>
  {
    if cs == [] then []
    else
      var d := DedupBySymbol(cs[..|cs| - 1]);
      var c := cs[|cs| - 1];
      if HasSymbol(d, c.symbol) then d else d + [c]
  }

  /** The first occurrence of a symbol in a list does not move when the list grows. */
  lemma FirstIndexAppend(cs: seq<Currency>, c: Currency, symbol: string)
    requires HasSymbol(cs, symbol)
    ensures HasSymbol(cs + [c], symbol) && FirstIndex(cs + [c], symbol) == FirstIndex(cs, symbol)
  {
    var k := FirstIndex(cs, symbol);
    assert (cs + [c])[k] == cs[k];
    assert forall j :: 0 <= j < |cs| ==> (cs + [c])[j] == cs[j];
  }

  /** No symbol is carried twice. */
  predicate DistinctSymbols(d: seq<Currency>)
  {
    forall i, j :: 0 <= i < j < |d| ==> d[i].symbol != d[j].symbol
  }

  /** Each entry of `d` is the first currency of `cs` with its symbol. */
  predicate FirstOccurrences(d: seq<Currency>, cs: seq<Currency>)
  {
    forall k :: 0 <= k < |d| ==> HasSymbol(cs, d[k].symbol) && d[k] == cs[FirstIndex(cs, d[k].symbol)]
  }

  /** The entries of `d` are ordered by where their symbols first occur in `cs`. */
  predicate InFirstOccurrenceOrder(d: seq<Currency>, cs: seq<Currency>)
  {
    forall k1, k2 :: 0 <= k1 < k2 < |d| ==>
      HasSymbol(cs, d[k1].symbol) && HasSymbol(cs, d[k2].symbol) &&
      FirstIndex(cs, d[k1].symbol) < FirstIndex(cs, d[k2].symbol)
  }

  /** The de-duplicated list carries no symbol twice. */
  lemma {:induction false} DedupDistinct(cs: seq<Currency>)
    ensures DistinctSymbols(DedupBySymbol(cs))
  {
    if cs != [] {
      var init, c := cs[..|cs| - 1], cs[|cs| - 1];
      DedupDistinct(init);
      var d0 := DedupBySymbol(init);
      if !HasSymbol(d0, c.symbol) {
        var d := d0 + [c];
        forall i, j | 0 <= i < j < |d| ensures d[i].symbol != d[j].symbol {
          assert d[i] == d0[i];
          if j == |d0| {
            assert d[j] == c;
          } else {
            assert d[j] == d0[j];
          }
        }
      }
    }
  }

  /** No symbol is lost: every parsed symbol is in the de-duplicated list, and every entry
      of it is a parsed currency. */
  lemma {:induction false} DedupCovers(cs: seq<Currency>)
    ensures forall i :: 0 <= i < |cs| ==> HasSymbol(DedupBySymbol(cs), cs[i].symbol)
    ensures forall k :: 0 <= k < |DedupBySymbol(cs)| ==> DedupBySymbol(cs)[k] in cs
  {
    if cs != [] {
      var init, c := cs[..|cs| - 1], cs[|cs| - 1];
      DedupCovers(init);
      var d0 := DedupBySymbol(init);
      var d := DedupBySymbol(cs);
      assert cs == init + [c];
      forall i | 0 <= i < |cs| ensures HasSymbol(d, cs[i].symbol) {
        if i < |init| {
          assert cs[i] == init[i] && HasSymbol(d0, init[i].symbol);
          var w :| 0 <= w < |d0| && d0[w].symbol == init[i].symbol;
          assert d[w] == d0[w];
        } else if !HasSymbol(d0, c.symbol) {
          assert d[|d0|] == c;
        }
      }
    }
  }

  /** A symbol the de-duplicated list lacks occurs nowhere in the input. */
  lemma DedupLacks(cs: seq<Currency>, symbol: string)
    requires !HasSymbol(DedupBySymbol(cs), symbol)
    ensures !HasSymbol(cs, symbol)
  {
    DedupCovers(cs);
  }

  /** Each entry of the de-duplicated list is the first parsed currency with its symbol. */
  lemma {:induction false} DedupFirstOccurrence(cs: seq<Currency>)
    ensures FirstOccurrences(DedupBySymbol(cs), cs)
  {
    if cs != [] {
      var init, c := cs[..|cs| - 1], cs[|cs| - 1];
      DedupFirstOccurrence(init);
      var d0 := DedupBySymbol(init);
      var d := DedupBySymbol(cs);
      assert cs == init + [c];
      forall k | 0 <= k < |d| ensures HasSymbol(cs, d[k].symbol) && d[k] == cs[FirstIndex(cs, d[k].symbol)] {
        if k < |d0| {
          assert d[k] == d0[k];
          assert HasSymbol(init, d0[k].symbol);
          FirstIndexAppend(init, c, d0[k].symbol);
          assert cs[FirstIndex(init, d0[k].symbol)] == init[FirstIndex(init, d0[k].symbol)];
        } else {
          DedupLacks(init, c.symbol);
          assert d[k] == c && cs[|cs| - 1].symbol == c.symbol;
          assert forall j :: 0 <= j < |init| ==> cs[j].symbol != c.symbol;
        }
      }
    }
  }

  /** The de-duplicated list keeps the order of first occurrences. */
  lemma {:induction false} DedupOrder(cs: seq<Currency>)
    ensures InFirstOccurrenceOrder(DedupBySymbol(cs), cs)
  {
    if cs != [] {
      var init, c := cs[..|cs| - 1], cs[|cs| - 1];
      DedupOrder(init);
      DedupFirstOccurrence(init);
      var d0 := DedupBySymbol(init);
      var d := DedupBySymbol(cs);
      assert cs == init + [c];
      forall k | 0 <= k < |d0|
        ensures HasSymbol(cs, d0[k].symbol) && FirstIndex(cs, d0[k].symbol) == FirstIndex(init, d0[k].symbol)
      {
        FirstIndexAppend(init, c, d0[k].symbol);
      }
      if !HasSymbol(d0, c.symbol) {
        DedupLacks(init, c.symbol);
        assert cs[|cs| - 1].symbol == c.symbol;
        assert forall j :: 0 <= j < |init| ==> cs[j].symbol != c.symbol;
        assert HasSymbol(cs, c.symbol) && FirstIndex(cs, c.symbol) == |cs| - 1;
        forall k1, k2 | 0 <= k1 < k2 < |d|
          ensures HasSymbol(cs, d[k1].symbol) && HasSymbol(cs, d[k2].symbol) &&
            FirstIndex(cs, d[k1].symbol) < FirstIndex(cs, d[k2].symbol)
        {
          assert d[k1] == d0[k1];
          if k2 < |d0| {
            assert d[k2] == d0[k2];
          } else {
            assert d[k2] == c;
          }
        }
      }
    }
  }

  /** Every field filter of the older `get_currency`: `None` accepts anything. */
  predicate CurrencyMatches(c: Currency, symbol: Option<string>, englishName: Option<string>, koreanName: Option<string>)
  {
    (symbol.None? || c.symbol == symbol.value) &&
    (englishName.None? || c.englishName == englishName.value) &&
    (koreanName.None? || c.koreanName == koreanName.value)
  }

  /** The base and quote filters of `get_items`: `None` accepts anything. */
  predicate ItemMatches(it: ItemInfo, baseSymbol: Option<string>, quoteSymbol: Option<string>)
  {
    (baseSymbol.None? || it.baseSymbol == baseSymbol.value) &&
    (quoteSymbol.None? || it.quoteSymbol == quoteSymbol.value)
  }

  /** The items that pass both filters, in listing order. */
  function SelectItems(items: seq<ItemInfo>, baseSymbol: Option<string>, quoteSymbol: Option<string>): seq<ItemInfo>
  {
    Filter(items, it => ItemMatches(it, baseSymbol, quoteSymbol))
  }

  /** An item is selected exactly when it passes both filters; selection keeps listing order;
      without filters every item is returned. */
  lemma SelectItemsSpec(items: seq<ItemInfo>, baseSymbol: Option<string>, quoteSymbol: Option<string>)
    ensures var r := SelectItems(items, baseSymbol, quoteSymbol);
      (forall it :: it in r <==> it in items && ItemMatches(it, baseSymbol, quoteSymbol)) &&
      IsSubsequence(r, items) &&
      (baseSymbol.None? && quoteSymbol.None? ==> r == items)
  {
    var p := (it: ItemInfo) => ItemMatches(it, baseSymbol, quoteSymbol);
    FilterIsSubsequence(items, p);
    if baseSymbol.None? && quoteSymbol.None? {
      FilterKeepsAll(items, p);
    }
  }

  /** What the newer `get_currencies` returns for a listing. */
  function CurrenciesOf(listings: seq<Listing>): Result<seq<Currency>, CatalogueError>
  {
    match ParseAll(listings, ParseCurrency)
    case Err(e) => Err(e)
    case Ok(cs) => Ok(DedupBySymbol(cs))
  }

  /** `get_currencies` (exchange_proxy/proxy.py and exchange.py): parse each entry and append
      it unless its symbol is already listed. */
  method GetCurrencies(listings: seq<Listing>) returns (r: Result<seq<Currency>, CatalogueError>)
    ensures r == CurrenciesOf(listings)
  {
    var currencyList: seq<Currency> := [];
    ghost var parsed: seq<Currency> := [];
    for i := 0 to |listings|
      invariant ParseAll(listings[..i], ParseCurrency) == Ok(parsed)
      invariant currencyList == DedupBySymbol(parsed)
    {
      ParseStep(listings, i, ParseCurrency, parsed);
      var parsedCurrency := ParseCurrency(listings[i]);
      if parsedCurrency.Err? {
        return Err(parsedCurrency.error);
      }
      var c := parsedCurrency.value;
      assert (parsed + [c])[..|parsed|] == parsed;
      parsed := parsed + [c];
      if HasSymbol(currencyList, c.symbol) {
        continue;
      }
      currencyList := currencyList + [c];
    }
    assert listings[..|listings|] == listings;
    return Ok(currencyList);
  }

  /** What the newer `get_items` returns for a listing and two filters. */
  function ItemsOf(listings: seq<Listing>, baseSymbol: Option<string>, quoteSymbol: Option<string>): Result<seq<ItemInfo>, CatalogueError>
  {
    match ParseAll(listings, ParseItem)
    case Err(e) => Err(e)
    case Ok(items) => Ok(SelectItems(items, baseSymbol, quoteSymbol))
  }

  /** `get_items` (exchange_proxy/proxy.py and exchange.py): parse every entry, then keep
      the items that pass the filters. */
  method GetItems(listings: seq<Listing>, baseSymbol: Option<string>, quoteSymbol: Option<string>)
    returns (r: Result<seq<ItemInfo>, CatalogueError>)
    ensures r == ItemsOf(listings, baseSymbol, quoteSymbol)
  {
    var itemList: seq<ItemInfo> := [];
    for i := 0 to |listings|
      invariant ParseAll(listings[..i], ParseItem) == Ok(itemList)
    {
      ParseStep(listings, i, ParseItem, itemList);
      var parsedItem := ParseItem(listings[i]);
      if parsedItem.Err? {
        return Err(parsedItem.error);
      }
      itemList := itemList + [parsedItem.value];
    }
    assert listings[..|listings|] == listings;
    return Ok(SelectItems(itemList, baseSymbol, quoteSymbol));
  }

  /** What the older `get_currency` returns: the first currency of each symbol among the
      parsed currencies that pass every filter. */
  function LegacyCurrenciesOf(listings: seq<Listing>, symbol: Option<string>, englishName: Option<string>, koreanName: Option<string>)
    : Result<seq<Currency>, CatalogueError>
  {
    match ParseAll(listings, ParseCurrency)
    case Err(e) => Err(e)
    case Ok(cs) => Ok(DedupBySymbol(Filter(cs, CurrencyFilter(symbol, englishName, koreanName))))
  }

  /** The older `get_currency` filters as a predicate value. */
  function CurrencyFilter(symbol: Option<string>, englishName: Option<string>, koreanName: Option<string>): Currency -> bool
  {
    c => CurrencyMatches(c, symbol, englishName, koreanName)
  }

  /** One more parsed currency: it is appended when it passes the filters and its symbol is
      new, and otherwise the result is unchanged. */
  lemma FilteredDedupSnoc(parsed: seq<Currency>, c: Currency, p: Currency -> bool)
    ensures var d := DedupBySymbol(Filter(parsed, p));
      DedupBySymbol(Filter(parsed + [c], p)) == if p(c) && !HasSymbol(d, c.symbol) then d + [c] else d
  {
    FilterAppend(parsed, [c], p);
    var kept := Filter(parsed, p);
    if p(c) {
      assert Filter([c], p) == [c];
      assert (kept + [c])[..|kept|] == kept;
    } else {
      assert Filter([c], p) == [];
      assert kept + [] == kept;
    }
  }

  /** The older `get_currency` (exchange_proxy.py): parse each entry and append it when it
      passes every filter and no listed currency has its symbol yet. */
  method LegacyGetCurrency(listings: seq<Listing>, symbol: Option<string>, englishName: Option<string>, koreanName: Option<string>)
    returns (r: Result<seq<Currency>, CatalogueError>)
    ensures r == LegacyCurrenciesOf(listings, symbol, englishName, koreanName)
  {
    var p := CurrencyFilter(symbol, englishName, koreanName);
    var currencyList: seq<Currency> := [];
    ghost var parsed: seq<Currency> := [];
    for i := 0 to |listings|
      invariant ParseAll(listings[..i], ParseCurrency) == Ok(parsed)
      invariant currencyList == DedupBySymbol(Filter(parsed, p))
    {
      ParseStep(listings, i, ParseCurrency, parsed);
      var parsedCurrency := ParseCurrency(listings[i]);
      if parsedCurrency.Err? {
        return Err(parsedCurrency.error);
      }
      var c := parsedCurrency.value;
      FilteredDedupSnoc(parsed, c, p);
      parsed := parsed + [c];
      if p(c) && !HasSymbol(currencyList, c.symbol) {
        currencyList := currencyList + [c];
      }
    }
    assert listings[..|listings|] == listings;
    return Ok(currencyList);
  }

  /** The older item parser with its cache lookup: an item whose base symbol is cached as a
      currency reaches the undefined name and fails. */
  function LegacyParseItem(cachedSymbols: set<string>, l: Listing): (r: Result<ItemInfo, CatalogueError>)
    ensures r.Ok? <==> ParseItem(l).Ok? && ParseItem(l).value.baseSymbol !in cachedSymbols
    ensures r.Ok? ==> r == ParseItem(l)
  {
    match ParseItem(l)
    case Err(e) => Err(e)
    case Ok(it) => if it.baseSymbol in cachedSymbols then Err(NameError) else Ok(it)
  }

  /** What the older `get_item` returns for a listing, the cached currency symbols and two
      filters. */
  function LegacyItemsOf(listings: seq<Listing>, cachedSymbols: set<string>, baseSymbol: Option<string>, quoteSymbol: Option<string>)
    : Result<seq<ItemInfo>, CatalogueError>
  {
    match ParseAll(listings, LegacyItemParser(cachedSymbols))
    case Err(e) => Err(e)
    case Ok(items) => Ok(SelectItems(items, baseSymbol, quoteSymbol))
  }

  /** The older item parser as a value, for a fixed set of cached symbols. */
  function LegacyItemParser(cachedSymbols: set<string>): Listing -> Result<ItemInfo, CatalogueError>
  {
    l => LegacyParseItem(cachedSymbols, l)
  }

  /** One more entry for the older `get_item`: a parse failure or a cached base symbol decides
      the whole call, and otherwise the item joins the parsed prefix. */
  lemma LegacyItemStep(listings: seq<Listing>, i: nat, cachedSymbols: set<string>, items: seq<ItemInfo>)
    requires i < |listings| && ParseAll(listings[..i], LegacyItemParser(cachedSymbols)) == Ok(items)
    ensures ParseItem(listings[i]).Err? ==>
      ParseAll(listings, LegacyItemParser(cachedSymbols)) == Err(ParseItem(listings[i]).error)
    ensures ParseItem(listings[i]).Ok? && ParseItem(listings[i]).value.baseSymbol in cachedSymbols ==>
      ParseAll(listings, LegacyItemParser(cachedSymbols)) == Err(NameError)
    ensures ParseItem(listings[i]).Ok? && ParseItem(listings[i]).value.baseSymbol !in cachedSymbols ==>
      ParseAll(listings[..i + 1], LegacyItemParser(cachedSymbols)) == Ok(items + [ParseItem(listings[i]).value])
  {
    ParseStep(listings, i, LegacyItemParser(cachedSymbols), items);
  }

  /** The older `get_item` (exchange_proxy.py): as `get_items`, but an entry whose base symbol
      is a cached currency ends the call with `NameError`. */
  method LegacyGetItem(listings: seq<Listing>, cachedSymbols: set<string>, baseSymbol: Option<string>, quoteSymbol: Option<string>)
    returns (r: Result<seq<ItemInfo>, CatalogueError>)
    ensures r == LegacyItemsOf(listings, cachedSymbols, baseSymbol, quoteSymbol)
  {
    var itemList: seq<ItemInfo> := [];
    for i := 0 to |listings|
      invariant ParseAll(listings[..i], LegacyItemParser(cachedSymbols)) == Ok(itemList)
    {
      LegacyItemStep(listings, i, cachedSymbols, itemList);
      var parsedItem := ParseItem(listings[i]);
      if parsedItem.Err? {
        return Err(parsedItem.error);
      }
      if parsedItem.value.baseSymbol in cachedSymbols {
        return Err(NameError);
      }
      itemList := itemList + [parsedItem.value];
    }
    assert listings[..|listings|] == listings;
    return Ok(SelectItems(itemList, baseSymbol, quoteSymbol));
  }

  /** With no cached currency the older `get_item` agrees with the newer `get_items`. */
  lemma LegacyItemsWithoutCache(listings: seq<Listing>, baseSymbol: Option<string>, quoteSymbol: Option<string>)
    ensures LegacyItemsOf(listings, {}, baseSymbol, quoteSymbol) == ItemsOf(listings, baseSymbol, quoteSymbol)
  {
    LegacyParseAllSame(listings, LegacyItemParser({}));
  }

  lemma {:induction false} LegacyParseAllSame(listings: seq<Listing>, legacy: Listing -> Result<ItemInfo, CatalogueError>)
    requires forall l :: legacy(l) == ParseItem(l)
    ensures ParseAll(listings, legacy) == ParseAll(listings, ParseItem)
  {
    if listings != [] {
      LegacyParseAllSame(listings[..|listings| - 1], legacy);
    }
  }

  /** `get_exchange`: id 1 is Upbit, id 2 is Binance, any other id is none. */
  function GetExchange(exchangeId: int): (r: Option<Venue>)
    ensures r.Some? <==> exchangeId == 1 || exchangeId == 2
  {
    if exchangeId == 1 then Some(Upbit)
    else if exchangeId == 2 then Some(Binance)
    else None
  }

  /** The id of each exchange row. */
  function VenueId(v: Venue): int
  {
    match v
    case Upbit => 1
    case Binance => 2
  }

  /** `get_exchange` is the inverse of the id assignment. */
  lemma GetExchangeInverse(exchangeId: int, v: Venue)
    ensures GetExchange(VenueId(v)) == Some(v)
    ensures GetExchange(exchangeId) == Some(v) ==> VenueId(v) == exchangeId
  {
  }
}
