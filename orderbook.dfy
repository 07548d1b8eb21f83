/** Order books and whale detection (exchange_proxy/orderbook.py, and the older
    `Orderbook`/`Orderbook.Unit` of exchange_proxy.py). Prices and quantities are reals;
    times are integer milliseconds. */
module Orderbook {
  import opened Basics

  /** A tradable pair on one exchange. The newer `Item` holds the exchange row; the older
      classes keep its id and the two symbols inline; both become this value. */
  datatype Item = Item(exchangeId: int, baseSymbol: string, quoteSymbol: string)

  /** One price level of a book (`OrderbookUnit`, legacy `Orderbook.Unit`). `isAsk` is the
      newer `is_ask` and the legacy `trade_type`. */
  datatype Unit = Unit(item: Item, checkTime: int, isAsk: bool, price: real, quantity: real)
  {
    /** `total_value`, fixed at construction as price times quantity. */
    function TotalValue(): real { price * quantity }

    /** The side word a whale message shows: ask ("매도") or bid ("매수"). */
    function SideWord(): string { if isAsk then "매도" else "매수" }
  }

  /** One snapshot of both sides of a book. */
  datatype Book = Book(item: Item, checkTime: int, asks: seq<Unit>, bids: seq<Unit>)

  /** A level is a whale for a threshold when its total value reaches the threshold
      (inclusive). */
  predicate IsWhale(u: Unit, threshold: real) { u.TotalValue() >= threshold }

  /** `find_whale`: the whale asks in book order, followed by the whale bids in book order. */
  function FindWhale(book: Book, threshold: real): (r: seq<Unit>)
    ensures forall u :: u in r <==> (u in book.asks || u in book.bids) && IsWhale(u, threshold)
  {
    Filter(book.asks, u => IsWhale(u, threshold)) + Filter(book.bids, u => IsWhale(u, threshold))
  }

  /** Every whale level appears in the result exactly as often as it stands in the book,
      and no other level appears at all; so the result's length is the number of whale
      asks plus the number of whale bids. */
  lemma FindWhaleExact(book: Book, threshold: real, u: Unit)
    ensures multiset(FindWhale(book, threshold))[u]
         == if IsWhale(u, threshold) then multiset(book.asks)[u] + multiset(book.bids)[u] else 0
  {
    var p := (v: Unit) => IsWhale(v, threshold);
    FilterMultiplicity(book.asks, p, u);
    FilterMultiplicity(book.bids, p, u);
    assert multiset(FindWhale(book, threshold))
        == multiset(Filter(book.asks, p)) + multiset(Filter(book.bids, p));
  }

  /** The result keeps book order and puts asks before bids: it is a subsequence of the
      asks followed by the bids. */
  lemma FindWhaleOrder(book: Book, threshold: real)
    ensures IsSubsequence(FindWhale(book, threshold), book.asks + book.bids)
  {
    var p := (v: Unit) => IsWhale(v, threshold);
    FilterIsSubsequence(book.asks, p);
    FilterIsSubsequence(book.bids, p);
    SubsequenceConcat(Filter(book.asks, p), book.asks, Filter(book.bids, p), book.bids);
  }

  /** The threshold is inclusive: a level whose total value equals it is reported. */
  lemma FindWhaleInclusive(book: Book, threshold: real, u: Unit)
    requires u in book.asks || u in book.bids
    requires u.TotalValue() == threshold
    ensures u in FindWhale(book, threshold)
  {
  }

  /** The two sides are judged independently: two books with the same asks report the same
      leading ask whales, and two books with the same bids the same trailing bid whales. */
  lemma FindWhaleSidesIndependent(b1: Book, b2: Book, threshold: real)
    ensures var n := |Filter(b1.asks, u => IsWhale(u, threshold))|;
      b1.asks == b2.asks ==>
        n <= |FindWhale(b1, threshold)| && n <= |FindWhale(b2, threshold)| &&
        FindWhale(b1, threshold)[..n] == FindWhale(b2, threshold)[..n]
    ensures var m := |Filter(b1.bids, u => IsWhale(u, threshold))|;
      var r1, r2 := FindWhale(b1, threshold), FindWhale(b2, threshold);
      b1.bids == b2.bids ==>
        m <= |r1| && m <= |r2| && r1[|r1| - m..] == r2[|r2| - m..]
  {
    var p := (v: Unit) => IsWhale(v, threshold);
    var r1, r2 := FindWhale(b1, threshold), FindWhale(b2, threshold);
    assert r1 == Filter(b1.asks, p) + Filter(b1.bids, p);
    assert r2 == Filter(b2.asks, p) + Filter(b2.bids, p);
  }

  /** A book whose ask list holds ask levels and whose bid list holds bid levels, as the
      newer Upbit proxy builds it. */
  predicate SidesLabelled(book: Book)
  {
    (forall i :: 0 <= i < |book.asks| ==> book.asks[i].isAsk) &&
    (forall i :: 0 <= i < |book.bids| ==> !book.bids[i].isAsk)
  }

  /** On a correctly labelled book every ask whale precedes every bid whale. */
  lemma FindWhaleAsksFirst(book: Book, threshold: real)
    requires SidesLabelled(book)
    ensures var r := FindWhale(book, threshold);
      forall i, j :: 0 <= i < j < |r| && !r[i].isAsk ==> !r[j].isAsk
  {
    var p := (v: Unit) => IsWhale(v, threshold);
    var a, b := Filter(book.asks, p), Filter(book.bids, p);
    var r := FindWhale(book, threshold);
    assert r == a + b;
    forall k | 0 <= k < |a| ensures r[k].isAsk {
      assert r[k] == a[k] && a[k] in book.asks;
    }
    forall k | |a| <= k < |r| ensures !r[k].isAsk {
      assert r[k] == b[k - |a|] && b[k - |a|] in book.bids;
    }
  }

  // ---------------------------------------------------------------------------
  // Building books from exchange payloads

  /** One entry of Upbit's `orderbook_units`: the ask and the bid at one depth. */
  datatype UpbitDepth = UpbitDepth(askPrice: real, askSize: real, bidPrice: real, bidSize: real)

  /** Upbit's order-book payload: its `timestamp` in milliseconds and its depth entries. */
  datatype UpbitRawBook = UpbitRawBook(timestampMs: int, units: seq<UpbitDepth>)

  /** A `[price, quantity]` pair of Binance's `asks`/`bids` lists. */
  datatype Level = Level(price: real, quantity: real)

  /** Binance's depth payload. */
  datatype BinanceRawBook = BinanceRawBook(asks: seq<Level>, bids: seq<Level>)

  /** The newer Upbit `get_orderbook`: one ask unit and one bid unit per depth entry, all
      stamped with the payload's time. */
  function UpbitOrderbook(item: Item, raw: UpbitRawBook): (book: Book)
    ensures |book.asks| == |raw.units| && |book.bids| == |raw.units|
    ensures SidesLabelled(book)
    ensures book.item == item && book.checkTime == raw.timestampMs
    ensures forall i :: 0 <= i < |raw.units| ==>
      book.asks[i].price == raw.units[i].askPrice && book.asks[i].quantity == raw.units[i].askSize &&
      book.bids[i].price == raw.units[i].bidPrice && book.bids[i].quantity == raw.units[i].bidSize
    ensures forall u :: u in book.asks || u in book.bids ==> u.item == item && u.checkTime == raw.timestampMs
  {
    var t := raw.timestampMs;
    Book(item, t,
      seq(|raw.units|, i requires 0 <= i < |raw.units| =>
        Unit(item, t, true, raw.units[i].askPrice, raw.units[i].askSize)),
      seq(|raw.units|, i requires 0 <= i < |raw.units| =>
        Unit(item, t, false, raw.units[i].bidPrice, raw.units[i].bidSize)))
  }

  /** The legacy `Orderbook` constructor: one unit per ask entry and one per bid entry, and
      (as written) every unit of both sides gets `trade_type=True`, the ask label. */
  function LegacyBook(item: Item, checkTime: int, askLevels: seq<Level>, bidLevels: seq<Level>): (book: Book)
    ensures |book.asks| == |askLevels| && |book.bids| == |bidLevels|
    ensures forall i :: 0 <= i < |askLevels| ==>
      book.asks[i] == Unit(item, checkTime, true, askLevels[i].price, askLevels[i].quantity)
    ensures forall i :: 0 <= i < |bidLevels| ==>
      book.bids[i] == Unit(item, checkTime, true, bidLevels[i].price, bidLevels[i].quantity)
  {
    Book(item, checkTime,
      seq(|askLevels|, i requires 0 <= i < |askLevels| =>
        Unit(item, checkTime, true, askLevels[i].price, askLevels[i].quantity)),
      seq(|bidLevels|, i requires 0 <= i < |bidLevels| =>
        Unit(item, checkTime, true, bidLevels[i].price, bidLevels[i].quantity)))
  }

  /** Legacy Upbit `get_orderbook`: exchange id 1, the payload's time, ask levels from the
      ask price/size of each depth entry and bid levels from its bid price/size. */
  function LegacyUpbitOrderbook(baseSymbol: string, quoteSymbol: string, raw: UpbitRawBook): Book
  {
    LegacyBook(Item(1, baseSymbol, quoteSymbol), raw.timestampMs,
      seq(|raw.units|, i requires 0 <= i < |raw.units| => Level(raw.units[i].askPrice, raw.units[i].askSize)),
      seq(|raw.units|, i requires 0 <= i < |raw.units| => Level(raw.units[i].bidPrice, raw.units[i].bidSize)))
  }

  /** Legacy Binance `get_orderbook`: exchange id 2 and the request time as check time. */
  function LegacyBinanceOrderbook(baseSymbol: string, quoteSymbol: string, requestTimeMs: int, raw: BinanceRawBook): Book
  {
    LegacyBook(Item(2, baseSymbol, quoteSymbol), requestTimeMs, raw.asks, raw.bids)
  }

  /** Because the legacy constructor labels both sides as asks, every whale it reports,
      bids included, carries the ask side word. */
  lemma LegacyWhalesAllAsk(item: Item, checkTime: int, askLevels: seq<Level>, bidLevels: seq<Level>, threshold: real)
    ensures forall u :: u in FindWhale(LegacyBook(item, checkTime, askLevels, bidLevels), threshold) ==>
      u.isAsk && u.SideWord() == "매도"
  {
    var book := LegacyBook(item, checkTime, askLevels, bidLevels);
    forall u | u in FindWhale(book, threshold) ensures u.isAsk {
      if u in book.asks {
        var i :| 0 <= i < |book.asks| && book.asks[i] == u;
      } else {
        var i :| 0 <= i < |book.bids| && book.bids[i] == u;
      }
    }
  }
}
