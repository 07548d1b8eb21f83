/** Recent trade ticks (exchange_proxy/tick.py and the `get_recent_tick_list` of both
    proxy generations). Times are integer milliseconds since the epoch. */
module Ticks {
  import opened Basics
  import opened Orderbook

  /** One executed trade. `isAsk` is the newer `is_ask` and the legacy `trade_type`. */
  datatype Tick = Tick(item: Item, tradeTimeMs: int, isAsk: bool, price: real, quantity: real)

  /** An Upbit trade entry: `trade_date_utc` and `trade_time_utc` read as whole seconds,
      `ask_bid`, `trade_price` and `trade_volume`. */
  datatype UpbitRawTick = UpbitRawTick(tradeTimeSec: int, askBid: string, tradePrice: real, tradeVolume: real)

  /** A Binance trade entry: `time` in milliseconds, `isBuyerMaker`, `price` and `qty`. */
  datatype BinanceRawTick = BinanceRawTick(timeMs: int, isBuyerMaker: bool, price: real, qty: real)

  /** The start of the recency window: the clock with its sub-second part dropped
      (`now().replace(microsecond=0)`), minus `interval` seconds. */
  function WindowStart(nowMs: nat, intervalSec: int): int
  {
    (nowMs / 1000) * 1000 - intervalSec * 1000
  }

  /** A trade is recent when it is strictly later than the window start. */
  predicate IsRecent(tradeTimeMs: int, nowMs: nat, intervalSec: int)
  {
    tradeTimeMs > WindowStart(nowMs, intervalSec)
  }

  /** The window is open at its start: a trade exactly at the start is dropped and one a
      millisecond later is kept. */
  lemma WindowBoundary(nowMs: nat, intervalSec: int)
    ensures !IsRecent(WindowStart(nowMs, intervalSec), nowMs, intervalSec)
    ensures IsRecent(WindowStart(nowMs, intervalSec) + 1, nowMs, intervalSec)
  {
  }

  /** The tick built from an Upbit entry: ask exactly when `ask_bid` is "ASK". */
  function UpbitTick(item: Item, raw: UpbitRawTick): (t: Tick)
    ensures t.isAsk <==> raw.askBid == "ASK"
    ensures t.tradeTimeMs == raw.tradeTimeSec * 1000 && t.item == item
    ensures t.price == raw.tradePrice && t.quantity == raw.tradeVolume
  {
    Tick(item, raw.tradeTimeSec * 1000, raw.askBid == "ASK", raw.tradePrice, raw.tradeVolume)
  }

  /** The tick built from a Binance entry: its side is `isBuyerMaker`. */
  function BinanceTick(item: Item, raw: BinanceRawTick): (t: Tick)
    ensures t.isAsk == raw.isBuyerMaker
    ensures t.tradeTimeMs == raw.timeMs && t.item == item
    ensures t.price == raw.price && t.quantity == raw.qty
  {
    Tick(item, raw.timeMs, raw.isBuyerMaker, raw.price, raw.qty)
  }

  /** Upbit `get_recent_tick_list`: the ticks of the recent entries, in payload order. */
  function UpbitRecentTicks(item: Item, raws: seq<UpbitRawTick>, nowMs: nat, intervalSec: int): seq<Tick>
  {
    MapSeq(Filter(raws, UpbitRecent(nowMs, intervalSec)), UpbitTickOf(item))
  }

  /** The recency test on an Upbit entry, whose time is in whole seconds. */
  function UpbitRecent(nowMs: nat, intervalSec: int): UpbitRawTick -> bool
  {
    (raw: UpbitRawTick) => IsRecent(raw.tradeTimeSec * 1000, nowMs, intervalSec)
  }

  /** `UpbitTick` for one item, as a function on entries. */
  function UpbitTickOf(item: Item): UpbitRawTick -> Tick
  {
    raw => UpbitTick(item, raw)
  }

  /** Binance `get_recent_tick_list`: the ticks of the recent entries, in payload order. */
  function BinanceRecentTicks(item: Item, raws: seq<BinanceRawTick>, nowMs: nat, intervalSec: int): seq<Tick>
  {
    MapSeq(Filter(raws, BinanceRecent(nowMs, intervalSec)), BinanceTickOf(item))
  }

  /** The recency test on a Binance entry, whose time is in milliseconds. */
  function BinanceRecent(nowMs: nat, intervalSec: int): BinanceRawTick -> bool
  {
    (raw: BinanceRawTick) => IsRecent(raw.timeMs, nowMs, intervalSec)
  }

  /** `BinanceTick` for one item, as a function on entries. */
  function BinanceTickOf(item: Item): BinanceRawTick -> Tick
  {
    raw => BinanceTick(item, raw)
  }

  /** Every Upbit entry inside the window yields its tick; every tick returned is recent and
      comes from an entry of the payload; nothing is invented or duplicated beyond the payload. */
  lemma UpbitRecentTicksWindow(item: Item, raws: seq<UpbitRawTick>, nowMs: nat, intervalSec: int)
    ensures var r := UpbitRecentTicks(item, raws, nowMs, intervalSec);
      |r| <= |raws| &&
      (forall raw :: raw in raws && IsRecent(raw.tradeTimeSec * 1000, nowMs, intervalSec) ==> UpbitTick(item, raw) in r) &&
      (forall i :: 0 <= i < |r| ==> IsRecent(r[i].tradeTimeMs, nowMs, intervalSec)) &&
      (forall i :: 0 <= i < |r| ==> exists raw :: raw in raws && r[i] == UpbitTick(item, raw))
  {
    var p := UpbitRecent(nowMs, intervalSec);
    var kept := Filter(raws, p);
    var r := UpbitRecentTicks(item, raws, nowMs, intervalSec);
    assert r == MapSeq(kept, UpbitTickOf(item));
    forall raw | raw in raws && p(raw) ensures UpbitTick(item, raw) in r {
      var k :| 0 <= k < |kept| && kept[k] == raw;
      assert r[k] == UpbitTick(item, raw);
    }
    forall i | 0 <= i < |r| ensures exists raw :: raw in raws && r[i] == UpbitTick(item, raw) {
      var raw := kept[i];
      assert r[i] == UpbitTickOf(item)(raw);
      assert raw in raws && r[i] == UpbitTick(item, raw);
    }
    assert forall i :: 0 <= i < |r| ==> IsRecent(r[i].tradeTimeMs, nowMs, intervalSec);
  }

  /** The same for Binance entries. */
  lemma BinanceRecentTicksWindow(item: Item, raws: seq<BinanceRawTick>, nowMs: nat, intervalSec: int)
    ensures var r := BinanceRecentTicks(item, raws, nowMs, intervalSec);
      |r| <= |raws| &&
      (forall raw :: raw in raws && IsRecent(raw.timeMs, nowMs, intervalSec) ==> BinanceTick(item, raw) in r) &&
      (forall i :: 0 <= i < |r| ==> IsRecent(r[i].tradeTimeMs, nowMs, intervalSec)) &&
      (forall i :: 0 <= i < |r| ==> exists raw :: raw in raws && r[i] == BinanceTick(item, raw))
  {
    var p := BinanceRecent(nowMs, intervalSec);
    var kept := Filter(raws, p);
    var r := BinanceRecentTicks(item, raws, nowMs, intervalSec);
    assert r == MapSeq(kept, BinanceTickOf(item));
    forall raw | raw in raws && p(raw) ensures BinanceTick(item, raw) in r {
      var k :| 0 <= k < |kept| && kept[k] == raw;
      assert r[k] == BinanceTick(item, raw);
    }
    forall i | 0 <= i < |r| ensures exists raw :: raw in raws && r[i] == BinanceTick(item, raw) {
      var raw := kept[i];
      assert r[i] == BinanceTickOf(item)(raw);
      assert raw in raws && r[i] == BinanceTick(item, raw);
    }
    assert forall i :: 0 <= i < |r| ==> IsRecent(r[i].tradeTimeMs, nowMs, intervalSec);
  }
}
