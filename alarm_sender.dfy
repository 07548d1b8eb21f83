/** The two alarm sweeps of telegram/alarm_sender.py, against the older store (database.py)
    and the older exchange proxies (exchange_proxy.py) that the script imports. A sweep walks
    the enabled alarms of one kind in AlarmID order, asks the alarm's exchange for recent ticks
    or an order book, and sends one message per hit to the alarm's recipient. The market is
    one snapshot and the clock one reading per sweep; sending a message appends it to the
    bot's outbox. */
module AlarmSender {
  import opened Basics
  import opened Orderbook
  import opened Ticks
  import opened Sql
  import opened Store
  import opened LegacyStore

  /** Seconds between tick sweeps; also the tick recency window. */
  const TickAlarmInterval := 5
  /** Seconds between whale sweeps. */
  const WhaleAlarmInterval := 30
  /** How many trades a tick sweep asks the exchange for. */
  const TickRequestCount := 500

  /** What a message reports; its text rendering is not modelled. */
  datatype MessageBody = TickMessage(tick: Tick) | WhaleMessage(unit: Unit)

  datatype Message = Message(chatId: int, body: MessageBody)

  /** The answers the exchanges give during one sweep, per (base, quote) pair: their latest
      trades, newest first, and their order books. */
  datatype Market = Market(
    upbitTrades: (string, string) -> seq<UpbitRawTick>,
    binanceTrades: (string, string) -> seq<BinanceRawTick>,
    upbitBooks: (string, string) -> UpbitRawBook,
    binanceBooks: (string, string) -> BinanceRawBook)

  /** The first `n` entries: what a request with `count=n` or `limit=n` returns. */
  function Take<T>(s: seq<T>, n: nat): (r: seq<T>)
    ensures |r| <= n && |r| <= |s| && r == s[..|r|]
    ensures |s| <= n ==> r == s
  {
    if |s| <= n then s else s[..n]
  }

  /** `get_recent_tick_list(base, quote, 5, 500)` on the proxy chosen by exchange id: Upbit
      for id 1, Binance for every other id. */
  function FetchTicks(market: Market, exchangeId: int, base: string, quote: string, nowMs: nat): seq<Tick>
  {
    if exchangeId == 1 then
      UpbitRecentTicks(Item(1, base, quote), Take(market.upbitTrades(base, quote), TickRequestCount), nowMs, TickAlarmInterval)
    else
      BinanceRecentTicks(Item(2, base, quote), Take(market.binanceTrades(base, quote), TickRequestCount), nowMs, TickAlarmInterval)
  }

  /** `get_orderbook(base, quote)` on the proxy chosen by exchange id; Binance stamps the book
      with the request time. */
  function FetchBook(market: Market, exchangeId: int, base: string, quote: string, nowMs: nat): Book
  {
    if exchangeId == 1 then LegacyUpbitOrderbook(base, quote, market.upbitBooks(base, quote))
    else LegacyBinanceOrderbook(base, quote, nowMs, market.binanceBooks(base, quote))
  }

  /** A tick sweep sees at most 500 ticks per alarm, all inside the five-second window, all
      of the exchange the id selects. */
  lemma FetchTicksBounded(market: Market, exchangeId: int, base: string, quote: string, nowMs: nat)
    ensures var ticks := FetchTicks(market, exchangeId, base, quote, nowMs);
      |ticks| <= TickRequestCount &&
      (forall i :: 0 <= i < |ticks| ==> IsRecent(ticks[i].tradeTimeMs, nowMs, TickAlarmInterval)) &&
      (forall i :: 0 <= i < |ticks| ==> ticks[i].item == Item(if exchangeId == 1 then 1 else 2, base, quote))
  {
    if exchangeId == 1 {
      UpbitRecentTicksWindow(Item(1, base, quote), Take(market.upbitTrades(base, quote), TickRequestCount), nowMs, TickAlarmInterval);
    } else {
      BinanceRecentTicksWindow(Item(2, base, quote), Take(market.binanceTrades(base, quote), TickRequestCount), nowMs, TickAlarmInterval);
    }
  }

  datatype Kind = TickKind | WhaleKind

  function AlarmTypeOf(kind: Kind): string
  {
    match kind
    case TickKind => "TickAlarm"
    case WhaleKind => "WhaleAlarm"
  }

  /** `get_alarm(type=..., is_enabled=True)`. */
  function SweepFilter(kind: Kind): AlarmFilter
  {
    AlarmFilter(Some(AlarmTypeOf(kind)), None, None, None, None, None, Some(true), None)
  }

  /** The alarms a sweep walks, in the order it walks them. */
  function SweptAlarms(tables: Tables, kind: Kind): (ids: seq<int>)
    ensures forall id :: id in ids ==> id in tables.alarms
  {
    GetAlarm(tables, PyNone, SweepFilter(kind)).value.ids
  }

  /** A sweep walks exactly the enabled alarms of its kind, each once, in ascending id order. */
  lemma SweptAlarmsSpec(tables: Tables, kind: Kind)
    requires Consistent(tables)
    ensures var ids := SweptAlarms(tables, kind);
      (forall i, j :: 0 <= i < j < |ids| ==> ids[i] < ids[j]) &&
      (forall id :: id in ids <==>
        id in tables.alarms && tables.alarms[id].alarmType == AlarmTypeOf(kind) && tables.alarms[id].isEnabled)
  {
    GetAlarmList(tables, SweepFilter(kind));
  }

  /** A fetched tick is a hit when its quantity reaches the alarm's quantity. */
  predicate TickHit(t: Tick, threshold: real) { t.quantity >= threshold }

  function TickBody(t: Tick): MessageBody { TickMessage(t) }

  function WhaleBody(u: Unit): MessageBody { WhaleMessage(u) }

  /** The tick messages of a tick alarm, in fetch order: one per tick whose quantity reaches
      the threshold. */
  function TickBodies(ticks: seq<Tick>, threshold: real): seq<MessageBody>
  {
    if ticks == [] then []
    else
      var last := ticks[|ticks| - 1];
      TickBodies(ticks[..|ticks| - 1], threshold) + (if TickHit(last, threshold) then [TickBody(last)] else [])
  }

  /** The tick messages are the hits among the ticks, each as a message. */
  lemma {:induction false} TickBodiesAreHits(ticks: seq<Tick>, threshold: real)
    ensures TickBodies(ticks, threshold) == MapSeq(Filter(ticks, t => TickHit(t, threshold)), TickBody)
  {
    var p := t => TickHit(t, threshold);
    if ticks != [] {
      var prefix, last := ticks[..|ticks| - 1], ticks[|ticks| - 1];
      TickBodiesAreHits(prefix, threshold);
      assert ticks == prefix + [last];
      FilterAppend(prefix, [last], p);
      var kept := Filter(prefix, p);
      if p(last) {
        assert Filter(ticks, p) == kept + [last];
        assert MapSeq(kept + [last], TickBody) == MapSeq(kept, TickBody) + [TickBody(last)];
      } else {
        assert Filter(ticks, p) == kept;
      }
    }
  }

  /** What one alarm reports, in order: a tick message per hit among the fetched ticks, or a
      whale message per unit `find_whale` returns. */
  function Hits(market: Market, row: AlarmRow, kind: Kind, nowMs: nat): seq<MessageBody>
  {
    match kind
    case TickKind =>
      TickBodies(FetchTicks(market, row.exchangeId, row.baseSymbol, row.quoteSymbol, nowMs), row.quantity)
    case WhaleKind =>
      MapSeq(FindWhale(FetchBook(market, row.exchangeId, row.baseSymbol, row.quoteSymbol, nowMs), row.quantity), WhaleBody)
  }

  /** The messages to one recipient, one per body, in body order. */
  function Address(chatId: int, bodies: seq<MessageBody>): (r: seq<Message>)
    ensures |r| == |bodies|
    ensures forall i :: 0 <= i < |r| ==> r[i].chatId == chatId && r[i].body == bodies[i]
  {
    MapSeq(bodies, b => Message(chatId, b))
  }

  /** The messages sent so far, and whether the sweep stopped on an exception. */
  datatype Sweep = Sweep(messages: seq<Message>, aborted: bool)

  /** Whether `get_exchange` finds the alarm's exchange row; when it does not, the sweep
      raises before asking any exchange. */
  predicate ExchangeFound(tables: Tables, row: AlarmRow)
  {
    ObjectId(tables, ExchangeTable, PyInt(row.exchangeId)).Ok?
  }

  /** Sending one alarm's messages. The recipient is looked up at every hit, so a missing
      recipient row raises at the first hit, before anything is sent for this alarm. */
  function Deliver(tables: Tables, id: int, bodies: seq<MessageBody>): (s: Sweep)
    requires id in tables.alarms
    ensures s.aborted <==> bodies != [] && LegacyRecipient(tables, id).Err?
    ensures s.aborted ==> s.messages == []
    ensures !s.aborted ==> s.messages == Address(tables.alarms[id].chatId, bodies)
  {
    if bodies != [] && LegacyRecipient(tables, id).Err? then Sweep([], true)
    else Sweep(Address(tables.alarms[id].chatId, bodies), false)
  }

  /** One alarm's part of a sweep. */
  function AlarmSweep(tables: Tables, id: int, kind: Kind, market: Market, nowMs: nat): (s: Sweep)
    requires id in tables.alarms
    ensures s.aborted <==>
      !ExchangeFound(tables, tables.alarms[id]) ||
      (Hits(market, tables.alarms[id], kind, nowMs) != [] && LegacyRecipient(tables, id).Err?)
    ensures s.aborted ==> s.messages == []
  {
    var row := tables.alarms[id];
    if !ExchangeFound(tables, row) then Sweep([], true)
    else Deliver(tables, id, Hits(market, row, kind, nowMs))
  }

  /** The parts of a sweep run one after the other: the messages of each part in turn, up
      to and including the first part that raised, after which nothing more happens. */
  function Combine(parts: seq<Sweep>): Sweep
  {
    if parts == [] then Sweep([], false)
    else
      var prev := Combine(parts[..|parts| - 1]);
      if prev.aborted then prev
      else Sweep(prev.messages + parts[|parts| - 1].messages, parts[|parts| - 1].aborted)
  }

  /** Running two runs of parts one after the other: every message of the first run precedes
      every message of the second, and an exception in the first run ends everything there. */
  lemma {:induction false} CombineConcat(p: seq<Sweep>, q: seq<Sweep>)
    ensures Combine(p + q) ==
      if Combine(p).aborted then Combine(p)
      else Sweep(Combine(p).messages + Combine(q).messages, Combine(q).aborted)
    decreases |q|
  {
    if q == [] {
      assert p + q == p;
    } else {
      var q' := q[..|q| - 1];
      var pq := p + q;
      assert pq[..|pq| - 1] == p + q';
      assert pq[|pq| - 1] == q[|q| - 1];
      CombineConcat(p, q');
    }
  }

  /** An exception ends the sweep: once a prefix of the parts has raised, the remaining parts
      add nothing. */
  lemma CombineAbort(parts: seq<Sweep>, n: nat)
    requires n <= |parts| && Combine(parts[..n]).aborted
    ensures Combine(parts) == Combine(parts[..n])
  {
    assert parts == parts[..n] + parts[n..];
    CombineConcat(parts[..n], parts[n..]);
  }

  /** Running one more part after a prefix that has not raised. */
  lemma CombineStep(parts: seq<Sweep>, i: nat)
    requires i < |parts| && !Combine(parts[..i]).aborted
    ensures Combine(parts[..i + 1]) == Sweep(Combine(parts[..i]).messages + parts[i].messages, parts[i].aborted)
  {
    assert parts[..i + 1][..i] == parts[..i];
  }

  /** Every message of a run comes from one of its parts. */
  lemma {:induction false} CombineMessages(parts: seq<Sweep>, m: Message)
    requires m in Combine(parts).messages
    ensures exists k :: 0 <= k < |parts| && m in parts[k].messages
  {
    var prefix := parts[..|parts| - 1];
    var prev := Combine(prefix);
    if m in prev.messages {
      CombineMessages(prefix, m);
      var k :| 0 <= k < |prefix| && m in prefix[k].messages;
      assert parts[k] == prefix[k];
    } else {
      assert m in parts[|parts| - 1].messages;
    }
  }

  /** The per-alarm parts of a sweep over the given alarms. */
  function AlarmSweeps(tables: Tables, ids: seq<int>, kind: Kind, market: Market, nowMs: nat): (parts: seq<Sweep>)
    requires forall id :: id in ids ==> id in tables.alarms
    ensures |parts| == |ids|
  {
    if ids == [] then []
    else
      var prefix := ids[..|ids| - 1];
      assert forall id :: id in prefix ==> id in ids;
      AlarmSweeps(tables, prefix, kind, market, nowMs) + [AlarmSweep(tables, ids[|ids| - 1], kind, market, nowMs)]
  }

  /** The parts of a run of alarms are the alarms' own parts, in order. */
  lemma {:induction false} AlarmSweepsAt(tables: Tables, ids: seq<int>, kind: Kind, market: Market, nowMs: nat, k: nat)
    requires forall id :: id in ids ==> id in tables.alarms
    requires k < |ids|
    ensures AlarmSweeps(tables, ids, kind, market, nowMs)[k] == AlarmSweep(tables, ids[k], kind, market, nowMs)
  {
    var prefix := ids[..|ids| - 1];
    assert forall id :: id in prefix ==> id in ids;
    if k < |ids| - 1 {
      AlarmSweepsAt(tables, prefix, kind, market, nowMs, k);
    }
  }

  /** The parts of two runs of alarms one after the other. */
  lemma {:induction false} AlarmSweepsConcat(tables: Tables, a: seq<int>, b: seq<int>, kind: Kind, market: Market, nowMs: nat)
    requires forall id :: id in a ==> id in tables.alarms
    requires forall id :: id in b ==> id in tables.alarms
    ensures forall id :: id in a + b ==> id in tables.alarms
    ensures AlarmSweeps(tables, a + b, kind, market, nowMs) == AlarmSweeps(tables, a, kind, market, nowMs) + AlarmSweeps(tables, b, kind, market, nowMs)
    decreases |b|
  {
    if b == [] {
      assert a + b == a;
    } else {
      var b' := b[..|b| - 1];
      var ab := a + b;
      assert ab[..|ab| - 1] == a + b';
      assert ab[|ab| - 1] == b[|b| - 1];
      assert forall id :: id in b' ==> id in b;
      AlarmSweepsConcat(tables, a, b', kind, market, nowMs);
    }
  }

  /** A whole sweep over the given alarms, in order, stopping at the first exception. */
  function SweepOf(tables: Tables, ids: seq<int>, kind: Kind, market: Market, nowMs: nat): Sweep
    requires forall id :: id in ids ==> id in tables.alarms
  {
    Combine(AlarmSweeps(tables, ids, kind, market, nowMs))
  }

  /** Sweeping two runs of alarms one after the other: every message for the first run
      precedes every message for the second, and an exception in the first run ends the
      sweep there. */
  lemma SweepConcat(tables: Tables, a: seq<int>, b: seq<int>, kind: Kind, market: Market, nowMs: nat)
    requires forall id :: id in a ==> id in tables.alarms
    requires forall id :: id in b ==> id in tables.alarms
    ensures forall id :: id in a + b ==> id in tables.alarms
    ensures var sa := SweepOf(tables, a, kind, market, nowMs);
      var sb := SweepOf(tables, b, kind, market, nowMs);
      SweepOf(tables, a + b, kind, market, nowMs) ==
        if sa.aborted then sa else Sweep(sa.messages + sb.messages, sb.aborted)
  {
    AlarmSweepsConcat(tables, a, b, kind, market, nowMs);
    CombineConcat(AlarmSweeps(tables, a, kind, market, nowMs), AlarmSweeps(tables, b, kind, market, nowMs));
  }

  /** Every message goes to the ChatID of one of the swept alarms, and that id is a row of the
      table the alarm's IsChannel flag names: Channel for a channel alarm, Chat otherwise. */
  lemma SweepRecipients(tables: Tables, ids: seq<int>, kind: Kind, market: Market, nowMs: nat)
    requires forall id :: id in ids ==> id in tables.alarms
    ensures forall m :: m in SweepOf(tables, ids, kind, market, nowMs).messages ==>
      exists id :: id in ids && m.chatId == tables.alarms[id].chatId &&
        (if tables.alarms[id].isChannel then m.chatId in tables.channels else m.chatId in tables.chats)
  {
    var parts := AlarmSweeps(tables, ids, kind, market, nowMs);
    forall m | m in Combine(parts).messages
      ensures exists id :: (id in ids && m.chatId == tables.alarms[id].chatId &&
                            (if tables.alarms[id].isChannel then m.chatId in tables.channels else m.chatId in tables.chats))
    {
      CombineMessages(parts, m);
      var k :| 0 <= k < |parts| && m in parts[k].messages;
      var id := ids[k];
      AlarmSweepsAt(tables, ids, kind, market, nowMs, k);
      assert Hits(market, tables.alarms[id], kind, nowMs) != [];
      assert LegacyRecipient(tables, id).Ok?;
    }
  }

  /** For a tick alarm that does not abort, the messages are exactly one per fetched tick
      whose quantity reaches the alarm's, in fetch order, all to the alarm's ChatID: smaller
      ticks send nothing and equal ticks are not merged. */
  lemma TickAlarmMessages(tables: Tables, id: int, market: Market, nowMs: nat)
    requires id in tables.alarms && !AlarmSweep(tables, id, TickKind, market, nowMs).aborted
    ensures var row := tables.alarms[id];
      var ticks := FetchTicks(market, row.exchangeId, row.baseSymbol, row.quoteSymbol, nowMs);
      var msgs := AlarmSweep(tables, id, TickKind, market, nowMs).messages;
      |msgs| == |Filter(ticks, t => TickHit(t, row.quantity))| &&
      (forall i :: 0 <= i < |msgs| ==>
        msgs[i].chatId == row.chatId && msgs[i].body.TickMessage? &&
        msgs[i].body.tick in ticks && TickHit(msgs[i].body.tick, row.quantity)) &&
      (forall t :: t in ticks && TickHit(t, row.quantity) ==> Message(row.chatId, TickMessage(t)) in msgs) &&
      (forall t :: multiset(msgs)[Message(row.chatId, TickMessage(t))] ==
        if TickHit(t, row.quantity) then multiset(ticks)[t] else 0)
  {
    var row := tables.alarms[id];
    var ticks := FetchTicks(market, row.exchangeId, row.baseSymbol, row.quoteSymbol, nowMs);
    assert AlarmSweep(tables, id, TickKind, market, nowMs).messages == Address(row.chatId, TickBodies(ticks, row.quantity));
    AddressedTickHits(row.chatId, ticks, row.quantity);
  }

  /** The messages for the ticks reaching a threshold, addressed to one recipient: one per
      such tick, in order, with its multiplicity. */
  lemma AddressedTickHits(chatId: int, ticks: seq<Tick>, threshold: real)
    ensures var msgs := Address(chatId, TickBodies(ticks, threshold));
      |msgs| == |Filter(ticks, t => TickHit(t, threshold))| &&
      (forall i :: 0 <= i < |msgs| ==>
        msgs[i].chatId == chatId && msgs[i].body.TickMessage? &&
        msgs[i].body.tick in ticks && TickHit(msgs[i].body.tick, threshold)) &&
      (forall t :: t in ticks && TickHit(t, threshold) ==> Message(chatId, TickMessage(t)) in msgs) &&
      (forall t :: multiset(msgs)[Message(chatId, TickMessage(t))] ==
        if TickHit(t, threshold) then multiset(ticks)[t] else 0)
  {
    var p := (t: Tick) => TickHit(t, threshold);
    var kept := Filter(ticks, p);
    var msgs := Address(chatId, TickBodies(ticks, threshold));
    TickBodiesAreHits(ticks, threshold);
    assert msgs == Address(chatId, MapSeq(kept, TickBody));
    forall t | t in ticks && p(t) ensures Message(chatId, TickMessage(t)) in msgs {
      var k :| 0 <= k < |kept| && kept[k] == t;
      assert msgs[k] == Message(chatId, TickMessage(t));
    }
    forall t ensures multiset(msgs)[Message(chatId, TickMessage(t))] == if p(t) then multiset(ticks)[t] else 0 {
      FilterMultiplicity(ticks, p, t);
      AddressedCount(chatId, kept, t);
    }
  }

  /** Addressing tick messages keeps each tick's multiplicity. */
  lemma {:induction false} AddressedCount(chatId: int, ticks: seq<Tick>, t: Tick)
    ensures multiset(Address(chatId, MapSeq(ticks, TickBody)))[Message(chatId, TickMessage(t))]
      == multiset(ticks)[t]
  {
    if ticks != [] {
      var rest := ticks[1..];
      var m := Message(chatId, TickMessage(t));
      var first := Message(chatId, TickMessage(ticks[0]));
      var tail := Address(chatId, MapSeq(rest, TickBody));
      calc {
        multiset(Address(chatId, MapSeq(ticks, TickBody)))[m];
        { AddressCons(chatId, ticks); }
        multiset([first] + tail)[m];
        multiset([first])[m] + multiset(tail)[m];
        { AddressedCount(chatId, rest, t); }
        multiset([ticks[0]])[t] + multiset(rest)[t];
        multiset([ticks[0]] + rest)[t];
        { assert [ticks[0]] + rest == ticks; }
        multiset(ticks)[t];
      }
    }
  }

  /** The tick messages to one recipient are the first tick's message followed by the
      messages of the remaining ticks. */
  lemma AddressCons(chatId: int, ticks: seq<Tick>)
    requires ticks != []
    ensures Address(chatId, MapSeq(ticks, TickBody))
         == [Message(chatId, TickMessage(ticks[0]))] + Address(chatId, MapSeq(ticks[1..], TickBody))
  {
  }

  /** For a whale alarm that does not abort, the messages are one per unit `find_whale`
      returns for the alarm's quantity, in that order, all to the alarm's ChatID. */
  lemma WhaleAlarmMessages(tables: Tables, id: int, market: Market, nowMs: nat)
    requires id in tables.alarms && !AlarmSweep(tables, id, WhaleKind, market, nowMs).aborted
    ensures var row := tables.alarms[id];
      var whales := FindWhale(FetchBook(market, row.exchangeId, row.baseSymbol, row.quoteSymbol, nowMs), row.quantity);
      var msgs := AlarmSweep(tables, id, WhaleKind, market, nowMs).messages;
      |msgs| == |whales| &&
      forall i :: 0 <= i < |msgs| ==> msgs[i] == Message(row.chatId, WhaleMessage(whales[i]))
  {
  }

  /** The sweep has no recipient-level gate: the AlarmOption of chats and channels is never
      consulted, so two stores that differ only in those options (and in anything else but
      the alarms, the exchange ids and which chat and channel ids exist) sweep identically. */
  lemma SweepIgnoresAlarmOption(tables1: Tables, tables2: Tables, ids: seq<int>, kind: Kind, market: Market, nowMs: nat)
    requires tables1.alarms == tables2.alarms && tables1.exchanges.Keys == tables2.exchanges.Keys
    requires tables1.chats.Keys == tables2.chats.Keys && tables1.channels.Keys == tables2.channels.Keys
    requires forall id :: id in ids ==> id in tables1.alarms
    ensures SweepOf(tables1, ids, kind, market, nowMs) == SweepOf(tables2, ids, kind, market, nowMs)
  {
    forall k | 0 <= k < |ids|
      ensures AlarmSweeps(tables1, ids, kind, market, nowMs)[k] == AlarmSweeps(tables2, ids, kind, market, nowMs)[k]
    {
      var id := ids[k];
      AlarmSweepsAt(tables1, ids, kind, market, nowMs, k);
      AlarmSweepsAt(tables2, ids, kind, market, nowMs, k);
      assert ExchangeFound(tables1, tables1.alarms[id]) == ExchangeFound(tables2, tables2.alarms[id]);
      assert LegacyRecipient(tables1, id).Ok? == LegacyRecipient(tables2, id).Ok?;
    }
    assert AlarmSweeps(tables1, ids, kind, market, nowMs) == AlarmSweeps(tables2, ids, kind, market, nowMs);
  }

  /** The Telegram bot, reduced to the messages it has been asked to send. */
  class Bot {
    var outbox: seq<Message>

    constructor ()
      ensures outbox == []
    {
      outbox := [];
    }

    /** `send_message`: the message joins the outbox. */
    method SendMessage(chatId: int, body: MessageBody)
      modifies this
      ensures outbox == old(outbox) + [Message(chatId, body)]
    {
      outbox := outbox + [Message(chatId, body)];
    }
  }

  /** The inner loop of `send_tick_alarm` for one alarm: a message per hit, the recipient
      looked up at each hit. */
  method SendTicks(tables: Tables, bot: Bot, id: int, ticks: seq<Tick>) returns (aborted: bool)
    requires id in tables.alarms
    modifies bot
    ensures var s := Deliver(tables, id, TickBodies(ticks, tables.alarms[id].quantity));
      bot.outbox == old(bot.outbox) + s.messages && aborted == s.aborted
  {
    var row := tables.alarms[id];
    var j := 0;
    while j < |ticks|
      invariant 0 <= j <= |ticks|
      invariant LegacyRecipient(tables, id).Err? ==> TickBodies(ticks[..j], row.quantity) == []
      invariant bot.outbox == old(bot.outbox) + Address(row.chatId, TickBodies(ticks[..j], row.quantity))
    {
      var tick := ticks[j];
      assert ticks[..j + 1][..j] == ticks[..j];
      if tick.quantity >= row.quantity {
        var recipient := LegacyRecipient(tables, id);
        if recipient.Err? {
          TickBodiesGrow(ticks, j, row.quantity);
          return true;
        }
        bot.SendMessage(recipient.value, TickMessage(tick));
      }
      j := j + 1;
    }
    assert ticks[..j] == ticks;
    return false;
  }

  /** A hit among the ticks leaves the tick messages non-empty. */
  lemma {:induction false} TickBodiesGrow(ticks: seq<Tick>, j: nat, threshold: real)
    requires j < |ticks| && TickHit(ticks[j], threshold)
    ensures TickBodies(ticks, threshold) != []
    decreases |ticks|
  {
    if j < |ticks| - 1 {
      TickBodiesGrow(ticks[..|ticks| - 1], j, threshold);
    }
  }

  /** The inner loop of `send_whale_alarm` for one alarm: a message per whale, the recipient
      looked up at each whale. */
  method SendWhales(tables: Tables, bot: Bot, id: int, whales: seq<Unit>) returns (aborted: bool)
    requires id in tables.alarms
    modifies bot
    ensures var s := Deliver(tables, id, MapSeq(whales, WhaleBody));
      bot.outbox == old(bot.outbox) + s.messages && aborted == s.aborted
  {
    var row := tables.alarms[id];
    var j := 0;
    while j < |whales|
      invariant 0 <= j <= |whales|
      invariant LegacyRecipient(tables, id).Err? ==> j == 0
      invariant bot.outbox == old(bot.outbox) + Address(row.chatId, MapSeq(whales[..j], WhaleBody))
    {
      var whale := whales[j];
      var recipient := LegacyRecipient(tables, id);
      if recipient.Err? {
        return true;
      }
      bot.SendMessage(recipient.value, WhaleMessage(whale));
      assert MapSeq(whales[..j + 1], WhaleBody) == MapSeq(whales[..j], WhaleBody) + [WhaleBody(whale)];
      j := j + 1;
    }
    assert whales[..j] == whales;
    return false;
  }

  /** One alarm's turn in either sweep: look up its exchange, fetch from the proxy the
      exchange id selects, and send its hits. */
  method SendAlarm(tables: Tables, bot: Bot, id: int, kind: Kind, market: Market, nowMs: nat) returns (aborted: bool)
    requires id in tables.alarms
    modifies bot
    ensures var s := AlarmSweep(tables, id, kind, market, nowMs);
      bot.outbox == old(bot.outbox) + s.messages && aborted == s.aborted
  {
    var row := tables.alarms[id];
    var exchange := ObjectId(tables, ExchangeTable, PyInt(row.exchangeId));
    if exchange.Err? {
      return true;
    }
    if kind == TickKind {
      var ticks := FetchTicks(market, exchange.value, row.baseSymbol, row.quoteSymbol, nowMs);
      aborted := SendTicks(tables, bot, id, ticks);
    } else {
      var book := FetchBook(market, exchange.value, row.baseSymbol, row.quoteSymbol, nowMs);
      aborted := SendWhales(tables, bot, id, FindWhale(book, row.quantity));
    }
  }

  /** The state of a sweep after the first `i` parts: the outbox holds their messages, and
      `aborted` tells whether the last of them raised. */
  ghost predicate SweepPrefix(parts: seq<Sweep>, i: nat, aborted: bool, outbox: seq<Message>, start: seq<Message>)
  {
    i <= |parts| && var c := Combine(parts[..i]);
    outbox == start + c.messages && aborted == c.aborted
  }

  /** Running part `i` after a prefix that has not raised extends the prefix. */
  lemma SweepPrefixStep(parts: seq<Sweep>, i: nat, sent: seq<Message>, outbox: seq<Message>, aborted: bool, start: seq<Message>)
    requires i < |parts| && SweepPrefix(parts, i, false, sent, start)
    requires outbox == sent + parts[i].messages && aborted == parts[i].aborted
    ensures SweepPrefix(parts, i + 1, aborted, outbox, start)
  {
    CombineStep(parts, i);
  }

  /** A prefix that has raised, or that covers every part, is the whole sweep. */
  lemma SweepPrefixDone(parts: seq<Sweep>, i: nat, aborted: bool, outbox: seq<Message>, start: seq<Message>)
    requires SweepPrefix(parts, i, aborted, outbox, start) && (i == |parts| || aborted)
    ensures outbox == start + Combine(parts).messages && aborted == Combine(parts).aborted
  {
    if aborted {
      CombineAbort(parts, i);
    } else {
      assert parts[..i] == parts;
    }
  }

  /** The turn of the `i`-th alarm of a sweep: its part of the sweep. */
  method SendPart(tables: Tables, ids: seq<int>, i: nat, bot: Bot, kind: Kind, market: Market, nowMs: nat) returns (aborted: bool)
    requires forall id :: id in ids ==> id in tables.alarms
    requires i < |ids|
    modifies bot
    ensures var part := AlarmSweeps(tables, ids, kind, market, nowMs)[i];
      bot.outbox == old(bot.outbox) + part.messages && aborted == part.aborted
  {
    aborted := SendAlarm(tables, bot, ids[i], kind, market, nowMs);
    AlarmSweepsAt(tables, ids, kind, market, nowMs, i);
  }

  /** One pass of a sweep over the given alarms, in order, stopping at the first
      exception. */
  method RunSweep(tables: Tables, ids: seq<int>, bot: Bot, kind: Kind, market: Market, nowMs: nat) returns (aborted: bool)
    requires forall id :: id in ids ==> id in tables.alarms
    modifies bot
    ensures bot.outbox == old(bot.outbox) + SweepOf(tables, ids, kind, market, nowMs).messages
    ensures aborted == SweepOf(tables, ids, kind, market, nowMs).aborted
  {
    ghost var parts := AlarmSweeps(tables, ids, kind, market, nowMs);
    var i := 0;
    aborted := false;
    while i < |ids| && !aborted
      invariant i <= |ids|
      invariant SweepPrefix(parts, i, aborted, bot.outbox, old(bot.outbox))
    {
      ghost var sent := bot.outbox;
      aborted := SendPart(tables, ids, i, bot, kind, market, nowMs);
      SweepPrefixStep(parts, i, sent, bot.outbox, aborted, old(bot.outbox));
      i := i + 1;
    }
    SweepPrefixDone(parts, i, aborted, bot.outbox, old(bot.outbox));
  }

  /** `send_tick_alarm`: returns whether the sweep stopped on an exception. */
  method SendTickAlarm(db: Database, bot: Bot, market: Market, nowMs: nat) returns (aborted: bool)
    modifies bot
    ensures var tables := db.Snapshot();
      bot.outbox == old(bot.outbox) + SweepOf(tables, SweptAlarms(tables, TickKind), TickKind, market, nowMs).messages &&
      aborted == SweepOf(tables, SweptAlarms(tables, TickKind), TickKind, market, nowMs).aborted
  {
    var tables := db.Snapshot();
    aborted := RunSweep(tables, SweptAlarms(tables, TickKind), bot, TickKind, market, nowMs);
  }

  /** `send_whale_alarm`: returns whether the sweep stopped on an exception. */
  method SendWhaleAlarm(db: Database, bot: Bot, market: Market, nowMs: nat) returns (aborted: bool)
    modifies bot
    ensures var tables := db.Snapshot();
      bot.outbox == old(bot.outbox) + SweepOf(tables, SweptAlarms(tables, WhaleKind), WhaleKind, market, nowMs).messages &&
      aborted == SweepOf(tables, SweptAlarms(tables, WhaleKind), WhaleKind, market, nowMs).aborted
  {
    var tables := db.Snapshot();
    aborted := RunSweep(tables, SweptAlarms(tables, WhaleKind), bot, WhaleKind, market, nowMs);
  }
}
