# WhaleDetectorBackend in Dafny

A model of the logic under the whale-alert service WhaleDetectorBackend. The service watches
trades and order books on Upbit and Binance and sends Telegram messages to the chats and
channels that subscribed alarms. The model covers four parts.

- **Alert evaluation** (modules `Orderbook`, `Ticks`, `AlarmSender`).
  - `find_whale` keeps the order-book levels whose value (price × quantity) reaches a threshold: asks first, then bids, each in book order.
  - Ticks are recent when their trade time is strictly after the clock, with its sub-second part dropped, minus the interval.
  - `send_tick_alarm` and `send_whale_alarm` walk the enabled alarms of their kind in AlarmID order. For each alarm they fetch from the exchange its id selects, then send one message per hit to the alarm's ChatID.
  - The sweeps are methods that append to a bot's outbox. They are proved against `SweepOf`, a specification of the whole pass: what is sent, in what order, and when an exception stops the pass.
  - An exception comes from a missing exchange row, or from a missing recipient row looked up at the first hit.
  - The older order-book constructor in exchange_proxy.py labels bid levels as asks. The model keeps this, and `LegacyWhalesAllAsk` states its consequence.
- **Exchange catalogues** (module `Catalogue`).
  - Upbit "QUOTE-BASE" market strings and Binance symbols are parsed into currencies and items.
  - `get_currencies` keeps the first currency of each symbol. The older `get_currency` also applies optional field filters.
  - `get_items` applies the optional base/quote filters.
  - `get_exchange` maps id 1 to Upbit and id 2 to Binance.
- **SQL text and `ResultSet`** (module `Sql`).
  - `to_comparison_value` and `to_parameter_statement`, and the `select`, `get_objects`, `insert`, `update` and `delete` statements built from them.
  - `ResultSet`, the dictionary that indexes rows by their first column.
- **The subscription store** (modules `Store`, `Objects`, `LegacyStore`, `Validation`).
  - The Exchange, Currency, Chat, Channel and Alarm tables are maps inside one `Database` object. A statement becomes its effect on the maps, with the Channel→Chat foreign key and the Alarm AUTOINCREMENT counter, as long as its text arguments hold no single quote (see "## Left out").
  - The row objects `Chat`, `Channel` and `Alarm` of the newer data layer.
  - The older `Database` of database.py: `int()` coercion of primary keys, and its own errors and inserts.
  - The request validator of server/validate.py: the chain of existence and ownership checks, and the decorator that picks one.

Times are integer milliseconds and prices and quantities are `real`. The Telegram bot is an outbox sequence.

## Model

| member | source | states |
|---|---|---|
| Text.Split | exchange_proxy/proxy.py:101-106 | `str.split` on one character returns at least one piece, and no piece contains the separator |
| Text.JoinSplit | exchange_proxy/proxy.py:101-106 | joining the pieces of a split with the separator gives back the text |
| Text.SplitJoin | exchange_proxy/proxy.py:101-110 | splitting a join of separator-free pieces gives back the pieces |
| Text.ParseIntToString | database.py:42-50 | `int(str(i)) == i` for every integer |
| Orderbook.FindWhale | exchange_proxy/orderbook.py:37-41 | a level is in the result iff it is an ask or a bid of the book whose total value reaches the threshold |
| Orderbook.FindWhaleExact | exchange_proxy/orderbook.py:38-41 | each whale level occurs as often as in asks plus bids, and no other level occurs, so the length is the number of whale asks plus whale bids |
| Orderbook.FindWhaleOrder | exchange_proxy/orderbook.py:40-41 | the result is a subsequence of asks followed by bids: book order is kept and asks come first |
| Orderbook.FindWhaleInclusive | exchange_proxy/orderbook.py:38-39 | a level whose total value equals the threshold is reported |
| Orderbook.FindWhaleSidesIndependent | exchange_proxy/orderbook.py:38-41 | books with equal asks give the same leading ask whales; books with equal bids give the same trailing bid whales |
| Orderbook.FindWhaleAsksFirst | exchange_proxy/orderbook.py:40-41 | on a correctly labelled book no ask whale follows a bid whale |
| Orderbook.UpbitOrderbook | exchange_proxy/proxy.py:135-157 | one ask unit and one bid unit per depth entry, with that entry's prices and sizes, labelled by side, all stamped with the payload time |
| Orderbook.LegacyBook | exchange_proxy.py:38-54 | one unit per ask entry and per bid entry, in order, every unit of both sides labelled ask |
| Orderbook.LegacyWhalesAllAsk | exchange_proxy.py:26-61 | every whale the older book reports, bids included, is labelled ask and shows the ask side word |
| Ticks.WindowBoundary | exchange_proxy/proxy.py:129 | a trade exactly at the window start is dropped and one a millisecond later is kept |
| Ticks.UpbitTick | exchange_proxy/proxy.py:119-126 | the tick is an ask iff `ask_bid` is "ASK"; time, price and quantity come from the entry |
| Ticks.BinanceTick | exchange_proxy/proxy.py:191-197 | the tick's side is `isBuyerMaker`; time, price and quantity come from the entry |
| Ticks.UpbitRecentTicksWindow | exchange_proxy.py:202-222 | every recent entry yields its tick, every tick returned is recent and comes from the payload, and there are no more ticks than entries |
| Ticks.BinanceRecentTicksWindow | exchange_proxy.py:263-279 | the same for Binance entries and their millisecond times |
| Catalogue.ParseCurrency | exchange_proxy/proxy.py:101-102 | an Upbit market string parses iff it contains '-', the symbol is its second '-'-separated piece and the currency keeps both names; a Binance symbol gives its base asset with empty names |
| Catalogue.ParseItem | exchange_proxy/proxy.py:105-106 | a Binance symbol gives (base asset, quote asset); an Upbit string parses iff it splits on '-' into exactly two pieces, giving (second piece, first piece), and otherwise is a `ValueError` |
| Catalogue.MarketStringRoundTrip | exchange_proxy/proxy.py:101-110 | writing a pair as "QUOTE-BASE" and parsing it gives the pair back, and the currency parser reads the same base |
| Catalogue.ParsedMarketString | exchange_proxy/proxy.py:101-106 | an Upbit string that parses as an item is the market string of the parsed pair, and its currency is the item's base |
| Catalogue.ParseAll | exchange_proxy/proxy.py:47-48 | parsing succeeds iff every entry parses, giving one result per entry in order; otherwise it fails with the first failing entry's error |
| Catalogue.DedupDistinct | exchange_proxy/proxy.py:56-60 | no symbol is listed twice |
| Catalogue.DedupCovers | exchange_proxy/proxy.py:56-60 | every parsed symbol is listed, and every listed currency was parsed |
| Catalogue.DedupFirstOccurrence | exchange_proxy/proxy.py:47-60 | each listed currency is the first parsed currency with its symbol |
| Catalogue.DedupOrder | exchange_proxy/proxy.py:47-60 | listed currencies are in order of their symbols' first occurrence |
| Catalogue.SelectItemsSpec | exchange_proxy/proxy.py:79-85 | an item is kept iff both optional filters match; order is kept; with no filter every item is returned |
| Catalogue.GetCurrencies | exchange_proxy/proxy.py:43-62 | the append loop returns the de-duplicated parsed currencies, or the first parse error |
| Catalogue.GetItems | exchange_proxy/proxy.py:67-85 | the append loop returns the filtered parsed items, or the first parse error |
| Catalogue.LegacyGetCurrency | exchange_proxy.py:111-151 | the older loop returns the first currency of each symbol among those passing every non-None filter |
| Catalogue.FilteredDedupSnoc | exchange_proxy.py:118-121 | one more parsed currency is appended iff it passes the filters and its symbol is not yet listed |
| Catalogue.LegacyParseItem | exchange_proxy.py:160-170 | an entry parses iff the item parser succeeds and its base symbol is not a cached currency |
| Catalogue.LegacyGetItem | exchange_proxy.py:156-179 | the older loop returns the filtered items, or fails at the first entry that does not parse or whose base is cached |
| Catalogue.LegacyItemsWithoutCache | exchange_proxy.py:156-179 | with no cached currency the older `get_item` agrees with the newer `get_items` |
| Catalogue.GetExchange | exchange.py:117-122 | an exchange is returned iff the id is 1 or 2 |
| Catalogue.GetExchangeInverse | exchange.py:117-122 | `get_exchange` inverts the id of each exchange: 1 is Upbit and 2 is Binance |
| Sql.ToComparisonValue | database/database.py:47-59 | the result is `None` iff the value is `None` |
| Sql.IntOf | database.py:42-50 | `int()` keeps an integer and fails on `None` |
| Sql.IntOfSpec | database.py:42-50 | `int()` reads back the text of an integer, and truncates a float toward zero |
| Sql.StringLiteral | database/database.py:49-50 | a string renders in single quotes with its text unchanged inside |
| Sql.StringLiteralUnescaped | database/database.py:49-50 | a quote in the string stands unescaped inside the literal |
| Sql.BoolRendersAsInt | database/database.py:52-53 | True and False render as the integers 1 and 0 |
| Sql.IntRendering | database/database.py:58-59 | an integer renders as text that `int()` reads back as the same integer |
| Sql.ParameterStatement | database/database.py:63-74 | the statement fails iff it is given only positional values and one of them is `None` |
| Sql.ToParameterStatement | database/database.py:63-74 | the append loop builds `ParameterStatement` |
| Sql.KeywordAppend | database/database.py:67-69 | one keyword more adds the separator and `key=value` after the existing conditions |
| Sql.ColumnsQuoted | database/database.py:128-132 | column names passed positionally come out single-quoted and comma-joined |
| Sql.BothFormsEmpty | database/database.py:64-74 | with both positional and keyword arguments the statement is empty |
| Sql.GetObjectsUnfiltered | database/database.py:203-205 | `get_objects` queries the whole table iff every filter is `None`, and otherwise filters on exactly the non-`None` ones |
| Sql.InsertQuery | database/database.py:128-132 | the insert fails iff some value is `None` |
| Sql.ZipDict | database/database.py:17 | the row dictionary's keys are the column names paired with a cell |
| Sql.ZipDictDistinct | database/database.py:17 | with distinct column names every column maps to its own cell |
| Sql.IndexRowsSpec | database/database.py:14-20 | the keys are exactly the rows' first cells, and each key holds the dictionary of the last row that starts with it |
| Sql.ResultSet.constructor | database/database.py:15-20 | the filling loop builds `IndexRows` and keeps the columns and rows |
| Sql.ResultSet.ToList | database/database.py:22-23 | `to_list` returns the rows as given |
| Store.OrderedAlarmIds | database.py:341-347 | the ids are strictly increasing, and an id is listed iff its alarm exists and passes the filter |
| Store.DropAlarmsWithChatIdSpec | database/database.py:273-275 | deleting by ChatID removes every alarm with that ChatID and keeps every other alarm and every other id's lists unchanged |
| Store.ChannelAlarmsWithinChatId | database/channel.py:31-35 | a channel's alarms are among the alarms with its id as ChatID |
| Store.IsChannelOf | database/database.py:191-196 | False iff the id is a chat, True iff it is a channel and not a chat, no answer iff it is neither |
| Store.Database.constructor | init_db.py:9-55 | a new file holds the two exchanges and empty tables |
| Store.Database.AddChat | database/database.py:233-238 | an existing id is refused with nothing changed; otherwise the chat is stored with the given option, its id returned, and no other table changes |
| Store.Database.AddChannel | database/database.py:241-246 | an existing id is refused; a missing chat is a foreign-key error; otherwise the channel is stored and its id returned |
| Store.Database.AddAlarm | database/database.py:249-261 | the alarm is stored enabled under the next AlarmID, which is new and is returned |
| Store.Database.DeleteChannel | database/database.py:273-275 | the alarms with the channel's id as ChatID and the channel row are removed, and nothing else changes |
| Store.Database.DeleteAlarm | database/database.py:278-279 | only that alarm is removed |
| Store.Database.UpdateChatAlarmOption | database/database.py:141-145 | only that chat's AlarmOption changes; a missing row changes nothing |
| Store.Database.UpdateChannelAlarmOption | database/database.py:141-145 | only that channel's AlarmOption changes |
| Store.Database.UpdateChannelName | database/database.py:141-145 | only that channel's name changes |
| Store.Database.UpdateAlarmQuantity | database/database.py:141-145 | only that alarm's quantity changes |
| Store.Database.UpdateAlarmEnabled | database/database.py:141-145 | only that alarm's IsEnabled changes |
| Store.Database.UpdateCurrencyEnglishName | database.py:294-298 | only that currency's English name changes |
| Store.Database.UpdateCurrencyKoreanName | database.py:294-298 | only that currency's Korean name changes |
| Objects.AddedAlarmListed | database/channel.py:31-51 | an added alarm is listed under its owner, and under the owner's channel alarms iff it is a channel alarm; other owners' lists are unchanged |
| Objects.Chat.constructor | database/database_object.py:14-20 | a chat object exists only for an existing chat row |
| Objects.Chat.GetChannels | database/chat.py:22-26 | exactly the channels whose ChatID is this chat |
| Objects.Chat.GetAlarms | database/chat.py:33-37 | exactly the alarms whose ChatID is this chat, whatever their IsChannel flag |
| Objects.Chat.AddChannel | database/chat.py:40-50 | it succeeds iff the channel id is new and this chat exists; then the channel is stored owned by this chat and listed by `get_channels`, otherwise nothing changes |
| Objects.Chat.AddAlarm | database/chat.py:53-66 | an enabled alarm with this chat as ChatID and IsChannel false is stored and listed by `get_alarms` |
| Objects.Chat.UpdateAlarmOption | database/chat.py:69-70 | only this chat's AlarmOption changes |
| Objects.Chat.DeleteChannel | database/chat.py:73-75 | a channel of this chat is deleted with its alarms; any other id changes nothing |
| Objects.Chat.DeleteAlarm | database/chat.py:78-80 | an alarm of this chat is deleted; any other id changes nothing |
| Objects.Chat.ToDict | database/chat.py:83-87 | the id and the stored AlarmOption |
| Objects.Channel.constructor | database/channel.py:13-16 | a channel object exists only for an existing channel row and keeps its chat |
| Objects.Channel.GetAlarms | database/channel.py:31-35 | exactly the alarms with this channel as ChatID and IsChannel set |
| Objects.Channel.AddAlarm | database/channel.py:38-51 | an enabled channel alarm is stored, and the next `get_alarms` is the previous one plus the new id |
| Objects.Channel.UpdateAlarmOption | database/channel.py:54-55 | only this channel's AlarmOption changes |
| Objects.Channel.UpdateName | database/channel.py:58-59 | only this channel's name changes |
| Objects.Channel.ToDict | database/channel.py:62-68 | the id, stored name and option, and the owning chat's dictionary |
| Objects.Alarm.constructor | database/alarm.py:15-18 | an alarm object exists only for an existing alarm row |
| Objects.Alarm.GetItem | database/alarm.py:27-33 | the row's exchange id and symbols; it fails iff the exchange row is missing |
| Objects.Alarm.UpdateQuantity | database/alarm.py:48-49 | only this alarm's quantity changes |
| Objects.Alarm.UpdateEnabled | database/alarm.py:52-53 | only this alarm's IsEnabled changes |
| Objects.Alarm.ToDict | database/alarm.py:56-65 | type, item, quantity and both flags exactly as stored; it fails iff the item does |
| LegacyStore.ObjectId | database.py:23-50 | `InvalidPrimaryKeyError` iff `int()` fails, `ValueNotFoundInDatabaseError` iff no row has the converted key, otherwise the converted key of an existing row |
| LegacyStore.ObjectIdForms | database.py:41-50 | an id as an integer or as its text names the same object; `None` is never a valid key |
| LegacyStore.GetAlarm | database.py:341-376 | without a key a list; with a key one object whose id is `int(key)`, which exists iff the key converts and names a row, and otherwise the error the `Alarm` constructor raises |
| LegacyStore.GetAlarmList | database.py:341-347 | the list holds exactly the existing alarms passing the filter, each once, in ascending id order |
| LegacyStore.LegacyRecipient | database.py:141-146 | the recipient is the row's ChatID, found iff that id is in Channel for a channel alarm and in Chat otherwise |
| LegacyStore.AddChat | database.py:379-386 | an existing chat is refused; otherwise the chat is stored with the default option, whatever option was passed |
| LegacyStore.AddChannel | database.py:389-396 | an existing channel is refused; a missing chat is an integrity error; otherwise the channel is stored |
| LegacyStore.AddAlarm | database.py:403-413 | the alarm is stored enabled with the given IsChannel under the next AlarmID |
| LegacyStore.UpdatedCurrencies | database.py:416-421 | each name passed is set and each name not passed is kept; other currencies and missing symbols are unchanged |
| LegacyStore.UpdatedCurrenciesIdempotent | database.py:416-421 | updating with no names changes nothing, and updating twice is updating once |
| LegacyStore.UpdateCurrency | database.py:416-421 | the two conditional UPDATEs together give `UpdatedCurrencies` |
| Validation.ValidateChat | server/validate.py:16-20 | passes iff the chat exists, else fails with the missing-chat message |
| Validation.ValidateChannel | server/validate.py:23-32 | passes iff the chat exists and owns the channel; a missing chat is reported before a missing channel |
| Validation.ValidateChatAlarm | server/validate.py:35-44 | passes iff the chat exists and the alarm's ChatID is the chat |
| Validation.ValidateChannelAlarm | server/validate.py:47-57 | passes iff the channel check passes and the alarm is one of the channel's channel alarms |
| Validation.ChecksChain | server/validate.py:23-57 | each passing check implies the check it starts with |
| Validation.ChannelAlarmNotChatAlarm | server/validate.py:35-57 | a valid channel alarm passes the chat-alarm check iff the channel id equals the chat id |
| Validation.Dispatch | server/validate.py:66-80 | alarm with channel selects the channel-alarm check, alarm with chat the chat-alarm check, then channel, then chat; it raises iff no chat id is given |
| Validation.Validate | server/validate.py:60-84 | `int(None)` raises `TypeError` and unconvertible text `ValueError`; once `channel_id` converts, a missing chat id raises `TypeError`, the handler's result on the converted arguments is returned iff the chosen check passes, and otherwise that check's own message is answered with status 400 |
| Validation.HandledOnlyOwnRows | server/validate.py:60-84 | a handled request names an existing chat, a channel of that chat, and an alarm of that channel or chat |
| Validation.OwnRowsHandled | server/validate.py:60-84 | conversely, a request whose chat exists and whose channel and alarm belong to it is handled with the converted arguments |
| Validation.RejectedIgnoresHandler | server/validate.py:80-84 | a rejected or raising request has the same outcome whatever the handler |
| Validation.ChannelTextAccepted | server/validate.py:62-64 | a chat's own channel, given as the text of its id, is handled with the id converted to an integer |
| AlarmSender.Take | telegram/alarm_sender.py:39 | asking for `n` trades gives a prefix of the answer of at most `n` trades, and the whole answer when it is no longer |
| AlarmSender.FetchTicksBounded | telegram/alarm_sender.py:33-39 | a tick sweep sees at most 500 ticks per alarm, all inside the five-second window, all for the exchange the id selects (1 is Upbit, else Binance) |
| AlarmSender.SweptAlarms | telegram/alarm_sender.py:30 | every swept id is an existing alarm |
| AlarmSender.SweptAlarmsSpec | telegram/alarm_sender.py:30-32 | a sweep walks exactly the enabled alarms of its type, each once, in ascending id order |
| AlarmSender.TickBodiesAreHits | telegram/alarm_sender.py:40-43 | the tick messages are the ticks whose quantity reaches the alarm's, in fetch order |
| AlarmSender.Address | telegram/alarm_sender.py:42-43 | one message per body, in order, all to the given recipient |
| AlarmSender.Deliver | telegram/alarm_sender.py:40-43 | an alarm's delivery aborts iff it has a hit and the recipient row is missing, and then sends nothing; otherwise every hit goes to the ChatID |
| AlarmSender.AlarmSweep | telegram/alarm_sender.py:32-43 | an alarm aborts iff its exchange row is missing, or it has hits and no recipient row; an aborted alarm sends nothing |
| AlarmSender.CombineAbort | telegram/alarm_sender.py:32-43 | once an alarm raises, the remaining alarms add nothing |
| AlarmSender.SweepConcat | telegram/alarm_sender.py:32-59 | messages for earlier alarms precede those of later ones, and an exception ends the sweep there |
| AlarmSender.SweepRecipients | telegram/alarm_sender.py:40-43 | every message goes to the ChatID of a swept alarm, which is a Channel row for a channel alarm and a Chat row otherwise |
| AlarmSender.TickAlarmMessages | telegram/alarm_sender.py:40-43 | a tick alarm sends one message per tick reaching its quantity, in fetch order, with each tick's multiplicity; smaller ticks send nothing |
| AlarmSender.AddressedTickHits | telegram/alarm_sender.py:40-43 | the messages for one recipient number the ticks reaching the threshold, each carries a tick that reaches it, and every such tick is sent as often as it was fetched |
| AlarmSender.WhaleAlarmMessages | telegram/alarm_sender.py:56-59 | a whale alarm sends one message per unit `find_whale` returns, in that order |
| AlarmSender.SweepIgnoresAlarmOption | telegram/alarm_sender.py:29-59 | a sweep depends only on the alarm rows and on which exchange, chat and channel ids exist: AlarmOption and channel names never affect it |
| AlarmSender.Bot.SendMessage | telegram/alarm_sender.py:43 | the message joins the end of the outbox |
| AlarmSender.SendTicks | telegram/alarm_sender.py:40-43 | the tick loop appends exactly `Deliver` of the tick messages and reports its abort |
| AlarmSender.SendWhales | telegram/alarm_sender.py:57-59 | the whale loop appends exactly `Deliver` of the whale messages and reports its abort |
| AlarmSender.SendAlarm | telegram/alarm_sender.py:33-43 | one alarm's turn appends exactly `AlarmSweep`'s messages and reports its abort |
| AlarmSender.RunSweep | telegram/alarm_sender.py:32-43 | the loop over alarms appends exactly `SweepOf`'s messages and reports its abort |
| AlarmSender.SendTickAlarm | telegram/alarm_sender.py:29-43 | `send_tick_alarm` appends `SweepOf` over the enabled tick alarms |
| AlarmSender.SendWhaleAlarm | telegram/alarm_sender.py:46-59 | `send_whale_alarm` appends `SweepOf` over the enabled whale alarms |

## Left out

- HTTP requests and URL building, except the Upbit market string. The exchanges' answers are inputs: the `Market` value, `Listing` sequences and raw tick and book payloads.
- The scheduler (`aioschedule`, `asyncio`) and the asynchronous `send_message`. One call of a sweep is one pass, and sending is an append to the outbox.
- Flask routes, the Telegram command handlers and bot setup.
- Message text (`write_tick_msg`, `write_whale_msg`, number and date formatting). Only the side word is modelled.
- Floating point. Prices and quantities are `real`; a float's `str()` is carried as given text.
- Dates. Times are integer milliseconds. Upbit's naive UTC trade time and the local `datetime.now()` are taken to be on the same clock.
- Two Python paths crash at an undefined name: Binance `get_orderbook` in exchange_proxy/proxy.py:212 and the older `get_item` at exchange_proxy.py:168. The first is not modelled. The second is the `NameError` result of `Catalogue.LegacyParseItem`.
- `delete_chat` in database/database.py:264-270 crashes on `.id` of a dictionary key and is not modelled. `is_exists` without a key (database.py:324) is not modelled either.
- SQLite execution, `PRAGMA table_info` and `last_insert_rowid`. Each statement is its effect on the maps, and the AlarmID counter stands for AUTOINCREMENT.
- Text holding a single quote. `to_comparison_value` (database/database.py:49-50) writes text between quotes without escaping it (`Sql.StringLiteralUnescaped`). In the source such text makes the generated INSERT or UPDATE a syntax error, which `execute` (database/database.py:87-91) does not catch, so nothing is stored; text such as `x', ChatID=5, ChannelName='y` even rewrites other columns. The store operations below store the text as given instead.
- Store.Database.AddChannel: stores its text arguments as given, even when one holds a single quote; see the line above.
- Store.Database.UpdateChannelName: stores its text arguments as given, even when one holds a single quote; see the line above.
- Store.Database.AddAlarm: stores its text arguments as given, even when one holds a single quote; see the line above.
- Store.Database.UpdateCurrencyEnglishName: stores its text arguments as given, even when one holds a single quote; see the line above.
- Store.Database.UpdateCurrencyKoreanName: stores its text arguments as given, even when one holds a single quote; see the line above.
- Objects.Chat.AddChannel: stores its text arguments as given, even when one holds a single quote; see the line above.
- Objects.Chat.AddAlarm: stores its text arguments as given, even when one holds a single quote; see the line above.
- Objects.Channel.AddAlarm: stores its text arguments as given, even when one holds a single quote; see the line above.
- Objects.Channel.UpdateName: stores its text arguments as given, even when one holds a single quote; see the line above.
- LegacyStore.AddChannel: stores its text arguments as given, even when one holds a single quote; see the line above.
- LegacyStore.AddAlarm: stores its text arguments as given, even when one holds a single quote; see the line above.
- LegacyStore.UpdateCurrency: stores its text arguments as given, even when one holds a single quote; see the line above.
- The exchanges' answers and the clock. One sweep sees one `Market` value and one clock reading for all its alarms. The source calls `datetime.now()` and the exchanges' HTTP endpoints once per alarm, so later alarms of a pass see a later window and fresh answers.
- Row order of `select`. The statement has no ORDER BY; the model takes SQLite to return a rowid table's rows in rowid order, so alarm lists and sweeps run in AlarmID order.
- The exchange lookup in `write_tick_msg` and `write_whale_msg` (exchange_proxy.py:27 and 78). It raises when exchange 1 or 2 is missing from the Exchange table; the model's sweep has no abort for that, since no operation removes the two exchanges seeded at init_db.py:15-16.
- Extra keyword arguments that the row objects forward to `get_channels` and `get_alarms`.
- `get_object` lists for the Exchange, Chat and Channel tables, and the Currency object. Only the alarm list and integer-keyed objects are modelled.
- `int()` on text with surrounding whitespace or underscores. `Sql.IntOf` accepts only an optional sign followed by digits.
- Other keyword arguments of a validated route: the decorator passes them to the check, where an unexpected one raises `TypeError`. `Validation.Request` holds only `chat_id`, `channel_id` and `alarm_id`.
- AlarmSender.SendTickAlarm and AlarmSender.SendWhaleAlarm: they read the store through one snapshot of its tables, not row by row, because a sweep never changes the store.
- Objects.Alarm.constructor: it does not keep the owning chat or channel object.
- Objects.Alarm.ToDict: the nested `chat` dictionary is left out, because the alarm object does not keep its owner; the item is given as a value, not as `Item.to_dict`.
- `Orderbook.Unit.TotalValue` and `SideWord` are definitions (price times quantity; "매도" for asks) with no separate contract.
- database/exchange.py, exchange_proxy/tick.py and exchange_proxy/item.py are plain records and are not part of this model beyond the `Tick`, `Item` and `Unit` datatypes.
