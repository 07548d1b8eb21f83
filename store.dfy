/** The subscription store: the Exchange, Currency, Chat, Channel and Alarm tables of the
    service's SQLite file (init_db.py), held as maps from primary key to row, and the
    operations of the newer `Database` class (database/database.py) on them. SQL text is
    modelled separately in `Sql`; here each statement is its effect on the tables. */
module Store {
  import opened Basics

  datatype ExchangeRow = ExchangeRow(name: string, endpoint: string)

  /** A cached currency; a name column is `None` until it is filled in. */
  datatype CurrencyRow = CurrencyRow(englishName: Option<string>, koreanName: Option<string>)

  datatype ChatRow = ChatRow(alarmOption: bool)

  /** A channel belongs to the chat in `chatId` (a foreign key into Chat). */
  datatype ChannelRow = ChannelRow(name: string, chatId: int, alarmOption: bool)

  /** An alarm rule. `chatId` holds the recipient: a chat id, or a channel id when
      `isChannel` is set. */
  datatype AlarmRow = AlarmRow(
    alarmType: string, chatId: int, exchangeId: int, baseSymbol: string, quoteSymbol: string,
    quantity: real, isEnabled: bool, isChannel: bool)

  /** `ExistingDataError`, and the integrity error SQLite raises for a channel whose chat
      does not exist (foreign keys are switched on before every statement). */
  datatype DbError = ExistingData | ForeignKeyViolation

  /** Optional column filters on alarms, as the keyword arguments of `get_alarms`; `None`
      accepts any value. */
  datatype AlarmFilter = AlarmFilter(
    alarmType: Option<string>, chatId: Option<int>, exchangeId: Option<int>,
    baseSymbol: Option<string>, quoteSymbol: Option<string>, quantity: Option<real>,
    isEnabled: Option<bool>, isChannel: Option<bool>)

  /** The filter that accepts every alarm. */
  const AnyAlarm := AlarmFilter(None, None, None, None, None, None, None, None)

  predicate AlarmMatches(row: AlarmRow, f: AlarmFilter)
  {
    (f.alarmType.None? || row.alarmType == f.alarmType.value) &&
    (f.chatId.None? || row.chatId == f.chatId.value) &&
    (f.exchangeId.None? || row.exchangeId == f.exchangeId.value) &&
    (f.baseSymbol.None? || row.baseSymbol == f.baseSymbol.value) &&
    (f.quoteSymbol.None? || row.quoteSymbol == f.quoteSymbol.value) &&
    (f.quantity.None? || row.quantity == f.quantity.value) &&
    (f.isEnabled.None? || row.isEnabled == f.isEnabled.value) &&
    (f.isChannel.None? || row.isChannel == f.isChannel.value)
  }

  /** The ids of the alarms up to `n` that pass a filter, in ascending id order (the order
      in which SQLite returns the rows of a rowid table). */
  function OrderedAlarmIds(alarms: map<int, AlarmRow>, n: nat, f: AlarmFilter): (r: seq<int>)
    ensures forall i, j :: 0 <= i < j < |r| ==> r[i] < r[j]
    ensures forall id :: id in r <==> 1 <= id <= n && id in alarms && AlarmMatches(alarms[id], f)
  {
    if n == 0 then []
    else
      var prev := OrderedAlarmIds(alarms, n - 1, f);
      assert forall i :: 0 <= i < |prev| ==> prev[i] in prev;
      if n in alarms && AlarmMatches(alarms[n], f) then prev + [n] else prev
  }

  /** `get_channels(chat_id=...)`: the channels that belong to a chat. */
  function ChannelsOf(channels: map<int, ChannelRow>, chatId: int): set<int>
  {
    set id | id in channels && channels[id].chatId == chatId
  }

  /** `get_alarms(chat_id=...)`: the alarms whose ChatID is the given id, whatever their
      IsChannel flag. */
  function AlarmsWithChatId(alarms: map<int, AlarmRow>, chatId: int): set<int>
  {
    set id | id in alarms && alarms[id].chatId == chatId
  }

  /** `get_alarms(chat_id=..., is_channel=True)`: the alarms of a channel. */
  function ChannelAlarmsOf(alarms: map<int, AlarmRow>, channelId: int): set<int>
  {
    set id | id in alarms && alarms[id].chatId == channelId && alarms[id].isChannel
  }

  /** The Alarm table after `DELETE FROM Alarm WHERE ChatID=<id>`. */
  function DropAlarmsWithChatId(alarms: map<int, AlarmRow>, chatId: int): map<int, AlarmRow>
  {
    map id | id in alarms && alarms[id].chatId != chatId :: alarms[id]
  }

  /** Deleting by ChatID removes every alarm addressed to that id (chat alarms included, as
      the statement does not look at IsChannel), keeps every other alarm unchanged, and
      leaves the alarm lists of every other id as they were. */
  lemma DropAlarmsWithChatIdSpec(alarms: map<int, AlarmRow>, chatId: int)
    ensures var rest := DropAlarmsWithChatId(alarms, chatId);
      (forall id :: id in rest <==> id in alarms && alarms[id].chatId != chatId) &&
      (forall id :: id in rest ==> rest[id] == alarms[id]) &&
      AlarmsWithChatId(rest, chatId) == {} && ChannelAlarmsOf(rest, chatId) == {} &&
      (forall other :: other != chatId ==>
        AlarmsWithChatId(rest, other) == AlarmsWithChatId(alarms, other) &&
        ChannelAlarmsOf(rest, other) == ChannelAlarmsOf(alarms, other))
  {
  }

  /** A channel's alarms are among the alarms addressed to its id. */
  lemma ChannelAlarmsWithinChatId(alarms: map<int, AlarmRow>, channelId: int)
    ensures ChannelAlarmsOf(alarms, channelId) <= AlarmsWithChatId(alarms, channelId)
  {
  }

  /** `is_channel`: `False` for a chat, `True` for a channel that is not also a chat, and
      no answer (`None`) for an unknown id. */
  function IsChannelOf(chats: map<int, ChatRow>, channels: map<int, ChannelRow>, id: int): (r: Option<bool>)
    ensures r == Some(false) <==> id in chats
    ensures r == Some(true) <==> id !in chats && id in channels
    ensures r.None? <==> id !in chats && id !in channels
  {
    if id in chats then Some(false)
    else if id in channels then Some(true)
    else None
  }

  /** The contents of the tables at one moment, as a value. */
  datatype Tables = Tables(
    exchanges: map<int, ExchangeRow>, currencies: map<string, CurrencyRow>, chats: map<int, ChatRow>,
    channels: map<int, ChannelRow>, alarms: map<int, AlarmRow>, lastAlarmId: nat)

  /** Every channel's chat exists, and every alarm id was handed out by the counter. */
  predicate Consistent(t: Tables)
  {
    (forall id :: id in t.channels ==> t.channels[id].chatId in t.chats) &&
    (forall id :: id in t.alarms ==> 1 <= id <= t.lastAlarmId)
  }

  /** The tables, with the AUTOINCREMENT counter of Alarm. */
  class Database {
    var exchanges: map<int, ExchangeRow>
    var currencies: map<string, CurrencyRow>
    var chats: map<int, ChatRow>
    var channels: map<int, ChannelRow>
    var alarms: map<int, AlarmRow>
    /** The largest AlarmID ever handed out. */
    var lastAlarmId: nat

    /** The current contents of the tables. */
    function Snapshot(): (t: Tables)
      reads this
      ensures t.exchanges == exchanges && t.currencies == currencies && t.chats == chats
      ensures t.channels == channels && t.alarms == alarms && t.lastAlarmId == lastAlarmId
    {
      Tables(exchanges, currencies, chats, channels, alarms, lastAlarmId)
    }

    /** The tables are consistent. */
    ghost predicate Valid()
      reads this
    {
      Consistent(Snapshot())
    }

    /** A freshly initialised file: the two exchanges and empty tables. */
    constructor ()
      ensures Valid()
      ensures exchanges == map[1 := ExchangeRow("업비트", "/upbit"), 2 := ExchangeRow("바이낸스", "/binance")]
      ensures currencies == map[] && chats == map[] && channels == map[] && alarms == map[]
      ensures lastAlarmId == 0
    {
      exchanges := map[1 := ExchangeRow("업비트", "/upbit"), 2 := ExchangeRow("바이낸스", "/binance")];
      currencies := map[];
      chats := map[];
      channels := map[];
      alarms := map[];
      lastAlarmId := 0;
    }

    /** `is_channel`. */
    function IsChannel(id: int): Option<bool>
      reads this
    {
      IsChannelOf(chats, channels, id)
    }

    /** `add_chat`: an existing id is refused; otherwise the chat is stored with the given
      option and its id returned. */
    method AddChat(chatId: int, alarmOption: bool) returns (r: Result<int, DbError>)
      requires Valid()
      modifies this
      ensures Valid()
      ensures old(chatId in chats) ==> r == Err(ExistingData) && chats == old(chats)
      ensures old(chatId !in chats) ==> r == Ok(chatId) && chats == old(chats)[chatId := ChatRow(alarmOption)]
      ensures channels == old(channels) && alarms == old(alarms) && lastAlarmId == old(lastAlarmId)
      ensures exchanges == old(exchanges) && currencies == old(currencies)
    {
      if chatId in chats {
        return Err(ExistingData);
      }
      chats := chats[chatId := ChatRow(alarmOption)];
      return Ok(chatId);
    }

    /** `add_channel`: an existing id is refused, and so (by the foreign key) is a channel
      whose chat does not exist; otherwise the channel is stored and its id returned. */
    method AddChannel(channelId: int, name: string, chatId: int, alarmOption: bool) returns (r: Result<int, DbError>)
      requires Valid()
      modifies this
      ensures Valid()
      ensures old(channelId in channels) ==> r == Err(ExistingData) && channels == old(channels)
      ensures old(channelId !in channels) && old(chatId !in chats) ==> r == Err(ForeignKeyViolation) && channels == old(channels)
      ensures old(channelId !in channels) && old(chatId in chats) ==>
        r == Ok(channelId) && channels == old(channels)[channelId := ChannelRow(name, chatId, alarmOption)]
      ensures chats == old(chats) && alarms == old(alarms) && lastAlarmId == old(lastAlarmId)
      ensures exchanges == old(exchanges) && currencies == old(currencies)
    {
      if channelId in channels {
        return Err(ExistingData);
      }
      if chatId !in chats {
        return Err(ForeignKeyViolation);
      }
      channels := channels[channelId := ChannelRow(name, chatId, alarmOption)];
      return Ok(channelId);
    }

    /** `add_alarm`: the alarm is stored enabled under the next AlarmID, which is returned. */
    method AddAlarm(alarmType: string, chatId: int, exchangeId: int, baseSymbol: string, quoteSymbol: string,
                    quantity: real, isChannel: bool) returns (alarmId: int)
      requires Valid()
      modifies this
      ensures Valid()
      ensures alarmId == old(lastAlarmId) + 1 && lastAlarmId == alarmId && alarmId !in old(alarms)
      ensures alarms == old(alarms)[alarmId := AlarmRow(alarmType, chatId, exchangeId, baseSymbol, quoteSymbol, quantity, true, isChannel)]
      ensures chats == old(chats) && channels == old(channels)
      ensures exchanges == old(exchanges) && currencies == old(currencies)
    {
      lastAlarmId := lastAlarmId + 1;
      alarmId := lastAlarmId;
      alarms := alarms[alarmId := AlarmRow(alarmType, chatId, exchangeId, baseSymbol, quoteSymbol, quantity, true, isChannel)];
    }

    /** `delete_channel`: the alarms addressed to the channel's id go first, then the channel. */
    method DeleteChannel(channelId: int)
      requires Valid()
      modifies this
      ensures Valid()
      ensures alarms == DropAlarmsWithChatId(old(alarms), channelId)
      ensures channels == old(channels) - {channelId}
      ensures chats == old(chats) && lastAlarmId == old(lastAlarmId)
      ensures exchanges == old(exchanges) && currencies == old(currencies)
    {
      alarms := DropAlarmsWithChatId(alarms, channelId);
      channels := channels - {channelId};
    }

    /** `delete_alarm`: that alarm only. */
    method DeleteAlarm(alarmId: int)
      requires Valid()
      modifies this
      ensures Valid()
      ensures alarms == old(alarms) - {alarmId}
      ensures chats == old(chats) && channels == old(channels) && lastAlarmId == old(lastAlarmId)
      ensures exchanges == old(exchanges) && currencies == old(currencies)
    {
      alarms := alarms - {alarmId};
    }

    /** `update('Chat', id, AlarmOption=...)`: an UPDATE of a missing row changes nothing. */
    method UpdateChatAlarmOption(chatId: int, alarmOption: bool)
      requires Valid()
      modifies this
      ensures Valid()
      ensures chats == if chatId in old(chats) then old(chats)[chatId := ChatRow(alarmOption)] else old(chats)
      ensures channels == old(channels) && alarms == old(alarms) && lastAlarmId == old(lastAlarmId)
      ensures exchanges == old(exchanges) && currencies == old(currencies)
    {
      if chatId in chats {
        chats := chats[chatId := ChatRow(alarmOption)];
      }
    }

    /** `update('Channel', id, AlarmOption=...)`. */
    method UpdateChannelAlarmOption(channelId: int, alarmOption: bool)
      requires Valid()
      modifies this
      ensures Valid()
      ensures channels == if channelId in old(channels) then old(channels)[channelId := old(channels)[channelId].(alarmOption := alarmOption)] else old(channels)
      ensures chats == old(chats) && alarms == old(alarms) && lastAlarmId == old(lastAlarmId)
      ensures exchanges == old(exchanges) && currencies == old(currencies)
    {
      if channelId in channels {
        channels := channels[channelId := channels[channelId].(alarmOption := alarmOption)];
      }
    }

    /** `update('Channel', id, ChannelName=...)`. */
    method UpdateChannelName(channelId: int, name: string)
      requires Valid()
      modifies this
      ensures Valid()
      ensures channels == if channelId in old(channels) then old(channels)[channelId := old(channels)[channelId].(name := name)] else old(channels)
      ensures chats == old(chats) && alarms == old(alarms) && lastAlarmId == old(lastAlarmId)
      ensures exchanges == old(exchanges) && currencies == old(currencies)
    {
      if channelId in channels {
        channels := channels[channelId := channels[channelId].(name := name)];
      }
    }

    /** `update('Alarm', id, AlarmQuantity=...)`. */
    method UpdateAlarmQuantity(alarmId: int, quantity: real)
      requires Valid()
      modifies this
      ensures Valid()
      ensures alarms == if alarmId in old(alarms) then old(alarms)[alarmId := old(alarms)[alarmId].(quantity := quantity)] else old(alarms)
      ensures chats == old(chats) && channels == old(channels) && lastAlarmId == old(lastAlarmId)
      ensures exchanges == old(exchanges) && currencies == old(currencies)
    {
      if alarmId in alarms {
        alarms := alarms[alarmId := alarms[alarmId].(quantity := quantity)];
      }
    }

    /** `update('Alarm', id, IsEnabled=...)`. */
    method UpdateAlarmEnabled(alarmId: int, enabled: bool)
      requires Valid()
      modifies this
      ensures Valid()
      ensures alarms == if alarmId in old(alarms) then old(alarms)[alarmId := old(alarms)[alarmId].(isEnabled := enabled)] else old(alarms)
      ensures chats == old(chats) && channels == old(channels) && lastAlarmId == old(lastAlarmId)
      ensures exchanges == old(exchanges) && currencies == old(currencies)
    {
      if alarmId in alarms {
        alarms := alarms[alarmId := alarms[alarmId].(isEnabled := enabled)];
      }
    }

    /** `update('Currency', symbol, EnglishName=...)`. */
    method UpdateCurrencyEnglishName(symbol: string, englishName: string)
      requires Valid()
      modifies this
      ensures Valid()
      ensures currencies == if symbol in old(currencies) then old(currencies)[symbol := old(currencies)[symbol].(englishName := Some(englishName))] else old(currencies)
      ensures chats == old(chats) && channels == old(channels) && alarms == old(alarms) && lastAlarmId == old(lastAlarmId)
      ensures exchanges == old(exchanges)
    {
      if symbol in currencies {
        currencies := currencies[symbol := currencies[symbol].(englishName := Some(englishName))];
      }
    }

    /** `update('Currency', symbol, KoreanName=...)`. */
    method UpdateCurrencyKoreanName(symbol: string, koreanName: string)
      requires Valid()
      modifies this
      ensures Valid()
      ensures currencies == if symbol in old(currencies) then old(currencies)[symbol := old(currencies)[symbol].(koreanName := Some(koreanName))] else old(currencies)
      ensures chats == old(chats) && channels == old(channels) && alarms == old(alarms) && lastAlarmId == old(lastAlarmId)
      ensures exchanges == old(exchanges)
    {
      if symbol in currencies {
        currencies := currencies[symbol := currencies[symbol].(koreanName := Some(koreanName))];
      }
    }
  }
}
