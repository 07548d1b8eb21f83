/** The row objects of the newer data layer (database/chat.py, database/channel.py,
    database/alarm.py): each holds the store and a primary key, reads its row through the
    store and changes the store through it. A row object is only ever built for a key that
    exists, which the constructors require. */
module Objects {
  import opened Basics
  import opened Store
  import Orderbook

  /** `Chat.to_dict`. */
  datatype ChatDict = ChatDict(id: int, alarmOption: bool)

  /** `Channel.to_dict`. */
  datatype ChannelDict = ChannelDict(id: int, name: string, chat: ChatDict, alarmOption: bool)

  /** `Alarm.to_dict`, with the item as (exchange id, base, quote). */
  datatype AlarmDict = AlarmDict(
    id: int, alarmType: string, item: Orderbook.Item, quantity: real, isEnabled: bool, isChannel: bool)

  /** An alarm whose exchange row is missing cannot build its item. */
  datatype LookupError = ExchangeNotFound

  /** An alarm added for `owner` with a channel flag is listed under that owner, and
      under the owner's channel alarms exactly when the flag is set; no other owner's
      lists change. */
  lemma AddedAlarmListed(alarms: map<int, AlarmRow>, alarmId: int, row: AlarmRow)
    requires alarmId !in alarms
    ensures var after := alarms[alarmId := row];
      AlarmsWithChatId(after, row.chatId) == AlarmsWithChatId(alarms, row.chatId) + {alarmId} &&
      (row.isChannel ==> ChannelAlarmsOf(after, row.chatId) == ChannelAlarmsOf(alarms, row.chatId) + {alarmId}) &&
      (!row.isChannel ==> ChannelAlarmsOf(after, row.chatId) == ChannelAlarmsOf(alarms, row.chatId)) &&
      (forall other :: other != row.chatId ==>
        AlarmsWithChatId(after, other) == AlarmsWithChatId(alarms, other) &&
        ChannelAlarmsOf(after, other) == ChannelAlarmsOf(alarms, other))
  {
  }

  class Chat {
    const db: Database
    const id: int

    constructor (db: Database, chatId: int)
      requires chatId in db.chats
      ensures this.db == db && id == chatId
    {
      this.db := db;
      id := chatId;
    }

    /** `get_alarm_option`. */
    function GetAlarmOption(): bool
      reads db
      requires id in db.chats
    {
      db.chats[id].alarmOption
    }

    /** `get_channels`: the ids of the channels whose ChatID is this chat. */
    function GetChannels(): (ids: set<int>)
      reads db
      ensures forall c :: c in ids <==> c in db.channels && db.channels[c].chatId == id
    {
      ChannelsOf(db.channels, id)
    }

    /** `get_alarms`: the ids of the alarms whose ChatID is this chat, channel alarms
      included should a channel share the id. */
    function GetAlarms(): (ids: set<int>)
      reads db
      ensures forall a :: a in ids <==> a in db.alarms && db.alarms[a].chatId == id
    {
      AlarmsWithChatId(db.alarms, id)
    }

    /** `add_channel`: a channel owned by this chat; refused for an existing channel id. */
    method AddChannel(channelId: int, name: string, alarmOption: bool) returns (r: Result<int, DbError>)
      requires db.Valid()
      modifies db
      ensures db.Valid()
      ensures r.Ok? <==> old(channelId !in db.channels) && old(id in db.chats)
      ensures r.Ok? ==>
        (r.value == channelId && channelId in GetChannels() &&
         db.channels == old(db.channels)[channelId := ChannelRow(name, id, alarmOption)])
      ensures r.Err? ==> db.channels == old(db.channels)
      ensures db.chats == old(db.chats) && db.alarms == old(db.alarms) && db.lastAlarmId == old(db.lastAlarmId)
      ensures db.exchanges == old(db.exchanges) && db.currencies == old(db.currencies)
    {
      r := db.AddChannel(channelId, name, id, alarmOption);
    }

    /** `add_alarm`: an enabled alarm addressed to this chat, not a channel alarm. */
    method AddAlarm(alarmType: string, exchangeId: int, baseSymbol: string, quoteSymbol: string, quantity: real)
      returns (alarmId: int)
      requires db.Valid()
      modifies db
      ensures db.Valid()
      ensures alarmId !in old(db.alarms) && alarmId in GetAlarms()
      ensures db.alarms == old(db.alarms)[alarmId := AlarmRow(alarmType, id, exchangeId, baseSymbol, quoteSymbol, quantity, true, false)]
      ensures db.chats == old(db.chats) && db.channels == old(db.channels)
      ensures db.exchanges == old(db.exchanges) && db.currencies == old(db.currencies)
    {
      alarmId := db.AddAlarm(alarmType, id, exchangeId, baseSymbol, quoteSymbol, quantity, false);
    }

    /** `update_alarm_option`: this chat's AlarmOption and nothing else. */
    method UpdateAlarmOption(alarmOption: bool)
      requires db.Valid()
      modifies db
      ensures db.Valid()
      ensures db.chats == if id in old(db.chats) then old(db.chats)[id := ChatRow(alarmOption)] else old(db.chats)
      ensures db.channels == old(db.channels) && db.alarms == old(db.alarms) && db.lastAlarmId == old(db.lastAlarmId)
      ensures db.exchanges == old(db.exchanges) && db.currencies == old(db.currencies)
    {
      db.UpdateChatAlarmOption(id, alarmOption);
    }

    /** `delete_channel`: only a channel of this chat is deleted (with the alarms addressed
      to it); for any other id nothing changes. */
    method DeleteChannel(channelId: int)
      requires db.Valid()
      modifies db
      ensures db.Valid()
      ensures channelId in old(GetChannels()) ==>
        db.channels == old(db.channels) - {channelId} && db.alarms == DropAlarmsWithChatId(old(db.alarms), channelId)
      ensures channelId !in old(GetChannels()) ==> db.channels == old(db.channels) && db.alarms == old(db.alarms)
      ensures db.chats == old(db.chats) && db.lastAlarmId == old(db.lastAlarmId)
      ensures db.exchanges == old(db.exchanges) && db.currencies == old(db.currencies)
    {
      if channelId in GetChannels() {
        db.DeleteChannel(channelId);
      }
    }

    /** `delete_alarm`: only an alarm addressed to this chat is deleted. */
    method DeleteAlarm(alarmId: int)
      requires db.Valid()
      modifies db
      ensures db.Valid()
      ensures db.alarms == if alarmId in old(GetAlarms()) then old(db.alarms) - {alarmId} else old(db.alarms)
      ensures db.chats == old(db.chats) && db.channels == old(db.channels) && db.lastAlarmId == old(db.lastAlarmId)
      ensures db.exchanges == old(db.exchanges) && db.currencies == old(db.currencies)
    {
      if alarmId in GetAlarms() {
        db.DeleteAlarm(alarmId);
      }
    }

    /** `to_dict`. */
    function ToDict(): (d: ChatDict)
      reads db
      requires id in db.chats
      ensures d.id == id && d.alarmOption == db.chats[id].alarmOption
    {
      ChatDict(id, GetAlarmOption())
    }
  }

  class Channel {
    const db: Database
    const id: int
    const chat: Chat

    constructor (db: Database, channelId: int, chat: Chat)
      requires channelId in db.channels
      ensures this.db == db && id == channelId && this.chat == chat
    {
      this.db := db;
      id := channelId;
      this.chat := chat;
    }

    /** `get_alarm_option`. */
    function GetAlarmOption(): bool
      reads db
      requires id in db.channels
    {
      db.channels[id].alarmOption
    }

    /** `get_name`. */
    function GetName(): string
      reads db
      requires id in db.channels
    {
      db.channels[id].name
    }

    /** `get_alarms`: the alarms addressed to this channel and flagged as channel alarms. */
    function GetAlarms(): (ids: set<int>)
      reads db
      ensures forall a :: a in ids <==> a in db.alarms && db.alarms[a].chatId == id && db.alarms[a].isChannel
    {
      ChannelAlarmsOf(db.alarms, id)
    }

    /** `add_alarm`: an enabled channel alarm addressed to this channel, listed from then on
      by `get_alarms`. */
    method AddAlarm(alarmType: string, exchangeId: int, baseSymbol: string, quoteSymbol: string, quantity: real)
      returns (alarmId: int)
      requires db.Valid()
      modifies db
      ensures db.Valid()
      ensures alarmId !in old(db.alarms) && alarmId in GetAlarms()
      ensures GetAlarms() == old(GetAlarms()) + {alarmId}
      ensures db.alarms == old(db.alarms)[alarmId := AlarmRow(alarmType, id, exchangeId, baseSymbol, quoteSymbol, quantity, true, true)]
      ensures db.chats == old(db.chats) && db.channels == old(db.channels)
      ensures db.exchanges == old(db.exchanges) && db.currencies == old(db.currencies)
    {
      alarmId := db.AddAlarm(alarmType, id, exchangeId, baseSymbol, quoteSymbol, quantity, true);
      AddedAlarmListed(old(db.alarms), alarmId, AlarmRow(alarmType, id, exchangeId, baseSymbol, quoteSymbol, quantity, true, true));
    }

    /** `update_alarm_option`: this channel's AlarmOption and nothing else. */
    method UpdateAlarmOption(alarmOption: bool)
      requires db.Valid()
      modifies db
      ensures db.Valid()
      ensures db.channels == if id in old(db.channels) then old(db.channels)[id := old(db.channels)[id].(alarmOption := alarmOption)] else old(db.channels)
      ensures db.chats == old(db.chats) && db.alarms == old(db.alarms) && db.lastAlarmId == old(db.lastAlarmId)
      ensures db.exchanges == old(db.exchanges) && db.currencies == old(db.currencies)
    {
      db.UpdateChannelAlarmOption(id, alarmOption);
    }

    /** `update_name`: this channel's ChannelName and nothing else. */
    method UpdateName(name: string)
      requires db.Valid()
      modifies db
      ensures db.Valid()
      ensures db.channels == if id in old(db.channels) then old(db.channels)[id := old(db.channels)[id].(name := name)] else old(db.channels)
      ensures db.chats == old(db.chats) && db.alarms == old(db.alarms) && db.lastAlarmId == old(db.lastAlarmId)
      ensures db.exchanges == old(db.exchanges) && db.currencies == old(db.currencies)
    {
      db.UpdateChannelName(id, name);
    }

    /** `to_dict`, with the owning chat's dictionary. */
    function ToDict(): (d: ChannelDict)
      reads db, chat.db
      requires id in db.channels && chat.id in chat.db.chats
      ensures d.id == id && d.name == db.channels[id].name && d.alarmOption == db.channels[id].alarmOption
      ensures d.chat == ChatDict(chat.id, chat.db.chats[chat.id].alarmOption)
    {
      ChannelDict(id, GetName(), chat.ToDict(), GetAlarmOption())
    }
  }

  class Alarm {
    const db: Database
    const id: int

    constructor (db: Database, alarmId: int)
      requires alarmId in db.alarms
      ensures this.db == db && id == alarmId
    {
      this.db := db;
      id := alarmId;
    }

    /** `get_item`: the row's exchange and symbols; the exchange row must exist. */
    function GetItem(): (r: Result<Orderbook.Item, LookupError>)
      reads db
      requires id in db.alarms
      ensures r.Ok? <==> db.alarms[id].exchangeId in db.exchanges
      ensures r.Ok? ==> r.value == Orderbook.Item(db.alarms[id].exchangeId, db.alarms[id].baseSymbol, db.alarms[id].quoteSymbol)
    {
      var row := db.alarms[id];
      if row.exchangeId in db.exchanges then Ok(Orderbook.Item(row.exchangeId, row.baseSymbol, row.quoteSymbol))
      else Err(ExchangeNotFound)
    }

    /** `update_quantity`: this alarm's AlarmQuantity and nothing else. */
    method UpdateQuantity(quantity: real)
      requires db.Valid()
      modifies db
      ensures db.Valid()
      ensures db.alarms == if id in old(db.alarms) then old(db.alarms)[id := old(db.alarms)[id].(quantity := quantity)] else old(db.alarms)
      ensures db.chats == old(db.chats) && db.channels == old(db.channels) && db.lastAlarmId == old(db.lastAlarmId)
      ensures db.exchanges == old(db.exchanges) && db.currencies == old(db.currencies)
    {
      db.UpdateAlarmQuantity(id, quantity);
    }

    /** `update_enabled`: this alarm's IsEnabled and nothing else. */
    method UpdateEnabled(enabled: bool)
      requires db.Valid()
      modifies db
      ensures db.Valid()
      ensures db.alarms == if id in old(db.alarms) then old(db.alarms)[id := old(db.alarms)[id].(isEnabled := enabled)] else old(db.alarms)
      ensures db.chats == old(db.chats) && db.channels == old(db.channels) && db.lastAlarmId == old(db.lastAlarmId)
      ensures db.exchanges == old(db.exchanges) && db.currencies == old(db.currencies)
    {
      db.UpdateAlarmEnabled(id, enabled);
    }

    /** `to_dict`: type, item, quantity and the two flags exactly as stored. */
    function ToDict(): (r: Result<AlarmDict, LookupError>)
      reads db
      requires id in db.alarms
      ensures r.Ok? <==> GetItem().Ok?
      ensures r.Ok? ==> var row := db.alarms[id];
        r.value.id == id && r.value.alarmType == row.alarmType && r.value.quantity == row.quantity &&
        r.value.isEnabled == row.isEnabled && r.value.isChannel == row.isChannel &&
        r.value.item == Orderbook.Item(row.exchangeId, row.baseSymbol, row.quoteSymbol)
    {
      var row := db.alarms[id];
      match GetItem()
      case Err(e) => Err(e)
      case Ok(item) => Ok(AlarmDict(id, row.alarmType, item, row.quantity, row.isEnabled, row.isChannel))
    }
  }
}
