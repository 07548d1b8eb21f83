/** The older `Database` class of database.py over the same tables: primary keys pass
    through Python's `int()` before a row is looked up, lookups without a key return every
    matching row in table order, and the inserts raise `ExistingChatError` instead of the
    newer `ExistingDataError`. */
module LegacyStore {
  import opened Basics
  import opened Text
  import opened Sql
  import opened Store

  /** `InvalidPrimaryKeyError`, `ValueNotFoundInDatabaseError`, `ExistingChatError` and the
      integrity error SQLite raises for a channel whose chat does not exist. */
  datatype LegacyError = InvalidPrimaryKey | ValueNotFound | ExistingChat | IntegrityError

  /** The tables whose objects take an integer primary key. */
  datatype Table = ExchangeTable | ChatTable | ChannelTable | AlarmTable

  predicate KeyExists(t: Tables, table: Table, key: int)
  {
    match table
    case ExchangeTable => key in t.exchanges
    case ChatTable => key in t.chats
    case ChannelTable => key in t.channels
    case AlarmTable => key in t.alarms
  }

  /** Building an `Exchange`, `Chat`, `Channel` or `Alarm` object: the key is converted with
      `int()`, which raises `InvalidPrimaryKeyError` when it fails, and the row must exist, or
      `ValueNotFoundInDatabaseError` is raised. The object's id is the converted key. */
  function ObjectId(t: Tables, table: Table, key: PyValue): (r: Result<int, LegacyError>)
    ensures r == Err(InvalidPrimaryKey) <==> IntOf(key).None?
    ensures r == Err(ValueNotFound) <==> IntOf(key).Some? && !KeyExists(t, table, IntOf(key).value)
    ensures r.Ok? ==> IntOf(key) == Some(r.value) && KeyExists(t, table, r.value)
  {
    match IntOf(key)
    case None => Err(InvalidPrimaryKey)
    case Some(id) => if KeyExists(t, table, id) then Ok(id) else Err(ValueNotFound)
  }

  /** An id given as a Python integer, or as the text `str()` makes of it, names the same
      object, which exists exactly when its row does; `None` is never a valid key. */
  lemma ObjectIdForms(t: Tables, table: Table, id: int)
    ensures ObjectId(t, table, PyInt(id)) == ObjectId(t, table, PyStr(IntToString(id)))
    ensures ObjectId(t, table, PyInt(id)) == if KeyExists(t, table, id) then Ok(id) else Err(ValueNotFound)
    ensures ObjectId(t, table, PyNone) == Err(InvalidPrimaryKey)
  {
    IntOfSpec(id, 0.0, "");
  }

  /** The answer of `get_object`: one object when a key was given, else a list. */
  datatype Lookup = One(id: int) | Many(ids: seq<int>)

  /** `get_alarm`: with an alarm id, that alarm's object; without one, one object per alarm
      that passes every given filter, in AlarmID order (the order of the result set). */
  function GetAlarm(t: Tables, alarmId: PyValue, f: AlarmFilter): (r: Result<Lookup, LegacyError>)
    ensures alarmId.PyNone? ==> r.Ok? && r.value.Many?
    ensures !alarmId.PyNone? ==> (r.Ok? ==> r.value.One?) && (r.Ok? <==> ObjectId(t, AlarmTable, alarmId).Ok?)
    ensures r.Ok? && r.value.One? ==> r.value.id in t.alarms
    ensures !alarmId.PyNone? && r.Ok? ==> r.value == One(IntOf(alarmId).value)
    ensures !alarmId.PyNone? && r.Err? ==> r.error == ObjectId(t, AlarmTable, alarmId).error
  {
    if alarmId.PyNone? then Ok(Many(OrderedAlarmIds(t.alarms, t.lastAlarmId, f)))
    else
      match ObjectId(t, AlarmTable, alarmId)
      case Err(e) => Err(e)
      case Ok(id) => Ok(One(id))
  }

  /** The list form of `get_alarm` holds exactly the existing alarms that pass the filter,
      each once, in ascending id order. */
  lemma GetAlarmList(t: Tables, f: AlarmFilter)
    requires Consistent(t)
    ensures GetAlarm(t, PyNone, f).Ok?
    ensures var ids := GetAlarm(t, PyNone, f).value.ids;
      (forall i, j :: 0 <= i < j < |ids| ==> ids[i] < ids[j]) &&
      (forall id :: id in ids <==> id in t.alarms && AlarmMatches(t.alarms[id], f))
  {
  }

  /** `Alarm.get_chat(...).id`: the alarm's ChatID, looked up as a `Channel` when the alarm is
      a channel alarm and as a `Chat` otherwise; the lookup fails when that row is missing. */
  function LegacyRecipient(t: Tables, alarmId: int): (r: Result<int, LegacyError>)
    requires alarmId in t.alarms
    ensures r.Ok? ==> r.value == t.alarms[alarmId].chatId
    ensures r.Ok? <==>
      if t.alarms[alarmId].isChannel then t.alarms[alarmId].chatId in t.channels
      else t.alarms[alarmId].chatId in t.chats
    ensures r.Err? ==> r.error == ValueNotFound
  {
    var row := t.alarms[alarmId];
    ObjectId(t, if row.isChannel then ChannelTable else ChatTable, PyInt(row.chatId))
  }

  /** The older `add_chat`: an existing chat raises `ExistingChatError`; otherwise only the
      ChatID is inserted, so the row takes the column default (alarms on) whatever option the
      caller passed. */
  method AddChat(db: Database, chatId: int, alarmOption: bool) returns (r: Result<int, LegacyError>)
    requires db.Valid()
    modifies db
    ensures db.Valid()
    ensures old(chatId in db.chats) ==> r == Err(ExistingChat) && db.chats == old(db.chats)
    ensures old(chatId !in db.chats) ==> r == Ok(chatId) && db.chats == old(db.chats)[chatId := ChatRow(true)]
    ensures db.channels == old(db.channels) && db.alarms == old(db.alarms) && db.lastAlarmId == old(db.lastAlarmId)
    ensures db.exchanges == old(db.exchanges) && db.currencies == old(db.currencies)
  {
    var added := db.AddChat(chatId, true);
    if added.Err? {
      return Err(ExistingChat);
    }
    return Ok(chatId);
  }

  /** The older `add_channel`: an existing channel raises `ExistingChatError`, a missing chat
      the foreign-key integrity error; otherwise the channel is stored with the given option. */
  method AddChannel(db: Database, channelId: int, name: string, chatId: int, alarmOption: bool)
    returns (r: Result<int, LegacyError>)
    requires db.Valid()
    modifies db
    ensures db.Valid()
    ensures old(channelId in db.channels) ==> r == Err(ExistingChat) && db.channels == old(db.channels)
    ensures old(channelId !in db.channels) && old(chatId !in db.chats) ==>
      r == Err(IntegrityError) && db.channels == old(db.channels)
    ensures old(channelId !in db.channels) && old(chatId in db.chats) ==>
      r == Ok(channelId) && db.channels == old(db.channels)[channelId := ChannelRow(name, chatId, alarmOption)]
    ensures db.chats == old(db.chats) && db.alarms == old(db.alarms) && db.lastAlarmId == old(db.lastAlarmId)
    ensures db.exchanges == old(db.exchanges) && db.currencies == old(db.currencies)
  {
    var added := db.AddChannel(channelId, name, chatId, alarmOption);
    match added
    case Ok(id) => r := Ok(id);
    case Err(e) => r := if e == ExistingData then Err(ExistingChat) else Err(IntegrityError);
  }

  /** The older `add_alarm`: the alarm is stored enabled with the given channel flag under the
      next AlarmID; nothing is returned. */
  method AddAlarm(db: Database, alarmType: string, chatId: int, exchangeId: int, baseSymbol: string,
                  quoteSymbol: string, quantity: real, isChannel: bool)
    requires db.Valid()
    modifies db
    ensures db.Valid()
    ensures db.lastAlarmId == old(db.lastAlarmId) + 1 && db.lastAlarmId !in old(db.alarms)
    ensures db.alarms == old(db.alarms)[db.lastAlarmId := AlarmRow(alarmType, chatId, exchangeId, baseSymbol, quoteSymbol, quantity, true, isChannel)]
    ensures db.chats == old(db.chats) && db.channels == old(db.channels)
    ensures db.exchanges == old(db.exchanges) && db.currencies == old(db.currencies)
  {
    var _ := db.AddAlarm(alarmType, chatId, exchangeId, baseSymbol, quoteSymbol, quantity, isChannel);
  }

  /** The Currency table after `update_currency`: each name column that was passed is set, a
      column passed as `None` is left alone, and a symbol with no row changes nothing. */
  function UpdatedCurrencies(currencies: map<string, CurrencyRow>, symbol: string,
                             englishName: Option<string>, koreanName: Option<string>): (r: map<string, CurrencyRow>)
    ensures r.Keys == currencies.Keys
    ensures forall s :: s in r && s != symbol ==> r[s] == currencies[s]
    ensures symbol in r ==>
      r[symbol].englishName == (if englishName.Some? then englishName else currencies[symbol].englishName) &&
      r[symbol].koreanName == (if koreanName.Some? then koreanName else currencies[symbol].koreanName)
  {
    if symbol !in currencies then currencies
    else
      var row := currencies[symbol];
      currencies[symbol := CurrencyRow(
        if englishName.Some? then englishName else row.englishName,
        if koreanName.Some? then koreanName else row.koreanName)]
  }

  /** Updating with no names changes nothing, and updating twice with the same names is the
      same as updating once. */
  lemma UpdatedCurrenciesIdempotent(currencies: map<string, CurrencyRow>, symbol: string,
                                    englishName: Option<string>, koreanName: Option<string>)
    ensures UpdatedCurrencies(currencies, symbol, None, None) == currencies
    ensures var once := UpdatedCurrencies(currencies, symbol, englishName, koreanName);
      UpdatedCurrencies(once, symbol, englishName, koreanName) == once
  {
  }

  /** `update_currency`: two separate UPDATE statements, each issued only for a name that is
      not `None`. */
  method UpdateCurrency(db: Database, symbol: string, englishName: Option<string>, koreanName: Option<string>)
    requires db.Valid()
    modifies db
    ensures db.Valid()
    ensures db.currencies == UpdatedCurrencies(old(db.currencies), symbol, englishName, koreanName)
    ensures db.chats == old(db.chats) && db.channels == old(db.channels) && db.alarms == old(db.alarms)
    ensures db.lastAlarmId == old(db.lastAlarmId) && db.exchanges == old(db.exchanges)
  {
    if englishName.Some? {
      db.UpdateCurrencyEnglishName(symbol, englishName.value);
    }
    if koreanName.Some? {
      db.UpdateCurrencyKoreanName(symbol, koreanName.value);
    }
  }
}
