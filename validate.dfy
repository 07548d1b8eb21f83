/** The request validator of server/validate.py: four checks that a chat, a channel of that
    chat, or an alarm of either exists, and the decorator that picks one of them from the
    request's arguments before letting the route handler run. */
module Validation {
  import opened Basics
  import opened Text
  import opened Sql
  import opened Store

  const ChatMissing := "존재하지 않는 채팅"
  const ChannelMissing := "존재하지 않는 채널"
  const AlarmMissing := "존재하지 않는 알림"

  /** The `(is_valid, error_message)` pair every check returns. */
  datatype Verdict = Verdict(ok: bool, message: string)

  const Pass := Verdict(true, "")

  /** `validate_chat`: the chat must exist. */
  function ValidateChat(db: Database, chatId: int): (v: Verdict)
    reads db
    ensures v.ok <==> chatId in db.chats
    ensures v == if v.ok then Pass else Verdict(false, ChatMissing)
  {
    if chatId !in db.chats then Verdict(false, ChatMissing) else Pass
  }

  /** `validate_channel`: the chat must exist, then the channel must be one of its
      channels; a missing chat is reported first. */
  function ValidateChannel(db: Database, chatId: int, channelId: int): (v: Verdict)
    reads db
    ensures v.ok <==> chatId in db.chats && channelId in db.channels && db.channels[channelId].chatId == chatId
    ensures chatId !in db.chats ==> v == Verdict(false, ChatMissing)
    ensures chatId in db.chats && !v.ok ==> v == Verdict(false, ChannelMissing)
    ensures v.ok ==> v == Pass
  {
    var chat := ValidateChat(db, chatId);
    if !chat.ok then chat
    else if channelId !in ChannelsOf(db.channels, chatId) then Verdict(false, ChannelMissing)
    else Pass
  }

  /** `validate_chat_alarm`: the chat must exist, then the alarm must be one whose ChatID is
      the chat. */
  function ValidateChatAlarm(db: Database, chatId: int, alarmId: int): (v: Verdict)
    reads db
    ensures v.ok <==> chatId in db.chats && alarmId in db.alarms && db.alarms[alarmId].chatId == chatId
    ensures chatId !in db.chats ==> v == Verdict(false, ChatMissing)
    ensures chatId in db.chats && !v.ok ==> v == Verdict(false, AlarmMissing)
    ensures v.ok ==> v == Pass
  {
    var chat := ValidateChat(db, chatId);
    if !chat.ok then chat
    else if alarmId !in AlarmsWithChatId(db.alarms, chatId) then Verdict(false, AlarmMissing)
    else Pass
  }

  /** `validate_channel_alarm`: the channel must pass `validate_channel`, then the alarm must
      be one of the channel's channel alarms. */
  function ValidateChannelAlarm(db: Database, chatId: int, channelId: int, alarmId: int): (v: Verdict)
    reads db
    ensures v.ok <==>
      (ValidateChannel(db, chatId, channelId).ok &&
       alarmId in db.alarms && db.alarms[alarmId].chatId == channelId && db.alarms[alarmId].isChannel)
    ensures !ValidateChannel(db, chatId, channelId).ok ==> v == ValidateChannel(db, chatId, channelId)
    ensures ValidateChannel(db, chatId, channelId).ok && !v.ok ==> v == Verdict(false, AlarmMissing)
    ensures v.ok ==> v == Pass
  {
    var channel := ValidateChannel(db, chatId, channelId);
    if !channel.ok then channel
    else if alarmId !in ChannelAlarmsOf(db.alarms, channelId) then Verdict(false, AlarmMissing)
    else Pass
  }

  /** The checks are a chain: each one that passes implies the one it starts with. */
  lemma ChecksChain(db: Database, chatId: int, channelId: int, alarmId: int)
    ensures ValidateChannelAlarm(db, chatId, channelId, alarmId).ok ==> ValidateChannel(db, chatId, channelId).ok
    ensures ValidateChannel(db, chatId, channelId).ok ==> ValidateChat(db, chatId).ok
    ensures ValidateChatAlarm(db, chatId, alarmId).ok ==> ValidateChat(db, chatId).ok
  {
  }

  /** A channel alarm passes `validate_chat_alarm` for its owning chat only when the channel
      shares the chat's id, since the chat check looks at ChatID alone. */
  lemma ChannelAlarmNotChatAlarm(db: Database, chatId: int, channelId: int, alarmId: int)
    requires ValidateChannelAlarm(db, chatId, channelId, alarmId).ok
    ensures ValidateChatAlarm(db, chatId, alarmId).ok <==> channelId == chatId
  {
  }

  /** The keyword arguments of a request that the decorator looks at: `chat_id` and
      `alarm_id` as the route converted them, `channel_id` as it arrived (a string, since a
      channel id is negative). `None` is a missing argument. */
  datatype Request = Request(chatId: Option<int>, channelId: Option<PyValue>, alarmId: Option<int>)

  /** The arguments the handler receives, `channel_id` converted with `int()`. */
  datatype Args = Args(chatId: Option<int>, channelId: Option<int>, alarmId: Option<int>)

  /** `int()` failing on `channel_id`, or a check being called without the arguments it
      needs (or no check being chosen, so `None` is called). */
  datatype Failure = ValueError | TypeError

  /** What the decorated route does: answers `(message, 400)`, returns the handler's result,
      or raises. */
  datatype Outcome<R> = Rejected(message: string, status: int) | Handled(result: R) | Raised(failure: Failure)

  /** The check the decorator chooses from the arguments present, run on the converted
      arguments: an alarm id with a channel id selects the channel-alarm check, with a chat
      id only the chat-alarm check; otherwise a channel id selects the channel check and a
      chat id alone the chat check. A check missing one of its arguments, or no check at
      all, is a `TypeError`. */
  function Dispatch(db: Database, args: Args): (r: Result<Verdict, Failure>)
    reads db
    ensures r.Ok? <==> args.chatId.Some?
    ensures r.Ok? ==>
      (r.value == if args.alarmId.Some? && args.channelId.Some? then
                    ValidateChannelAlarm(db, args.chatId.value, args.channelId.value, args.alarmId.value)
                  else if args.alarmId.Some? then ValidateChatAlarm(db, args.chatId.value, args.alarmId.value)
                  else if args.channelId.Some? then ValidateChannel(db, args.chatId.value, args.channelId.value)
                  else ValidateChat(db, args.chatId.value))
  {
    if args.alarmId.Some? then
      if args.channelId.Some? then
        if args.chatId.None? then Err(TypeError)
        else Ok(ValidateChannelAlarm(db, args.chatId.value, args.channelId.value, args.alarmId.value))
      else if args.chatId.Some? then Ok(ValidateChatAlarm(db, args.chatId.value, args.alarmId.value))
      else Err(TypeError)
    else if args.channelId.Some? then
      if args.chatId.None? then Err(TypeError)
      else Ok(ValidateChannel(db, args.chatId.value, args.channelId.value))
    else if args.chatId.Some? then Ok(ValidateChat(db, args.chatId.value))
    else Err(TypeError)
  }

  /** `channel_id` converts with `int()`, or is absent. */
  predicate Convertible(req: Request)
  {
    req.channelId.None? || IntOf(req.channelId.value).Some?
  }

  /** The arguments after the wrapper has replaced `channel_id` by `int(channel_id)`. */
  function Converted(req: Request): Args
    requires Convertible(req)
  {
    Args(req.chatId, if req.channelId.Some? then IntOf(req.channelId.value) else None, req.alarmId)
  }

  /** The decorator's wrapper: convert `channel_id`, run the chosen check, and answer
      `(message, 400)` on failure or the handler's result on the converted arguments. */
  function Validate<R>(db: Database, req: Request, handler: Args -> R): (r: Outcome<R>)
    reads db
    ensures req.channelId.Some? && req.channelId.value.PyNone? ==> r == Raised(TypeError)
    ensures req.channelId.Some? && !req.channelId.value.PyNone? && IntOf(req.channelId.value).None? ==>
      r == Raised(ValueError)
    ensures Convertible(req) && req.chatId.None? ==> r == Raised(TypeError)
    ensures Convertible(req) && req.chatId.Some? ==>
      (r.Handled? <==> Dispatch(db, Converted(req)).value.ok) &&
      (r.Handled? ==> r.result == handler(Converted(req))) &&
      (!r.Handled? ==> r == Rejected(Dispatch(db, Converted(req)).value.message, 400))
    ensures r.Rejected? ==> r.status == 400 && r.message in {ChatMissing, ChannelMissing, AlarmMissing}
  {
    if req.channelId.Some? && req.channelId.value.PyNone? then Raised(TypeError)
    else if !Convertible(req) then Raised(ValueError)
    else
      var args := Converted(req);
      match Dispatch(db, args)
      case Err(e) => Raised(e)
      case Ok(verdict) => if verdict.ok then Handled(handler(args)) else Rejected(verdict.message, 400)
  }

  /** A handled request names only rows that belong together: the chat exists; a channel
      named in it is one of that chat's channels; an alarm named with a channel is one of that
      channel's channel alarms, and an alarm named without one has the chat as its ChatID. */
  lemma HandledOnlyOwnRows<R>(db: Database, req: Request, handler: Args -> R)
    requires Validate(db, req, handler).Handled?
    ensures req.chatId.Some? && req.chatId.value in db.chats
    ensures req.channelId.Some? ==>
      var ch := IntOf(req.channelId.value).value;
      ch in db.channels && db.channels[ch].chatId == req.chatId.value
    ensures req.alarmId.Some? && req.channelId.Some? ==>
      var ch := IntOf(req.channelId.value).value;
      req.alarmId.value in db.alarms && db.alarms[req.alarmId.value].chatId == ch && db.alarms[req.alarmId.value].isChannel
    ensures req.alarmId.Some? && req.channelId.None? ==>
      req.alarmId.value in db.alarms && db.alarms[req.alarmId.value].chatId == req.chatId.value
  {
    assert Dispatch(db, Converted(req)).Ok? && Dispatch(db, Converted(req)).value.ok;
  }

  /** Conversely, a request whose rows belong together is handled, with the converted
      arguments: the chat exists, a channel named in it is one of that chat's channels, and
      an alarm named in it is that channel's channel alarm or, without a channel, has the
      chat as its ChatID. */
  lemma OwnRowsHandled<R>(db: Database, req: Request, handler: Args -> R)
    requires Convertible(req) && req.chatId.Some? && req.chatId.value in db.chats
    requires req.channelId.Some? ==>
      var ch := IntOf(req.channelId.value).value;
      ch in db.channels && db.channels[ch].chatId == req.chatId.value
    requires req.alarmId.Some? && req.channelId.Some? ==>
      var ch := IntOf(req.channelId.value).value;
      req.alarmId.value in db.alarms && db.alarms[req.alarmId.value].chatId == ch && db.alarms[req.alarmId.value].isChannel
    requires req.alarmId.Some? && req.channelId.None? ==>
      req.alarmId.value in db.alarms && db.alarms[req.alarmId.value].chatId == req.chatId.value
    ensures Validate(db, req, handler) == Handled(handler(Converted(req)))
  {
    assert Dispatch(db, Converted(req)).value.ok;
  }

  /** A request that fails its check is answered with that check's message and status 400,
      and the handler's result is never returned: the outcome is the same whatever the
      handler. */
  lemma RejectedIgnoresHandler<R>(db: Database, req: Request, h1: Args -> R, h2: Args -> R)
    ensures Validate(db, req, h1).Rejected? ==> Validate(db, req, h2) == Validate(db, req, h1)
    ensures Validate(db, req, h1).Raised? ==> Validate(db, req, h2) == Validate(db, req, h1)
  {
  }

  /** A request for an existing chat's own channel, given as the text of its id, is handled
      with the channel id converted to an integer. */
  lemma ChannelTextAccepted<R>(db: Database, chatId: int, channelId: int, handler: Args -> R)
    requires chatId in db.chats && channelId in db.channels && db.channels[channelId].chatId == chatId
    ensures Validate(db, Request(Some(chatId), Some(PyStr(IntToString(channelId))), None), handler)
      == Handled(handler(Args(Some(chatId), Some(channelId), None)))
  {
    IntOfSpec(channelId, 0.0, "");
  }
}
