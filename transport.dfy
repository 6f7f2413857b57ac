/** A test double for the messaging transports (the userbot's MTProto client and the notify
    bot's Bot API client). Every call the services make is a `Call` value; its outcome is not
    computed but taken from a script supplied up front, and each call is written to a log
    together with the outcome it received, so that the order of calls and the reaction to each
    outcome can be stated about the log. */
module Transport {
  import opened Common

  /** The failure classes the services tell apart. `RpcError` is an error reported by the
      Telegram API through pyrogram (its `RPCError` family); `Forbidden` is the Bot API's
      "bot was blocked / chat not started" error (python-telegram-bot's `Forbidden`, which is
      also an API error); `OtherError` is any other exception (network, decoding, bad input). */
  datatype Error =
    | RpcError(message: string)
    | Forbidden(message: string)
    | OtherError(message: string)
  {
    /** `except RPCError` in the userbot catches this error. */
    predicate IsRpc() {
      RpcError? || Forbidden?
    }
  }

  /** A member reference as the userbot passes it: a numeric user id or a username. */
  datatype Member = UserId(id: int) | Username(name: Option<string>)

  /** The keyword arguments of `promote_chat_member`. */
  datatype AdminRights = AdminRights(
    canManageChat: bool,
    canDeleteMessages: bool,
    canManageVideoChats: bool,
    canRestrictMembers: bool,
    canPromoteMembers: bool,
    canChangeInfo: bool,
    canInviteUsers: bool,
    canPinMessages: bool,
    isAnonymous: bool)

  /** An inline button that opens the mini-app at `url`. */
  datatype WebAppButton = WebAppButton(text: string, url: string)

  datatype Call =
    // userbot (pyrogram) calls
    | CreateGroup(title: string, users: seq<Member>)
    | SetChatDescription(chat: int, description: string)
    | SetChatPhoto(chat: int, iconBase64: string)
    | AddChatMembers(chat: int, members: seq<Member>)
    | PromoteChatMember(chat: int, member: Member, rights: AdminRights)
    | SetAdministratorTitle(chat: int, user: int, title: string)
    | GetChatHistory(chat: int, limit: nat)
    | DeleteMessages(chat: int, messageIds: seq<int>)
    | OpenPreHistory(chat: int)
    | ExportChatInviteLink(chat: int)
    | BanChatMember(chat: int, user: int)
    | UnbanChatMember(chat: int, user: int)
    | SendMessage(chat: int, text: string)
    // notify bot (Bot API) calls
    | BotSendMessage(chat: int, text: string, button: Option<WebAppButton>)
    | BotPinChatMessage(chat: int, messageId: int, disableNotification: bool)

  /** The parts of a successful reply that the services read: the id of the created chat or
      of the sent message, the ids of the messages a history listing yielded, and an exported
      invite link. A call reads only the part that belongs to it. */
  datatype Reply = Reply(id: int, messageIds: seq<int>, link: string)

  datatype Outcome = Ok(reply: Reply) | Err(error: Error)

  datatype Entry = Entry(call: Call, outcome: Outcome)

  /** How an operation that may raise ended: it returned a value, or it raised an error. */
  datatype Completion<T> = Returned(value: T) | Raised(error: Error)

  /** The outcome the next call receives; a call past the end of the script fails. */
  function NextOutcome(script: seq<Outcome>): (o: Outcome)
    ensures script != [] ==> o == script[0]
    ensures script == [] ==> o.Err? && !o.error.IsRpc()
  {
    if script == [] then Err(OtherError("no scripted outcome")) else script[0]
  }

  /** The script left after one call. */
  function RestOf(script: seq<Outcome>): (r: seq<Outcome>)
    ensures script != [] ==> r == script[1..]
    ensures |r| <= |script|
  {
    if script == [] then [] else script[1..]
  }

  class Client {
    var script: seq<Outcome>
    var log: seq<Entry>

    constructor (outcomes: seq<Outcome>)
      ensures script == outcomes && log == []
    {
      script := outcomes;
      log := [];
    }

    /** Perform one transport call: it receives the next scripted outcome and is logged. */
    method Invoke(c: Call) returns (o: Outcome)
      modifies this
      ensures o == NextOutcome(old(script))
      ensures script == RestOf(old(script))
      ensures log == old(log) + [Entry(c, o)]
    {
      o := NextOutcome(script);
      script := RestOf(script);
      log := log + [Entry(c, o)];
    }
  }
}
