/** The notify bot's HTTP endpoints. `notify_new_order` sends directly first and, only when the
    Bot API answers `Forbidden` (the contractor never started the bot or blocked it), asks the
    userbot service to deliver the same text instead. */
module Bot3Api {
  import opened Common
  import opened Transport
  import opened Responses
  import opened Bot3Runtime

  datatype NotifyNewOrderRequest = NotifyNewOrderRequest(contractorId: int, orderTitle: string, groupLink: string, groupId: int)
  datatype NotifyPaymentRequest = NotifyPaymentRequest(contractorId: int, amountRub: int, orderId: string)
  datatype PinOrderDetailsRequest = PinOrderDetailsRequest(chatId: int, orderId: string, title: Option<string>)

  /** A decoded JSON value (numbers as integers). */
  datatype JsonValue =
    | JNull
    | JBool(b: bool)
    | JNumber(n: int)
    | JString(s: string)
    | JArray(items: seq<JsonValue>)
    | JObject(fields: map<string, JsonValue>)

  /** Python truthiness of a decoded value. */
  predicate Truthy(v: JsonValue) {
    match v
    case JNull => false
    case JBool(b) => b
    case JNumber(n) => n != 0
    case JString(s) => s != ""
    case JArray(items) => items != []
    case JObject(fields) => fields != map[]
  }

  /** What the userbot service's fallback endpoint answered: no answer at all (connection
      failure, timeout), or a status with a body that is JSON (Some) or not (None). */
  datatype FallbackReply = NoResponse(message: string) | Response(status: int, body: Option<JsonValue>)

  /** The request `_fallback_via_bot1` posts. */
  datatype FallbackRequest = FallbackRequest(url: string, contractorId: int, groupId: int, text: string)

  const FallbackPath: string := "/api/crm/send_fallback_message"

  function FallbackUrl(bot1ApiBase: string): (url: string)
    ensures url == RStripSlash(bot1ApiBase) + FallbackPath
  {
    RStripSlash(bot1ApiBase) + FallbackPath
  }

  /** The fallback succeeded: a 2xx status (`raise_for_status` raises for every other), a JSON
      object body, and a truthy `ok` in it. */
  predicate FallbackSucceeded(reply: FallbackReply) {
    reply.Response? && 200 <= reply.status < 300 &&
    reply.body.Some? && reply.body.value.JObject? &&
    "ok" in reply.body.value.fields && Truthy(reply.body.value.fields["ok"])
  }

  /** The error `_fallback_via_bot1` raises for an unsuccessful reply. The texts of httpx's
      and json's own exceptions are not reproduced; the refusal keeps the code's prefix. */
  function FallbackError(reply: FallbackReply): (e: Option<Error>)
    ensures e.None? <==> FallbackSucceeded(reply)
  {
    match reply
    case NoResponse(m) => Some(OtherError(m))
    case Response(status, body) =>
      if !(200 <= status < 300) then Some(OtherError("HTTP status " + DecimalString(status)))
      else if body.None? then Some(OtherError("response body is not JSON"))
      else if !body.value.JObject? then Some(OtherError("decoded body has no attribute 'get'"))
      else if "ok" in body.value.fields && Truthy(body.value.fields["ok"]) then None
      else Some(OtherError("Bot1 fallback failed"))
  }

  datatype NotifyRun = NotifyRun(response: GenericResponse, fallback: Option<FallbackRequest>)

  /** `notify_new_order`, given the outcome of the direct send and the fallback endpoint's
      reply, with the userbot service's base address configured. */
  function NotifyNewOrder(req: NotifyNewOrderRequest, direct: Outcome, bot1ApiBase: string, reply: FallbackReply): (run: NotifyRun)
    ensures run.response.ok <==> direct.Ok? || (direct.error.Forbidden? && FallbackSucceeded(reply))
  {
    var text := NewOrderText(req.orderTitle, req.groupLink);
    if direct.Ok? then NotifyRun(GenericResponse(true, "OK", None), None)
    else if direct.error.Forbidden? then
      var request := Some(FallbackRequest(FallbackUrl(bot1ApiBase), req.contractorId, req.groupId, text));
      match FallbackError(reply)
      case None => NotifyRun(GenericResponse(true, "OK_FALLBACK_BOT1", None), request)
      case Some(e) => NotifyRun(GenericResponse(false, "ERROR", Some(e.message)), request)
    else NotifyRun(GenericResponse(false, "ERROR", Some(direct.error.message)), None)
  }

  /** The routing: a delivered direct send is `OK` with no fallback; `Forbidden`, and only
      `Forbidden`, posts the same text for the same contractor and group to the stripped base
      plus the fallback path, and is `OK_FALLBACK_BOT1` when that succeeded and `ERROR`
      otherwise; any other direct failure is `ERROR` with its text and no fallback. */
  lemma NotifyNewOrderRouting(req: NotifyNewOrderRequest, direct: Outcome, bot1ApiBase: string, reply: FallbackReply)
    ensures var run := NotifyNewOrder(req, direct, bot1ApiBase, reply);
      (direct.Ok? ==> run.response == GenericResponse(true, "OK", None) && run.fallback.None?) &&
      (run.fallback.Some? <==> direct.Err? && direct.error.Forbidden?) &&
      (run.fallback.Some? ==>
        run.fallback.value == FallbackRequest(RStripSlash(bot1ApiBase) + FallbackPath, req.contractorId, req.groupId,
          NewOrderText(req.orderTitle, req.groupLink)) &&
        (FallbackSucceeded(reply) ==> run.response == GenericResponse(true, "OK_FALLBACK_BOT1", None)) &&
        (!FallbackSucceeded(reply) ==> !run.response.ok && run.response.resultCode == "ERROR" && run.response.error.Some?)) &&
      (direct.Err? && !direct.error.Forbidden? ==>
        run.response == GenericResponse(false, "ERROR", Some(direct.error.message)))
  {
  }

  /** A 2xx reply whose body says `"ok": false`, or has no `ok` at all, is a failed fallback. */
  lemma FallbackRefusalIsFailure(status: int, fields: map<string, JsonValue>)
    requires 200 <= status < 300
    requires "ok" !in fields || !Truthy(fields["ok"])
    ensures !FallbackSucceeded(Response(status, Some(JObject(fields))))
    ensures FallbackError(Response(status, Some(JObject(fields)))) == Some(OtherError("Bot1 fallback failed"))
  {
  }

  // ---------------------------------------------------------------------------------------
  // The settings the code actually has

  /** The notify bot's settings as declared: there is no address of the userbot service. */
  datatype DeclaredSettings = DeclaredSettings(bot3Token: string, bot3Username: string, miniappPublicUrl: string, logLevel: string)

  /** The error reading `settings.bot1_api_base` raises on the declared settings. */
  const MissingBaseError: Error := OtherError("'Settings' object has no attribute 'bot1_api_base'")

  /** `notify_new_order` as written: the fallback's first statement reads an undeclared
      setting, so it raises before any request is made. */
  function NotifyNewOrderAsWritten(req: NotifyNewOrderRequest, direct: Outcome, settings: DeclaredSettings): (run: NotifyRun)
    ensures run.fallback.None?
  {
    if direct.Ok? then NotifyRun(GenericResponse(true, "OK", None), None)
    else if direct.error.Forbidden? then NotifyRun(GenericResponse(false, "ERROR", Some(MissingBaseError.message)), None)
    else NotifyRun(GenericResponse(false, "ERROR", Some(direct.error.message)), None)
  }

  /** As written, the fallback path can never succeed: every `Forbidden` is `ERROR`, although
      with the address configured and a successful fallback reply it is `OK_FALLBACK_BOT1`. */
  lemma AsWrittenFallbackNeverSucceeds(req: NotifyNewOrderRequest, settings: DeclaredSettings, bot1ApiBase: string, message: string)
    ensures NotifyNewOrderAsWritten(req, Err(Forbidden(message)), settings).response.resultCode == "ERROR"
    ensures NotifyNewOrder(req, Err(Forbidden(message)), bot1ApiBase,
      Response(200, Some(JObject(map["ok" := JBool(true)])))).response.resultCode == "OK_FALLBACK_BOT1"
  {
    assert FallbackSucceeded(Response(200, Some(JObject(map["ok" := JBool(true)]))));
  }

  /** Apart from the fallback path, the written code and the corrected one agree. */
  lemma AsWrittenAgreesOffFallback(req: NotifyNewOrderRequest, direct: Outcome, settings: DeclaredSettings,
                                   bot1ApiBase: string, reply: FallbackReply)
    requires direct.Ok? || !direct.error.Forbidden?
    ensures NotifyNewOrderAsWritten(req, direct, settings) == NotifyNewOrder(req, direct, bot1ApiBase, reply)
  {
  }

  // ---------------------------------------------------------------------------------------
  // The endpoints over the bot

  /** `notify_new_order` with the configured fallback: the direct send goes through the bot;
      the fallback reply is a parameter. */
  method NotifyNewOrderEndpoint(bot: Bot3, req: NotifyNewOrderRequest, bot1ApiBase: string, reply: FallbackReply)
    returns (r: GenericResponse, fallback: Option<FallbackRequest>)
    modifies bot.client
    ensures var run := NotifyNewOrder(req, NextOutcome(old(bot.client.script)), bot1ApiBase, reply);
      r == run.response && fallback == run.fallback &&
      bot.client.log == old(bot.client.log) +
        [Entry(BotSendMessage(req.contractorId, NewOrderText(req.orderTitle, req.groupLink), None), NextOutcome(old(bot.client.script)))]
  {
    var raised := bot.SendNewOrder(req.contractorId, req.orderTitle, req.groupLink);
    if raised.None? {
      return GenericResponse(true, "OK", None), None;
    }
    if raised.value.Forbidden? {
      var text := NewOrderText(req.orderTitle, req.groupLink);
      fallback := Some(FallbackRequest(FallbackUrl(bot1ApiBase), req.contractorId, req.groupId, text));
      var failure := FallbackError(reply);
      if failure.None? {
        return GenericResponse(true, "OK_FALLBACK_BOT1", None), fallback;
      }
      return GenericResponse(false, "ERROR", Some(failure.value.message)), fallback;
    }
    return GenericResponse(false, "ERROR", Some(raised.value.message)), None;
  }

  /** `notify_payment`: `OK` on a normal return, `ERROR` with the text on any exception. */
  method NotifyPayment(bot: Bot3, req: NotifyPaymentRequest) returns (r: GenericResponse)
    modifies bot.client
    ensures var o := NextOutcome(old(bot.client.script));
      r == GenericResponseOf(if o.Ok? then None else Some(o.error)) &&
      bot.client.log == old(bot.client.log) +
        [Entry(BotSendMessage(req.contractorId, PaymentText(req.amountRub),
          Some(OpenButton(bot.miniappPublicUrl, Some(req.orderId), OpenMiniapp))), o)]
  {
    var raised := bot.SendPayment(req.contractorId, req.amountRub, req.orderId);
    r := GenericResponseOf(raised);
  }

  /** `pin_order_details`: `OK` when the message was sent, whether or not the pin held. */
  method PinOrderDetails(bot: Bot3, req: PinOrderDetailsRequest) returns (r: GenericResponse)
    modifies bot.client
    ensures var run := PinOrder(bot.miniappPublicUrl, req.chatId, req.orderId, req.title, old(bot.client.script));
      r == GenericResponseOf(RaisedBy(run.result)) && bot.client.log == old(bot.client.log) + run.entries
  {
    var c := bot.PinOrderDetails(req.chatId, req.orderId, req.title);
    r := GenericResponseOf(RaisedBy(c));
  }
}
