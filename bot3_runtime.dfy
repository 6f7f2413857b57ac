/** The notify bot's runtime: the mini-app link, the texts and the caption it sends, and the
    effectful sends over a Bot API client double. The mini-app's public address, a setting read
    at call time in the code, is a parameter here. */
module Bot3Runtime {
  import opened Common
  import opened Transport

  /** Python's `s.rstrip("/")`: every trailing slash removed, nothing else. */
  function RStripSlash(s: string): (r: string)
    ensures |r| <= |s| && r == s[..|r|]
    ensures r != [] ==> r[|r| - 1] != '/'
    ensures forall i :: |r| <= i < |s| ==> s[i] == '/'
  {
    if s != [] && s[|s| - 1] == '/' then RStripSlash(s[..|s| - 1]) else s
  }

  /** Stripping twice is stripping once. */
  lemma RStripSlashIdempotent(s: string)
    ensures RStripSlash(RStripSlash(s)) == RStripSlash(s)
  {
    var r := RStripSlash(s);
    assert !(r != [] && r[|r| - 1] == '/');
  }

  /** A base with one more trailing slash strips to the same value. */
  lemma RStripSlashExtraSlash(s: string)
    ensures RStripSlash(s + "/") == RStripSlash(s)
  {
    assert (s + "/")[..|s + "/"| - 1] == s;
  }

  /** `make_miniapp_url`: the stripped base, then `/?order_id=<id>` for a non-empty id and a
      bare `/` for None or the empty id. */
  function MakeMiniappUrl(base: string, orderId: Option<string>): (url: string)
    ensures Present(orderId) ==> url == RStripSlash(base) + "/?order_id=" + orderId.value
    ensures !Present(orderId) ==> url == RStripSlash(base) + "/"
  {
    var b := RStripSlash(base);
    if Present(orderId) then b + "/?order_id=" + orderId.value else b + "/"
  }

  /** A trailing slash on the configured base makes no difference to any link. */
  lemma MiniappUrlIgnoresTrailingSlash(base: string, orderId: Option<string>)
    ensures MakeMiniappUrl(base + "/", orderId) == MakeMiniappUrl(base, orderId)
  {
    RStripSlashExtraSlash(base);
  }

  /** Whatever the base, a link never has two slashes where the base meets the path. */
  lemma MiniappUrlSingleJoinSlash(base: string, orderId: Option<string>)
    ensures var b := RStripSlash(base);
      var url := MakeMiniappUrl(base, orderId);
      |url| > |b| && url[..|b|] == b && url[|b|] == '/' && (b != [] ==> url[|b| - 1] != '/')
  {
  }

  const NewOrderLead: string := "У вас новый заказ: "
  const NewOrderMiddle: string := ".\nПодробности в чате: "

  /** The new-order notification. The notify endpoint builds the fallback text from the same
      template, so the contractor reads the same words whichever path delivers them. */
  function NewOrderText(orderTitle: string, groupLink: string): (text: string)
    ensures |text| == |NewOrderLead| + |orderTitle| + |NewOrderMiddle| + |groupLink|
    ensures text[..|NewOrderLead|] == NewOrderLead
    ensures text[|NewOrderLead|..|NewOrderLead| + |orderTitle|] == orderTitle
    ensures text[|NewOrderLead| + |orderTitle|..|text| - |groupLink|] == NewOrderMiddle
    ensures text[|text| - |groupLink|..] == groupLink
  {
    NewOrderLead + orderTitle + NewOrderMiddle + groupLink
  }

  /** Two notifications for titles of the same length are equal only for the same title and
      link: the text loses nothing. */
  lemma NewOrderTextInjective(t1: string, l1: string, t2: string, l2: string)
    requires |t1| == |t2| && NewOrderText(t1, l1) == NewOrderText(t2, l2)
    ensures t1 == t2 && l1 == l2
  {
    var x := NewOrderText(t1, l1);
    assert t1 == x[|NewOrderLead|..|NewOrderLead| + |t1|];
    assert l1 == x[|x| - |l1|..];
  }

  const PaymentLead: string := "Мы отправили вам "
  const PaymentTail: string := " руб."

  /** The payment notification, with the amount in decimal. */
  function PaymentText(amountRub: int): (text: string)
    ensures |text| > |PaymentLead| + |PaymentTail|
    ensures text[..|PaymentLead|] == PaymentLead && text[|text| - |PaymentTail|..] == PaymentTail
  {
    PaymentLead + DecimalString(amountRub) + PaymentTail
  }

  /** The amount can be read back from the payment text. */
  lemma PaymentAmountReadable(amountRub: int)
    ensures var text := PaymentText(amountRub);
      ParseInt(text[|PaymentLead|..|text| - |PaymentTail|]) == Some(amountRub)
  {
    var text := PaymentText(amountRub);
    assert text[|PaymentLead|..|text| - |PaymentTail|] == DecimalString(amountRub);
    ParseDecimalString(amountRub);
  }

  const CaptionBase: string := "Детали заказа"

  /** The pinned message's caption: the bare caption without a title (None or empty), else
      the caption, a colon and the title. */
  function PinCaption(title: Option<string>): (caption: string)
    ensures !Present(title) ==> caption == CaptionBase
    ensures Present(title) ==> caption == CaptionBase + ": " + title.value
  {
    if Present(title) then CaptionBase + ": " + title.value else CaptionBase
  }

  /** The default text of the mini-app button, the payment button's text and the details
      button's text. */
  const OpenCabinet: string := "Открыть кабинет"
  const OpenMiniapp: string := "Открыть мини‑приложение"
  const DetailsButton: string := "Детали заказа"

  /** `make_open_button`: one button opening the mini-app at the order's link. */
  function OpenButton(base: string, orderId: Option<string>, text: string): (b: WebAppButton)
    ensures b.text == text && b.url == MakeMiniappUrl(base, orderId)
  {
    WebAppButton(text, MakeMiniappUrl(base, orderId))
  }

  datatype PinRun = PinRun(result: Completion<int>, entries: seq<Entry>, rest: seq<Outcome>)

  /** `pin_order_details` against a script: send the caption with the details button; only if
      that succeeds, pin the sent message silently; a failed pin is swallowed. */
  function PinOrder(base: string, chatId: int, orderId: string, title: Option<string>, script: seq<Outcome>): PinRun {
    var send := BotSendMessage(chatId, PinCaption(title), Some(OpenButton(base, Some(orderId), DetailsButton)));
    var o := NextOutcome(script);
    if o.Err? then PinRun(Raised(o.error), [Entry(send, o)], RestOf(script))
    else
      var pin := BotPinChatMessage(chatId, o.reply.id, true);
      var p := NextOutcome(RestOf(script));
      PinRun(Returned(o.reply.id), [Entry(send, o), Entry(pin, p)], RestOf(RestOf(script)))
  }

  /** The pin step returns the sent message's id whatever the pin's outcome, raises exactly
      when the send failed, and pins, without notification, only the message it sent. */
  lemma PinReturnsSentId(base: string, chatId: int, orderId: string, title: Option<string>, script: seq<Outcome>)
    ensures var run := PinOrder(base, chatId, orderId, title, script);
      var sent := run.entries[0];
      sent.call == BotSendMessage(chatId, PinCaption(title), Some(WebAppButton(DetailsButton, MakeMiniappUrl(base, Some(orderId))))) &&
      (run.result.Returned? <==> sent.outcome.Ok?) &&
      (run.result.Returned? ==>
        run.result.value == sent.outcome.reply.id &&
        |run.entries| == 2 && run.entries[1].call == BotPinChatMessage(chatId, sent.outcome.reply.id, true)) &&
      (run.result.Raised? ==> run.entries == [sent] && run.result.error == sent.outcome.error)
  {
  }

  /** The notify bot's sending side over a Bot API client. */
  class Bot3 {
    const client: Client
    const miniappPublicUrl: string

    constructor (client: Client, miniappPublicUrl: string)
      ensures this.client == client && this.miniappPublicUrl == miniappPublicUrl
    {
      this.client := client;
      this.miniappPublicUrl := miniappPublicUrl;
    }

    /** `send_new_order`: one plain message to the contractor; a failure is raised. */
    method SendNewOrder(contractorId: int, orderTitle: string, groupLink: string) returns (raised: Option<Error>)
      modifies client
      ensures var o := NextOutcome(old(client.script));
        client.log == old(client.log) + [Entry(BotSendMessage(contractorId, NewOrderText(orderTitle, groupLink), None), o)] &&
        client.script == RestOf(old(client.script)) &&
        raised == (if o.Err? then Some(o.error) else None)
    {
      var o := client.Invoke(BotSendMessage(contractorId, NewOrderText(orderTitle, groupLink), None));
      raised := if o.Err? then Some(o.error) else None;
    }

    /** `send_payment`: the payment text with a button opening the order in the mini-app. */
    method SendPayment(contractorId: int, amountRub: int, orderId: string) returns (raised: Option<Error>)
      modifies client
      ensures var o := NextOutcome(old(client.script));
        client.log == old(client.log) +
          [Entry(BotSendMessage(contractorId, PaymentText(amountRub), Some(OpenButton(miniappPublicUrl, Some(orderId), OpenMiniapp))), o)] &&
        client.script == RestOf(old(client.script)) &&
        raised == (if o.Err? then Some(o.error) else None)
    {
      var o := client.Invoke(BotSendMessage(contractorId, PaymentText(amountRub), Some(OpenButton(miniappPublicUrl, Some(orderId), OpenMiniapp))));
      raised := if o.Err? then Some(o.error) else None;
    }

    /** `pin_order_details`: performs exactly `PinOrder`. */
    method PinOrderDetails(chatId: int, orderId: string, title: Option<string>) returns (r: Completion<int>)
      modifies client
      ensures var run := PinOrder(miniappPublicUrl, chatId, orderId, title, old(client.script));
        r == run.result && client.log == old(client.log) + run.entries && client.script == run.rest
    {
      var caption := "Детали заказа";
      if Present(title) {
        caption := "Детали заказа: " + title.value;
      }
      assert caption == PinCaption(title);
      var sent := client.Invoke(BotSendMessage(chatId, caption, Some(OpenButton(miniappPublicUrl, Some(orderId), "Детали заказа"))));
      if sent.Err? {
        return Raised(sent.error);
      }
      var _ := client.Invoke(BotPinChatMessage(chatId, sent.reply.id, true));
      return Returned(sent.reply.id);
    }
  }
}
