/**
 * `send_telegram_message`: resolve the bot, assemble the text and post it.
 * The HTTP call itself is replaced by the response it produced; only the
 * rule that decides success is kept.
 */
module Delivery {
  import opened Wrappers
  import opened Routing
  import opened Formatting

  /** What the transport gave back: a reply with its status and `ok` flag, or a request exception. */
  datatype Response = Reply(statusCode: int, ok: bool) | RequestFailed

  /** A message as the service receives it and keeps it in the pending list. */
  datatype Notification = Notification(
    botId: string, chatId: string, title: string, desp: Option<string>, url: Option<string>)

  /** The request posted to the Bot API: the endpoint of the bot and the form fields that vary. */
  datatype Outgoing = Outgoing(apiUrl: string, chatId: string, text: string)

  /** The Bot API endpoint for sending a message through `botId`. */
  function ApiUrl(botId: string): string
  {
    "https://api.telegram.org/bot" + botId + "/sendMessage"
  }

  /** A send succeeded exactly when the reply has status 200 and a true `ok` field. */
  predicate Delivered(response: Response)
  {
    response.Reply? && response.statusCode == 200 && response.ok
  }

  /** The request a notification leads to under the given configuration. */
  function RequestFor(configs: seq<BotConfig>, n: Notification): Outgoing
  {
    Outgoing(ApiUrl(Route(configs, n.botId, n.title)), n.chatId, MessageText(n.title, n.desp, n.url))
  }

  /**
   * One call of `send_telegram_message`: the request goes to the routed bot,
   * to the chat it was given, with the assembled text; the outcome is the
   * success rule applied to the transport's response.
   */
  method SendTelegramMessage(configs: seq<BotConfig>, n: Notification,
                             findLinks: string -> seq<string>, response: Response)
    returns (success: bool, sent: Outgoing)
    requires CapturesSchemes(findLinks)
    ensures sent.apiUrl == ApiUrl(Route(configs, n.botId, n.title))
    ensures sent.chatId == n.chatId
    ensures sent.text == MessageText(n.title, n.desp, n.url)
    ensures success <==> Delivered(response)
  {
    var botId := ResolveBotId(configs, n.botId, n.title);
    var text := AssembleText(n.title, n.desp, n.url, findLinks);
    sent := Outgoing(ApiUrl(botId), n.chatId, text);
    success := Delivered(response);
  }

  /** The request names the routed bot: different bots get different endpoints. */
  lemma {:induction false} ApiUrlInjective(a: string, b: string)
    requires ApiUrl(a) == ApiUrl(b)
    ensures a == b
  {
    var prefix := "https://api.telegram.org/bot";
    assert ApiUrl(a)[|prefix|..|prefix| + |a|] == a;
    assert ApiUrl(b)[|prefix|..|prefix| + |b|] == b;
    assert |ApiUrl(a)| == |ApiUrl(b)|;
  }
}
