# ServerChanPush2TelegramBot, modelled in Dafny

ServerChanPush2TelegramBot is a small HTTP relay. It takes ServerChan-style push
notifications (`bot_id`, `chat_id`, `title`, optional `desp` and `url`) and forwards
them to the Telegram Bot API. This project models its core logic, all of it in
`ServerChanPush2TelegramBot.py`:

- **Destination resolution** (`routing.dfy`). The incoming bot id is replaced by the bot id
  of the first sub-bot, in configuration order, one of whose keywords occurs in the title,
  ignoring case. Only configurations whose `main_bot_id` equals the incoming bot id take part.
  `Route` is the specification. `ResolveBotId` is the nested loop with its `found` flag and
  early exits, proved equal to `Route`. The lemmas state first-match routing and the identity
  fallback over (configuration, sub-bot, keyword) index triples.
- **Message text** (`formatting.dfy`). `unescape_url` turns every `\/` into `/`. The text is
  the title, then the description after a blank line when the description is truthy. When
  the link is truthy, an HTML `详情：` anchor and the bare link are appended and the whole
  text is unescaped. `AssembleText` builds the text step by step. That includes the
  link-repair loop over the captures of `re.findall`, which the model proves leaves the text
  unchanged. `MessageText` is the specification.
- **Sending** (`delivery.dfy`). `SendTelegramMessage` composes routing and text assembly into
  the request that is posted. The chat id goes through untouched. Success is decided by the
  source's rule: status 200 and a true `ok` field, and a request exception counts as failure.
- **Intake and the pending list** (`intake.dfy`, `endpoint.dfy`). Each field is taken from the
  query string when it is truthy there, otherwise from the form. Missing required fields are
  reported in a fixed order and stop all processing. After a failed send the message is
  appended to the pending list. After a successful send every pending message is retried in
  order, and the list becomes exactly those whose retry failed, in their original order.

State is passed as values:
- The configuration list, the pending list as read, and the transport's responses are
  parameters.
- The handler returns the pending list it writes back, or `None` when it writes nothing.
- Each send is represented by the response it got: `first` for the new message, and
  `retries[i]` for the retry of `pending[i]`. `HandleRequest` and `RetryPending` therefore
  require exactly one retry response per pending message.
- `re.findall` is a parameter `findLinks`. The pattern has one capture group, so its results
  are the scheme words `https`, `http` or `ftp` (`CapturesSchemes`).

Keywords are matched against the title only. An empty title, bot id or chat id supplied by the
form passes validation.

## Model

| member | source | states |
|---|---|---|
| `Strings.ContainsIff` | ServerChanPush2TelegramBot.py:85 | the substring test `keyword in title` holds exactly when the keyword occurs at some index of the title |
| `Strings.ReplaceBySelf` | ServerChanPush2TelegramBot.py:112-113 | `text.replace(a, a)` returns `text` unchanged |
| `Strings.ReplaceAbsent` | ServerChanPush2TelegramBot.py:40 | `str.replace` leaves a string without the pattern unchanged |
| `Strings.ReplaceNotLonger` | ServerChanPush2TelegramBot.py:40 | replacing a pattern by a no-longer substitute never lengthens the string |
| `Routing.FirstKeyword` | ServerChanPush2TelegramBot.py:82-88 | the keyword loop stops at the first keyword (in list order) whose lower-cased form occurs in the lower-cased title; when none does, no keyword matches |
| `Routing.FirstSubBot` | ServerChanPush2TelegramBot.py:81-90 | the sub-bot scan picks the sub-bot of the first matching (sub-bot, keyword) pair; without a match no pair matches |
| `Routing.RouteCases` | ServerChanPush2TelegramBot.py:74-94 | either no (config, sub-bot, keyword) triple with `main_bot_id == bot_id` matches and the bot id is kept, or the result is the sub-bot of the first matching triple in scan order |
| `Routing.RouteFirstMatch` | ServerChanPush2TelegramBot.py:74-94 | the first matching triple decides the bot id even when later configs or sub-bots also match; configs for the same main bot are scanned on when an earlier one has no hit |
| `Routing.RouteFallback` | ServerChanPush2TelegramBot.py:71-96 | without any matching keyword the incoming bot id is used |
| `Routing.RouteIgnoresCase` | ServerChanPush2TelegramBot.py:85 | titles that differ only in ASCII letter case are routed alike |
| `Routing.ResolveBotId` | ServerChanPush2TelegramBot.py:71-94 | the nested loop with `found` and its breaks computes `Route` |
| `Formatting.UnescapeLength` | ServerChanPush2TelegramBot.py:39-40 | `unescape_url` never lengthens its input, and keeps its length exactly when the input holds no `\/` |
| `Formatting.UnescapeIdentity` | ServerChanPush2TelegramBot.py:39-40 | a string without `\/` is returned unchanged |
| `Formatting.UnescapeNoBackslash` | ServerChanPush2TelegramBot.py:39-40 | a string without backslashes is returned unchanged |
| `Formatting.UnescapeConcat` | ServerChanPush2TelegramBot.py:39-40 | unescaping distributes over a concatenation that does not put a backslash right before a slash |
| `Formatting.UnescapeRepairsEscaped` | ServerChanPush2TelegramBot.py:39-40 | `unescape_url` undoes JSON slash escaping (`/` written as `\/`) for every string |
| `Formatting.UnescapeFooter` | ServerChanPush2TelegramBot.py:115-119 | unescaping text plus footer equals the unescaped text plus the footer built from the unescaped link |
| `Formatting.MessageTextWithLink` | ServerChanPush2TelegramBot.py:101-119 | with a truthy url the text is the unescaped base text followed by `\n\n<a href="u">详情：</a>u` for the unescaped url `u` |
| `Formatting.MessageTextVerbatim` | ServerChanPush2TelegramBot.py:101-119 | when no input holds `\/` the text is exactly title, `\n\n` and description when truthy, and the footer when the url is truthy |
| `Formatting.AssembleText` | ServerChanPush2TelegramBot.py:101-119 | the step-by-step assembly, including the link-repair loop over scheme captures, yields `MessageText` |
| `Delivery.SendTelegramMessage` | ServerChanPush2TelegramBot.py:65-140 | the request goes to the endpoint of the routed bot, to the chat id as received, with the assembled text; success exactly when status is 200 and `ok` is true |
| `Delivery.ApiUrlInjective` | ServerChanPush2TelegramBot.py:96 | different bot ids give different endpoints |
| `Intake.FieldSource` | ServerChanPush2TelegramBot.py:161-165 | the `args.get(k) or form.get(k)` lookup yields a value exactly when the query string has the key non-empty or the form has the key at all; a non-empty query value wins over the form, and otherwise the form's value is taken; an empty value can come only from the form |
| `Intake.CollectErrors` | ServerChanPush2TelegramBot.py:167-176 | one error per absent required field, in the order bot id, chat id, title, and none when all are present |
| `Endpoint.SurvivorsAreFailedInOrder` | ServerChanPush2TelegramBot.py:188-194 | after a successful send the new pending list consists of exactly the messages whose retry failed, in their original order |
| `Endpoint.SurvivorsNotLonger` | ServerChanPush2TelegramBot.py:188-194 | the new pending list is no longer than the old one and holds no message the old one did not |
| `Endpoint.SurvivorsAllDelivered` | ServerChanPush2TelegramBot.py:188-194 | when every retry succeeds the pending list is emptied |
| `Endpoint.SurvivorsNoneDelivered` | ServerChanPush2TelegramBot.py:188-194 | when every retry fails the pending list is kept as it was |
| `Endpoint.RetryPending` | ServerChanPush2TelegramBot.py:189-194 | the retry loop sends every pending message in order to its routed bot and keeps exactly the survivors |
| `Endpoint.HandleRequest` | ServerChanPush2TelegramBot.py:161-205 | missing fields give 400 with the error list in field order, and nothing is sent or written; otherwise the new message is sent first; success gives 200, retries everything and writes the survivors; failure gives 400 and writes the old list with the new message appended |

## Left out

- Flask plumbing (the app, the route, `request.url`, `unquote`, `jsonify`, `app.run`): the request is modelled as its query and form maps, and the reply as a status and an `Answer`.
- The configuration is read once per request: `HandleRequest` and `RetryPending` route the new message and every retry under one `configs` value, whereas the source re-reads the configuration file inside every send, so a file changed between the sends of one request is not modelled.
- File and log I/O (`load_config`, `save_received_data`, `save_sent_data`, `read_pending_messages`, `write_pending_messages`, logging): the configuration and the pending list are values. The audit records written after a successful send are not modelled.
- The network call, the hard-coded proxy and the two-second timeout: each send is represented by the transport's response. The constant payload fields `parse_mode` and `disable_web_page_preview` are not carried in `Outgoing`.
- The regular-expression engine: `re.findall` is a parameter whose captures are scheme words, which is all the link-repair loop depends on.
- The `bytes` branch of keyword and title decoding, and `convert_str_gbk_to_utf8`, which returns its argument: the model has strings only.
- `Strings.Lower`: Python's `str.lower()` is modelled for ASCII letters only. Other Unicode case mappings are not modelled.
- Concurrency: the unsynchronised read-modify-write of the pending file across requests is not modelled. The model handles one request at a time.
- `Post_Test.py` is a manual client script with no logic of its own.
