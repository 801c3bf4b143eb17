# freeGPT Discord bot: a verified model of its chat core

The bot binds one text channel per Discord guild to a text-completion model.
Every message posted in that channel is answered by the model. This project
models in Dafny what the bot decides, with the backends and Discord itself
abstracted away:

- **The reply sanitiser** (module `Sanitizer`, over the `str` operations in `Text`).
  It is a guarded chain of three `replace` calls. It defuses `@everyone`,
  `@here` and user mentions in untrusted model output.
- **The delivery rule** (modules `Delivery`, `Utf8`). A reply of at most
  2000 characters is sent inline. A longer one is sent as a UTF-8 file named
  `message.txt`. `/ask` uses the same rule.
- **Model validation** (module `Models`).
  It is a case-insensitive membership test in the list of text-completion
  models (or image models, for `/imagine`).
- **The binding store and its lifecycle** (module `Bindings`). The
  `database(guilds, channels, models)` table is a map from guild to
  (channel, model). Three operations change it: `/setup-chatbot`,
  `/reset-chatbot` and leaving a guild. Each is a step function from the old
  table to the new table and an outcome.
- **The message router** (module `Router`). `on_message` is a function from
  the message, the table and the answers of the two backends to the sequence
  of effects the bot performs (module `Effects`). The backends are the image
  captioner and the completion service. `/ask` is modelled the same way.
- **The bot object** (module `Bot`). Class `ChatBot` holds the open-database
  flag, the table, the next free channel id and a log of effects. Its
  handlers are imperative methods with early returns. Setup, reset and
  guild removal are proved equal to the step functions above; the message
  handler is proved equal to the corrected route (see "## Findings").

The central results are:

- the sanitised text never carries `@everyone` or `@here`, and either every
  `<@` in it is broken by a `|` or it contains no `>`;
- the sanitiser only ever inserts `|` characters;
- delivery loses nothing: the file's bytes decode back to the reply;
- a second setup of a guild is refused and changes nothing;
- deletion keeps each channel bound to at most one guild;
- a message leaves no trace exactly in the four ignore cases;
- the slow-mode edit comes first and only once.

Two behaviours of the code that a reader might not expect:

- The sanitiser is not idempotent. A second pass turns `<@|` into `<@||`
  (`Sanitizer.SanitizeIsNotIdempotent`).
- A direct message reaches `message.guild.id` with an open database and
  raises. It is not ignored (`Router.DirectMessageRaises`).

## Model

| member | source | states |
|---|---|---|
| Text.ContainsIffOccurs | src/bot.py:290-295 | Python's `p in s` (`Contains`) holds iff `p` occurs at some index of `s`. |
| Sanitizer.SanitizeChangesIffGuarded | src/bot.py:290-300 | The sanitiser changes the reply iff it contains `@everyone`, or `@here`, or both `<@` and `>`. |
| Sanitizer.UnclosedMentionPassesThrough | src/bot.py:290-295 | A reply with a `<@` but no `>`, `@everyone` or `@here` is returned unchanged. |
| Sanitizer.RewriteRemovesMassMentions | src/bot.py:296-300 | After the rewrite, neither `@everyone` nor `@here` occurs. |
| Sanitizer.RewriteBreaksMentions | src/bot.py:296-300 | After the rewrite, every `<@` is immediately followed by `\|`. |
| Sanitizer.RewriteInsertsOnlyBars | src/bot.py:296-300 | The rewrite output is the input with only `\|` characters inserted, so the input is a subsequence of it. |
| Sanitizer.SanitizeIsSafe | src/bot.py:290-300 | For every reply, the sanitised text has no mass mention and has either every `<@` broken or no `>` at all. |
| Sanitizer.SanitizeIsNotIdempotent | src/bot.py:296-300 | `<@1>` becomes `<@\|1>`, and a second pass gives `<@\|\|1>`. |
| Utf8.DecodeEncodedChar | src/bot.py:306 | A strict UTF-8 decoder reads back exactly the character that `encode("utf-8")` wrote, and its length. |
| Utf8.DecodeEncode | src/bot.py:306 | The UTF-8 encoding of any text decodes to that same text. |
| Delivery.Deliver | src/bot.py:301-310 | A reply is sent inline iff it has at most 2000 characters; otherwise it is a file named `message.txt`. |
| Delivery.DeliveryIsLossless | src/bot.py:301-310 | What the channel receives, inline or by decoding the file, is exactly the reply. |
| Delivery.DeliveryBoundary | src/bot.py:159-163 | 2000 characters are sent inline; 2001 are sent as the UTF-8 file `message.txt`. |
| Models.AcceptsListed | src/bot.py:23-24 | Every listed text model and image model is accepted as written. |
| Models.LowerIsIdempotent | src/bot.py:174 | Lowercasing twice is lowercasing once. |
| Models.ValidationIgnoresCase | src/bot.py:174-178 | A name is accepted iff its lowercase form is accepted, for text and image models alike. |
| Models.AcceptsMixedCase | src/bot.py:151 | `GPT4` and `Gpt3` are accepted. |
| Models.RejectsUnlisted | src/bot.py:174-178 | `gpt-4` is refused, and so is the image model `prodia` as a text model. |
| Bindings.Setup | src/bot.py:173-211 | Checks run in order, each with its own reason: invalid model (`ModelNotFound`), then closed database (`NoDatabase`), then an existing row (`AlreadySetUp`), then failed channel creation (`ChannelCallFailed`). Every refusal leaves the table unchanged. Success adds exactly the row (guild, new channel, model as given) and keeps every other row. |
| Bindings.Reset | src/bot.py:217-237 | A closed database is refused as `NoDatabase`, an absent guild as `NotSetUp`, and a failed channel fetch or deletion as `ChannelCallFailed`. A present guild whose channel is deleted loses only its row, and the outcome names the channel it pointed to. Every refusal leaves the table unchanged. |
| Bindings.Remove | src/bot.py:51-53 | The guild's row is gone and every other row is kept. |
| Bindings.SetupKeepsChannelsDistinct | src/bot.py:191-203 | With a fresh channel id, setup keeps every channel bound to at most one guild and all ids below the next fresh one. |
| Bindings.DeletionKeepsChannelsDistinct | src/bot.py:223-229 | Reset and guild removal preserve both table invariants. |
| Bindings.SetupIsExclusive | src/bot.py:180-189 | After a successful setup, a second setup with a valid model is refused as already set up and changes nothing. |
| Bindings.ResetThenSetup | src/bot.py:223-232 | After a successful reset, the guild can be set up again. |
| Bindings.RemoveIsIdempotent | src/bot.py:51-53 | Removing a guild twice is removing it once. |
| Bindings.LostChannelSticks | src/bot.py:223-225 | If the bound channel cannot be fetched, reset fails and leaves the row, setup keeps refusing, and only leaving the guild clears it. |
| Router.ImagePrompt | src/bot.py:284 | The image prompt starts with `Image detected, description: ` and ends with `. Prompt: ` followed by the message text. |
| Router.CaptionText | src/bot.py:261-284 | The caption succeeds iff the image was fetched, the body parsed as JSON, the status is 200 and the text is present. A parsed body with a non-200 status raises with that status. |
| Router.IgnoredExactly | src/bot.py:240-254 | A message produces no effect at all iff one of these holds: it is the bot's own; the database is closed; its guild has no row; it is outside the bound channel. This holds for the as-written route and for the corrected one. |
| Router.DirectMessageRaises | src/bot.py:245-249 | With an open database, a message without a guild raises and does nothing else. |
| Router.HandleHasNoSlowmode | src/bot.py:256-310 | Neither form of the handler body edits slow mode. |
| Router.SlowmodeFirstAndOnce | src/bot.py:254-255 | For a served message, the first effect sets 15-second slow mode on the bound channel, and no later effect touches slow mode. This holds for the as-written route and for the corrected one. |
| Router.TextPromptIsContent | src/bot.py:286-289 | Without a `.png` attachment, the bound model is asked with the message text verbatim. |
| Router.ImagePromptHasCaption | src/bot.py:257-285 | With a `.png` first attachment and a caption, the caption is fetched and the completion request carries the image prompt. |
| Router.CaptionFailureStopsEarly | src/bot.py:261-281 | A failed download, an unparsable body, a non-200 status or a missing text raises before any completion request. |
| Router.TextAnswerIsSanitised | src/bot.py:286-310 | A text message yields slow mode, the request, then either the sanitised answer by the delivery rule without pinging the author, or the completion error. |
| Router.ImageAnswerIsDropped | src/bot.py:257-285 | As written, the image branch never replies. |
| Router.ImageAnswerIsDroppedExample | src/bot.py:257-285 | A captioned `cat.png` is answered by the backend, but only slow mode, the caption fetch and the request are performed. |
| Router.AnswerIsSafe | src/bot.py:290-310 | Every answer reply does not ping the author, and its text reads back intact and safe. |
| Router.HandleIsSafe | src/bot.py:256-310 | Every reply of either handler body does not ping the author, and its text reads back intact and safe. |
| Router.RepliesAreSafe | src/bot.py:240-310 | Every reply `on_message` sends, as written or as intended, does not ping the author, and its text reads back intact and safe. |
| Router.IntendedImageAnswerIsDelivered | src/bot.py:282-310 | In the corrected image branch, the answer to the image prompt is sanitised and delivered like a text answer. |
| Router.IntendedRouteAgrees | src/bot.py:240-310 | The correction changes nothing for text messages, nor for image messages whose caption fails. |
| Router.AskCommand | src/bot.py:150-166 | `/ask` refuses an unknown model. Otherwise it defers, requests the completion and sends one follow-up: the answer by the delivery rule, or the error text. |
| Router.AskReturnsAnswerVerbatim | src/bot.py:158-163 | `/ask` sends back the completion unsanitised and intact, inline or as a file. |
| Router.HelloAnswer | src/bot.py:290-302 | `hi there` passes the sanitiser untouched and is sent inline. |
| Router.HelloExample | src/bot.py:240-310 | `hello` in the bound channel yields slow mode 15, one request to `gpt3` and the inline reply `hi there`. |
| Bot.ChatBot.constructor | src/bot.py:22 | A new bot has no database open and an empty table and log. |
| Bot.ChatBot.OnReady | src/bot.py:28-35 | Opening the database keeps the existing rows. |
| Bot.ChatBot.SetupChatbot | src/bot.py:169-211 | The new table and the outcome are those of `Bindings.Setup`. The logged effects are the reply or the raise, or on success the channel creation (`freegpt-chat`, slow mode 15) and its announcement. The channel counter advances by one exactly on success. The table invariants are kept. |
| Bot.ChatBot.ResetChatbot | src/bot.py:214-237 | The new table and the outcome are those of `Bindings.Reset`. Success logs the channel deletion, then the confirmation. |
| Bot.ChatBot.OnGuildRemove | src/bot.py:50-53 | With an open database, the row is removed as by `Bindings.Remove`; otherwise the handler raises and the table is kept. |
| Bot.ChatBot.OnMessage | src/bot.py:240-310 | The logged effects are exactly the corrected route for this message, the table and the backends' answers. |
| Bot.ChatBot.SendAnswer | src/bot.py:290-310 | Exactly one reply is logged: the sanitised answer by the delivery rule, without pinging the author. |

## Left out

- Discord transport and UI are left out. This covers embeds, buttons, `/help`, the command error handler, typing indicators and permission checks. The platform calls appear only as effects in the log.
- In `on_message`, the slow-mode edit, the reply and the final file send are assumed to succeed. In `ChatBot.SetupChatbot` and `ChatBot.ResetChatbot`, the channel creation succeeds on `created` and the channel fetch and deletion succeed on `deleted`.
- In `/ask`, the defer and the follow-up send are assumed to succeed. A follow-up Discord refuses, such as an empty answer, would fall into the `except` and send the error text instead; that path is not modelled.
- The presence loop in `on_ready` is left out: it only sleeps and updates a status line.
- The captioning request, the image download and the completion service are foreign HTTP calls. They are parameters that may fail, not modelled services.
- `/imagine` is left out beyond its model check, `Models.IsImageGenModel`: the rest is a foreign call.
- The temporary image file is left out. Its net effect is the image bytes handed to the captioner.
- Concurrency is left out. Handlers run one at a time, so the race between two concurrent setups of the same guild is not modelled.
- SQLite is a map. The table has no key constraint, so `INSERT OR REPLACE` behaves as a plain insert; the preceding lookup makes that insert always new. Rows persisting across restarts and the `config.json` load are left out.
- Commands used outside a guild are left out: slash commands are assumed to come with a guild.
- Fresh channel ids come from the counter `nextChannel` in `ChatBot`; real Discord snowflakes are not modelled.
- Text.Lower: only ASCII letters are lowercased, whereas Python's `str.lower` also folds non-ASCII letters. The verdict can differ only for names with non-ASCII capitals, and none of those lowercases to a listed name.
- Delivery.Deliver: lengths are counted in Unicode scalar values. A Python string with a lone surrogate, which has no Dafny `char`, is not modelled; its UTF-8 encoding would raise.
- Router.CaptionText: the captioner's JSON is reduced to "did not parse" or "parsed, with or without a `generated_text`". Other shapes of the body fold into the missing-text error.

## Findings

| source | as written | input that shows it | evidently intended | confidence | as-written member | corrected member |
|---|---|---|---|---|---|---|
| src/bot.py:282-310 | The sanitise-and-reply block is indented inside the `else` of the attachment test, so the image branch requests a completion and discards it. | A message in the bound channel with attachment `cat.png`, captioned `a cat` with status 200, and the backend answering `a cat`: only slow mode, the caption fetch and the request happen, with no reply. | The image branch sanitises and delivers its answer like the text branch. | likely; not executed | Router.ImageAnswerIsDropped | Router.IntendedImageAnswerIsDelivered |
