# Admissions bot: menu dispatcher and feedback conversation machine

This project models, in Dafny, the message handler of a Telegram bot for applicants to
the humanities faculty of SPbGEU. Every inbound text is stripped of surrounding white
space and then tested in a fixed order:

1. the four informational menu captions ("📚 Направления", "❓ FAQ по поступлению",
   "📞 Контакты приёмной комиссии", "🔗 Ссылки на сайт"). Each one answers with a text
   built from static catalogues: a numbered list of the faculty's programmes, the FAQ,
   the admissions contacts, and four links;
2. the feedback caption "✉️ Обратная связь", which puts the chat into `waiting_name`;
3. the chat's FSM state. In `waiting_name` the text becomes the name. In
   `waiting_contact` it becomes the contact. In `waiting_message` it completes the
   flow: the summary is built, the administrator is notified when one is configured,
   a record is appended to the feedback log, the user is thanked, and the chat's
   state and data are cleared;
4. a fallback prompt when nothing above matched.

Files:

- `wrappers.dfy`: `Option`.
- `text.dfy` (module `Text`): `Trim` models Python's `str.strip()`. It removes exactly
  the characters for which `str.isspace()` holds. Its properties are stated as lemmas
  (`TrimStartSpec`, `TrimRightSpec`, `TrimSpec`) rather than as postconditions, so that
  the conversation proofs do not carry them. Also here: `Concat`, which joins
  pieces the way a `+=` loop does, and `NatToDecimal` with its left inverse `DecimalValue`
  (reading back a rendering gives the number; `DecimalValue` also accepts leading zeros).
- `menu.dfy` (module `Menu`): the captions and the catalogues. `DirectionsReply` and
  `FaqReply` specify the rendered replies; the methods `RenderDirections` and
  `RenderFaq` build them with the source's accumulator loops. The definitions behind
  them are `DirectionLines` (one numbered line per programme, bot.py:79-80) and
  `FaqBlocks` (one block per question, bot.py:85-86). `Dispatch` is the informational
  lookup, the if-chain of bot.py:77-99; `InfoLabelKeepsSession` states what it
  answers.
- `conversation.dfy` (module `Conversation`): the pure transition function
  `Step(session, text, config, collaborators)` (bot.py:73-136). `Submit` is the
  `waiting_message` branch (bot.py:115-133), and `Summary` with `Show` builds the
  summary (bot.py:116-121). A `Config` holds the catalogue behind
  the menu and whether an administrator chat is configured. It returns the new session,
  the ordered list of external effects (`Reply`, `Notify`, `Append`) and whether the
  handler ended with an exception. `Run` handles a chat's messages in arrival order, as `text_handler` is called once
  per message that reaches it (bot.py:73-74).
  The lemmas here state the properties of the machine.
- `bot.dfy` (module `FeedbackBot`): class `Bot`. It holds the FSM storage as a
  `map<ChatId, Session>` that `Handle` updates in place through `SetState`,
  `UpdateName`, `UpdateContact` and `Clear` (aiogram's `set_state`, `update_data` and
  `clear`). `Get` is `get_state`/`get_data` (bot.py:105-116): the stored session, or idle
  with empty data for a chat never stored. `Handle` is proved against `Step`. Its
  invariant `Valid()` is the reachability invariant: an idle chat has empty data, a
  chat awaiting its contact has a stored name, and a chat awaiting its message has a
  stored name and contact. Every storage operation keeps it. `TwoChats` is a client
  that interleaves two chats.

External actions are effects, not I/O:

- `Notify(summary, delivered)` is the attempt to message the administrator.
  `delivered` is an input (`Collaborators.notifyDelivered`). It covers a transport
  error and a non-numeric ADMIN_CHAT_ID alike, and nothing depends on it: the
  source swallows the exception.
- `Append(summary + "\n---\n", written)` is the log write.
- `Reply(text)` is an answer in the user's chat.

Whether ADMIN_CHAT_ID is set is the boolean `Config.adminConfigured`. The bot itself is
configured with the source's catalogue, `BotCatalogue`; the conversation lemmas hold
for any catalogue.

Behaviour of the handler worth noting:

- The write to the feedback log is not guarded (bot.py:129-130). When it fails, the
  exception escapes the handler: the notification has already been attempted, the
  thank-you reply is not sent, and the chat's state and data are left as they were,
  so a failed write leaves the user unthanked and the chat in `waiting_message`.
  `Submit` models this, and `MessageSubmitted` states both outcomes.
- Draft fields may be empty. The handler does not check for blank fields: a
  white-space-only answer is stored as `""` (`BlankNameAccepted`). The reachability invariant `Consistent` therefore requires
  the fields to be present, not non-empty.
- The four informational captions are tested before the feedback caption, as in
  the code. The five captions are pairwise distinct (`LabelsDistinct`), so the order
  does not change the outcome.
- `data.get("name")` of a missing key is rendered as `None` by the f-string (`Show`).
  `SummaryOfConsistent` together with the invariant shows that this cannot happen
  on a reachable path.

## Model

| member | source | states |
|---|---|---|
| Text.TrimStartSpec | bot.py:75 | the number of leading characters `strip()` removes: all of them white space, and the next one is not |
| Text.TrimRightSpec | bot.py:75 | the trailing white space is dropped: the result is a prefix, every removed character is white space, and the result does not end in white space |
| Text.TrimSpec | bot.py:75 | `strip()`: the result is the infix of the input between the leading and the trailing white space, everything dropped is white space, and the result neither starts nor ends with white space |
| Text.TrimUnchanged | bot.py:75 | a text with no white space at either end is its own stripped form |
| Text.TrimIdempotent | bot.py:75 | stripping twice is the same as stripping once |
| Text.TrimKeepsNonSpace | bot.py:75 | every non-space character of the input lies inside the kept part |
| Text.TrimBlank | bot.py:75 | a text made of white space only strips to the empty string |
| Text.ConcatAppend | bot.py:79-80 | joining the pieces of `a + b` gives the join of `a` followed by the join of `b` |
| Text.ConcatAt | bot.py:85-86 | piece `k` stands unchanged between the pieces before it and the pieces after it |
| Text.PieceAt | bot.py:85-86 | piece `k` occupies exactly the positions from its offset to the next piece's offset |
| Text.OffsetsOrdered | bot.py:85-86 | for `i < j`, piece `j` starts no earlier than piece `i` ends, so the pieces come out in catalogue order |
| Text.NatToDecimal | bot.py:80 | `str(i)` for a line number: a non-empty string of decimal digits, with a leading zero only for 0 |
| Text.DecimalRoundTrip | bot.py:80 | reading back the decimal rendering of `n` gives `n` |
| Text.DecimalInjective | bot.py:80 | distinct line numbers are rendered as distinct strings |
| Menu.LabelsDistinct | bot.py:52-54 | the five keyboard captions are pairwise distinct, and the feedback caption is not an informational one |
| Menu.LabelTrimmed | bot.py:52-54 | each caption is its own stripped form, so a tapped button matches its test |
| Menu.RenderDirections | bot.py:78-81 | the accumulator loop yields exactly the header "Направления гуманитарного факультета:\n\n" followed by the numbered lines |
| Menu.RenderFaq | bot.py:84-87 | the accumulator loop yields exactly the header "FAQ — часто задаваемые вопросы:\n\n" followed by the blocks in catalogue order |
| Menu.DirectionsLineAt | bot.py:79-80 | in the directions reply, line `k + 1` stands right after the header and the `k` lines before it |
| Menu.FaqBlockAt | bot.py:85-86 | in the FAQ reply, the block of pair `k` stands right after the header and the blocks before it |
| Menu.DirectionsLineCount | bot.py:79-80 | when no programme name contains a line break, the body of the directions reply has exactly one line per programme |
| Menu.FirstLineNumber | bot.py:80 | the first programme's line is numbered "1" |
| Menu.FirstDirectionLine | bot.py:78-81 | for any non-empty list of programmes, the directions reply starts with the header and the line of the first programme |
| Menu.DirectionsReplyFirstLine | bot.py:22-31 | for the bot's own catalogue, the directions reply starts with the header and the line of "Лингвистика (Каф. романо-германской филологии и перевода)" |
| Conversation.InfoLabelKeepsSession | bot.py:77-99 | an informational caption gets its fixed reply and leaves the chat's state and data unchanged, in every state |
| Conversation.FeedbackLabelRestarts | bot.py:101-103 | the feedback caption moves any state to `waiting_name`, keeps the stored data, and asks for the name |
| Conversation.NameRecorded | bot.py:105-108 | in `waiting_name`, any other text is stored, stripped, as the name; the state becomes `waiting_contact` and the contact is asked for |
| Conversation.ContactRecorded | bot.py:110-113 | in `waiting_contact`, any other text is stored, stripped, as the contact; the state becomes `waiting_message` and the message is asked for |
| Conversation.MessageSubmitted | bot.py:115-133 | in `waiting_message`, for a text that is not a caption, in this order: a notification with the summary if and only if an administrator is configured, then exactly one log append of summary + "\n---\n". If the append is written, the user is thanked and the chat is cleared; if not, the handler raises and the session is unchanged |
| Conversation.NotifyFailureIgnored | bot.py:123-127 | a failed notification changes neither the new session, nor the replies, nor the log, nor whether the handler raises |
| Conversation.IdleFallback | bot.py:135-136 | with no state and no caption matched, the reply is "Выбери пункт меню, пожалуйста 😊" and the session stays as it is |
| Conversation.StepKeepsConsistent | bot.py:101-133 | one message preserves the reachability invariant |
| Conversation.RunKeepsConsistent | bot.py:101-133 | every sequence of messages preserves the reachability invariant |
| Conversation.SummaryOfConsistent | bot.py:116-121 | for a reachable `waiting_message` session the summary is "Сообщение от {name}\nКонтакт: {contact}\nТекст:\n{msg}" built from the stored values |
| Conversation.FlowOutcome | bot.py:101-133 | from any session, when the final log write succeeds, the feedback caption followed by three texts that are not captions produces the three prompts and then the submission's effects, and ends in the initial session |
| Conversation.FeedbackFlow | bot.py:101-133 | from any session, when the final log write succeeds, the flow puts exactly one record in the log, holding the three stripped texts in order; the user sees the three prompts and the thanks; the chat ends cleared |
| Conversation.IvanScenario | bot.py:101-133 | feedback, "Иван", "ivan@example.com", "Когда экзамены?" from a fresh chat, when the log writes succeed, logs exactly "Сообщение от Иван\nКонтакт: ivan@example.com\nТекст:\nКогда экзамены?\n---\n" and clears the chat |
| Conversation.BlankNameAccepted | bot.py:105-106 | a white-space-only answer in `waiting_name` is stored as the empty name |
| FeedbackBot.Bot.constructor | bot.py:19-20 | the storage starts empty and satisfies the invariant |
| FeedbackBot.Bot.SetState | bot.py:102 | `set_state` changes this chat's state only and keeps its data; a state the data supports keeps the invariant |
| FeedbackBot.Bot.UpdateName | bot.py:106 | `update_data(name=...)` stores the name and keeps the state and the contact |
| FeedbackBot.Bot.UpdateContact | bot.py:111 | `update_data(contact=...)` stores the contact and keeps the state and the name |
| FeedbackBot.Bot.Clear | bot.py:133 | `clear` resets this chat to no state and empty data |
| FeedbackBot.Bot.Handle | bot.py:73-136 | the chat's new session and the effects are those of `Step`; no other chat's entry changes; a message that leaves the session as it was leaves the storage as it was; the reachability invariant is preserved |

## Left out

- The aiogram transport: `Bot`/`Dispatcher` construction, polling, `main` and
  `asyncio.run` (bot.py:18-20, bot.py:138-143). This is network I/O and framework
  plumbing.
- Environment and dotenv configuration and the logging setup (bot.py:12-17). They
  are reduced to the boolean `Config.adminConfigured`.
- `cmd_start` (bot.py:64-71). `/start` is routed to its own handler before the text
  handler runs. The modelled messages are the ones `text_handler` receives, so they
  exclude the `/start` command. It sends a constant welcome text and does not touch the FSM state.
- Actual file writing and `bot.send_message` (bot.py:124-130). These are emitted
  effects; their outcomes are inputs.
- The failure of `message.answer`, an exception in `get_state`/`set_state`, and a
  partial log write. These are failures of the transport or the storage, which are
  not modelled.
- Async execution and concurrency. Each chat's messages are handled as sequential
  calls; `Run` covers one chat, and `TwoChats` interleaves two chats.
- The reply keyboard layout and the Markdown parse mode of the FAQ reply
  (bot.py:50-57, bot.py:87). These are presentation only.
- Non-text messages, where `message.text` is None and `strip()` would raise. Only
  text messages are modelled.
- The storage key. aiogram keys its storage by bot, chat and user; the model keys
  it by one opaque `ChatId`.
- `Trim` covers the white-space set of `str.isspace()` over Unicode scalar values.
  The Unicode tables themselves are not modelled beyond that list.
- Menu.DirectionsLineCount: the line count is proved for any catalogue whose names
  contain no line break. It is not instantiated for the concrete catalogue.
- FeedbackBot.Bot.SetState: admits only a state the stored data supports, so that the
  reachability invariant is kept. aiogram's `set_state` accepts any state; the handler
  sets only admitted ones.
- FeedbackBot.Bot.UpdateName: admits only a chat in a waiting state, for the same
  reason. The handler calls it only in `waiting_name`.
- FeedbackBot.Bot.UpdateContact: admits only a chat in a waiting state, for the same
  reason. The handler calls it only in `waiting_contact`.
