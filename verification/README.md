# Student-day interview bot: a Dafny model

`bot.py` is a Telegram bot that walks an interviewer through a fixed
questionnaire about a student's day. It asks in this order:

- respondent number;
- day description;
- multi-select pain points, with an "Другое" free-text option;
- main pains;
- a loop over individual pains: name, last case, reason, emotion, score from 1 to 10;
- magic wand;
- four insight questions.

When the last answer arrives, the bot:

1. saves the interview as one flattened row of a shared table;
2. sends a text report, cut into pieces of at most 4000 characters;
3. forgets the user's session.

`/stats` summarises the saved rows. `/cancel` discards a session.

This project models that core as pure functions:

- **`Interview`** (`interview.dfy`): the sixteen conversation states, the
  interview record (`InterviewData`), and the pain dictionaries. Each pain
  field is optional, because the handlers can build a pain from `{}`. Also
  the literal control tokens.
- **`Text`** (`text.dfy`): the parts of Python's string semantics the
  handlers rely on:
  - `str.strip()` over the `isspace` characters;
  - `str.lower()` on Latin and Cyrillic capitals;
  - `int()` on an optionally signed decimal;
  - `join` and `split`.
- **`Engine`** (`engine.dfy`): one handler per state, and `Step`, which
  strips a message and dispatches it through the state table. `Run` feeds
  a list of messages. A step ends in one of three ways:
  - the next state;
  - completion;
  - a caught exception that ends the conversation.
- **`Reachability`** (`reachability.dfy`): an invariant of every
  conversation started with `/start`, while the user has a single
  conversation with the bot. From it follows:
  - the `KeyError` path of the score handler is never taken;
  - the `{}` fallbacks are never used;
  - the zero-score synthesis is never used;
  - every stored pain is complete, with a score in 1..10.
- **`Transitions`** (`transitions.dfy`): properties that span several
  steps:
  - idempotent and duplicate-free selection of pain points;
  - the "other" route, which can create duplicates;
  - case handling of the buttons and of the advance words;
  - the free-text answers.
- **`Aggregation`** (`aggregation.dfy`): flattening a record into a row,
  with at most ten pain groups, and the `/stats` counts.
- **`Report`** (`report.dfy`): the report lines, their layout, and the
  4000-character chunking.
- **`Markdown`** (`markdown.dfy`): `escape_markdown`, and proof that it can
  be undone.
- **`Session`** (`session.dfy`): the per-user store of records and
  pains-in-progress, with `/start`, `/cancel`, text handling and
  completion.
- **`Interleaving`** (`interleaving.dfy`): one user in two chats. The
  stage is kept per chat, but the record and the pain under construction
  are shared, and two such runs reach the failures that `Reachability`
  rules out for one conversation.
- **`Scenario`** (`scenario.dfy`): whole conversations run end to end. These
  connect the engine to the saved row and the statistics.

The clock (`datetime.now()`) is a parameter of every operation that reads
it.

## Model

| member | source | states |
|---|---|---|
| Text.StripIsWindow | bot.py:189 | `strip()` yields a contiguous piece of the message, and only white space is cut on either side. |
| Text.StripIdempotent | bot.py:233 | Stripping an already stripped answer changes nothing. |
| Text.LowerIdempotent | bot.py:347 | Lower-casing twice is lower-casing once. |
| Text.ParseIntString | bot.py:490 | `int()` reads back every decimal number as written, including negative ones. |
| Text.SplitJoin | bot.py:737 | If no line contains a newline, joining the lines with `"\n"` and splitting at `"\n"` gives the same lines back. |
| Text.Strip | bot.py:189 | The stripped answer is no longer than the message, and neither starts nor ends with a white-space character. |
| Text.Lower | bot.py:347 | Lower-casing keeps the length. It maps each Latin capital and each Cyrillic capital U+0400..U+042F to its small letter, and leaves every other character alone. |
| Text.ParseInt | bot.py:490-495 | A parse succeeds exactly when the text after an optional "+" or "-" is a non-empty string of ASCII digits. The value is that digit string's value, negated after "-". Anything else is the `ValueError` branch. |
| Text.ParseIntRefuses | bot.py:490-495 | "7a", "-", the empty text and "1 0" are all refused. |
| Report.OrNotSpecified | bot.py:686 | An empty answer is reported as "Не указано", and any other answer as itself. |
| Markdown.EscapeMarkdownIsOnePass | bot.py:61-69 | `escape_markdown` (`EscapeMarkdown`) equals one left-to-right pass that puts a backslash before every special character: none of its 18 successive `replace` passes re-escapes the output of an earlier one. |
| Markdown.UnescapeEscape | bot.py:66-68 | Escaping any set of characters that excludes the backslash can be undone exactly. |
| Markdown.EscapeMarkdownRoundTrip | bot.py:61-69 | Removing the escapes from `escape_markdown(text)` gives back `text`. This holds for the empty text as well. |
| Interview.StageNumber | bot.py:22-24 | The sixteen states are numbered 0..15. `Start` is 0 and the last insight question is 15. |
| Interview.FreshRecord | bot.py:42-59 | A new `InterviewData` has no respondent and no date, and no pain points and no analysed pains. Every text field is empty: day description, main pains, most annoying pain, magic wand and the four insights. |
| Engine.ParseScore | bot.py:488-494 | A score is accepted exactly when `int()` parses the text to a value from 1 to 10, and the accepted value is that parse. |
| Engine.CommittedEntry | bot.py:496-505 | The entry a valid score commits is the pain under construction with that score. With no pain under construction, it is the entry with every key: the most annoying pain as its name (or "Не указано" when that is empty), empty case, reason and emotion, and the score. |
| Engine.OnPainPoints | bot.py:230-277 | "Продолжить" and "Пропустить" move on to the main pains, "Выбрать еще" stays, and "Другое" asks for free text. Any other answer is added to the pain points unless it is already there. The list only grows, and by at most one entry. |
| Engine.OnPainPointsOther | bot.py:279-308 | A non-empty text not yet in the list is stored as "Другое: " + text. Otherwise the record is unchanged. Either way the bot returns to the pain-point question. |
| Engine.OnPainName | bot.py:343-390 | An advance word leaves the loop for the magic wand. This synthesises a zero-score entry only when no pain was analysed but a most annoying pain is known. Any other text starts a new pain with that name, and the first name given becomes the most annoying pain. |
| Engine.OnPainCase | bot.py:392-410 | The case is stored in the pain under construction, which is started from `{}` if missing, and the bot asks for the reason. The record is untouched. |
| Engine.OnPainReason | bot.py:412-433 | The reason is stored in the pain under construction, which is started from `{}` if missing, and the bot asks for the emotion. |
| Engine.OnPainEmotion | bot.py:435-470 | "Другое" asks again and keeps the pain. Any other text becomes the emotion and the bot asks for the score. |
| Engine.OnPainScore | bot.py:472-533 | A pain without an emotion takes the message as its emotion. Otherwise an invalid score changes nothing. A valid score appends the entry and returns to the name question. When the entry has no name, the step fails instead, after the append. |
| Engine.StepFinishesOnlyAtLastQuestion | bot.py:913-929 | Only the answer to the last insight question completes an interview. |
| Engine.Handle | bot.py:913-929 | The dispatch table. Only the last question completes, and only the score question can fail. With no conversation, nothing changes. Outside the pain loop and the name question, the pain under construction is kept. Only the name and score handlers touch the analysed pains, and only the two pain-point handlers touch the pain points. |
| Engine.HandleMovesForward | bot.py:913-929 | The conversation never goes back to an earlier question, except from the free-text pain point to the pain-point question and from a committed score to the next pain's name. |
| Engine.StepOfTrimmed | bot.py:189-632 | Every handler strips the message first, so a message without surrounding white space reaches the handler as it is. |
| Engine.RunAppend | bot.py:913-929 | Handling two batches of messages one after the other is handling their concatenation. |
| Reachability.StepKeepsInv | bot.py:343-533 | Every step keeps the conversation invariant. The invariant says: every stored pain is complete with a score in 1..10; inside the loop a named, complete pain is under construction; and no stored pain implies no most annoying pain. |
| Reachability.NeverAborts | bot.py:496-512 | While the user has a single conversation, no message sequence after `/start` ever reaches the `KeyError` on a nameless pain. |
| Reachability.DraftPresentInPainLoop | bot.py:392-505 | While the user has a single conversation, from the case question to the score question a complete pain is under construction. So the `{}` fallbacks are never used, and a valid score commits exactly that pain. |
| Reachability.ZeroScoreSynthesisUnreachable | bot.py:353-364 | While the user has a single conversation: at the name question, no stored pain means no most annoying pain. So an advance word never synthesises a zero-score entry and leaves the record unchanged. |
| Reachability.CommittedScoresInRange | bot.py:488-510 | While the user has a single conversation, every pain the record holds, during the conversation or at its end, has all five keys and a score from 1 to 10. |
| Transitions.PainPointSelectionIdempotent | bot.py:256-258 | Choosing the same pain point twice is the same as choosing it once. |
| Transitions.PainPointsStepKeepsDistinct | bot.py:256-258 | A step at the pain-point question never introduces a duplicate. |
| Transitions.SelectionsRecordedOnce | bot.py:230-277 | For any sequence of selections, the list keeps the earlier points, stays free of duplicates, and holds exactly the earlier points plus every chosen answer. |
| Transitions.OtherRouteCanDuplicate | bot.py:285-288 | Typing "Другое: x", then choosing "Другое" and typing "x", stores "Другое: x" twice. The handler looks up the bare text but appends the prefixed one. |
| Transitions.OtherRouteDropsBareMatch | bot.py:285-288 | A free-text "other" answer equal to an existing pain point is dropped. |
| Transitions.AdvanceIgnoresCase | bot.py:346-353 | An answer and its lower-cased form are equally an advance word or not. |
| Transitions.PainPointButtonsCaseSensitive | bot.py:239-258 | Pain-point controls compare exactly. "продолжить" is stored as a pain point, while "Продолжить" moves on. |
| Transitions.CapitalisedAdvance | bot.py:346-364 | At the name question "Продолжить" leaves the loop, because it is compared after lower-casing. |
| Transitions.UpperCaseAdvance | bot.py:346-364 | At the name question "NEXT" leaves the loop. |
| Transitions.InvalidScoreChangesNothing | bot.py:488-494 | Once an emotion is present, a text that is not a score from 1 to 10 leaves the record and the pain untouched, and the score is asked again. |
| Transitions.ScoreButtonsAccepted | bot.py:488-494 | Every number from 1 to 10 as written is accepted as that score. Every other number is rejected. |
| Transitions.FreeTextAnswersStored | bot.py:183-228 | The respondent answer stores the number and the current date. The day, main-pains and magic-wand answers each store the stripped text in their own field and move to the next question, and nothing else changes. |
| Transitions.InsightAnswersStored | bot.py:569-632 | The four insight answers fill the four insight fields in order. The last one completes the interview. |
| Aggregation.Flatten | bot.py:80-108 | Every text column of the row is the record's own answer, a missing respondent or date becoming the empty text. The pain points are joined with ", " and the capture time is kept. The row holds the first `min(10, n)` pains, in order, each as its five columns. |
| Aggregation.Group | bot.py:103-108 | A pain's columns are its name, emotion, case and reason, with the empty text for a missing key, and its score, with 0 for a missing one. |
| Aggregation.PointsJoined | bot.py:90 | Three pain points "queues", "noise" and "cold" are stored in one column as "queues, noise, cold". |
| Aggregation.FlattenKeepsCompletePains | bot.py:102-108 | A complete pain among the first ten is recovered exactly from its columns. |
| Aggregation.FlattenCapsGroups | bot.py:101-103 | A row has at most ten pain groups, and exactly ten when the record holds at least ten pains. |
| Aggregation.Save | bot.py:110 | Saving appends exactly one row, the flattened record, and leaves the earlier rows alone. |
| Aggregation.Stats | bot.py:798-834 | There is no summary without rows. Otherwise the summary gives the count and the first and last dates, and at most ten counted pains per row, the high ones among them. |
| Aggregation.CountScored | bot.py:827-832 | Within one row, each examined pain group counts at most once as scored. |
| Aggregation.CountHigh | bot.py:833-834 | The pains counted as high are among those counted as scored. |
| Aggregation.TotalScored | bot.py:826-832 | Over all rows, at most ten pains are counted per row. |
| Aggregation.TotalHigh | bot.py:826-834 | Over all rows, the high count never exceeds the scored count. |
| Aggregation.TotalsAppend | bot.py:826-834 | The counts over rows plus one more row are the counts over the rows plus that row's counts. |
| Aggregation.GroupsCount | bot.py:102-108 | Counting a record's flattened pain groups gives the record's own scored and high pains. |
| Aggregation.StatsAfterSave | bot.py:823-834 | After saving an interview, the respondent count grows by one and its date becomes the last date. The pain counts grow by exactly its pains among the first ten scored above 0, and, of those, the ones at 7 or more. |
| Report.Icon | bot.py:713 | "❗" exactly for scores of 7 or more, "⚠️" exactly for 4..6, "✓" exactly below 4. |
| Report.PainSectionBlock | bot.py:710-721 | Pain `i` of the report takes the six lines from `6*i` onwards, and they are numbered `i+1`. |
| Report.ReportFrame | bot.py:682-737 | `generate_report` gives 22 fixed lines, plus one per pain point (or a single "Нет" line), plus six per pain (or a single placeholder line). It opens with the title and the respondent line and ends with the willingness to pay. |
| Report.ReportPointLine | bot.py:693-695 | Line `5+i` of the report is the bullet for pain point `i`. |
| Report.ReportScoreLine | bot.py:712-716 | The second line of pain `i`'s block is its score line, with the icon. |
| Report.RenderSplitsIntoLines | bot.py:737 | `generate_report` joins its lines with newlines. When no answer contains a newline, splitting the rendered report at newlines gives back exactly those lines. |
| Report.ChunksOf | bot.py:648 | The pieces concatenate to the report. All are non-empty, none is longer than the limit, and all but the last are exactly the limit. |
| Report.ChunksOfUnique | bot.py:648 | Those properties determine the pieces uniquely. |
| Report.SplitReport | bot.py:646-652 | A report of up to 4000 characters is sent as one message. A longer one is sent as consecutive 4000-character pieces that put it back together. |
| Session.GetUserInterview | bot.py:146-150 | The user's record is returned, and created empty only when missing. No other user's record changes. |
| Session.GetUserInterviewIdempotent | bot.py:146-150 | A second lookup returns the same record and leaves the store unchanged. |
| Session.StartSession | bot.py:152-172 | `/start` warns exactly when the user already had a record, and replaces it with a fresh one. Other users and the pain under construction are untouched. |
| Session.StartBegins | bot.py:152-181 | After `/start`, the user's conversation is exactly where the engine begins one: at the respondent question, with a fresh record and the pain under construction left as it was. |
| Session.CancelSession | bot.py:858-866 | `/cancel` removes the user's record and pain under construction, and nothing else. |
| Session.CancelThenStart | bot.py:152-172 | After `/cancel`, `/start` gives no warning, a fresh record and no leftover pain. Without `/cancel`, a leftover pain survives `/start`. |
| Session.Apply | bot.py:626-668 | A continuing step stores the new record and pain. A failing one stores them and ends the conversation. A completing one appends one row, sends pieces that make up the report, and removes the user's record and pain. |
| Session.HandleText | bot.py:913-929 | Only the user's entries change. Without a conversation, text is ignored. Only the last question saves a row or sends a report. |
| Session.DetailStagesLeaveRecords | bot.py:392-470 | The case, reason and emotion answers never read or create the record, and always leave a pain under construction. |
| Session.MissingRecordCreated | bot.py:183-202 | Answering the respondent question without a record creates one holding the number and date. |
| Session.CompletionDiscardsSession | bot.py:626-668 | The last answer saves the flattened record, sends pieces of at most 4000 characters that concatenate to its report, and discards the user's record and pain. |
| Session.HandleTextIsStep | bot.py:146-150 | For a continuing conversation, the store afterwards holds exactly the engine step's new record and pain under construction. This includes the user with no record, for whom the record is created empty first. |
| Interleaving.SecondChatSynthesisesZeroScore | bot.py:343-364 | Two chats of one user at the name question over a record with no pains: a pain name in the first sets the most annoying pain, and an advance word in the second then stores that pain with score 0. |
| Interleaving.CompletionInOtherChatAborts | bot.py:392-512 | After one chat completes the interview, a second chat at the case question rebuilds the pain from `{}`. Its valid score commits an entry without a name, and the conversation fails without saving a row. |
| Session.StoredSessionsStayWellFormed | bot.py:472-533 | For the user's single conversation: from a stored session that keeps the conversation invariant, a message ends the conversation only at the last question, so no failing handler is reached. A conversation that goes on keeps the invariant. |
| Scenario.WholeInterview | bot.py:913-929 | For any answers without surrounding white space, a conversation through one pain point and one pain ends with exactly the expected record. The answers are in their fields, the date comes from the respondent step, the pain is complete with its score, and the name is the most annoying pain. The pain point must not be a control word, the name must not be an advance word, and the score must be valid. |
| Scenario.SampleInterview | bot.py:183-632 | A concrete interview in Russian and English, with a score of 8 and the advance word "дальше", completes with the expected record. |
| Scenario.SampleInterviewCounted | bot.py:823-834 | Saving that interview adds one respondent, one counted pain and one high pain to the statistics. |
| Scenario.MixedScores | bot.py:823-834 | A row with scores 2, 7, 9, 4 and 10 counts five pains, three of them high. |

## Left out

- Telegram transport is left out: replies, keyboards and `filters.TEXT & ~filters.COMMAND`. A message is its text.
- The reply texts are left out, apart from the report. These include the completion message and the "already active" warning; only whether the warning is given is modelled.
- `save_all_to_excel` and `export_all` are left out. They are pandas and openpyxl file output, not logic of the core.
- Logging, `error_handler`, `main` and the bot token are left out. They are I/O.
- `safe_markdown_text` is left out. It is never called on the interview path.
- Clocks are parameters. `datetime.now()` is passed in as the formatted reading, and the row's capture time as an opaque string.
- The `ConversationHandler` runtime is left out: re-entry, per-chat keys and concurrency. Each user's session is a map entry, and a message is handled against a stage given by the caller.
- The `Reachability` results cover one conversation per user. The handler keeps the stage per chat and user (bot.py:911-929), while the record (`interviews`) and the pain under construction (`current_pain` in the user's data) are kept per user. So one user in two chats can interleave two conversations over one record, and then both the `KeyError` (bot.py:512) and the zero-score entry (bot.py:355-363) are reachable (`Interleaving.CompletionInOtherChatAborts`, `Interleaving.SecondChatSynthesisesZeroScore`).
- `regular_problems_start` and `magic_wand_start` only send a prompt. They are modelled as the stage they return.
- Exceptions from I/O are left out: a failed `reply_text`, or the `generate_report` fallback. The only exception modelled is the `KeyError` on a nameless pain. The `save_to_global_database` failure branch is left out too, because appending a dictionary cannot fail in pure logic.
- Text.Lower: lower-cases ASCII and Cyrillic U+0400..U+042F only. Other Unicode capitals are unchanged, which is weaker than Python's full `str.lower()`.
- Text.ParseInt: accepts an optional sign and ASCII digits. Python's `int()` also accepts surrounding white space, underscores and non-ASCII digits. The handler strips the text first, so only the last two are lost.
- Aggregation.Stats: models the `isinstance(score, (int, float))` test as always true. Every stored score is an `int`, because scores only come from `int()` or the constant 0.
- Report.SplitReport: counts length in Unicode code points, as Python's `len` does. Telegram's own limit is not modelled.

## Behaviour of the code worth knowing

These are modelled as the code behaves.

- The pain-point list can hold the same text twice, through the "Другое"
  route: the handler looks up the bare text but stores the prefixed one
  (bot.py:287-288). `Transitions.OtherRouteCanDuplicate` shows such a run.
  Selections made with the buttons stay distinct
  (`Transitions.SelectionsRecordedOnce`).
- Leaving the pain loop can synthesise a zero-score entry (bot.py:355-363).
  In a conversation begun with `/start`, while the user has no other
  conversation with the bot, this never happens:
  `most_annoying` is set only together with the first pain, and that pain
  is stored before the name question comes back
  (`Reachability.ZeroScoreSynthesisUnreachable`). With two chats it does
  happen: one chat names the pain and the other answers "дальше"
  (`Interleaving.SecondChatSynthesisesZeroScore`).
- The score handler's `KeyError` (bot.py:512) is reachable in the same
  way. One chat completes the interview, which deletes `current_pain`. A
  second chat, still in the pain loop, rebuilds the pain from `{}` and
  commits a valid score for a pain without a name
  (`Interleaving.CompletionInOtherChatAborts`).
