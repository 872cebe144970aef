# Cost-center data-collection client, modelled in Dafny

This project models the client side of a chat-driven application that collects expense
data for cost centers. The user selects cost centers, starts a session on a remote
engine, and answers the engine's questions in a chat. The client keeps four pieces of
state:

- a mirror of the remote session and a derived session state with progress
  (`SessionManager`, components/session.js);
- the chat transcript and a per-session message history (`ChatManager`,
  components/chat.js);
- the export shaping: file names, CSV text and summary statistics (`ExportManager`,
  components/export.js);
- the application controller: the selection, the session record it creates, the
  progress bar and the reset (`CostCenterApp`, assets/js/app.js).

Network replies are parameters of the operations. Each is a `Reply` record holding the
`ok` flag, the status line, the raw text and a parsed body `{ success, data, error }`.
JavaScript's loose values are modelled explicitly:

- `undefined`, `null`, truthiness and `||` are `Value`, `Truthy` and `Or`;
- a session object is a map from its keys to values, and object spread is map union
  (`Spread`);
- the `TypeError` a null access throws is an `Error` with V8's message.

Modules, in dependency order:

- `Wrappers`: `Option` and `Result`.
- `Sequences`: `FlatMap` and its distribution over concatenation.
- `Text`: `includes`, `trim`, case mapping, `join`/`split` and number rendering, with
  their round trips.
- `Records`: cost centers, expense lines, JavaScript values, session objects, replies
  and errors.
- `SessionProgress`: `calculateProgress`, as a loop proved against a specification
  function.
- `Session`: the `SessionManager` class with its pure helpers and lemmas.
- `Transcript`: the pure logic of `ChatManager`: the duplicate-drop rule, the history
  log, the drafts each exchange appends, the consistency checks, the dispatch tables,
  the welcome text and the text export.
- `Selection`: the pure logic of `CostCenterApp`: the default centers, the selection
  toggle, the filter, the new session record and the field count.
- `Export`: filename sanitising, CSV rows, the summary and the `ExportManager` class.
- `Client`: the `ChatManager` and `CostCenterApp` classes, which call each other through
  `window.app` and `window.chatManager`, and the `SessionRecord` object the two share.

The app's session object is a `SessionRecord` class instance. The chat receives that
same object, so `handleSendMessage` writing to `window.app.currentSession` changes the
object the chat holds too. The session manager receives it by value, because
`updateSessionState` replaces its `currentSession` with a spread copy.

Behaviour of the code worth knowing, each stated as a member of the model:

- A failed exchange appends two messages: the user's message is posted before the
  request, and the `catch` posts a `system` error message (components/chat.js:100-199,
  `Transcript.FailedExchangeAppendsTwo`).
- A hard reset posts a notice and drops the three session references, but keeps
  `messages` and `messageHistory` (components/chat.js:715-739,
  `Client.ChatManager.HandleSessionReset`).
- The periodic sync interval keeps running once the session is complete; each tick only
  skips the request (components/session.js:315-325, `Session.SessionManager.SyncTick`).
- When a reply carries both centers, the chat's update prefers `nextCenter` while the
  session manager's prefers `updatedCenter`, so the two mirrors can disagree
  (components/chat.js:159-170, `Transcript.CenterPrecedenceDisagrees`).
- A finishing reply is announced twice. `handleSessionComplete` and
  `handleSpecialResponse` both post the same `success` message, and only `bot` messages
  are de-duplicated (components/chat.js:180-186, `Transcript.CompletionAnnouncedTwice`).
- The app's progress bar never moves. `completedFields` stays 0, so the text is
  `0% completo`, or `NaN% completo` when no field is selected (assets/js/app.js:374-382,
  `Client.ProgressBarNeverMoves`).

## Model

| member | source | states |
|---|---|---|
| `Text.TrimStart` | components/chat.js:81 | the result is a suffix of the input; what was cut is all whitespace; the result does not start with whitespace |
| `Text.TrimEnd` | components/chat.js:81 | the result is a prefix of the input; what was cut is all whitespace; the result does not end with whitespace |
| `Text.TrimmedSlice` | components/chat.js:81 | `trim()` returns a contiguous slice of the input, with only whitespace on either side and no whitespace at either end |
| `Text.TrimEmptyIff` | components/chat.js:92 | the trimmed input is empty exactly when the input is all whitespace, which is when `handleSendMessage` gives up |
| `Text.TrimIdempotent` | components/chat.js:81 | trimming twice is trimming once |
| `Text.ToLower` | components/export.js:294 | `toLowerCase()` maps each character and keeps the length |
| `Text.ToUpper` | components/chat.js:655 | `toUpperCase()` maps each character and keeps the length |
| `Text.ToLowerIdempotent` | components/export.js:294 | a lower-cased text has no upper-case letter, and lower-casing it again changes nothing |
| `Text.SplitJoin` | components/chat.js:657 | splitting a `join` on its separator gives back the parts, when no part contains the separator |
| `Text.JoinSplit` | components/chat.js:657 | joining the parts of a split on the same separator gives back the text |
| `Text.SplitParts` | components/chat.js:657 | no part of a split contains the separator |
| `Text.JoinAvoids` | components/export.js:456 | a join contains a character only if a part or the separator contains it |
| `Text.NatToString` | components/chat.js:586 | the decimal rendering of a count is non-empty and all digits |
| `Text.IntToString` | components/export.js:185 | the rendering of an integer is non-empty and made of digits and `-` |
| `Text.ParseNatToString` | components/chat.js:586 | reading back a rendered count gives the count |
| `Text.ParseIntToString` | components/export.js:185 | a rendered integer is a `-` only in front of digits, and reading it back gives the integer |
| `Text.IntToStringInjective` | components/export.js:185 | distinct integers render differently |
| `Records.Spread` | components/session.js:257 | `{ ...base, ...update }` has the keys of both; keys of the update take its values; other keys keep the base's; a null base adds nothing |
| `Records.TotalItemsConcat` | components/session.js:279-303 | the item count of two lists of centers is the sum of their counts |
| `SessionProgress.CenterValues` | components/session.js:279-303 | a center contributes one value per expense line over its three lists |
| `SessionProgress.RoutineValues` | components/session.js:281-286 | one `amount` per routine line, none for a missing list |
| `SessionProgress.EmployeeValues` | components/session.js:289-294 | one `salaryBenefits` per employee line, none for a missing list |
| `SessionProgress.EquipmentValues` | components/session.js:297-302 | one `currentValue` per equipment line, none for a missing list |
| `SessionProgress.CountFilled` | components/session.js:283-285 | the number of filled values (present and above 0) never exceeds the number of values |
| `SessionProgress.Percentage` | components/session.js:305-310 | `Math.round(completed / total * 100)` in integers: 0 for no fields, otherwise the integer nearest to 100·c/t with halves rounded up |
| `SessionProgress.ProgressOf` | components/session.js:276-311 | the progress over a list of centers never counts more completed fields than fields, and is 0% over no fields |
| `SessionProgress.ProgressResult` | components/session.js:271-312 | `{0,0,0}` for a null session; the progress of the centers otherwise; the `forEach` TypeError exactly when a truthy `costCenters` is not an array |
| `SessionProgress.CalculateProgress` | components/session.js:271-312 | the `forEach` loop computes `ProgressResult`; on success completed ≤ total and the percentage ≤ 100 |
| `SessionProgress.PrefixStep` | components/session.js:279-303 | one loop step adds the center's line count to the total and its three filled counts to the completed count |
| `SessionProgress.CountFilledConcat` | components/session.js:283-301 | filled values of two lists add up |
| `SessionProgress.AllValuesConcat` | components/session.js:279-303 | the values of two lists of centers are the values of each, in order |
| `SessionProgress.TotalFieldsIsItemCount` | components/session.js:279-303 | `totalFields` is the sum over all centers of the three list lengths |
| `SessionProgress.PercentageRange` | components/session.js:305-310 | the percentage lies in 0..100; it is 0 with nothing completed and 100 when all fields are completed |
| `SessionProgress.ProgressInRange` | components/session.js:271-312 | for every list of centers, completed ≤ total and the percentage ≤ 100 |
| `SessionProgress.FillOneField` | components/session.js:283-301 | filling one unfilled value raises the completed count by exactly one |
| `SessionProgress.ThreeLineScenario` | components/session.js:279-310 | three empty routine lines give 3/0/0%; filling one gives 3/1/33% |
| `Session.StateFrom` | components/session.js:259-265 | `isActive` defaults to true only when undefined; a truthy `isComplete`, center or field is kept as given, and a falsy one becomes false or null; the progress is the one given |
| `Session.ResolveId` | components/session.js:72 | `sessionId \|\| this.currentSession?.sessionId`: the explicit id when truthy, else the stored session's |
| `Session.ReplyData` | components/session.js:130-163 | success iff the reply is ok with `success` and `data`, giving `data`; a not-ok reply fails with `HTTP status: text`; otherwise the reply's error or the fallback |
| `Session.MessageUpdate` | components/session.js:143-146 | the update has exactly `currentCostCenter` and `isComplete`; `updatedCenter` wins over `nextCenter`; `isComplete` is `finished`, so it can go back to false |
| `Session.Without` | components/session.js:395-397 | the filter keeps exactly the listeners that differ from the callback |
| `Session.LengthOr0` | components/session.js:355 | `costCenters?.length \|\| 0`: the list length, 0 for anything without a length |
| `Session.CenterNameOr` | components/session.js:357 | `currentCostCenter?.name \|\| 'Nenhum'`: the center's name when non-empty, `Nenhum` without a center, never empty |
| `Session.MissingFields` | components/session.js:367-368 | a required key is reported missing iff its value is falsy |
| `Session.FieldNames` | components/session.js:371 | each missing key is rendered by its name, in order |
| `Session.ValidateSession` | components/session.js:366-375 | true iff both `sessionId` and `costCenters` are truthy; otherwise the error lists the missing ones, comma-separated |
| `Session.MessageStateAndSync` | components/session.js:143-153 | after a message reply the state is active, `isComplete` is `finished`, the center is `updatedCenter`, else `nextCenter`, else null, and the periodic sync stays on iff the reply did not finish |
| `Session.ProgressIgnoresMergedSession` | components/session.js:257-264 | the progress is computed from the incoming update, not the merged session: a message update keeps the centers in the session yet resets the progress to zeros |
| `Session.MissingFieldsOrder` | components/session.js:367-368 | missing keys are reported in the order `sessionId`, `costCenters` |
| `Session.WithoutConcat` | components/session.js:395-397 | filtering a concatenation filters each part |
| `Session.WithoutAbsent` | components/session.js:395-397 | removing a callback that is not registered changes nothing |
| `Session.WithoutIdempotent` | components/session.js:395-397 | removing a callback twice is removing it once |
| `Session.AddThenRemove` | components/session.js:378-397 | adding a callback and then removing it is the same as removing it alone |
| `Session.SessionManager.constructor` | components/session.js:3-19 | no session, the initial all-false state with zero progress, no listeners |
| `Session.SessionManager.Subscribers` | components/session.js:383-387 | an event with no list has no subscribers |
| `Session.SessionManager.Initialize` | components/session.js:21-29 | a null session changes nothing; otherwise the session is stored and the state derived from it, unless progress throws |
| `Session.SessionManager.UpdateSessionState` | components/session.js:254-268 | null input is a no-op; otherwise the session becomes the spread merge and the state derives from the incoming data; a non-array `costCenters` throws after the merge and keeps the old state |
| `Session.SessionManager.GetSessionState` | components/session.js:71-98 | without an id nothing is sent and it throws; a failed reply throws and changes nothing; a good reply merges `data` and derives the state from it; the events fired match |
| `Session.SessionManager.SendMessage` | components/session.js:101-170 | without an id nothing is sent; a failed reply throws and changes nothing; a good reply merges `MessageUpdate`, derives the state from the update alone and returns the whole body |
| `Session.SessionManager.SendCommand` | components/session.js:173-212 | the same id and reply checks as a message; success fires `commandResponse` and updates nothing |
| `Session.SessionManager.SyncTick` | components/session.js:315-325 | a tick requests only when a session exists, is active and is not complete, and only if that session has a truthy id; a good reply is merged and the state derived as `getSessionState` does, and a failed one changes nothing |
| `Session.SessionManager.Cleanup` | components/session.js:328-343 | the session and state are reset, sync is off, listeners are kept; repeating it gives the same state |
| `Session.SessionManager.Summary` | components/session.js:346-363 | null without a session; otherwise the session's id, user id, creation time and centers count, with the progress, center name (or `Nenhum`) and flags of the state |
| `Session.SessionManager.AddEventListener` | components/session.js:378-388 | the callback is appended to its event's list, created when missing |
| `Session.SessionManager.RemoveEventListener` | components/session.js:390-398 | an unknown event is a no-op; otherwise every occurrence of the callback is removed and the others are kept in order |
| `Transcript.AddResult` | components/chat.js:273-305 | a malformed draft is dropped; a bot draft repeating the immediately preceding bot message is dropped; everything else is appended; non-bot drafts are never dropped |
| `Transcript.Logged` | components/chat.js:297-305 | accepted messages are appended to the bound session's history; no other session's history or presence changes; no session logs nothing |
| `Transcript.Inconsistencies` | components/chat.js:741-776 | the confirm rule fires iff the user wrote `confirmo` or `próximo` and the bot says `valor numérico`; the numeric rule iff the input is a number and the bot asks for one again |
| `Transcript.AuditDrafts` | components/chat.js:751-764 | a recovery notice is posted exactly when the confirm rule fires, and nothing else |
| `Transcript.SpecialDrafts` | components/chat.js:542-572 | at most two notices: the finish notice iff finished without a next center; the center-done notice iff a next center is given; a final system notice iff an error is given |
| `Transcript.ApplyExchange` | components/chat.js:159-170 | `nextCenter` wins over `updatedCenter`, else the center is kept; `isComplete` becomes true on `finished` and is never cleared; other keys are kept |
| `Transcript.ReplyDrafts` | components/chat.js:127-199 | a failed exchange posts exactly one system message with the error text |
| `Transcript.SendDrafts` | components/chat.js:78-203 | an empty message or a missing session posts nothing; otherwise the trimmed user message comes first |
| `Transcript.CommandDrafts` | components/chat.js:221-270 | the command echo comes first; a failure adds exactly one system message |
| `Transcript.CommandRoute` | components/chat.js:210-219 | `debug estado` and `reset sessão`, in any letter case, stay local; anything else is sent |
| `Transcript.ClassifyActions` | components/chat.js:385-401 | confirm buttons iff `Registrado` and `R$`; a continue button iff not that, not a question about `gasto`/`valor`, and `próximo` or `Agora vamos` |
| `Transcript.QuickReplyText` | components/chat.js:442-450 | the three buttons map to their fixed sentences; any other text passes unchanged |
| `Transcript.WelcomeText` | components/chat.js:582-593 | the current question when there is one; otherwise the greeting with the number of loaded centers |
| `Transcript.ExportChat` | components/chat.js:624-641 | throws without a session; otherwise exports that session's history in order, with its length as the count |
| `Transcript.Line` | components/chat.js:653-657 | the line is `[time] `, the upper-cased type, then `: ` and the content, with the length of those parts |
| `Transcript.Lines` | components/chat.js:652-658 | one line per message, in order |
| `Transcript.AddResultAppends` | components/chat.js:273-305 | the transcript only grows, by at most one message |
| `Transcript.AddAllIsAccepted` | components/chat.js:273-305 | a run of appends adds exactly the accepted messages at the end |
| `Transcript.AddAllConcat` | components/chat.js:273-305 | two runs of appends are one run over both draft lists |
| `Transcript.AddAllSnoc` | components/chat.js:273-305 | the last draft of a run is appended to the result of the others |
| `Transcript.LoggedConcat` | components/chat.js:297-305 | logging twice is logging the concatenation |
| `Transcript.AddResultKeepsNoBotRepeat` | components/chat.js:288-298 | appending never creates two consecutive identical bot messages |
| `Transcript.AddAllKeepsNoBotRepeat` | components/chat.js:288-298 | no run of appends creates two consecutive identical bot messages |
| `Transcript.HistoryCanRepeat` | components/chat.js:289-305 | the drop rule looks only at `messages`, so after a clear the history can hold the same bot message twice |
| `Transcript.FailedExchangeAppendsTwo` | components/chat.js:100-199 | a failed exchange appends the user message and one system error message, nothing else |
| `Transcript.AddTwo` | components/chat.js:273-305 | two well-formed non-bot drafts are both appended, in order |
| `Transcript.NumericRuleOnlyLogs` | components/chat.js:744-749 | a numeric input never triggers a transcript message: that rule only logs |
| `Transcript.NumericChars` | components/chat.js:745 | a text matching the numeric pattern has only digits and dots |
| `Transcript.NumericHasNoLetter` | components/chat.js:745 | a numeric text contains no word that starts with a letter |
| `Transcript.ConfirmReplyConfirms` | components/chat.js:444-445 | the confirm button's sentence contains `confirmo`, so it arms the confirm rule |
| `Transcript.NextReplyConfirms` | components/chat.js:448-449 | the next-item button's sentence contains `próximo`, so it arms the confirm rule |
| `Transcript.CommandRouteIgnoresCase` | components/chat.js:211-216 | routing a lower-cased command is routing the command |
| `Transcript.SpecialDraftsExclusive` | components/chat.js:544-562 | the finish notice and the center-done notice are never both posted |
| `Transcript.CenterPrecedenceDisagrees` | components/chat.js:159-170 | with both centers given, the app's copy takes `nextCenter` and keeps `isComplete`, while the manager's takes `updatedCenter` and clears it |
| `Transcript.ApplyKeepsComplete` | components/chat.js:167-170 | a completed app session stays completed after any reply |
| `Transcript.CompletionAnnouncedTwice` | components/chat.js:180-186 | a finishing reply without a next center posts the finish notice twice after the bot message |
| `Transcript.FormatLinesRoundTrip` | components/chat.js:652-658 | splitting the text export on newlines gives back one line per message, when no field holds a newline |
| `Selection.DefaultCostCenters` | assets/js/app.js:49-90 | three centers with ids 1, 2, 3 and 5, 3, 3 routine lines, all amounts 0, empty employee and equipment lists |
| `Selection.LoadedCenters` | assets/js/app.js:31-47 | the fetched list when every center has its three lists; the defaults when the fetch fails or rendering would throw |
| `Selection.Remove` | assets/js/app.js:115 | the id is gone, every other id is kept, and no id is repeated |
| `Selection.Toggled` | assets/js/app.js:113-120 | the id flips membership; no other id changes; no id is repeated |
| `Selection.SelectedCenters` | assets/js/app.js:211-213 | the filter keeps exactly the centers whose id is selected |
| `Selection.FindCenter` | assets/js/app.js:366 | `find` returns the first center with that id, or none when no center has it |
| `Selection.StartOutcome` | assets/js/app.js:239-282 | success iff ok with `success` and `data`; a not-ok reply gives the detailed HTTP error; otherwise the reply's error or `Erro ao criar sessão` |
| `Selection.NewSessionRecord` | assets/js/app.js:254-262 | the record has exactly seven keys: the reply's id, center and question, active, not complete, the creation time and the selected centers |
| `Selection.StartWelcome` | assets/js/app.js:311 | the current question when there is one, else the fixed greeting |
| `Selection.ToggleTwice` | assets/js/app.js:113-120 | toggling an id twice restores the selection |
| `Selection.RemoveLast` | assets/js/app.js:115 | removing the id just added restores the list |
| `Selection.SelectedCentersConcat` | assets/js/app.js:211-213 | filtering a concatenation filters each part |
| `Selection.SelectOneMore` | assets/js/app.js:365-372 | selecting one more id adds that center's field count to the total over the selection |
| `Selection.SelectedCountIsTotal` | assets/js/app.js:362-372 | the progress bar's field count is the item count of the selected centers, which is the session progress's total |
| `Selection.DefaultProgress` | assets/js/app.js:49-90 | the default centers have 11 fields, none completed |
| `Selection.NoneFilled` | assets/js/app.js:56-84 | zero amounts count as not filled |
| `Selection.NewRecordState` | assets/js/app.js:254-262 | a new record is active, not complete, holds a center list, and its progress is that of the selected centers |
| `Export.ReplaceForbidden` | components/export.js:292 | each of `< > : " / \ \| ? *` becomes `_`; other characters are kept, in place |
| `Export.CollapseSpace` | components/export.js:293 | the result holds no whitespace, and only `_` or characters of the input |
| `Export.SanitizeFilename` | components/export.js:289-295 | the name holds no forbidden character, no whitespace and no upper-case letter |
| `Export.ReplaceForbiddenNoop` | components/export.js:292 | a text without forbidden characters is unchanged |
| `Export.CollapseSpaceNoop` | components/export.js:293 | a text without whitespace is unchanged |
| `Export.CollapseRun` | components/export.js:293 | a whitespace run before a non-space becomes a single `_` |
| `Export.SanitizeIdempotent` | components/export.js:289-295 | sanitising twice is sanitising once |
| `Export.CenterFileNamesDistinct` | components/export.js:185 | two centers with the same per-center file name have the same id |
| `Export.CenterFileNameShape` | components/export.js:185 | a per-center file name is `cost_center_`, the id, then `_` and the sanitised name |
| `Export.RowFields` | components/export.js:416-423 | a row has six fields |
| `Export.RoutineItems` | components/export.js:414-425 | one routine row per routine line |
| `Export.EmployeeItems` | components/export.js:428-439 | one employee row per employee line |
| `Export.EquipmentItems` | components/export.js:442-453 | one equipment row per equipment line |
| `Export.Items` | components/export.js:412-453 | one item per expense line of the center |
| `Export.RowsOf` | components/export.js:412-453 | one row per item |
| `Export.CenterRows` | components/export.js:412-453 | a center gives one row per expense line |
| `Export.CenterRowsSplit` | components/export.js:412-453 | a center's rows are its routine rows, then employee rows, then equipment rows |
| `Export.RowsOfConcat` | components/export.js:412-453 | rows of two item lists are the rows of each, in order |
| `Export.ConvertToCSV` | components/export.js:396-457 | throws `Dados não encontrados` without centers; otherwise the nested loops produce the header followed by the centers' rows, joined by newlines |
| `Export.PushRows` | components/export.js:415-424 | the inner loop appends exactly the item rows, in order |
| `Export.CsvRowCount` | components/export.js:410-456 | one CSV row per expense line over all centers |
| `Export.CsvRowsConcat` | components/export.js:412-454 | the rows of two lists of centers are the rows of each, in order |
| `Sequences.FlatMapConcat` | components/export.js:412-454 | generating rows center by center distributes over concatenation of the center lists |
| `Export.CsvRowsStep` | components/export.js:412-454 | each center's rows follow the rows of the centers before it |
| `Export.RowFieldsRoundTrip` | components/export.js:416-423 | splitting a row on commas gives back its six fields, when names contain no comma |
| `Export.CsvLinesRoundTrip` | components/export.js:410-456 | splitting the CSV on newlines gives back the header and the rows |
| `Export.HeaderThenRows` | components/export.js:401-410 | the header line followed by newline-free rows splits back into the same lines |
| `Export.HeaderWithoutNewline` | components/export.js:401-410 | the header holds no newline |
| `Export.RowWithoutNewline` | components/export.js:416-423 | a row holds no newline when its texts hold none |
| `Export.SummaryCountsItems` | components/export.js:258-275 | the summary's three expense counts add up to the number of expense lines |
| `Export.SummaryMatchesCenters` | components/export.js:247-274 | the summary counts every center and has one entry per center, in order, holding that center's id, name, amount (0 when missing) and three list lengths |
| `Export.ExportReply` | components/export.js:136-146 | success iff ok with `success`, giving `data` (possibly absent); a not-ok reply fails with `HTTP status: text`; otherwise the reply's error or `Falha no export` |
| `Export.IndividualFiles` | components/export.js:171-237 | with JSZip, one ZIP; without it, one file per center and the summary, or an error when the centers are missing; absent data throws the TypeError |
| `Export.ZipEntries` | components/export.js:183-192 | one entry per center, named as that center's file, then `session_summary.json` |
| `Export.ZipMatchesSequential` | components/export.js:171-237 | the zip holds the same per-center files, in the same order, as the sequential fallback; only the summary's name differs |
| `Export.ExportManager.constructor` | components/export.js:3-8 | no session |
| `Export.ExportManager.SetSession` | components/export.js:460-462 | the session is the one given |
| `Export.ExportManager.GetExportData` | components/export.js:120-152 | without a session it throws before any request; otherwise it returns the reply check |
| `Export.ExportManager.ExportStatistics` | components/export.js:465-476 | null without a session; otherwise the session's id, `canExport` equal to `isComplete` when truthy and false otherwise, the centers count and the three formats |
| `Export.ExportManager.ExportToCSV` | components/export.js:374-394 | throws without a session; propagates a failed reply, absent data and missing centers; otherwise downloads the CSV as `cost_centers_{id}.csv` |
| `Export.ExportManager.CreateSessionSummary` | components/export.js:239-287 | the loop builds `SummaryOf`: session identity, statistics and one entry per center; without a session the null access throws |
| `Export.ExportManager.HandleDownload` | components/export.js:76-118 | without a session it shows a fixed message; a failed reply shows the error; otherwise it downloads the consolidated file or the individual files |
| `Client.SessionRecord.constructor` | assets/js/app.js:254-262 | the object holds the given fields |
| `Client.RequestOutcome` | components/chat.js:127-190 | no manager throws `Session Manager não disponível`; no id throws before sending; otherwise the reply check of the manager |
| `Client.Synced` | components/chat.js:120-125 | after the sync check the manager holds the chat's session id, and a matching manager session is left alone |
| `Client.SyncAlignsIds` | components/chat.js:120-129 | after the sync check the manager sends with the chat's session id |
| `Client.ChatManager.constructor` | components/chat.js:3-10 | empty transcript, no session, empty history |
| `Client.ChatManager.AddMessage` | components/chat.js:273-322 | the transcript is `AddResult` and the history logs what was accepted under the bound session |
| `Client.ChatManager.AddDrafts` | components/chat.js:273-305 | a run of `addMessage` calls appends and logs the accepted drafts |
| `Client.ChatManager.ClearMessages` | components/chat.js:616-622 | the transcript is emptied and the history is kept |
| `Client.ChatManager.Initialize` | components/chat.js:19-23 | the session is bound; a session with stored history clears the transcript first; then the welcome text is added |
| `Client.ChatManager.ShowDebugInfo` | components/chat.js:687-713 | one system message with the debug text, whose sync flags compare the manager's and the app's session ids with the chat's |
| `Client.ChatManager.HandleSessionReset` | components/chat.js:715-739 | posts the reset notice and sets the chat's, the manager's and the app's session to null, changing nothing else |
| `Client.ChatManager.HandleReply` | components/chat.js:144-199 | the reply's drafts are posted, and the app's session object gets the chat's update of the reply |
| `Client.ChatManager.ApplyReply` | components/chat.js:144-186 | the drafts up to the bot message, the update of the app's session, then the notices |
| `Client.ChatManager.HandleSendMessage` | components/chat.js:78-203 | an empty message or a missing session does nothing; otherwise the trimmed message and the reply's drafts are posted, the manager is synced and updated, and the app's session is updated on success |
| `Client.ChatManager.Exchange` | components/chat.js:100-199 | the user message, then the request through the manager, then the reply handling |
| `Client.ChatManager.SendQuickReply` | components/chat.js:437-454 | sending a button is sending its mapped sentence: the same transcript, history, manager and shared-record effects as a typed message, nothing sent and the manager unchanged when there is no session, and the manager's listeners kept |
| `Client.ChatManager.HandleCommand` | components/chat.js:205-271 | nothing without a session; `debug estado` posts the debug message; `reset sessão` posts the notice and drops the chat's, the manager's and the app's session; any other command is echoed, sent and answered; the app, the manager's state and its listeners are otherwise unchanged |
| `Client.ChatManager.RunCommand` | components/chat.js:221-270 | the echo, then the reply's bot messages and notices, or one system error message |
| `Client.ChatManager.ExportChatHistory` | components/chat.js:624-641 | throws without a session; otherwise exports the session's history |
| `Client.LoggedSameId` | components/chat.js:299-304 | the history depends only on the bound session's id |
| `Client.SendThrough` | components/chat.js:120-129 | the sync check, then `sendMessage` on the manager, or the missing-manager error |
| `Client.SendGlue` | components/chat.js:100-199 | the user message followed by the reply's drafts is one run of appends |
| `Client.AcceptedOne` | components/chat.js:273-305 | a single append is `AddResult` |
| `Client.CostCenterApp.constructor` | assets/js/app.js:3-47 | the setup screen, no session, empty selection, the loaded centers, the start button disabled |
| `Client.CostCenterApp.ToggleCostCenter` | assets/js/app.js:113-125 | the id flips membership and the start button is disabled iff the selection is empty |
| `Client.CostCenterApp.CountSelectedFields` | assets/js/app.js:362-372 | the loop over the selection sums the three list lengths of each selected center found |
| `Client.CostCenterApp.UpdateProgress` | assets/js/app.js:340-383 | nothing without a session; otherwise the center line and the progress text over the field count |
| `Client.CostCenterApp.StartSession` | assets/js/app.js:201-294 | nothing without a selection; a failed reply shows the error and keeps the session; a good reply stores the new record, greets twice in the chat, and hands the record to the manager; the manager's listeners are kept |
| `Client.CostCenterApp.Open` | assets/js/app.js:252-277 | the new session object is created, the chat is started on it and the manager takes it, keeping its listeners |
| `Client.CostCenterApp.ResetToSetup` | assets/js/app.js:438-451 | no session, empty selection, start button disabled, setup screen |
| `Client.StartChat` | assets/js/app.js:264-271 | the app's greeting, then `chatManager.initialize` with the same object |
| `Client.HandOver` | assets/js/app.js:272-277 | the manager is initialised with the record and then holds it, keeping its listeners |
| `Client.QuestionShownOnce` | assets/js/app.js:311-318 | with a current question both greetings are that question, and the second is dropped as a repeat |
| `Client.BothGreetingsWithoutQuestion` | assets/js/app.js:311-318 | without a question the two greetings differ and both are posted |
| `Client.ProgressBarNeverMoves` | assets/js/app.js:374-382 | the progress text is `0% completo`, or `NaN% completo` exactly when no field is selected |

## Left out

- Rendering is not modelled: element creation, animation, scrolling, the typing indicator, focus, modals, alerts and injected CSS. `formatBotMessage` is presentation, so it is left out too.
- `fetch`, HTTP and JSON parsing are not modelled. Every reply is a parameter, and one reply is used per request.
- Timers and `await` interleaving are not modelled: the 30-second sync interval, the 2-second redirect after a reset, staggered downloads and message auto-removal. Only the sync guard is modelled (`SyncTick`).
- The transient `loading` screen that `startSession` shows during the request is not modelled. The model shows only the screen at the end.
- Dates and locale are opaque. A `Time` carries its ISO and clock texts, and one `Time` stands for every `new Date()` of an operation.
- `JSON.stringify`, JSZip, `Blob` and file delivery are not modelled. A download is its file name and, for CSV, its text.
- Floating point is not modelled. Amounts are integers, and the session percentage is integer rounding of the exact ratio. `progressPercent` in app.js is only modelled as the text it shows.
- `toLowerCase` is modelled for ASCII and Latin-1 letters and `toUpperCase` for ASCII letters only. Full Unicode case mapping is not modelled. Message types, the only upper-cased texts, are ASCII.
- `window.app`, `window.sessionManager` and `window.chatManager` are parameters. The model assumes the app's chat manager is the chat that receives the session.
- Console logging is not modelled, including the two log-only consistency rules, which are modelled only as predicates.
- `createSession`, `finalizeCostCenter`, `getFormattedSessionData` and `previewExportData` are not modelled. They are not part of this model.
- The chat's `cleanup`, its event registry and `triggerChatEvent` are not modelled. They are not part of this model.
- `checkApiHealth` and the app's fallback `addMessage` are not modelled, because the chat manager always exists in the model.
- Chat history inside the export summary is not modelled. The summary is built without it.
- The CSV fields are quoted but not escaped, as in the code. The round-trip lemmas assume names without commas or newlines.
- Session ids are compared by value. Two distinct objects with equal ids are the same history key in the model, as they are in the code's `Map` for strings.
- The start button's initial disabled state comes from the page markup. The constructor assumes it.
- `ExportManager.setSession` is never called by the app, so the export manager's session is set only through `SetSession`.
