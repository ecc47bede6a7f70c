# A verified model of agent threads, and of the codecs around them

This project models the parts of the editor that decide what an agent conversation
looks like, and proves what they promise for every input and every run.

* **The agent thread** (`crates/acp_thread`). `ThreadModel` is the thread as a state
  machine: its transcript, the store of Markdown texts, the streaming buffer, the plan,
  turns and their send tasks, terminals, and a ledger of permission requests. An event
  is anything that can happen to it, and a run is any sequence of events, so sends,
  chunks, timer ticks, tool updates, cancels, completions and rewinds interleave freely.
  `AcpThreads.AcpThread` is the object itself, changing in place. It is valid when it is in
  the state its recorded history leads to; `Handle` keeps it so, and every theorem about runs
  holds of a valid object. Each operation is a method proved against its function in
  `ThreadModel`; the table below lists those with loops. The theorems are in `Streaming`,
  `Chunks`, `Reveal`, `Grouping`, `Permissions`, `ToolHistories`, `ToolFields`, `StartTimes`,
  `ToolCalls`, `Turns`, `Overlaps`, `ThreadTurns`, `Refusal`, `LateRefusals`, `Terminals`,
  `ThreadTerminals` and, for what single events do, `Effects`.
* **Two text and interval algorithms** of the same crate: `Excerpts` (which ranges of a
  diff are shown) and `TerminalOutput` (output cut to a byte limit), over UTF-8 as bytes
  (`Utf8`). The reveal rate is computed in binary32 (`Float32`), rounding included.
* **Printers and their parsers**: `Mentions` and `MentionLinks`, the duplicate-magnet report
  (`Magnets`, `MagnetRoundTrip`, `MagnetReport`, over the Python string operations in
  `PyStrings`), and the vendor section of a consent string (`TcfBits`, `TcfVendors`,
  `TcfRoundTrip`, `TcfLayout`).
* **Migration** of saved threads from version 0.1.0 (`LegacyThread`).

## What the code does, where its promises do not hold as stated

* A refusal removes the last user message that has arrived, whichever turn was refused: the
  handler checks the turn id only before it clears `running_turn`. Handled after a newer
  message has arrived, it takes that one (`LateRefusals.LateRefusalDropsNewestMessage`,
  `LateRefusals.LateRefusalHappens`); while the newer one has only been sent, it takes its own
  (`LateRefusals.RefusalBeforeArrival`). A retry, or a turn whose message was rewound, has none
  of its own, and the message before it goes.
* After a bare `cancel`, the body of the next turn may start while the old one still runs
  (`Turns.CancelAllowsOverlap`). Follow-up sends are safe exactly when every task that
  `running_turn` does not hold or wait for is over (`Overlaps.WhenBodiesStayApart`).
* An unrecognised content item leaves the old item in place and shortens the list.
  `ToolCalls.WhenUpdateEqualsRebuild` says for which lists that goes wrong.
* A diff is considered unchanged when its two texts are, whatever its path, so a diff that was
  only renamed keeps its old path, and nothing else does (`ToolCalls.WhenUpdateIsRebuild`,
  `ToolCalls.RenamedDiffKeepsPath`).
* The scan of the vendor encoder counts a lone id as 16 bits, though it is written in 17.
  Hence a set of 4096 lone ids with the largest at 65533 or more cannot be encoded at all
  (`TcfRoundTrip.WhenEncodable`, `TcfRoundTrip.EncodingCanFail`).
* File paths with percent escapes are decoded by the mention parser and do not come back
  (`Mentions.RoundTrip`, `Mentions.FilesThatChange`).
* The 0.1.0 upgrade overwrites results when a message that already has some is followed by
  a message that carries more (`LegacyThread.ResultsSurvive`).
* `authorize_tool_call` sets a call in progress without stamping its start, and no later update
  to in-progress stamps it (`StartTimes.WhenStartIsMissing`,
  `StartTimes.AllowedCallIsNeverStamped`).
* A terminal id that is registered again gets a new, empty terminal
  (`Terminals.LiveTerminalIsUpToDate`).

## Model

| member | source | states |
|---|---|---|
| `Streaming.BufferedRefinesUnbuffered` | crates/acp_thread/src/acp_thread.rs:1781-1986 | in every run, each block's shown text followed by the text pending for it is the text of a thread without a buffer, all else is equal, and the buffer aims at no block of the transcript but its very last |
| `Streaming.StepRefines` | crates/acp_thread/src/acp_thread.rs:1892-1986 | one event commutes with flushing: flush after the event is the same event of the unbuffered thread after a flush |
| `Streaming.StepAnchored` | crates/acp_thread/src/acp_thread.rs:1853-1986 | every event keeps block handles increasing along the transcript and the buffer aimed at its end |
| `Streaming.TickRefines` | crates/acp_thread/src/acp_thread.rs:1942-1980 | a tick moves text from the buffer to the block and changes nothing else |
| `Float32.RoundError` | crates/acp_thread/src/acp_thread.rs:1901-1904 | rounding to binary32 is off by at most one part in 2^24 |
| `Float32.ThirteenTicksCover` | crates/acp_thread/src/acp_thread.rs:1901-1916 | thirteen ticks at the computed rate cover a text of any length |
| `Float32.TwelveTicksDoNot` | crates/acp_thread/src/acp_thread.rs:1231-1237 | twelve ticks do not cover any text of more than 301 bytes, nor one of more than 1204 when each tick goes on to the end of a character |
| `Float32.RateIsExact` | crates/acp_thread/src/acp_thread.rs:1901-1904 | below two million bytes the rate is two bytes in 25, rounded up, in spite of all roundings |
| `Reveal.TwelveTicksLeaveText` | crates/acp_thread/src/acp_thread.rs:1892-1923 | whatever is buffered, after more than 1204 bytes of new text twelve ticks leave some of it pending |
| `Reveal.ThirteenTicksDrain` | crates/acp_thread/src/acp_thread.rs:1942-1980 | from every reachable state thirteen ticks empty the buffer, and each tick with pending text makes progress |
| `Reveal.NoCharacterSplit` | crates/acp_thread/src/acp_thread.rs:1955-1971 | fed with strings, all blocks and the buffer hold well-formed UTF-8 after every run |
| `Reveal.TickShowsExactly` | crates/acp_thread/src/acp_thread.rs:1955-1971 | a tick moves to the block everything up to the first character boundary at or after the rate, and keeps the rest pending |
| `Utf8.SplitAtBoundary` | crates/acp_thread/src/acp_thread.rs:1961-1969 | cutting a string at a character boundary leaves two strings |
| `Utf8.BoundaryNearby` | crates/acp_thread/src/terminal.rs:153-156 | there is a boundary within three bytes on either side of any index |
| `Chunks.ChunkLands` | crates/acp_thread/src/acp_thread.rs:1807-1888 | after a chunk the last entry is an assistant message with exactly its `indented` and `subagent` and its last part has its `thought`; an entry is added exactly when the last was no such message, a part exactly when the last was of the other kind, and everything earlier is unchanged |
| `Chunks.PartsHoldTheirOwn` | crates/acp_thread/src/acp_thread.rs:1781-1888 | in every run, once flushed, a user message shows the blocks it was given, and each part of an assistant message shows, in order, the chunks routed to it, all sent under its own tags |
| `Chunks.EveryChunkLands` | crates/acp_thread/src/acp_thread.rs:1781-1888 | in every run that does not shorten the transcript, the chunks in the parts, read in order, are all the chunks sent |
| `Chunks.TextWaits` | crates/acp_thread/src/acp_thread.rs:1853-1923 | text that goes on in a text already there is not shown at once: it waits, at the computed rate, behind what waits for that text |
| `Grouping.GroupsAreMaximal` | crates/acp_thread/src/acp_thread.rs:1807-1850 | in every run adjacent assistant messages differ in their tags, and thoughts and text alternate inside one |
| `Grouping.ChunkingLeavesNoTrace` | crates/acp_thread/src/acp_thread.rs:1781-1850 | however a text is cut into pieces and whenever the timer fires, the flushed thread is that of the whole text |
| `Permissions.RequestsNeverDangle` | crates/acp_thread/src/acp_thread.rs:2301-2360 | in every run a request is answered at most once, at most one call waits for it, and an issued request is waited for exactly when it is unanswered |
| `Permissions.StepLinear` | crates/acp_thread/src/acp_thread.rs:2118-2176 | every event keeps, for every request, the number of calls holding its sender plus the number of answers at one if issued and zero if not |
| `Permissions.UpsertLinear` | crates/acp_thread/src/acp_thread.rs:2118-2176 | placing a status balances: what the call held is retired, what it gains was just issued, on failure too |
| `Permissions.AuthorizeLinear` | crates/acp_thread/src/acp_thread.rs:2333-2360 | an answer goes out on the channel the old status held, once |
| `Permissions.CanceledLinear` | crates/acp_thread/src/acp_thread.rs:2639-2654 | cancelling drops every sender still held |
| `Permissions.TruncateLinear` | crates/acp_thread/src/acp_thread.rs:2586-2590 | truncation drops the senders of the entries it removes |
| `ToolHistories.ScanIsLookup` | crates/acp_thread/src/acp_thread.rs:2178-2226 | in every run call ids are distinct, so the reverse scan finds the only call with an id |
| `ToolHistories.CallIsFoldOfItsChanges` | crates/acp_thread/src/acp_thread.rs:2032-2176 | in every run the call under an id is the fold of the changes addressed to that id, of cancels of everything and of truncations |
| `ToolFields.FieldsAreLastWritten` | crates/acp_thread/src/acp_thread.rs:454-569 | in every run each field of a call is the last value given, since it was made, by a change that got as far as that field, or the value it was made with; status and start follow from the changes, spelled out |
| `ToolFields.ContentChange` | crates/acp_thread/src/acp_thread.rs:521-547 | content is replaced by the items given, each by what it stands for, or by the one piece given, or kept; an output is shown where there is none |
| `ToolFields.CompletedWithItsOutput` | crates/acp_thread/src/acp_thread.rs:2570-2582 | an update to Completed with an output makes the call one that stops a refusal |
| `ToolHistories.StepApplies` | crates/acp_thread/src/acp_thread.rs:2032-2176 | one event changes a call only by the changes it brings for that call's id |
| `ToolHistories.UpdatesCommute` | crates/acp_thread/src/acp_thread.rs:2032-2105 | updates to different recorded calls commute, and give the same answers |
| `StartTimes.WhenStartIsMissing` | crates/acp_thread/src/acp_thread.rs:2343-2353 | in every run a call is in progress without a start time exactly when an answer to a permission request moved it there, it has stayed there, and no update had moved it into progress since it was created |
| `StartTimes.NoStampFold` | crates/acp_thread/src/acp_thread.rs:478-493 | a call has no start time exactly when no update moved it into progress since it was created |
| `StartTimes.AllowedCallIsNeverStamped` | crates/acp_thread/src/acp_thread.rs:2343-2353 | a call that was asked about and allowed has none, and an update to in-progress does not give it one |
| `ToolCalls.UpdateEqualsRebuild` | crates/acp_thread/src/acp_thread.rs:521-547 | with recognised items and known terminals, updating content in place gives what rebuilding gives, up to the paths of diffs, for all old and new lengths |
| `ToolCalls.WhenUpdateIsRebuild` | crates/acp_thread/src/acp_thread.rs:521-547 | paths included, it does so exactly when no old and new diff in the same place have the same two texts and different paths |
| `ToolCalls.RenamedDiffKeepsPath` | crates/acp_thread/src/diff.rs:197-216 | a diff that was only renamed keeps showing its old path |
| `ToolCalls.WhenUpdateEqualsRebuild` | crates/acp_thread/src/acp_thread.rs:521-547 | with unrecognised items it does so for all old lists of a length exactly when, within that length, nothing recognised follows an unrecognised item |
| `ToolCalls.UnknownKeepsOld` | crates/acp_thread/src/acp_thread.rs:971-998 | an unrecognised item leaves the old item where it was |
| `Turns.RunningTurnIsNewest` | crates/acp_thread/src/acp_thread.rs:2480-2527 | in every run `running_turn` is empty or holds the newest turn id |
| `Turns.GeneratingExactly` | crates/acp_thread/src/acp_thread.rs:2480-2527 | in every run a turn is running exactly from its begin until it is cancelled or its own end is handled |
| `Turns.OutcomeFollows` | crates/acp_thread/src/acp_thread.rs:2502-2515 | the handler of a turn sees the response its body ended with, once |
| `Turns.WhenIdsCollide` | crates/acp_thread/src/acp_thread.rs:2517-2527 | the test on 32-bit ids takes a turn for the running one exactly when it is, or when a multiple of 2^32 turns have begun since |
| `Turns.BodiesRunOnceInTurnOrder` | crates/acp_thread/src/acp_thread.rs:2489-2499 | with follow-ups only, prompt bodies never overlap and those begun are turns 1, 2, ... once each in order |
| `Turns.StepInOrder` | crates/acp_thread/src/acp_thread.rs:2480-2527 | every step keeps the line of waiting tasks, each behind its predecessor |
| `Turns.SomeTurnCanMove` | crates/acp_thread/src/acp_thread.rs:2494-2499 | while a turn waits, some body is running or can start |
| `Overlaps.WhenBodiesStayApart` | crates/acp_thread/src/acp_thread.rs:2489-2499 | in every run, follow-ups can never make two bodies run at once exactly when every task outside the chain of waiting tasks behind `running_turn` is over |
| `Overlaps.CancelledTaskDecides` | crates/acp_thread/src/acp_thread.rs:2626-2637 | `cancel` leaves a thread in that state exactly when the task it returns is over |
| `Overlaps.DropEndsChain` | crates/acp_thread/src/acp_thread.rs:2626-2637 | dropping the task that `cancel` returned ends it and all it was waiting for, and no other |
| `Overlaps.Drive` | crates/acp_thread/src/acp_thread.rs:2489-2499 | a waiting turn can always be brought to run while a body it does not wait for goes on |
| `Turns.CancelAllowsOverlap` | crates/acp_thread/src/acp_thread.rs:2626-2637 | a run in which a bare cancel lets two bodies run at once |
| `ThreadTurns.LateCompletionKeepsGenerating` | crates/acp_thread/src/acp_thread.rs:2514-2527 | in every run of a thread the completion of a superseded turn leaves a generating thread generating |
| `ThreadTurns.MessagesArriveInSendOrder` | crates/acp_thread/src/acp_thread.rs:2443-2458 | in every run interrupted only by follow-ups, the messages that entered the transcript are those of the first turns, in send order |
| `ThreadTurns.RunProjects` | crates/acp_thread/src/acp_thread.rs:2480-2637 | the turns of a thread are a run of the asynchronous skeleton, whatever else happens |
| `Refusal.RefusalRollsBack` | crates/acp_thread/src/acp_thread.rs:2564-2599 | after a turn that sends no second message and leaves older calls alone, a refusal restores the transcript exactly when no call of the turn completed with output, and older texts are untouched in any case |
| `Refusal.StepSince` | crates/acp_thread/src/acp_thread.rs:2443-2458 | an event of such a turn leaves the older entries and their texts as they were |
| `Refusal.RefusalUndoesSend` | crates/acp_thread/src/acp_thread.rs:2443-2458 | counted from the send, when it cancels nothing and its body starts next, the entries before the send come back under the same condition |
| `Effects.RefusalCuts` | crates/acp_thread/src/acp_thread.rs:2564-2599 | a refusal cuts at the last user message, unless a call after it is completed and has an output |
| `LateRefusals.RefusalTakesNewestMessage` | crates/acp_thread/src/acp_thread.rs:2564-2590 | in every run whose user messages come from sends, handling a refusal removes the message of a turn exactly when that is the last to have arrived of those shown and no call after it completed with output |
| `LateRefusals.LateRefusalDropsNewestMessage` | crates/acp_thread/src/acp_thread.rs:2517-2590 | a refusal of a turn takes a later turn's message exactly when no such call exists and a message that arrived later is still shown; its own exactly when none is and its own is shown |
| `LateRefusals.RunAllSent` | crates/acp_thread/src/acp_thread.rs:2443-2458 | without user chunks from elsewhere, every user message is the one its turn was sent with |
| `LateRefusals.LaterByNumber` | crates/acp_thread/src/acp_thread.rs:2480-2499 | with follow-ups only, the turns begun later are those with larger numbers |
| `LateRefusals.LateRefusalHappens` | crates/acp_thread/src/acp_thread.rs:2517-2590 | a first message is refused late: the second, which has arrived, goes, and its turn runs on |
| `LateRefusals.RefusalBeforeArrival` | crates/acp_thread/src/acp_thread.rs:2517-2590 | as long as the second has not arrived, the refused one goes |
| `Terminals.OutputConserved` | crates/acp_thread/src/acp_thread.rs:3143-3220 | bytes delivered to a terminal id followed by the bytes held for it grow by exactly what was sent, and held ids are not live |
| `Terminals.LiveExactly` | crates/acp_thread/src/acp_thread.rs:3077-3220 | in every run an id is live exactly from a registration until its release, and the exit held for it is the last one reported while it was not |
| `Terminals.LiveEntityReceivesItsDue` | crates/acp_thread/src/acp_thread.rs:3107-3176 | in every run the terminal live under an id has received exactly the bytes held when it was registered and those sent since, in order |
| `Terminals.LiveTerminalIsUpToDate` | crates/acp_thread/src/acp_thread.rs:3107-3176 | that is everything ever sent to the id exactly when nothing had been delivered under it before |
| `Terminals.ReplacementStartsEmpty` | crates/acp_thread/src/acp_thread.rs:3107-3131 | a terminal registered anew under an id does not get what the old one got |
| `ThreadTerminals.OutputConservedInThread` | crates/acp_thread/src/acp_thread.rs:3077-3220 | the same in every run of a thread, releases by rewinds included |
| `ThreadTerminals.LiveTerminalInThread` | crates/acp_thread/src/acp_thread.rs:3077-3220 | and so is what the live terminal has received |
| `Effects.RewindCuts` | crates/acp_thread/src/acp_thread.rs:2702-2722 | a rewind leaves exactly what came before the first message with the id, and none of the terminals named after it is live |
| `Effects.RewoundMessageIsGone` | crates/acp_thread/src/acp_thread.rs:2702-2722 | afterwards no message has the id; an unknown id changes nothing |
| `Effects.PlanFollows` | crates/acp_thread/src/acp_thread.rs:2366-2408 | the plan after every event: given, cleared, stripped of what is done, or moved to the transcript when nothing of it is pending |
| `Effects.ErrorFollows` | crates/acp_thread/src/acp_thread.rs:2529-2622 | a thread shows an error from a failure, the token limit or a refusal until the next turn begins |
| `Effects.TextSettles` | crates/acp_thread/src/acp_thread.rs:1926-1937 | nothing stays pending behind a cancel, a follow-up, the end of a turn or a rewind |
| `Effects.PushedBlockGoes` | crates/acp_thread/src/acp_thread.rs:1677-1716 | a block of the user goes on with a message of the same indentation, or starts one |
| `Effects.EchoIsDropped` | crates/acp_thread/src/acp_thread.rs:1582-1594 | a chunk the last user message already has is dropped |
| `Effects.AnswerGoesOut` | crates/acp_thread/src/acp_thread.rs:2333-2360 | an answer sets the status and goes out on the channel of the request the call was waiting for |
| `Effects.AnswersWereGiven` | crates/acp_thread/src/acp_thread.rs:2301-2360 | in every run, whoever asked is told a choice only if the user made it |
| `Effects.MessageStandsAlone` | crates/acp_thread/src/acp_thread.rs:1725-1754 | an injected message with blocks is an entry of its own |
| `Effects.LastReplyIsMarked` | crates/acp_thread/src/acp_thread.rs:3133-3141 | the last assistant message is marked, and nothing else changes |
| `AcpThreads.AcpThread.PushUserMessageEntry` | crates/acp_thread/src/acp_thread.rs:1725-1754 | always a new message, its blocks combined in order |
| `AcpThreads.AcpThread.IndexForToolCall` | crates/acp_thread/src/acp_thread.rs:2178-2192 | the last entry with the id, or none |
| `AcpThreads.UpdateContentInPlace` | crates/acp_thread/src/acp_thread.rs:521-547 | the zip, extend and truncate loops compute the specified update |
| `Effects.CancelStopsOpenCalls` | crates/acp_thread/src/acp_thread.rs:2626-2654 | after a cancel or a follow-up on a generating thread, and after a turn that ended cancelled, no call is pending, waiting or in progress; those that were are the same calls, canceled, and nothing else has changed |
| `AcpThreads.AcpThread.MarkPendingToolsAsCanceled` | crates/acp_thread/src/acp_thread.rs:2639-2654 | the loop cancels the open calls and retires their senders, as the model says |
| `AcpThreads.AcpThread.UpdatePlan` | crates/acp_thread/src/acp_thread.rs:2366-2389 | the zip, extend and truncate loops leave exactly the new plan, for all old lengths |
| `AcpThreads.AcpThread.ClearCompletedPlanEntries` | crates/acp_thread/src/acp_thread.rs:2398-2403 | keeps the entries that are not completed, in order |
| `AcpThreads.AcpThread.HandleRefusal` | crates/acp_thread/src/acp_thread.rs:2564-2599 | truncates at the last user message unless a later call completed with output |
| `AcpThreads.AcpThread.MarkAsSubagentOutput` | crates/acp_thread/src/acp_thread.rs:3133-3141 | marks the last assistant message only |
| `AcpThreads.AcpThread.ReleaseTerminals` | crates/acp_thread/src/acp_thread.rs:2715-2721 | the loop removes exactly the terminals named |
| `AcpThreads.AcpThread.WriteAll` | crates/acp_thread/src/acp_thread.rs:3161-3169 | the loop writes the held chunks to the new terminal, in order |
| `AcpThreads.AcpThread.Handle` | crates/acp_thread/src/acp_thread.rs:1576-1666 | every event takes a valid object to the next state of the model and is recorded, so that the object stays valid |
| `AcpThreads.AcpThread.IsGenerating` | crates/acp_thread/src/acp_thread.rs:1486-1492 | a generating thread is told, and stays so when any turn but the newest completes |
| `AcpThreads.AcpThread.FindToolCall` | crates/acp_thread/src/acp_thread.rs:2212-2226 | the call found is the only one with its id and the fold of the changes addressed to it in the object's history |
| `AcpThreads.AcpThread.IsWaitingForConfirmation` | crates/acp_thread/src/acp_thread.rs:1498-1512 | true exactly when some issued and unanswered request is waited for by a call after the last user message |
| `AcpThreads.Replay` | crates/acp_thread/src/acp_thread.rs:1576-1666 | after any sequence of events the object is valid with that history |
| `Excerpts.ExcerptsCoverExactly` | crates/acp_thread/src/diff.rs:351-387 | excerpts are in order, strictly separated, and cover exactly the positions of the hunks and revealed ranges |
| `Excerpts.OrderDoesNotMatter` | crates/acp_thread/src/diff.rs:366-371 | they depend only on the multiset of ranges |
| `Excerpts.MergingTwiceIsMergingOnce` | crates/acp_thread/src/diff.rs:371-386 | merging again changes nothing |
| `Excerpts.PendingDiff.VisibleRanges` | crates/acp_thread/src/diff.rs:351-387 | the nested loops compute the merge of the sorted ranges |
| `Excerpts.PendingDiff.RevealRange` | crates/acp_thread/src/diff.rs:266-269 | the range is added and shown |
| `TerminalOutput.CutIsClean` | crates/acp_thread/src/terminal.rs:145-164 | cut output is a prefix on a character boundary within the limit, from a window at most three bytes short of it, up to just before the window's last newline if it has one |
| `TerminalOutput.ShownGrows` | crates/acp_thread/src/terminal.rs:150-161 | a larger limit never shows less |
| `TerminalOutput.Terminal.TruncatedOutput` | crates/acp_thread/src/terminal.rs:145-164 | the backward loop finds the boundary and cuts there or at the newline |
| `TerminalOutput.Terminal.CurrentOutput` | crates/acp_thread/src/terminal.rs:125-143 | reports truncated exactly when the content exceeded the limit; after the exit the stored answer |
| `TerminalOutput.Terminal.Exit` | crates/acp_thread/src/terminal.rs:70-86 | stores the cut output, the original length and the status |
| `Mentions.RoundTrip` | crates/acp_thread/src/mention.rs:327-428 | a mention other than a directory survives printing and parsing exactly under the stated conditions on its path, lines, id or scheme |
| `Mentions.DirectoryRoundTrip` | crates/acp_thread/src/mention.rs:339-347 | a directory comes back written with its slash exactly when that path is not decoded and does not end in a backslash; it comes back as it was exactly when it also had the slash |
| `Mentions.LineForms` | crates/acp_thread/src/mention.rs:68-96 | `L10:20`, `L10-20` and `L10-L20` parse alike, and `L10` is a range of one line |
| `Mentions.LinesRoundTrip` | crates/acp_thread/src/mention.rs:356-360 | printed lines parse back exactly when both are below the largest number |
| `Mentions.PathRoundTrip` | crates/acp_thread/src/mention.rs:98-110 | a file path is left alone exactly when it has no escapes or they decode to no string |
| `Mentions.FilesThatChange` | crates/acp_thread/src/mention.rs:98-134 | two files that do not come back |
| `MentionLinks.OldLinksParse` | crates/acp_thread/src/mention.rs:176-211 | links of the older forms still name the file, directory, symbol or selection |
| `MentionLinks.LinksParse` | crates/acp_thread/src/mention.rs:136-224 | what the links of each form name |
| `MentionLinks.Defaults` | crates/acp_thread/src/mention.rs:164-224 | what stands in for a parameter that is left out |
| `MentionLinks.TwoParametersRefused` | crates/acp_thread/src/mention.rs:443-456 | more than one parameter is refused |
| `MentionLinks.WindowsPath` | crates/acp_thread/src/mention.rs:98-110 | on Windows leading slashes go and the others become backslashes |
| `MentionLinks.EscapesDecode` | crates/acp_thread/src/mention.rs:104 | a percent escape in a path stands for its byte, in either case of letters |
| `Mentions.ParseDiagnostics` | crates/acp_thread/src/mention.rs:150-163 | the loop over the query reads the two flags or refuses |
| `Decimals.PrintValue` | crates/acp_thread/src/mention.rs:356-360 | a printed number is digits whose value is the number |
| `Magnets.BuildMarkdownBody` | script/github-find-top-duplicated-bugs.py:148-178 | the grouping and writing loops produce the specified report |
| `Magnets.Group` | script/github-find-top-duplicated-bugs.py:154-159 | the dictionaries hold each area's issues in order and its total |
| `Magnets.ParseDuplicateMagnets` | script/github-check-new-issue-for-duplicates.py:269-306 | the loop over the lines computes the specified records, sorted |
| `Magnets.SortDescSorts` | script/github-find-top-duplicated-bugs.py:166-167 | sorting yields a permutation in non-increasing order |
| `MagnetReport.SortIsStable` | script/github-find-top-duplicated-bugs.py:166-167 | things with equal keys stay in order |
| `MagnetReport.ReportOrder` | script/github-find-top-duplicated-bugs.py:166-176 | areas come once each in order of all their duplicates, and issues in order of theirs |
| `MagnetReport.NoiseIsIgnored` | script/github-check-new-issue-for-duplicates.py:275-282 | lines that are neither headings nor links to issues make no difference |
| `MagnetRoundTrip.ReportRoundTrip` | script/github-check-new-issue-for-duplicates.py:269-306 | parsing a written report gives one record per magnet with its count and areas, the most duplicated first |
| `MagnetRoundTrip.ListedIsPermutation` | script/github-find-top-duplicated-bugs.py:166-176 | the report lists every pair of area and issue exactly as often as there is one |
| `MagnetRoundTrip.ItemScans` | script/github-check-new-issue-for-duplicates.py:281-289 | a written line is read as the issue it was written for |
| `MagnetRoundTrip.AllRecorded` | script/github-check-new-issue-for-duplicates.py:292-302 | noting pairs in any order leaves one record per number with its labelled areas |
| `PyStrings.SplitJoin` | script/github-check-new-issue-for-duplicates.py:275 | lines without separators come back from a joined text |
| `TcfBits.IntRoundTrip` | docs/theme/c15t@2.0.0-rc.3.js:1 | a number that fits its width is written in it and read back; others are refused |
| `TcfBits.Base64RoundTrip` | docs/theme/c15t@2.0.0-rc.3.js:1 | base64url gives the bits back followed by fewer than 24 zeros |
| `TcfBits.EncodeBase64` | docs/theme/c15t@2.0.0-rc.3.js:1 | the loop over groups of six bits computes the specified letters |
| `TcfBits.DecodeBase64` | docs/theme/c15t@2.0.0-rc.3.js:1 | the loop over letters computes the specified bits or refuses |
| `TcfVendors.Vector.Set` | docs/theme/c15t@2.0.0-rc.3.js:1 | adds a positive id and keeps the largest id right |
| `TcfVendors.Vector.SetEach` | docs/theme/c15t@2.0.0-rc.3.js:1 | an array adds its ids up to the first that is not positive |
| `TcfVendors.Vector.UnsetEach` | docs/theme/c15t@2.0.0-rc.3.js:1 | an array removes its ids |
| `TcfVendors.Vector.Unset` | docs/theme/c15t@2.0.0-rc.3.js:1 | removes an id and finds the largest again |
| `TcfLayout.FormAndLength` | docs/theme/c15t@2.0.0-rc.3.js:1 | the range list is written exactly when the ids go beyond 45 and 29 bits, 16 per lone id below the largest, 33 per run ending below it and 17 for a longer run up to it are less than 17 plus the largest; its length is 29 plus 17 per lone id and 33 per run, that of the field 17 plus the largest |
| `TcfLayout.EncodingFromSet` | docs/theme/c15t@2.0.0-rc.3.js:1 | every bit of an encoding, from the set of ids alone |
| `TcfLayout.WhatDecodes` | docs/theme/c15t@2.0.0-rc.3.js:1 | for both versions, a decoder accepts exactly the fields and lists written in the format, and gives their ids and length |
| `TcfLayout.LettersOfTheStandard` | docs/theme/c15t@2.0.0-rc.3.js:1 | the letters are those of section 5 of RFC 4648 |
| `TcfVendors.EncodeVendors` | docs/theme/c15t@2.0.0-rc.3.js:1 | the loops compute the encoding that is specified |
| `TcfVendors.DecodeVendors` | docs/theme/c15t@2.0.0-rc.3.js:1 | the loops compute the decoding that is specified |
| `TcfRoundTrip.VendorsRoundTrip` | docs/theme/c15t@2.0.0-rc.3.js:1 | decoding an encoding followed by any bits gives the same ids and the length that was written, whichever form was chosen |
| `TcfRoundTrip.WhenEncodable` | docs/theme/c15t@2.0.0-rc.3.js:1 | encoding fails exactly for ids beyond 16 bits and for 4096 lone ids ending at 65533 or later |
| `TcfRoundTrip.EncodingCanFail` | docs/theme/c15t@2.0.0-rc.3.js:1 | a set of ids for which it fails |
| `TcfRoundTrip.ConsentStringRoundTrip` | docs/theme/c15t@2.0.0-rc.3.js:1 | the padding of base64url does not disturb the round trip |
| `TcfRoundTrip.ScanComplete` | docs/theme/c15t@2.0.0-rc.3.js:1 | while ranges are preferred the scan misses no id, and once they are not they never are again |
| `LegacyThread.UpgradeMessages` | crates/agent/src/legacy_thread.rs:88-106 | the loop computes the specified fold |
| `LegacyThread.ResultsSurvive` | crates/agent/src/legacy_thread.rs:91-102 | tool results survive in order exactly when no carrier follows a message with results; otherwise some are gone |
| `LegacyThread.OthersStay` | crates/agent/src/legacy_thread.rs:91-105 | every other message keeps its id, role, text and place |
| `LegacyThread.NoCarrierLeft` | crates/agent/src/legacy_thread.rs:91-105 | no user message carries results afterwards exactly when none stands first and none lands on a user message |
| `LegacyThread.UpgradeIsIdempotent` | crates/agent/src/legacy_thread.rs:88-112 | upgrading twice is upgrading once exactly when no carrier lands on a user message after the first |
| `LegacyThread.WellPairedUpgrades` | crates/agent/src/legacy_thread.rs:88-112 | threads as they were written keep all results, leave no carrier and upgrade once |
| `LegacyThread.WellPairedExactly` | crates/agent/src/legacy_thread.rs:88-112 | such a thread becomes the same messages in order, each with the results of the user message that followed it |

## Left out

- Rendering, notifications, telemetry, logging, token usage, titles, modes and commands: they do not feed back into what is modelled.
- Markdown is an append-only text; languages, highlighting, image decoding and JSON printing come in as data of the event.
- Reading and writing files, resolving locations, git checkpoints, text diffing and the multibuffer: they rest on libraries that are not part of this model; hunks are an input.
- Processes and shells: a locally created terminal is the insertion of an id.
- `connection.rs`: the agent is whatever events arrive.
- `LegacySerializedThread::upgrade` is a field-by-field map and would add only an easy member.
- The block of a sent message is created at the send and enters the store here when the message does; nobody can see it in between.
- Turns.RunningTurnIsNewest: turns are counted without bound; `Turns.WhenIdsCollide` says when the 32-bit ids make a difference.
- AcpThreads.AcpThread.UpdateCallFields: the label is the title as given, without escaping or shortening, and the raw input is not rendered.
- AcpThreads.AcpThread.RequestToolCallAuthorization: the permission options are not modelled, only the channel of the answer.
- AcpThreads.AcpThread.FinishRewind: the rejection of edits in the action log is not modelled.
- AcpThreads.AcpThread.HandleOutcome: token usage in the response is not modelled.
- Excerpts.ExcerptsCoverExactly: ranges are assumed to start no later than they end; anchors are taken as the points they resolve to.
- Mentions.RoundTrip: URLs are taken apart already, and paths and ids are ones the URL library keeps as they are; adding one to the largest line number wraps around, as in a release build; a directory is treated by its own lemma.
- PyStrings.PrintedInt: `int` is modelled for ASCII digits, signs and underscores only.
- TcfVendors.Vector.Set: one id; arrays are `SetEach` and `UnsetEach`, and sets and maps, which the code turns into arrays, are not modelled by themselves.
- AcpThreads.AcpThread.OnTerminalProviderEvent: changes of a terminal's title are not modelled.
- Terminals.ReusedIdOvertakes: shows why local ids have to be fresh; the code draws them at random, so its run is not expected of the code.
- Of the consent bundle only the codec of the vendor section is modelled.
