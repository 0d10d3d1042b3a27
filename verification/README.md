# Models of the CloudThinker agent's protocols, scanners and encoders

Each module models one source file, in the form that file has: objects are classes whose methods update fields in place, loops are
loops, and code that only computes is functions. What an operation computes is a function of the old values, each method is proved
to compute it, and the results are lemmas about these functions or about all runs of the methods. `dafny verify dfyconfig.toml` runs
the verifier on all of it.

**Delivery and crashes.** `MirrorMemory` is the state of `SessionMirror`, with one method for each stretch of code that runs without
an await. `MirrorProtocol` makes a state machine of them: any number of flushes, links and unlinks, the queue of outbox operations,
the single delivery, the outbox and refusal files, an append-only server, failures and crashes, in any order. `MirrorInvariants` says what
holds throughout, `MirrorSafety` and `MirrorRefusals` prove it of all runs, `MirrorDurability` says what crashes cannot take away,
`MirrorDelivery` what is delivered when things calm down, `MirrorRelink` that its condition is exact, `MirrorAccount` when it
holds, told from outside, `MirrorContents` that what is kept and sent is what was handed in, `MirrorListing` that a link learns what its
pages held, and `MirrorBackoff` how failures are spaced. `SingleFlight` is the gate in front of the delivery. `Outbox` is the text of the outbox file and what a cut
append leaves of it, and `JsonText` a reader of that text. `Skills` installs skills through staging directories on a disk on which any step can fail or be cut short.
`TokenSource` is the token cache with its shared command.

**Scanning and layout.** `Display` answers terminal queries in a stream cut anywhere, `CommandBlock` splits shell commands with
heredocs, `CommandCuts` says where, `CommandText` what its tags, line ends and terminators are, `Wrap` breaks lines, `DiffView` reads, trims, pairs and cuts diffs, `EditorSelection` selects and deletes,
and `Painting` scans a line with escape sequences and reverses the columns of the selection.

**Transformations.** `PruneSpec` keeps the schemas an API document needs, `Discovery` packs evidence into files and batches, `Prompt`
disarms block tags, `Mermaid` writes code spans. `Strings`, `Seqs` and `Wrappers` hold what several models share.

Where the code falls short of a general property, a lemma gives a concrete case and another one says exactly when it holds:
`SingleFlight.ThrowLosesCall` with `RerunMeansUnserved`, `MirrorDurability.UnreadableOutboxIsLost` with `MirrorDurability.RunGuardsExactly`,
`MirrorRelink.RelinkForgets` with `MirrorRelink.DeliversExactly` and `MirrorDelivery.AccountedAfterRelink`,
`Skills.DamagedBackupComesBack` with `Skills.InstallIsSafeExactlyWithoutDamagedBackups`,
`TokenSource.KeyChangeRunsTwice` with `TokenSource.WhenNotSingle`, and the last clause of `DiffView.TakeRows`. The models follow the
code there. The comment at the top of `paintColumns` promises reverse video after any inner style reset; the code keeps that.

## Model

| member | source | states |
|---|---|---|
| `MirrorSafety.EveryRunIsSafe` | agent-cli/packages/cloud/src/mirror.ts:78-392 | Main: under every interleaving of flushes, links, unlinks, deliveries, failures and crashes, each pending id has its entry in memory and on a line of the current outbox file (write-ahead), and every acknowledged id is stored by the server for the current conversation, however late a listing or an append of an older generation comes back. |
| `MirrorSafety.StepKeepsSafe` | agent-cli/packages/cloud/src/mirror.ts:78-392 | One stretch between awaits, of any activity, keeps that invariant. |
| `MirrorSafety.LeavesForAReason` | agent-cli/packages/cloud/src/mirror.ts:117-274 | While the mirror stays on its conversation, an id stops being pending only by becoming acknowledged or refused, and a refusal is on disk by then. |
| `MirrorSafety.ContentsAfter` | agent-cli/packages/cloud/src/mirror.ts:117-363 | For every action that keeps the conversation: the whole effect on the contents of memory; most actions have none. |
| `MirrorSafety.StagingOrderKept` | agent-cli/packages/cloud/src/mirror.ts:148-152 | Ids leave the pending set from anywhere but join at its end, so what stays keeps its staging order. |
| `MirrorRefusals.EveryRunIsHonest` | agent-cli/packages/cloud/src/mirror.ts:141-157 | Main: in every run, what the mirror takes for refused, in memory, in a delivery or in a refusals file, the server has refused for that conversation, however late the write of an older delivery lands and however it is torn; and the server takes nothing back. |
| `MirrorRefusals.StepKeepsHonest` | agent-cli/packages/cloud/src/mirror.ts:244-255 | One stretch between awaits keeps refusals real. |
| `MirrorRefusals.ServerGrows` | agent-cli/packages/cloud/src/mirror.ts:206-274 | No action takes anything from what the server stores or has refused. |
| `MirrorDurability.NoStagedEntryIsLost` | agent-cli/packages/cloud/src/mirror.ts:206-392 | Main: once an id was pending for a conversation, then through relinks, switches, unlinks and any number of crashes, either the server has stored it or has answered to refuse it, or its line is still in the outbox file, no removal of the file is under way, and it is pending whenever the file is in memory; given that the outbox file of that conversation could be read each time it was needed. |
| `MirrorDurability.RunGuardsExactly` | agent-cli/packages/cloud/src/mirror.ts:285-363 | Main: that condition is exact: along any run the entry stays guarded at every point if and only if no current operation puts an unreadable outbox file of its conversation into memory before the server has stored or refused the entry. |
| `MirrorDurability.StepGuardsExactly` | agent-cli/packages/cloud/src/mirror.ts:302-324 | One step takes the guard off an entry if and only if it is such a read and the server has neither stored nor refused the entry. |
| `MirrorDurability.StepKeepsPrepared` | agent-cli/packages/cloud/src/mirror.ts:109-114 | Every step keeps what generations mean: a flush, a delivery or an operation of the current generation finds the mirror on its conversation with the outbox read. |
| `MirrorDurability.PendingIsOnFile` | agent-cli/packages/cloud/src/mirror.ts:302-363 | A pending id has a line in the outbox file and that file is not being removed. |
| `MirrorDurability.UnreadableOutboxIsLost` | agent-cli/packages/cloud/src/mirror.ts:285-291 | What a lost guard can lead to, from a fresh start: a read error counts as an empty file, and the next clearing deletes a line that was neither stored nor refused. |
| `MirrorDelivery.DeliveredAtQuiescence` | agent-cli/packages/cloud/src/mirror.ts:108-114 | Main: from any reachable linked state in which no staged entry is forgotten, after a flush and any calm run (no relink, unlink, crash, transient failure or held-back attempt) that comes to rest, nothing is pending and every id handed to any of the flushes is acknowledged or refused. |
| `MirrorDelivery.SentInStagingOrder` | agent-cli/packages/cloud/src/mirror.ts:222-242 | What a delivery sets out to send is exactly what is pending, in staging order, in chunks of which all but the last have 200 entries. |
| `MirrorDelivery.StepKeepsOrderly` | agent-cli/packages/cloud/src/mirror.ts:108-114 | Calls to `deliver` come in the order of their link generations, so a stale request never replaces a current one in the single flight. |
| `MirrorDelivery.AccountedUnlessRelinked` | agent-cli/packages/cloud/src/mirror.ts:302-363 | The condition of the delivery result, that every staged entry is pending or settled, is kept by every action but the end of a relink. |
| `MirrorDelivery.AccountedAfterRelink` | agent-cli/packages/cloud/src/mirror.ts:141-157 | A relink keeps the condition if and only if it finds again, listed or refused, every settled entry that is still staged. |
| `MirrorRelink.DeliversExactly` | agent-cli/packages/cloud/src/mirror.ts:108-114 | Main: a reachable linked mirror at rest delivers, whatever is flushed and whatever calm run to rest follows, if and only if it has not forgotten a staged entry. |
| `MirrorRelink.ForgottenIsNotSettled` | agent-cli/packages/cloud/src/mirror.ts:326-338 | A forgotten entry stays so: its flush finds it staged, the delivery sends only what is pending, and at rest it is neither pending nor settled. |
| `MirrorRelink.RelinkForgets` | agent-cli/packages/cloud/src/mirror.ts:143-152 | Counterexample, reached from a fresh start: a relink that cannot read the refusals leaves a linked mirror at rest that has forgotten a refused entry and does not deliver. |
| `MirrorAccount.DeliveredAfterFaithfulRuns` | agent-cli/packages/cloud/src/mirror.ts:108-157 | Main, without a word about memory: after any run from a fresh start in which the listings of current links are complete, these links read the refusals as they are with no older delivery to the conversation under way, and a refusals write that fails leaves the old file, a flush of a linked mirror and a calm run to rest settle everything handed in. |
| `MirrorAccount.AccountedInFaithfulRuns` | agent-cli/packages/cloud/src/mirror.ts:141-157 | In such runs no staged entry is ever forgotten, whatever relinks, switches and crashes they have. |
| `MirrorContents.ContentsAreGenuine` | agent-cli/packages/cloud/src/mirror.ts:108-114 | Main: in every run, crashes included, each entry in memory, on a line that is in an outbox file, waiting to be appended or in a chunk being sent carries the payload of an entry that a flush handed in under that id, or stood so on the file at the start, and is marked truncated exactly if that entry was over 1048576 bytes. |
| `MirrorContents.StepKeepsGenuine` | agent-cli/packages/cloud/src/mirror.ts:302-349 | One stretch between awaits, of any activity, keeps payloads and marks true to what was handed in. |
| `MirrorBackoff.RetriesAreSpaced` | agent-cli/packages/cloud/src/mirror.ts:198-240 | Main: in every run without a reset that starts without a wait, the mirror turns to the server of its own accord, to link or to send, no earlier than 1000 ms after its last failure, doubled with every further failure, up to 60000 ms. |
| `MirrorBackoff.StepWaits` | agent-cli/packages/cloud/src/mirror.ts:198-274 | One step: a failure of the current link sets the wait, a new conversation, an unlink, a completed link, a delivery that came through or a crash ends it, nothing else touches it; and a first contact comes only when its time has come. |
| `MirrorListing.LinkKnowsWhatWasListed` | agent-cli/packages/cloud/src/mirror.ts:145-196 | Main: in every run, a link that completes while it is current knows as acknowledged exactly the ids of all pages of its listing, whatever happened between the pages, and as refused what was read. |
| `MirrorMemory.Batch` | agent-cli/packages/cloud/src/mirror.ts:58-64 | The loop of `batch` cuts the items into the pieces of `Batches`. |
| `MirrorMemory.BatchesCover` | agent-cli/packages/cloud/src/mirror.ts:58-64 | The pieces put together are the items in order; none is empty, and all but the last have the full size. |
| `MirrorMemory.SessionMirror.BeginLink` | agent-cli/packages/cloud/src/mirror.ts:119-132 | A link begins: another conversation clears everything known, the same one keeps it, and either way the generation is one higher and the mirror is not linked. |
| `MirrorMemory.SessionMirror.CompleteLink` | agent-cli/packages/cloud/src/mirror.ts:145-156 | The link is made: exactly what was listed or refused stops being pending, by the loop over the pending set, listing and refusals are what is known, and the wait is over. |
| `MirrorMemory.SessionMirror.Unlink` | agent-cli/packages/cloud/src/mirror.ts:159-173 | Nothing is left in memory but the generation, which grows. |
| `MirrorMemory.BackoffDoubles` | agent-cli/packages/cloud/src/mirror.ts:198-204 | After n failures in a row the wait is a second doubled n - 1 times and at most a minute, counted from the last failure; nothing else changes. |
| `MirrorMemory.SessionMirror.DelayNextAttempt` | agent-cli/packages/cloud/src/mirror.ts:198-204 | One failure: the wait is 1000 ms, or twice what it was but at most 60000 ms, and counts from now; nothing else changes. |
| `MirrorProtocol.SafeIdsAre` | agent-cli/packages/cloud/src/conversation-id.ts:1-3 | The conversation ids that a link accepts, written out: 1 to 128 letters, digits, underscores and dashes. |
| `MirrorMemory.SessionMirror.LoadOutbox` | agent-cli/packages/cloud/src/mirror.ts:312-324 | The lines of the file put into memory one by one: the first line of an id wins, and exactly what is not settled becomes pending, behind what was. |
| `MirrorMemory.SessionMirror.SelectMissing` | agent-cli/packages/cloud/src/mirror.ts:326-342 | Picks, in order, the entries whose id is neither acknowledged, refused nor staged, each with its payload as it is, and marked truncated exactly if it is over 1048576 bytes; these marks are added to those known. |
| `MirrorMemory.SessionMirror.CommitStaged` | agent-cli/packages/cloud/src/mirror.ts:345-349 | After the append the written entries are in memory and pending, behind what was pending before. |
| `MirrorMemory.LoadedExactly` | agent-cli/packages/cloud/src/mirror.ts:312-324 | What the lines of a file make of the entries and the pending ids: of the lines with one id the first counts, and exactly the ids that are not settled join, behind those that were pending. |
| `MirrorMemory.CommittedExactly` | agent-cli/packages/cloud/src/mirror.ts:345-349 | The same for written entries: of those with one id the last counts, and all their ids join. |
| `MirrorMemory.SessionMirror.CollectOutstanding` | agent-cli/packages/cloud/src/mirror.ts:223-228 | The entries of the pending ids, in staging order. |
| `MirrorMemory.SessionMirror.Acknowledge` | agent-cli/packages/cloud/src/mirror.ts:262-266 | A chunk becomes acknowledged and stops being pending; nothing else changes. |
| `MirrorMemory.SessionMirror.Reject` | agent-cli/packages/cloud/src/mirror.ts:250-252 | A refused chunk stops being pending, and the refusals are those written to disk. |
| `MirrorMemory.SessionMirror.ForgetOutbox` | agent-cli/packages/cloud/src/mirror.ts:361 | After the removal of the file nothing is staged any more, if the file was the one in memory. |
| `SingleFlight.OneRunAtATime` | agent-cli/packages/cloud/src/async.ts:1-21 | Main: over every sequence of calls and ends of runs, at most one run is under way, exactly while `running` is set. |
| `SingleFlight.RunsNeverOutnumberCalls` | agent-cli/packages/cloud/src/async.ts:1-21 | Runs never outnumber calls, and a rerun that is due has a call of its own. |
| `SingleFlight.RerunMeansUnserved` | agent-cli/packages/cloud/src/async.ts:5-16 | After any events: the last call has been served by a run that began at or after it with its argument, if and only if `rerun` is not set. |
| `SingleFlight.LastCallIsServed` | agent-cli/packages/cloud/src/async.ts:13-18 | Once idle, if no run threw, the last call has been served. |
| `SingleFlight.ThrowLosesCall` | agent-cli/packages/cloud/src/async.ts:12-19 | Counterexample: if the run throws, a call that came during it is never served. |
| `SingleFlight.Gate.Call` | agent-cli/packages/cloud/src/async.ts:5-15 | The closure at a call: starts a run with this argument, or leaves it for the rerun. |
| `SingleFlight.Gate.Settle` | agent-cli/packages/cloud/src/async.ts:13-19 | The closure when a run ends: reruns with the latest argument, or stops. |
| `Outbox.TornWriteRoundTrip` | agent-cli/packages/cloud/src/mirror.ts:285-300 | Main: after any mix of complete appends and appends cut at any byte, reading gives exactly the entries whose JSON line was fully written, in order, for any reader that reads these entries' texts back and rejects text with an open bracket or string. |
| `Outbox.CompleteAppendSurvives` | agent-cli/packages/cloud/src/mirror.ts:365-378 | Of an append that was not cut, every entry comes back. |
| `Outbox.ObjectPrefixIsOpen` | agent-cli/packages/cloud/src/mirror.ts:372-377 | A proper prefix of an object written by `JSON.stringify` leaves a bracket or a string open, so it is no JSON (section 4 of RFC 8259). |
| `Outbox.ReadOutbox` | agent-cli/packages/cloud/src/mirror.ts:292-299 | The loop over the lines keeps, in order, those that are not blank and parse. |
| `JsonText.StringifyReadsBack` | agent-cli/packages/cloud/src/mirror.ts:372-377 | Main: every value is read back from the text that `JSON.stringify` gives it, by a reader that follows the grammar of RFC 8259: escapes, numbers, lists and objects of any depth. |
| `JsonText.ParseIsAReader` | agent-cli/packages/cloud/src/mirror.ts:292-299 | That reader meets both requirements that the results on the outbox put on `JSON.parse`, so they can be met. |
| `JsonText.TornWritesReadBack` | agent-cli/packages/cloud/src/mirror.ts:285-300 | With it the round trip of the outbox holds of all entries, with no assumption on the reader left. |
| `Skills.LiveAgain` | agent-cli/packages/cloud/src/skills.ts:68-222 | Main: if a complete revision is active, then after any number of program lives, each cut short anywhere (also inside recovery) or not, one recovery without crash or error leaves a complete revision active and nothing in the way of the next life, unless an install of the skill began while a damaged backup of it was about; and that takes an error that was passed over or two installs of it in one life. |
| `Skills.Live` | agent-cli/packages/cloud/src/skills.ts:68-222 | One life, cut short or not: recovery passes over errors, installs follow unless it threw, and an install that throws does not stop the next. Without crash or disk failure every good install that is not replaced later is active at the end; and recovery of a complete revision stays possible unless an install met a damaged backup. |
| `Skills.FilesAreInTree` | agent-cli/packages/cloud/src/skills.ts:90-94 | The tree of an archive has exactly the paths of its files, and of a path that comes twice the last content. |
| `Skills.SkillNamesAre` | agent-cli/packages/cloud/src/skills.ts:29 | The names accepted, written out: a letter, digit, underscore or dash, and then also dots. |
| `Skills.Disk.UnpackSkill` | agent-cli/packages/cloud/src/skills.ts:68-119 | A bad name or an archive without `SKILL.md` is refused and leaves the disk as it was; a good one is installed, also over an active revision, unless the disk fails or the program crashes; on success the target is exactly the new tree; whatever happens, other skills stay, and recovery stays possible if the new tree is complete and no damaged backup of the skill was about. |
| `Skills.Disk.SwapIn` | agent-cli/packages/cloud/src/skills.ts:95-114 | The two renames and the way back: the stage may be removed afterwards only if it is not needed. |
| `Skills.Disk.RecoverAbandonedStages` | agent-cli/packages/cloud/src/skills.ts:129-222 | On any disk: active skills stay as they are, what is reported as recovered is newly active, and a skill that was not active becomes, without crash or error, the first backup in the order of the listing if there is one. What could be recovered before still can, and without crash or error it is active. |
| `Skills.Disk.RecoverStage` | agent-cli/packages/cloud/src/skills.ts:137-220 | One turn of the loop, with all its ways out, keeps recovery possible and touches nothing but its stage and its target. |
| `Skills.MovedAsideKeeps` | agent-cli/packages/cloud/src/skills.ts:95-100 | Moving the active revision aside keeps a way back, given that no damaged backup lies about. |
| `Skills.MovedInKeeps` | agent-cli/packages/cloud/src/skills.ts:101-102 | Moving the new revision in keeps a complete one. |
| `Skills.MovedBackKeeps` | agent-cli/packages/cloud/src/skills.ts:104-110 | Moving a backup back into place keeps a complete one. |
| `Skills.FirstBackupIsABackup` | agent-cli/packages/cloud/src/skills.ts:182-212 | Recovery puts back something if and only if some stage holds a backup of the skill, and then it is one of these. |
| `Skills.InstallIsSafeExactlyWithoutDamagedBackups` | agent-cli/packages/cloud/src/skills.ts:95-119 | A crash between the two renames is always recovered from with a complete revision, in whatever order stages are listed, if and only if no stage held a damaged backup of the skill when the install began. |
| `Skills.HowItIsLeftBehind` | agent-cli/packages/cloud/src/skills.ts:95-117 | An install whose clearing up fails half-way, which it passes over, leaves a damaged backup next to the active skill. |
| `Skills.DamagedBackupComesBack` | agent-cli/packages/cloud/src/skills.ts:182-212 | Counterexample: if the next install is cut short between its renames, a recovery without crash or error makes the damaged tree the active skill. |
| `Display.StreamingEqualsBatch` | agent-cli/scripts/benchmarks/startup.py:44-56 | Main: however the input is cut into chunks, the replies and the displayed text, interleaved, and the text held back are those of the whole input. |
| `Display.CutAnywhere` | agent-cli/scripts/benchmarks/startup.py:44-56 | One cut, at any place, makes no difference. |
| `Display.NothingLost` | agent-cli/scripts/benchmarks/startup.py:44-56 | Displayed text, answered queries and held text put together are the input, in order. |
| `Display.HeldHasNoQuery` | agent-cli/scripts/benchmarks/startup.py:54-56 | What is held back contains no query. |
| `Display.DecodeHeldPending` | agent-cli/scripts/benchmarks/startup.py:54-56 | What is held back is what would be held back again: it waits for more. |
| `Display.QueriesAreFactorFree` | agent-cli/scripts/benchmarks/startup.py:23-34 | No query of the table contains another one, which the results rest on. |
| `Display.ColorQueriesAreIn` | agent-cli/scripts/benchmarks/startup.py:32-34 | The colour queries that the loop adds, for both codes and both ends, are in the table with the answer it gives them. |
| `Display.Display.Feed` | agent-cli/scripts/benchmarks/startup.py:44-56 | The loop over the pending text emits and holds back what the specification says, for the table of queries. |
| `Display.Display.FirstQuery` | agent-cli/scripts/benchmarks/startup.py:47-50 | The least position of any query in the text, and the query there. |
| `Display.Display.LongestPartial` | agent-cli/scripts/benchmarks/startup.py:54 | The longest suffix that is a proper beginning of a query. |
| `CommandBlock.SplitConserves` | agent-cli/packages/agent/src/command-block.ts:47-158 | Main: the scan cuts the source into pieces of code and heredoc lines that make up the source; apart from white space the segments' texts are the code; body and terminator lines go, in order and once, to the segment that opened the heredoc, even one flushed before; a body stops at the first terminator. |
| `CommandBlock.RawRun` | agent-cli/packages/agent/src/command-block.ts:62-156 | The pieces are the source, with a line end more if the last heredoc is not ended. |
| `CommandBlock.RunKeeps` | agent-cli/packages/agent/src/command-block.ts:62-157 | The whole scan loses no text and gives every heredoc line to a segment that contains the opening. |
| `CommandBlock.NewlineKeeps` | agent-cli/packages/agent/src/command-block.ts:108-134 | A line end with pending heredocs: their lines are handed out and nothing else is lost. |
| `CommandBlock.PiecesProper` | agent-cli/packages/agent/src/command-block.ts:115-129 | No body line is a terminator, and there is at most one terminator, which is one. |
| `CommandBlock.ReadTag` | agent-cli/packages/agent/src/command-block.ts:25-45 | The loops that read a tag give `ReadHeredocTag`. |
| `CommandBlock.ReadHeredoc` | agent-cli/packages/agent/src/command-block.ts:115-129 | The loop that takes the lines of one heredoc stops behind its terminator or at the end. |
| `CommandBlock.Scanner.Advance` | agent-cli/packages/agent/src/command-block.ts:62-155 | One turn of the main loop, on the variables in place, is `Turn`. |
| `CommandBlock.TurnAdvances` | agent-cli/packages/agent/src/command-block.ts:62-155 | Every turn moves forward, so the scan ends. |
| `CommandCuts.SegmentsAreGroups` | agent-cli/packages/agent/src/command-block.ts:47-158 | Main: read as quotations, escapes, comments, parentheses, heredoc tags, line ends with their heredocs, operators and plain characters, each told by its own form in the source, the command falls into groups, and the segments are, in order, the texts of these groups that are not blank. |
| `CommandCuts.GroupsAreCut` | agent-cli/packages/agent/src/command-block.ts:131-151 | Main: the groups are the items in order; every operator (and, or, pipe, pipe of both outputs, semicolon) outside of quotes, escapes, comments, parentheses and heredocs is the first of its group; a line end is the last of its group unless nothing has come before it; and a group begins nowhere else. |
| `CommandCuts.LexingExists` | agent-cli/packages/agent/src/command-block.ts:62-156 | Every source can be read as such items, so the result is about every command. |
| `CommandCuts.LexingIsUnique` | agent-cli/packages/agent/src/command-block.ts:62-156 | There is only one such reading. |
| `CommandCuts.LedSegmentOpens` | agent-cli/packages/agent/src/command-block.ts:54-58 | The segment of a group that an operator leads opens with the operator, alone or with a space behind it. |
| `CommandCuts.SplitCommand` | agent-cli/packages/agent/src/command-block.ts:47-158 | The loop as a whole: it gives the segments of the results above, and their texts are those of the groups of the reading, cut as stated. |
| `CommandText.NormalizedIs` | agent-cli/packages/agent/src/command-block.ts:48 | A return with its newline, and a return alone, each become one newline, and text without returns stays. |
| `CommandText.BareTag` | agent-cli/packages/agent/src/command-block.ts:25-45 | A tag with an unquoted word, after `<<` or `<<-` and blanks, up to white space, an operator character, an angle bracket or a parenthesis: its end, its mark and its delimiter, from which a backslash is left out together with the character behind it. |
| `CommandText.QuotedTag` | agent-cli/packages/agent/src/command-block.ts:30-36 | A tag with its delimiter between quotes, and none if there is nothing between them. |
| `CommandText.OpenTag` | agent-cli/packages/agent/src/command-block.ts:34 | A quote that is never closed makes no tag. |
| `CommandText.TerminatesExactly` | agent-cli/packages/agent/src/command-block.ts:124 | A heredoc ends at a line that is its delimiter; with `<<-` at tabs with the delimiter behind them, which then must not begin with a tab. |
| `CommandText.TrimBlanksCuts` | agent-cli/packages/agent/src/command-block.ts:55 | Spaces and tabs are cut off the end of a segment, all of them and nothing else. |
| `Strings.TrimCuts` | agent-cli/packages/agent/src/command-block.ts:48 | Trimming cuts a piece out of the text that neither begins nor ends with white space, with only white space outside of it. |
| `Strings.SpacesAre` | agent-cli/packages/cloud/src/prompt.ts:15-16 | The white space of `trim` and `\s`, by code. |
| `Wrap.ChunkCells` | agent-cli/packages/agent/src/wrap.ts:71-125 | Main: every line fits its limit (at least 1) or holds a single cell that takes up room; no cell but spaces is lost; if every cell takes up room, line k is the slice of the text at `starts[k]` with only spaces between the lines; and no line breaks unless the text up to the end of the next word would have been too wide. |
| `Wrap.Tokens` | agent-cli/packages/agent/src/wrap.ts:72-77 | Runs of spaces and runs of other cells, which together are the text. |
| `Wrap.Layout.Next` | agent-cli/packages/agent/src/wrap.ts:82-89 | A new line: the last one loses the spaces at its end, and the break was needed. |
| `Wrap.Layout.PlaceSpaces` | agent-cli/packages/agent/src/wrap.ts:92-102 | Spaces are dropped at the start of a later line or where they run over, and kept otherwise. |
| `Wrap.Layout.PlaceWord` | agent-cli/packages/agent/src/wrap.ts:103-120 | A word goes on the line, on a new one, or is cut cell by cell, and the layout stays as stated. |
| `Wrap.GreedyMove` | agent-cli/packages/agent/src/wrap.ts:93-96 | Spaces skipped at the start of a line do not take away the need of its break. |
| `Wrap.TrimFits` | agent-cli/packages/agent/src/wrap.ts:83-84 | A line without the spaces at its end still fits and has the same words. |
| `Wrap.LaidReset` | agent-cli/packages/agent/src/wrap.ts:106-109 | Emptying a first line of spaces leaves the lines slices of the text. |
| `TokenSource.NothingStale` | agent-cli/packages/cloud/src/client.ts:114-155 | Main: once an invalidation was accepted, the token of a command started before it is neither in the cache nor given to any caller who comes later, whenever the command comes back. |
| `TokenSource.OneCommandAtATime` | agent-cli/packages/cloud/src/client.ts:114-147 | Main: as long as the command key stays the same, at most one command per generation is under way, and it is the one callers share. |
| `TokenSource.OneCommandPerGeneration` | agent-cli/packages/cloud/src/client.ts:114-155 | Main: with one key and no failing command, there are at most as many commands as accepted invalidations, and one. |
| `TokenSource.GivenForTheKey` | agent-cli/packages/cloud/src/client.ts:114-142 | A caller gets the configured token, or a non-empty one fetched in this generation for the key asked with, or shares or starts such a command. |
| `TokenSource.EveryRunIsSound` | agent-cli/packages/cloud/src/client.ts:84-156 | The pending record is of the current generation, and the cached token came from a finished command of it, for the cached key. |
| `TokenSource.WhenNotSingle` | agent-cli/packages/cloud/src/client.ts:117-122 | With any keys: a caller makes a second command of the generation run if and only if one is under way and the caller has no token and shares no command. |
| `TokenSource.KeyChangeRunsTwice` | agent-cli/packages/cloud/src/client.ts:118-122 | Counterexample: a key that changes and changes back runs the same command twice in one generation. |
| `TokenSource.Source.Resolve` | agent-cli/packages/cloud/src/client.ts:114-142 | `resolve` up to its first await: the answer and the record left behind. |
| `TokenSource.Source.CommandDone` | agent-cli/packages/cloud/src/client.ts:127-138 | When the command is back: its token is cached only if neither generation nor key has changed. |
| `TokenSource.Source.Tidy` | agent-cli/packages/cloud/src/client.ts:144-146 | The record goes only if it is still this caller's. |
| `TokenSource.Source.Invalidate` | agent-cli/packages/cloud/src/client.ts:149-155 | Without a token, or with the one cached for the key: cache and pending record are gone and the generation is one higher; otherwise nothing changes. |
| `TokenSource.RejectedIsDropped` | agent-cli/packages/cloud/src/client.ts:149-155 | Main: if a caller was given a cached token, then after that token is rejected the same caller starts a command, the generation is one higher and nothing is cached or pending. |
| `TokenSource.InvalidatesExactly` | agent-cli/packages/cloud/src/client.ts:149-155 | In every run: a rejection without a token always drops everything, with a token exactly if it is the one cached for the key, and any other changes nothing. |
| `TokenSource.PrintedIsHeld` | agent-cli/packages/cloud/src/client.ts:127-137 | The trimmed output of a command that succeeded, with generation and key unchanged, is what the next caller is given. |
| `TokenSource.SetByHandWins` | agent-cli/packages/cloud/src/client.ts:114-116 | A token set in the environment that is not blank is given, trimmed, before anything else; a blank one counts as none. |
| `PruneSpec.TransitiveSchemas` | scripts/prune_spec.py:351-366 | Main: the work list ends, also on circular references and in whatever order it is emptied, with exactly the names reachable from the paths; it aborts if and only if a reachable schema is missing, and names one. |
| `PruneSpec.CollectRefs` | scripts/prune_spec.py:338-348 | Adds exactly the names that some `$ref` anywhere inside the node mentions. |
| `PruneSpec.MentionsByParts` | scripts/prune_spec.py:338-348 | A node mentions a name, at the end of some path into it, if and only if it does so itself or one of its children does. |
| `PruneSpec.LastPartIsWhatFollows` | scripts/prune_spec.py:342-343 | The name of a reference is what follows its last slash. |
| `PruneSpec.ReachableIsLeast` | scripts/prune_spec.py:351-366 | Every set closed under references holds all that is reachable. |
| `PruneSpec.Document.PruneUnusedSchemas` | scripts/prune_spec.py:369-377 | The schemas become the reachable ones, unchanged; without schemas, or on abort, the document stays as it is. |
| `PruneSpec.NothingDangles` | scripts/prune_spec.py:369-377 | In a pruned document whatever the paths or the kept schemas mention is there. |
| `PruneSpec.PruningAgainChangesNothing` | scripts/prune_spec.py:369-377 | A second pruning cannot abort and leaves the schemas as they are. |
| `DiffView.ReadOfPrintedText` | agent-cli/packages/agent/src/diff-view.ts:37-62 | Main: reading the numbered diff of any edit script, with any unchanged lines left out, gives every row its true line numbers, in the new file too, in sections between the gaps. |
| `DiffView.ReadOfPrinted` | agent-cli/packages/agent/src/diff-view.ts:37-62 | The same line by line, with the running difference between the files. |
| `DiffView.MatchIsGreediest` | agent-cli/packages/agent/src/diff-view.ts:41-42 | Taking a line apart finds what the regular expression finds: of all ways to split it, the one with most spaces, then most digits; and nothing only if there is none. |
| `DiffView.ParsePiDiff` | agent-cli/packages/agent/src/diff-view.ts:37-62 | The loop gives the trimmed hunks of the sections that are read. |
| `DiffView.RunsAreCut` | agent-cli/packages/agent/src/diff-view.ts:81-94 | Main: trimming keeps exactly the rows within three of a change of their section, as slices with a gap between any two. |
| `DiffView.TrimContext` | agent-cli/packages/agent/src/diff-view.ts:81-94 | The two loops, over an array of marks and over the rows, give those runs. |
| `DiffView.MarkNear` | agent-cli/packages/agent/src/diff-view.ts:83-86 | Marks exactly the rows within three of a change, cut off at the ends. |
| `DiffView.ToBlocks` | agent-cli/packages/agent/src/diff-view.ts:96-112 | Main: both files keep their rows in order over the blocks, no block is empty or mixed, and two changes never follow each other. |
| `DiffView.TakeRows` | agent-cli/packages/agent/src/diff-view.ts:64-74 | Main: exactly the first rows, in their hunks, none of them empty; shown and hidden rows add up if and only if the limit is not negative or there is no hunk. |
| `Discovery.DiscoverySurfaces` | crates/cloudthinker-client/src/discovery.rs:188-274 | Main: fails with the first fault of the first bad line, or when the report counts other candidates; otherwise each file is at most 400 KiB, the files of a type are numbered from 1 and hold exactly its rows in order, and none could have taken the next row. |
| `Discovery.AddRow` | crates/cloudthinker-client/src/discovery.rs:251-263 | A row goes into the chunk of its type, which is closed before if it would grow too large. |
| `Discovery.FaultExactly` | crates/cloudthinker-client/src/discovery.rs:192-253 | What makes a line good, written out, and of a bad one the first fault in the order of the checks. |
| `Discovery.RowsReadBack` | crates/cloudthinker-client/src/discovery.rs:246-263 | Rows without a newline in them are read back, in order, from the file that holds them; JSON text has none. |
| `Discovery.TotalSizeIsLength` | crates/cloudthinker-client/src/discovery.rs:305-320 | The size counted for a batch is the length of what its files hold. |
| `Discovery.CloseChunks` | crates/cloudthinker-client/src/discovery.rs:265-269 | What is left open becomes files too. |
| `Discovery.PathIsInjective` | crates/cloudthinker-client/src/discovery.rs:359-371 | Different asset types or chunk numbers give different paths, whatever dashes and digits a type has. |
| `Discovery.PathsAreDistinct` | crates/cloudthinker-client/src/discovery.rs:188-269 | No two files have the same path. |
| `Discovery.PublishDiscovery` | crates/cloudthinker-client/src/discovery.rs:305-338 | Main: the batches sent are within 100 files and 512 KiB, hold a prefix of the files in order, and none could have taken the next file; the report is sent after all files and full receipts and never else; the call succeeds if and only if the report was stored. |
| `Discovery.EnsureCompleteReceipt` | crates/cloudthinker-client/src/discovery.rs:346-357 | Accepts a receipt if and only if nothing was skipped and the paths written are the paths sent. |
| `Discovery.SequenceOpens` | crates/cloudthinker-client/src/discovery.rs:256-260 | A chunk that was full is followed by one with the next number. |
| `EditorSelection.DocumentSplits` | agent-cli/packages/agent/src/editor-selection.ts:90-97 | Main: the document is the text before the selection, the selected text, and the text after it. |
| `EditorSelection.DeletingLeavesTheRest` | agent-cli/packages/agent/src/editor-selection.ts:99-106 | Main: without the selection the document is what was before and after it, and its start is the seam. |
| `EditorSelection.DragIsOrdered` | agent-cli/packages/agent/src/editor-selection.ts:157-166 | Main: a drag selects from a start to an end not before it, and of two graphemes both and all between. |
| `EditorSelection.Editor.ActiveSelection` | agent-cli/packages/agent/src/editor-selection.ts:73-81 | A selection counts only in the text it was made in and if it is not empty, and its ends then lie in that text. |
| `EditorSelection.Editor.SelectedText` | agent-cli/packages/agent/src/editor-selection.ts:90-97 | What is returned is the piece of the document between the ends. |
| `EditorSelection.Editor.DeleteSelection` | agent-cli/packages/agent/src/editor-selection.ts:99-111 | After deletion the cursor stands where the text before and the text after meet. |
| `EditorSelection.Editor.DragTo` | agent-cli/packages/agent/src/editor-selection.ts:157-166 | The drag selects the ordered positions and puts the cursor at the end that moved. |
| `EditorSelection.Editor.SelectWord` | agent-cli/packages/agent/src/editor-selection.ts:139-149 | Selects the longest run of white space, or of anything else, around the place; nothing behind the end of the line. |
| `EditorSelection.Editor.SelectAll` | agent-cli/packages/agent/src/editor-selection.ts:151-155 | Nothing is before or after the selection. |
| `Painting.PaintColumns` | agent-cli/packages/agent/src/editor-selection.ts:169-204 | Main: without what it added the output is the line; and read back as text, on a terminal where ESC[7m sets and ESC[27m ends reverse video, every grapheme that starts in the columns is reversed whatever style sequences stand between, what is before looks as it did, and what is outside or behind the line is not reversed by it. |
| `Painting.PutEscape` | agent-cli/packages/agent/src/editor-selection.ts:199-200 | A style sequence inside the columns cannot end the reverse video. |
| `Painting.PutGrapheme` | agent-cli/packages/agent/src/editor-selection.ts:176-187 | A grapheme that reaches the last column ends it. |
| `Painting.EscapesAre` | agent-cli/packages/agent/src/editor-selection.ts:57-58 | The escape sequences written out: control sequences with their parameters and final letter, style sequences among them, and commands up to a bell or a string terminator. |
| `Prompt.NeutralizedHasNoTag` | agent-cli/packages/cloud/src/prompt.ts:15-20 | Main: the output has no block tag, with any white space, slash or letter case. |
| `Prompt.NeutralizingTwiceIsOnce` | agent-cli/packages/cloud/src/prompt.ts:18-20 | Main: a text stays as it is if and only if it has no block tag; a second time changes nothing. |
| `Prompt.FirstTagIsKept` | agent-cli/packages/cloud/src/prompt.ts:18-20 | The text before the first tag stays, and the tag becomes `&lt;`, its slash if it has one, its name as written, and `&gt;`; then it goes on behind the tag. |
| `Prompt.MatchFindsTag` | agent-cli/packages/cloud/src/prompt.ts:15 | The regular expression finds every tag, with its slash, its name and its end. |
| `Prompt.MatchIsTag` | agent-cli/packages/cloud/src/prompt.ts:15 | What the regular expression finds is a tag. |
| `Prompt.TagsAre` | agent-cli/packages/cloud/src/prompt.ts:15 | The tags written out: a bracket, white space, perhaps a slash, white space, one of the four names in any letter case, white space, a bracket. |
| `Prompt.LowerIs` | agent-cli/packages/cloud/src/prompt.ts:15 | Capital letters are on a par with small ones, every other character only with itself. |
| `Prompt.OnlyOuterTagsAreLeft` | agent-cli/packages/cloud/src/prompt.ts:22-26 | Main: any block tag in the guarded text is its own outer tag, before or behind the body, and there is none if the text was not wrapped. |
| `Prompt.WrappedIsFound` | agent-cli/packages/cloud/src/prompt.ts:16 | The wrapper is recognised whenever there is one, there is only one way to cut it, and its body is neutralised. |
| `Mermaid.CodeSpanRoundTrip` | agent-cli/packages/agent/src/mermaid.ts:54-59 | Main: reading the span by section 6.1 of CommonMark 0.31.2, wherever it stands with no backtick behind, gives exactly the line, or a no-break space for a blank one, and leaves what follows. |
| `Mermaid.LongestIsLongest` | agent-cli/packages/agent/src/mermaid.ts:56 | No backtick string of the content is longer than the length the fence is built from. |
| `Mermaid.FenceIsShort` | agent-cli/packages/agent/src/mermaid.ts:54-59 | The fence is a single backtick, or has exactly one backtick more than some backtick string of the content. |
| `Mermaid.CloseIsFound` | agent-cli/packages/agent/src/mermaid.ts:57-58 | The first backtick string as long as the fence is the closing one. |
| `Mermaid.FindRunIsFirst` | agent-cli/packages/agent/src/mermaid.ts:54-59 | The reader's search finds the first backtick string of the given length, or there is none. |

## Left out

- HTTP, clocks, processes, git and terminals: answers, times and failures are arbitrary inputs.
- `truncatePayload`: an entry keeps its size and a mark; no bound on the size afterwards is stated, because scalars are kept whatever their length.
- Status reports of the mirror (`report`, `formatMirrorStatus`): they change nothing.
- Promise scheduling is taken from the language: outbox operations run one at a time in the order asked for, flushes whose staging is over call `deliver` in that order, as they are the same number of promise reactions away from it, and a call runs at once up to its first await.
- `JSON.parse` is a parameter of `Outbox`, of which only this is used: it reads back the texts of the entries that were appended, and it accepts no text with a bracket or string left open; a cut inside a UTF-8 character reads as U+FFFD. `JsonText` has a reader that does both; it knows no space between tokens, takes any row of number characters for a number, and has no lone surrogates.
- MirrorDurability.NoStagedEntryIsLost: holds under the exact condition of `RunGuardsExactly`. The server counts as having an entry once it stored it, and as having refused it once it answered so, also if that answer is lost in a crash.
- MirrorDelivery.DeliveredAtQuiescence: needs every staged entry to be pending or settled at the start, which `DeliversExactly` shows to be exact at rest.
- MirrorAccount.DeliveredAfterFaithfulRuns: a link that completes while an older delivery to the same conversation is still sending is outside its condition, because that delivery rewrites the refusals file with what it knew when it began.
- Skills.LiveAgain: says nothing once an install of the skill has met a damaged backup, which is the exact condition of `InstallIsSafeExactlyWithoutDamagedBackups`.
- Skills: two live processes at once, the test whether an owner is alive or a stage too old, the renaming of a stage when it is taken over, errors of `access` other than absence, unpacking of the zip file, removal of skills that are no longer listed, and what the index says.
- Display: the screen behind the filter; what is shown is a sequence of characters.
- CommandBlock: segments are values, and a pending heredoc holds the position of its segment instead of a reference to it. A backslash in an unquoted heredoc word takes the next character with it, as in the code, so the delimiter of `<<\EOF` is `OF`; a backslash as the very last character is not part of `BareTag`.
- Wrap: colours and attributes of cells (`ansiCells`, `toCells`) and grapheme widths, which are given.
- TokenSource: which binary and arguments the key is joined from, and what the error says.
- PruneSpec: the order of schemas in the written file, other pruning passes, and documents whose `schemas` is not an object.
- DiffView: the printer is not part of the repository, `Printed` is its format; numbers are exact, where JavaScript loses digits beyond 2^53; word marks, colours and panes.
- Discovery: JSON parsing and the single fields of a candidate, which come as checked or not; the order among asset types in which the last chunks are written (any order is covered); reading of the report file.
- EditorSelection: finding the grapheme under the mouse, undo, autocompletion. The text of the editor has at least one line, and no line contains a line end.
- Painting: `PaintColumns` finds the escape sequences itself; how text is cut into graphemes, their widths, and what a style sequence does to reverse video are given by its `Terminal`.
- Small helpers that would only add easy members: update checks, retries, configuration, clock formats, review links, verbosity.
