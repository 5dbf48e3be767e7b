# Proofs for the transcript log, the pet, snapshot refs and the supervisor

These modules model the parts of the application that keep state across failures and races, and prove
what those parts promise over every input and every run.

- **The write-behind transcript log** (`Conversation`, `ProjectionLaws`, `Compaction`, `WrittenLines`,
  `TranscriptReader`, `TranscriptFile`, `SessionWriter`, `WriterRuns`, `AbandonedRuns`, `TornRuns`, `HeaderRuns`,
  `WriterThread`, `ReplayGate`, `GateMisses`, `GateRuns`, `Continuations`, `SessionIds`, `Listing`).
  Streamed chunks are buffered, merged and appended by one thread; a failed write is rolled back and
  retried, or the batch is abandoned. The reader is the real one: the projection into turns, the
  context window, the title, the counts and the times. The main theorem says that none of the buffering,
  merging, retrying and evicting can be seen in the conversation a reader shows. Around it stand the replay
  gate, proved over every interleaving of recorders, writer, guard drops and the gate's own line-by-line
  scan, and the continuation chains, proved over every link graph.
- **The pet** (`PetState`, `PetTask`): the aggregate over all agent connections, and the loop that
  announces it, with timers that outlive the handle naming them.
- **Snapshot refs** (`SnapshotCap`, `SnapshotRefs`): which lines a capped text keeps, and what a ref can
  resolve to after any run of snapshots and navigations.
- **The supervisor** (`Supervisor`): every atomic step of the main path against every atomic step of any
  number of signal handlers, and the bounds on relaunches and rollbacks.
- **Smaller members**: the rendering override that must undo itself across restarts (`Splitting`,
  `RenderingOverride`), the console budget (`ConsoleBudget`), shell quoting (`ShellQuote`) and the bounded
  spawn retry (`ExecBusyRetry`).

Where the source updates fields in place there is a class with those fields, and each method's `ensures`
gives its whole new state as a function of the old one; the lemmas are about those functions.

## Where the code does less than its comments say

Each of these is a lemma; the code is modelled as it is, and the condition under which it does meet the
promise is exact.

- `src-tauri/src/acp_transcript.rs:655-704` is right only while the reader already has the turn's start
  (`Compaction.JoinInvisibleIff`). The flag supplies that, except that an abandoned flush (lines 526-543) may
  leave a readable turn end behind without clearing it. `WriterRuns.AbandonedFlagIff` says exactly when the
  flag stays good, `AbandonedRuns.FileTellsWhatIsLeft` carries it over whole runs, and
  `WriterRuns.AbandonedTurnEndShiftsAStart` is a run from an empty file for which it does not.
- A poisoned writer is meant to record nothing further, but idleness ignores poison
  (`src-tauri/src/acp_transcript.rs:407-409`), so eviction forgets it and the next record is glued to the torn
  tail and acknowledged: `WriterRuns.AcknowledgedButUnreadable` is such a run, `TranscriptFile.ReadBackIff` the
  exact condition.
- An acknowledgement means "landed" for queued records only. A duplicate header is acknowledged while the first
  is still buffered (`WriterRuns.DuplicateHeaderAckedUnwritten`), and also when there is no header at all and
  never will be: `HeaderRuns.DuplicateBackedIff` says exactly when one is readable or buffered. It is lost when
  an entry is the first thing written (`HeaderRuns.EntryFirstShutsTheHeaderOut`), when a header's batch is
  abandoned (`HeaderRuns.AbandonedHeaderIsNotReplaced`), when a header left without its line break is glued over,
  or when the file held something else from the start; then it stays lost (`HeaderRuns.HeadlessForever`).
- The gate's comment gives landing as the only way the counter falls. It also falls when a prompt is discarded,
  and a landing can glue a prompt to an unfinished line. `ReplayGate.NoMeansNoHistory` says what a "no" does mean.
  Some interleaving makes the gate say "no history" about an acknowledged prompt if and only if the file did not
  end in a line break and its finished lines hold no entry (`GateMisses.MissedIff`; a file torn by an earlier
  process will do, `GateMisses.TornTailHidesAPrompt`); if batches may also be abandoned without their closing line
  break, if and only if the finished lines hold no entry (`GateMisses.MissedUnclosedIff`).
- A prompt glued to a torn line can also take with it the start of the turn it opened, while the writer merges as if
  it had been read: `TornRuns.GluedPromptShiftsAStart` is a run, `TornRuns.GluedReadsAlikeIff` says exactly for which
  readers no batch can show it, and `TornRuns.AnyRunIsTold` what any run on any file shows.
- "A superseded transcript is a prefix of its successor" holds of a link if the successor is not on the
  superseded one's own chain and that chain leaves room for it (`Listing.SuccessorExtends`, exact for the
  chains). A session is hidden for good if and only if it lies on a cycle that nothing outside leads into
  (`Listing.HiddenIffOnClosedCycle`), and under the limit if and only if it stands beyond it on every listed
  session's chain (`Listing.CoveredIffWithin`).
- The failed animation is not always kept for the whole window after the latest error
  (`src-tauri/src/pet_state_mapper.rs:322-325`): it can end early if and only if a clear is still queued or an
  older, detached timer runs that is due no later (`PetTask.FailureEndsEarlyIff`); `PetTask.StaleClearIsReached` and
  `PetTask.DetachedTimerIsReached` are runs that get there.
- A rendering that begins with an empty line carrying a ref may lose that ref although its line is inside the
  returned text: `SnapshotCap.ShownExactlyIff`. The renderer never makes one, since it starts every line with its
  indentation and a dash (`browser-agent/vendor/playwright/isomorphic/ariaSnapshotRenderer.ts:32-36`, `:88-89`),
  and for all other renderings the kept refs are exact.
- Without navigation entry ids a push at the engine's history cap, or a replace, that comes back to the same
  address goes unnoticed: `SnapshotRefs.RefResolvesIff` says exactly when a ref resolves.
- On Windows the withdrawn variable comes back token for token, but its spacing only sometimes:
  `RenderingOverride.WindowsExactlyRestoredIff`.

## Model

| member | source | states |
|---|---|---|
| Compaction.CompactBatch | src-tauri/src/acp_transcript.rs:653-705 | the merging loop and the flag it returns refine the specification the preservation theorems are about |
| WrittenLines.LinesAreGroups | src-tauri/src/acp_transcript.rs:653-732 | for every window and flag the records fall into consecutive groups, one per line: a record as it is, or a run of plain agent text of one kind and one `_meta` with its first payload, all its text and its last time; single outside a live turn, and inside one no two neighbouring lines could still be one; the flag handed on says whether the last prompt or turn end left a turn live |
| Compaction.CompactionPreservesMeaning | src-tauri/src/acp_transcript.rs:631-652 | from any reader state the flag is sound for, the merged lines read exactly like the records: turns, context window, times, prompt count, title; and the new flag is sound again |
| Compaction.AnyWindowsShowTheSame | src-tauri/src/acp_transcript.rs:625-705 | however a stream is split into flush windows with the flag threaded through, a fresh file shows the conversation the verbatim records show, earlier transcripts of the chain before it |
| Compaction.JoinInvisible | src-tauri/src/acp_transcript.rs:715-732 | reading the joined record is reading the two chunks, once the turn's start is fixed |
| Compaction.JoinInvisibleIff | src-tauri/src/acp_transcript.rs:647-650 | that condition is exact: two chunks of different times join unseen if and only if the reader has the start from something earlier |
| Compaction.EverythingElseIsVerbatim | src-tauri/src/acp_transcript.rs:602-623 | prompts, turn ends, headers and every update but plain agent text are written unchanged, in order, and a batch never grows or vanishes |
| Compaction.ReplayIsVerbatim | src-tauri/src/acp_transcript.rs:647-650 | a replay, which has no prompts, is not merged at all |
| Compaction.RunBecomesOneRecord | src-tauri/src/acp_transcript.rs:715-732 | inside a live turn a whole run becomes one record with all its text, its first payload and its last time |
| Compaction.SeeIsScans | src-tauri/src/parsers/acp_native.rs:103-172 | the single fold the proofs use computes the separate scans an opened conversation is made of |
| Conversation.ReadAppend | src-tauri/src/parsers/acp_native.rs:384-466 | the projection's loop composes over concatenated entries |
| Conversation.StartFixedIff | src-tauri/src/parsers/acp_native.rs:387-437 | whether the next chunk can set a turn's start is decided by the last telling entry alone |
| ProjectionLaws.ProseIsKept | src-tauri/src/parsers/acp_native.rs:384-466 | what the agent's turns say, messages and thoughts apart, is what its chunks said, in order |
| ProjectionLaws.LiveTurnReads | src-tauri/src/parsers/acp_native.rs:405-505 | a prompt, its reply and its turn end read as the prompt's turn and one answer from the prompt's time to the end, with the reported duration or else the time between |
| ProjectionLaws.TurnsAreNumbered | src-tauri/src/parsers/acp_native.rs:468-487 | turns are numbered as they stand |
| ProjectionLaws.ReplayedMessageReads | src-tauri/src/parsers/acp_native.rs:531-677 | replayed prose is one message, and its answer starts with its last chunk |
| ProjectionLaws.AttachmentsStandApart | src-tauri/src/parsers/acp_native.rs:396-402 | an attachment stays a block of its own between pieces of prose |
| ProjectionLaws.MidTurnMessageReads | src-tauri/src/parsers/acp_native.rs:387-390 | once the agent has answered, a user chunk is a message of its own and ends the agent's turn |
| ProjectionLaws.EchoIsIgnored | src-tauri/src/parsers/acp_native.rs:387-390 | before that it only repeats the recorded prompt |
| ProjectionLaws.PromptIsNeverExtended | src-tauri/src/parsers/acp_native.rs:424-426 | a recorded prompt's blocks are complete |
| ProjectionLaws.ToolCallHasOneCard | src-tauri/src/parsers/acp_native.rs:696-798 | two updates of one tool call make one card and at most one result: what the later gives replaces, what it leaves out stays |
| ProjectionLaws.PlanHasOneCard | src-tauri/src/parsers/acp_native.rs:799-830 | a later plan replaces the earlier on its card |
| ProjectionLaws.ConversationTimes | src-tauri/src/parsers/acp_native.rs:131-138 | a conversation began when its header says or else with its first entry |
| ProjectionLaws.LastWindowCounts | src-tauri/src/parsers/acp_native.rs:366-381 | the context window is the last one reported, unless of size zero |
| ProjectionLaws.FirstPromptNames | src-tauri/src/parsers/acp_native.rs:179-211 | the title is cut from the first prompt |
| TranscriptReader.ParseTranscript | src-tauri/src/acp_transcript.rs:967-986 | the first header wins, and every entry on any other line is kept in order |
| TranscriptReader.ReadHeader | src-tauri/src/acp_transcript.rs:1035-1045 | the reader that stops at the header gives the whole-file parser's header |
| TranscriptReader.HasEntries | src-tauri/src/acp_transcript.rs:1088-1104 | the reader that stops at the first entry says yes exactly when the whole-file parser finds an entry |
| TranscriptReader.HistoryIsSeen | src-tauri/src/acp_transcript.rs:1081-1104 | an entry line that is no header makes the answer yes wherever it stands |
| TranscriptFile.AppendedEntries | src-tauri/src/acp_transcript.rs:707-713 | appending a batch to a terminated file adds exactly its lines and entries to what is read back |
| TranscriptFile.AppendedHeader | src-tauri/src/acp_transcript.rs:974-980 | the header read back is the one already there, or else the batch's first |
| TranscriptFile.PartialThenNewline | src-tauri/src/acp_transcript.rs:483-487 | after a failed write and the restored line break exactly the fully written records are readable, and the next record starts cleanly |
| TranscriptFile.ReadBackIff | src-tauri/src/acp_transcript.rs:524-529 | a batch is read back in full if and only if the file it went to ended in a line break |
| TranscriptFile.LinesOnlyGrow | src-tauri/src/acp_transcript.rs:936-963 | of a file that ends in a line break every line is still read whatever is appended, torn or not |
| TranscriptFile.FinishedOnlyGrow | src-tauri/src/acp_transcript.rs:936-963 | of any file every finished line is |
| SessionWriter.SessionWriter.constructor | src-tauri/src/acp_transcript.rs:393-404 | a new writer holds nothing, may not merge and is not poisoned, whatever the file holds |
| SessionWriter.SessionWriter.Accept | src-tauri/src/acp_transcript.rs:419-442 | whole new state of the writer, the file and the acknowledgements for a record: refused, acknowledged as duplicate, buffered or flushed |
| SessionWriter.SessionWriter.HeaderAlreadyStands | src-tauri/src/acp_transcript.rs:444-457 | yes exactly if a header was written or is buffered or the file is not empty, and the answer is remembered |
| SessionWriter.SessionWriter.Flush | src-tauri/src/acp_transcript.rs:492-546 | whole new state in every outcome of one attempt: landed, put back, abandoned with or without a closing line break |
| WriterRuns.WriteBehindIsInvisible | src-tauri/src/acp_transcript.rs:474-546 | over any run of accepts, deadlines, evictions, refused opens and rolled-back writes, on any terminated file, the file shows exactly what the acknowledged records say verbatim, under the header it had or the first acknowledged one; queued records are acknowledged or buffered in their order, none dropped |
| AbandonedRuns.FileTellsWhatIsLeft | src-tauri/src/acp_transcript.rs:474-546 | over any run whose abandoned batches are closed and do not unfix a turn's start, the file and its header show what landed batches say verbatim and abandoned ones left whole, each in its place |
| TornRuns.AnyRunIsTold | src-tauri/src/acp_transcript.rs:474-546 | over any run through any failure, on any file, as long as no prompt is glued before a turn has its start and no closed abandonment leaves a turn end behind a merging writer, the file shows its finished lines, landed batches verbatim without a glued first record, what abandoned ones finished, and the unfinished line there is |
| TornRuns.SplitAppend | src-tauri/src/acp_transcript.rs:1006-1028 | whatever is appended is read after the unfinished line and leaves the finished ones |
| TornRuns.CompactedAfterFirst | src-tauri/src/acp_transcript.rs:653-705 | outside a live turn the first record of a batch is written as it is and the rest on its own |
| TornRuns.GluedReadsAlikeIff | src-tauri/src/acp_transcript.rs:653-705 | every batch that loses its first record to an unfinished line reads like its other records if and only if that record is no prompt or the reader has a turn's start without it |
| TornRuns.GluedPromptShiftsAStart | src-tauri/src/acp_transcript.rs:653-705 | a run on a torn file in which the prompt that allows merging is itself lost, so that the turn shown starts at the wrong time |
| WriterRuns.RunConserves | src-tauri/src/acp_transcript.rs:419-556 | whatever fails, every record handed over is in exactly one place: acknowledged, acknowledged as duplicate, refused or still buffered |
| WriterRuns.RunKeepsInv | src-tauri/src/acp_transcript.rs:352-472 | over any run a deadline exists if and only if something is buffered, a poisoned writer holds nothing, and there are never two headers in file and buffer together |
| WriterRuns.NothingOverdue | src-tauri/src/acp_transcript.rs:550-554 | after a pass no deadline is overdue, and a batch put back is due one window later, so a wedged disk is not retried in a hot loop |
| WriterRuns.OnlyLiveTurnsWait | src-tauri/src/acp_transcript.rs:430-441 | a header, prompt, turn end or anything outside a live turn is readable when accept returns, the header as the file's unless it has one, together with all that waited; anything else waits from the first buffered record's time |
| WriterRuns.PromptsAndTurnEndsAreReadable | src-tauri/src/acp_transcript.rs:233-248 | a prompt or a turn end accepted on a terminated file is on disk when accept returns, last of all that waited, with nothing left buffered |
| WriterRuns.NewHeaderIsReadable | src-tauri/src/acp_transcript.rs:233-248 | and so is the first header of a file |
| WriterRuns.UpdatesWaitInLiveTurns | src-tauri/src/acp_transcript.rs:430-441 | an update is buffered if it comes inside a live turn, and flushed otherwise |
| WriterRuns.WriterPace | src-tauri/src/acp_transcript.rs:335-390 | what has waited a second is tried and what has not is left; a writer that holds nothing and was not touched for half an hour is forgotten, and no other |
| WriterRuns.RetryWritesTheSame | src-tauri/src/acp_transcript.rs:628-629 | an attempt that left the file alone changes nothing about what a later attempt writes |
| WriterRuns.AckMeansLanded | src-tauri/src/acp_transcript.rs:517-545 | a batch is acknowledged if and only if it landed, with its entries already readable; otherwise the file is as it was or the batch is abandoned |
| WriterRuns.DuplicateHeaderAckedUnwritten | src-tauri/src/acp_transcript.rs:424-429 | a second header is acknowledged although nothing is on disk |
| HeaderRuns.DuplicateBackedIff | src-tauri/src/acp_transcript.rs:424-457 | over any run on any file, a header acknowledged as a duplicate has one readable in the file or waiting in the buffer if and only if the file was not without one from the start and no attempt of the run cost it |
| HeaderRuns.FlushHeadlessIff | src-tauri/src/acp_transcript.rs:492-546 | the attempts that cost a transcript its header, exactly: the first to leave anything leaves no whole header, or something is glued to a header without its line break |
| HeaderRuns.HeadlessForever | src-tauri/src/acp_transcript.rs:424-457 | a transcript without its header never gets one: every later header is acknowledged or refused unwritten |
| HeaderRuns.AbandonedHeaderIsNotReplaced | src-tauri/src/acp_transcript.rs:524-543 | an abandoned header leaves a torn line, and the next header is acknowledged as its duplicate |
| HeaderRuns.EntryFirstShutsTheHeaderOut | src-tauri/src/acp_transcript.rs:444-457 | a header after a written entry is acknowledged as a duplicate of none |
| WriterRuns.AbandonedFlagIff | src-tauri/src/acp_transcript.rs:524-543 | after an abandoned batch the entries that survive are exactly the fully written ones, and the merge flag is still sound if and only if they do not end a turn that nothing reopens |
| WriterRuns.AbandonedTurnEndShiftsAStart | src-tauri/src/acp_transcript.rs:524-543 | a run from an empty file after which the flag is not sound: the next merged run moves a turn's start |
| WriterRuns.EvictionForgetsPoison | src-tauri/src/acp_transcript.rs:406-409 | after an eviction a poisoned session's next prompt is acknowledged and unreadable |
| WriterRuns.AcknowledgedButUnreadable | src-tauri/src/acp_transcript.rs:406-409 | a run from an empty file whose second prompt is acknowledged and found by no reader |
| WriterThread.WriterThread.NextDeadline | src-tauri/src/acp_transcript.rs:792-807 | the thread wakes at the earliest deadline of any writer, and sleeps outright only if there is none |
| WriterThread.WriterThread.Pass | src-tauri/src/acp_transcript.rs:808-820 | each path sees exactly one pass of its own run: its record, its deadline check, its eviction, and nothing of the others |
| WriterThread.SleepsOnlyWhenEmpty | src-tauri/src/acp_transcript.rs:783-787 | no writer has a deadline if and only if no record is buffered anywhere |
| ReplayGate.PendingPrompts.Hold | src-tauri/src/acp_transcript.rs:280-287 | one more guard for the path, the counter map still exact |
| ReplayGate.PendingPrompts.Release | src-tauri/src/acp_transcript.rs:289-301 | one guard fewer, a path without guards leaves the map |
| ReplayGate.PendingPrompts.HasPending | src-tauri/src/acp_transcript.rs:303-310 | yes exactly while a guard for the path exists |
| ReplayGate.NoFalseNo | src-tauri/src/acp_transcript.rs:1047-1079 | under every interleaving, on any file, if the gate answers "no history" every prompt on its way when the counter was read has been discarded or was glued to an unfinished line |
| ReplayGate.NoMeansNoHistory | src-tauri/src/acp_transcript.rs:1047-1079 | a "no" means that when the counter was read no prompt was on its way, none had landed on a line of its own, and no finished line of the file was an entry, from whatever source |
| GateMisses.UndisturbedAnswer | src-tauri/src/acp_transcript.rs:1068-1104 | left alone, the gate answers yes exactly if a prompt is on its way or the whole-file parser finds an entry |
| GateMisses.GluedIff | src-tauri/src/acp_transcript.rs:517-523 | a prompt is glued exactly by a landing, on a file that does not end in a line break, of a batch it comes first in |
| GateMisses.CleanFilesGlueNothing | src-tauri/src/acp_transcript.rs:483-487 | on a file that ends in a line break, with every abandoned batch closed by one, no prompt is ever glued |
| GateMisses.TornTailHidesAPrompt | src-tauri/src/acp_transcript.rs:1072-1078 | on a line torn by an earlier process, an acknowledged prompt is missed by the gate |
| GateMisses.MissedIff | src-tauri/src/acp_transcript.rs:1047-1079 | with every abandoned batch closed, some interleaving makes the gate say "no history" about an acknowledged prompt if and only if the file did not end in a line break and its finished lines hold no entry |
| GateMisses.MissedUnclosedIff | src-tauri/src/acp_transcript.rs:1047-1079 | with batches abandoned unclosed too, if and only if the finished lines hold no entry |
| GateMisses.RunPasses | src-tauri/src/acp_transcript.rs:1088-1104 | under every interleaving a gate that has passed the file's first finished lines found no entry in them |
| ReplayGate.NoLeakedClaim | src-tauri/src/acp_transcript.rs:251-301 | once nothing is in flight the counter is zero, whichever way the records left |
| ReplayGate.QueueIsBounded | src-tauri/src/acp_transcript.rs:326-335 | the queue holds at most 8192 records in any run |
| ReplayGate.StepBoundsQueue | src-tauri/src/acp_transcript.rs:764-779 | an offer to a full queue is discarded, and its guard is on its way out |
| ReplayGate.ScanningFirstIsUnsound | src-tauri/src/acp_transcript.rs:1072-1078 | a gate that reads in the other order answers "no history" about a landed prompt |
| ReplayGate.LandedPromptIsALine | src-tauri/src/acp_transcript.rs:665-680 | a batch holding a prompt always writes a line the scan counts, merged or not |
| ReplayGate.LandedPromptIsSeen | src-tauri/src/acp_transcript.rs:665-705 | whatever the file ended in, so does every batch with a prompt that is not glued |
| GateRuns.LandedSplit | src-tauri/src/acp_transcript.rs:707-713 | what a batch appended to any file is read as: all its lines, or all but the first and junk |
| GateRuns.FlushIsAGateStep | src-tauri/src/acp_transcript.rs:492-546 | every flush of the writer's model, on any file, is a step of the gate's model: a landing, an abandonment or a rollback |
| GateRuns.WritingIsAGateStep | src-tauri/src/acp_transcript.rs:517-517 | what a reader sees of a write stopped anywhere is a write in progress of the gate's model |
| GateRuns.RunIsAGateRun | src-tauri/src/acp_transcript.rs:788-827 | every run of the writer, on any file and through any failures, is a run of the gate's model: the same lines, tail, buffer and flag, the same prompts acknowledged and lost |
| Continuations.CollectChain | src-tauri/src/acp_transcript.rs:1118-1140 | the walk reads each id of the chain once and stops at a cycle or the limit |
| Continuations.ReadChainIn | src-tauri/src/acp_transcript.rs:1118-1152 | with the source's limit: entries oldest first and the oldest header there is |
| Continuations.ContinuationAncestorsIn | src-tauri/src/acp_transcript.rs:1167-1188 | with the source's limit: the ids a session continues, newest first, read from headers alone |
| Continuations.WalkFacts | src-tauri/src/acp_transcript.rs:1118-1140 | on any link graph a walk visits distinct ids, each linked from the one before |
| Continuations.WalkIsMaximal | src-tauri/src/acp_transcript.rs:1123-1133 | a walk ends only at a missing link, a visited id or the limit |
| Continuations.WalksAgree | src-tauri/src/acp_transcript.rs:1154-1166 | the chain read is the session and its ancestors, cut to the limit, on any link graph |
| SessionIds.SafeIff | src-tauri/src/acp_transcript.rs:185-191 | an id names a transcript exactly if it is one to 128 ASCII letters, digits, hyphens, underscores and full stops and starts with no full stop |
| SessionIds.NamedTranscriptsAreRead | src-tauri/src/acp_transcript.rs:195-200 | every transcript so named is read: its own entries end the conversation read from it, and it is that conversation if it continues nothing |
| SessionIds.NamedLinksAreFollowed | src-tauri/src/acp_transcript.rs:1167-1188 | what it continues is found |
| SessionIds.OtherNamesReadAsNothing | src-tauri/src/acp_transcript.rs:195-200 | every other id reads as nothing and links to nothing |
| SessionIds.UuidsNameTranscripts | src-tauri/src/acp_transcript.rs:181-191 | ids of the usual hexadecimal shape with hyphens name transcripts |
| SessionIds.PathsAreNotNames | src-tauri/src/acp_transcript.rs:181-191 | nothing with a separator, no parent reference and nothing hidden does |
| Continuations.ChainContainsIff | src-tauri/src/acp_transcript.rs:1118-1152 | a chain goes on as the chain of a session it holds if and only if no newer id comes back in it and it fits under the limit |
| Continuations.ConversationExtends | src-tauri/src/acp_transcript.rs:1142-1152 | then the conversation begins with that session's own, under the older header |
| Continuations.StandsWhole | src-tauri/src/acp_transcript.rs:1142-1152 | every session on a chain, hindered or not, has its entries whole and in order in the chain's conversation |
| Listing.SupersededIds | src-tauri/src/acp_transcript.rs:1207-1216 | exactly the ids some transcript of the directory continues |
| Listing.SuccessorExtends | src-tauri/src/acp_transcript.rs:1199-1202 | a superseded transcript is a prefix of its successor, older header kept, if the successor is not on its chain and the chain leaves room; the chains extend if and only if so |
| Listing.ListingCoversEverything | src-tauri/src/acp_transcript.rs:1199-1216 | for any session no chain that holds it exceeds the limit for: it is on a listed session's chain if and only if it is not on a cycle nothing outside leads into, its entries stand whole there, and if it is on no cycle that conversation begins with its own |
| Listing.HiddenIffOnClosedCycle | src-tauri/src/acp_transcript.rs:1207-1216 | limit aside, a session is hidden if and only if it lies on a cycle that nothing outside leads into, whatever else the directory holds |
| Listing.CoveredIffWithin | src-tauri/src/acp_transcript.rs:1106-1152 | under any limit, exactly the sessions stay reachable that stand within it on some listed session's chain |
| Listing.MutualPairHiddenIff | src-tauri/src/acp_transcript.rs:1207-1216 | two sessions that continue each other are hidden if and only if no third leads to them |
| Listing.LimitHidesTheOldest | src-tauri/src/acp_transcript.rs:1106-1110 | of a line longer than the limit the oldest session is in no chain read from its newest |
| PetState.PetGlobalState.Apply | src-tauri/src/pet_state_mapper.rs:97-222 | whole new snapshot for every event, sub-agents apart |
| PetState.PendingIffOutstanding | src-tauri/src/pet_state_mapper.rs:97-238 | after any run a permission is pending for a connection if and only if it was raised and nothing since has ended it |
| PetState.ChildrenStayOut | src-tauri/src/pet_state_mapper.rs:97-222 | a tracked sub-agent is never among the busy or failing connections |
| PetState.ChildrenIffTracked | src-tauri/src/pet_state_mapper.rs:111-130 | a connection is tracked exactly if it was announced as a sub-agent and not forgotten since |
| PetState.PromptingIffLeftPrompting | src-tauri/src/pet_state_mapper.rs:97-238 | after any run a connection counts as busy exactly if it began a prompt while untracked and no other status, turn end, word of a delegation or overrun has come since |
| PetState.FailingIffLeftFailing | src-tauri/src/pet_state_mapper.rs:97-238 | and as failing exactly if it failed while untracked and nothing since has ended that, recovery included |
| PetState.ChildWorkNeverShows | src-tauri/src/pet_state_mapper.rs:99-130 | deleting a sub-agent's status reports and errors, those ahead of its announcement too, leaves the same snapshot from the announcement on |
| PetTask.PetTask.ScheduleFailedRecovery | src-tauri/src/pet_state_mapper.rs:326-339 | the timer named before is stopped and a new one runs |
| PetTask.PetTask.ReceiveAcp | src-tauri/src/pet_state_mapper.rs:384-446 | whole new state of task, handle, stream and timers for one delivered event |
| PetTask.PetTask.ReceiveLagged | src-tauri/src/pet_state_mapper.rs:447-481 | whole new state after an overrun |
| PetTask.PetTask.ReceiveClear | src-tauri/src/pet_state_mapper.rs:532-544 | whole new state after a recovery message |
| PetTask.EveryLoopHead | src-tauri/src/pet_state_mapper.rs:382-545 | over any run the handle, the last emitted state and the snapshot's state are one, the stream never repeats itself, a failing snapshot has a timer running or a clear queued, and the timer the task names is the newest and the last due |
| PetTask.PetShows | src-tauri/src/pet_state_mapper.rs:241-272 | at every loop head the handle and the last emitted state are Failed if some connection was left failing, else Waiting if some request is outstanding, else Running if some connection was left prompting, else Idle, all told by the happenings alone |
| PetTask.EachErrorStartsItsTime | src-tauri/src/pet_state_mapper.rs:322-345 | each error of a session stops the named timer and starts one due four seconds on; once none is failing the named one is stopped |
| PetTask.TimersOfferClears | src-tauri/src/pet_state_mapper.rs:326-339 | a timer that fires leaves one clear in a channel of eight, or none if that is full |
| PetTask.CuesAreExact | src-tauri/src/pet_state_mapper.rs:294-304 | the cues are one failure for each turn with a failing stop reason, one review for each pending one and the side notices, in order, and none for a turn that ended or was cancelled |
| PetTask.ClosingIsFinal | src-tauri/src/pet_state_mapper.rs:482-485 | closing stops the named timer and nothing changes after it |
| PetTask.FailedEnds | src-tauri/src/pet_state_mapper.rs:322-345 | a shown failure has a clear queued, or a timer due within the recovery time whose firing queues one, and the clear ends it |
| PetTask.StaleClearDetaches | src-tauri/src/pet_state_mapper.rs:532-544 | a stale clear ends a newer failure early and forgets its timer, which still fires |
| PetTask.FailureEndsEarlyIff | src-tauri/src/pet_state_mapper.rs:322-345 | with no further agent event, a shown failure can end before its own timer fires if and only if a clear is queued or an older timer, due no later, still runs |
| PetTask.StaleClearIsReached | src-tauri/src/pet_state_mapper.rs:326-345 | a run from the start to a queued clear and a newer error, whose failure the clear ends |
| PetTask.DetachedTimerIsReached | src-tauri/src/pet_state_mapper.rs:532-544 | a run from the start to two live timers, the older one detached |
| SnapshotCap.ShownRefs | browser-agent/src/index.ts:315-328 | the set filled by the loop is the refs on lines before the cut, and none when the cut is inside a line |
| SnapshotCap.TruncateIsCappedPrefix | browser-agent/src/index.ts:662-673 | the text returned is a prefix, within the cap and never empty when cut, and is whole exactly if there is no positive cap or it fits |
| SnapshotCap.TruncateKeepsAllThatFits | browser-agent/src/index.ts:650-673 | the cut is the longest: on the last line break the cap reaches, or on the cap itself if there is none after the first character |
| SnapshotCap.LinesWithinTheCapAreKept | browser-agent/src/index.ts:650-673 | every line that ends by the cap, but an empty first one, is in the text whole |
| SnapshotCap.RefsWithinTheCapAreKept | browser-agent/src/index.ts:308-328 | and its ref is kept |
| SnapshotCap.CountedLinesFit | browser-agent/src/index.ts:321-326 | in a prefix that stops at a line break, the lines counted are the lines that fit |
| SnapshotCap.ShownIsInside | browser-agent/src/index.ts:308-328 | whatever the line map and wherever the cut, a ref kept stands on a line wholly inside the returned text |
| SnapshotCap.ShownExactlyIff | browser-agent/src/index.ts:308-328 | the refs kept are exactly those on lines wholly inside the returned text, if and only if the rendering does not start with an empty line carrying a ref that alone would fit; so always, for the renderer there is |
| SnapshotRefs.TokensNeverRepeat | browser-agent/src/index.ts:186-201 | two snapshots of one document never share a token, whatever epochs the host attaches |
| SnapshotRefs.EpochsAreTold | browser-agent/src/index.ts:284-291 | under one sequence number tokens are equal exactly if the epochs are, an empty one being another than none |
| SnapshotRefs.Agent.CutRefs | browser-agent/src/index.ts:263-275 | the refs kept and the refs cut partition the tree's refs by what the text shows |
| SnapshotRefs.Agent.Snapshot | browser-agent/src/index.ts:247-306 | whole new module state of a snapshot and what the caller gets |
| SnapshotRefs.RefResolvesOnlyToTheLastSnapshot | browser-agent/src/index.ts:330-359 | over any run, a ref resolves only under the latest snapshot's token, to the element that snapshot mapped it to, on a line wholly inside the returned text if that was cut, still connected, at the same address and history length with no traversal or hash change since, and no push or replace either where entries have ids |
| SnapshotRefs.RefResolvesIff | browser-agent/src/index.ts:340-359 | over any run, with entry ids or without, a ref resolves if and only if the token is the latest, the cap left it, its element is connected, address, history length and tick count are unmoved, and with ids nothing was pushed or replaced |
| SnapshotRefs.ReplaceAndBackIsUnseen | browser-agent/src/index.ts:144-157 | without entry ids a replace there and back goes unnoticed |
| SnapshotRefs.CapIsBlamedRightly | browser-agent/src/index.ts:391-446 | the caller's cap is blamed if and only if this snapshot's cap took a ref the previous one handed out, and the caller quotes that one at an unchanged address or this one on a page that has not moved |
| Supervisor.StopReachesTheWorker | src-tauri/src/supervise.rs:59-110 | under every interleaving, once the flag is up and the handlers are done, the worker waited on has been signalled |
| Supervisor.NoRelaunchWhileStopping | src-tauri/src/supervise.rs:193-212 | after an exit observed while terminating nothing is launched again |
| Supervisor.HandlerAloneMissesTheGap | src-tauri/src/supervise.rs:96-107 | a supervisor that does not recheck the flag after a spawn can wait for a worker that a handled stop never reached |
| Supervisor.NoHotLoop | src-tauri/src/supervise.rs:112-280 | at most two spawn attempts and one rollback per launch, only staged launches are rolled back, and a restart exit lies between any two rollbacks |
| Supervisor.ExitIsAnswered | src-tauri/src/supervise.rs:193-280 | an exit while stopping ends in exit code 0, a restart exit in a relaunch, any other exit of a launch on trial and in time in a rollback, and the rest in the worker's code or 128 and its signal |
| Supervisor.SpawnIsAnswered | src-tauri/src/supervise.rs:96-137 | a spawned worker's pid is published before the flag is looked at; the failed spawn of a launch on trial leads to a rollback and one more attempt, any other to exit code 1 |
| Splitting.WordsOfJoin | src-tauri/src/lib.rs:332-332 | words joined by a separator are split back into the same words |
| RenderingOverride.Process.ApplyLinux | src-tauri/src/lib.rs:373-395 | whole new environment of a launch on Linux, toggle on or off |
| RenderingOverride.Process.WithdrawLinux | src-tauri/src/lib.rs:405-440 | whole new environment when the toggle goes off |
| RenderingOverride.Process.ApplyWindows | src-tauri/src/lib.rs:345-371 | whole new environment of a launch on Windows, toggle on or off |
| RenderingOverride.LinuxRoundTrip | src-tauri/src/lib.rs:328-440 | over any sequence of launches nothing the user exported changes, an on launch leaves "1" in the variables the user had not set and nothing else new but the marker, and an off launch leaves the user's own environment |
| RenderingOverride.WindowsRoundTrip | src-tauri/src/lib.rs:328-440 | over any sequence of launches every other variable stays; an on launch leaves the user's arguments and, unless among them, the flag last; an off launch exactly the user's arguments |
| RenderingOverride.WhiteSpaceSeparates | src-tauri/src/lib.rs:350-351 | two arguments stand apart exactly if a Unicode white space character stands between them |
| RenderingOverride.WindowsExactlyRestoredIff | src-tauri/src/lib.rs:345-428 | over any sequence of launches that was on at some time and ends off, the user's environment is back unchanged if and only if the flag was the user's, the variable was unset, or its value was single-spaced and not blank |
| RenderingOverride.SourceNamesFit | src-tauri/src/lib.rs:277-309 | the source's variable names and flag meet what the round trips ask of names |
| ConsoleBudget.Helper.ForwardConsole | src/browser-injected/helper.js:322-341 | whole new state for one entry: posted with the count it carries, or counted as dropped |
| ConsoleBudget.NothingUncounted | src/browser-injected/helper.js:307-341 | over any run, entries offered are posted, reported dropped or still counted, and while any is counted a timeout is pending |
| ConsoleBudget.AnySecondIsBounded | src/browser-injected/helper.js:322-332 | with a clock that does not run backwards any 1000 ms carry at most 400 entries |
| ConsoleBudget.DroppedOnlyOverBudget | src/browser-injected/helper.js:322-332 | an entry is dropped only when 200 were posted within the second up to it |
| ConsoleBudget.ClipKeepsCharactersWhole | src/browser-injected/helper.js:290-300 | clipping well-formed UTF-16 leaves well-formed UTF-16 |
| ConsoleBudget.ClipIsLongest | src/browser-injected/helper.js:290-300 | short text is left alone; long well-formed text becomes its longest prefix within the limit that splits no character, and the ellipsis |
| ShellQuote.ShSingleQuote | src-tauri/src/git_credential.rs:15-27 | a shell reads the printed text as exactly one word, the string itself |
| ShellQuote.QuotedArgumentsRoundTrip | src-tauri/src/git_credential.rs:10-14 | any strings quoted and separated by blanks are read back as exactly those words |
| ShellQuote.UnquotedSpecialsAreNoWords | src-tauri/src/git_credential.rs:10-14 | the shell model takes no special character outside quotes for itself, so the round trip is owed to the quoting |
| ShellQuote.QuoteIsInjective | src-tauri/src/git_credential.rs:10-14 | different strings are never quoted alike |
| ExecBusyRetry.SpawnRetryingExecBusyWithin | src-tauri/src/process.rs:270-294 | the loop ends; the result is the first outcome that is not busy or the last attempt's own error with the budget spent; sleeps fit the budget and attempts keep the backoff |
| ExecBusyRetry.SpawnRetryingExecBusy | src-tauri/src/process.rs:261-266 | with the source's constants at most 45 attempts, and a busy error only after a second |

## Left out

- JSON and UTF-8: a payload is what the reader takes from it, a record's serialization is one token free of line breaks, and a token that is torn or shares its line is junk. Serialization is total, so the branch for a batch without lines (`src-tauri/src/acp_transcript.rs:502-506`) cannot be taken.
- Agent chunks that are plain text yet do not parse as an update: the callers record only updates they have parsed.
- Contents of tool previews, plans and usage: opaque values, projected before the fold.
- The wall clock is read once per call; file, thread and channel calls are outcomes given to the model.
- ReplayGate.NoFalseNo: one prompt is one ticket; that an abandoned batch left at most one unfinished line, and what lines it left, are inputs.
- WriterRuns.WriteBehindIsInvisible: of runs without an abandoned batch; those with one are `AbandonedRuns.FileTellsWhatIsLeft`.
- WriterThread.WriterThread.Pass: a writer's counters for its log lines are per path; the flush of what is left at teardown and the receiving channel are not modelled.
- Continuations.ReadChainIn: directory listing order and ids with characters outside ASCII; the laws about chains hold for every limit, 512 among them.
- The sort of the conversation list and the not-found error of an empty conversation.
- Deleting a directory under a running writer, and other processes writing the same directory.
- PetTask.FailedEnds: no minimum time a failure stays visible; `PetTask.FailureEndsEarlyIff` says when there is one.
- PetTask.CuesAreExact: which folder and install notices call for which cue is decided before the model.
- Lag metrics, log throttling and the emitter's own delivery.
- SnapshotRefs.RefResolvesOnlyToTheLastSnapshot: entry ids are minted in order, a traversal returns to an earlier one and fires `popstate`; JavaScript numbers are unbounded integers, text is a sequence of characters.
- The accessibility tree and its renderer: a snapshot is given the tree, the text and the line map.
- Acting on an element, geometry and scrolling.
- Supervisor.StopReachesTheWorker: pids are not reused while one is held; orphans, interrupted waits, stopped children and the case of no children left are not modelled, and what a signal does to the worker is the worker's.
- The Windows supervisor, which does not roll back a failed spawn, and the installer behind `attempt_rollback`.
- RenderingOverride.Process.ApplyLinux: a variable that is not valid text counts as unset in the marker and as set elsewhere in the source; here every value is text.
- ConsoleBudget.Helper.ForwardConsole: the texts and addresses carried along, their three limits, and how long a dropped count waits for its timeout; `clip` is modelled apart.
- `bat_double_quote`: batch parsing has no definition to prove it against.
- ExecBusyRetry.SpawnRetryingExecBusyWithin: an attempt's time and a sleep's overshoot are inputs; a sleep is never shorter than asked.
