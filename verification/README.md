# Verified model of the Jouzu runtime's stateful parts

A Dafny model of the code in this repository that keeps state across interleavings or makes an
algorithmic claim, with proofs of what that code is for. Each module follows one source file. Code that
updates variables step by step is modelled by methods and classes, proved against specification
functions; the laws are lemmas about those functions, over every input or every run.

- **Terminal line breaker** (`CommandReport`, `Wrap*`, `Rewrap`): the two wrappers, conservation of the
  text, the CJK line rules, optimality of the greedy split, agreement of the two wrappers and stability
  under wrapping again. Widths are a sum of non-negative character widths.
- **Flow ingress binding** (`FlowIngress*`): one event per stretch between awaits; single dispatch,
  revocation, attachment fencing, branch changes, nested settled drains and deferred actions. The host is
  taken to invoke a deferred action at most once and to defer only while `agent_settled` is emitted.
- **Background store** (`BackgroundStore*`, `CanonicalBackgroundStore`): replace-by-rename with a fault, a
  crash or a power loss at any I/O call, and the adapter that blocks, coalesces and marks.
- **Background results and publications** (`BackgroundRecords`, `BackgroundResults`, `BackgroundFlowSource`,
  `BackgroundPublication`): the result map that outlives live tasks, and what execution listeners are told.
- **Background producer** (`BackgroundProducer*`, `BackgroundCoalescing`, `BackgroundExtension`): tasks,
  result map and store file over whole runs, with acknowledgements that are taken back, writes that fail
  or die before or after they replaced the file or are cut off by a delivery callback, and new processes
  that have the file only; and the adapter and the source wired together.
- **ACP session and child** (`Acp*`): three promise chains with freely interleaved continuations, the end
  of a turn, cancellation, and JSON Lines framing over arbitrary chunks.
- **Smaller machines**: the idle stop (`IdleStop*`), the user-input adapter with synchronous re-entry to
  any depth (`UserInput*`), the Fluent block parser (`Fluent*`) and the goal-section merge (`GoalMerge*`).

What the proofs found, stated as lemmas or methods beside the laws they limit:

- The documentation of `wrapHumanText` promises that no line ends with an opening mark. The code can leave
  one there (`WrapLineEnd.LineEndRuleFails`). `LineEndsExactly` says when it does, for every text, width and
  column, and `LineEndRuleBreaks` which texts it can happen to. The code is followed.
- An acknowledgement whose write replaces the store file and then fails, also because a delivery callback
  throws, is taken back, and is found made by the next process; and a task whose writes all failed is
  forgotten with its process (`BackgroundProducerLaws.ThrownReceiptReturns`, `ThrownReceiptHappens`,
  `UnwrittenWorkIsLost`).
- A task cleared after its result was prepared and before a write of it returned takes the result with it
  (`BackgroundCoalescing.ClearedBeforeWritten`; exactly when, in `CoalescingLosesNothing`).
- A listener whose callback throws hides the publication from every listener after it
  (`BackgroundPublication.ThrowSilences`; exactly when, in `LoopTells`), and so does a delivery whose callback
  throws for the sessions that changed after its own (`BackgroundResults.ToldExactly`).
- The two wrappers differ on words made of white space other than spaces, which one of them keeps and the
  other treats as a separator (`WrapAgreement.TabIsDropped`; exactly when, in `BreakersAgree`).
- The child's size limit, unlike its records, depends on how the stream was cut
  (`AcpChildFraming.LongLineOverflows`).
- A shutdown that re-enters the user-input adapter while it subscribes leaves that subscription live
  (`LeakByShutdown`). A session start that re-enters the release of another one shares its lifecycle: the
  second registration then leaves a stale target shown (`StaleByNestedStart`), or takes the place of the
  first one's subscription, which nothing stops any more (`LeakByOverwriting`).
  `UserInputAdapter.Adapter.Run` says over every run exactly when each of these is so.

Run `dafny verify dfyconfig.toml` in this directory to verify everything.

## Model

| member | source | states |
|---|---|---|
| CommandReport.PushTextAtoms | packages/cli/src/command-report.ts:246-266 | the character loop yields the text's atoms: the whole run in `en`; in a CJK locale every CJK character alone and the stretches between them whole |
| CommandReport.PushParagraphAtoms | packages/cli/src/command-report.ts:273-287 | the scan of one paragraph yields its maximal runs of spaces and of other characters, in order |
| CommandReport.PushSegmentAtoms | packages/cli/src/command-report.ts:269-289 | a segment becomes the atoms of its paragraphs with one break between any two |
| CommandReport.WrapHumanText | packages/cli/src/command-report.ts:314-397 | the loop over atoms, for every content, width and locale, returns the text of the lines that the placing specification yields |
| CommandReport.BreakLine | packages/cli/src/command-report.ts:364-393 | an overflowing atom is handled as the prohibitions say: move the tail down, hang, or break |
| WrapConservation.WrapByParagraph | packages/cli/src/command-report.ts:340-345 | every explicit newline ends a line: each paragraph is wrapped on its own and the lines are concatenated |
| WrapConservation.WrapConservesInk | packages/cli/src/command-report.ts:314-397 | in every locale the lines' text and protected atoms are exactly the input's, in order |
| WrapConservation.WrapConservesText | packages/cli/src/command-report.ts:246-397 | read without spaces, the lines spell exactly the content without its newlines |
| WrapConservation.ProtectedStaysWhole | packages/cli/src/command-report.ts:298-302 | a protected value lies unsplit inside one line, at every width |
| WrapProhibitions.CjkLines | packages/cli/src/command-report.ts:340-397 | in a CJK locale no line but a paragraph's first begins with a line-start-prohibited text, and every line without its hanging tail fits the column, is one atom, or is an opening mark and one atom |
| WrapLineEnd.LineEndsExactly | packages/cli/src/command-report.ts:340-397 | over every run of a CJK paragraph a line other than the last ends with an opening mark exactly when some atom, in the state that the atoms before it leave, overflows and meets the guards of a branch that exposes one; the last line does exactly when the paragraph's last ink does |
| WrapLineEnd.LineEndRule | packages/cli/src/command-report.ts:314-397 | the lines of a whole text keep the documented line-end rule exactly when none of its paragraphs breaks it in one of these two ways |
| WrapLineEnd.LineEndRuleBreaks | packages/cli/src/command-report.ts:304-308 | exactly which paragraphs break the rule before their last line, for some widths and some column: those with an opening mark that the one or two atoms after it can leave behind |
| WrapLineEnd.LineEndRuleFails | packages/cli/src/command-report.ts:304-308 | a concrete text of full-width characters whose first line, six columns wide, ends with an opening mark, which the documented rule forbids |
| WrapLineEnd.DisjointMarks | packages/cli/src/command-report.ts:192-201 | no character is both line-start and line-end prohibited |
| WrapGreedy.WrapIsGreedy | packages/cli/src/command-report.ts:340-397 | in `en` the loop's lines are the greedy split of the paragraph at its break opportunities |
| WrapGreedy.StaysAhead | packages/cli/src/command-report.ts:340-397 | at every point greedy has finished no more lines than any other tidy split, and when level its line starts no earlier |
| WrapGreedy.GreedyIsShortest | packages/cli/src/command-report.ts:314-397 | no tidy split of a paragraph has fewer lines than greedy |
| WrapGreedy.WrapIsShortest | packages/cli/src/command-report.ts:314-397 | in `en` no split of the same text at the same break points, each line fitting or holding one word, has fewer lines than the wrapper |
| WrapGreedy.WrapIsLayout | packages/cli/src/command-report.ts:314-397 | the wrapper's own lines are such a split, so the bound is reached |
| WrapAgreement.WrapTerminalWords | packages/cli/src/command-report.ts:163-186 | the loop over the parts of each paragraph returns the lines of its specification, for every text and width |
| WrapAgreement.TerminalShortfall | packages/cli/src/command-report.ts:163-186 | the visible text of its lines is exactly the words not made of white space only, in order; it falls short of the input exactly when there is another word |
| WrapAgreement.BreakersAgree | packages/cli/src/command-report.ts:163-397 | in `en` the two breakers give the same lines exactly when no word is made of white space only, at every width |
| WrapAgreement.TabIsDropped | packages/cli/src/command-report.ts:163-397 | a concrete text on which they differ: one keeps a single tab, the other drops it |
| WrapAgreement.SegmentParagraphs | packages/cli/src/command-report.ts:269-289 | a plain string's atoms, cut at their breaks, are its newline-separated paragraphs |
| Rewrap.RewrapIsStable | packages/cli/src/command-report.ts:314-397 | wrapping the newline-joined output again at the same width returns the same lines |
| FlowIngressLaws.Reachable | upstream/pi-content-policy/flow-ingress.js:14-481 | every run from a fresh binding keeps the invariant: counters, fences and settlement flags agree |
| FlowIngressLaws.StartsAtMostOnce | upstream/pi-content-policy/flow-ingress.js:429-467 | over every run a submission starts its native send at most once and reports its admission at most once |
| FlowIngressLaws.SendIsFenced | upstream/pi-content-policy/flow-ingress.js:438-467 | a native send starts only by a dispatch that finds the binding open, no branch change under way, attachment and session current, and the submission not revoked |
| FlowIngressLaws.BarredNeverStarts | upstream/pi-content-policy/flow-ingress.js:438-447 | a submission that is revoked, of an older attachment, or of a closed binding never starts, however the run goes on |
| FlowIngressLaws.BranchChangeBars | upstream/pi-content-policy/flow-ingress.js:335-344 | a branch change bars every submission captured before it, for the rest of the run |
| FlowIngressLaws.SendsUnderWay | upstream/pi-content-policy/flow-ingress.js:305-312 | the dispatch counter equals the native sends under way, none of them captured ones during a branch change, all of the current attachment |
| FlowIngressLaws.SettlesAtMostOnce | upstream/pi-content-policy/flow-ingress.js:125-177 | over every run a deferred execution settles at most once and its native send starts at most once |
| FlowIngressLaws.DrainLeavesNothing | upstream/pi-content-policy/flow-ingress.js:75-87 | outside every settled drain each deferred execution that is not running is settled exactly once |
| FlowIngressLaws.AbandonedExactly | upstream/pi-content-policy/flow-ingress.js:75-177 | exactly which deferred executions a run abandons: those that the end of an outermost drain, or a disposal, found not begun and not settled; an inner end abandons none and nothing takes an abandonment back |
| FlowIngressLaws.OuterDrainEnd | upstream/pi-content-policy/flow-ingress.js:166-177 | the end of the outermost drain abandons exactly the executions that neither run nor are settled |
| FlowIngressLaws.SettledForever | upstream/pi-content-policy/flow-ingress.js:131-177 | a settled execution keeps its outcome and starts nothing further; an abandoned one never reaches native input |
| FlowIngressHost.FlowIngressBinding.Serve | upstream/pi-content-policy/flow-ingress.js:14-481 | any events in any order on a fresh binding: no send starts or is reported twice, no deferred execution settles or starts twice, an abandoned one never starts, and outside every settled drain none is left idle and unsettled |
| FlowIngressHost.FlowIngressBinding.Take | upstream/pi-content-policy/flow-ingress.js:76-481 | one stretch between two awaits is the step of the specification and keeps the invariant |
| FlowIngressHost.FlowIngressBinding.AssertActive | upstream/pi-content-policy/flow-ingress.js:179-193 | throws exactly when closed, changing branch, or in the frame of a replaced attachment, except a live command's |
| FlowIngressHost.FlowIngressBinding.Execute | upstream/pi-content-policy/flow-ingress.js:432-467 | the guarded start of the native send, as the step specification has it |
| FlowIngressHost.FlowIngressBinding.PrepareExternal | upstream/pi-content-policy/flow-ingress.js:214-239 | an external input is prepared only on an active binding, for the current session and attachment, and when its identity is the one demanded |
| FlowIngressHost.FlowIngressBinding.AbandonDeferred | upstream/pi-content-policy/flow-ingress.js:166-177 | the loop rejects every pending execution and forgets all of them |
| BackgroundStore.ComputeHighestTaskNumber | upstream/background-flow/store.ts:202-209 | the loop finds the highest number among the ids of the form bg- and digits, zero without any |
| BackgroundStore.ComputeDedupeTasks | upstream/background-flow/store.ts:364-368 | one task per id, in first-seen order with the last value |
| BackgroundStore.ComputeDedupeResults | upstream/background-flow/store.ts:370-378 | one result per session, branch and execution, in first-seen order with the last value |
| BackgroundStore.CommitCanonicalStore | upstream/background-flow/store.ts:323-350 | for every fault or crash at any I/O call: how the commit ends, and what the store file and its durable directory entry hold then |
| BackgroundStore.CommitIsAtomic | upstream/background-flow/store.ts:317-350 | with any fault, crash or power loss the store reads as before or as the new revision, never a mixture; the new one whenever the commit returned |
| BackgroundStore.CommitIsDurable | upstream/background-flow/store.ts:345-349 | after a commit that returned and synced the directory, a power loss keeps the new revision |
| BackgroundStoreAdapter.WriteEffect | upstream/background-flow/store.ts:664-674 | what one write changes in memory and on disk, for each way it can end; a delivery callback that throws makes it fail after memory and file advanced and before the marker |
| BackgroundStoreAdapter.RevisionsIncrease | upstream/background-flow/store.ts:604-799 | over every run committed revisions strictly increase, the file holds at least the last one, and at most one timer is pending |
| BackgroundStoreAdapter.BlockedWritesNothing | upstream/background-flow/store.ts:684-690 | while blocked, no run of adopt, persist, flush and timer steps writes the file, appends a marker or unblocks |
| BackgroundStoreAdapter.RestoreBlocks | upstream/background-flow/store.ts:697-747 | after any restore the adapter is blocked exactly when the file is unreadable, invalid or of another session, or is missing and an earlier restore of the session had found it so |
| BackgroundStoreAdapter.MarkerNeedsStore | upstream/background-flow/store.ts:654-662 | an adoption marker is appended only while a valid store of that session is on disk |
| BackgroundStoreAdapter.PublishedIsStored | upstream/background-flow/store.ts:668-673 | memory advances and results are published only with the new revision on disk |
| BackgroundStoreAdapter.FlushStoresView | upstream/background-flow/store.ts:784-794 | a flush that commits stores the current session, tasks, results and allocation counter |
| BackgroundStoreAdapter.DedupeKeepsLast | upstream/background-flow/store.ts:364-368 | after deduplication ids are distinct and each has the value given last |
| BackgroundStoreAdapter.RestartKeepsStore | upstream/background-flow/store.ts:710-727 | restoring in a new process and flushing keeps the stored tasks and does not rewind the allocation counter; it keeps the stored results exactly when none carries a work with an unsafe revision |
| CanonicalBackgroundStoreHost.CanonicalBackgroundStore.Serve | upstream/background-flow/store.ts:604-799 | any calls in any order on a new adapter, with a fault or crash at any I/O call: committed revisions strictly increase, the file holds at least the last, and at most one timer is pending |
| CanonicalBackgroundStoreHost.CanonicalBackgroundStore.Take | upstream/background-flow/store.ts:696-798 | one call of the host is the step of the specification and keeps the invariant |
| CanonicalBackgroundStoreHost.CanonicalBackgroundStore.BuildState | upstream/background-flow/store.ts:633-652 | the next revision builds on memory or, without it, on the file |
| CanonicalBackgroundStoreHost.CanonicalBackgroundStore.WriteRevision | upstream/background-flow/store.ts:664-674 | one write, with any fault and with a delivery callback that throws: the adapter afterwards and how it ended are the specification's |
| CanonicalBackgroundStoreHost.CanonicalBackgroundStore.ApplyTasks | upstream/background-flow/store.ts:719-722 | the loop applies the restored tasks except those of other sessions |
| CanonicalBackgroundStoreHost.CanonicalBackgroundStore.RestoreFromStore | upstream/background-flow/store.ts:697-747 | the restored adapter and whether the store is authoritative, in every case of the file |
| CanonicalBackgroundStoreHost.CanonicalBackgroundStore.PersistState | upstream/background-flow/store.ts:766-783 | a forced update writes now, a progress update waits for the timer, and the result says which |
| BackgroundResults.ChangesAreNotified | upstream/background-flow/runtime.ts:191-203 | the session of every result that a commit changes is among those to be told, also when an execution is listed twice |
| BackgroundResults.NotifiedAreChanged | upstream/background-flow/runtime.ts:198-202 | when no execution is listed twice, only sessions with a change are among them |
| BackgroundResults.ToldExactly | upstream/background-flow/runtime.ts:202 | a session to be told is told exactly when it has a delivery and the delivery of no session that changed before it throws |
| BackgroundResults.SnapshotRestores | upstream/background-flow/runtime.ts:209-238 | restoring a snapshot into a fresh source rebuilds the map a commit builds, in order, exactly when every work has a safe revision; otherwise only those works are dropped |
| BackgroundResults.ReleasedExactly | upstream/background-flow/runtime.ts:244-254 | a work id is out of the retained set exactly when all its tasks in scope are finished with observed results and all its saved results are observed |
| BackgroundResults.ClearingReleasesNothing | upstream/background-flow/runtime.ts:178-182 | clearing a finished task whose result is committed leaves the retained set unchanged |
| BackgroundProducer.FailedAcknowledgeUndone | scripts/background-flow-transform.mjs:201-228 | an acknowledgement that fails, also by a delivery callback that throws after the results were committed, leaves the memory exactly as its write would have left it with nothing acknowledged; only a file that the write replaced keeps the receipt |
| BackgroundProducer.RestartCommits | upstream/background-flow/runtime.ts:204-238 | a new process that reads what was just written finds the map that a commit keeps in memory |
| BackgroundProducer.StepTurns | upstream/background-flow/runtime.ts:148-238 | every event, with a write that fails or dies before or after it replaced the file, does to each execution what a two-copy ledger of memory and disk does; tasks, map, receipts and file stay consistent |
| BackgroundProducerLaws.RunTurns | upstream/background-flow/runtime.ts:148-258 | over every run memory and store file amount to two copies of one entry for each execution |
| BackgroundProducerLaws.ObservedExactly | scripts/background-flow-transform.mjs:201-228 | over every run a process that could read the file knows a result as observed exactly when an acknowledgement of it returned, or its write replaced the file, failed, and was the last to do so when the process ended; one that could not knows of none |
| BackgroundProducerLaws.KnownExactly | upstream/background-flow/store.ts:697-727 | an execution is known after the process ended exactly as it was at the last write that had replaced the file, is forgotten when cleared without a committed result, and is out of sight while a process could not read the file |
| BackgroundProducerLaws.LostExactly | upstream/background-flow/store.ts:664-727 | an execution never cleared without a committed result is unknown exactly when the process ended before any write since it was issued replaced the file, or the last process to start since could not read the file |
| BackgroundProducerLaws.RetainedIsOwed | upstream/background-flow/runtime.ts:244-254 | a work is retained exactly while memory knows some execution of it in scope whose result it has not seen observed |
| BackgroundProducerLaws.WorkIsReleasedExactly | upstream/background-flow/runtime.ts:175-258 | over every run with clears, failing and dying writes, and restarts that read the file or fail to, a work is released exactly when each execution it was given in scope was observed or is not known |
| BackgroundProducerLaws.UnwrittenWorkIsLost | upstream/background-flow/store.ts:664-727 | for every task: started, its write fails, the process ends; its work is released though nothing was observed |
| BackgroundProducerLaws.ThrownReceiptReturns | scripts/background-flow-transform.mjs:201-228 | an acknowledgement whose write fails after it replaced the file is taken back in memory and stands in the next process |
| BackgroundProducerLaws.ThrownReceiptHappens | scripts/background-flow-transform.mjs:201-228 | a concrete run that reaches such an acknowledgement |
| BackgroundCoalescing.RunAhead | upstream/background-flow/store.ts:664-674 | side by side with a producer that commits every update at once: same tasks, and that one knows every result of the other, with the same receipts; it holds exactly the results for which a write was due |
| BackgroundCoalescing.CoalescingLosesNothing | upstream/background-flow/store.ts:599-603 | over every run the process lives through, a last write that returns stores the tasks of the producer that committed every update at once, and the same results exactly when no task was cleared whose result was due but not committed |
| BackgroundCoalescing.ClearedBeforeWritten | upstream/background-flow/store.ts:599-603 | a concrete run in which a job's result is due, the job is cleared before the delayed write, and the stored results differ |
| BackgroundExtension.RestartRestores | upstream/background-flow/store.ts:697-747 | what the next process restores from the file is what the model of the source takes for a restart, and nothing blocks it |
| BackgroundExtension.RestartBlocks | upstream/background-flow/store.ts:729-735 | a process that cannot read the file is blocked and starts with nothing, as the model of the source has it |
| BackgroundExtension.StepLinks | scripts/background-flow-transform.mjs:63-95 | every event of adapter and source wired together, with any fault or crash, leaves in the file exactly the tasks and results that the source's model says are stored |
| BackgroundExtension.FileIsStored | scripts/background-flow-transform.mjs:63-95 | over every run of the extension its source goes through a run of its own model and the file holds what that model says is stored |
| BackgroundExtension.CoalescedStore | scripts/background-flow-transform.mjs:63-95 | whatever progress and forced updates, timers, acknowledgements and I/O faults came before, a flush that commits leaves in the file what committing every update at once would have, exactly when no due and uncommitted result was cleared |
| BackgroundPublication.NothingIsSuppressed | upstream/background-flow/runtime.ts:306-330 | after every run of publications that reach a listener the last state it was told is the state last published |
| BackgroundPublication.RoundsServe | upstream/background-flow/runtime.ts:314-329 | over every run of publications to any listeners each listener follows exactly those that reach it, whatever callbacks throw |
| BackgroundPublication.LoopTells | upstream/background-flow/runtime.ts:314-329 | in each publication a listener learns the state exactly when no listener before it throws or it knew that state already |
| BackgroundPublication.ThrowSilences | upstream/background-flow/runtime.ts:314-329 | a concrete publication to two listeners of one job: the first throws and the second is told nothing |
| BackgroundPublication.NothingIsRepeated | upstream/background-flow/runtime.ts:323-328 | no listener is told the same evidence twice in a row |
| BackgroundPublication.FollowSettles | upstream/background-flow/runtime.ts:323-328 | a listener's signature is what it was told last, with the health it retains |
| BackgroundPublication.ToldAtCadence | upstream/background-flow/runtime.ts:92-99 | while a task runs as one process and the clock does not go back, a listener is told at most once plus once per 60000 ms, however often the task is published |
| BackgroundFlowHost.ExecutionListener.Serve | upstream/background-flow/runtime.ts:314-329 | one listener's part of a publication |
| BackgroundFlowHost.BackgroundFlowSource.PrepareResult | upstream/background-flow/runtime.ts:148-158 | a finished, controlled task with a work gets its result once; an incomplete one throws |
| BackgroundFlowHost.BackgroundFlowSource.SetResultReceipt | upstream/background-flow/runtime.ts:183-190 | the first result so named is flagged, and the answer says whether that changed it; none so named throws |
| BackgroundFlowHost.BackgroundFlowSource.CommitResults | upstream/background-flow/runtime.ts:191-203 | the loops build the committed map and call the deliveries of the changed sessions, in the order they changed, until one throws |
| BackgroundFlowHost.BackgroundFlowSource.SnapshotResults | upstream/background-flow/runtime.ts:209-222 | retained results merged with live ones, live ones winning |
| BackgroundFlowHost.BackgroundFlowSource.RestoreResults | upstream/background-flow/runtime.ts:224-238 | records are keyed by scope and metadata execution, with unsafe works dropped |
| BackgroundFlowHost.BackgroundFlowSource.RetainedWorkIds | upstream/background-flow/runtime.ts:244-254 | the two loops compute the retained set; a detached delivery throws |
| BackgroundFlowHost.BackgroundFlowSource.Publish | upstream/background-flow/runtime.ts:306-330 | listeners are served in subscription order until one is refused its evidence or its callback throws |
| AcpTurnsLaws.OneTurnAtATime | packages/cli/src/acp-session.ts:253-260 | over every run prompts are answered in request order, each once, and only the next one can be active |
| AcpTurnsLaws.UpdatesInOrder | packages/cli/src/acp-session.ts:731-752 | the client takes updates in queue order, all of them until one fails and none after |
| AcpTurnsLaws.EndTurnIsComplete | packages/cli/src/acp-session.ts:315-391 | `end_turn` on a signal comes from a settle event without abort, and every update of the events queued before what ended the turn was delivered first and in order |
| AcpTurnsLaws.CancelIsHonoured | packages/cli/src/acp-session.ts:262-287 | a prompt cancelled, or whose session is closed, while active answers `cancelled` whatever happens before and after |
| AcpTurnsLaws.OnlyCancelsCancel | packages/cli/src/acp-session.ts:333-360 | without a cancellation, abort or close no prompt answers `cancelled` |
| AcpTurnsLaws.RunKeeps | packages/cli/src/acp-session.ts:124-391 | every run keeps the three chains sound and leaves no active turn unsettled after a failure |
| AcpSessionHost.AcpSession.Serve | packages/cli/src/acp-session.ts:124-763 | any segments in any order from a new session: prompts are answered in order and one at a time, updates reach the client in queue order, and every `end_turn` follows the delivery of all updates of the events before it |
| AcpSessionHost.AcpSession.Take | packages/cli/src/acp-session.ts:253-763 | one segment between two awaits is the step of the specification and keeps the chains sound |
| AcpSessionHost.AcpSession.ResumeTurn | packages/cli/src/acp-session.ts:338-377 | one continuation of the turn from any of its awaits |
| AcpSessionHost.AcpSession.HandleEvent | packages/cli/src/acp-session.ts:381-389 | the handler awaits each of its updates; a settle event settles the turn active then |
| AcpSessionHost.AcpSession.DeliverNext | packages/cli/src/acp-session.ts:732-749 | the head is delivered, or fails and settles the active turn; after a failure nothing is delivered |
| AcpChildFraming.AcpChild.TakeLines | packages/cli/src/acp-child.ts:369-375 | the loop hands over the buffer's terminated records and keeps the rest |
| AcpChildFraming.AcpChild.DrainStdout | packages/cli/src/acp-child.ts:368-384 | then a flush hands over the rest, and an oversized rest fails the child |
| AcpChildFraming.AcpChild.HandleStdout | packages/cli/src/acp-child.ts:351-354 | a chunk yields the records that buffer and chunk complete together |
| AcpChildFraming.AcpChild.FlushStdout | packages/cli/src/acp-child.ts:356-359 | at the end of the stream the unterminated rest is a record, unstripped |
| AcpChildFraming.AcpChild.FinishStdout | packages/cli/src/acp-child.ts:361-366 | what is left when the process ends is the last record, once |
| AcpChildFraming.AcpChild.ReadAll | packages/cli/src/acp-child.ts:351-384 | every chunking hands over the records of the whole stream and its rest once; the size limit trips exactly when some chunk leaves more than it |
| AcpChildFraming.RecordsAppend | packages/cli/src/acp-child.ts:368-375 | records can be split at any place of the stream: the rest goes in front of what follows |
| AcpChildFraming.ShortLinesNeverOverflow | packages/cli/src/acp-child.ts:381-383 | a stream whose lines are all within the limit never trips it, however it is cut |
| AcpChildFraming.LongLineOverflows | packages/cli/src/acp-child.ts:381-383 | any stream with a longer line has a chunking that trips it |
| AcpChildFraming.LongTerminatedLine | packages/cli/src/acp-child.ts:381-383 | a terminated long line read in one chunk does not |
| IdleStopLaws.StopsAreSafe | packages/cli/src/camoufox-adapter.ts:789-844 | over every run, with late, repeated and cancelled timers, the browser is stopped only while open, with no call running, and at least the timeout after the last call settled |
| IdleStopLaws.IdleIsStopped | packages/cli/src/camoufox-adapter.ts:799-819 | an idle, open browser not yet stopped has an armed timer whose delivery stops it |
| IdleStopLaws.RunKeeps | packages/cli/src/camoufox-adapter.ts:719-839 | the in-flight count equals the calls between their start and settlement, and only the current generation can stop |
| IdleStopHost.CamoufoxIdleStop.Serve | packages/cli/src/camoufox-adapter.ts:789-844 | anything that happens, in any order, to a new stop: it counts the calls that run, stops only an idle browser and only in time, and keeps the timer armed for an idle browser it has not stopped |
| IdleStopHost.CamoufoxIdleStop.Take | packages/cli/src/camoufox-adapter.ts:799-842 | one call, passage of time or delivered timer is the step of the specification and keeps the invariant |
| IdleStopHost.CamoufoxIdleStop.FireTimer | packages/cli/src/camoufox-adapter.ts:811-819 | only the current generation acts: it re-arms during a call and stops otherwise |
| UserInputReentry.EndlessEndsNothing | examples/user-input-adapter/extension.ts:226-230 | a step whose subscriptions are re-entered by no shutdown and no start, at any depth, ends no lifecycle while it makes one, in any state |
| UserInputAdapter.Adapter.Reenter | examples/user-input-adapter/extension.ts:83-155 | whatever synchronous calls re-enter, at any depth, only tears down |
| UserInputAdapter.Adapter.Release | examples/user-input-adapter/extension.ts:83-95 | every subscription kept is stopped, the target withdrawn, and both counters move, also when each stop function re-enters |
| UserInputAdapter.Adapter.Withdraw | examples/user-input-adapter/extension.ts:98-105 | target and receipts go, the registration and other subscriptions stay unless a re-entry releases them |
| UserInputAdapter.Adapter.StartBind | examples/user-input-adapter/extension.ts:108-115 | the continuation remembers adapter, lifecycle and operation of its start |
| UserInputAdapter.Adapter.StartRebind | examples/user-input-adapter/extension.ts:141-148 | a rebind withdraws and leaves one binding to wait, or does nothing without a registration |
| UserInputAdapter.Adapter.StartSession | examples/user-input-adapter/extension.ts:205-220 | a start releases first, then waits for its registration; without the host feature it waits for nothing |
| UserInputAdapter.Adapter.Attach | examples/user-input-adapter/extension.ts:120-134 | the receipt subscription is replaced, the target is published only if still current after the snapshot, and then with the only live receipts; what is shown afterwards is current |
| UserInputAdapter.Adapter.ResumeBind | examples/user-input-adapter/extension.ts:113-155 | an outdated binding publishes nothing; a failed current one reports, and ends a start that waits for it; and exactly when the step leaves an out-of-date target shown |
| UserInputAdapter.Adapter.ResumeRegister | examples/user-input-adapter/extension.ts:220-238 | a late registration is dropped; a current one is watched and bound. In every state: a subscription is left that nothing can stop exactly when one of target resets was still kept and no re-entering call released it, one is kept without a registration exactly when a re-entering shutdown or start is reached while the watch is made, and a target shown before goes out of date exactly when no re-entering call withdraws it |
| UserInputAdapter.Adapter.ResumeStart | examples/user-input-adapter/extension.ts:227-230 | messages and reconnects are subscribed only in the same lifecycle; in every state, exactly when the step overwrites a subscription that is still kept, keeps one without a registration, or withdraws the target shown |
| UserInputAdapter.Adapter.Run | examples/user-input-adapter/extension.ts:72-254 | over every run with any re-entry, starts that share a lifecycle included: each target was published for the newest operation with the only live receipts; every other live subscription is kept for a live registration exactly when no step overwrote one that was still kept and none that a shutdown or start re-entered while it subscribed is the last of its lifecycle; and the target shown is out of date exactly when a registration arrived under it and no step since withdrew or replaced it |
| UserInputAdapter.Adapter.RunAfterShutdown | examples/user-input-adapter/extension.ts:250-252 | after a shutdown in any state, until a session starts, whatever continuations arrive: nothing is published, no receipts live, and of the other subscriptions exactly those are left that lived before without being kept |
| UserInputAdapter.Adapter.LeakByShutdown | examples/user-input-adapter/extension.ts:228-230 | a concrete run in which a shutdown during `onMessage` leaves live subscriptions |
| UserInputAdapter.Adapter.LeakByOverwriting | examples/user-input-adapter/extension.ts:205-230 | a concrete run in which the second of two starts that share a lifecycle puts its target subscription in the place of the first one's, which nothing can stop any more |
| UserInputAdapter.Adapter.StaleByNestedStart | examples/user-input-adapter/extension.ts:205-227 | a concrete run in which two starts share a lifecycle and the client is left with a target that is not current |
| FluentSyntax.LinesConcat | scripts/ja_review_inventory.py:343 | splitting keeps every character, and no line is empty |
| FluentPattern.ValidatePattern | scripts/ja_review_inventory.py:253-332 | the scan terminates on every nesting and reports the first fault of the pattern |
| FluentPattern.ValidateExpression | scripts/ja_review_inventory.py:263-273 | an expression is a variable, a quoted literal, or a select whose variants are validated |
| FluentPattern.ValidateVariants | scripts/ja_review_inventory.py:274-305 | variants need a valid header, one default, distinct keys and an accepted value each |
| FluentPattern.MaskPlaceables | scripts/ja_review_inventory.py:275-291 | nested placeables are blanked out, line ends kept |
| FluentPattern.AcceptedIsPieces | scripts/ja_review_inventory.py:307-332 | an accepted pattern is brace-free text and accepted placeables, with nothing left out |
| FluentPattern.PlainTextIsAccepted | scripts/ja_review_inventory.py:307-313 | text without braces is always accepted |
| FluentPattern.VariantsAccepted | scripts/ja_review_inventory.py:300-305 | every variant of an accepted select has a non-empty, accepted value |
| FluentBlocks.SkipContinuations | scripts/ja_review_inventory.py:367-382 | the loop finds where a message ends: blank lines belong to it only before a continuation |
| FluentBlocks.SplitBody | scripts/ja_review_inventory.py:384-397 | lines go to the value until the first attribute and then to the last one; repeated attributes are refused |
| FluentBlocks.ValidateMessage | scripts/ja_review_inventory.py:398-406 | empty messages, terms without value, empty attributes and bad patterns are refused, in this order |
| FluentBlocks.ReadBlock | scripts/ja_review_inventory.py:348-414 | one turn of the loop: the next block or the first error |
| FluentBlocks.ParseFluent | scripts/ja_review_inventory.py:335-417 | the whole parse; the final lossless check never fails, because the sources of the blocks concatenate to the text |
| FluentBlocks.ParseTiles | scripts/ja_review_inventory.py:348-414 | the blocks cover all lines contiguously without overlap, each with the text of its lines |
| FluentBlocks.ParseIsLossless | scripts/ja_review_inventory.py:415-416 | the sources of the blocks concatenate to the lines |
| FluentBlocks.ParseIsSound | scripts/ja_review_inventory.py:348-414 | blank and comment blocks are whole maximal runs; a message's header, value, attribute headers and bodies account for all of its lines; ids are distinct; comments belong to the next message |
| FluentBlocks.BodyAccounts | scripts/ja_review_inventory.py:384-397 | gathering a message's lines keeps them in order, with distinct attribute names |
| GoalMerge.ParseSection | upstream/vcc-goals/runtime.ts:50-62 | the loop collects base goals and, after a marker, scope changes |
| GoalMerge.MergeSessionGoals | upstream/vcc-goals/runtime.ts:49-74 | the merge chooses base, added goals and scope as the specification does |
| GoalMergeLaws.ParseIsWellFormed | upstream/vcc-goals/runtime.ts:50-62 | a parse yields distinct, trimmed, non-empty goals in both lists |
| GoalMergeLaws.PrintParses | upstream/vcc-goals/runtime.ts:70-73 | parsing a printed section gives back its goals and scope changes |
| GoalMergeLaws.MergeIsWellFormed | upstream/vcc-goals/runtime.ts:65-72 | a merge has at most eight base goals and three scope changes, distinct and in only one list |
| GoalMergeLaws.MergeMeans | upstream/vcc-goals/runtime.ts:49-74 | a merged section, read again, says exactly what was merged |
| GoalMergeLaws.MergeIsNormal | upstream/vcc-goals/runtime.ts:49-74 | merging an empty window into a merged section returns it unchanged |
| GoalMergeLaws.BaseStaysForever | upstream/vcc-goals/runtime.ts:65 | over any sequence of merges a base of one to eight goals never changes |
| GoalMergeLaws.UnchangedExactly | upstream/vcc-goals/runtime.ts:65-69 | exactly which windows leave a merged section as it is |

## Left out

- Strings are sequences of characters: lone surrogates, grapheme clusters and East Asian width tables are not modelled, and a width is the sum of character widths.
- Wrapping columns are real numbers; NaN and infinities are left out. Explicit newlines inside a protected value are kept as text, as the code keeps them.
- JSON, UTF-8, hashing, UUIDs and promises are abstract: JSON is an inverse pair on valid records, chunks are decoded already, UUIDs are fresh numbers, and a promise is the step that continues after it.
- Field order in JSON text: two equal records with fields in another order compare equal here, where the code would see a change and tell the session once more.
- BackgroundStore.CommitCanonicalStore: the checks that a typed record cannot fail (a finite start time, a status string, the flow and schema versions) are not modelled.
- The diagnostics ring, counters and problem reports of the store, and the migration of legacy sidecars.
- BackgroundExtension.FileIsStored: the run begins where the store file does not exist yet, later processes find what earlier ones wrote, and `adopt` (the migration of legacy state) is left to the adapter's own runs.
- BackgroundCoalescing.CoalescingLosesNothing: the stored results are compared by key, because a delayed write may store them in another order.
- One store file per opened session; two processes that share a file are not modelled, nor is a process that leaves a session and returns to it.
- Store counters that reach the safe-integer limit are refused by validation, as in the code; nothing is claimed beyond that limit.
- Titles, read receipts (`recordTerminalRead`, `readReceipts`), inventory listeners, `workForResult` and the activation leases of the background source: a detached delivery is told apart by its scope only.
- BackgroundFlowHost.BackgroundFlowSource.Publish: a listener callback that subscribes or unsubscribes during a publication is not modelled, and the flow version is always 1.
- BackgroundProducerLaws.WorkIsReleasedExactly: only finished tasks are cleared, a restored task comes back as it was stored, executions are named by fresh UUIDs and tasks by ids no live task has.
- The forwarding allowance of `sendUserMessage`, `withCommand`, and the context mechanics of asynchronous frames in the flow ingress binding; frames are passed explicitly.
- FlowIngressLaws.SendIsFenced: for external inputs the check and the native call are separated by an await, so the fence is stated for captured submissions.
- Which updates a child event sends (the flags that avoid repeated text blocks) is a parameter of the step that begins the event.
- Extension interactions, model changes, session replay and the prompt timeout's suspension counter of the ACP adapter.
- AcpTurnsLaws.EndTurnIsComplete: a settle event that arrives late settles the turn active then, as in the code; the claim is about the events queued before it.
- The calls `abort` and `stop` on the child process appear only through what they lead to: a failed abort settles the active turn as aborted.
- UserInputAdapter.Adapter.Run: the host calls `bind`, `subscribe` and the registration hand back values or fail later; a host function that throws synchronously, and `submit` and `recover`, which change none of the modelled variables, are left out.
- UserInputAdapter.Adapter.ResumeRegister: a failed watch of target resets is not modelled.
- `\d` in Fluent variant keys means the ASCII digits, and catalogs are decoded text.
- The two tests of the goal merge that recognise notifications and progress reports are arbitrary predicates on a line.
- The React launcher, Settings, palettes and locale tables; process spawning, npm, Git, sockets, fetch and tmux; `doctor`, `catalog` commands, argument parsers, `context-clamp`, `update-schedule` and `dashboard-policy`: I/O, data, or correct by reading.
