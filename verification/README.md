# Verification model of the 2fado approval daemon

2fado lets an agent petition to run a command. An operator files a verdict over Telegram or another
transport, a waiter polls the on-disk store, and when the verdict is an approval the waiter runs the
stored command. This project models that daemon in Dafny and proves what its files, waiters,
operators, restarts, sealed archives, policies and keyboards keep true. Verify with
`dafny verify dfyconfig.toml`.

## The parts

**The petition protocol.** `Records` holds the store: per request id one rewritable record, one result,
and four write-once files (verdict, acknowledgement, selection, cancellation). A write-once file can
exist before its content does, and a writer that dies in between leaves it unreadable for good.
`Protocol` is a state machine in which every exclusive create, every write into a created file, every
load and every save is a step of its own. Foreground, detached and adopted waiters carry a program
counter; operators, cancellers, pagers, disconnects, the clock, policy changes, crashes and the
restart scan interleave with them freely. `Invariant` and `Preserve` give an inductive invariant,
`Guarantees` what follows for every run from an empty store, `Endings` when a wait ends and what is then
read, `Restart` what a restart does for stopped groups and what a chained confirmation leaves on its
parent, and `Witness` concrete runs: some in which an approved command does run, and those that show what
the guarantees cannot be strengthened to. `Confirming` ties the second key to the policy file.

**Cancelling.** `Cancelling` is the cancel call as one step. Two machines take it. In the fine one it
meets torn and half-written files, crashes and other writers, and any of its own writes may tear:
`Barring` says when a family's command can still run and that once it cannot it never does, `Reaching`
that as long as it can some continuation runs it, `TornCalls` puts both together into the exact meaning of
a positive answer, and `TornReads` says what status reads after it. In the coarse one every
operation is one step; `Refinement` shows that each is a run of the fine machine, and `Cancellation`,
`CancelTheorems`, `Texts` and `Agreement` prove what status and history then read for good.
`Rights` says who may cancel what and when, and whom a call releases. `QuestionRuns` has concrete runs
around questions. `Store` has the same operations in the form of the
source, as methods that update the store's fields, proved against the functions the theorems are about.

**Queries and codecs.** `Queries` models list, history and the status that the daemon answers: the store's
response, in which an output at exit code -1 that starts like a drift gate's text becomes a denial.
`Audit` has the cursor over the append-only log, `Prune` the retention sweep over file names, `Decimal`
the number printers and parsers, `Callback` the keyboards and the callback parser, `Paging` the card
pages. `Question` files a question and waits for its answer, `Asking` has the pump and the presses on
question cards, and `Buttons` what pressing buttons leaves on file.

**Sealed execution.** `Seal` picks the input files, `SealedRun` takes the manifest and archive, accepts
and extracts an archive and rewrites the arguments, `Coverage` says which arguments name files and that
those are sealed and run as sealed, and `Sealer` has the methods for all of it, up to the gate before
execution.

**Policy, environment and capture.** `Policy` gives the rule matcher's loops a declarative relation and
adds rules; `Env` is the environment scrub; `Capture` is the chunked writer with a ceiling.

## What is assumed

- Request ids are fresh: no file on disk carries a newly drawn one. They are not empty and hold no
  colon (they are drawn as hexadecimal text).
- The adoption pass of a restart, which runs on its own goroutine, lists the whole directory before
  the first new petition is saved. It reads the clock once.
- A crash is the loss of the process, not of the disk. A record can fail to load at any moment; a
  record once loaded for an update may be saved any number of times later, until a crash, which covers
  every lost update and more.
- A write-once file whose write fails half-way stays unreadable. An exclusive create fails only because
  the file exists, and results are written whole.
- The clock is arbitrary and may go backwards. The policy and the confirm-all switch may change
  between any two steps.
- Spawning, stopping and continuing process groups are events; the git, file-descriptor and seal
  checks are opaque to the protocol, and the seal check is modelled in full in `Sealer`.
- SHA-256 is injective; record encoding is lossless; gzip and tar yield the entries that were written
  or an archive that is not whole. Paths are cleaned component by component.
- Attributions are already cleaned and request ids already trimmed where the call does so.

## Where the code and its documents part

- `docs/toctou-suspended-execution.md` (line 20) says that a crash cannot leave agents stopped forever.
  It can: a petition decided just before the crash is not adopted, although its pin is on record
  (`Witness.CrashCanLeaveStopped`). A stored pin on a record that the restart does not pass over is
  released (`Restart.RestartReleases`), and it passes over only what is decided, cancelled, expired or
  unreadable (`Restart.PassedOverOnlyIf`). Without a crash the claim holds
  (`Guarantees.StoppedGroupIsHeld`).
- The restart pass is said to give expired records a timeout result (`go/internal/service/service.go`,
  lines 535-536). Its branch for them is never taken: the listing it walks has left them out
  (`Preserve.ExpiryBranchIsDead`).
- A cancellation answered with yes does not stop a command whose approval was just being written
  (`Witness.ApprovalUnderWayWins`); that is the only way to lose to it when the call is one step
  (`TornCalls.CancelBarsExactly`), and a call whose check and write lie apart can lose to one written in
  between (`Witness.SplitCancelCanLose`).
- A confirmed run that the gate blocks records exit -1 and the reason on the confirmation, but exit 0
  and no output on its parent, which then reads as completed (`Witness.BlockedReadsCompleted`). The two
  results are the same exactly unless the run was refused (`Restart.ParentResultIff`).
- The daemon goes by an output's first letters to tell a run that a drift gate blocked, which the store
  reads as completed, and answers that it was denied (`Witness.BlockedRunReadsDenied`,
  `Queries.CompletedIff`). A petition cancelled with a reason that starts with `git-drift:` reads as
  denied, too (`Witness.DriftReasonReadsDenied`; exactly when a positive answer reads as cancelled:
  `Agreement.CancelReadsIff`). Either word stays (`Agreement.FinalStays`).
- Cancelling a question and then the confirmation that confirm-all chained onto it answers that the
  confirmation is cancelled although nothing is filed for it and it reads as pending
  (`QuestionRuns.ConfirmationPassedOver`, and exactly then: `Agreement.CancelReadsIff`). It cannot run
  either way: its command is empty (`Guarantees.OnlyExecSpawns`).
- Status reads three output texts as decisions, so a command that prints just `cancelled` reads as
  cancelled (`Witness.PrintedWordReadsCancelled`; when a result reads as completed:
  `Queries.CompletedIff`). The word stays once it is there (`Agreement.FinalStays`).
- An answered question becomes cancelled when a confirmation chained onto it is
  (`QuestionRuns.SelectedBecomesCancelled`, and only so: `Agreement.AnswerStaysIff`).
- A question's caller can be told that it was answered while status reads cancelled
  (`QuestionRuns.AnswerBesideCancel`), or that its time is up while status reads selected, because an
  answer came after the last look (`QuestionRuns.AnswerAfterLastLook`). Exactly when the two agree:
  `Question.AnswerMatchesStatus`.
- A call whose cancel file is torn leaves a petition that reads as cancelled only by its result text, and a
  waiter that still records its own result ends that (`Witness.TornCancelIsUndone`; exactly when:
  `TornReads.CancelReadsExactly`, `TornReads.LostUnlessUpheld`).
- A question or notice with a stray verdict on it reads as pending and is not listed
  (`QuestionRuns.PendingAskMayBeUnlisted`; exactly then: `Queries.ListedIffPending`).
- A rule added as "exact" with a single element is matched as a base binary, with any arguments
  (`Policy.ExactMeansEqual`); if it names a restricted tool it is accepted and has no effect
  (`Policy.RestrictedExactIsInert`).
- A negative update offset is saved as an empty file and read back as zero (`Decimal.OffsetRoundTrip`).
- An update of a question card's record that loads before a toggle and saves after it undoes the
  toggle (`Asking.ToggleCanBeLost`); while none does, the set is that of all toggles
  (`Asking.TimelyParity`).

## Model

| member | source | states |
|---|---|---|
| Preserve.StepKeeps | go/internal/service/service.go:228-583 | every step of every party keeps the protocol invariant: petitions unchanged since first save, families of one approved parent and at most one confirmation, one waiter per family, spawns approved and unique, nobody forgotten, stopped groups held |
| Preserve.ExpiryBranchIsDead | go/internal/service/service.go:537-557 | the adoption pass never meets a record that its own clock reading finds expired |
| Guarantees.SpawnNeedsApproval | go/internal/service/service.go:264-299 | in every interleaving a command has reached a process only if the verdict file of its id holds an approval |
| Guarantees.RefusedNeverSpawns | go/internal/store/store.go:111-130 | once a verdict file holds anything but an approval, or was left unreadable, that id never spawns in any continuation, crashes and restarts included |
| Guarantees.AtMostOnce | go/internal/service/service.go:537-583 | a petition together with its confirmations spawns at most once over any number of crashes and adoptions, and no family ever has two waiters |
| Guarantees.DecidedIsNeverAdopted | go/internal/service/service.go:537-557 | a decided petition nobody waits for never gets a waiter again |
| Guarantees.NoPetitionForgotten | go/internal/service/service.go:537-583 | an executable petition with no readable verdict or cancellation, that nobody found expired or unreadable and whose caller has not left, is queued for adoption or has exactly one waiter; an unreadable verdict file decides nothing |
| Guarantees.LapsesOnlyIf | go/internal/service/service.go:537-557 | an id lapses only when its waiter finds the deadline passed or its foreground caller gone, or when the restart finds it expired or unreadable |
| Guarantees.StoredPetitionRules | go/internal/store/store.go:54-108 | with loads and saves interleaved and updates lost, a record's petition equals the one first saved, and a spawn runs that one's command, directory and user |
| Guarantees.OnlyExecSpawns | go/internal/service/ask.go:86-97 | questions and notices never reach a process, nor does any confirmation chained onto one, whatever verdicts are filed on them |
| Guarantees.TwoKeys | go/internal/service/service.go:294-446 | if confirm-all is on or the command is listed for confirmation when a waiter branches on the approval of an initial petition, then in every continuation, policy changes, crashes and adoptions included, the family spawns only from an approved confirmation of that approved petition with the same command, directory and user, and it has no other confirmation |
| Guarantees.OneKeySuffices | go/internal/service/service.go:294-307 | with neither, or on a confirmation, an approved command can go to a process by its waiter's own next steps |
| Confirming.NeedsConfirm | go/internal/service/service.go:301-307 | the second key is asked for with confirm-all or exactly for the policy's listed argument vectors |
| Witness.ListedCommandTakesTwo | go/internal/service/service.go:294-446 | a run in which a listed command, with confirm-all off, gets a confirmation and no process from its approval, and a process from the approved confirmation |
| Guarantees.DryRunSpawnsNothing | go/internal/service/service.go:155-170 | as long as dry-run is on, nothing reaches a process, whatever is approved |
| Guarantees.StoppedGroupIsHeld | go/internal/service/suspend.go:72-108 | in a crash-free run a stopped group has an unfinished waiter pinned to it, so when none is left it runs |
| Restart.RestartReleases | go/internal/service/service.go:537-583 | a group whose pin was saved before a crash stays pinned and its id stays queued or adopted until the group runs again, unless the scan passes the record over; so once scan and waiters are done it runs |
| Restart.PassedOverOnlyIf | go/internal/service/service.go:537-550 | the scan passes over only what is decided, cancelled, expired when it began, or unreadable |
| Restart.ParentResultIff | go/internal/service/service.go:366-512 | a confirmation's waiter that ends, by a run, a refusal, a denial, a timeout, a cancellation or its caller's disconnect, leaves one result on the confirmation and then one on its parent, whatever happens in between, the same exactly unless the run was refused: then the parent gets exit 0 and no output |
| Restart.RecordsPending | go/internal/service/service.go:366-446 | in any interleaving a waiter that has only results left leaves exactly those on disk, in order, short of a crash |
| Restart.CanFinish | go/internal/service/service.go:366-446 | and it can always finish, wherever others have left the disk |
| Endings.TurnDecides | go/internal/service/service.go:961-980 | in any reachable state a turn of the wait goes by a readable verdict, then a cancellation, then the deadline on the record, then the caller |
| Endings.ClosedReads | go/internal/service/service.go:264-293 | when a waiter has closed a petition that was not approved and nobody cancelled, status reads what it decided, on the petition and on the one it confirms |
| Endings.RunLeavesResult | go/internal/service/service.go:495-512 | a run leaves its exit code and its output, cut to size, on the petition and on the one it confirms |
| Endings.ConfirmationTakesOver | go/internal/service/service.go:342-366 | a confirmation is filed for the command handed to its waiter, with the deadline it waits for, and takes over its parent's card and pin |
| Guarantees.RunIsLater | go/internal/store/store.go:111-263 | over any run written once-files keep their content, first-saved records stay and the spawn history only grows |
| Guarantees.CrashTears | go/internal/store/store.go:111-130 | a crash leaves written files and records, makes every file under way unreadable, and drops all waiters and pending saves |
| Witness.ApprovedCommandSpawns | go/internal/service/service.go:228-299 | a run in which an approved command does reach a process |
| Witness.SplitCancelCanLose | go/internal/service/service.go:831-913 | a run in which a cancellation written after its verdict check comes too late: the command ran and reads as cancelled |
| Witness.CrashCanLeaveStopped | go/internal/service/suspend.go:72-118 | a run in which a crash leaves a group stopped for good although its pin is on record, because its petition was decided |
| Witness.BlockedReadsCompleted | go/internal/service/service.go:440-512 | a run in which the gate blocks a confirmed command: nothing spawned, the confirmation reads as denied, and the parent reads as completed |
| Witness.BlockedRunReadsDenied | go/internal/service/service.go:661-674 | a run that the git gate blocks: the store reads it as completed and the daemon answers denied |
| Witness.DriftReasonReadsDenied | go/internal/service/service.go:661-674 | a cancel call with a reason like a drift gate's text: answered yes, cancelled in the store, and the daemon answers denied |
| Witness.PrintedWordReadsCancelled | go/internal/store/store.go:835-925 | a run in which a command prints the word, exits 0, nothing is cancelled, and status reads cancelled |
| Witness.ApprovalUnderWayWins | go/internal/store/store.go:111-130 | a run in which the call answers yes while an approval is being written, and the command then runs |
| Refinement.OpIsRun | go/internal/service/service.go:738-928 | every one-step operation of the coarse machine, the cancel call included, is a run of fine steps to the same state |
| Barring.Barred | go/internal/service/service.go:264-299 | once a family has not run and no reader, queue or later crash can bring an approval to its deciding record, it never runs in any fine continuation |
| Reaching.CanIsReached | go/internal/service/service.go:264-299 | and conversely: as long as that is not so, some continuation runs its command |
| TornCalls.CallKeeps | go/internal/service/service.go:738-928 | the cancel call keeps the protocol invariant in any state, with any of its files torn |
| Cancelling.UnauthorizedIff | go/internal/service/service.go:752-761 | a call for a stored petition is turned away as unauthorized exactly if the caller is neither root, nor the daemon's user, nor the one who filed it, and then nothing is cancelled, written or resumed |
| Rights.StrangersCancelNothing | go/internal/service/service.go:752-761 | over any run in which only such callers call, no cancel file appears |
| Rights.AnswersYesIff | go/internal/service/service.go:763-907 | anyone else is answered yes exactly if a cancellation is on file around the petition or nothing has ended it: for a question no selection, for a notice no acknowledgement, for a command no decision, or an approval whose confirmation is undecided, each before its deadline; a wait that ended by itself can be cancelled at any time |
| Rights.CancelReleasesFamily | go/internal/service/service.go:840-928 | a call that files releases exactly the groups pinned on records of the family |
| TornCalls.CancelBarsExactly | go/internal/service/service.go:738-928 | in any reachable state, torn files and the call's own included: a positive answer means that the family never runs exactly if it has not run and cannot any more; for a call that files, exactly unless the deciding verdict file is being written as an approval that somebody can still read |
| TornReads.CancelReadsExactly | go/internal/service/service.go:842-928 | after a call that files, each record of the family reads as cancelled at once exactly if its cancel file is readable and no drift text, or else its verdict file is readable; if marked, it goes by the cancel file for ever and reads as cancelled for good exactly if that file is clean; if not, it reads by its result text until a waiter records another |
| TornReads.ReadsUntilOverwritten | go/internal/store/store.go:780-900 | beside a verdict that is no denial, a result text of `cancelled` makes the petition read by its cancel file, or as cancelled, in every run in which no waiter records another text on it |
| TornReads.LostUnlessUpheld | go/internal/store/store.go:868-922 | and the step that records another text ends it, exactly unless the petition's confirmation says that it was cancelled |
| Witness.TornCancelIsUndone | go/internal/service/service.go:910-915 | a run in which the call's cancel file is torn: answered yes, reads as cancelled, until the waiter records the caller's disconnect |
| Cancelling.RefusalChangesNothing | go/internal/service/service.go:738-860 | a cancel call that answers no leaves the disk and the stopped groups as they were |
| Cancellation.OpKeeps | go/internal/service/service.go:738-928 | every operation keeps: an executable petition is cancelled only together with its verdict, an approved one only together with its confirmation, and its family with it |
| CancelTheorems.CancelledForGood | go/internal/service/service.go:738-928 | after a positive answer, in every continuation the petition, its parent and its confirmation have not spawned; and if the parent is executable, each reads by the reason on its cancel file, the call's or an earlier one, as cancelled or, with a drift text, denied, and calling again answers yes and changes nothing |
| Agreement.CancelReadsIff | go/internal/service/service.go:758-776 | after a positive answer an executable petition reads as cancelled for good, exactly unless it confirms a cancelled question or notice and has no cancel file, and nothing was changed; or the reason on file is a drift text, and it reads as denied for good |
| QuestionRuns.ConfirmationPassedOver | go/internal/service/service.go:766-770 | a run in which the call answers yes for a confirmation of a cancelled question, changes nothing, and it reads as pending |
| Agreement.QueriesAgree | go/internal/store/store.go:367-778 | in every reachable state an id is listed exactly if it reads as pending and has no verdict; for executable petitions listed and pending coincide; a listed id is not in the history |
| Agreement.StatusIgnoresOrder | go/internal/store/store.go:342-362 | status and history do not depend on the directory order the confirmation is searched in |
| Agreement.FinalStays | go/internal/service/service.go:661-674 | a petition reading as cancelled, or as denied for a drift, reads so in every continuation, whether a call's reason, a gate or a command's output made it so |
| Agreement.AnswerStaysIff | go/internal/store/store.go:186-211 | a question reading as selected or a notice reading as acknowledged reads so after an operation exactly unless that is a call with the means and the right to cancel a live, undecided confirmation chained onto it |
| Agreement.AnswerStays | go/internal/store/store.go:625-778 | and so over every continuation without such a call |
| QuestionRuns.SelectedBecomesCancelled | go/internal/service/service.go:842-886 | a run in which a selected question becomes cancelled through the confirmation chained onto it |
| Queries.ListedIffPending | go/internal/store/store.go:367-423 | for executable petitions the list filter and the pending status agree on any disk |
| Queries.CompletedIff | go/internal/service/service.go:661-674 | a petition with a result reads as completed exactly if it is approved, not cancelled, its output is none of three texts and, at exit -1, no drift text, and its confirmation does not overrule it |
| Queries.BlockedIsDenied | go/internal/service/service.go:661-674 | an approved run that a drift gate blocked reads as denied for that kind of drift |
| Queries.CompletedShows | go/internal/store/store.go:868-940 | what reads as completed shows the run's own exit code and output, under an approval |
| Queries.ApprovedReads | go/internal/store/store.go:780-866 | an approved petition without a result reads as confirming exactly if its confirmation is undecided, and otherwise as running |
| Queries.HistorySays | go/internal/store/store.go:463-622 | the history holds exactly the records with a readable cancellation, acknowledgement, verdict or selection, and shows them in that order of precedence, a run without exit code by its text or its confirmation |
| QuestionRuns.PendingAskMayBeUnlisted | go/internal/store/store.go:625-700 | a run after which a question reads as pending and is not listed |
| Queries.FindIgnoresOrder | go/internal/store/store.go:342-362 | with one confirmation per parent the search finds it in any directory order |
| Store.FirstWriterWins | go/internal/store/store.go:111-263 | over any sequence of writes to a write-once file the content is the first writer's |
| Store.EditsKeep | go/internal/store/store.go:73-108 | over any sequence of updates the petition and the pin stay and the first challenge URL wins |
| Store.ListRowsAre | go/internal/store/store.go:367-423 | an id has a row exactly if it is in the directory and passes the listing filter, with the time it has left |
| Store.Store.FindConfirmation | go/internal/store/store.go:342-362 | the loop finds the first record confirming the parent, or none |
| Store.Store.List | go/internal/store/store.go:367-423 | the loop lists exactly the ids in the directory that the listing filter passes, in directory order |
| Store.Store.Recent | go/internal/store/store.go:463-622 | history rows newest first, one per id with the first file met, as many as the limit allows, and none left out is newer than one shown |
| Store.SortSorts | go/internal/store/store.go:463-560 | the history order is newest first and loses nothing |
| Store.Service.Cancel | go/internal/service/service.go:738-928 | the call's branches yield the outcome the cancellation theorems are about: answer, disk and resumed groups; strangers are turned away and change nothing |
| Prune.PendingDir.Prune | go/internal/store/store.go:284-326 | for any directory order, exactly the artifacts and sealed archives of the doomed ids go, their number is returned, every other file stays |
| Prune.PendingDir.OldestArtifact | go/internal/store/store.go:311-320 | the oldest age is past a window exactly if some artifact is |
| Prune.DoomedByArtifacts | go/internal/store/store.go:304-325 | an id is doomed exactly if some artifact of it exists, it is not a live petition, and some artifact is older than the window |
| Prune.LiveIsListed | go/internal/store/store.go:304-326 | what a prune keeps for being live is exactly what the listing shows, and no listed request is ever pruned |
| Prune.PendingDir.Purge | go/internal/store/store.go:329-339 | all artifacts of one id go and no file of another |
| Prune.NameRoundTrip | go/internal/store/store.go:293-303 | a file name belongs to an id exactly if it is that id with one of the six suffixes |
| Prune.OthersIndependent | go/internal/store/store.go:304-325 | what decides about one id is unaffected by the removal of others |
| Prune.PruneTwice | go/internal/store/store.go:284-326 | a second prune at the same moment removes nothing |
| Audit.AuditQuery | go/internal/store/store.go:968-1016 | the scan returns the newest matches in reach, up to the limit, and the cursor of what is left |
| Audit.HitsAre | go/internal/store/store.go:1018-1045 | exactly the logged events are returned whose kind, id and user are those asked for and whose time parses and is within the bounds, where these are given |
| Audit.ChainIsComplete | go/internal/store/store.go:958-1016 | following the cursor, with any limits and any appends in between, yields exactly the matches of the first query's log, newest first, each once |
| Audit.ChainEnds | go/internal/store/store.go:958-1016 | the cursor strictly falls, so a chain has no more pages than the first log has lines |
| Text.AppendKeepsLines | go/internal/store/store.go:941-948 | appending to a log leaves every finished line at its index |
| Text.SplitAfterIs | go/internal/store/store.go:968-985 | the lines make up the log again, each but the last ending with its only line feed |
| Decimal.PrintOffset | go/internal/store/store.go:1066-1078 | the backwards printer into twenty bytes yields the decimal digits, nothing for a negative number |
| Decimal.ReadOffset | go/internal/store/store.go:1047-1060 | the digit loop with 64-bit wrap-around yields the number the round trip is about |
| Decimal.OffsetRoundTrip | go/internal/store/store.go:1047-1078 | a saved offset is read back unchanged exactly if it is not negative |
| Decimal.GarbageIsZero | go/internal/store/store.go:1047-1060 | any byte that is no digit makes the offset zero |
| Decimal.ItoaParses | go/internal/store/store.go:1009-1011 | a printed number parses back, exactly within 64 bits |
| Callback.AskDataParses | go/internal/telegram/telegram.go:642-678 | option, toggle and submit buttons parse back to the same action, id and index |
| Callback.AskButtons | go/internal/telegram/telegram.go:364-400 | a question card has one button per option in order and, for multi-select, a submit button with the count |
| Callback.PageDataParses | go/internal/telegram/telegram.go:679-689 | pager buttons parse back, for ids with colons too |
| Callback.PagedButtons | go/internal/telegram/telegram.go:436-456 | pager buttons lead to the neighbouring pages only, present exactly where there is one |
| Callback.PlainDataParses | go/internal/telegram/telegram.go:690-702 | approve, deny and acknowledge buttons parse back; the position label is no action |
| Callback.ParsedIndices | go/internal/telegram/telegram.go:642-702 | whatever is sent back, no parsed press names a negative index, a pick names at least one, and toggles, submits and page turns exactly one |
| Callback.ApprovalButtons | go/internal/telegram/telegram.go:263-269 | the two approval buttons in order |
| Callback.NotifyButton | go/internal/telegram/telegram.go:308-316 | the acknowledge button |
| Paging.PagesCoverList | go/internal/telegram/telegram.go:408-430 | the pages concatenate to the list, hold at most five lines each and none is empty unless the list is |
| Question.FileAsk | go/internal/service/ask.go:38-97 | a question is filed exactly if the request is acceptable, and then has two to ten trimmed options, no command, an http or https link if any, and expires when asked where that is in bounds, and otherwise at the bound |
| Question.TrimmedAre | go/internal/service/ask.go:38-46 | the filed options are those with something in them, without the space around it, in order |
| Question.Lifetime | go/internal/service/ask.go:66-82 | the lifetime is the one asked for where that is in bounds, and in bounds even when the product wraps around |
| Question.AwaitSelection | go/internal/service/ask.go:127-146 | the wait ends at the first turn that sees an answer, a cancellation, the deadline or the disconnect, in that order of precedence |
| Question.ToldIsAnswered | go/internal/service/ask.go:99-121 | the reply after any wait that ended, from what the last turn saw and whether a cancellation is there when the reply is made |
| Question.AnswerMatchesStatus | go/internal/service/ask.go:99-146 | the reply says what status reads from then on exactly if: with an answer, nothing is cancelled; past the deadline, nothing was cancelled or answered since the last look; otherwise, a cancellation is there by now whose reason is no drift text |
| QuestionRuns.AnswerBesideCancel | go/internal/service/ask.go:127-146 | a run that ends with a selection beside a cancellation: told selected, reads cancelled |
| QuestionRuns.AnswerAfterLastLook | go/internal/store/store.go:186-211 | a run in which the answer comes between the last look past the deadline and the reply: told timeout, reads selected |
| Asking.ToggleIdx | go/internal/service/ask.go:249-264 | the loop and sort yield the toggled set |
| Asking.SortIntsSorts | go/internal/service/ask.go:262 | the order of the toggle set is ascending and loses nothing |
| Asking.ToggleFlips | go/internal/service/ask.go:249-264 | on a strictly ascending set a toggle flips one member and stays strictly ascending |
| Asking.TogglesAreParity | go/internal/service/ask.go:195-214 | after any presses on an open multi-select question its stored set is the strictly ascending list of exactly the options toggled an odd number of times |
| Asking.SubmitRecordsParity | go/internal/service/ask.go:219-236 | the submit button then records exactly those options, in that order, with their joined labels, or nothing if there are none |
| Asking.FirstAnswerStays | go/internal/store/store.go:186-211 | no sequence of presses replaces a recorded answer |
| Asking.SetIsWhatWasFelt | go/internal/store/store.go:73-108 | with any loads and saves of other updates in between, the open question's set is given by the presses its record still shows, which a save takes back to those its writer had seen |
| Asking.ParityIff | go/internal/store/store.go:73-108 | so it is the set of all presses exactly if the presses still shown toggle as all of them do |
| Asking.TimelyParity | go/internal/store/store.go:73-108 | which is so while no save stems from a load older than the last toggle |
| Asking.ToggleCanBeLost | go/internal/store/store.go:73-82 | the shortest loss: a pager update loaded before a toggle and saved after it undoes it |
| Asking.Pump.Drain | go/internal/service/service.go:1308-1361 | the pump does to the store what the presses mean, in order |
| Buttons.MeansExactly | go/internal/telegram/telegram.go:690-702 | only the approve, deny and acknowledge buttons' own data means an approval, a denial and an acknowledgement of that request |
| Buttons.FirstVerdictButtonDecides | go/internal/service/service.go:1308-1361 | over any presses an undecided petition gets a verdict exactly if its approve or deny button is pressed, and the first such press says which, with the presser's name |
| Buttons.VerdictsStay | go/internal/service/service.go:1308-1361 | a verdict file that was there stays, whatever is pressed |
| Buttons.FirstAckButtonCounts | go/internal/service/service.go:1314-1320 | a notice gets an acknowledgement exactly if its button is pressed, naming the first presser, and nothing else ever gets one |
| Buttons.FirstPickAnswers | go/internal/service/service.go:1331-1354 | a single-answer question is answered exactly if a press picks an option of it, and the first such press says which |
| Buttons.OptionButtonPicks | go/internal/telegram/telegram.go:364-400 | the button of an option picks that option alone, by its label and number |
| Buttons.ClosedCardStays | go/internal/service/ask.go:195-214 | once a question is answered or cancelled, presses change nothing on its record |
| Buttons.OnlyQuestionsAreAnswered | go/internal/store/store.go:186-211 | presses answer questions only, and never cancel or record a result |
| Policy.MatchRule | go/internal/policy/policy.go:125-143 | the loops and flags decide the declarative relation |
| Policy.MatchWild | go/internal/policy/policy.go:145-192 | position-wise matching, with an open tail after a trailing star |
| Policy.FitsIs | go/internal/policy/policy.go:114-192 | a lone element is a binary with any arguments, a trailing star leaves the tail open behind elements that hold position by position, any other rule holds for vectors of its length; a star stands for one element |
| Policy.StarsMatchNothing | go/internal/policy/policy.go:145-160 | a rule of stars alone matches nothing |
| Policy.BaseIsOpenTail | go/internal/policy/policy.go:114-143 | a base rule is its binary followed by a star: any arguments, compared as an executable |
| Policy.ExactMeansEqual | go/internal/policy/policy.go:125-143 | a star-free rule stands for its own argument vector alone exactly if it has two or more elements |
| Policy.Tier | go/internal/policy/policy.go:63-81 | an allowing whitelist rule comes first; without one, whitelist mode or a fitting blacklist rule deny; with none of these the policy's default says |
| Policy.MissingFileAsks | go/internal/policy/policy.go:26-38 | on a missing or malformed file every command is asked about and none needs a second key |
| Policy.TierIgnoresOrder | go/internal/policy/policy.go:63-81 | the tier depends only on the sets of rules, in whitelist mode only on the whitelist |
| Policy.NeedsConfirm | go/internal/policy/policy.go:54-61 | confirmation is asked for exactly the listed argument vectors |
| Policy.PolicyFile.AddRule | go/internal/policy/policy.go:197-252 | refused exactly on a bad rule or an unwritable file, and then the file is unchanged; otherwise the rule has no empty element, no star if exact, is a lone binary if base and no restricted one on the whitelist, is added unless present, and the count is that of the list |
| Policy.WhitelistingChangesOnly | go/internal/policy/policy.go:197-252 | whitelisting a rule allows what it fits and changes no other verdict |
| Policy.BlacklistingChangesOnly | go/internal/policy/policy.go:197-252 | blacklisting a rule denies what it fits and is not whitelisted, and changes no other verdict |
| Policy.ExactRuleChangesOne | go/internal/policy/policy.go:197-252 | an exact whitelist rule of two or more elements changes the verdict of its own vector and no other; adding it again changes nothing |
| Policy.RestrictedExactIsInert | go/internal/policy/policy.go:92-94 | a one-element exact rule for a restricted tool is accepted and has no effect |
| Seal.CandidatesAre | go/internal/service/seal.go:64-111 | at most 32 candidates, each once, in name order; what is left out comes after everything kept |
| Seal.CandidateShape | go/internal/service/seal.go:81-101 | a candidate is a regular file whose path is its plain name below the working directory |
| Coverage.CandidateIff | go/internal/service/seal.go:73-101 | an argument is a candidate exactly if it is not blank, starts with no dash, holds no shell character, no equals sign and no address, and leads to a regular file below the working directory |
| Coverage.WhereArgumentsLead | go/internal/service/seal.go:83-89 | a plain relative argument leads to the file of that name below the working directory, an absolute one to the path it spells, and steps up undo steps down |
| Coverage.NamedFilesAreSealed | go/internal/service/seal.go:131-187 | if the arguments name at most 32 files, each readable and at most 2 MiB, together at most 8 MiB, the seal covers exactly those files, each once, with the bytes they held |
| Coverage.NamedFilesRunFrozen | go/internal/service/service.go:456-512 | and then, whatever has become of the files since, every argument that named one runs as a copy of the bytes it held when the petition was filed |
| Coverage.OnlyNamedAreSealed | go/internal/service/seal.go:64-111 | only files that arguments name are sealed, however many there are |
| Coverage.BlobsStop | go/internal/service/seal.go:146-167 | past the total the seal holds what can be read of the first targets, up to the first that would not fit |
| SealedRun.SealBounds | go/internal/service/seal.go:131-210 | a seal covers at most 32 files of at most 2 MiB and 8 MiB together, with distinct names and paths and the bytes the files held |
| SealedRun.RootBinds | go/internal/service/seal.go:120-126 | the root text binds every name and hash and their order |
| SealedRun.SealRoundTrip | go/internal/service/seal.go:131-337 | the archive a seal wrote is accepted by its own manifest |
| SealedRun.AcceptedMeansFrozen | go/internal/service/seal.go:267-337 | any accepted archive has exactly the manifest's names, once each, with exactly the sealed bytes |
| SealedRun.AcceptedRunsFrozen | go/internal/service/seal.go:267-366 | extraction and rewriting of an accepted archive give a run on frozen copies, all other arguments and their number unchanged |
| SealedRun.WhatRunsIsWhatWasSealed | go/internal/service/service.go:456-512 | every argument naming a sealed file has become a copy of the bytes that file held when the petition was filed |
| SealedRun.ExtractDirsApart | go/internal/service/seal.go:48-58 | extraction directories of different requests never contain each other, so no run disturbs another's frozen copies |
| Sealer.Sealer.SealCandidates | go/internal/service/seal.go:64-111 | the loop with its skips, duplicates, sort and cap yields the candidates |
| Sealer.Sealer.SnapshotSeal | go/internal/service/seal.go:131-210 | manifest, root and archive of the blobs that fit, or none |
| Sealer.Sealer.CheckSealDrift | go/internal/service/seal.go:215-248 | drift exactly if some sealed file is gone, no regular file, unreadable, or of another size or hash |
| Sealer.Sealer.MaterializeSeal | go/internal/service/seal.go:267-337 | succeeds exactly on an accepted archive whose writes succeed, then every entry is extracted; nothing outside the extraction directory changes |
| Sealer.Sealer.SealedArgv | go/internal/service/seal.go:341-366 | the loop rewrites exactly the tokens that resolve into the manifest |
| Sealer.Sealer.RunApproved | go/internal/service/service.go:448-512 | each refusal has its exact cause, in the gates' order; when it runs, the gates passed and the arguments are frozen copies or, unsealed or in dry-run, the stored ones |
| Env.ScrubEnv | go/internal/service/service.go:97-114 | exactly the passing variables are kept, the path is reset and the rest reported |
| Env.ReachesCommand | go/internal/service/service.go:97-114 | a variable reaches the command as it was given exactly if its name is one of five or the policy keeps it, and is not denied; the path is the daemon's own |
| Env.ScrubTwice | go/internal/service/service.go:559-583 | scrubbing the stored environment again after a restart gives the same environment |
| Capture.CappedWriter.Write | go/internal/service/execbounds.go:50-63 | the writer holds the first bytes of everything written and counts the rest |
| Capture.CaptureAll | go/internal/service/execbounds.go:42-79 | for any split into writes the capture equals one-shot truncation, and kept plus dropped bytes are the bytes written |
| Capture.BoundOutputIs | go/internal/service/execbounds.go:66-79 | below the ceiling nothing is lost; above it the first part is kept and a line says how much is missing |

## Left out

- Commands in the allow and deny tiers: they run or are refused at once and never meet the store, so the machine starts with the ask tier.
- Prune as a step of runs: it deletes records, and the guarantees over runs are about records that are still there; pruning is proved on its own.
- Opens that fail for other reasons than an existing file, and results that are lost or cut: the cancel call's create and the waiters' results are taken to get that far.
- TornCalls.CancelBarsExactly: the call is one step among the fine ones; in the code its read of the verdict and its write lie apart, and a call split between them can come too late (`Witness.SplitCancelCanLose`).
- CancelTheorems.CancelledForGood: stated between whole operations; torn files and approvals under way are in `TornCalls.CancelBarsExactly` and `TornReads.CancelReadsExactly`.
- Guarantees.StoppedGroupIsHeld: stated for runs without a crash, because it fails with one (`Witness.CrashCanLeaveStopped`); `Restart.RestartReleases` says what holds with crashes.
- Sealer.Sealer.RunApproved: the file system is taken as still between the drift check's reads; the descriptor and git checks are inputs.
- Prune.PendingDir.Prune: removals are taken to succeed, as the code ignores their errors.
- Whether gates reopen the sealed root hash: the code compares per-file hashes only, and so does the model.
- The drift details that status and history show beside their words, with a live look at the work tree: presentation.
- Write-in answers and recommended options of questions, and notices' own input checks: presentation and straight-line validation.
- Preview and risk labels, card texts, HTML, URL detection: presentation and heuristics.
- Who may submit a verdict or a policy rule over the socket: a caller check like the cancel call's, in front of operations that are modelled.
- Sockets, peer credentials, configuration loading, command-line clients, the Telegram transport and its retry loop: input and output.
- Uid switching and process control as such: a spawn is an event, a stopped group a flag.
- Environment values inside the protocol machine: they are not among a record's modelled fields; `Env` treats the scrub itself.
- Byte counts of text: strings are sequences of characters, so output ceilings count characters where the code counts bytes.
