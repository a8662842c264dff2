# Encoder submission, tracking and the small state machines around them

This project models the parts of the backend that must not get a decision wrong even when a process dies,
a reply is lost or two workers race, and proves what they promise:

- **The encoder submission protocol** (`automatic_encoder.py`, `encoder_history.py`, `encoder_submission.py`,
  `encoder_receipts.py`, and the policy endpoint of `api/automatic_encoder.py`). Files are sent to an external
  encoder that may lose replies. Every request has a durable receipt; an automatic queue claims rows under
  leases; an intent is committed before the POST; lost receipts are asked for again without posting again.
- **The poller of encoder jobs** (`encoder_tracking.py`): competing workers, leases and fenced saves.
- **The hashing pool** (`file_hasher.py`) and the ordered chunk pool of `hevc_parallel_experiment.py`.
- **The 14-day watch list** (`ongoing_watch.py`), **the splitter of Telegram lists** (`hevc_bot.py`) and
  **the torrent detail cache** (`backoffice_torrent_cache.py`).

## How it is built

| module | role |
|---|---|
| `Json`, `EncoderHistory`, `SettleResponse`, `SettleLemmas`, `RepairReceipt` | an untrusted reply, how it decides every file (as loops and as a function), and what that promises |
| `EntryLaws`, `SettleLaws`, `RepairLaws` | the same decisions told again in the entries of the reply alone: when exactly a file is accepted, rejected, left unknown or repaired |
| `EncoderTables` | the rows of the protocol, and each locked transaction as a function on them |
| `EncoderStore` | the same transactions as the program runs them: a store whose rows are rewritten in loops, each method proved to compute the table function |
| `ReceiptLaws`, `ClaimLaws`, `RecoveryLaws`, `RowLaws`, `QueueLaws` | what each transaction decides, in the fields of rows, lines, facts and answers alone; most of it if and only if |
| `EncoderRuns` | the world (tables, running senders and ticks, the encoder, the clock) and its 30 kinds of step; a run is any sequence of steps |
| `ReceiptSteps`, `FlightInvariant`, `QueueInvariant`, `QueueSteps`, `QueueClaims` | the invariant of receipts in flight and of the queue, kept by every step |
| `RunSafety`, `RunContents`, `RunClaims`, `RunVerdicts`, `RunStatuses`, `RunReplies`, `RunUnsent`, `HonestEncoder`, `IntentPermission`, `CancelledRows`, `CancelledFinal`, `Generations` | the results over whole runs |
| `CancelledExample`, `UnsentExample`, `TwinExample` | three complete runs from an empty system, for the findings below |
| `PollTracking`, `PollLaws`, `PollRuns` | one observation and the fenced poller; what each answer says; its interleavings |
| `HashPool`, `HashLaws` | the pool and the plain loop; what a run stores, path by path |
| `OngoingWatch`, `WatchRuns`, `WatchLaws` | the watch list; its histories; what a row remembers |
| `ReleaseList`, `CodeUnits`, `TorrentCache` | lists within a length limit; code units; the detail cache |

A step that is not possible in a state changes nothing, so "every run" really is every sequence of events.
`World.posts`, `received`, `created`, `issued` and `baselines` are history: what the encoder saw and created,
which tokens were handed out, and which versions were archived when a generation began.

Three findings:

- `cancelled` is **not** final. The second transaction of a receipt recovery calls `settle_item` without looking
  at the row again (`encoder_receipts.py:89-92`), and the first branch of `settle_item`
  (`automatic_encoder.py:341-346`) does not test for `cancelled`. `CancelledExample.CancelledCanLeave` is a
  complete run in which an untracked release's row leaves `cancelled`; `CancelledRows.CancelledStep` and
  `CancelledUnlessRecovered` say exactly when that happens. The run is a rare one: the receipt is selected for
  recovery while the submission that sent it is still running, at least 600 s after its intent was committed, and
  that submission then records a connect failure. In one worker process this cannot come up, since the scheduler
  starts `tick` with `max_instances=1` (`backend/worker.py:229-231`) and recovery is the last call of a tick, so it
  takes a second worker process. `CancelledFinal.CancelledIsFinal` proves the other side: in every run in which no
  receipt is selected while its submission is running, `cancelled` is final.
- The order of statuses is proved step by step and, for decided lines, over whole runs. Over a run a line that is
  `unknown` can still end `not_sent`, but only if the encoder says that it is processing a request it never
  received: `UnsentExample.UnknownCanBecomeUnsent` is such a run, `RunUnsent.UnknownBecomesUnsent` says exactly
  when it happens, and `RunUnsent.InformedNeverUnsends` that it never does with an encoder that confirms only
  requests that were delivered.
- The check for equal content belongs to the claim (`encoder_history.py:199-207`). The first preflight captures the
  content anew (`encoder_submission.py:268-288`) and does not compare it with other receipts, so a manual request
  claimed while its file's content was not known can end up beside an automatic line with the very same content:
  `TwinExample.TwinsCanMeet` is such a run, with no override. `RunContents.SameContentOnlyByCapture` says over every
  run without overrides that this is the only way; automatic requests are compared once more when their intent is
  committed (`IntentPermission.CommittedIntent`).

## Model

| member | source | states |
|---|---|---|
| SettleResponse.SettleResponse | backend/app/services/encoder_history.py:253-343 | the loops over errors, jobs and remaining files compute the settlement function, for any reply |
| SettleResponse.ReadErrors | backend/app/services/encoder_history.py:293-301 | after the error loop each file carries the last error matched to it, and only unmatched errors set the flag |
| SettleResponse.ReadJobs | backend/app/services/encoder_history.py:302-313 | after the job loop each file has the ids of all its jobs, and a file with an error before is contradictory whatever came between |
| SettleLemmas.OnlySendingFilesSettle | backend/app/services/encoder_history.py:255-336 | nothing is left sending, and only files that were being sent change, in status, note and ids only |
| SettleLemmas.SettlementIgnoresOrder | backend/app/services/encoder_history.py:253-343 | permuting the reply's errors and jobs changes no file's status and no file's job ids |
| SettleLemmas.BatchMatchIsExact | backend/app/services/encoder_history.py:267-291 | with two or more files an entry matches a file only by naming its exact full path with no conflicting path or name |
| SettleLemmas.BatchMatchIffNamed | backend/app/services/encoder_history.py:267-291 | with distinct paths, matching and naming exactly are the same |
| SettleLemmas.JobIdsNeedEvidence | backend/app/services/encoder_history.py:302-336 | in a batch every new job id comes from a job of a 200 or 207 reply that names that exact path |
| SettleLemmas.NamedJobsAcceptOnlyNamedFiles | backend/app/services/encoder_history.py:295-336 | once a job names a source, a file is accepted if and only if a job names it and no error does |
| SettleLemmas.UnnamedFilesAreNotAccepted | backend/app/services/encoder_history.py:302-336 | once a job names a source, a batch file no identified job names is never accepted, whatever the paths are |
| SettleLemmas.ContradictionStaysUnknown | backend/app/services/encoder_history.py:293-313 | a file matched by an error and by an identified job ends unknown, with the ids it had |
| SettleLaws.FateOfFile | backend/app/services/encoder_history.py:253-343 | in the entries of the reply alone: an error about a file rejects it, an identified job accepts it with exactly the ids of its jobs, both leave it unknown; any other is accepted if and only if the reply is a 200 or 207, all its errors match, none contradicts a job, no job names a source, and `created` or the number of distinct job ids is exactly the positive number of files no error refuses; a lone file takes the only id |
| SettleLaws.RejectedByLastError | backend/app/services/encoder_history.py:293-301 | a rejected file carries what the last error about it says |
| SettleLaws.MiscountAcceptsNothing | backend/app/services/encoder_history.py:314-336 | a bare `created` that is not the number of posted files leaves every file unknown |
| SettleLaws.BatchMatchExactly | backend/app/services/encoder_history.py:267-291 | in a batch an entry is about a file if and only if it names its full path and no other posted file has that path |
| SettleLaws.LoneMatchExactly | backend/app/services/encoder_history.py:267-291 | with one posted file an entry is about it if and only if it does not name another one |
| EntryLaws.JobsAre | backend/app/services/encoder_history.py:260-265 | the jobs of a reply are the listed ones, a single `job`, and only without one a bare `job_id` |
| EntryLaws.JobIdExactly | backend/app/services/encoder_history.py:245-250 | a job is identified if and only if its raw id is a whole number or a non-empty text, cut at 255 characters |
| EntryLaws.FileNameIsLast | backend/app/services/encoder_history.py:267-291 | the file name of a path is its last component, whatever comes before |
| RepairReceipt.RepairSavedReceipt | backend/app/services/encoder_history.py:346-376 | the repair loop computes the repair function when the receipt may be repaired, and otherwise nothing |
| RepairReceipt.RepairOnlyAccepts | backend/app/services/encoder_history.py:354-373 | repair only turns eligible unknown files into accepted ones with job ids |
| RepairReceipt.RepairTwice | backend/app/services/encoder_history.py:346-376 | a second repair changes nothing |
| RepairReceipt.SettlementNeedsNoRepair | backend/app/services/encoder_history.py:346-376 | right after settlement of a fully posted receipt with an unabridged saved reply, repair changes nothing |
| RepairLaws.RepairedExactlyWhen | backend/app/services/encoder_history.py:346-376 | a file is repaired if and only if it is unknown for want of evidence and settling the whole posted scope afresh with the saved reply accepts it with job ids, and then with exactly those |
| EncoderStore.EncoderStore.RecoverExpired | backend/app/services/encoder_history.py:93-104 | writes off exactly the expired receipts: unknown if the request had started, not sent otherwise |
| ReceiptLaws.ExpiryDecides | backend/app/services/encoder_history.py:93-104 | a receipt ends here if and only if it is unfinished and past its time; exactly its pending lines change, to unknown if the request had started and to not sent otherwise |
| ReceiptLaws.NewSubmission | backend/app/services/encoder_history.py:214-242 | a new submission comes last with the files of the request, is written off only after 600 seconds, and only its own row points at it |
| EncoderStore.EncoderStore.FinishFailure | backend/app/services/encoder_history.py:379-387 | pending files become unknown or not sent, and the receipt is finished |
| EncoderStore.EncoderStore.ClaimReceipt | backend/app/services/encoder_history.py:142-242 | a new receipt is created if and only if the request id is new, no line stands in the way of a file (by status, release, path, hash, content, conflict and doubt, in the fields of the lines) and the row still holds the token; every refusal leaves the tables untouched |
| EncoderStore.EncoderStore.Conflicts | backend/app/services/encoder_history.py:172-212 | the conflict list is empty if and only if no line stands in the way of any file, told in the fields of the lines, and each entry stands in the way of one |
| EncoderStore.EncoderStore.MayBeRepeated | backend/app/services/encoder_history.py:190-212 | lists exactly the blocking lines of the same release and path, either side automatic, with an equal hash, equal known contents, a changed source, or an unknown line without both contents |
| ClaimLaws.ClearMeans | backend/app/services/encoder_history.py:172-212 | the checks pass if and only if no line stands in the way of any file, in the fields of the lines |
| ClaimLaws.ClearFilesAreOthers | backend/app/services/encoder_history.py:190-212 | a claimed file beside an insisting line of its release and path, either side automatic, has another hash, not the same known content, an unchanged source, and both contents known if the line is unknown |
| EncoderStore.EncoderStore.Replay | backend/app/services/encoder_history.py:86-90 | finds the receipt of a request id exactly if there is one |
| EncoderStore.EncoderStore.Preflight | backend/app/services/encoder_submission.py:268-288 | files that are not available are not sent, the others are captured |
| EncoderStore.EncoderStore.RecheckLines | backend/app/services/encoder_submission.py:298-323 | files that no longer match their capture are not sent, and the payload is exactly what is left |
| ReceiptLaws.PassesBothPreflights | backend/app/services/encoder_submission.py:268-323 | a claimed file may be posted if and only if it was available at the first preflight and unchanged at the second, and then under the captured path and content |
| EncoderStore.EncoderStore.CommitIntent | backend/app/services/encoder_submission.py:297-334 | the request starts if and only if something is left to send to the same server and the row is permitted; otherwise the receipt is given up and the row moved |
| EncoderStore.CommitOfRuns | backend/app/services/encoder_submission.py:297-334 | the committing step of the runs is this transaction |
| EncoderStore.EncoderStore.RecordReply | backend/app/services/encoder_submission.py:343-350 | a 202 is recorded as pending, a 200 or 207 decides every file, and unknown files are asked for at once |
| EncoderStore.EncoderStore.SettleGroup | backend/app/services/encoder_history.py:253-343 | settling a receipt decides its files and writes code, reply and end into it |
| EncoderStore.EncoderStore.FailPost | backend/app/services/encoder_submission.py:352-382 | documented refusals reject, undelivered requests were not sent, everything else stays unknown and is asked for again |
| ReceiptLaws.FinalReply | backend/app/services/encoder_submission.py:343-350 | after a 200 or 207 nothing is pending, the receipt has ended and is asked for again if and only if a file is unknown; conflict flags are raised exactly for posted files whose source changed |
| ReceiptLaws.LostReply | backend/app/services/encoder_submission.py:352-382 | after a loss exactly the pending files are unknown, and the receipt is asked for at once |
| ReceiptLaws.RefusedReply | backend/app/services/encoder_submission.py:352-382 | a documented refusal rejects exactly the pending files with its reason |
| EncoderStore.EncoderStore.CheckSourceConflicts | backend/app/services/encoder_submission.py:191-205 | flags exactly the posted files whose source changed |
| EncoderStore.EncoderStore.RecoverReceipt | backend/app/services/encoder_receipts.py:36-93 | what the second transaction of a recovery makes of the receipt, whose code, reply and error settling overwrites and recovery puts back, and of the row it was sent for |
| RecoveryLaws.ForeignDecidesNothing | backend/app/services/encoder_receipts.py:48-51 | an answer without the receipt's own request id accepts and rejects nothing, leaves pending lines unknown and stops the asking |
| ReceiptLaws.AskedExactlyWhen | backend/app/services/encoder_receipts.py:13-34 | which receipts are asked for |
| RecoveryLaws.OpenExactlyWhileWorking | backend/app/services/encoder_receipts.py:52-60 | an unresolved line is pending after an answer if and only if it is a 202 about this request that says "processing" |
| RecoveryLaws.ClosedExactlyByOwnAnswer | backend/app/services/encoder_receipts.py:36-93 | a receipt is read without error if and only if the answer is about this request and is 202 with "processing", 200, 207, 400, 403, 404 or 422 |
| RecoveryLaws.OwnReplySettles | backend/app/services/encoder_receipts.py:64-80 | a 200 or 207 about this request settles the undecided lines as the reply to the POST would |
| RecoveryLaws.OwnRefusalRejects | backend/app/services/encoder_receipts.py:64-84 | a 400, 403, 404 or 422 about this request rejects exactly the undecided lines |
| RecoveryLaws.OtherCodesDecideNothing | backend/app/services/encoder_receipts.py:81-88 | any other code and any transport failure decide nothing and ask again after 300 seconds |
| RecoveryLaws.DecidedBy | backend/app/services/encoder_receipts.py:36-93 | over every run, a line of a posted request is decided only by its own submission, a repair, or an answer that carries the request's own id |
| EncoderStore.EncoderStore.SettleItem | backend/app/services/automatic_encoder.py:341-368 | the first of accepted, sending, unknown, rejected among the row's lines decides it, and the row is released |
| RowLaws.SettledByLines | backend/app/services/automatic_encoder.py:341-368 | over the statuses of the row's lines, one if-and-only-if for each state a settled row ends in |
| RowLaws.PausedByLines | backend/app/services/automatic_encoder.py:353-365 | an accepted line ends the pause before the next claim, lines that were all not sent begin one, and nothing else touches it |
| RowLaws.PauseTable | backend/app/services/automatic_encoder.py:364-364 | 30 seconds doubled with each attempt, never more than 900 |
| RunVerdicts.VerdictsAreReal | backend/app/services/automatic_encoder.py:353-361 | in every reachable state a row that is done points at an accepted line and one at rejected points at a rejected line |
| EncoderStore.EncoderStore.PreviousReceipt | backend/app/services/automatic_encoder.py:215-234 | the newest line outside its own submission that may already carry the source |
| RowLaws.PreviousMeans | backend/app/services/automatic_encoder.py:215-234 | it finds the newest line outside its own submission that may carry the source, and none if and only if there is none |
| EncoderStore.EncoderStore.AssessRow | backend/app/services/automatic_encoder.py:237-289 | the first obstacle in the fixed order, and what the row remembers of it |
| RowLaws.ReadyExactlyWhen | backend/app/services/automatic_encoder.py:237-289 | a row is ready if and only if its release takes part in its generation, the version is archived and AVC, the file is there, a video, changed and selected, presets are whole, automation and server are on, no hashing runs, the file is present and verified, and no line outside its own submission may carry the source |
| RowLaws.FirstObstacle | backend/app/services/automatic_encoder.py:237-278 | each other state and reason, by the first obstacle that is there |
| RowLaws.CarrierDecides | backend/app/services/automatic_encoder.py:279-289 | with nothing else in its way a row follows the newest line that may carry its source |
| EncoderStore.EncoderStore.ReconcilePage | backend/app/services/automatic_encoder.py:313-333 | a page of rows is settled from receipts or assessed again, in order |
| QueueLaws.ReconciledRow | backend/app/services/automatic_encoder.py:323-332 | a row that points at a line with an outcome is settled from it, any other is assessed and looked at again in 30 seconds; no other row changes |
| QueueLaws.DueExactlyWhen | backend/app/services/automatic_encoder.py:317-322 | a row is looked at if and only if it is not at rest, its time has come and nobody holds it |
| EncoderStore.PageIsARun | backend/app/services/automatic_encoder.py:313-333 | a page of distinct due rows is a run of single reconcile steps: none changes whether another is due |
| EncoderStore.EncoderStore.ClaimNext | backend/app/services/automatic_encoder.py:371-403 | the oldest ready row is claimed, or moved by its assessment, only outside a pause and outside every other lease |
| QueueLaws.ClaimedExactlyWhen | backend/app/services/automatic_encoder.py:392-400 | a ready row is claimed if and only if nothing stands in its way at that instant, and then for 660 seconds, with one more attempt and its policy's revision |
| RunClaims.AttemptsCountClaims | backend/app/services/automatic_encoder.py:397-399 | over every run a row's attempts are exactly the tokens handed out for it |
| QueueLaws.EndedTick | backend/app/services/automatic_encoder.py:517-530 | the last transaction of a tick does nothing unless the row carries its token; it settles the row, or lets it wait for 30 seconds, and keeps a cancelled one |
| QueueLaws.AdoptedLine | backend/app/services/automatic_encoder.py:505-516 | a tick refused because of another line makes its row follow that line |
| EncoderStore.EncoderStore.ValidateIntent | backend/app/services/automatic_encoder.py:454-468 | permission or the row's new place, exactly as the tables and the facts allow at that moment |
| RowLaws.GrantedExactlyWhen | backend/app/services/automatic_encoder.py:454-468 | an intent is granted if and only if token and lease hold, nothing stands in the row's way, the revision is the claimed one and named presets are offered unchanged |
| RowLaws.DeniedRow | backend/app/services/automatic_encoder.py:458-467 | where a row goes when its intent is refused |
| IntentPermission.CommitStartsExactlyWhen | backend/app/services/encoder_submission.py:297-334 | a commit starts the request if and only if something passed both preflights, the server is the same and an automatic row allows it |
| EncoderStore.OwnReceiptIgnored | backend/app/services/automatic_encoder.py:279-279 | what the submission itself holds plays no part in its own permission |
| EncoderStore.EncoderStore.TrackingChanged | backend/app/services/automatic_encoder.py:89-112 | tracking starts a generation whose baseline is everything archived; untracking cancels exactly the active rows whose request has not started |
| QueueLaws.TrackingSetsPolicy | backend/app/services/automatic_encoder.py:89-112 | participation is what was asked for, a generation begins exactly with it, and its baseline is exactly what is archived; all else stays |
| QueueLaws.TrackingStopsRows | backend/app/services/automatic_encoder.py:107-112 | rows are stopped exactly by ending the participation, and only active ones whose request has not started |
| EncoderStore.EncoderStore.ObserveArchive | backend/app/services/automatic_encoder.py:126-144 | a version seen for the first time becomes a new source of the current generation |
| QueueLaws.ObservedSource | backend/app/services/automatic_encoder.py:126-144 | a version of a tracked release becomes a source, of the baseline exactly if it was archived before a generation that begins now or was so already |
| EncoderStore.EncoderStore.RegisterFile | backend/app/services/automatic_encoder.py:147-169 | at most one row per generation, version and path, and none for a baseline version without an explicit request |
| QueueLaws.RegisteredExactlyWhen | backend/app/services/automatic_encoder.py:147-169 | a row for the file exists afterwards if and only if it did before or the file is admitted; the new row is the last |
| QueueLaws.RegisteredRow | backend/app/services/automatic_encoder.py:160-169 | only the active row of an admitted file gets the file |
| EncoderStore.EncoderStore.SavePolicy | backend/app/api/automatic_encoder.py:134-169 | refused without any change unless the revision is current and both presets or none are named; otherwise exactly the waiting rows are woken |
| QueueLaws.SavedExactlyWhen | backend/app/api/automatic_encoder.py:140-153 | refused if and only if one preset is named alone or the caller saw another revision |
| QueueLaws.SavedPolicy | backend/app/api/automatic_encoder.py:154-158 | the stored presets and snapshot are the named ones or none, the revision is the next one, all else and every other release stay |
| QueueLaws.WokenRows | backend/app/api/automatic_encoder.py:161-167 | exactly the rows of the release that wait for presets are woken |
| ReceiptSteps.RecoverKeepsReply | backend/app/services/encoder_receipts.py:67-80 | after settling has overwritten them, the original reply, HTTP code and error are back; request id, start and payload stay |
| ReceiptSteps.RecoverStep | backend/app/services/encoder_receipts.py:36-88 | recovery reopens only undecided files, decides them or leaves them unknown, and never says that a posted file was not sent |
| ReceiptSteps.AnsweredStep | backend/app/services/encoder_submission.py:343-350 | recording a reply keeps the receipt well formed and follows the order of statuses |
| FlightInvariant.FlightNext | backend/app/services/encoder_submission.py:207-383 | every step keeps: one POST at most, only after the intent, nothing received is "not sent", receipts only evolve in the order of statuses |
| QueueClaims.QueueNext | backend/app/services/automatic_encoder.py:371-532 | every step keeps: one claim inside its lease, tokens issued for their row, an automatic receipt that was sent at all is the one its row points at, running submissions carry the presets they were claimed under |
| RunSafety.RunHolds | backend/app/services/encoder_submission.py:207-383 | both invariants hold in every state of every run |
| RunSafety.OnePostPerRequest | backend/app/services/encoder_submission.py:218-345 | request ids are unique, each is posted at most once and only after its intent, nothing received ends "not sent", no finished receipt holds a file being sent |
| RunSafety.DecisionsAreFinal | backend/app/services/encoder_receipts.py:36-93 | over every run accepted, rejected and not_sent stay, with their job ids, and receipts keep request, target, presets, start and payload |
| RunSafety.AtMostOneLiveLine | backend/app/services/encoder_history.py:190-212 | without manual overrides no run holds two live lines of one release, version and path if one is automatic |
| RunContents.TwinContentStep | backend/app/services/encoder_history.py:199-207 | without overrides a step brings two live lines of equal content together if and only if it is a first preflight that captures the content of another live line |
| RunContents.SameContentOnlyByCapture | backend/app/services/encoder_submission.py:268-288 | over every run without overrides no two live lines of one release and path, one automatic, ever have equal content, if and only if no first preflight captures one |
| TwinExample.TwinsCanMeet | backend/app/services/encoder_submission.py:268-288 | a run from an empty system, with no override, in which two live lines have equal content |
| RunSafety.NewestHolds | backend/app/services/encoder_history.py:172-189 | without acknowledged unknowns, every live line but the newest for the same server, presets, version and path is accepted |
| RunSafety.UnresolvedIsNewest | backend/app/services/encoder_history.py:172-189 | so a line still sending or unknown is the newest live one, and there is at most one |
| RunStatuses.StatusStep | backend/app/services/encoder_submission.py:207-383 | in one step unknown lines change only by asking again or repair, rejections come only with an answer, requests start only by a commit |
| RunStatuses.UnknownWaitsForReceipt | backend/app/services/encoder_receipts.py:36-93 | over every run an unknown line stays unknown until its receipt is asked for or its saved reply is read again |
| RunReplies.ReplyStep | backend/app/services/encoder_receipts.py:67-80 | in one step reply, code and error of a receipt are written only by its own running submission, and only "not delivered" unsends a posted file |
| RunReplies.ReplyOnlyFromOwner | backend/app/services/encoder_receipts.py:67-80 | over every run, reply, code and error change only by the outcome steps of the receipt's own submission, never by recovery, repair or expiry |
| RunReplies.ReplyIsFinal | backend/app/services/encoder_submission.py:337-383 | once its submission is no longer running, a receipt keeps its reply, code and error over every run |
| RunUnsent.OnlyUndeliveredUnsends | backend/app/services/encoder_submission.py:357-383 | a line of a started request becomes "not sent" in a step if and only if its submission records "not delivered" while the line is pending |
| RunUnsent.OnlyProcessingReopens | backend/app/services/encoder_receipts.py:52-57 | an unknown line is pending again only after an answer that says "processing" |
| RunUnsent.UnknownBecomesUnsent | backend/app/services/encoder_receipts.py:52-57 | over every run, an unknown line ends "not sent" if and only if a "processing" answer comes while its submission is running, and that later records "not delivered" with the line pending |
| RunUnsent.InformedNeverUnsends | backend/app/services/encoder_receipts.py:36-93 | with an encoder that confirms only delivered requests, no unknown line ever ends "not sent" |
| UnsentExample.UnknownCanBecomeUnsent | backend/app/services/encoder_receipts.py:52-57 | a run from an empty system in which a line is unknown and ends "not sent" four events later |
| HonestEncoder.RejectedWasDenied | backend/app/services/encoder_history.py:293-301 | only an error entry about a file gets it rejected |
| HonestEncoder.CreatedStaysLive | backend/app/services/encoder_history.py:253-343 | with an encoder that never denies a job it created, the line of every created job stays live |
| HonestEncoder.OneJobPerAutomaticSource | backend/app/services/encoder_history.py:190-212 | such an encoder holds at most one job per automatic source, over every run without manual overrides |
| IntentPermission.CommittedIntent | backend/app/services/automatic_encoder.py:371-403 | an automatic request starts only for the only row inside its lease, under the token issued for it, while its release takes part in its generation, with exactly the policy's presets at that instant, with every fact about version, file, disk and server in order, and with no line of another submission that may carry the source |
| IntentPermission.TokensComeFromClaims | backend/app/services/automatic_encoder.py:397-403 | a token stays with its row; a new one comes only from a claim, and the claimed row then holds it |
| IntentPermission.StartedWasGranted | backend/app/services/encoder_submission.py:324-334 | a commit that starts an automatic request was granted by the final permission check |
| CancelledRows.CancelledStep | backend/app/services/automatic_encoder.py:341-368 | a step takes a row out of `cancelled` if and only if it is a recovery of a receipt of that row the row does not point at |
| CancelledRows.LeftReceiptsWereNotSent | backend/app/services/automatic_encoder.py:341-346 | a row has left a receipt of its own only if that receipt turned out never to have been sent |
| CancelledRows.CancelledUnlessRecovered | backend/app/services/encoder_receipts.py:89-92 | over every run, a cancelled row stays cancelled throughout if and only if no such recovery happens |
| CancelledFinal.CancelledIsFinal | backend/app/services/encoder_receipts.py:13-34 | in every run in which no receipt is selected for recovery while its submission is running, a cancelled row stays cancelled |
| CancelledExample.CancelledCanLeave | backend/app/services/encoder_receipts.py:89-92 | a run from an empty system in which an untracked release's row leaves `cancelled` |
| Generations.GenerationStep | backend/app/services/automatic_encoder.py:89-169 | every step keeps sources, baselines and rows consistent, and every row's release, version and generation |
| Generations.QueuedVersionsAreNew | backend/app/services/automatic_encoder.py:89-169 | a row queued without explicit backfill is for a version that was not archived at the step of the run where its generation began |
| Generations.BaselineIsHistory | backend/app/services/automatic_encoder.py:99-106 | a generation's baseline is what was archived at the step where it began |
| Generations.UntrackedSendsNothing | backend/app/services/automatic_encoder.py:107-112 | after untracking, no automatic request of the release starts until it is tracked again |
| Generations.OlderNeverSends | backend/app/services/automatic_encoder.py:242-243 | a row of an older generation never sends again |
| PollTracking.Observe | backend/app/services/encoder_tracking.py:81-137 | the dictionary of fields is what the answers of GET and HEAD amount to, also on every failure |
| PollTracking.ConfirmedOnlyByEvidence | backend/app/services/encoder_tracking.py:81-137 | a file is confirmed if and only if a 2xx reply about this finished job says so, or says nothing and the probe finds a file |
| PollLaws.AcceptedExactlyWhen | backend/app/services/encoder_tracking.py:62-78 | a reply is accepted with a status if and only if it is about the job and its path, well formed, and names that status |
| PollLaws.FailedExactlyWhen | backend/app/services/encoder_tracking.py:81-137 | one if-and-only-if for each reason an observation fails |
| PollLaws.MissingExactlyWhen | backend/app/services/encoder_tracking.py:98-128 | when exactly a file is known to be missing, and when its fate is left open |
| PollLaws.SeenSize | backend/app/services/encoder_tracking.py:98-122 | a size is seen only with a confirmed file, and which |
| PollLaws.NextPoll | backend/app/services/encoder_tracking.py:160-167 | 30 seconds for a running job, 300 for one that is over, and 60, 120, 240, 480, 900 after failures in a row |
| PollLaws.SavedKeepsTheUnseen | backend/app/services/encoder_tracking.py:160-168 | a save takes over what was seen and keeps the rest |
| PollTracking.PollStore.ClaimDue | backend/app/services/encoder_tracking.py:140-157 | exactly the due rows of the page are claimed, each under its own token |
| PollTracking.PollStore.SaveObservation | backend/app/services/encoder_tracking.py:160-172 | saved if and only if the claim still holds, and then with all fields at once |
| PollTracking.PollStore.Release | backend/app/services/encoder_tracking.py:195-199 | gives up exactly the claims that are still this worker's |
| PollRuns.Reachable | backend/app/services/encoder_tracking.py:140-199 | every run of any workers keeps each row equal to what its saves made of it |
| PollRuns.ClaimsSaveOnceInOrder | backend/app/services/encoder_tracking.py:140-172 | a claim saves at most once and never after a later claim of the row |
| PollRuns.FailuresCountTheTail | backend/app/services/encoder_tracking.py:160-165 | the failure counter is the length of the trailing run of failed saves |
| PollRuns.SavesKeepTheirDistance | backend/app/services/encoder_tracking.py:160-167 | two saves of a row are at least the first one's pause apart, and a pause is 30 to 900 seconds |
| PollRuns.LinkWasConfirmed | backend/app/services/encoder_tracking.py:35-46 | an available file is of a finished job and goes back to a save that confirmed it, with no 404 since |
| PollRuns.NoLinkAfter404 | backend/app/services/encoder_tracking.py:88-92 | after a saved 404 no link is shown until a later save confirms the file |
| HashPool.Sequential | backend/app/services/file_hasher.py:383-395 | the plain loop records every job it takes once, takes all of them without a stop request, and says that it stopped exactly if some are left |
| HashPool.Pooled | backend/app/services/file_hasher.py:397-446 | for every order of starts, completions and stop requests: the jobs taken are the first ones, each is recorded once and got one progress index, at most `workers` are in flight; without a stop request all are taken |
| HashPool.SlotTaken | backend/app/services/file_hasher.py:401-406 | a started job always finds a free worker slot that no running job holds |
| HashPool.Deduplicate | backend/app/services/file_hasher.py:233-244 | each resolved path once, in the order of first appearance, and the unresolvable ones counted |
| HashPool.Gate | backend/app/services/file_hasher.py:275-316 | each distinct path looked at is gated, to be hashed or an error; a stop request ends the look |
| HashPool.HashPaths | backend/app/services/file_hasher.py:199-446 | without a stop request hashed, gated and errors add up to the distinct resolved paths and the unresolvable inputs, and the rows are determined; with one, the same holds of the part that was done |
| HashPool.OneOutcome | backend/app/services/file_hasher.py:199-446 | the pool equals the loop: there is one outcome whatever the number of workers and their order |
| HashLaws.OutcomeByPaths | backend/app/services/file_hasher.py:275-446 | a whole run hashes exactly the readable files whose stored size, time or hash is not up to date; these end with size, time and digest, no other row changes, and the counters are the sizes of these sets |
| HashLaws.SecondRunIsFree | backend/app/services/file_hasher.py:292-306 | a second run over unchanged files hashes nothing and changes no row |
| HashLaws.UniqueKeepsOrder | backend/app/services/file_hasher.py:233-244 | distinct paths keep the order of their first appearance |
| HashPool.EvaluatePool | backend/scripts/hevc_parallel_experiment.py:104-133 | for every completion order results come back in chunk order, and the call raises if and only if a chunk does; at most `workers` chunks are in flight |
| OngoingWatch.WatchList.Update | backend/app/services/ongoing_watch.py:14-46 | listed rows stop counting, missing ones start once, finished ones are deleted and counted |
| OngoingWatch.WatchList.Observe | backend/app/services/ongoing_watch.py:49-64 | only a larger id raises the maximum and, for a missing row, moves the deadline |
| OngoingWatch.WatchList.Remove | backend/app/services/ongoing_watch.py:67-73 | removes exactly that release |
| WatchRuns.RowsCountDown | backend/app/services/ongoing_watch.py:14-64 | over every history a missing row's deadline is 14 days after the later of the update at which it left the schedule and its last new maximum, and no other row has one |
| WatchRuns.DroppedOnlyWhenQuiet | backend/app/services/ongoing_watch.py:36-46 | a dropped release was on no readable schedule and grew by no new id in the last 14 days |
| WatchRuns.DroppedExactlyWhenOver | backend/app/services/ongoing_watch.py:36-46 | an update drops a watched release if and only if it does not list it, the release left the schedule at least 14 days ago with no listing or removal since, and its last growth is as old |
| WatchRuns.OmittedIsDropped | backend/app/services/ongoing_watch.py:30-46 | a watched release omitted 14 days ago, with no listing, removal or late growth since, is gone after any update that does not list it |
| WatchRuns.KnownIdsChangeNoDeadline | backend/app/services/ongoing_watch.py:49-64 | an observation of known ids, put anywhere into a history, changes no deadline and no drop of what follows |
| WatchLaws.HoldsLargestId | backend/app/services/ongoing_watch.py:49-64 | while a release stays watched its row holds the largest id seen since the row began |
| WatchLaws.GrowsExactlyWhen | backend/app/services/ongoing_watch.py:49-64 | so ids are a growth if and only if one of them is above 0 and above every id seen before |
| WatchLaws.UpdatedRow | backend/app/services/ongoing_watch.py:14-35 | what an update leaves of a listed row and of a missing one, field by field |
| WatchLaws.AliasIsLastNamed | backend/app/services/ongoing_watch.py:14-29 | the alias is the last non-empty one of the schedule |
| ReleaseList.LengthOfBoth | backend/app/services/hevc_bot.py:74-76 | lengths in UTF-16 code units add up |
| CodeUnits.LengthCountsUnits | backend/app/services/hevc_bot.py:74-76 | the length is the number of UTF-16 code units of the encoded text |
| CodeUnits.DecodeOfEncode | backend/app/services/hevc_bot.py:74-76 | that encoding can be decoded again for every text, and no unit is wider than 16 bits |
| ReleaseList.Truncate | backend/app/services/hevc_bot.py:79-95 | never over the limit, unchanged if it fits, otherwise the longest prefix that leaves room for the suffix |
| ReleaseList.LongestFitOnce | backend/app/services/hevc_bot.py:79-95 | that longest prefix is unique |
| ReleaseList.JoinFitting | backend/app/services/hevc_bot.py:734-746 | the longest run of whole lines that fits, with an ellipsis exactly if lines are left and it fits |
| ReleaseList.Split | backend/app/services/hevc_bot.py:651-682 | all rows in order, chunks with several rows fit, and no chunk could have taken the next row |
| ReleaseList.FewestMessages | backend/app/services/hevc_bot.py:669-682 | the greedy split uses the fewest messages of all order-preserving splits in which multi-row messages fit |
| ReleaseList.TextIsLines | backend/app/services/hevc_bot.py:651-682 | a message is the heading and then, row by row, an empty line and the row |
| TorrentCache.CacheStore.Lookup | backend/app/services/backoffice_torrent_cache.py:59-81 | returns the reusable entry if the fingerprint and the age allow it |
| TorrentCache.CacheStore.Remember | backend/app/services/backoffice_torrent_cache.py:83-120 | a reusable reading replaces the entry of its torrent, any other reading removes it |
| TorrentCache.EntryIsLatestReading | backend/app/services/backoffice_torrent_cache.py:83-120 | an entry is the latest reading of its torrent if that one is reusable; an older one never comes back |
| TorrentCache.LookupReturnsLatest | backend/app/services/backoffice_torrent_cache.py:59-120 | after any readings a payload is returned if and only if the latest one was reusable, had the same fingerprint and its age is in range |
| TorrentCache.ReusableExactlyWhen | backend/app/services/backoffice_torrent_cache.py:30-108 | a reading may be reused if and only if id, release and info hash are its torrent's and date, description and hash are those of the index |

## Assumptions

- Each transaction that takes the advisory lock is one step, as on PostgreSQL. The second preflight through the
  commit of the intent (`encoder_submission.py:297-334`) is one step; so is settling the reply after the POST.
  The loops of `reconcile` and of `claim_due` are also split into one step a row, which only adds interleavings.
- A connect or pool error means that nothing was delivered.
- File rows keep their release, version and path; a version and path belong to one file row
  (`uq_torrent_files_hash_path`) and rows are not deleted and created again under another id. Request ids, claim
  tokens and poll tokens are fresh. `submission_id` and `receipt_item_id`, and a token and its lease, are set together.
- What the disk, the catalogue and the encoder settings say (`Facts`, `Captured`, the sets of changed files, the
  preset snapshot) are parameters of the steps, free in every step. Saving a reply through `safe_json` is a
  parameter too, so the saved reply may be an abridged one.
- `external_job_ids` is a sorted list without duplicates; it is modelled as a set. Preset ids have no surrounding
  blanks, and resolving named presets gives the same ids back.

## Left out

- RepairReceipt.SettlementNeedsNoRepair: needs the saved reply to be the received one; an abridged reply may decide differently when read again.
- RunStatuses.UnknownWaitsForReceipt: says nothing of the notes and of the conflict flag of an unknown line.
- HonestEncoder.OneJobPerAutomaticSource: the honesty condition is stated on the entries of each answer, not derived from a model of the encoder's own program.
- HashPool.Pooled: a stop request is a free choice at every place where the program looks for one, not a time.
- HashPool.HashPaths: the times of the last check and the batching of commits are not modelled; `stopped` being false is not read as everything done.
- HashPool.EvaluatePool: that evaluating chunks separately equals evaluating all releases at once is not claimed.
- OngoingWatch.WatchList.Update: returns the retained releases as a set; their order, which is the database's, is not modelled.
- TorrentCache.CacheStore.Remember: the caller's rollback is not modelled.
- PollTracking.Observe: ids that are floats or containers never match; names, dates, progress and messages of a job are not kept.
- Fair paging of `reconcile`: rows settled from a receipt keep their old time, so no fairness is claimed.
- Exact paths in a partly settled batch: a recovery reads only the files still open, so a single one left is read as a single-file reply.
- Checks of `retry_of` and of the request digest on a replay: both only refuse earlier and change nothing.
- `plan_hash_checks`, `record_readiness`, `ensure_item_jobs`, the audit log and the texts shown to people.
- The backfill endpoint beyond registering files explicitly.
- `snapshot_archives`, `_archive_sequence_key` and the formatting of a single release row.
- HTTP, SQL, sessions, file stats, BLAKE3, UTF-8 decoding and dates themselves.
