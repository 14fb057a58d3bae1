# Arbora authority, log and contract verification

This project models the parts of Arbora whose guarantees come from interleavings,
loops and several functions together, and proves those guarantees for every run or
every input. Check it with `dafny verify dfyconfig.toml` (Dafny 4.11).

| Files | What they model |
|---|---|
| `CallState`, `CallInvariant`, `CallMachine`, `CallSafety`, `CallSteps`, `CallHandover`, `CallRevoke`, `CallTheorems`, `CallReceipts`, `CallDecisions`, `CallLeases`, `CallWitness`, `CallLateSend`, `CallRoundTrip` | the dispatch / cancel / finalize / reap / revoke race of browser-control calls |
| `WorkItemLease` | the millisecond lease a dispatched call claims |
| `Registration`, `RegistrationTheorems`, `RegistrationReach`, `RegistrationCalls` | catalog registrations behind a document pointer |
| `AttendedArm`, `AttendedArmTheorems`, `AttendedArmCalls` | single-use attended arms |
| `CanonicalJson`, `CanonicalPrinting`, `CanonicalTheorems`, `CanonicalReader`, `Sorting` | the canonical JSON of the browser-control protocol |
| `HostLog`, `HostLogLaws`, `HostLogSink`, `HostLogRetention`, `HostLogRun`, `HostLogTheorems`, `HostLogWritten`, `HostLogAnswers`, `HostLogWitness` | the rotating host log, its reader, and resumable replay |
| `ActionPolicy`, `ActionPolicyVerdict`, `ActionPolicyScan`, `ActionPolicyTheorems`, `ActionPolicyWitness` | the verdicts of the action policy, and its sliding windows over its own audit ledger |
| `ClientPool`, `ClientPoolTheorems`, `ClientPoolCalls` | the check / connect / re-check client pool |
| `ToolTask`, `ToolTaskTheorems`, `ToolTaskCalls` | the lease-fenced tool-task worker |
| `SchemaJson`, `SchemaHoist`, `SchemaHoistTheorems`, `SchemaKeywords`, `HttpComponents` | hoisting schemas and HTTP bodies into components |
| `SchemaCurated`, `SchemaMeaning`, `SchemaMeaningTheorems`, `SchemaMeaningBare` | definitions as named components, and what the published schema means |
| `SchemaRefs`, `SchemaRefTheorems`, `SchemaRefShape` | JSON pointers and `$ref` expansion |
| `Manifest` | provider manifest framing and generation matching |

## How concurrency is modelled

A coroutine is a thread with a program counter that names the `await` it is
suspended at. One step runs the code from that `await` to the next one, so an
interleaving of coroutines is a sequence of steps. Locks are fields. The durable
authorities are maps with atomic read, create-if-absent and compare-and-set.

The call machine over-approximates its surroundings, so every run of the service is
a run of the model:

- any `await` may raise, time out or be interrupted by `CancelledError`, and a crash
  may end every coroutine at any step, keeping the durable rows;
- the engine may move a WorkItem forward at any time; extra reapers may start
  whenever a call is marked timed out; duplicate and replayed requests start at will;
- a send either delivers `control.call` and sets `dispatched` in one step, or does
  not deliver;
- hashes, digests and references are injective, admission references never repeat;
- the browser may say anything; `unsolicited` marks a call that it answered or
  acknowledged before the call was sent, and the theorems name that case.

## Where the code does less than its description

Each item names a run or an input that shows it and the exact condition.

- `CallWitness.StaleReconcile`: `reconcile_call` does not look at `terminal_future`
  again after it awaited the lease, so it can answer `dispatched` for a call whose
  stored receipt is `cancelled`: exactly when no browser result is in
  (`CallWitness.ReconcileMissesExactly`).
- `CallWitness.UnsolicitedAnswer`: an answer to a call that was never sent stores a
  `succeeded` receipt while the WorkItem is still open;
  `CallTheorems.OpenStoreExactly` gives the condition.
- `CallLateSend.SentAfterRevocation`: after such an answer `revoke_lease` can return
  before the call is sent under the revoked lease. `CallTheorems.RevocationBarrier`
  shows that it takes such an answer.
- `RegistrationTheorems.EarlyRetirementBarsNothing`: a retirement that finds no
  registration returns normally; it bars later matches if and only if the document
  belongs to another authority (`RegistrationReach.EarlyRetirementBarsExactly`).
- `HostLogWitness.OwnReaderRefuses`: the sink never checks tenant names, generation
  names or the number of scopes, which the reader does; one such line makes every
  read and every later opening fail. `HostLogRetention.ReaderAcceptsExactly` gives
  the condition.
- `ActionPolicyWitness.RateLimitOverrun`, `ActionPolicyWitness.BlastRadiusOverrun`:
  the ledger scan is cut at 500 rows of a kind, denied ones included, and then both
  limits can be exceeded. `ActionPolicyScan.RateRightExactly` and
  `ActionPolicyScan.BlastRightExactly` say when the cut can change a verdict.
- `SchemaRefTheorems.DoubleSlashDiffers`: `_pointer` strips all leading slashes;
  `SchemaRefTheorems.TokensAgreeExactly` gives the condition.
- `SchemaCurated.AliasOverwritesItsTarget`, `SchemaMeaningBare.OrderDecides`: a
  definition that is only an alias replaces the component it points to by a pointer to
  itself if it comes later, and the meaning is lost. `SchemaCurated.SelfLinkExactly`
  and `SchemaMeaningTheorems.CuratedMeansExactly` give the conditions.
- `ClientPoolTheorems.SecondLoopLosesTransport`,
  `ClientPoolTheorems.CloseElsewhereLosesTransport`: a pool used from two event loops
  can drop a transport without closing it, on reconnecting and on closing;
  `ClientPoolTheorems.LostExactly` gives the condition.

## Model

| member | source | states |
|---|---|---|
| CallTheorems.AtMostOnce | arbora/browser_control/browser_control_dispatch.py:47-71 | in every run, with duplicates, replays, ambiguous fence creation, aborts and crashes, at most one message is delivered per request digest |
| CallTheorems.RevocationBarrier | arbora/browser_control/browser_control_lease.py:87-119 | after revoke_lease returned normally, a message delivered under that lease belongs to a call the browser answered before it was sent |
| CallLateSend.SentAfterRevocation | arbora/browser_control/browser_control_lease.py:87-119 | a reachable state where a revocation has returned and nothing was sent, and two steps later a message leaves under that lease |
| CallTheorems.RevokedMeansSilent | arbora/browser_control/browser_control_cancellation.py:121-148 | with a browser that only answers calls it was sent, no message is ever delivered under a revoked lease again |
| CallTheorems.CancelledMeansNoEffect | arbora/browser_control/browser_control_cancellation.py:121-163 | after a `cancelled` receipt, a message of that digest, earlier or later, exists only if the browser acknowledged effect `none` |
| CallTheorems.TerminalIsFinal | arbora/browser_control/browser_control_outcome.py:200-221 | a terminal receipt is set at most once and survives every later step and crash |
| CallTheorems.LaterAnswersAgree | arbora/browser_control/browser_control_outcome.py:34-66 | once a receipt is stored, every coroutine of the call that returns through finalization or the cache, already running or started later, returns exactly that receipt |
| CallTheorems.TerminalAfterWorkItem | arbora/browser_control/browser_control_outcome.py:137-174 | a receipt is stored only over a terminal WorkItem of this call's own fence, or for an unsolicited answer |
| CallTheorems.OpenStoreExactly | arbora/browser_control/browser_control_outcome.py:137-198 | in every reachable state: the receipt about to be stored stands over an open WorkItem if and only if it was open, the call holds no claim and the outcome is no cancellation, and that takes an answer to a call that was not sent |
| CallTheorems.CacheIsTerminal | arbora/browser_control/browser_control_outcome.py:200-221 | whatever the bounded completed cache answers is the terminal receipt of the call that owns the fence |
| CallTheorems.SendAuthority | arbora/browser_control/browser_control_dispatch.py:120-217 | every delivered call had an exact-digest policy receipt, a matching confirmation if it mutates, an open current channel, and a clock before every expiry that bounds it |
| CallTheorems.LogOnlyGrows | arbora/browser_control/browser_control_dispatch.py:185-217 | delivered messages and finished revocations stay on record |
| CallReceipts.ReceiptsTellTheTruth | arbora/browser_control/browser_control_dispatch.py:237-251 | in every run, a receipt stored or returned says what the browser said: a browser error is a failure without effect that it reported with this code, a value is one it answered with, a success without a value is an acknowledged cancellation that was committed, a cancellation has no effect |
| CallReceipts.RunGrounded | arbora/browser_control/browser_control_outcome.py:34-66 | every call of every run holds only receipts, results and pending outcomes that the messages so far support |
| CallReceipts.AnswerIsTaken | arbora/browser_control/browser_control_dispatch.py:219-251 | the other way round: a coroutine that looks at the first answer finalizes with exactly what it says |
| CallReceipts.LateAnswerIsTaken | arbora/browser_control/browser_control_channel.py:244-257 | an answer to a call marked as timed out is finalized as that answer, even after another one |
| CallReceipts.AcknowledgementIsTaken | arbora/browser_control/browser_control_cancellation.py:121-163 | an acknowledged cancellation ends as committed, cancelled or unknown, as the browser put its effect |
| CallReceipts.StoredAsReported | arbora/browser_control/browser_control_outcome.py:200-221 | the receipt that is stored, returned and cached is the one that was reported |
| CallDecisions.OwnerGoesOn | arbora/browser_control/browser_control_dispatch.py:47-97 | in every reachable state: a call goes on past the fence if and only if the row names its own admission, even when the reply to an earlier attempt was lost |
| CallDecisions.DeniedAtOnce | arbora/browser_control/browser_control_dispatch.py:32-71 | a call that the policy did not allow for exactly its digest is denied without effect, any other can submit its fence |
| CallDecisions.SendsExactly | arbora/browser_control/browser_control_dispatch.py:185-217 | in every reachable state: a call is sent under its locks if and only if it is not flagged and has no receipt, its channel is the open one and its deadline lies ahead; what becomes of the others |
| CallDecisions.SendFailureIsReported | arbora/browser_control/browser_control_dispatch.py:99-217 | a send that raises or is interrupted delivers nothing, frees both locks, and leaves its call to a report or an abort task |
| CallDecisions.EngineDecides | arbora/browser_control/browser_control_outcome.py:137-198 | an outcome is stored unless the engine was asked and refused it; then it is unknown, and the WorkItem stays as it was |
| CallDecisions.RemembersRecent | arbora/browser_control/browser_control_outcome.py:200-221 | the cache keeps exactly the latest 256 receipts, one for a digest |
| CallDecisions.CachedIsReturned | arbora/browser_control/browser_control_cancellation.py:80-110 | a cancellation or reconciliation of a finished call returns its cached receipt, any other turns to the active call |
| CallDecisions.RevocationScans | arbora/browser_control/browser_control_lease.py:105-119 | a revocation cancels exactly the active calls of its lease |
| CallLeases.LeasesWereIssued | arbora/browser_control/browser_control_lease.py:38-56 | in every run, every lease was issued for a requested time, and ends at the first of that time, five minutes, fifteen minutes and the end of its arm |
| CallLeases.EndedLeaseStays | arbora/browser_control/browser_control_lease.py:87-119 | a lease never changes its terms, and a revoked or expired one never changes again |
| CallRevoke.StepKeeps | arbora/browser_control/browser_control_dispatch.py:31-252 | every step of execute, cancel, reconcile, finalize, reap, revoke, browser and crash keeps the joint invariant of calls, fences, registry, cache, sends and leases |
| CallInvariant.ApplyKeeps | arbora/browser_control/browser_control_cancellation.py:26-163 | one step of one coroutine keeps its call's invariant, changes no lock of another, and never climbs back before the send |
| CallHandover.DeliverKeeps | arbora/browser_control/browser_control_dispatch.py:185-217 | the send itself keeps the invariant: no coroutine holds or has stored a cancellation |
| CallHandover.RegisterKeeps | arbora/browser_control/browser_control_dispatch.py:47-71 | only the owner of the fence enters the active calls, so nobody is displaced |
| CallRevoke.JoinHalts | arbora/browser_control/browser_control_lease.py:105-119 | a cancellation that revoke_lease waited for has halted its call or found it sent |
| CallRevoke.StoreKeeps | arbora/browser_control/browser_control_outcome.py:200-221 | storing a receipt needs a call without one and keeps the tables consistent |
| CallWitness.StaleReconcile | arbora/browser_control/browser_control_cancellation.py:93-110 | a reachable state where a reconciliation answered `dispatched` for a cancelled call |
| CallWitness.ReconcileMissesExactly | arbora/browser_control/browser_control_cancellation.py:93-110 | a reconciliation misses a stored receipt if and only if no browser result is in |
| CallWitness.MessageDelivered | arbora/browser_control/browser_control_dispatch.py:31-217 | a complete run from the fence through lease read, claim, locks and send that delivers one message, so the statements about delivered messages are not empty |
| CallRoundTrip.RoundTrip | arbora/browser_control/browser_control_dispatch.py:31-251 | for every browser answer, a complete run of a mutating call: confirmed, sent once, answered, its WorkItem closed accordingly, and exactly that answer stored, returned and cached |
| CallWitness.UnsolicitedAnswer | arbora/browser_control/browser_control_channel.py:244-257 | a reachable state with a `succeeded` receipt over an open WorkItem and nothing sent |
| WorkItemLease.LeaseWithinAuthority | arbora/work_items.py:125-148 | the rounded lease lasts at least 1 ms and never ends after the authority deadline when 1 ms remains |
| WorkItemLease.LeaseIsLongEnough | arbora/work_items.py:125-148 | rounding takes less than a millisecond off the lease and less than two off its end |
| WorkItemLease.LeaseOutlivesShortAuthority | arbora/browser_control/browser_control_dispatch.py:126-135 | with less than a millisecond left the rounded lease would outlive the authority, so the guard is needed |
| WorkItemLease.ClaimedLeaseIsCovered | arbora/browser_control/browser_control_dispatch.py:125-147 | every claim of the call machine is for a lease inside lease, hard, arm and token expiry |
| RegistrationTheorems.HistoryIsForward | arbora/browser_control/browser_control_registration.py:55-182 | in every interleaving no registration is lost, changed or taken back from `retired`, and no document changes its authority |
| RegistrationTheorems.PointerNamesItsBinding | arbora/browser_control/browser_control_registration.py:111-182 | the document pointer always names the registration of exactly the binding it stores |
| RegistrationTheorems.NoMatchAfterRetirement | arbora/browser_control/browser_control_registration.py:289-321 | once a binding's registration is retired, no match call turns true for it |
| RegistrationTheorems.RegisteredMeans | arbora/browser_control/browser_control_registration.py:185-251 | a normal return has activated its own binding and retired its predecessor for good |
| RegistrationTheorems.RetirementBars | arbora/browser_control/browser_control_registration.py:254-286 | a retirement that found its registration bars every later match |
| RegistrationTheorems.EarlyRetirementBarsNothing | arbora/browser_control/browser_control_registration.py:82-108 | a run where a retirement returned normally, found nothing, and the binding matches afterwards |
| RegistrationReach.CanMatchExactly | arbora/browser_control/browser_control_registration.py:185-321 | in every reachable state: some continuation makes a later match call true if and only if the registration is absent or the binding's own and not retired, and the document is absent or of the binding's own authority |
| RegistrationReach.EarlyRetirementBarsExactly | arbora/browser_control/browser_control_registration.py:82-108 | a retirement that finds no registration bars later matches if and only if the document belongs to another authority |
| RegistrationCalls.RegisterAlone | arbora/browser_control/browser_control_registration.py:185-251 | an undisturbed registration succeeds if and only if its node is acceptable and the document can be moved to it; then the document names it, it is published, its predecessor retired, and nothing else changed |
| RegistrationCalls.RetireAlone | arbora/browser_control/browser_control_registration.py:254-286 | an undisturbed retirement retires the registration of its binding, if it is there, and the predecessor that the document names while it stands at the binding, and nothing else |
| RegistrationCalls.MatchAlone | arbora/browser_control/browser_control_registration.py:289-321 | an undisturbed match is true if and only if the document names the binding and its registration is published |
| RegistrationTheorems.MatchWitness | arbora/browser_control/browser_control_registration.py:289-321 | a match is true only if the pointer stood at the binding at one moment of the call and the registration was published at a later one |
| AttendedArmTheorems.SingleUse | arbora/browser_control/browser_control_attended.py:42-126 | with any number of racing workers an arm is finalized at most once and consumed at most once |
| AttendedArmTheorems.StatusForward | arbora/browser_control/browser_control_attended.py:74-89 | the status only moves forward, revoked and expired are final, bindings never change |
| AttendedArmTheorems.FinalizedFirst | arbora/browser_control/browser_control_attended.py:104-126 | every consumption comes after the finalization of its arm |
| AttendedArmTheorems.ConsumedMeans | arbora/browser_control/browser_control_attended.py:42-58 | a normal consumption holds an exactly bound receipt taken before its expiry |
| AttendedArmTheorems.NothingAfterTheEnd | arbora/browser_control/browser_control_attended.py:154-173 | once an arm is revoked or expired no consumption and no match of it succeeds |
| AttendedArmTheorems.RevocationEnds | arbora/browser_control/browser_control_attended.py:176-204 | a revocation that returns normally has ended the arm with the status it reports, for good |
| AttendedArmCalls.FinalizeAlone | arbora/browser_control/browser_control_attended.py:104-151 | an undisturbed finalization succeeds if and only if the grant is inside its window and the arm is new or holds just this grant |
| AttendedArmCalls.ConsumeAlone | arbora/browser_control/browser_control_attended.py:42-58 | an undisturbed consumption succeeds if and only if the arm is active for exactly this binding and unexpired; after its expiry it is marked expired |
| AttendedArmCalls.MatchAlone | arbora/browser_control/browser_control_attended.py:154-173 | an undisturbed match is true if and only if the arm was consumed for exactly this binding and is unexpired |
| AttendedArmCalls.RevokeAlone | arbora/browser_control/browser_control_attended.py:176-204 | an undisturbed revocation revokes an active or consumed arm of the binding, and reports an ended one as it is |
| AttendedArmCalls.FinalizedInsideTheWindow | arbora/browser_control/browser_control_attended.py:104-126 | in every run an arm was finalized only by a call whose grant was inside its window |
| AttendedArmCalls.CanConsumeExactly | arbora/browser_control/browser_control_attended.py:42-126 | in every reachable state: some continuation consumes the arm if and only if it is unexpired, and active for the binding or not finalized yet |
| AttendedArmTheorems.MatchWitness | arbora/browser_control/browser_control_attended.py:154-173 | a match is true only if the arm was consumed, exactly bound and unexpired at one moment of the call |
| CanonicalTheorems.SameTextExactly | arbora/browser_control/browser_control_common.py:40-97 | two accepted values print the same text if and only if they are equal up to key order and list or tuple |
| CanonicalTheorems.AcceptedExactly | arbora/browser_control/browser_control_common.py:40-83 | accepted are exactly the values of the closed subset, at every depth |
| CanonicalTheorems.CanonicalSame | arbora/browser_control/browser_control_common.py:40-83 | canonicalization identifies exactly the values that are equal up to key order and list or tuple |
| CanonicalReader.TextDenotes | arbora/browser_control/browser_control_common.py:40-97 | read back by a reader of JSON, the text denotes the value: the same truth values, integers and code points, items in order, each key with its own value, keys ascending in UTF-16 code units |
| CanonicalReader.ReadsValue | arbora/browser_control/browser_control_common.py:86-97 | the reader gives back whatever was printed, and stops where it ended |
| CanonicalReader.CanonicalDenotes | arbora/browser_control/browser_control_common.py:40-83 | the canonical value is the value, with the keys of every object ascending in UTF-16 code units |
| CanonicalReader.EscapeIsShortest | arbora/browser_control/browser_control_common.py:86-97 | no JSON spelling of a character is shorter than the printed one, as section 3.2.2.2 of RFC 8785 asks |
| CanonicalPrinting.PrintInjective | arbora/browser_control/browser_control_common.py:86-99 | the compact JSON text determines the canonical value |
| CanonicalPrinting.SameValue | arbora/browser_control/browser_control_common.py:86-99 | a printed value followed by a delimiter can be read back in only one way |
| CanonicalTheorems.ByteOrderIsUnitOrder | arbora/browser_control/browser_control_common.py:78-83 | sorting by UTF-16BE bytes is sorting by UTF-16 code units, as section 3.2.3 of RFC 8785 orders properties |
| CanonicalTheorems.CodePointOrderExactly | arbora/browser_control/browser_control_common.py:78-83 | that order is Python's own order of strings unless the first difference has one character above the surrogates below 65536 and one beyond it |
| HostLogSink.WorkspaceLogSink.Open | arbora/agent_host/log_sink.py:37-62 | opening succeeds exactly on a valid configuration over a readable log without this generation |
| HostLogSink.WorkspaceLogSink.Rotate | arbora/agent_host/log_sink.py:106-123 | the rename loop, with missing files and a failure at any rename, yields the shifted files |
| HostLogSink.WorkspaceLogSink.Emit | arbora/agent_host/log_sink.py:148-199 | one emit, failures included, is the specified change of files, sequence numbers and failed flag |
| HostLogWritten.WrittenExactly | arbora/agent_host/log_sink.py:148-199 | an emit is written if and only if the sink is open and sound, the tenant is known or among the first 64, the line fits, and nothing fails |
| HostLogWritten.LineTells | arbora/agent_host/log_sink.py:148-199 | then the last line is whole and has the tenant, request, message and stamp of the emit, the names of the sink, and the next number of the tenant |
| HostLogWritten.FailureMeans | arbora/agent_host/log_sink.py:148-199 | a refused emit changes nothing, and a failure closes the log for good without using up a number |
| HostLogSink.WorkspaceLogSink.Read | arbora/agent_host/log_sink.py:221-272 | the selection loop answers exactly the filtered and sliced stream, its cursor, its gap flag, or the right refusal |
| HostLogAnswers.DeniedExactly | arbora/agent_host/log_sink.py:221-246 | exactly which reads are refused |
| HostLogAnswers.AnswersExactly | arbora/agent_host/log_sink.py:221-272 | any other read hands out the oldest records held, or those after its cursor, up to the limit, or reports a gap if and only if the record at its cursor is gone |
| HostLogAnswers.OpensExactly | arbora/agent_host/log_sink.py:37-62 | a sink opens if and only if its name is new and not empty, its bound is between 1 KiB and 10 MiB, and the log is readable |
| HostLogSink.ReadRetained | arbora/agent_host/log_replay.py:62-94 | the reader's incremental checks accept exactly the logs with bounded files, whole decodable lines, gap-free scopes and at most 4096 scopes |
| HostLogSink.Select | arbora/agent_host/log_sink.py:247-268 | found, selected, last and gap after the loop, in terms of the tenant's stream |
| HostLogLaws.RotationDrops | arbora/agent_host/log_sink.py:106-123 | wherever the renames stop and whatever files are missing, only the oldest file is dropped, and only if another takes its place |
| HostLogRetention.EmitConserves | arbora/agent_host/log_sink.py:148-199 | an emit only appends its line and only the oldest lines go |
| HostLogRetention.EmitFits | arbora/agent_host/log_sink.py:175-184 | no file ever exceeds the largest max_bytes in use |
| HostLogRetention.ReaderAcceptsExactly | arbora/agent_host/log_replay.py:62-141 | the reader accepts what the writer left if and only if no write was cut short and the names, numbers and scopes the writer does not check are in bounds |
| HostLogWitness.OwnReaderRefuses | arbora/agent_host/log_sink.py:148-199 | for every unnamed tenant or unreadable generation name, a run of opening and one successful emit after which every read is refused and no sink can be opened again |
| HostLogTheorems.RetainedSuffix | arbora/agent_host/log_sink.py:148-199 | over the whole life of the log, with restarts, the files hold exactly a suffix of all written records, gap-free and without duplicates |
| HostLogTheorems.ReaderAgreesWithWriter | arbora/agent_host/log_replay.py:62-141 | in every reachable state of a healthy sink the reader refuses only for what the writer leaves unchecked |
| HostLogTheorems.ReplayIsContiguous | arbora/agent_host/log_access.py:233-277 | all that one reference was ever served is one contiguous, duplicate-free piece of the tenant's stream |
| HostLogTheorems.NextReadExact | arbora/agent_host/log_sink.py:247-272 | the next read hands out exactly the following records, or reports a retention gap exactly when the anchor is gone |
| HostLogWritten.ServedWasEmitted | arbora/agent_host/log_access.py:233-277 | in every run, whatever a reference was served is of its tenant and generations, and an earlier emit wrote it with exactly these fields |
| HostLogWritten.AnsweredIsOnRecord | arbora/agent_host/log_sink.py:148-199 | every number that was answered stands for a record with the fields of its emit |
| HostLogTheorems.GapIsExact | arbora/agent_host/log_sink.py:253-261 | the gap flag is set exactly when there was no cursor and a listed generation still present lost its beginning |
| HostLogRun.ReadContinues | arbora/agent_host/log_access.py:250-277 | a read under way continues what its reference was served, whatever was emitted or rotated meanwhile |
| ActionPolicy.Policy.Decide | arbora/access/action_policy.py:913-1051 | the decision and the audit rows it leaves, with failed audits and receipts |
| ActionPolicyVerdict.AllowedExactly | arbora/access/action_policy.py:913-1051 | allowed if and only if nothing raised, the request was verified, its tier is not forbidden, audit and receipt stand, and an approval was granted or the tier is automatic, within both limits, not averse and in the window |
| ActionPolicyVerdict.QueuedExactly | arbora/access/action_policy.py:956-1046 | queued if and only if an approval could be filed and the tier, the blast radius, the aversion or the window asks for one; never if unverified, forbidden or past the rate limit |
| ActionPolicyVerdict.DeniedExactly | arbora/access/action_policy.py:967-1022 | denied if and only if unverified, forbidden, or past the rate limit without an approval |
| ActionPolicyVerdict.ApprovalIsRequired | arbora/access/action_policy.py:967-981 | a tier that requires approval answers without one only that it is queued or unavailable |
| ActionPolicyVerdict.AnswerIsRecorded | arbora/access/action_policy.py:940-954 | the row in the ledger is about this request and says what was answered |
| ActionPolicyVerdict.WithdrawnIsRecorded | arbora/access/action_policy.py:940-954 | a permission without its receipt is withdrawn, and both rows say so |
| ActionPolicyTheorems.RateLimitHolds | arbora/access/action_policy.py:734-754 | as long as no cut scan can hide it, every window of the rule's length has at most `max` rows of decisions that the rule allowed for one kind and target |
| ActionPolicyTheorems.RateAnswersHold | arbora/access/action_policy.py:734-754 | and at most `max` allowing answers |
| ActionPolicyTheorems.BlastRadiusHolds | arbora/access/action_policy.py:756-775 | under one cap, as long as no cut scan can hide it, every window has at most `max_targets` targets of a kind among the rows its rules allowed |
| ActionPolicyTheorems.BlastAnswersHold | arbora/access/action_policy.py:756-775 | and among the allowing answers |
| ActionPolicyTheorems.AllowedIsAudited | arbora/access/action_policy.py:940-954 | an allowing answer always has its own audit row and receipt |
| ActionPolicyScan.ScanCompleteExactly | arbora/access/action_policy.py:709-732 | the ledger scan is sure to be complete exactly up to 500 rows of the kind |
| ActionPolicyScan.RateRightExactly | arbora/access/action_policy.py:722-754 | every possible scan gives the right rate verdict if and only if the scan is complete, the limit is not reached, or too few other rows exist to crowd out `max` recent ones |
| ActionPolicyScan.BlastRightExactly | arbora/access/action_policy.py:722-775 | every possible scan gives the right blast verdict if and only if the scan is complete, the cap is not passed, or no choice of targets within the cap leaves 500 rows |
| ActionPolicyWitness.RateLimitOverrun | arbora/access/action_policy.py:722-754 | a history of one allowed and at least 500 denied decisions after which a window of a limit of one holds two |
| ActionPolicyWitness.BlastRadiusOverrun | arbora/access/action_policy.py:722-775 | such a history for the cap on targets |
| ClientPoolTheorems.ServedOwnTenant | arbora/epistemic.py:312-344 | whoever is served gets a transport that was connected for its own graph and tenant |
| ClientPoolTheorems.TenantIsFixed | arbora/epistemic.py:346-353 | until the pool is closed a graph keeps the tenant of its first use |
| ClientPoolCalls.ServedAlone | arbora/epistemic.py:312-344 | in every state, a call that may use the pool and is not disturbed is served the transport pooled for its loop, or its own fresh one, which then is pooled |
| ClientPoolTheorems.NothingLost | arbora/epistemic.py:312-344 | on one loop every opened transport is pooled, about to be closed by one call, or closed, and none is closed twice |
| ClientPoolTheorems.AllClosedOnce | arbora/epistemic.py:387-404 | after close and the end of pending calls exactly the opened transports have been closed, each once |
| ClientPoolTheorems.ConnectLosesExactly | arbora/epistemic.py:321-344 | a finished connect loses a pooled transport if and only if the binding check passes and the graph is pooled for another loop |
| ClientPoolTheorems.CloseLosesExactly | arbora/epistemic.py:387-404 | the first close loses one if and only if some graph is pooled for another loop |
| ClientPoolTheorems.LostExactly | arbora/epistemic.py:312-404 | over every run on any number of loops a transport is lost if and only if one of these two steps was taken for it |
| ClientPoolTheorems.ClosedUnlessDropped | arbora/epistemic.py:387-404 | after close and the end of pending calls, on any number of loops, an opened transport is closed if and only if no step lost it |
| ClientPoolTheorems.SecondLoopLosesTransport | arbora/epistemic.py:332-339 | a run on two loops that drops a transport unclosed |
| ClientPoolTheorems.CloseElsewhereLosesTransport | arbora/epistemic.py:387-404 | a run on two loops whose close leaves a transport unclosed |
| ToolTaskTheorems.AcknowledgedIsTerminal | arbora/a2a/tool_task.py:300-318 | a run is acknowledged only when the WorkItem is terminal |
| ToolTaskCalls.StartedWasAdmitted | arbora/a2a/tool_task.py:255-312 | in every run, whatever claimed, executed or settled had looked at an open WorkItem of its own payload and tenant, no later than its deadline |
| ToolTaskCalls.FencedExactly | arbora/a2a/tool_task.py:273-318 | at every check and commit a run is fenced if and only if its claim is lost, and then changes nothing |
| ToolTaskCalls.RunsToCommit | arbora/a2a/tool_task.py:300-318 | an admitted run that is not disturbed commits exactly the result it was given and is acknowledged |
| ToolTaskTheorems.CommitsAreProven | arbora/a2a/tool_task.py:273-297 | at most one terminal result is written, and a success is a `completed` result bound to the carrier and its matching request |
| ToolTaskTheorems.WrittenUnderClaim | arbora/a2a/tool_task.py:273-297 | every result in a run was written at a moment when its worker held the current claim, so never by a worker that had lost it |
| ToolTaskTheorems.RefusalHadNoEffect | arbora/a2a/tool_task.py:231-252 | a refusal committed without a result proves that execution never started in that run |
| ToolTaskTheorems.OnlySettledRunsWrite | arbora/a2a/tool_task.py:273-318 | a finished run has written a result if and only if its outcome is completed, failed or refused |
| SchemaHoist.Components.SharedSchema | scripts/gen_api.py:195-201 | the recursive hoisting returns the link and stores exactly the bodies, leaving the rest of the table alone |
| SchemaHoist.Components.MapSchemaChildren | scripts/gen_api.py:208-234 | every keyword group is treated at its own places and nothing else changes |
| SchemaKeywords.BodiesHoldNoSchemas | scripts/gen_api.py:195-234 | by the names of the keywords: a stored body has the keys of its schema, no schema left inside at any of them, and everything else unchanged |
| SchemaKeywords.NoDefinitionReferenceLeft | scripts/gen_api.py:154-192 | at none of them a reference to a definition of the schema is left |
| SchemaKeywords.RefusedExactly | scripts/gen_api.py:154-192 | curation raises if and only if `$defs` is no object, a definition cannot be expanded, or some part names a scope of its own or refers into the document to something that is no definition |
| SchemaHoistTheorems.InlineRestores | scripts/gen_api.py:195-234 | putting the components back restores the schema if and only if it had no references of its own into the table |
| SchemaHoistTheorems.SharedSchemaRestores | scripts/gen_api.py:195-201 | what one call leaves behind is enough to restore its argument |
| SchemaHoistTheorems.LaterTablesAgree | scripts/gen_api.py:195-201 | in any later table the links still mean the same bodies |
| SchemaCurated.CurateSchema | scripts/gen_api.py:170-192 | in place: the definitions stored in their order, the rest hoisted, the result with a pointer per definition; where it raises the table is untouched |
| SchemaCurated.DefinitionsKeptExactly | scripts/gen_api.py:170-192 | for every schema, recursive ones included: all definitions keep their components if and only if those with the same expansion are the same once rewritten |
| SchemaCurated.SelfLinkExactly | scripts/gen_api.py:170-192 | a component ends as a pointer to itself if and only if the last definition with its expansion is a bare reference to one with that expansion |
| SchemaCurated.AliasOverwritesItsTarget | scripts/gen_api.py:170-192 | a concrete schema whose alias definition replaces its target by a pointer to itself |
| SchemaMeaning.FollowShared | scripts/gen_api.py:195-234 | following the table, a hoisted schema means what it meant before |
| SchemaMeaning.FollowsByShape | scripts/gen_api.py:154-192 | what a published value means, rule by rule: item by item, key by key, and at a reference what it points to with the siblings first |
| SchemaMeaningTheorems.RewrittenMeans | scripts/gen_api.py:154-167 | if every component means its definition, a rewritten part means its expansion |
| SchemaMeaningTheorems.CuratedMeansExactly | scripts/gen_api.py:170-192 | the published schema, followed through the final table, is the expansion of the schema if and only if the last definitions of the expansions refer to each other without a circle |
| SchemaMeaningTheorems.NothingElseIsMeant | scripts/gen_api.py:170-192 | whenever it can be followed to the end it is that expansion |
| SchemaMeaningTheorems.NoDefinitionsExactly | scripts/gen_api.py:184-192 | without definitions the same holds if and only if there is no empty `$defs`, which is dropped |
| SchemaMeaningBare.BareMeansExactly | scripts/gen_api.py:170-192 | with references that stand alone: the meaning is kept if and only if for no expansion the last definition is a bare reference |
| SchemaMeaningBare.OrderDecides | scripts/gen_api.py:170-192 | one schema, whose meaning is lost with the alias last and kept with the alias first |
| HttpComponents.ShareComponents | scripts/gen_api.py:237-257 | in place, exactly the repeated bodies and responses become references and exactly these become components |
| HttpComponents.DereferenceRestores | scripts/gen_api.py:245-257 | dereferencing restores a place if and only if it did not itself refer, unshared, to a component |
| SchemaRefs.FindPointer | arbora/client/_schema.py:11-20 | the token loop of _pointer finds what the walk over the tokens finds |
| SchemaRefTheorems.DecodeIsUnescape | arbora/client/_schema.py:15-16 | the two replacements decode a token as section 4 of RFC 6901 requires |
| SchemaRefTheorems.TokensAgreeExactly | arbora/client/_schema.py:11-20 | a reference splits as section 3 of RFC 6901 says if and only if it does not start with two slashes |
| SchemaRefTheorems.PointerEvaluates | arbora/client/_schema.py:11-20 | what _pointer finds is what RFC 6901 evaluation finds, apart from that case |
| SchemaRefTheorems.FollowedExactly | arbora/client/_schema.py:11-41 | a reference is followed if and only if it is a string that starts with `#/`; apart from that case it is found if and only if RFC 6901 finds it without going through an array, and is the same |
| SchemaRefTheorems.SplitJoins | arbora/client/_schema.py:15 | the tokens hold no slash, and joined with slashes they are the pointer |
| SchemaRefTheorems.DoubleSlashDiffers | arbora/client/_schema.py:11-20 | a document and a reference with two slashes where they differ |
| SchemaRefTheorems.NoRefsLeft | arbora/client/_schema.py:23-46 | without a reference cycle no `$ref` is left in an expansion |
| SchemaRefTheorems.ExpandsFully | arbora/client/_schema.py:23-46 | acyclic references to objects expand successfully and completely |
| SchemaRefShape.ExpandsByShape | arbora/client/_schema.py:23-46 | and key by key: each sibling of a reference as it expands, every other key from the object referred to, no key else; arrays item by item, other values unchanged |
| SchemaRefShape.RaisesExactly | arbora/client/_schema.py:23-46 | for every value, circular ones included, exactly when an expansion raises |
| SchemaRefShape.CircularIsKept | arbora/client/_schema.py:39-40 | a reference that is being followed already stays as it is, siblings included |
| SchemaRefTheorems.NothingToExpand | arbora/client/_schema.py:23-32 | a value without references expands to itself |
| SchemaRefShape.SeenIrrelevant | arbora/client/_schema.py:35-46 | without a cycle the references already followed make no difference to an expansion |
| Manifest.BuildAssetManifest | arbora/core/provider_materialization.py:545-589 | the loop, its bounds and its refusals yield the sorted manifest of the selected files |
| Manifest.RefusedExactly | arbora/core/provider_materialization.py:545-579 | refused if and only if a file is unsafe, the selected files exceed 128 MiB, or none of them is required |
| Manifest.ListedExactly | arbora/core/provider_materialization.py:578-589 | otherwise exactly the selected files are listed, ascending by path, with their count and bytes |
| Manifest.FrameReads | arbora/core/provider_materialization.py:438-448 | the frame of an entry reads back as its path, mode, size and digest |
| Manifest.FramesDetermineEntries | arbora/core/provider_materialization.py:438-448 | the bytes fed to the content digest decode to one list of entries only |
| Manifest.ScanOrderIsIrrelevant | arbora/core/provider_materialization.py:545-589 | the manifest, digest included, does not depend on the directory scan order |
| Manifest.PathOrder | arbora/core/provider_materialization.py:578 | sorting paths by their UTF-8 bytes is sorting them by code points, as the source does |
| Manifest.ResolvedExactly | arbora/core/provider_materialization.py:663-711 | a generation is returned if and only if the marker is current and it holds exactly the source's paths, modes, sizes and file digests |

## Left out

- Cryptography: SHA-256, HMAC, base64 and persistence references are injective; a forged log cursor is a refusal.
- Times are reals, so floating-point rounding is not modelled.
- The contents of replayed call receipts, lifecycle audit records, Langfuse export and policy prompts; only their success or failure counts.
- Lease renewal and tool selection of issue_lease; a lease row keeps its expiries.
- CallTheorems.TerminalAfterWorkItem: allows an open WorkItem for a call the browser answered before it was sent, because the code does; CallTheorems.OpenStoreExactly and CallWitness.UnsolicitedAnswer pin the case down.
- CallTheorems.RevocationBarrier: allows a call the browser answered before it was sent, because its cancellation then goes through finalization without the flag that stops a send; CallLateSend.SentAfterRevocation is such a run.
- CallTheorems.LaterAnswersAgree: does not cover a reconciliation that answers from its own snapshot, because the code does not compare it with the receipt; CallWitness.ReconcileMissesExactly states that case.
- ActionPolicyTheorems.RateLimitHolds: needs that the cut of the ledger scan cannot change the verdict of a decision, because the code cuts it; ActionPolicyScan.RateRightExactly shows that nothing less will do for a decision. Decisions by a durable approval are not counted.
- ActionPolicyTheorems.RateAnswersHold: the same.
- ActionPolicyTheorems.BlastRadiusHolds: needs one cap for the kind, and the same of the blast verdict.
- ActionPolicyTheorems.BlastAnswersHold: the same.
- Rule matching, the assurance verifier, the maintenance window, the autonomy ramp and the approval lookup of the action policy are inputs of a decision.
- HostLogTheorems.GapIsExact: needs that no generation name was used twice, because the sink refuses a reused name only while a record of it is retained.
- HostLogTheorems.ReplayIsContiguous: speaks of the references of one process; a restart drops them.
- The encoded length of a log line, file permissions, symbolic links, fsync, and the 0.75 s reading budget of the host log.
- SchemaRefTheorems.NoRefsLeft: with a reference cycle the expansion keeps the inner reference, as the code does.
- SchemaMeaningTheorems.CuratedMeansExactly: is about schemas whose references are not circular, name definitions with plain names, and stand where schemas stand; a circular expansion keeps references that mean nothing outside the schema. SchemaCurated.DefinitionsKeptExactly and SchemaCurated.SelfLinkExactly have no such condition.
- Packaged contract schemas (`eg_schema`) are not part of this model.
- ClientPoolTheorems.NothingLost: holds on one event loop; ClientPoolTheorems.LostExactly covers any number. Closing a transport is assumed to succeed.
- The pool, the log references and the browser-control objects are updated in place by the code; where coroutines race they are modelled as state machines over values, so aliasing is not captured.
- ToolTask: the engine's claim, renewal and commit are atomic and refuse a stale claim; exceptions other than a lost lease leave the run without an outcome.
- Manifest: a path is its UTF-8 bytes; linked, special and oversized files are one kind of refusal.
- Transports, adapters, CLI entry points and external engines' rule semantics.
