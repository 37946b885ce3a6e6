# Konclave: concurrency and crash-safety proofs

This project models the parts of Konclave whose correctness depends on what happens between two steps: a
watch session that tails a log through a lossy channel, an authorization cache that is refreshed while it is
being changed, joins that span two stores, reservations that race, guards that outlive their requester, and the
smaller bounded protocols around them.

Each protocol is a state, a set of actions, and a total `Apply` in which an action that is not possible changes
nothing. One action is one stretch of source code that runs without an await, a lock release or a transaction
boundary. `Run(initial, actions)` is the state after any sequence of actions, so a lemma about `Run` for every
`actions` holds for every interleaving, cancellation and crash point. The code that updates state in place is
also given as classes and loops, whose contracts name the same steps. Where such an object acts among others, it
keeps a ghost trace of what happened: what everybody else does at its n-th await is given, and the trace holds exactly
that, so a contract about the trace cannot be met by an invented one.

| file | component |
|---|---|
| `RelayWatch.dfy`, `ReplayPages.dfy`, `WatchSession.dfy` | relay watch session, replay page selection, commit-then-notify |
| `AuthorizationCache.dfy`, `Issuance.dfy` | live authorization projection, registry and refreshes; issuance contexts and what the store answers |
| `AuthorizationTrace.dfy`, `AuthorizationRuntime.dfy` | what one operation and everybody else did, in order; refresh, grant issue and retirement |
| `JoinProtocol.dfy`, `ConversationCoordinator.dfy` | pending joins over the profile and MLS stores, startup recovery |
| `Paging.dfy`, `ConversationWalks.dfy`, `ChannelPages.dfy` | keyset pages, trusted-device evidence, request-service channel listing |
| `Enrollment.dfy`, `EnrollmentCodec.dfy` | relay enrollment by many threads, the sealed intent's frame |
| `ActivityGate.dfy` | admission gate, submission and policy guards held by worker closures |
| `FailureLog.dfy` | bounded failure log and its draining worker |
| `RateLimiter.dfy` | fixed-window enrollment limiter |
| `DeliveryStore.dfy`, `ClaimWait.dfy` | delivery leases and claims, the claim wait loop |
| `Wrappers.dfy` | shared option and result types |

## What the code does not promise

Properties one might expect that turn out to be false of the code. Each has a concrete run and an exact condition.

- A persisted join can be orphaned: `complete_pairing_join` deletes the journal without looking at the stores. After
  a storage failure between persisting the group and publishing the conversation, completing the pairing leaves a
  group without checkpoint or conversation (`JoinProtocol.EarlyCompletionOrphans`). `JoinProtocol.NeverOrphaned`:
  this is the only way, over all runs.
- A reservation whose insert was ignored reports `InvalidTransition` although the relay is configured by then, if
  the winning intent was promoted before it looked again (`Enrollment.LoserSeesInvalidTransition`,
  `Enrollment.LoserExactly`).
- An active relay and a pending intent can coexist: direct provisioning looks at the configuration and writes it
  under two separate lock acquisitions, and the write has no guard (`Enrollment.ProvisionOverPending`,
  `Enrollment.ActiveAndPendingExclude`).
- For the same reason the active principal need not be the reserved one, even if no write lands while an intent is
  pending (`Enrollment.ProvisionAfterPromotion`, `Enrollment.ActivePrincipalIsReserved`).
- A claim that fails after its commit, while reading the events back, leaves them claimed although nobody was told
  of them (`ClaimWait.StrandedBatch`, `ClaimWait.StrandedExactly`, `ClaimWait.ClaimConserved`).
- A claim need not belong to the active delivery lease: resuming a directed request replaces the lease and takes one
  event along (`DeliveryStore.ResumeStrands`). `DeliveryStore.OwnedExactly` gives the condition over all runs; its
  other branch, renewing the same lease to an earlier expiry (`DeliveryStore.RenewalStrands`), is open to any caller
  of the store operation, although `DeliveryAttachment::acquire` always draws a new lease identifier.
- Releasing a lease can succeed and leave its claims standing, if no consumer is left to release
  (`DeliveryStore.ReleaseLeavesClaim`, `DeliveryStore.ReleaseExactly`).

A refresh that finds a newer projection returns Ok without publishing, so read-your-writes is a statement about the
generation reached, not about the failure flag being clear.

## Model

| member | source | states |
|---|---|---|
| RelayWatch.NoLostWakeup | apps/Konclave.CommunityRelay/src/websocket.rs:68-219 | in every state of every run of an open session, each committed cursor beyond what the session reaches by itself is covered by another page it will read, an unfinished submit, its queued event or a lag signal; otherwise its submitter was dropped and it was committed after the last page read |
| RelayWatch.ExactDeliveryAlways | apps/Konclave.CommunityRelay/src/websocket.rs:299-341 | in every run the envelopes sent are exactly the log entries in (initial, cursor], in order, with no gap and no repetition |
| RelayWatch.RunOnlyAdvances | apps/Konclave.CommunityRelay/src/websocket.rs:76-205 | between any two points of a run the log and the sent envelopes only grow and the cursor never goes back |
| RelayWatch.PageInFlightIsValid | apps/Konclave.CommunityRelay/src/websocket.rs:334-339 | the invalid-cursor-transition exit of a drain is unreachable, even when submits commit between the page read and the write |
| RelayWatch.QuiescentIsComplete | apps/Konclave.CommunityRelay/src/websocket.rs:76-219 | a parked session with nothing queued, in flight or abandoned has sent the whole log after its initial cursor |
| RelayWatch.SafetyTickCatchesUp | apps/Konclave.CommunityRelay/src/websocket.rs:101-219 | from any parked state, whatever notification was lost, one safety tick and the session's own drains deliver the whole log, with any number of entries in each of the pages |
| RelayWatch.PageAtEnds | crates/Konclave.RelayCore/src/sqlite.rs:713-790 | a page is the next slice of the log, ends at its last cursor, is empty only at the end, and has_more is true iff entries remain |
| RelayWatch.SentKeepsDelivery | apps/Konclave.CommunityRelay/src/websocket.rs:299-341 | writing one page extends the delivered range by exactly that page |
| RelayWatch.ApplyKeepsInv | apps/Konclave.CommunityRelay/src/websocket.rs:53-220 | every step of submitters, channel, timers and session keeps the delivery and wake-up invariant |
| RelayWatch.SubmitKeepsDelivery | crates/Konclave.RelayCore/src/sqlite.rs:88-134 | a commit at the allocated cursor never changes what counts as delivered |
| ReplayPages.SelectReplayRows | crates/Konclave.RelayCore/src/sqlite.rs:2150-2200 | takes the longest prefix within row limit and byte budget, never an empty one; fails iff it reaches a row of invalid length |
| ReplayPages.LoadReplayEntries | crates/Konclave.RelayCore/src/sqlite.rs:713-790 | returns the maximal next page of the log; fails only if some later row has an invalid length |
| ReplayPages.PrefixStopsReaching | crates/Konclave.RelayCore/src/sqlite.rs:2150-2200 | once a row does not fit, no later row is validated |
| WatchSessions.RelayApplication.SubmitEncoded | crates/Konclave.RelayCore/src/sqlite.rs:88-134 | an accepted submit appends one entry at the next cursor; a repeated identical envelope reports its cursor, expired or not; a known id with other contents, an expired new envelope, a stale epoch or an exhausted sequence is rejected with its reason (the last two share one) and changes nothing |
| WatchSessions.WatchSession.ReadPage | apps/Konclave.CommunityRelay/src/websocket.rs:299-322 | reads the maximal page after the cursor, or closes when a stored row is invalid |
| WatchSessions.WatchSession.Follow | apps/Konclave.CommunityRelay/src/websocket.rs:68-219 | the session and relay objects, driven by any schedule, perform that schedule and keep exact delivery |
| AuthorizationCache.CoherentAlways | apps/Konclave.LocalDaemon/src/authorization_runtime.rs:766-802 | in every run projection and registry mirror one store generation, so an authorization answer is that generation's answer at the current clock |
| AuthorizationCache.NoResurrection | apps/Konclave.LocalDaemon/src/authorization_runtime.rs:704-802 | once the projection has reached a generation from which on a grant is absent, no late snapshot authorizes it again |
| AuthorizationCache.RunAdvances | apps/Konclave.LocalDaemon/src/authorization_runtime.rs:766-802 | under concurrent refreshes the projection generation, the status version and the store history never go back |
| AuthorizationCache.AnswersComeFromTheStore | apps/Konclave.LocalDaemon/src/authorization_runtime.rs:191-213 | every handshake answer ever given was the store's answer at one of its generations and the clock of the check |
| AuthorizationCache.ParkedWaiterIsSignalled | apps/Konclave.LocalDaemon/src/authorization_runtime.rs:191-213 | a waiter parked while failure is None has an unseen status, or a publisher is between unlock and send |
| AuthorizationCache.SignalledWaiterAnswers | apps/Konclave.LocalDaemon/src/authorization_runtime.rs:782-801 | the pending send, the wake-up and the next check give that waiter an answer from the current generation |
| AuthorizationCache.ReadYourWrites | apps/Konclave.LocalDaemon/src/authorization_runtime.rs:695-802 | a refresh that returned Ok left the projection at or past the generation its caller asked for, and every later state is there too |
| AuthorizationCache.ApplyKeepsInv | apps/Konclave.LocalDaemon/src/authorization_runtime.rs:704-802 | every atomic section of every refresh, mutation and waiter keeps coherence and the wake-up invariant |
| Issuance.ContextIsThePermit | apps/Konclave.LocalDaemon/src/authorization_runtime.rs:804-847 | a coherent cache grants an issuance context iff it is not failed closed and the mirrored generation permits profile, issuer, scope and evidence |
| Issuance.InterruptionIsTheStores | apps/Konclave.LocalDaemon/src/authorization_runtime.rs:308-325 | authorization-lost iff the cache is healthy and the mirrored generation lacks the live grant; no interruption iff it is healthy and has it |
| AuthorizationRuntime.LiveAuthorizationRuntime.RefreshLocked | apps/Konclave.LocalDaemon/src/authorization_runtime.rs:704-764 | with everybody else's actions at each await, the one after a missed deadline included, Ok means the projection reached the caller's generation; whatever the ending, nothing was committed or submitted, and the invariant and the trace are kept |
| AuthorizationRuntime.LiveAuthorizationRuntime.IssueGrantLocked | apps/Konclave.LocalDaemon/src/authorization_runtime.rs:550-652 | something is submitted iff the unfailed projection grants the request at entry under the expected policy version, otherwise nothing is done and the context's error returned; at most four candidates (one for a fixed id), all for this request and each admissible where it was built; Ok only with the store's answer to the last one, given during the call, once the projection has reached it |
| AuthorizationRuntime.LiveAuthorizationRuntime.RetireGrant | apps/Konclave.LocalDaemon/src/authorization_runtime.rs:654-687 | Ok(true) only when the store held the grant live during the call, committed a next generation without that identifier, and the projection has reached it; Ok(false) only when it did not hold it live, and if it had a record of it the projection has reached what was newest then |
| AuthorizationRuntime.LiveAuthorizationRuntime.MapMutationError | apps/Konclave.LocalDaemon/src/authorization_runtime.rs:873-897 | a broken store fails the cache closed; every other error leaves the whole state alone |
| AuthorizationTrace.SubmissionsAdmissible | apps/Konclave.LocalDaemon/src/authorization_runtime.rs:590-640 | every candidate ever put to the store was built from a context that an unfailed projection granted, is permitted by that context's generation under its policy, and the generations never go back |
| AuthorizationTrace.AfterIsRun | apps/Konclave.LocalDaemon/src/authorization_runtime.rs:550-764 | where a trace leads is where the run of its actions leads, so everything proved of all runs of the cache holds of the runtime object |
| AuthorizationTrace.HonestIsAdmissible | apps/Konclave.LocalDaemon/src/authorization_runtime.rs:550-640 | every trace in which candidates are built from the last context read and the store commits what it answers keeps the cache invariant and the admissibility of all submissions |
| Issuance.IssuedIsPermitted | crates/Konclave.LocalAuthorizationStore/src/store.rs:526-623 | the store issues a grant only onto a generation that itself permits the request under the candidate's policy version, with an identifier never used before and a future expiry |
| AuthorizationRuntime.AnswerIsSound | apps/Konclave.LocalDaemon/src/authorization_runtime.rs:590-652 | an answered grant is the candidate, held by the generation committed right after the one that permitted it, which the projection has reached; or was recorded before for the same issuer and profile, and the projection has reached what was newest then |
| Paging.ReadPage | apps/Konclave.LocalDaemon/src/persistence.rs:4274-4335 | returns the first `limit` identifiers beyond the token, in order |
| Paging.WalkOn | apps/Konclave.LocalDaemon/src/persistence.rs:4056-4107 | reading on from the last identifier visits the next ones and skips none; a short page completes the enumeration |
| Paging.LeftShrinks | apps/Konclave.LocalDaemon/src/persistence.rs:4274-4335 | each non-empty page leaves strictly less to read |
| ConversationWalks.WalkEvidence | apps/Konclave.LocalDaemon/src/conversation.rs:751-807 | with any page size the walk ends having visited the whole store in order, or with a missing binding, or with an initial part that exceeds capacity |
| ConversationWalks.ScanConversation | apps/Konclave.LocalDaemon/src/conversation.rs:771-801 | appends one conversation's evidence, or stops at an unbound wanted member or at capacity |
| ConversationWalks.EvidenceRefinesComprehension | apps/Konclave.LocalDaemon/src/conversation.rs:751-807 | such a walk returns exactly the pairs that belong, in id order and each once if no conversation lists a member twice; it succeeds iff all wanted members are bound and at most 4096 pairs exist |
| ConversationWalks.ComprehensionIs | apps/Konclave.LocalDaemon/src/conversation.rs:751-807 | the comprehension holds exactly the pairs (conversation with the local device, wanted remote member), in id order and each once if no conversation lists a member twice |
| ConversationWalks.TrustedDeviceEvidence | apps/Konclave.LocalDaemon/src/conversation.rs:751-807 | with any page size the result is the comprehension over all stored conversations, with the all-members repeat-pairing flag; the capacity error only beyond 4096 pairs |
| ConversationWalks.SupportsRepeat | apps/Konclave.LocalDaemon/src/conversation.rs:775-781 | true iff every member has a binding that supports repeat pairing |
| ChannelPages.RequestServiceChannels | apps/Konclave.LocalDaemon/src/conversation.rs:1787-1817 | lists the operator's channels among the next `limit` conversations; a missing token means nothing lies beyond |
| ChannelPages.FollowTokens | apps/Konclave.LocalDaemon/src/conversation.rs:1787-1817 | following tokens with any limits in 1..50 ends and concatenates to the summaries of the whole store, even when pages filter to nothing |
| ChannelPages.CompleteListing | apps/Konclave.LocalDaemon/src/conversation.rs:1787-1817 | those summaries are one per operator-owned conversation, in id order |
| JoinProtocol.NeverOrphaned | apps/Konclave.LocalDaemon/src/conversation.rs:891-1197 | over all runs with crashes and storage failures anywhere, "group present, not checkpointed, not published" is never reached iff no join is completed while persisted but unpublished |
| JoinProtocol.EarlyCompletionOrphans | apps/Konclave.LocalDaemon/src/conversation.rs:1185-1197 | a concrete run in which completing such a join orphans its group |
| JoinProtocol.ApplyKeepsInv | apps/Konclave.LocalDaemon/src/conversation.rs:1037-1178 | every other transaction, failure and crash keeps the two stores recoverable |
| JoinProtocol.RecoveredPublishes | apps/Konclave.LocalDaemon/src/conversation.rs:480-520 | recovery publishes every persisted join at its checkpointed state and receipt cursor, changes nothing published, and leaves pending only retained joins whose conversation is published and joins that have no group, or one that contradicts the journal |
| JoinProtocol.RecoveryConverges | apps/Konclave.LocalDaemon/src/conversation.rs:480-520 | however recovery's transactions are ordered and however often another crash cuts it short, it settles on the same stores |
| JoinProtocol.RecoveryAlwaysOpens | apps/Konclave.LocalDaemon/src/conversation.rs:450-536 | from every invariant state recovery is not blocked, and afterwards every conversation's group is at the conversation's state; message processing, which moves both, is one step here, so a crash between its two stores is not covered |
| ConversationCoordination.ConversationCoordinator.AcceptWelcome | apps/Konclave.LocalDaemon/src/conversation.rs:1037-1104 | cut off after any number of transactions, exactly that many protocol steps have reached the stores |
| ConversationCoordination.ConversationCoordinator.Publish | apps/Konclave.LocalDaemon/src/conversation.rs:1106-1178 | the publishing half, cut off after any number of transactions, is that many protocol steps |
| ConversationCoordination.ConversationCoordinator.FinalizePendingJoin | apps/Konclave.LocalDaemon/src/conversation.rs:1106-1178 | succeeds iff the group is restorable at the checkpoint of the expected commit and an existing conversation is exactly as checkpointed; then publishes it and drops the journal unless retained; otherwise changes nothing |
| ConversationCoordination.ConversationCoordinator.RecoverOne | apps/Konclave.LocalDaemon/src/conversation.rs:487-516 | one loop body recovers exactly its join, and fails iff that join's group contradicts its journal or an undecodable pairing is met before one that retains it |
| ConversationCoordination.ConversationCoordinator.Recover | apps/Konclave.LocalDaemon/src/conversation.rs:480-520 | visits every pending join present at the start exactly once although it deletes them while paging, terminates, succeeds iff each of them is recoverable, and then each remaining pending join has no group at all or is published and retained; a failed recovery has recovered exactly the joins before the first unrecoverable one |
| ConversationCoordination.ActivePairingRetains | apps/Konclave.LocalDaemon/src/conversation.rs:538-565 | the paged scan fails iff it meets an undecodable checkpoint before a pairing that keeps the journal; otherwise it returns whether some active joiner pairing awaits the Welcome of this conversation |
| Enrollment.ActiveAndPendingExclude | apps/Konclave.LocalDaemon/src/enrollment_persistence.rs:176-360 | under any interleaving active and pending never coexist iff no provisioning write lands while an intent is pending |
| Enrollment.OneIdentity | apps/Konclave.LocalDaemon/src/enrollment_persistence.rs:47-82 | in every run, with any provisioning and migration, all successful reservations return one identity, and it is the pending one until a relay is configured |
| Enrollment.ActivePrincipalIsReserved | apps/Konclave.LocalDaemon/src/runtime.rs:444-466 | throughout a run the active principal is that of the stored intent iff no provisioning write brings another principal after an intent was stored |
| Enrollment.ProvisionAfterPromotion | apps/Konclave.LocalDaemon/src/persistence.rs:3277-3299 | a concrete run: provisioning looks, another thread reserves and promotes, and the unguarded write replaces the reserved principal |
| Enrollment.ProvisionOverPending | apps/Konclave.LocalDaemon/src/persistence.rs:3277-3299 | a concrete run: provisioning looks, another thread reserves, and the write makes active and pending coexist |
| Enrollment.StepKeepsPrincipal | apps/Konclave.LocalDaemon/src/persistence/relay_migration.rs:11-56 | no other step changes whose principal is active: a migration writes back the one it has read |
| Enrollment.RollbacksUnreachable | apps/Konclave.LocalDaemon/src/enrollment_persistence.rs:176-287 | in no run is a rollback of the promotion transaction or a vanished-row error reached; the corruption error only after active and pending have coexisted |
| Enrollment.LoserSeesInvalidTransition | apps/Konclave.LocalDaemon/src/enrollment_persistence.rs:345-358 | a concrete three-thread race in which the losing reservation reports InvalidTransition on a configured profile |
| Enrollment.LoserExactly | apps/Konclave.LocalDaemon/src/enrollment_persistence.rs:345-358 | in every run a reservation whose insert was ignored ends that way iff the winning intent is no longer pending, and then the relay is configured |
| Enrollment.ApplyKeepsInv | apps/Konclave.LocalDaemon/src/enrollment_persistence.rs:289-360 | every lock acquisition of every reserving, promoting, provisioning and migrating thread keeps the row invariant |
| Enrollment.ProfileStore.Follow | apps/Konclave.LocalDaemon/src/enrollment_persistence.rs:47-360 | the store object under any schedule of threads is in the state of that run, and the row invariant holds |
| EnrollmentCodec.Canonical | apps/Konclave.LocalDaemon/src/enrollment_persistence.rs:445-546 | decode returns a credential blob iff the input is the unique encoding of that blob for that subject |
| EnrollmentCodec.Unambiguous | apps/Konclave.LocalDaemon/src/enrollment_persistence.rs:488-546 | no byte string decodes for two subjects |
| EnrollmentCodec.EncodeFrame | apps/Konclave.LocalDaemon/src/enrollment_persistence.rs:445-486 | the field-by-field buffer is the frame, and encoding fails iff a length bound is exceeded |
| EnrollmentCodec.IntentRoundTrip | apps/Konclave.LocalDaemon/src/enrollment_persistence.rs:90-168 | with invertible sealing a stored intent reopens to its credential exactly when the row's principal is the credential's |
| EnrollmentCodec.EncodeIntent | apps/Konclave.LocalDaemon/src/enrollment_persistence.rs:445-486 | what is stored reopens to the very credential that was reserved, for its own subject and principal; encoding fails exactly when the sealed credential does not fit |
| EnrollmentCodec.U32Canonical | apps/Konclave.LocalDaemon/src/enrollment_persistence.rs:488-546 | the big-endian length field has one encoding per value |
| ActivityGate.InFlightCountsLiveAdmissions | apps/Konclave.LocalDaemon/src/activity.rs:64-171 | in every run in_flight is the number of admissions that a live requester, host or closure refers to, and dropping a last reference never meets zero |
| ActivityGate.NothingLeaks | apps/Konclave.LocalDaemon/src/activity.rs:157-171 | when all requesters are gone and no closure is left, nothing is in flight |
| ActivityGate.ClosingIsPermanent | apps/Konclave.LocalDaemon/src/activity.rs:105-133 | once closing with nothing in flight, no admission and no admitted callback exists then or in any later state |
| ActivityGate.GuardsOutliveCancellation | apps/Konclave.LocalDaemon/src/native_session.rs:50-68 | nothing but the end of the callback itself, however the requester ends, releases the guards it captured, which are those of its host (`CallbackInheritsGuards`) |
| ActivityGate.SubmissionsSerialized | apps/Konclave.LocalDaemon/src/application.rs:223-232 | callbacks of two submissions never coexist, and while one exists nobody else gets the submission lock |
| ActivityGate.PolicySerialized | apps/Konclave.LocalDaemon/src/application.rs:234-246 | at most one policy transition is with the workers, and it owns the policy lock |
| ActivityGate.PolicyHeldThroughout | apps/Konclave.LocalDaemon/src/application.rs:234-246 | from taking the policy lock, across its blocking transition and back, an operation keeps it until it leaves or the transition does not return Ok |
| ActivityGate.ApplyKeepsInv | apps/Konclave.LocalDaemon/src/application.rs:140-150 | every admission, share, clone, spawn, end and cancellation keeps the accounting and both serializations |
| ActivityGate.Follow | apps/Konclave.LocalDaemon/src/activity.rs:16-171 | the gate object, driven by any schedule, counts exactly the live admissions |
| FailureLog.ShutdownDrains | apps/Konclave.LocalDaemon/src/local_failure_log.rs:77-106 | a worker that ended without I/O failure received everything enqueued before the stop, in order, and its file is the result of appending exactly what it received |
| FailureLog.FifoAlways | apps/Konclave.LocalDaemon/src/local_failure_log.rs:144-177 | at every point the received records followed by the queue are the enqueued ones, each within the record bound |
| FailureLog.NoSilentLoss | apps/Konclave.LocalDaemon/src/local_failure_log.rs:162-177 | a writer dropped while the log is open enqueues its record or leaves the failure flag set for good, and an oversized one always sets it |
| FailureLog.DrainIsBounded | apps/Konclave.LocalDaemon/src/local_failure_log.rs:80-91 | at most 64 records are received after the worker has seen the stop, even if producers go on |
| FailureLog.StopTerminates | apps/Konclave.LocalDaemon/src/local_failure_log.rs:77-130 | after a stop the worker takes at most 197 further steps under any schedule, so joining it returns |
| FailureLog.OnlyFaultsFail | apps/Konclave.LocalDaemon/src/local_failure_log.rs:44-56 | a record that reaches append_record fits its bound, so only an I/O failure ends the worker early |
| FailureLog.FileBounded | apps/Konclave.LocalDaemon/src/local_failure_log.rs:60-106 | in every run the file stays within 64 KiB and, until an append fails, is made of whole records since its last reset |
| FailureLog.FileIsWholeRecords | apps/Konclave.LocalDaemon/src/local_failure_log.rs:44-56 | repeated appends leave a suffix of whole records up to the newest, within the cap |
| FailureLog.NoResetBelowCap | apps/Konclave.LocalDaemon/src/local_failure_log.rs:50-53 | nothing is dropped while everything still fits |
| FailureLog.LogFile.AppendRecord | apps/Konclave.LocalDaemon/src/local_failure_log.rs:44-56 | refuses an oversized record untouched, succeeds whenever the record fits and no call fails, then appends it, resetting a file that would overflow; a failure leaves at most the cap |
| FailureLog.RecordWriter.Write | apps/Konclave.LocalDaemon/src/local_failure_log.rs:144-156 | a write is taken iff the record stays within 2048 bytes |
| FailureLog.RecordWriter.Close | apps/Konclave.LocalDaemon/src/local_failure_log.rs:162-177 | hands over the concatenation of all writes, or reports exactly the oversized record, or drops exactly the empty one |
| FailureLog.Work | apps/Konclave.LocalDaemon/src/local_failure_log.rs:60-106 | the worker on a real file follows any schedule and any faults as the protocol says, and never ends early without a fault |
| RateLimiter.RateBound | apps/Konclave.CommunityRelay/src/http.rs:87-100 | on a monotone clock any half-open interval of length L has at most 16 * (ceil(L / window) + 1) admissions, in every run |
| RateLimiter.OneSecond | apps/Konclave.CommunityRelay/src/http.rs:87-100 | at most 32 admissions in any one-second interval |
| RateLimiter.BoundIsReached | apps/Konclave.CommunityRelay/src/http.rs:87-100 | a run with 32 admissions in one second exists |
| RateLimiter.RefusedOnlyWhenFull | apps/Konclave.CommunityRelay/src/http.rs:94-97 | a refused call had sixteen admissions in the second before it |
| RateLimiter.Serve | apps/Konclave.CommunityRelay/src/http.rs:71-100 | the limiter object answers any sequence of calls as the run says |
| ClaimWait.ClaimConserved | apps/Konclave.LocalDaemon/src/adapter.rs:236-279 | for every finished wait in every interleaving: it commits at most one non-empty batch, which is returned after a successful re-check, or whose release or release failure is reported, iff it could be read back; otherwise an error is reported and nothing is released |
| ClaimWait.StrandedBatch | apps/Konclave.LocalDaemon/src/persistence.rs:1713-1726 | a concrete wait that reports a read error while its event stays claimed for the whole lease |
| ClaimWait.EmptyMeansNothingClaimed | apps/Konclave.LocalDaemon/src/adapter.rs:640-673 | a wait that returns the empty batch, at its deadline or on shutdown, committed nothing |
| ClaimWait.LostMeansReleased | apps/Konclave.LocalDaemon/src/adapter.rs:266-276 | a reported authorization loss means nobody is the consumer, other leases' claims are untouched, no event is lost, and the lease holds nothing iff a consumer was still there or it held nothing before |
| ClaimWait.DeliveryAttachment.WaitAndClaim | apps/Konclave.LocalDaemon/src/adapter.rs:236-279 | given what everybody else does at each await, what each check answers, each claim's clock and fault, how each empty turn ends and what the candidate query returns, the loop performs exactly that wait: the others' transactions at its awaits and no further ones, the given answers in order; its result is that run's, its store that run's store, and the batch it committed is conserved |
| ClaimWait.ProfileStore.ClaimRemoteEvents | apps/Konclave.LocalDaemon/src/persistence.rs:1601-1726 | commits the selected batch for the active lease; an error leaves the store alone unless the batch was committed and reading it back failed |
| DeliveryStore.SelectIs | apps/Konclave.LocalDaemon/src/persistence.rs:1670-1712 | the selection is the longest prefix of the candidates within 1 MiB; the capacity error only if the first candidate alone is too big |
| DeliveryStore.StageBatch | apps/Konclave.LocalDaemon/src/persistence.rs:1670-1712 | the selection loop stages exactly the selected claims and hands out exactly their next generations |
| DeliveryStore.BatchIsClaimed | apps/Konclave.LocalDaemon/src/persistence.rs:1670-1726 | every event of a batch was pending and is now claimed by the lease at the next generation, and nothing else was claimed |
| DeliveryStore.NeverHandedOutTwice | apps/Konclave.LocalDaemon/src/persistence.rs:1688-1710 | over all runs of all leases, of two hand-outs of one event the later has a later generation or is a resumption of the same one; so no claim repeats a generation that was ever handed out |
| DeliveryStore.ReleaseExactly | apps/Konclave.LocalDaemon/src/persistence.rs:1511-1594 | for every store, after a successful release nothing of other leases changed, no event is lost, and the lease holds nothing iff a consumer was there or it held nothing before |
| DeliveryStore.OwnedExactly | apps/Konclave.LocalDaemon/src/persistence/directed_request_handling.rs:938-1068 | over all runs every claim belongs to the active lease and does not outlive it iff no delivery is resumed past another claim and no lease is shortened below a live claim |
| DeliveryStore.ResumeStrands | apps/Konclave.LocalDaemon/src/persistence/directed_request_handling.rs:1020-1050 | a concrete run in which resuming one event leaves another claimed by the replaced lease |
| DeliveryStore.ReleaseLeavesClaim | apps/Konclave.LocalDaemon/src/persistence.rs:1532-1538 | in that run, after the new lease is released, releasing the first one succeeds and its claim stays |
| DeliveryStore.RenewalStrands | apps/Konclave.LocalDaemon/src/persistence.rs:1444-1504 | a concrete run in which renewing a lease to an earlier expiry leaves a claim that outlives it |
| DeliveryStore.HeartbeatKeepsOwned | apps/Konclave.LocalDaemon/src/persistence.rs:1733-1769 | a heartbeat keeps every claim with the active lease and within its expiry |

## Left out

- The WebSocket heartbeat, handshake timeout, close codes and text, binary and pong frames: they end a session and never move its cursor.
- The version field of enrollment requests and responses: a constant both sides carry.
- MLS cryptography, credentials and sealing: group states are numbers, sealing is any pair of functions in which opening undoes sealing.
- SQL text, schema migration and I/O error kinds: a transaction is one atomic step that happens, fails or is cut off by a crash.
- Integer widths other than the relay cursor's: counters, generations and clocks are unbounded, so their overflow errors are not modelled.
- The relay log's retention sweeps, per-principal quotas, envelope encoding and authentication: the watched log only grows.
- Registry validation inside `publish`: whether a snapshot is accepted is an arbitrary boolean.
- The rollback of the authorization store to an older generation, which its own high water mark detects: the modelled history only grows.
- The order in which the store commits grants, policies and issuers from other processes: any new store value may follow any other.
- Creation of local conversations and message processing: in the join protocol they are one atomic step on a published conversation.
- The fair ranking of delivery candidates across conversations: `Candidates` allows any order.
- The directed-request records themselves: resuming a delivery is its effect on the lease and on one event.
- The body of process_page, membership checks and transport retries in the watch loop: an admitted callback is opaque, only its guards are modelled.
- The submission mutex that `NativeSession` may take by itself: only the guard handed to the native host is modelled.
- ActivityGate.SubmissionsSerialized: a closure that was not spawned yet may outlive its cancelled requester in the model; the source drops it at once, so the model allows more runs.
- The capacity of the native workers and their join at shutdown as results: both are the guard of the step that spawns a callback.
- The failure log's lock file, permissions and console message.
- RateLimiter.RateBound: an admission is dated by the last clock read of its call, which is the only time the code observes.
- AuthorizationCache.CoherentAlways: the clock only moves forward (`Tick`, and a registry is never dated after the clock); the source reads a wall clock, which can be set back.
- The store's quotas, its records of repeated requests and its own failures: what they decide is a given `Oracle` per request. A full store refuses before the authority is validated; the source has a second capacity check after it.
- The issuer key version, session key and harness that a repeated request must also match: a replayed grant is matched on issuer and profile.
- JoinProtocol.RecoveryAlwaysOpens: processing a message updates the group and the conversation in one step.
- The reload loop's schedule, telemetry and error-code tables.
- The collaboration-policy store, directed requests, pairing services, the command line and the admin console: outside these protocols.
