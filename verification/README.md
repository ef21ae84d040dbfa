# What is verified

A model, in Dafny 4.11, of the parts of the Quesma shipper and its fleet manager where a mistake loses
data, collects too much, or enrolls the wrong machine. `dafny verify dfyconfig.toml` checks all of it.

**Enrollment** (`Enrollment*.dfy`, `InteractiveEnrollment.dfy`, `Reenrollment.dfy`). Each read, create and
conditional replace of the object store is one atomic step of one of arbitrarily many calls, and any call
may stop forever, before or after its write landed. A replace succeeds when the version read is still the
stored one, or, at the environment's choice, when only the content is: both providers' readings of an
opaque version are covered. `Enrollment.dfy` is the state machine; the other modules prove what every
interleaving keeps (`EnrollmentHistory`), what each call may write and the status transitions that leaves
(`EnrollmentTransitions`), that an invite activates at most one install and exactly when a
release endangers that (`EnrollmentOwnership`, `EnrollmentRace`), what a lone call does and how every
crash is recovered (`EnrollmentRecovery`, `EnrollmentAlone`), who is let in and that only a minted secret
does it (`EnrollmentCredentials`), and that retries end (`EnrollmentTermination`).
`EnrollmentManager` is the service's own code, with other callers allowed between any two accesses: its
`Interfere` promises its callers only `Drifts`, which any events of the state machine other than releases
are shown to be (`RunsDrift`). `InteractiveEnrollment` puts the retrying client on top of it, and `Reenrollment` replaces
a revoked install by a sequence of atomic writes killed at any of them.

**The flush pipeline** (`FilePass*.dfy`, `SourcePass.dfy`, `FileDecision.dfy`, `FileCollection.dfy`,
`DerivedUploads.dfy`). `FilePass` is one source's pass as a transition system whose events say which
computation or group finishes next. `FilePassInvariants` proves conservation, the byte gate, bounded
groups, latching, progress and termination over every schedule; `FilePassOutcomes` says of every outcome
which event decided it, failed writes included; `FilePassRefinement` proves that every calm schedule ends
where taking one file at a time ends; `SourcePass` is the loop as a class over mutable
fields, tied to both. `FileDecision` and `FileCollection` put the real per-file decisions in it.

**Durable state** (`StateStore.dfy`, `Durability.dfy`, `FingerprintDocument.dfy`). The document replaced
whole, the buffer over it, crashes anywhere between an upload and its record, and the document's text.

**Configuration** (`ConfigLayers.dfy`, `Exclusions.dfy`, `ConfigCache.dfy`). Layer folding, the reduction
for builds that cannot enforce additional exclusions, and the two-copy cache.

**Uploads and the rest** (`UploadAuthorization.dfy`, `UploadPort.dfy`, `TokenBucket.dfy`,
`InventoryCsv.dfy`, `ObjectNaming.dfy`). The ticket exchange from both sides, telemetry admission, the
inventory CSV scanner and canonical object names.

Many modules end with lemmas named `What…`, `When…` or `Who…`: they say in the fields of the records alone,
without the model's own predicates, what an operation decides, so that the model is tied to its meaning and
not only to itself.

What the proofs found where the code and its description part, or where a promise has a boundary:

- Releasing an invite is safe under a running enrollment too, except between that call's reservation and
  its second read of the invite; there it lets two installs through (`EnrollmentRace`).
- An install may be revoked while still pending, so its status may skip active
  (`EnrollmentTransitions.PendingMayBeRevoked`).
- A staging directory removed halfway, keys gone and the saved request left, is never repaired by trying
  the re-enrollment again: the new identity does not match the saved request. A conflict answer and a kill
  between the two removals is enough (`Reenrollment.Machine.Strand`), and short of a kill it is, with what
  cannot be archived and what the server refuses, the only way re-enrollment fails (`Reenroll`).
- The archive keeps the first version of a state file unless a login that found it was killed before
  archiving it and something else rewrote it before the next (`Overtake`); `Login` has the exact condition.
- A preview and a sync read a source differently when it has entries but no recorded generation and is
  declared twice under different ones (`StateStore.PreviewReadsAsSync`).
- A fingerprint whose key id is empty comes back under its path (`FingerprintDocument.EmptyIdsCollapse`).
- A document accepted by a build that enforces additional exclusions can be refused in its reduced form
  (`Exclusions.ReducedMayBeRefused`); where both are accepted the reduced one never collects more.
- A served layer may replace a source's roots, limit and globs, exclusions included, and so collect a file
  that was excluded; exactly when it does not is `Exclusions.ServedLayerCollectsNoMoreExactlyWhen`, and what
  it can only narrow `ConfigLayers.ServedLayerOnlyNarrows`.
- The placeholder pass is not idempotent for a user named `USER`.
- After an enricher's upload is stopped one object is still sent exactly when the stopping group was sent
  because that object did not fit beside it (`DerivedUploads.SentAfterAStop`).

## Model

| member | source | states |
|---|---|---|
| `EnrollmentHistory.RecordsOnlyAdvance` | fleet-manager/src/manager.go:234-354 | In every interleaving, racing releases included, of records that exist: an install keeps its identity and digest, its status only moves forward and revoked is terminal, a spent invite stays spent, a revoked invite or grant revoked, and an install an invite activated implies that invite is spent |
| `EnrollmentHistory.StepKeeps` | fleet-manager/src/manager.go:293-354 | One step of any call keeps what the call has read consistent with the store and moves records forward only |
| `EnrollmentTransitions.EnrollInviteWrites` | fleet-manager/src/manager.go:266-354 | However stale its reads, an invite call writes only its own invite and install: it reserves a free unspent invite, creates an absent install pending, spends an unspent invite, or activates a pending install of the same enrollment, which it reports exactly then; no other field changes |
| `EnrollmentTransitions.ReleaseWrites` | fleet-manager/src/admin.go:218-242 | A release clears the reservation fields of its own invite, never a spent one, and touches no install; it is refused exactly when the invite it read is spent or the reserved install is stored and not revoked |
| `EnrollmentTransitions.RevokeWrites` | fleet-manager/src/admin.go:127-216 | A revocation writes the revocation fields of its one record, and only if it was not revoked; reported applied the record is revoked, and a conflict or a missing record means nothing was written |
| `EnrollmentTransitions.EnrollGrantWrites` | fleet-manager/src/manager.go:217-248 | A grant call creates its own install active where none is stored and never writes anything else; answering success, the install is active under the same identity |
| `EnrollmentTransitions.EveryMoveIsACalls` | fleet-manager/src/manager.go:217-354 | In every reachable world an install moves only from absent to pending or from pending to active by its invite call, from absent to active by its grant call, and from pending or active to revoked by its revocation; an invite call that activates records it |
| `EnrollmentTransitions.NoStatusFromNowhere` | fleet-manager/src/manager.go:217-354 | Over every run: a pending install has an invite call for it, an active one a grant call or an activation by a spent invite, a revoked one a revocation |
| `EnrollmentTransitions.PendingMayBeRevoked` | fleet-manager/src/admin.go:201-216 | A run from the empty store in which an install is revoked while pending, never active, its invite unspent |
| `EnrollmentOwnership.AtMostOneActivation` | fleet-manager/src/manager.go:250-355 | With calls dying anywhere and any number of enrollments, grants, revocations and safe releases, an invite activates at most one install |
| `EnrollmentOwnership.StepOwnsItsClaim` | fleet-manager/src/manager.go:266-340 | A call that can still activate its install holds the reservation of the invite, at every step |
| `EnrollmentOwnership.NextOwned` | fleet-manager/src/store.go:8-13 | The ownership invariant survives every step of every call under conditional writes, content comparison included |
| `EnrollmentRace.ReleaseSafeExactlyWhenUnendangered` | fleet-manager/src/admin.go:218-242 | Clearing a live reservation is safe whatever follows if and only if no call on that invite stands between its reservation and its second read with an install that can still become active |
| `EnrollmentRace.EndangeredReleaseActivatesTwo` | fleet-manager/src/admin.go:218-242 | From any reachable endangered release there is a continuation that activates two installs by one invite |
| `EnrollmentRace.RacingReleaseBreaksIt` | fleet-manager/src/admin.go:218-242 | Such a run exists from the empty store |
| `EnrollmentAlone.AloneMakesTheWrites` | fleet-manager/src/manager.go:252-354 | An undisturbed call makes exactly the four writes of the closed form, in order, and returns its verdict: the state machine and the closed form agree |
| `EnrollmentAlone.AloneMakesTheGrant` | fleet-manager/src/manager.go:217-248 | An undisturbed grant call makes the one write of its closed form, or none, and returns its verdict |
| `EnrollmentRecovery.CrashKeepsRecoverable` | fleet-manager/src/manager.go:266-354 | Whatever prefix of its writes a call completes on a recoverable store leaves it recoverable |
| `EnrollmentRecovery.ReservationIsRecoverable` | fleet-manager/src/manager.go:277-300 | A first call that passes leaves a recoverable store as soon as its reservation is written |
| `EnrollmentRecovery.ReplayReachesActive` | fleet-manager/src/manager.go:266-354 | Replaying the identical request, even after expiry, reaches active and spent; a replay after success writes nothing |
| `EnrollmentRecovery.CrashesAreRecovered` | fleet-manager/src/manager.go:266-354 | However many attempts died after however many writes, one undisturbed replay reaches active |
| `EnrollmentCredentials.WhoEnrollsByInvite` | fleet-manager/src/manager.go:252-315 | Forbidden if and only if the token is another organization's or unknown, its record does not fit its id and secret, it is revoked, it is free but expired or spent, or it is reserved for another install or request; a conflict if and only if it is not and another machine's, another request's or a revoked install is stored; enrolled otherwise |
| `EnrollmentCredentials.WhoEnrollsByGrant` | fleet-manager/src/manager.go:217-248 | The same of a grant: refused on organization, id, secret, revocation or expiry; a conflict unless the install is absent or stored active for the same machine |
| `EnrollmentCredentials.WhatEnrollingStores` | fleet-manager/src/manager.go:266-354 | A success leaves the install as it was asked for, active, the invite reserved for it and spent, and every other record as it was |
| `EnrollmentCredentials.WhatAGrantStores` | fleet-manager/src/manager.go:234-248 | A grant's success stores the install it was asked for, active, if it was not stored, and touches nothing else |
| `EnrollmentCredentials.WhatAnInviteCallAnswers` | fleet-manager/src/manager.go:252-354 | At any step, whatever others did, an invite call answers success only with its install active, a conflict only with a different or revoked one stored, and refuses exactly when its first read finds the invite unfit |
| `EnrollmentCredentials.WhatAGrantCallAnswers` | fleet-manager/src/manager.go:217-248 | The same of a grant call |
| `EnrollmentCredentials.WhatARevocationAnswers` | fleet-manager/src/admin.go:127-216 | Something unknown fails, something revoked is done already, and any other is written as read but for the revocation, dated by the write, or answered as changed meanwhile |
| `EnrollmentCredentials.WhatAReleaseAnswers` | fleet-manager/src/admin.go:218-242 | Something unknown fails, a spent invite is refused, a free one is done already; a reserved one is refused while its install is stored and not revoked, and otherwise freed if nothing changed meanwhile |
| `EnrollmentCredentials.WhatDyingDoes` | fleet-manager/src/manager.go:286-354 | A call that dies before an operation did nothing of it, one that dies after did all of it, and neither goes on |
| `EnrollmentCredentials.OnlyTheSecretLetsIn` | fleet-manager/src/model.go:369-385 | Over every run each install registered was asked for by a call of this organization that presented the very secret its invite or grant was minted with, and each install activated by an invite by a call that presented that invite's |
| `EnrollmentTermination.EveryCallTerminates` | fleet-manager/src/manager.go:293-354 | In runs without releases no call takes more than 56 steps, however many others interleave |
| `EnrollmentTermination.OwnStepsBounded` | fleet-manager/src/manager.go:293-354 | Each own step of a call uses up a potential that only climbs of the two records refill, and those are bounded |
| `EnrollmentManager.RunsDrift` | fleet-manager/src/manager.go:217-355 | Whatever events without a release do to the store, calls starting, stepping and dying and tokens minted, is an interference the imperative service tolerates |
| `EnrollmentManager.Manager.ReplaceInvite` | fleet-manager/src/manager.go:80-86 | A conditional replace lands only over the record that was read, and leaves the store alone otherwise |
| `EnrollmentManager.Manager.Reserve` | fleet-manager/src/manager.go:277-291 | Reserves a free invite for this request over the content read, or starts over when another write got there first |
| `EnrollmentManager.Manager.Attempt` | fleet-manager/src/manager.go:252-354 | One pass: forbidden without a write when a check fails, going on when the invite is reserved for this same request, and started over only after one of its two records climbed; undisturbed it makes the writes of the stages in order |
| `EnrollmentManager.Manager.EnsureInstall` | fleet-manager/src/manager.go:293-314 | Creates the install pending, or goes on with the one already there only if it is pending for the same enrollment; answers success when that is active and a conflict when it is another or revoked |
| `EnrollmentManager.Manager.SpendInvite` | fleet-manager/src/manager.go:316-332 | Goes on only with the invite spent, by this call or another, whatever its reservation then says: the code does not check it again |
| `EnrollmentManager.Manager.ActivateInstall` | fleet-manager/src/manager.go:334-354 | Activates the install it created, or reports what others made of it |
| `EnrollmentManager.Manager.EnrollInvite` | fleet-manager/src/manager.go:250-355 | With other callers between any two accesses the call terminates, only advances records and answers success only if the install is active; undisturbed it performs the closed-form writes up to the one it dies after |
| `EnrollmentManager.Manager.EnrollGrant` | fleet-manager/src/manager.go:215-248 | Success means the install is active under the same identity; undisturbed, a usable grant creates an absent install active, confirms an active one of the same identity, and answers anything else stored with a conflict |
| `EnrollmentManager.LostSuccessIsRecovered` | fleet-manager/src/manager.go:252-292 | After any further non-release activity the identical request of an invite that succeeded is answered with success if and only if nobody revoked the invite or the install, and writes nothing |
| `EnrollmentManager.LostGrantIsRecovered` | fleet-manager/src/manager.go:217-248 | The same of a grant, for any later request of the same identity: if and only if the grant is unrevoked and unexpired and the install not revoked |
| `InteractiveEnrollment.Client.EnrollmentAttempt` | src/internal/controlplane/enrollment_attempt.go:90-136 | The saved request is reused if it is for the same server and install, a new one is saved before it is sent, and a mismatch is refused without a change |
| `InteractiveEnrollment.Client.EnrollInteractive` | src/internal/controlplane/interactive_enrollment.go:19-69 | At most four exchanges, all naming the pending install; refused before sending exactly when incomplete or mismatched; when the server decided for it the request that succeeded is the one on disk; on a quiet network its outcome is the verdict on the first form, saved invite, saved grant, given token as either, whose credential is not refused, and nothing else is written |
| `InteractiveEnrollment.Client.LoginAgain` | src/internal/controlplane/interactive_enrollment.go:19-69 | A success whose answer was lost, by invite or grant, then anything but a release on the server, then a login with any token and a new key: while nobody took the enrollment back it succeeds in one exchange with the request that was accepted, and the server writes nothing |
| `InteractiveEnrollment.SuccessIsRecovered` | src/internal/controlplane/interactive_enrollment.go:49-60 | After any drift a saved request that succeeded, in either form, is answered with success if and only if it is still honoured |
| `InteractiveEnrollment.FormsAreTried` | src/internal/controlplane/interactive_enrollment.go:49-68 | A saved invite is offered as it is, then as a grant, then the given token both ways; a saved grant from the second on, and the given token only if it is another: the first not refused is heard, or the last |
| `InteractiveEnrollment.Client.FreshLogin` | src/internal/controlplane/interactive_enrollment.go:49-68 | With nothing saved: success if and only if the token is accepted as an invite, or refused as one and accepted as a grant; credentials refused if and only if both are; and just those requests are sent |
| `InteractiveEnrollment.WhoProceeds` | src/internal/controlplane/enrollment_attempt.go:90-118 | Nothing is sent if and only if the endpoint, the install, the recipient or the token is missing, or the attempt on disk is another install's or recipient's, or its key, credential or endpoint is broken |
| `InteractiveEnrollment.SameServerExactly` | src/internal/controlplane/interactive_enrollment.go:29-29 | Two endpoints are one server if and only if they differ by slashes at the end |
| `InteractiveEnrollment.Client.Logins` | src/internal/controlplane/interactive_enrollment.go:19-69 | Any number of logins dying anywhere send one install identity only, at most four requests each |
| `InteractiveEnrollment.Client.Exchange` | fleet-manager/src/server.go:120-180 | Reaches the service by invite or grant; a decided success means the install is active under that credential even when its answer is lost; undisturbed the answer and the store are the verdict and the writes for this form |
| `Reenrollment.Machine.ArchiveRevokedState` | src/app/reenroll.go:88-126 | Every plain file is archived once and never overwritten, in any directory order, killed at any write |
| `Reenrollment.Machine.RepairRevocation` | src/internal/controlplane/revocation.go:39-62 | A corrupt stop marker is replaced by a valid one, and collection is stopped throughout |
| `Reenrollment.Machine.EnrollStaged` | src/app/reenroll.go:41-66 | Given enough writes it is accepted exactly when the staged request is not stale and the first answer accepts, or conflicts and the second accepts under a fresh identity; a stale one stays half-cleared |
| `Reenrollment.Machine.Secure` | src/app/reenroll.go:26-38 | Before anything is sent every state file is archived and the stop marker is valid: it goes on exactly when the install id is a plain name and every entry can be archived |
| `Reenrollment.Machine.Commit` | src/app/reenroll.go:67-81 | Until the enrollment record is replaced the revocation stops collection; once it is, identity and enrollment name one install |
| `Reenrollment.Machine.Reenroll` | src/app/reenroll.go:20-82 | However it ends the directory is safe and the archive only grows; not killed, it replaces the install if and only if the server accepts, every entry can be archived and the staging directory is not half-cleared under another id, and is refused otherwise; a conflict killed between two removals leaves it half-cleared |
| `Reenrollment.Machine.Strand` | src/app/reenroll.go:41-66 | One such kill strands the machine: no number of logins with fresh ids, whatever the server answers, replaces the install afterwards |
| `Reenrollment.Machine.Login` | src/app/login.go:100-104 | A file newly archived is archived as first found if and only if it still is as it was first found |
| `Reenrollment.Machine.Overtake` | src/app/reenroll.go:88-126 | The one way a first version is lost: found by a login killed before it was archived, then rewritten by something else |
| `Reenrollment.Machine.Recover` | src/app/reenroll.go:20-82 | Killed at any write and restarted any number of times, other files changing in between: safe throughout, a commit is never undone, and once committed every file any login found, not rewritten elsewhere before it was archived, is archived as first found |
| `Reenrollment.WhatStopsCollection` | src/internal/controlplane/revocation.go:39-62 | An unreadable or incomplete marker stops collection, and a complete one exactly when it names this install and organization, and this endpoint up to one slash at the end |
| `Reenrollment.PlainNamesAreTheirOwnBase` | src/app/reenroll.go:88-91 | The archive's directory name is accepted if and only if it is its own last path element and no dot entry |
| `Reenrollment.WhatIsArchived` | src/app/reenroll.go:92-122 | Exactly the files that are no lock and not archived yet are copied, and copying fails if and only if one of them is not regular |
| `FilePassInvariants.ConfiguredIsWorkable` | src/internal/engine/pool.go:103-147 | The limits derived from the worker pins leave room for a file, and a group smaller than the in-flight limit |
| `FilePassInvariants.SettleAccounts` | src/internal/engine/pool.go:175-180 | Settling moves a file, and only it, from the flight to the outcomes and gives back exactly the share of the gate it was charged |
| `FilePassInvariants.AddStagedKeeps` | src/internal/engine/upload.go:35-58 | Every group sent is non-empty, within the object cap, and within the byte bound unless it is one object |
| `FilePassInvariants.NextKeeps` | src/internal/engine/pool.go:181-226 | Every event of every schedule keeps the whole invariant, and a latch once set stays set, admits nothing and sends nothing |
| `FilePassInvariants.EveryScheduleIsSound` | src/internal/engine/pool.go:120-226 | In every reachable state the budget is not negative, bytes in flight exceed the gate only for a single file, each kind of stop verdict has been counted at most once, and every figure of the report is the number of files given that decision |
| `FilePassInvariants.LatchedPassSendsNothing` | src/internal/engine/pool.go:316-361 | After a refusal or an unavailable verdict is folded no further file is admitted and no further group is sent |
| `FilePassInvariants.IdleHoldsNothing` | src/internal/engine/pool.go:175-180 | With nothing in flight the gate is handed back in full, and unless latched every admitted file has its outcome |
| `FilePassInvariants.SelectNeverStarves` | src/internal/engine/pool.go:199-208 | Whenever the select is entered some goroutine has an answer coming |
| `FilePassInvariants.HandingBackNeverBlocks` | src/internal/engine/pool.go:129-132 | Results and groups outstanding never exceed the buffered channels |
| `FilePassInvariants.EveryTurnWorks` | src/internal/engine/pool.go:181-226 | Every turn of the loop that is not a deadline or an empty flush reduces the work left |
| `FilePassInvariants.EveryScheduleEnds` | src/internal/engine/pool.go:181-226 | No schedule takes more than nine turns a file and one |
| `FilePassRefinement.FoldTracks` | src/internal/engine/pool.go:316-347 | Settling one more file in any order keeps store, outcomes, counters and budget equal to what the set of settled files determines |
| `FilePassRefinement.TracksAgree` | src/internal/engine/pool.go:316-347 | Two ledgers that settled the same files are the same ledger |
| `FilePassRefinement.SequentialStopsAt` | src/internal/engine/pool.go:271-293 | The one-file-at-a-time loop stops exactly at the first file its refunded budget does not cover |
| `FilePassRefinement.PassRefinesOneAtATime` | src/internal/engine/pool.go:120-226 | With distinct keys, no deadline, committed writes and verdicts that depend on the object and never stop the run, every schedule ends with the admitted count, store, outcomes, counters and budget of the sequential loop |
| `SourcePass.SourcePass.CanAdmit` | src/internal/engine/pool.go:271-293 | Admits exactly when every gate allows it, reserving a unit of budget; a refusal changes at most the deadline flag or the remembered share |
| `SourcePass.SourcePass.ApplyIntent` | src/internal/engine/pool.go:391-411 | Writes the store and rewrites the decision of a ship or refresh whose commit failed, keeping a backoff parked |
| `SourcePass.SourcePass.Fold` | src/internal/engine/pool.go:316-361 | Outcome, counters, budget refund, store and latches change exactly as the transition system says, duplicates of a stop verdict apart |
| `SourcePass.SourcePass.Settle` | src/internal/engine/pool.go:175-180 | Releases the share and folds the result |
| `SourcePass.SourcePass.Add` | src/internal/engine/upload.go:35-46 | Groups one more object exactly as the transition system does |
| `SourcePass.SourcePass.StageUpload` | src/internal/engine/pool.go:414-424 | Abandons a sealed object once latched, else accumulates it |
| `SourcePass.SourcePass.DrainStaged` | src/internal/engine/pool.go:427-437 | Empties the accumulator into abandoned results exactly when a latch is set |
| `SourcePass.SourcePass.Receive` | src/internal/engine/pool.go:200-214 | A finished computation is one computed event of the transition system |
| `SourcePass.SourcePass.Collect` | src/internal/engine/pool.go:215-225 | An answered group is one batch event, members in order, then the drain |
| `SourcePass.SourcePass.Run` | src/internal/engine/pool.go:120-226 | The loop terminates, finished, every field following the transition system; calm over distinct keys it ends as the one-file-at-a-time loop ends |
| `SourcePass.FilesKeepCandidateOrder` | src/internal/engine/pool.go:440-446 | The report lists exactly the decided files in candidate order |
| `SourcePass.SourcePass.Assemble` | src/internal/engine/pool.go:440-446 | Builds that list from the slots |
| `FilePassInvariants.VerdictLatchesExactlyWhenItStops` | src/internal/engine/upload.go:185-218 | Folding an upload's verdict latches if and only if the verdict stops the run; a refusal, an outage and being offline are told apart, a stop commits nothing, and a stored object's fingerprint is recorded |
| `FilePassOutcomes.EveryOutcomeWasDecided` | src/internal/engine/pool.go:316-411 | In every schedule each outcome reported is what one event of the run decided: a computation its own decision, failed when the refresh it asked for could not be written and parked when a backoff could not, an upload shipped only when the archive has it and its fingerprint was written; and each file so concluded has one |
| `FilePassOutcomes.ShippedMeansRecorded` | src/internal/engine/pool.go:391-411 | In every schedule a file reported shipped is one whose fingerprint was written, or that a dry run only reports |
| `FilePassOutcomes.EventDecides` | src/internal/engine/pool.go:316-347 | One event gives outcomes as just said, all that it must, and never changes one given |
| `FilePassOutcomes.GroupSettles` | src/internal/engine/pool.go:316-361 | An answered group records the uploads the archive has, in order, and latches if and only if some verdict was a refusal, or an outage |
| `FilePassOutcomes.ComputationSettles` | src/internal/engine/pool.go:200-214 | A finished computation records the write it asked for, latches nothing, and a sealed object joins the group being gathered |
| `FilePassOutcomes.WhenAFileIsAdmitted` | src/internal/engine/pool.go:271-293 | A file is admitted if and only if one is left, no deadline or stop came, the budget covers it, and its share fits the gate or nothing is in flight |
| `FilePassOutcomes.AfterTheDeadline` | src/internal/engine/pool.go:271-278 | Once the deadline passed no schedule admits another file |
| `FilePassOutcomes.WhenGroupsGo` | src/internal/engine/upload.go:35-58 | A group is sent exactly when the next object would take it over 64 MiB, or when it is full by count or weight; nothing else is |
| `FilePassOutcomes.FlushesAndDeadlines` | src/internal/engine/pool.go:181-226 | A flush with nothing computing sends what was gathered, if anything, as one group; the deadline only stops admission |
| `FilePassOutcomes.TheLimitsAre` | src/internal/engine/pool.go:103-147 | Computations, uploads and group size as derived from the pins and the number of files |
| `FileDecision.BackoffFor` | src/internal/engine/engine.go:520-528 | Between seven eighths of two minutes and one hour for every attempt |
| `FileDecision.BackoffDoubles` | src/internal/engine/engine.go:520-528 | A minute doubled per failure, an hour at most, less up to eight sixty-fourths by the key |
| `FileDecision.WhenAFileIsLeftAlone` | src/internal/engine/file.go:52-66 | Skipped if and only if the entry is parked, its time has not come and the file is no new snapshot; unchanged unread if and only if, not skipped, a committed ship remembers this path, size and mtime, the source is not always read and no enricher wants it again |
| `FileDecision.WhatAReadFileComesTo` | src/internal/engine/file.go:68-166 | A file that is read is unchanged exactly on the remembered hash, parked exactly when it differs and scrubbing fails, failed exactly when it then has no name or seal, else sealed with exactly what was read, or reported by a dry run |
| `FileDecision.WhatADecisionWrites` | src/internal/engine/file.go:98-132 | A dry run or an unread file writes nothing; a refresh writes the file as seen and no failures; a backoff one more failure, its reason and its time |
| `FileDecision.WhatADerivedObjectComesTo` | src/internal/engine/derived.go:174-291 | Unchanged exactly on the remembered output of a committed ship, failed exactly when scrubbing, naming or sealing fails, else sealed with its own hashes and enricher |
| `FileDecision.OnlyASealCarriesANewHash` | src/internal/engine/file.go:91-166 | Refresh and backoff keep the hash they were given; only a sealed object carries a new one, that of the compared content; a dry run asks for neither |
| `FileDecision.FailuresAddUpUntilHandled` | src/internal/engine/file.go:110-119 | Shipping or refreshing forgets earlier failures and records path, size and time; a failure adds one attempt, keeps the remembered hash and waits more than a minute and at most an hour |
| `FileDecision.ContentDecides` | src/internal/engine/file.go:91-119 | A file that is read is unchanged if and only if its content hash is the remembered one |
| `FileDecision.NextScanAgrees` | src/internal/engine/file.go:52-76 | What a scan shipped or refreshed the next scan leaves unopened, and what it backed off the next leaves alone until its time |
| `FileCollection.NextPassOpensNothingDone` | src/internal/engine/pool.go:120-226 | Whatever a calm pass reports shipped or unchanged, in any finishing order, the next pass finds unchanged without opening it |
| `FileCollection.WhatThePassDecides` | src/internal/engine/pool.go:295-313 | Each file of the scan is decided and weighed by what the store said of it, under its own key |
| `FileCollection.WhatAFileWeighs` | src/internal/engine/pool.go:293-313 | A file weighs what it stats, or what it decodes to when it is compressed and will be read |
| `Durability.StepKeepsHonest` | src/internal/engine/upload.go:196-218 | Every step, crash, failed write, refresh, backoff, spec reset and vanish keeps every hash anywhere backed by a confirmed upload |
| `Durability.DurableHashesWereConfirmed` | src/internal/engine/state.go:236-293 | In any history each non-empty hash on disk is that of content the archive had confirmed, or already held, for that key |
| `Durability.UnchangedContentIsInTheArchive` | src/internal/engine/file.go:91-119 | A file read and reported unchanged holds exactly the content the archive confirmed for its key |
| `Durability.DerivationKeepsHonest` | src/internal/engine/derived.go:174-291 | The derived path keeps it too |
| `Durability.OnlyTheArchiveConfirms` | src/internal/engine/upload.go:196-218 | The history grows only by an upload the archive answered for, with the bytes prepared; a restart keeps nothing but the document |
| `Durability.WhatEachEventLeaves` | src/internal/engine/upload.go:196-218 | An upload answered for and a decision with something to write leave one write owed, a write is made once, and the document's operations reach the buffer |
| `Durability.ShippedBecomesDurable` | src/internal/engine/commitbuffer.go:43-61 | A ship answered for, recorded and flushed is in the document on disk |
| `DerivedUploads.DerivedPass.Add` | src/internal/engine/upload.go:35-46 | Accumulates a derived object; the group it displaces is settled first |
| `DerivedUploads.DerivedPass.Flush` | src/internal/engine/derived.go:125-147 | Sends what has accumulated as one group; every member has the outcome of its own verdict, and a batch-wide stop is counted once |
| `DerivedUploads.DerivedPass.ShipDerivedGroups` | src/internal/engine/derived.go:115-171 | Every object ends with one outcome: its own verdict if it was sent, what preparing it came to if it needed no upload before a stop, and not attempted exactly when a stop came before it; the groups sent are those of the specification and the counters agree with the outcomes |
| `DerivedUploads.SentAfterAStop` | src/internal/engine/derived.go:149-167 | After the first stop another object is sent if and only if the stop came from a group that was not full and was sent because the next wanted object did not fit beside it; then exactly that object is sent, alone |
| `DerivedUploads.LateObjectIsSent` | src/internal/engine/derived.go:149-167 | A concrete input on which it is |
| `DerivedUploads.WhatAVerdictMakes` | src/internal/engine/derived.go:174-196 | A derived object is shipped if and only if the archive has it and it was recorded, stopped if and only if refused or the plane is unavailable, failed otherwise |
| `StateStore.BufferIsTransparent` | src/internal/engine/commitbuffer.go:20-90 | While writes succeed every answer through the buffer is that of a store committing immediately, and the document on disk lags on fewer than `limit` keys |
| `StateStore.FailuresLoseNothing` | src/internal/engine/commitbuffer.go:33-90 | Whatever writes fail, the process reads on as through an immediate store, but for an operation given up over a failed flush, and the document is the old one or what the process read before or reads after the operation |
| `StateStore.FailedFlushesAreOwed` | src/internal/engine/commitbuffer.go:43-61 | However many flushes fail, what the document lacks stays pending, so the next that succeeds writes it |
| `StateStore.StepIsImmediate` | src/internal/engine/commitbuffer.go:33-90 | One operation through the buffer is one operation of the immediate store |
| `StateStore.PreviewReadsAsSync` | src/internal/engine/commitbuffer.go:71-83 | A preview reads what a sync would after the same declarations if and only if no unrecorded source with entries is declared under two generations |
| `StateStore.PreviewMissesASecondGeneration` | src/internal/engine/commitbuffer.go:74-83 | A concrete input on which they differ |
| `StateStore.Store.CommitAll` | src/internal/engine/state.go:239-244 | Merges the updates in memory and replaces the document, or keeps the old document on failure |
| `StateStore.Store.EnsureSpec` | src/internal/engine/state.go:255-273 | Drops a source's entries when its generation changed and adopts them when none was recorded, counting the dropped |
| `StateStore.Store.DropVanished` | src/internal/engine/state.go:277-293 | Drops exactly the source's entries not seen, writing only if some were |
| `StateStore.DropsExactly` | src/internal/engine/state.go:255-293 | A spec reset drops exactly its own source's entries and a vanish pass exactly that source's unseen ones |
| `StateStore.CommitBuffer.Get` | src/internal/engine/commitbuffer.go:33-41 | Reads through the mask and the buffer |
| `StateStore.CommitBuffer.Flush` | src/internal/engine/commitbuffer.go:52-61 | One replacement of the document; a failure keeps what was pending |
| `StateStore.CommitBuffer.Commit` | src/internal/engine/commitbuffer.go:43-49 | Buffers, and flushes at the limit |
| `StateStore.CommitBuffer.EnsureSpec` | src/internal/engine/commitbuffer.go:65-70 | Flushes first, then forwards; nothing is forwarded over a failed flush |
| `StateStore.CommitBuffer.PreviewSpec` | src/internal/engine/commitbuffer.go:74-81 | Hides a source recorded under another generation and writes nothing |
| `StateStore.CommitBuffer.DropVanished` | src/internal/engine/commitbuffer.go:85-90 | Flushes first, then forwards |
| `FingerprintDocument.SortedKeys` | src/internal/engine/state.go:358-360 | The keys in order, whatever order the map yields them |
| `FingerprintDocument.Encode` | src/internal/engine/state.go:351-409 | A document that says exactly the entries in key order under its checksum, refused exactly when an entry breaks the schema |
| `FingerprintDocument.EncodingIsDeterministic` | src/internal/engine/state.go:350-362 | Equal states encode equally |
| `FingerprintDocument.Load` | src/internal/engine/state.go:411-492 | Refuses another schema, a wrong checksum and a negative attempts count, and otherwise reads every row |
| `FingerprintDocument.LoadAfterEncode` | src/internal/engine/state.go:350-492 | Load after encode returns every key and every fingerprint up to path form and whole-second backoff |
| `FingerprintDocument.WhatARowSays` | src/internal/engine/state.go:351-409 | A row spells the key, the path, the id where it is another, and every remembered value, times absent, exact or to the second; it conforms exactly when path, size, attempts and shape do |
| `FingerprintDocument.WhatComesBack` | src/internal/engine/state.go:300-409 | Read back, a row yields its key and every value, modification times of four-digit years exactly and backoffs to the second below |
| `FingerprintDocument.DictionaryOrder` | src/internal/engine/state.go:358-360 | Keys are ordered as a dictionary orders their source and id |
| `FingerprintDocument.RowRoundTrip` | src/internal/engine/state.go:53-59 | A row comes back under its own key if and only if its id is not empty or nothing else names it, with its observed path |
| `FingerprintDocument.TimesSurvive` | src/internal/engine/state.go:386-394 | A modification time survives to the nanosecond if and only if it has a four-digit year; a backoff loses less than a second |
| `FingerprintDocument.SecondTripChangesNothing` | src/internal/engine/state.go:350-492 | A further round trip is the identity |
| `FingerprintDocument.EmptyIdsCollapse` | src/internal/engine/state.go:53-59 | Why ids must not be empty: two keys can come back as one |
| `FingerprintDocument.TamperingIsRejected` | src/internal/engine/state.go:322-334 | A value changed under a kept checksum fails it |
| `ConfigLayers.UnionStrings` | src/internal/config/resolve.go:643-651 | The base, then each new string once |
| `ConfigLayers.MergeExemptions` | src/internal/config/resolve.go:653-662 | Key by key union, whatever the map order |
| `ConfigLayers.Effective.ApplyDocument` | src/internal/config/resolve.go:219-315 | A layer is refused exactly for a setting it may not make, and otherwise changes exactly the settings it states |
| `ConfigLayers.Effective.ToggleEnrichers` | src/internal/config/resolve.go:370-388 | Refuses an enricher the source does not have, passes over a served "on", and applies the rest |
| `ConfigLayers.Effective.ApplyOverrides` | src/internal/config/resolve.go:323-395 | One source folded through its overrides in layer order, a served enable skipped over a local disable, additions appended last |
| `ConfigLayers.Effective.Resolve` | src/internal/config/resolve.go:116-205 | All layers, then all sources, accepted exactly when each layer is readable and each source folds |
| `ConfigLayers.LastWordCounts` | src/internal/config/resolve.go:219-315 | Every scalar, version, schedule, limits, deadline, state directory, targets, self-update, organization, telemetry endpoint and install recipient, is what the last layer to state it says |
| `ConfigLayers.ListsKeepEverything` | src/internal/config/resolve.go:219-315 | Rule packs, secret names and recipients hold what any layer added |
| `ConfigLayers.WhatALayerMaySay` | src/internal/config/resolve.go:219-315 | A layer is refused if and only if a local one speaks for the organization or names the telemetry route, a served one speaks for the machine or turns self-update on, or a deadline or route is none |
| `ConfigLayers.WhatALayerSets` | src/internal/config/resolve.go:219-315 | Every setting is what the layer states, or as before; lists gain the new strings once each, in order, exemptions key by key |
| `ConfigLayers.WhatAnOverrideDoes` | src/internal/config/resolve.go:330-391 | Refused if and only if an addition is no exclusion or, unless it is passed over, an enricher is unknown; a served enable over a local disable is passed over but for additions; any other replaces what it states and enables enrichers only if local |
| `ConfigLayers.LastEntryWins` | src/internal/config/resolve.go:323-395 | The last entry of the last layer decides what it states, unless it is a served enable |
| `ConfigLayers.UnstatedStays` | src/internal/config/resolve.go:323-395 | What no override states is as the catalog has it |
| `ConfigLayers.WhatASourceResolvesTo` | src/internal/config/resolve.go:393-402 | A resolved source excludes its folded list, then each addition once, and is otherwise as folded |
| `ConfigLayers.ServedSettingsNarrow` | src/internal/config/resolve.go:219-315 | Under a served layer rule packs, secret names and recipients grow, state_dir and upload_targets are unchanged and self-update only goes off |
| `ConfigLayers.ServedLayerOnlyNarrows` | src/internal/config/resolve.go:116-216 | Besides, a locally disabled source is not enabled beyond its local result, no enricher turns on, and every layer's additional exclusions are in force |
| `Exclusions.ServedLayerCollectsNoMoreExactlyWhen` | src/internal/config/resolve.go:325-400 | For every matcher and file, a served layer leaves a source collecting no more if and only if it ends with nothing to collect, or enabled below, under the same roots, with no larger limit, no new include and every exclude kept |
| `Exclusions.ServedLayerMayCollectMore` | src/internal/config/resolve.go:356-364 | A served layer under which an excluded file is newly collected |
| `Exclusions.SubtractingEntriesNarrow` | src/internal/config/resolve.go:325-400 | A served document whose entries for a source only switch it off or exclude more never widens it |
| `Exclusions.ReduceSourceExclusions` | shipper-protocol/exclusions.go:40-57 | Pauses every entry of an affected id, duplicates included, and drops all additions |
| `Exclusions.CollectionForBuild` | fleet-manager/src/catalog.go:278-307 | Leaves out entries the build lacks and reduces for a build that cannot enforce additions |
| `Exclusions.WhatReductionDoes` | shipper-protocol/exclusions.go:40-57 | Entry by entry: an id with additions anywhere is off, additions are gone, all else is as it was |
| `Exclusions.WhatABuildIsServed` | fleet-manager/src/catalog.go:278-307 | In order, exactly the entries of sources the build lists, or all when it listed none; reduced if and only if it did not say it enforces additions |
| `Exclusions.ReductionNeverWidens` | shipper-protocol/exclusions.go:40-57 | Every file collected from the reduced document is collected from the full one, and sources without additions resolve identically |
| `Exclusions.BuildsWithOneCatalog` | fleet-manager/src/catalog.go:278-307 | The same of the documents served to two builds with one catalog |
| `Exclusions.ReducedIsAcceptedExactlyWhenEntriesAreKnown` | src/internal/config/resolve.go:341-375 | Where the full document is accepted the reduced one is if and only if the paused entries name only enrichers the build has |
| `Exclusions.ReducedMayBeRefused` | src/internal/config/resolve.go:343-346 | The inputs on which it is not: an owner's disable hides an unknown enricher that the pause uncovers |
| `ConfigCache.ReduceCachedConfig` | src/internal/controlplane/cache.go:109-151 | Rewrites exactly the entries, keeps everything else, and names the feature it rewrote |
| `ConfigCache.SaveCache` | src/internal/controlplane/cache.go:41-68 | Keeps both copies when they fit, only the reduced one when they do not, nothing when that does not |
| `ConfigCache.WhatTheReducedCopySays` | src/internal/controlplane/cache.go:109-151 | Entry by entry what the reduced copy holds, of a document that names additions and of one that does not |
| `ConfigCache.WhatIsKept` | src/internal/controlplane/cache.go:41-107 | Which document is taken for the full one, and that both copies, the reduced one or nothing is kept exactly by what fits |
| `ConfigCache.CacheServesWhatTheReaderCanEnforce` | src/internal/controlplane/cache.go:95-107 | A supporting reader gets the fetched document back whenever it fits and the reduced one otherwise; any other reader, and an old one, gets the reduced one |
| `ConfigCache.SavingAgain` | src/internal/controlplane/cache.go:41-68 | Saving what was read back changes nothing, and an old reader's save keeps the reduced copy |
| `TokenBucket.TelemetryProxy.Allow` | fleet-manager/src/telemetry.go:71-100 | Evicts, refills, spends or refuses exactly as specified |
| `TokenBucket.WhoIsServed` | fleet-manager/src/telemetry.go:71-100 | A known install is served if and only if it has a token, an unknown one if and only if a burst holds one and there is room or an idle bucket to forget; one token is spent, only idle buckets are forgotten, only then, and never more than ten thousand are held |
| `TokenBucket.LevelRefillsExactly` | fleet-manager/src/telemetry.go:88-99 | Waiting refills exactly at the rate up to the burst, so a request after enough waiting is granted |
| `TokenBucket.WindowIsBounded` | fleet-manager/src/telemetry.go:71-100 | In any window of any run one id is granted at most burst plus rate times the window's length |
| `TokenBucket.EvictionIsInvisible` | fleet-manager/src/telemetry.go:75-85 | Evicting changes no level, now or later |
| `TokenBucket.EvictionNeverShows` | fleet-manager/src/telemetry.go:71-100 | Until the first refusal for want of room the capped map answers as an uncapped one |
| `InventoryCsv.ParseInventoryCsv` | fleet-manager/src/admin-ui/metadata-import.js:4-27 | The index loop computes the scanner's result on every text, errors included |
| `InventoryCsv.LineBreaksAreUnified` | fleet-manager/src/admin-ui/metadata-import.js:4-9 | Every carriage return, with the line feed after it if there is one, is read as one line feed and nothing else changes |
| `InventoryCsv.WrittenTablesReadBack` | fleet-manager/src/admin-ui/metadata-import.js:4-27 | Every way rules 5 to 7 of section 2 of RFC 4180 allow a table to be written, with either line break and with or without the last, reads back as that table less blank rows |
| `InventoryCsv.StrayQuotesAreRefused` | fleet-manager/src/admin-ui/metadata-import.js:10-25 | A quote inside a bare field, text after a closing quote and a quote never closed are refused |
| `InventoryCsv.NothingIsLostExactlyWhenNoRowIsBlank` | fleet-manager/src/admin-ui/metadata-import.js:16-18 | The table reads back whole if and only if each row holds a non-empty field |
| `ObjectNaming.EncodeSegment` | src/internal/formats/naming.go:78-94 | Computes the percent encoding byte by byte |
| `ObjectNaming.WhatAByteEncodesTo` | src/internal/formats/naming.go:76-94 | Letters, digits, hyphen, dot, underscore and tilde stand for themselves; any other byte is a percent sign and two upper-case hexadecimal digits |
| `ObjectNaming.EncodingIsReversible` | src/internal/formats/naming.go:76-94 | The encoding has a left inverse and never holds a slash |
| `ObjectNaming.CanonicalIsInjective` | src/internal/formats/naming.go:29-44 | Two cleaned, placeholdered paths share a canonical path only if equal |
| `ObjectNaming.ApplyUserPlaceholder` | src/internal/formats/naming.go:46-70 | The loop computes the boundary-checked replacement |
| `ObjectNaming.WhatThePassReplaces` | src/internal/formats/naming.go:46-70 | For any name of two bytes or more, from left to right, exactly the places where it stands with no letter or digit beside it and that no earlier one overlaps become the placeholder |
| `ObjectNaming.ReplacesWholeRuns` | src/internal/formats/naming.go:46-70 | For an alphanumeric name of two or more characters it replaces exactly the maximal alphanumeric runs equal to it |
| `ObjectNaming.PlacingIsIdempotent` | src/internal/formats/naming.go:46-70 | Placing twice is placing once if and only if the name is not USER |
| `ObjectNaming.RenamingKeepsThePath` | src/internal/formats/naming.go:29-70 | A consistent rename to a name not in the path leaves the canonical path as it was |
| `ObjectNaming.CanonicalPath` | src/internal/formats/naming.go:29-44 | Trims, places, splits, encodes and joins |
| `UploadAuthorization.AcceptedStaysInItsRoot` | fleet-manager/src/upload.go:157-193 | An accepted object lies under its install's own root, fits, and carries only metadata a client may set plus its source hash |
| `UploadAuthorization.WhichDescriptorsAreAccepted` | fleet-manager/src/upload.go:157-215 | A descriptor is accepted if and only if size and hash are in order and its key names a mirrored file of this install with valid metadata of the eight names, the four required and its own source, or the heartbeat with its one |
| `UploadAuthorization.WhenARequestIsAcceptable` | fleet-manager/src/upload.go:113-155 | Acceptable if and only if it is timely, of one to 32 descriptors no two sharing an id or key, each accepted, and within a GiB |
| `UploadAuthorization.ValidateUploadRequest` | fleet-manager/src/upload.go:113-155 | Accepts exactly a timely request of 1 to 32 valid objects with distinct ids and keys within the byte limit |
| `UploadAuthorization.SplitAlreadyStored` | fleet-manager/src/upload.go:228-252 | Splits the batch by what the archive holds under both hashes |
| `UploadAuthorization.SplitByContent` | fleet-manager/src/upload.go:228-285 | Each object goes one way, in order: it needs no upload if and only if it is a mirrored one whose key the archive holds under the same source hash and the same, non-empty, shipped hash |
| `UploadAuthorization.ValidateTicketHeaders` | fleet-manager/src/server.go:445-507 | Accepts exactly the headers of one dialect that carry the object's metadata and nothing else |
| `UploadAuthorization.TheHeadersOfAnObject` | fleet-manager/src/server.go:445-507 | The headers, spelled out for each provider: prefix, underscores for Azure, tagging and blob type, lower case, one for each metadata value and no other |
| `UploadAuthorization.ValidateTicketBatch` | fleet-manager/src/server.go:391-424 | Accepts exactly one capability per object, each for its own id, size, key, headers and window |
| `UploadAuthorization.WhatATicketMustBe` | fleet-manager/src/server.go:391-443 | A ticket is for an object if and only if it names it, signs its size, expires in the window, carries its exact headers and puts to a safe address that ends in its key |
| `UploadAuthorization.SignedAndSettledAnswerEach` | fleet-manager/src/server.go:367-389 | Accepted tickets and already-present answers together are a permutation of the requested ids, each resolving its object |
| `UploadAuthorization.HandleUploadAuthorize` | fleet-manager/src/server.go:351-389 | Answered exactly when the request is acceptable and what the archive lacks is signed as asked; then each object is resolved exactly once |
| `UploadAuthorization.RequestIsServed` | fleet-manager/src/server.go:351-389 | Descriptor by descriptor: told it is already present, and given nothing else, if and only if the archive holds this source hash and this shipped hash under this key; otherwise a capability to put exactly that object, with its metadata, source hash and ticket id for headers, for five minutes |
| `UploadPort.PairTickets` | src/app/vendupload.go:100-107 | Indexes the tickets, refusing two for one object |
| `UploadPort.AuthorizeAndUpload` | src/app/vendupload.go:89-135 | A request that may not be made, a failed authorization or a doubled ticket gives every slot that one outcome; otherwise each slot, in order whatever order the uploads finish in, has the outcome its object is due |
| `UploadPort.AnswerPairsUp` | src/app/vendupload.go:111-134 | An answer that resolves each object leaves no ticket doubled or missing: each object is held already or spent on its own ticket |
| `UploadPort.Spend` | src/internal/engine/upload.go:141-183 | At most one more authorization, for exactly the expired objects under fresh ids, whose second answer is final; every other object keeps its first |

## Left out

- Several organizations: a token names its organization and the service picks the store by it; one organization's store is modelled.
- Cloud providers, HTTP, signing keys and encryption: the store is a map with conditional writes, the signer returns anything, digests and seals are functions of their input.
- Clocks: times are integers handed in, and one pass sees one time.
- Partial writes: replacing a file is one step, as the platform's atomic write promises; the process lock is mutual exclusion.
- Record parsing, JSON and YAML text, globs, regular expressions and path cleaning: decoded values, abstract matchers and cleaned paths; text is valid Unicode.
- A candidate's share of the byte gate is remembered for every file; the code remembers it for compressed ones and takes the others' from their size, which does not change.
- Audit lines, progress streams, report sums and the crash journal.
- Source discovery, scrubbing rules, enrichers and the order of sources in a run; the budget is handed to a pass and read back from it.
- Provenance of settings, and the checks after the merge (accepted versions, target origins, known packs, parsable recipients, root selection): each only refuses a whole configuration.
- The administrator's check of a collection against reported catalogs, catalog decoding, and the notes a reduction leaves.
- Inventory header and row limits after the scan.
- Rounding of token counts and of the refill duration: exact reals.
- HMAC names and composed object keys beyond the canonical path.
- The heartbeat's own upload, sink probes and pinned-target checks of a ticket on the client: one function of the object and its ticket decides the outcome of a PUT.
- Reenrollment.Machine.Recover: names a fresh identity as one whose id is not the revoked install's; ids are otherwise arbitrary.
- InteractiveEnrollment.Client.EnrollInteractive: its outcome is stated for a network without other callers during that login, in `LoginAgain` too; with them, what it sends, how often, and what a decided success leaves still hold.
- ConfigLayers.ServedLayerOnlyNarrows: says nothing of the schedule, limits of a run and structural exemptions, which a served layer may set; roots, file limits and globs are in `Exclusions`.
- FilePassRefinement.PassRefinesOneAtATime: asks for distinct keys; two candidates of one key read each other's fingerprints in an order that depends on the schedule.
