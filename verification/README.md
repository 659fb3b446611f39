# iam-org-membership: a Dafny model

A model of the parts of the org-membership service whose correctness depends on the order
of locks, writes and reads: the tenant event consumer with park-and-replay, the
plan-generation cache protocol, the membership and role mutators with their event log,
seats and invitations, and the seat-overage reconciler.

Each concurrent component has two layers.

- A step system: a `World`, a total `Next(world, step)` and `Run` over any sequence of steps.
  A step is what happens between two points at which another transaction, request or
  process may act; a step that is not possible changes nothing, so a theorem about every
  `Run` is a theorem about every interleaving. What a mutator reads before its transaction
  is a step of its own and may be stale.
- A class with the source's own methods and loops, each proved to be one step, or an exact
  composition of steps, of that system, and to do to rows, keys and events what its contract
  spells out without naming a step.

| files | component |
|---|---|
| `Tenants` | the `tenants` row, its CHECK constraints, the projection of each event |
| `ParkReplay`, `ParkReplaySafety`, `ParkReplayTheorems`, `OrderIndependence` | consumer, I-1 and replay as steps; invariants; theorems |
| `Consumer`, `TrialDays` | the consumer and I-1 as they run; the trial length read before the row lock |
| `PlanCache`, `PlanCacheFindings`, `MembershipCache` | the generation protocol; three ways around it; I-8 and the catalog consumer as they run |
| `Roles`, `RoleRuns`, `Effects`, `LastOwner` | tables and events; every run of the mutators; what each does, row by row; owners |
| `OwnerlessRace`, `GrantRace` | where those transactions are not one step: I-5 and O-7 without the tenant lock, grants that find their row |
| `Groups`, `Members` | I-10 resolution; the mutators' transactions as they run |
| `Invitations`, `InvitationCourses`, `KeycloakCleanup`, `InvitationService` | seats, outcomes, markers; the service and the cleanup job as they run |
| `Onboarding` | invitations and the membership tables together |
| `Overage` | the seat-overage reconciler |

Times are integers. Events, users, departments and invitations are named by naturals; an
event id names one envelope. Database transactions are atomic from their first row lock,
as PostgreSQL's READ COMMITTED makes them for the rows they lock; where a transaction
decides on rows it does not lock or on a clock it does not read again (the list and the count of
owners, the count of seats, I-3's look at an expiry, a grant that finds its row, the
sub-select of an expiry, the plan a reactivation's trial length comes from), the decision and
the commit are two steps, in the modules named for it. Answers of the database whose order is not fixed (RETURNING, map iteration) and of other services (the Catalog,
DeleteUser, the generator of TTL jitter) are parameters, so the results hold for every answer.

## Properties that do not hold of the code

Each is shown by a run and followed by the exact condition.

- A delivery can be acknowledged and lost. The lookup in `tenantAbsent` takes any row for a
  soft-deleted one; if I-1 commits between the row lock and that lookup, the event is
  dropped for a live tenant (`ADeliveryCanBeLost`; exactly then: `LostExactlyInTheGap`; never
  otherwise: `NoGapNoLoss`).
- An event can fail on every delivery, because its statement violates a CHECK of the row: a
  cancellation, an offboarding or a past-due notice for a tenant that never paid, and a conversion,
  a past-due notice, a trial expiry or a trial reactivation while `cancelled_at` is set
  (exactly, for every event and row: `ProjectionSucceedsExactly`).
- A reactivation can get a trial of the wrong length, or one that ends at once. The plan is read
  before the row lock; if I-1 commits in between, the row is locked with zero days and the
  tenant's only reactivation is used up (`AReactivationCanGetNoDays`; exactly:
  `ReactivationGetsItsDaysExactly`, `ReplayGetsItsDaysExactly`). The redelivery in `Handle` covers
  only an I-1 that commits after the row lock.
- A retired cache entry can be served again when an older event's bump is repeated after a newer
  one (`RepeatedBumpRevives`), which the transaction's rollback does not undo. Exactly: a step
  serves an entry whose lookup missed a change if and only if it revives it
  (`CoveredExactly`, `CoveredThroughout`); orderly bumps never do (`GenerationSafety`).
- `om:plans` or its stale copy can hold an old catalog after its clear, because a refresh fetches
  and then stores twice (`StraddlingRefreshServesOld`, `LateStaleCopyServesOld`; exactly the
  SETs that straddle a clear: `StoreKeepsFreshExactly`).
- TM-8 speaks of owners whose membership is active; `CountActiveOwners` counts role rows. Two
  owners can be suspended one after the other (`BothOwnersCanBeSuspended`; exactly, where each
  transaction is one step: `ActiveOwnerLeftExactly` and, over runs, `AnActiveOwnerRemains`; the row
  count is enough whenever every owner row belongs to an active member:
  `RowCountSufficesWhenOwnersActive`).
- A tenant can lose its last owner without `ownerless_since`: by two I-5 deletions at once
  (`TwoDeletionsLoseTheMark`); by an I-5 deletion beside a P-8 or P-28, whose tenant lock I-5
  does not take (`RemovalAndDeletionLoseTheMark`, `DeletionAroundRemovalLosesTheMark`); by an O-7
  that found the row of the owner being deleted and then clears the mark
  (`ReassigningTheDeletedOwnerLosesTheMark`); or by an I-5 that listed no owner role, and so
  never counts, before an O-7 made the member owner (`DeletingTheNewOwnerLosesTheMark`). Exactly:
  `MarkLostExactly`, `MarkedThroughout`.
- The event log can end in a Granted for a role that is gone: a grant that finds its row locks
  nothing and still announces it, after a revocation (`AGrantCanBeBelated`; exactly:
  `FaithLostExactly`, `FaithfulThroughout`).
- An invitation can be both revoked and expired: the expiry's UPDATE picks its rows in a
  sub-select and does not look at the status again (`AnExpiryCanOverwriteARevoke`; exactly:
  `OneOutcomeExactly`, `OneOutcomeWins`, `SettledChangesExactly`). Then, and only then, the
  revoke's second statement fails on its version (`MarkConflictsExactly`).
- A revoke that stops between its two statements leaves a Keycloak user that no job will delete
  (`ARevokeCanDie`; exactly then: `MarkedUnlessRevokeDied`; for good, unless an expiry had picked
  the row: `ForgottenExactly`, `ForgottenForGood`). An invite that loses the seat race leaves no row
  at all if the service's clock is not past the transaction's time (`LostRaceMarksExactly`).
- I-10 run twice can emit events the second time (`SecondJitQuietExactly`: exactly if some
  department has two matched levels).
- Occupancy can grow at or above the cap: exactly by a plain add, by an acceptance whose
  invitation was settled in the meantime, by a reactivation, by the acceptance of an invitation
  that expired after I-3 looked at it (`AnInvitationCanLapse`), and by an invite or an acceptance
  of an overdue invitation whose count a reactivation has overtaken (`SeatCapExactly`,
  `AnInviteCanBeOvertaken`). The lapsed acceptance alone never takes a tenant over a cap it was
  within (`CapHolds`): the seat it gave up is still free.

Where code and documentation disagree the model follows the code: `LockByID` fails for a
missing tenant although its port comment calls that a no-op, and only the reconciler writes
`overage_since` although its comment says the mutators do as well.

## Model

| member | source | states |
|---|---|---|
| `Tenants.ProjectionStoresWhatItReports` | internal/adapter/inbound/consumer/membership_event_consumer.go:405-602 | The status and plan reported to the relay are the ones the UPDATE stored, the stored row meets every CHECK constraint, and only TenantOffboarded soft-deletes or offboards. |
| `Tenants.ProjectionTouchesOnlyItsColumns` | internal/adapter/outbound/postgres/tenant_repository.go:462-550 | An event whose condition on the old columns holds goes through, and which one may change the realm, seats, plan, trial, subscription start, suspension source and cancellation time, and to what; a trial is extended at most once. |
| `Tenants.ProjectionRunsItsStatement` | internal/adapter/inbound/consumer/membership_event_consumer.go:405-602 | Each event runs one statement, on the row or not at all: what is stored and reported, and exactly when it fails to decode, names no plan or, as a condition on the old columns, violates a CHECK. |
| `Tenants.ProjectionSucceedsExactly` | internal/adapter/outbound/postgres/tenant_repository.go:475-545 | For every event on a live row that meets the CHECKs: exactly when it goes through, as a condition on the old columns, with which error it does not, and what status, suspension, cancellation, plan, subscription, seats, trial, realm and deletion become. |
| `Tenants.ProjectExactly` | internal/adapter/inbound/consumer/membership_event_consumer.go:272-380 | A tie or an older event is skipped and nothing else is; a later one goes through exactly as above, moves the watermark, announces a changed status or plan and, when it offboards, the purge with the wipe. |
| `ParkReplay.FirstExists` | internal/adapter/outbound/postgres/parked_tenant_event_repository.go:35-58 | A non-empty set of parked events has a first one in (occurred_at, event_id) order. |
| `ParkReplaySafety.RunKeepsInv` | internal/adapter/inbound/consumer/membership_event_consumer.go:147-209 | One inductive invariant over every run: exactly-one-place accounting, nothing parked under a live row, passes cover what is parked, strict maxima and watermark, clamp, relay chain, purge with wipe. |
| `ParkReplaySafety.VerdictKeepsInv` | internal/adapter/inbound/consumer/membership_event_consumer.go:272-380 | Committing a projection verdict, from the live path or a replay, keeps that invariant. |
| `ParkReplaySafety.ParkKeepsInv` | internal/adapter/inbound/consumer/membership_event_consumer.go:760-789 | The decision under the provisioning lock (park, project, or redeliver) keeps it. |
| `ParkReplaySafety.ReplayKeepsInv` | internal/adapter/inbound/consumer/membership_event_consumer.go:834-871 | One iteration of any of several concurrent replay passes keeps it. |
| `ParkReplayTheorems.EachEventHasOneOutcome` | internal/adapter/inbound/consumer/membership_event_consumer.go:181-200 | In every reachable state an acknowledged event is still parked or has exactly one outcome, never both and never neither; an unacknowledged one has left no trace. |
| `ParkReplayTheorems.DropsAreJustified` | internal/adapter/inbound/consumer/membership_event_consumer.go:743-753 | A drop for a deleted tenant happens only to one, and only TenantOffboarded is dropped for want of a row. |
| `ParkReplayTheorems.ParkedOnlyShrinks` | internal/adapter/inbound/consumer/membership_event_consumer.go:760-784 | Once the live row exists nothing is parked any more, through every continuation that leaves it live. |
| `ParkReplayTheorems.CleanPassEmptiesParked` | internal/adapter/inbound/consumer/membership_event_consumer.go:824-876 | A replay pass that reaches the end of its list leaves nothing parked. |
| `ParkReplayTheorems.ReplayTakesTheEarliest` | internal/adapter/inbound/consumer/membership_event_consumer.go:806-857 | Whatever passes run concurrently, an event a pass projects precedes every event still parked. |
| `ParkReplayTheorems.ReplaysApplyInOrder` | internal/adapter/inbound/consumer/membership_event_consumer.go:806-871 | Of two replayed projections in one run, by any two passes, the earlier one is the earlier event. |
| `ParkReplayTheorems.AppliedAreStrictMaxima` | internal/adapter/inbound/consumer/membership_event_consumer.go:273-299 | The applied events are exactly the strict left-to-right maxima by time, the watermark is their maximum, and none is applied twice even if the inbox is pruned at any moment. |
| `ParkReplayTheorems.WatermarkWithinSkew` | internal/adapter/inbound/consumer/membership_event_consumer.go:149-154 | last_event_at never exceeds now plus skew, nor does any parked event, although replay does not check again. |
| `ParkReplayTheorems.RelayChainReachesTheRow` | internal/adapter/inbound/consumer/membership_event_consumer.go:306-330 | The relayed events form a contiguous chain from TenantCreated (trial) to the row's status and plan; the child wipe and TenantMembershipsPurged happen together, once, exactly if the tenant is offboarded. |
| `ParkReplayTheorems.RowsMeetTheChecks` | internal/adapter/outbound/postgres/migrations/000000_initial_schema.up.sql:198-222 | Every row of every run meets the CHECKs. |
| `ParkReplayTheorems.PrunedRedeliveryIsSkipped` | internal/adapter/inbound/consumer/membership_event_consumer.go:273-286 | An applied event whose inbox row has been pruned is redelivered without any effect on the tenant. |
| `ParkReplayTheorems.ChainIsContiguous` | internal/adapter/inbound/consumer/membership_event_consumer.go:288-330 | Each link starts where the one before ended and is no self-loop. |
| `ParkReplayTheorems.OffboardingIsTerminal` | internal/adapter/inbound/consumer/membership_event_consumer.go:343-379 | A soft-deleted row, its outbox and its wipe count stay as they are in every continuation. |
| `ParkReplayTheorems.ADeliveryCanBeLost` | internal/adapter/inbound/consumer/membership_event_consumer.go:743-753 | A run in which a seat change is acknowledged, neither applied nor parked, and not redelivered. |
| `ParkReplayTheorems.LostExactlyInTheGap` | internal/adapter/inbound/consumer/membership_event_consumer.go:183-190 | A waiting delivery is lost if and only if there was no row at its row lock and I-1 created it before the lookup. |
| `ParkReplayTheorems.NoGapNoLoss` | internal/adapter/inbound/consumer/membership_event_consumer.go:743-789 | Without such an I-1 no event of any run is lost. |
| `OrderIndependence.ReplayAllIsTheFold` | internal/adapter/inbound/consumer/membership_event_consumer.go:814-876 | An undisturbed pass is the fold of the projection over the listed events: row, relays, outcomes and what stays parked, failures included. |
| `OrderIndependence.ReplayOrderIsUnique` | internal/adapter/outbound/postgres/parked_tenant_event_repository.go:35-58 | A set of parked events has one listing. |
| `OrderIndependence.SignUpIsTheFold` | internal/core/service/provisioning_service.go:228-374 | I-1 and its replay end in the fold of what was parked over the row I-1 inserts. |
| `OrderIndependence.DeliveryOrderIsIrrelevant` | internal/adapter/inbound/consumer/membership_event_consumer.go:806-876 | Any two histories that acknowledged the same events before the tenant existed end in the same row and the same relays. |
| `OrderIndependence.NewTenantSkipsExactlyTies` | internal/adapter/inbound/consumer/membership_event_consumer.go:273-286 | An error-free replay skips nothing as stale if and only if the timestamps are distinct. |
| `Consumer.MembershipEventConsumer.ProjectLocked` | internal/adapter/inbound/consumer/membership_event_consumer.go:272-380 | The method commits exactly the verdict of the projection, or changes nothing; it fails exactly if the event is not older than the last and its condition on the old columns fails, and otherwise the row's columns, the relays, the wipe and the watermark are as spelled out. |
| `Consumer.MembershipEventConsumer.Deliver` | internal/adapter/inbound/consumer/membership_event_consumer.go:147-190 | Handle up to its first row lock is the delivery step in any state; a poison pill is exactly an event dated later than now plus the skew, a duplicate exactly one in the inbox, and the transaction stays open exactly for a lifecycle event without a live row that is no offboarding. |
| `Consumer.MembershipEventConsumer.TenantAbsent` | internal/adapter/inbound/consumer/membership_event_consumer.go:743-753 | The lookup step in any state; it drops whenever it sees a row, and goes on to the provisioning lock otherwise. |
| `Consumer.MembershipEventConsumer.ParkOrProject` | internal/adapter/inbound/consumer/membership_event_consumer.go:760-789 | The step under the provisioning lock in any state: without a live row the event is parked and acknowledged; with one a TrialReactivated is left for redelivery and any other event lands or fails exactly as on the live path. |
| `Consumer.MembershipEventConsumer.HandleLifecycle` | internal/adapter/inbound/consumer/membership_event_consumer.go:174-209 | An undisturbed call is a run of those steps and keeps the state reachable; from what it finds (clock, inbox, row, event) it states the reply and the whole new state: poison pill, duplicate, acknowledged only, parked, dropped, landed or failed. |
| `Consumer.MembershipEventConsumer.HandleIdentityProvisioned` | internal/adapter/inbound/consumer/membership_event_consumer.go:663-711 | I-1 with its replay unless the tenant has a row in any form, then the inbox claim; exactly which events are poison, which payloads are rejected, which failures are retried, that none of these changes anything, and the row of a tenant with nothing parked. |
| `Consumer.MembershipEventConsumer.Handle` | internal/adapter/inbound/consumer/membership_event_consumer.go:147-209 | Every event type: the state stays reachable, so every theorem about reachable states holds of it; a poison pill is exactly an event dated later than now plus the skew; what a lifecycle event comes to. |
| `Consumer.MembershipEventConsumer.ReplayOne` | internal/adapter/inbound/consumer/membership_event_consumer.go:824-871 | One loop iteration is the replay step; from the parked set and the row it states what is left: passed over, stopped, dropped, landed or, on error, rolled back. |
| `Consumer.MembershipEventConsumer.ReplayParked` | internal/adapter/inbound/consumer/membership_event_consumer.go:814-876 | The loop is the whole pass, for any list; it counts the events it brought to the projection, and it ends well if and only if none of the list is still parked. |
| `Consumer.MembershipEventConsumer.InsertTenant` | internal/core/service/provisioning_service.go:228-337 | I-1's transaction: nothing when the row exists; otherwise the trial row, column by column (ten seats when none are asked for, days of 86400 s), and its two first events. |
| `Consumer.MembershipEventConsumer.TrialSignup` | internal/core/service/provisioning_service.go:228-374 | I-1 followed by its replay, from a row whose columns are those. |
| `TrialDays.ReactivationGetsItsDaysExactly` | internal/adapter/inbound/consumer/membership_event_consumer.go:172-200 | Whatever runs between the plan read and the row lock, a delivered reactivation is used up, and extends the trial by the days of the locked row's plan if and only if the plan read has as many, or no row was read and it has none. |
| `TrialDays.ReplayGetsItsDaysExactly` | internal/adapter/inbound/consumer/membership_event_consumer.go:829-857 | The same for an iteration of a replay pass. |
| `TrialDays.AReactivationCanGetNoDays` | internal/adapter/inbound/consumer/membership_event_consumer.go:223-248 | For any seed and catalog: I-1 commits in between, and the trial ends at once. |
| `PlanCache.RunKeepsInv` | internal/core/service/authz_service.go:214-260 | Over every interleaving of readers, consumers and clock: stamps are the last bump the MGET saw, later bumps are no older than it, clears precede bumps, entry lifetimes. |
| `PlanCache.GenerationSafety` | internal/adapter/inbound/consumer/catalog_consumer.go:132-150 | Every hit's plan lookup began after the clear of every change that has bumped its plan, in every run of orderly bumps. |
| `PlanCache.NoneReturnsSnoc` | internal/adapter/inbound/consumer/catalog_consumer.go:138-144 | A bump lets no generation value return if and only if its event is new to the plan or was its last. |
| `PlanCache.CoveredExactly` | internal/core/service/authz_service.go:214-260 | A step leaves an entry that is served only with every change of its plan if and only if it is neither a bump nor a back-fill that revives one lacking a change. |
| `PlanCache.CoveredThroughout` | internal/core/service/authz_service.go:214-260 | Over whole runs: covered at every point if and only if never revived. |
| `PlanCache.BumpRetiresEveryEntry` | internal/core/port/cache.go:23-34 | One SET with a new event id turns every cached entry of the plan into a miss. |
| `PlanCache.ExpiryNeverRevives` | internal/core/port/cache.go:35-38 | In every run, while an entry built before its plan's last bump is alive, that bump's generation key is still there. |
| `PlanCache.BackFillWritesExactly` | internal/core/service/authz_service.go:246-259 | An entry is written if and only if the lookup is over and the request's 30 s are not; it carries the stamp and baseline read, and lives 300 s plus the jitter. |
| `PlanCache.StoreKeepsFreshExactly` | internal/core/service/catalog_service.go:193-203 | A step keeps `om:plans` and its stale copy as new as every clear if and only if it is not a SET of either that straddles one. |
| `PlanCache.HitsAreFresh` | internal/core/service/authz_service.go:84-98 | Without straddling SETs every hit's baseline is absent or at least as new as every change that bumped its plan. |
| `PlanCacheFindings.RepeatedBumpRevives` | internal/adapter/inbound/consumer/catalog_consumer.go:134-149 | For any two changes to a plan: a run of prompt refreshes in which repeating the older bump serves an entry without the newer change. |
| `PlanCacheFindings.StraddlingRefreshServesOld` | internal/core/service/catalog_service.go:106-131 | For any change: a run of single bumps in which a straddling refresh makes a hit without it. |
| `PlanCacheFindings.LateStaleCopyServesOld` | internal/core/service/catalog_service.go:201-202 | For any change between the two SETs of a refresh: a run in which the stale copy makes such a hit. |
| `MembershipCache.AffectedPlans` | internal/adapter/inbound/consumer/catalog_consumer.go:154-167 | The search finds the plan the payload's code names, by the three codes, or all known plans when it names none. |
| `MembershipCache.RequestMissed` | internal/core/service/authz_service.go:84-98 | The steps of a request that misses leave exactly one entry, stamped with the generation read, and the refreshed catalog keys. |
| `MembershipCache.RequestHit` | internal/core/service/authz_service.go:214-245 | The steps of a request that hits change nothing. |
| `MembershipCache.CatalogAnswers` | internal/core/service/catalog_service.go:106-132 | `om:plans` while it lasts, else the Catalog, which sets it for 600 s and the stale copy for a day, else the stale copy, else nothing. |
| `MembershipCache.RequestedIsARun` | internal/core/service/authz_service.go:84-98 | A request is a run of the protocol. |
| `MembershipCache.AuthZ.HandlePlanChanged` | internal/adapter/inbound/consumer/catalog_consumer.go:132-150 | Both catalog keys are gone, every plan the payload's code stands for carries the event's generation for 86400 s, no other generation and no entry changed; it is the clear and bump steps. |
| `MembershipCache.AuthZ.Plans` | internal/core/service/catalog_service.go:106-132 | Primary, then the Catalog with both copies refreshed, then the stale copy, then nothing. |
| `MembershipCache.AuthZ.GetCached` | internal/core/service/authz_service.go:214-245 | A hit if and only if the entry is alive and its stamp is the current generation; the generations returned are the current ones. |
| `MembershipCache.AuthZ.GetMembership` | internal/core/service/authz_service.go:84-98 | With a readable cache and a membership it is the request of the protocol; a hit and a missing member change nothing, an unreadable cache gets no entry; a miss writes one entry with the current stamp that lives 270 to 330 s, and the next call hits and returns the same. |
| `Roles.TellsAppend` | internal/core/service/membership_service.go:407-459 | Logs compose: what tells of one change and then of another tells of both. |
| `Roles.GrantsTell` | internal/core/service/membership_service.go:407-434 | A grant loop's events, folded, are its rows. |
| `Roles.RevokesTell` | internal/core/service/membership_service.go:435-459 | A revoke loop's events, folded, are its rows, and each names a row that was there. |
| `Roles.AssignTells` | internal/core/service/dept_membership_service.go:178-219 | Granted, LevelChanged or nothing is the true account of an assignment. |
| `RoleRuns.CascadeTells` | internal/core/service/membership_service.go:563-616 | The removal cascade keeps the log faithful. |
| `RoleRuns.LogIsFaithful` | internal/core/service/membership_service.go:320-637 | In every run of all mutators and purges, each transaction one step, folding the log from empty gives exactly the role and department tables, every Revoked names a present row and every LevelChanged the level that was there. |
| `Effects.AcceptOnboards` | internal/core/service/invitation_service.go:541-605 | Accepting an invitation of a live tenant: a member with every offered role and, for each offered department, the level of its last pair; every other row as before; one Granted for each. |
| `Effects.CascadeRemoves` | internal/core/service/membership_service.go:563-616 | A removal leaves no membership, role or department row of the user and every other row as before, and announces each row in order. |
| `Effects.UndisturbedSuspend` | internal/core/service/membership_service.go:233-268 | Read and transaction together: a member is suspended unless the only owner row is theirs. |
| `Effects.UndisturbedReconcile` | internal/core/service/membership_service.go:320-463 | Read and transaction together: the member's roles are exactly the desired ones, each change announced, unless that would take the only owner row; then nothing changes. |
| `Effects.UndisturbedAssign` | internal/core/service/dept_membership_service.go:178-219 | The level is the one given; Granted, LevelChanged with both levels, or nothing. |
| `Effects.UndisturbedReassign` | internal/core/service/operator_service.go:172-203 | An active member of a live tenant becomes owner and the mark is cleared. |
| `Effects.UndisturbedJit` | internal/core/service/group_mapping_service.go:138-222 | Every matched department holds its last matched level, every matched role is held, nothing else changes. |
| `Effects.SignupSeeds` | internal/core/service/provisioning_service.go:295-345 | I-1 seeds an active member with the owner role and announces it, once. |
| `GrantRace.FaithLostExactly` | internal/adapter/outbound/postgres/tenant_role_repository.go:85-123 | With a grant's look at the row and its commit apart, among all the mutators, the log stops telling the tables if and only if a grant that found its row commits after the row's revocation. |
| `GrantRace.FaithfulThroughout` | internal/adapter/outbound/postgres/tenant_role_repository.go:85-123 | A run's log tells the tables at every point if and only if it has no such commit. |
| `GrantRace.AGrantCanBeBelated` | internal/core/service/membership_service.go:407-434 | From any state in which a reconcile will revoke a role a grant has found, it happens. |
| `LastOwner.AnOwnerRowRemains` | internal/core/service/membership_service.go:364-400 | Under any interleaving with stale reads a live tenant keeps an owner row in runs without I-5. |
| `LastOwner.OwnerlessIsMarked` | internal/core/service/provisioning_service.go:539-557 | With I-5 and O-7 as well, each transaction one step, a live tenant without an owner row has ownerless_since set. |
| `LastOwner.BothOwnersCanBeSuspended` | internal/core/service/membership_service.go:233-254 | A run that suspends both owners past the guard. |
| `LastOwner.ActiveOwnerLeftExactly` | docs/lld/iam-lld-org-membership-service.md:878 | Each transaction one step: it leaves an active owner if and only if some active owner is not the member its guards let it take away. |
| `LastOwner.AnActiveOwnerRemains` | docs/lld/iam-lld-org-membership-service.md:878 | Each transaction one step: a run has an active owner whenever the tenant is live, at every point, if and only if every step leaves one so. |
| `LastOwner.RowCountSufficesWhenOwnersActive` | internal/adapter/outbound/postgres/tenant_role_repository.go:75-83 | Counting rows is that condition whenever every owner row belongs to an active member. |
| `OwnerlessRace.MarkLostExactly` | internal/core/service/provisioning_service.go:447-557 | With listing, cascade, count and mark of I-5, guard and cascade of P-8 and P-28, and look and clear of O-7 apart: an unmarked ownerless tenant arises if and only if a removal that writes no mark takes the last owner of an unmarked tenant, or an O-7 that found its row clears the mark of a tenant without one. |
| `OwnerlessRace.MarkedThroughout` | internal/core/service/provisioning_service.go:539-557 | A run is marked at every point if and only if it has neither commit. |
| `OwnerlessRace.TwoDeletionsLoseTheMark` | internal/core/service/provisioning_service.go:447-459 | Any two last owners deleted at once leave no owner and no mark. |
| `OwnerlessRace.RemovalAndDeletionLoseTheMark` | internal/core/service/membership_service.go:522-551 | So do a removal that counted under the tenant lock and a deletion that commits before it. |
| `OwnerlessRace.DeletionAroundRemovalLosesTheMark` | internal/core/service/membership_service.go:522-551 | And a deletion that counted before a removal and commits after it. |
| `OwnerlessRace.ReassigningTheDeletedOwnerLosesTheMark` | internal/core/service/operator_service.go:176-187 | And, for any sole owner, an O-7 that found the row and clears the mark the owner's I-5 has set. |
| `OwnerlessRace.DeletingTheNewOwnerLosesTheMark` | internal/core/service/provisioning_service.go:461-477 | And, for any member of an ownerless tenant, an I-5 that listed no owner role before an O-7 granted it. |
| `Groups.ResolveDepts` | internal/core/service/group_mapping_service.go:83-116 | The nested loops yield each pair that one and the same asserted group provides, once, and nothing else. |
| `Groups.ResolveRoles` | internal/core/service/group_mapping_service.go:118-129 | Exactly the matched elevated roles. |
| `Groups.SecondRunQuietExactly` | internal/core/service/group_mapping_service.go:145-193 | Assigning the same pairs again emits nothing if and only if no department has two levels. |
| `Members.SecondJitQuietExactly` | internal/core/service/group_mapping_service.go:138-222 | The same for the whole of I-10, roles included. |
| `Members.TenantMembers.GrantLoop` | internal/core/service/membership_service.go:407-434 | The loop grants and announces exactly the roles it does not skip, once each. |
| `Members.TenantMembers.RevokeLoop` | internal/core/service/membership_service.go:435-459 | It fails if and only if some row to revoke is gone; otherwise it revokes and announces them all. |
| `Members.TenantMembers.Reconcile` | internal/core/service/membership_service.go:378-463 | The transaction is the reconcile step; exactly when it is accepted; then exactly the roles to grant are gained and those to revoke lost, each announced; a refusal or error leaves tables and outbox untouched. |
| `Members.TenantMembers.Suspend` | internal/core/service/membership_service.go:233-268 | The suspension step on a possibly stale owner check, exactly when it is accepted, and that it changes the member's status and nothing else. |
| `Members.TenantMembers.Reactivate` | internal/core/service/membership_service.go:268-278 | Succeeds exactly for a member at that version, and then makes it active. |
| `Members.TenantMembers.CascadeAll` | internal/core/service/membership_service.go:563-616 | No membership, role or department row of the user is left, every other row is as before, and the events are one for each row, in order, and MembershipRevoked. |
| `Members.TenantMembers.RemoveUser` | internal/core/service/membership_service.go:529-622 | The removal step, exactly when it is accepted, and what is left of rows and announced. |
| `Members.TenantMembers.DeleteMember` | internal/core/service/provisioning_service.go:447-560 | The I-5 step: nothing for an absent member; otherwise the same removal, and the mark is set exactly if an owner was removed and no owner row is left; it escalates exactly when it sets it. |
| `Members.TenantMembers.AssignOne` | internal/core/service/dept_membership_service.go:178-219 | The row and the event chosen from the row found, spelled out. |
| `Members.TenantMembers.Assign` | internal/core/service/dept_membership_service.go:178-219 | The assignment step; accepted exactly for a known user, with the row and the event spelled out. |
| `Members.TenantMembers.RemoveDept` | internal/core/service/dept_membership_service.go:246-269 | The department removal step; it fails if and only if there is no row, and otherwise removes and announces that row only. |
| `Members.TenantMembers.ReassignOwner` | internal/core/service/operator_service.go:172-203 | The O-7 step: for a known user, owner granted, mark cleared, announced; otherwise nothing. |
| `Members.TenantMembers.AcceptInvitation` | internal/core/service/invitation_service.go:541-605 | For a live tenant, and no other: the member, every offered role, for each offered department the level of its last pair, every other row unchanged, and one Granted for each role and department. |
| `Members.TenantMembers.ApplyJit` | internal/core/service/group_mapping_service.go:138-222 | The I-10 step; the user's roles become the old ones and the matched ones, each matched department holds its last level, and no other row changes. |
| `Invitations.SeatCapExactly` | internal/core/service/invitation_service.go:318-381 | In every state, a step raises occupancy, at or above the cap and below it, if and only if it is one of the unchecked ones, accepts for a new member an invitation that has expired since I-3's look, or takes a seat on a count made earlier; never by more than one. |
| `Invitations.NeverRaisedAtCap` | internal/core/service/invitation_service.go:318-381 | In every run without an unchecked step, with any seat changes, counts are never overtaken, and a step raises occupancy at or above the cap if and only if it accepts a lapsed invitation. |
| `Invitations.AnInviteCanBeOvertaken` | internal/core/service/membership_service.go:268-278 | From any state with one seat left: a reactivation between an invite's count and its insert puts the tenant over its cap. |
| `Invitations.AnInvitationCanLapse` | internal/core/service/invitation_service.go:515-537 | From any state whose cap is no more than the active members: an invitation that expires between I-3's look and its commit takes occupancy above the cap. |
| `Invitations.AcceptOccupies` | internal/core/service/invitation_service.go:495-551 | Accepting an invitation that is unexpired at the commit never raises occupancy; otherwise it rises exactly for a new member, by a plain add, by a lapsed invitation or on a count below the cap. |
| `Invitations.CapHolds` | internal/core/service/invitation_service.go:318-381 | With a fixed cap occupancy stays within it in every run without an unchecked step, lapsed acceptances included. |
| `Invitations.OneOutcomeWins` | internal/core/service/invitation_service.go:468-605 | For any interleaving of accept, redelivery, revoke and expiry: at most one outcome, once, at every point, if and only if no expiry overwrites a revoke. |
| `Invitations.OneOutcomeExactly` | internal/adapter/outbound/postgres/invitation_repository.go:381-402 | A step keeps every invitation at one outcome if and only if it is not an expiry whose batch holds a row revoked since its sub-select and none accepted. |
| `Invitations.InitialGrantsOnce` | internal/core/service/invitation_service.go:554-603 | In every run the initial roles and departments have been applied exactly once to an accepted invitation and to no other. |
| `Invitations.SettledChangesExactly` | internal/adapter/outbound/postgres/invitation_repository.go:223-260 | A settled status changes if and only if it is revoked and an expiry that picked the row before writes; accepted and expired are final. |
| `InvitationCourses.InvitedThenAccepted` | internal/core/service/invitation_service.go:318-605 | An invitation made below the cap and accepted in time makes its user an active member, is granted once and takes one seat. |
| `InvitationCourses.RevokedThenCleaned` | cmd/reconciler/jobs/invitation_kc_cleanup.go:14-52 | A pending invitation revoked and swept ends revoked, unmarked and with its Keycloak user deleted. |
| `InvitationCourses.ExpiredInOnePass` | internal/adapter/outbound/postgres/invitation_repository.go:381-402 | An expiry pass makes exactly the pending rows it is given that are past their expiry expired, and marks them. |
| `Onboarding.GrantedExactly` | internal/core/service/invitation_service.go:541-605 | I-3's commit enters an invitation in the history of grants if and only if it makes the user a member with everything offered; otherwise no role or department row changes. |
| `Onboarding.OffersAreApplied` | internal/core/service/invitation_service.go:554-603 | In every run of all invitation steps beside all mutators, what an invitation offers has been applied and announced, in one piece, for the one user who accepted it if it is accepted, and for no other invitation. |
| `KeycloakCleanup.MarkedUnlessRevokeDied` | internal/core/service/invitation_service.go:631-639 | A terminated invitation whose Keycloak user is not deleted carries the marker if and only if it expired or its revoke is neither between its statements nor died there. |
| `KeycloakCleanup.MarkConflictsExactly` | internal/core/service/invitation_service.go:636-639 | The marker's version check fails if and only if an expiry has overtaken the revoke. |
| `KeycloakCleanup.AnExpiryCanOverwriteARevoke` | internal/adapter/outbound/postgres/invitation_repository.go:381-402 | A run in which it does: two outcomes, and a second statement that will fail. |
| `KeycloakCleanup.LostRaceMarksExactly` | internal/core/service/invitation_service.go:340-363 | An invite that loses the seat race leaves the marked row if and only if the insert trigger takes it, that is if the service's clock is past the transaction's time. |
| `KeycloakCleanup.ForgottenExactly` | internal/core/service/invitation_service.go:631-639 | After a revoke died between its statements, a step sets the marker if and only if it is an expiry that had picked the row. |
| `KeycloakCleanup.ForgottenForGood` | internal/core/service/invitation_service.go:631-639 | With no such expiry left, the marker is never set, whatever follows. |
| `KeycloakCleanup.ARevokeCanDie` | internal/core/service/invitation_service.go:631-639 | A run in which it happens. |
| `InvitationService.Desk.Create` | internal/core/service/invitation_service.go:318-381 | Count and insert with nothing in between: exactly which reply, and the row it leaves, pending or, after a lost seat race, revoked and marked. |
| `InvitationService.Desk.InsertInvite` | internal/core/service/invitation_service.go:335-381 | The insert step on a count made earlier; it fails exactly for a taken row or one the trigger refuses; the row it leaves for each reply. |
| `InvitationService.Desk.AcceptFound` | internal/core/service/invitation_service.go:541-605 | The rest of I-3's transaction in any state is the accept step; exactly which reply, and the invitation, the member and the grant it leaves. |
| `InvitationService.Desk.LockAndLook` | internal/core/service/invitation_service.go:490-540 | I-3's two locks, its look and its count are the look step. |
| `InvitationService.Desk.Register` | internal/core/service/invitation_service.go:490-605 | Undisturbed, an acceptance raises occupancy only within the cap. |
| `InvitationService.Desk.Revoke` | internal/core/service/invitation_service.go:631-639 | Both statements: succeeds if and only if the row is pending at that version, and then it is revoked and marked; otherwise nothing changes. |
| `InvitationService.Desk.Cleanup` | cmd/reconciler/jobs/invitation_kc_cleanup.go:14-52 | A marker goes if and only if there was no user or its deletion succeeded, and clearing it did; exactly the users whose deletion succeeded are deleted; nothing else changes; each counter counts its verdicts. |
| `Overage.EventsAlternate` | cmd/reconciler/jobs/seat_overage.go:54-124 | Across any sequence of passes and changes Started and Resolved alternate, Started first, every Started shows counts over the cap, and overage_since is the time of the open one. |
| `Overage.OverageHasACause` | cmd/reconciler/jobs/seat_overage.go:13-26 | From a tenant within its cap, no pass of any run reports an overage unless the seats were changed or an unchecked step was taken. |
| `Overage.PassSettles` | cmd/reconciler/jobs/seat_overage.go:72-117 | After a pass overage_since is set if and only if the occupancy that invites and acceptances count exceeds the seats, and a second pass does nothing. |
| `Overage.Reconciler.ReconcileOneTenant` | cmd/reconciler/jobs/seat_overage.go:54-124 | The pass on one tenant: from the counts of active members and outstanding invitations, when overage_since is set or cleared, and the event with each count in its place. |
| `Overage.ReconcileAll` | cmd/reconciler/jobs/seat_overage.go:27-52 | Every candidate gets its pass whatever the others come to; the counters count the live and the deleted ones. |

## Left out

- The catalog's contents: a plan lookup is the catalog version it read, so `PlanByCode`'s scan and the flag merge of `readFromDB` are not there.
- Eviction of a generation key by the cache before its TTL: keys live exactly as long as their TTL.
- RoleRuns.LogIsFaithful: each transaction is one step there; `GrantRace` takes apart the grants that are not.
- LastOwner.ActiveOwnerLeftExactly: each transaction is one step there; `OwnerlessRace` takes apart the ones that are not, for the owner rows and without membership statuses.
- LastOwner.AnActiveOwnerRemains: likewise.
- Offboarding's wipe of the invitations: `Onboarding` keeps them, as the tenant lock then fails.
- A pass of the overage reconciler is one step: what reactivations, revokes and I-5 change between its count and its commit is not there.
- Failing SETs of `om:plans` or its stale copy, which the source ignores.
- Foreign-key failures of departments not activated for the tenant, and the workflow and service-account gates before the transactions: they only refuse calls.
- Failures of the Catalog during a replay or a delivery: a pass that stops or an aborted transaction stands for them.
- The batch loop of trial cleanup: its transaction is the hard-delete step.
- TrialSignup's departments, labels and ledger, and its owner's membership in `Consumer`: the owner is in `RoleRuns`.
- I-4 status changes: like a non-owner suspension or a reactivation.
- HTTP handlers, metrics, logs, audit writes, cache evictions after commit, field validation and invite throttles.
