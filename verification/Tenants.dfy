/**
  The `tenants` row of one tenant and the projection of a consumed lifecycle or
  billing event onto it: the twelve lifecycle UPDATE statements, the table's
  CHECK constraints, the recency guard, and the relay events.
 */
module Tenants {

  datatype Option<+T> = None | Some(value: T)

  datatype Result<+T> = Ok(value: T) | Err(error: Error)

  datatype Error = BadPayload | BadPlan | CheckViolation

  /** Instants, counted from Go's zero time. */
  type Time = int

  const ZERO_TIME: Time := 0

  const DAY: int := 86400

  datatype Plan = Starter | Pro | Enterprise

  datatype Status =
    | Trial | Active | PastDue | Cancelled | Suspended | TrialExpired | Offboarded

  datatype SuspensionSource = BillingLapse | Operator

  /** One row of `tenants`; only the columns the consumer and I-1 write. */
  datatype Tenant = Tenant(
    status: Status,
    plan: Plan,
    trialEndsAt: Time,
    reactivations: nat,
    subscriptionStartedAt: Option<Time>,
    cancelledAt: Option<Time>,
    suspension: Option<SuspensionSource>,
    lastEventAt: Option<Time>,
    realm: string,
    dedicated: bool,
    shard: string,
    seats: int,
    deletedAt: Option<Time>)

  /** The CHECK constraints of `tenants` over those columns. */
  predicate Checks(t: Tenant) {
    && t.realm != "" && t.shard != ""
    && t.seats > 0
    && t.reactivations <= 1
    && (t.status in {Trial, TrialExpired, Suspended} || t.subscriptionStartedAt.Some?)
    && (t.status.Offboarded? ==> t.deletedAt.Some?)
    && (match t.status
        case Cancelled => t.cancelledAt.Some?
        case Offboarded => t.cancelledAt.Some?
        case Suspended => t.suspension != Some(BillingLapse) || t.cancelledAt.Some?
        case _ => t.cancelledAt.None?)
    && (t.status.Suspended? <==> t.suspension.Some?)
  }

  predicate Live(row: Option<Tenant>) {
    row.Some? && row.value.deletedAt.None?
  }

  // ---- the row I-1 inserts ------------------------------------------------

  datatype Seed = Seed(plan: Plan, trialDays: nat, seats: nat)

  const DEFAULT_TRIAL_SEATS: int := 10

  function Created(seed: Seed, now: Time): Tenant {
    Tenant(Trial, seed.plan, now + seed.trialDays * DAY, 0, None, None, None, None,
           "trial", false, "shard-0",
           if seed.seats == 0 then DEFAULT_TRIAL_SEATS else seed.seats, None)
  }

  /** The row of a new trial. */
  predicate TrialRow(t: Tenant, seed: Seed, now: Time) {
    && t.status == Trial && t.plan == seed.plan && t.trialEndsAt == now + seed.trialDays * 86400
    && t.seats == (if seed.seats == 0 then 10 else seed.seats)
    && t.realm == "trial" && t.shard == "shard-0" && !t.dedicated && t.reactivations == 0
    && t.subscriptionStartedAt.None? && t.cancelledAt.None? && t.suspension.None?
    && t.lastEventAt.None? && t.deletedAt.None?
  }

  // ---- lifecycle UPDATE statements ------------------------------------------

  datatype Patch =
    | SetRealm(realm: string, shard: string)
    | ActivatePaid(plan: Plan)
    | SetStatusClearSuspension(status: Status)
    | TrialReactivate(days: nat)
    | SuspendBillingLapse
    | SuspendOperator
    | Offboard
    | SetPlan(newPlan: Plan)
    | Cancel
    | ReactivatePaid
    | ReactivateTrial
    | SetLicensedSeats(seats: int)

  function Coalesce(at: Option<Time>, now: Time): Option<Time> {
    if at.Some? then at else Some(now)
  }

  /** The WHERE clause of the statement, beyond `id = $1`. */
  predicate Selects(t: Tenant, p: Patch) {
    match p
    case TrialReactivate(_) => t.reactivations < 1
    case ReactivatePaid => t.subscriptionStartedAt.Some?
    case ReactivateTrial => t.subscriptionStartedAt.None?
    case _ => true
  }

  /** The SET clause of the statement. */
  function Assigned(t: Tenant, p: Patch, now: Time): Tenant {
    match p
    case SetRealm(realm, shard) => t.(realm := realm, dedicated := true, shard := shard)
    case ActivatePaid(plan) =>
      t.(status := Active, subscriptionStartedAt := Some(now), plan := plan, suspension := None)
    case SetStatusClearSuspension(status) => t.(status := status, suspension := None)
    case TrialReactivate(days) =>
      t.(status := Trial, trialEndsAt := now + days * DAY,
         reactivations := t.reactivations + 1, suspension := None)
    case SuspendBillingLapse =>
      t.(status := Suspended, suspension := Some(BillingLapse),
         cancelledAt := Coalesce(t.cancelledAt, now))
    case SuspendOperator => t.(status := Suspended, suspension := Some(Operator))
    case Offboard =>
      t.(status := Offboarded, deletedAt := Some(now),
         cancelledAt := Coalesce(t.cancelledAt, now), suspension := None)
    case SetPlan(plan) => t.(plan := plan)
    case Cancel =>
      t.(status := Cancelled, cancelledAt := Coalesce(t.cancelledAt, now), suspension := None)
    case ReactivatePaid => t.(status := Active, cancelledAt := None, suspension := None)
    case ReactivateTrial => t.(status := Trial, cancelledAt := None, suspension := None)
    case SetLicensedSeats(seats) => t.(seats := seats)
  }

  datatype Updated = Updated(rows: nat, row: Tenant)

  /** ApplyLifecyclePatch: one UPDATE; a violated CHECK fails the statement. */
  function ApplyLifecyclePatch(t: Tenant, p: Patch, now: Time): Result<Updated> {
    if !Selects(t, p) then Ok(Updated(0, t))
    else if !Checks(Assigned(t, p, now)) then Err(CheckViolation)
    else Ok(Updated(1, Assigned(t, p, now)))
  }

  // ---- consumed events ------------------------------------------------------

  type EventId = nat

  /** A payload's "plan" field: missing or empty, a tenant_plan value, or neither. */
  datatype PlanField = Blank | Named(plan: Plan) | Unrecognised

  datatype Body =
    | TenantRealmReady(realm: string, shard: string)
    | TenantConverted(plan: PlanField)
    | DirectPaidSignup(plan: PlanField)
    | TrialHasExpired
    | TrialReactivated
    | TenantSuspended(byOperator: bool)
    | TenantOffboarded
    | TenantPlanChanged(plan: PlanField)
    | TenantPaymentPastDue
    | TenantSubscriptionCancelled
    | TenantReactivated
    | TenantSeatsChanged(seats: int)
    | Undecodable                  // a known type whose payload does not decode
    | TenantIdentityProvisioned    // handled apart: runs I-1, then only acknowledges
    | UnknownType

  datatype Event = Event(at: Time, body: Body)

  /** Whether Handle brings the event to the projection. */
  predicate Projectable(b: Body) {
    !b.UnknownType? && !b.TenantIdentityProvisioned?
  }

  // ---- applyProjection ------------------------------------------------------

  datatype Projected = Projected(row: Tenant, status: Status, plan: Plan)

  /** `newPlan`, falling back to the locked row's plan. */
  function PlanOr(f: PlanField, prev: Plan): Result<Plan> {
    match f
    case Blank => Ok(prev)
    case Named(p) => Ok(p)
    case Unrecognised => Err(BadPlan)
  }

  function Patched(t: Tenant, p: Patch, now: Time, status: Status, plan: Plan): Result<Projected> {
    match ApplyLifecyclePatch(t, p, now)
    case Err(e) => Err(e)
    case Ok(u) => Ok(Projected(u.row, status, plan))
  }

  /** The projection UPDATE of an event, and the (status, plan) it reports to the relay. */
  function ApplyProjection(t: Tenant, b: Body, days: nat, now: Time): Result<Projected> {
    match b
    case TenantRealmReady(realm, shard) => Patched(t, SetRealm(realm, shard), now, t.status, t.plan)
    case TenantConverted(f) => Activate(t, f, now)
    case DirectPaidSignup(f) => Activate(t, f, now)
    case TrialHasExpired =>
      Patched(t, SetStatusClearSuspension(TrialExpired), now, TrialExpired, t.plan)
    case TrialReactivated => (
      match ApplyLifecyclePatch(t, TrialReactivate(days), now)
      case Err(e) => Err(e)
      case Ok(u) =>
        if u.rows == 0 then Ok(Projected(u.row, t.status, t.plan))
        else Ok(Projected(u.row, Trial, t.plan)))
    case TenantSuspended(byOperator) =>
      Patched(t, if byOperator then SuspendOperator else SuspendBillingLapse, now, Suspended, t.plan)
    case TenantOffboarded => Patched(t, Offboard, now, Offboarded, t.plan)
    case TenantPlanChanged(f) => (
      match PlanOr(f, t.plan)
      case Err(e) => Err(e)
      case Ok(p) => Patched(t, SetPlan(p), now, t.status, p))
    case TenantPaymentPastDue =>
      Patched(t, SetStatusClearSuspension(PastDue), now, PastDue, t.plan)
    case TenantSubscriptionCancelled => Patched(t, Cancel, now, Cancelled, t.plan)
    case TenantReactivated =>
      if t.status.Offboarded? then Ok(Projected(t, t.status, t.plan))
      else (
        match ApplyLifecyclePatch(t, ReactivatePaid, now)
        case Err(e) => Err(e)
        case Ok(u) =>
          if u.rows > 0 then Ok(Projected(u.row, Active, t.plan))
          else Patched(t, ReactivateTrial, now, Trial, t.plan))
    case TenantSeatsChanged(n) => Patched(t, SetLicensedSeats(n), now, t.status, t.plan)
    case Undecodable => Err(BadPayload)
    case _ => Ok(Projected(t, t.status, t.plan))
  }

  function Activate(t: Tenant, f: PlanField, now: Time): Result<Projected> {
    match PlanOr(f, t.plan)
    case Err(e) => Err(e)
    case Ok(p) => Patched(t, ActivatePaid(p), now, Active, p)
  }

  // ---- project: recency guard, projection, relays -----------------------------

  datatype Out =
    | TenantCreated(status: Status, plan: Plan)
    | TrialStarted(plan: Plan)
    | TenantStateChanged(fromStatus: Status, fromPlan: Plan, toStatus: Status, toPlan: Plan)
    | TenantMembershipsPurged

  datatype Verdict =
    | StaleSkip
    | Apply(row: Tenant, relays: seq<Out>, wiped: bool)

  /** The recency guard: a tie counts as stale. */
  predicate Stale(t: Tenant, at: Time) {
    t.lastEventAt.Some? && at <= t.lastEventAt.value
  }

  function Relays(t: Tenant, p: Projected): seq<Out> {
    (if p.status != t.status || p.plan != t.plan
     then [TenantStateChanged(t.status, t.plan, p.status, p.plan)] else [])
    + (if t.status != Offboarded && p.status == Offboarded then [TenantMembershipsPurged] else [])
  }

  function Project(t: Tenant, e: Event, days: nat, now: Time): Result<Verdict> {
    if Stale(t, e.at) then Ok(StaleSkip)
    else
      match ApplyProjection(t, e.body, days, now)
      case Err(x) => Err(x)
      case Ok(p) =>
        Ok(Apply(p.row.(lastEventAt := Some(e.at)), Relays(t, p),
                 t.status != Offboarded && p.status == Offboarded))
  }

  // ---- which statement an event runs ------------------------------------------

  function Activation(t: Tenant, f: PlanField): Option<Patch> {
    match f
    case Blank => Some(ActivatePaid(t.plan))
    case Named(p) => Some(ActivatePaid(p))
    case Unrecognised => None
  }

  function PlanChange(t: Tenant, f: PlanField): Option<Patch> {
    match f
    case Blank => Some(SetPlan(t.plan))
    case Named(p) => Some(SetPlan(p))
    case Unrecognised => None
  }

  /** The statement that writes the row, if any does. */
  function Statement(t: Tenant, b: Body, days: nat): Option<Patch> {
    match b
    case TenantRealmReady(realm, shard) => Some(SetRealm(realm, shard))
    case TenantConverted(f) => Activation(t, f)
    case DirectPaidSignup(f) => Activation(t, f)
    case TrialHasExpired => Some(SetStatusClearSuspension(TrialExpired))
    case TrialReactivated => if t.reactivations < 1 then Some(TrialReactivate(days)) else None
    case TenantSuspended(byOperator) => Some(if byOperator then SuspendOperator else SuspendBillingLapse)
    case TenantOffboarded => Some(Offboard)
    case TenantPlanChanged(f) => PlanChange(t, f)
    case TenantPaymentPastDue => Some(SetStatusClearSuspension(PastDue))
    case TenantSubscriptionCancelled => Some(Cancel)
    case TenantReactivated =>
      if t.status.Offboarded? then None
      else Some(if t.subscriptionStartedAt.Some? then ReactivatePaid else ReactivateTrial)
    case TenantSeatsChanged(n) => Some(SetLicensedSeats(n))
    case _ => None
  }

  predicate PlanUnrecognised(b: Body) {
    (b.TenantConverted? || b.DirectPaidSignup? || b.TenantPlanChanged?) && b.plan.Unrecognised?
  }

  /** Whether an event goes through, on a live row that meets the CHECKs. */
  predicate Succeeds(t: Tenant, b: Body) {
    match b
    case TenantRealmReady(realm, shard) => realm != "" && shard != ""
    case TenantConverted(f) => !f.Unrecognised? && t.cancelledAt.None?
    case DirectPaidSignup(f) => !f.Unrecognised? && t.cancelledAt.None?
    case TrialHasExpired => t.cancelledAt.None?
    case TrialReactivated => t.reactivations == 1 || t.cancelledAt.None?
    case TenantOffboarded => t.subscriptionStartedAt.Some?
    case TenantPlanChanged(f) => !f.Unrecognised?
    case TenantPaymentPastDue => t.subscriptionStartedAt.Some? && t.cancelledAt.None?
    case TenantSubscriptionCancelled => t.subscriptionStartedAt.Some?
    case TenantSeatsChanged(n) => n > 0
    case Undecodable => false
    case _ => true
  }

  /** The status a statement sets. */
  function StatusSet(p: Patch, status: Status): Status {
    match p
    case ActivatePaid(_) => Active
    case SetStatusClearSuspension(s) => s
    case TrialReactivate(_) => Trial
    case SuspendBillingLapse => Suspended
    case SuspendOperator => Suspended
    case Offboard => Offboarded
    case Cancel => Cancelled
    case ReactivatePaid => Active
    case ReactivateTrial => Trial
    case _ => status
  }

  function PlanSet(p: Patch, plan: Plan): Plan {
    match p
    case ActivatePaid(q) => q
    case SetPlan(q) => q
    case _ => plan
  }

  /** The report of a row a statement wrote. */
  predicate Wrote(t: Tenant, q: Patch, now: Time, r: Result<Projected>) {
    if !Checks(Assigned(t, q, now)) then r == Err(CheckViolation)
    else r == Ok(Projected(Assigned(t, q, now), StatusSet(q, t.status), PlanSet(q, t.plan)))
  }

  lemma PatchedWrote(t: Tenant, q: Patch, now: Time, status: Status, plan: Plan)
    requires Selects(t, q) && status == StatusSet(q, t.status) && plan == PlanSet(q, t.plan)
    ensures Wrote(t, q, now, Patched(t, q, now, status, plan))
  {
  }

  /** The statement of an event meets the CHECKs exactly if the event goes through. */
  lemma StatementPassesExactly(t: Tenant, b: Body, days: nat, now: Time)
    requires Checks(t) && t.deletedAt.None? && Statement(t, b, days).Some?
    ensures Checks(Assigned(t, Statement(t, b, days).value, now)) <==> Succeeds(t, b)
  {
    assert !t.status.Offboarded?;
  }

  /** An event with a statement runs it and reports what it sets, or fails with its CHECK; one
      without fails to decode, or writes nothing and reports the row as it is. */
  lemma ProjectionRunsItsStatement(t: Tenant, b: Body, days: nat, now: Time)
    ensures var r := ApplyProjection(t, b, days, now);
            match Statement(t, b, days)
            case Some(q) => Wrote(t, q, now, r)
            case None =>
              r == if b.Undecodable? then Err(BadPayload)
                   else if PlanUnrecognised(b) then Err(BadPlan)
                   else Ok(Projected(t, t.status, t.plan))
    ensures Checks(t) && t.deletedAt.None? ==> (ApplyProjection(t, b, days, now).Ok? <==> Succeeds(t, b))
  {
    var q := Statement(t, b, days);
    if Checks(t) && t.deletedAt.None? && q.Some? { StatementPassesExactly(t, b, days, now); }
    if q.Some? { PatchedWrote(t, q.value, now, StatusSet(q.value, t.status), PlanSet(q.value, t.plan)); }
  }

  /** What every statement assigns. */
  lemma AssignedReports(t: Tenant, q: Patch, now: Time)
    ensures var r := Assigned(t, q, now);
            && r.status == StatusSet(q, t.status) && r.plan == PlanSet(q, t.plan)
            && r.deletedAt == (if q.Offboard? then Some(now) else t.deletedAt)
            && r.lastEventAt == t.lastEventAt
  {
  }

  lemma AssignedPlaces(t: Tenant, q: Patch, now: Time)
    ensures var r := Assigned(t, q, now);
            && (if q.SetRealm? then r.realm == q.realm && r.shard == q.shard && r.dedicated
                else r.realm == t.realm && r.shard == t.shard && r.dedicated == t.dedicated)
            && r.seats == (if q.SetLicensedSeats? then q.seats else t.seats)
  {
  }

  lemma AssignedTrial(t: Tenant, q: Patch, now: Time)
    ensures var r := Assigned(t, q, now);
            if q.TrialReactivate? then r.reactivations == t.reactivations + 1 && r.trialEndsAt == now + q.days * DAY
            else r.reactivations == t.reactivations && r.trialEndsAt == t.trialEndsAt
  {
  }

  lemma AssignedTimes(t: Tenant, q: Patch, now: Time)
    ensures var r := Assigned(t, q, now);
            && (q.SuspendOperator? ==> r.suspension == Some(Operator))
            && (q.SuspendBillingLapse? ==> r.suspension == Some(BillingLapse))
            && (t.cancelledAt.Some? ==>
                  r.cancelledAt == t.cancelledAt || ((q.ReactivatePaid? || q.ReactivateTrial?) && r.cancelledAt.None?))
            && (t.cancelledAt.None? && r.cancelledAt.Some? ==> r.cancelledAt == Some(now))
            && r.subscriptionStartedAt == (if q.ActivatePaid? then Some(now) else t.subscriptionStartedAt)
  {
  }

  /** The status and plan reported to the relay are the ones the UPDATE stored, the stored
      row still meets the CHECKs, and only TenantOffboarded soft-deletes. */
  lemma ProjectionStoresWhatItReports(t: Tenant, b: Body, days: nat, now: Time)
    requires Checks(t) && t.deletedAt.None?
    requires ApplyProjection(t, b, days, now).Ok?
    ensures var p := ApplyProjection(t, b, days, now).value;
            && p.row.status == p.status && p.row.plan == p.plan
            && Checks(p.row)
            && (p.row.deletedAt.Some? <==> b.TenantOffboarded?)
            && (p.status.Offboarded? <==> b.TenantOffboarded?)
  {
    ProjectionRunsItsStatement(t, b, days, now);
    var q := Statement(t, b, days);
    if q.Some? { AssignedReports(t, q.value, now); }
  }

  /** Which event may touch which columns, and to what: the realm moves only with
      TenantRealmReady, the seats only with TenantSeatsChanged, the trial is extended at most
      once in the tenant's life, a suspension names its source, and a cancellation keeps its
      first time until a reactivation. */
  lemma ProjectionTouchesOnlyItsColumns(t: Tenant, b: Body, days: nat, now: Time)
    requires Checks(t) && t.deletedAt.None? && Succeeds(t, b)
    ensures ApplyProjection(t, b, days, now).Ok?
    ensures var r := ApplyProjection(t, b, days, now).value.row;
            && (if b.TenantRealmReady? then r.realm == b.realm && r.shard == b.shard && r.dedicated
                else r.realm == t.realm && r.shard == t.shard && r.dedicated == t.dedicated)
            && r.seats == (if b.TenantSeatsChanged? then b.seats else t.seats)
            && r.lastEventAt == t.lastEventAt
            && (if b.TrialReactivated? && t.reactivations == 0
                then r.reactivations == 1 && r.trialEndsAt == now + days * DAY && r.status == Trial
                else r.reactivations == t.reactivations && r.trialEndsAt == t.trialEndsAt)
            && (b.TenantSuspended? ==> r.suspension == Some(if b.byOperator then Operator else BillingLapse))
            && (t.cancelledAt.Some? ==> r.cancelledAt == t.cancelledAt || (b.TenantReactivated? && r.cancelledAt.None?))
            && (t.cancelledAt.None? && r.cancelledAt.Some? ==> r.cancelledAt == Some(now))
            && (r.plan != t.plan ==> b.TenantConverted? || b.DirectPaidSignup? || b.TenantPlanChanged?)
            && (r.subscriptionStartedAt != t.subscriptionStartedAt ==>
                  (b.TenantConverted? || b.DirectPaidSignup?) && r.subscriptionStartedAt == Some(now))
            && (b.TenantReactivated? ==> r.status == (if t.subscriptionStartedAt.Some? then Active else Trial))
  {
    ProjectionRunsItsStatement(t, b, days, now);
    var q := Statement(t, b, days);
    if q.Some? {
      AssignedReports(t, q.value, now);
      AssignedPlaces(t, q.value, now);
      AssignedTrial(t, q.value, now);
      AssignedTimes(t, q.value, now);
    }
  }

  // ---- what each event comes to, column by column ------------------------------

  /** The tenant's one reactivation. */
  predicate Reactivation(t: Tenant, b: Body) { b.TrialReactivated? && t.reactivations == 0 }

  predicate Paying(b: Body) { b.TenantConverted? || b.DirectPaidSignup? }

  /** The status, its suspension source and the cancellation time. */
  predicate StatusBecomes(t: Tenant, b: Body, now: Time, r: Tenant) {
    && r.status == (if Paying(b) then Active
                    else if b.TrialHasExpired? then TrialExpired
                    else if Reactivation(t, b) then Trial
                    else if b.TenantSuspended? then Suspended
                    else if b.TenantOffboarded? then Offboarded
                    else if b.TenantPaymentPastDue? then PastDue
                    else if b.TenantSubscriptionCancelled? then Cancelled
                    else if b.TenantReactivated? then (if t.subscriptionStartedAt.Some? then Active else Trial)
                    else t.status)
    && r.suspension == (if b.TenantSuspended? then Some(if b.byOperator then Operator else BillingLapse)
                        else if || Paying(b) || b.TrialHasExpired? || Reactivation(t, b) || b.TenantOffboarded?
                                || b.TenantPaymentPastDue? || b.TenantSubscriptionCancelled? || b.TenantReactivated?
                             then None
                        else t.suspension)
    && r.cancelledAt == (if b.TenantReactivated? then None
                         else if || b.TenantSubscriptionCancelled? || b.TenantOffboarded?
                                 || (b.TenantSuspended? && !b.byOperator)
                              then (if t.cancelledAt.Some? then t.cancelledAt else Some(now))
                         else t.cancelledAt)
    && r.deletedAt == (if b.TenantOffboarded? then Some(now) else t.deletedAt)
  }

  /** What has been bought. */
  predicate TermsBecome(t: Tenant, b: Body, days: nat, now: Time, r: Tenant) {
    && r.plan == (if (Paying(b) || b.TenantPlanChanged?) && b.plan.Named? then b.plan.plan else t.plan)
    && r.subscriptionStartedAt == (if Paying(b) then Some(now) else t.subscriptionStartedAt)
    && r.seats == (if b.TenantSeatsChanged? then b.seats else t.seats)
    && r.trialEndsAt == (if Reactivation(t, b) then now + days * 86400 else t.trialEndsAt)
    && r.reactivations == (if Reactivation(t, b) then 1 else t.reactivations)
  }

  /** Where the tenant lives. */
  predicate PlaceBecomes(t: Tenant, b: Body, r: Tenant) {
    && r.realm == (if b.TenantRealmReady? then b.realm else t.realm)
    && r.shard == (if b.TenantRealmReady? then b.shard else t.shard)
    && r.dedicated == (b.TenantRealmReady? || t.dedicated)
  }

  predicate Becomes(t: Tenant, b: Body, days: nat, now: Time, r: Tenant) {
    StatusBecomes(t, b, now, r) && TermsBecome(t, b, days, now, r) && PlaceBecomes(t, b, r)
  }

  lemma StatementSetsStatus(t: Tenant, b: Body, days: nat, now: Time)
    requires t.deletedAt.None? && Statement(t, b, days).Some?
    ensures StatusBecomes(t, b, now, Assigned(t, Statement(t, b, days).value, now))
  {
  }

  lemma StatementSetsTerms(t: Tenant, b: Body, days: nat, now: Time)
    requires Statement(t, b, days).Some?
    ensures TermsBecome(t, b, days, now, Assigned(t, Statement(t, b, days).value, now))
  {
  }

  lemma StatementSetsPlace(t: Tenant, b: Body, days: nat, now: Time)
    requires Statement(t, b, days).Some?
    ensures PlaceBecomes(t, b, Assigned(t, Statement(t, b, days).value, now))
  {
  }

  /** On a live row that meets the CHECKs: exactly when an event goes through, with what error it
      does not, and what then becomes of every column but the watermark. */
  lemma ProjectionSucceedsExactly(t: Tenant, b: Body, days: nat, now: Time)
    requires Checks(t) && t.deletedAt.None?
    ensures match ApplyProjection(t, b, days, now)
            case Ok(p) =>
              && Succeeds(t, b) && Becomes(t, b, days, now, p.row) && p.row.lastEventAt == t.lastEventAt
              && p.status == p.row.status && p.plan == p.row.plan
            case Err(e) =>
              !Succeeds(t, b) && e == if b.Undecodable? then BadPayload
                                      else if PlanUnrecognised(b) then BadPlan else CheckViolation
  {
    ProjectionRunsItsStatement(t, b, days, now);
    var q := Statement(t, b, days);
    if q.Some? {
      AssignedReports(t, q.value, now);
      StatementSetsStatus(t, b, days, now);
      StatementSetsTerms(t, b, days, now);
      StatementSetsPlace(t, b, days, now);
    }
  }

  /** What an event that has won the row lock announces: a change of status or plan, and the purge
      of a tenant it offboards. */
  function Announced(t: Tenant, r: Tenant): seq<Out> {
    var change := if r.status != t.status || r.plan != t.plan
                  then [TenantStateChanged(t.status, t.plan, r.status, r.plan)] else [];
    if r.status == Offboarded then change + [TenantMembershipsPurged] else change
  }

  /** project: a tie or an older event is skipped; a later one goes through exactly as above, moves
      the watermark and wipes the tenant's rows if it offboards it. */
  lemma ProjectExactly(t: Tenant, e: Event, days: nat, now: Time)
    requires Checks(t) && t.deletedAt.None?
    ensures match Project(t, e, days, now)
            case Err(_) => !(t.lastEventAt.Some? && e.at <= t.lastEventAt.value) && !Succeeds(t, e.body)
            case Ok(StaleSkip) => t.lastEventAt.Some? && e.at <= t.lastEventAt.value
            case Ok(Apply(r, relays, wiped)) =>
              && !(t.lastEventAt.Some? && e.at <= t.lastEventAt.value) && Succeeds(t, e.body)
              && Becomes(t, e.body, days, now, r) && r.lastEventAt == Some(e.at)
              && relays == Announced(t, r) && wiped == e.body.TenantOffboarded?
  {
    ProjectionSucceedsExactly(t, e.body, days, now);
    assert !t.status.Offboarded?;
  }
}
