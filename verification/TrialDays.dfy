/**
  The trial length of a reactivation. It is that of the plan a read of its own shows, before
  the delivery's transaction or the replay iteration locks the row; whatever runs in
  between may create the row or change its plan.
 */
module TrialDays {
  import opened Tenants
  import opened ParkReplay
  import opened OrderIndependence
  import opened Consumer

  /** The delivery projects the event onto a row that has not been reactivated yet. */
  predicate Reactivates(m: Messages, skew: nat, w: World, id: EventId) {
    && id in m && m[id].body.TrialReactivated? && !(m[id].at != 0 && m[id].at > w.now + skew)
    && id !in w.inbox && id !in w.inflight && Renewable(w.row, m[id].at)
  }

  /** A live row that meets the CHECKs, is not cancelled, and has its reactivation left. */
  predicate Renewable(row: Option<Tenant>, at: Time) {
    && row.Some? && row.value.deletedAt.None? && Checks(row.value)
    && row.value.cancelledAt.None? && row.value.reactivations == 0
    && (row.value.lastEventAt.Some? ==> at > row.value.lastEventAt.value)
  }

  /** The read showed a live row whose plan has the trial length of the locked one; if it showed
      none, that length must be zero. */
  predicate PeekHolds(cat: Catalog, peeked: Option<Tenant>, t: Tenant) {
    if Live(peeked) then cat(peeked.value.plan) == cat(t.plan) else cat(t.plan) == 0
  }

  /** A reactivation uses up the tenant's only one, and extends the trial by its plan's days
      exactly if the read still holds at the row lock. */
  lemma ReactivationGetsItsDaysExactly(m: Messages, cat: Catalog, skew: nat, w0: World, between: seq<Step>, id: EventId)
    requires id in m
    requires var w := Run(m, skew, w0, between);
             Reactivates(m, skew, w, id)
    ensures var w := Run(m, skew, w0, between);
            var w' := DeliverStep(m, skew, w, id, TrialDurationDays(cat, w0.row, m[id].body));
            && w'.row.Some? && w'.row.value.reactivations == 1 && w'.row.value.status == Trial
            && (w'.row.value.trialEndsAt == w.now + cat(w.row.value.plan) * 86400
                <==> PeekHolds(cat, w0.row, w.row.value))
  {
    var w := Run(m, skew, w0, between);
    var days := TrialDurationDays(cat, w0.row, m[id].body);
    DeliveryReactivates(m, skew, w, id, days);
    SameDays(days, cat(w.row.value.plan), w.now);
  }

  lemma SameDays(a: nat, b: nat, now: Time)
    ensures now + a * 86400 == now + b * 86400 <==> a == b
  {
  }

  lemma DeliveryReactivates(m: Messages, skew: nat, w: World, id: EventId, days: nat)
    requires Reactivates(m, skew, w, id)
    ensures var row := DeliverStep(m, skew, w, id, days).row;
            && row.Some? && row.value.reactivations == 1 && row.value.status == Trial
            && row.value.trialEndsAt == w.now + days * 86400
  {
    ProjectExactly(w.row.value, m[id], days, w.now);
  }

  /** The same for an iteration of a replay pass, whose read comes just before its claim. */
  lemma ReplayGetsItsDaysExactly(m: Messages, cat: Catalog, w0: World, w: World, r: nat)
    requires r in w.replays && w.replays[r] != [] && w.replays[r][0] in w.parked && w.replays[r][0] in m
    requires var id := w.replays[r][0]; m[id].body.TrialReactivated? && Renewable(w.row, m[id].at)
    ensures var id := w.replays[r][0];
            var w' := ReplayStep(m, w, r, TrialDurationDays(cat, w0.row, m[id].body));
            && w'.row.Some? && w'.row.value.reactivations == 1
            && (w'.row.value.trialEndsAt == w.now + cat(w.row.value.plan) * 86400
                <==> PeekHolds(cat, w0.row, w.row.value))
  {
    var id := w.replays[r][0];
    var days := TrialDurationDays(cat, w0.row, m[id].body);
    ProjectExactly(w.row.value, m[id], days, w.now);
    SameDays(days, cat(w.row.value.plan), w.now);
  }

  /** It can fail to: the read finds no tenant, I-1 commits, the delivery locks the new row. The
      reactivation is used up and the trial ends at once. */
  lemma AReactivationCanGetNoDays(cat: Catalog, seed: Seed)
    requires seed.trialDays > 0 && cat(seed.plan) == seed.trialDays
    ensures var m: Messages := map[7 := Event(10, TrialReactivated)];
            var w := ProvisionStep(Init(100), seed);
            var w' := DeliverStep(m, 300, w, 7, TrialDurationDays(cat, None, TrialReactivated));
            w'.row.value.reactivations == 1 && w'.row.value.trialEndsAt == w'.now < w.row.value.trialEndsAt
  {
    var m: Messages := map[7 := Event(10, TrialReactivated)];
    var w := ProvisionStep(Init(100), seed);
    assert w.row == Some(Created(seed, 100));
    DeliveryReactivates(m, 300, w, 7, 0);
  }
}
