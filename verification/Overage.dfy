/**
  SEAT-5: the seat-overage reconciler of one tenant, over the seats, members and invitations it
  counts. overage_since is written by the reconciler alone.
 */
module Overage {
  import opened Tenants
  import I = Invitations

  datatype Event = Started(licensed: int, active: nat, pending: nat, since: nat) | Resolved(at: nat)

  datatype World = World(tenant: I.World, live: bool, since: Option<nat>, outbox: seq<Event>)

  datatype Step =
    | Tenant(step: I.Step)      // anything that happens to seats, members, invitations or the clock
    | Offboard
    | Pass

  predicate OverCap(w: World) { I.Occupancy(w.tenant) > w.tenant.seats }

  /** The event of a new overage carries the counts it was seen with. */
  function StartedNow(t: I.World): Event {
    Started(t.seats, |I.ActiveMembers(t.members)|, |I.PendingIds(t.invites, t.now)|, t.now)
  }

  /** reconcileOneTenant; LockSeatOccupancy fails for a deleted tenant. */
  function PassStep(w: World): World {
    if !w.live then w
    else if OverCap(w) && w.since.None? then
      w.(since := Some(w.tenant.now), outbox := w.outbox + [StartedNow(w.tenant)])
    else if !OverCap(w) && w.since.Some? then
      w.(since := None, outbox := w.outbox + [Resolved(w.tenant.now)])
    else w
  }

  function Next(w: World, s: Step): World {
    match s
    case Tenant(t) => w.(tenant := I.Next(w.tenant, t))
    case Offboard => w.(live := false)
    case Pass => PassStep(w)
  }

  function Run(w: World, steps: seq<Step>): World {
    if steps == [] then w
    else Next(Run(w, steps[..|steps| - 1]), steps[|steps| - 1])
  }

  // ---- the events ---------------------------------------------------------------------

  /** Started and Resolved take turns, Started first; overage_since is set exactly while a
      Started is the last, and to its time; every Started shows an occupancy over the cap. */
  ghost predicate Alternates(out: seq<Event>, since: Option<nat>) {
    && (forall i :: 0 <= i < |out| ==> (out[i].Started? <==> i % 2 == 0))
    && (forall i :: 0 <= i < |out| && out[i].Started? ==> out[i].active + out[i].pending > out[i].licensed)
    && (since.Some? <==> |out| % 2 == 1)
    && (since.Some? ==> out[|out| - 1].since == since.value)
  }

  lemma PassAlternates(w: World)
    requires Alternates(w.outbox, w.since)
    ensures Alternates(PassStep(w).outbox, PassStep(w).since)
  {
  }

  /** Across any sequence of passes, seat changes, membership and invitation changes and ticks. */
  lemma {:induction false} EventsAlternate(w: World, steps: seq<Step>)
    requires w.outbox == [] && w.since.None?
    ensures Alternates(Run(w, steps).outbox, Run(w, steps).since)
  {
    if steps == [] {
    } else {
      EventsAlternate(w, steps[..|steps| - 1]);
      PassAlternates(Run(w, steps[..|steps| - 1]));
    }
  }

  /** A pass leaves overage_since set exactly if the tenant is over its cap, changes nothing the
      invites and acceptances count, and a second pass at once does nothing. */
  lemma PassSettles(w: World)
    requires w.live
    ensures PassStep(w).since.Some? <==> I.Occupancy(w.tenant) > w.tenant.seats
    ensures PassStep(w).tenant == w.tenant && PassStep(PassStep(w)) == PassStep(w)
    ensures |PassStep(w).outbox| == |w.outbox| + (if OverCap(w) <==> w.since.Some? then 0 else 1)
  {
  }

  // ---- what an overage comes from -------------------------------------------------------

  /** The seats change, or a member is added without a look at them. */
  predicate MayExceed(w: World, s: Step) {
    s.Tenant? && (s.step.SetSeats? || I.Unchecked(w.tenant, s.step))
  }

  predicate NeverExceeds(w: World, steps: seq<Step>) {
    steps != [] ==>
      && NeverExceeds(w, steps[..|steps| - 1])
      && !MayExceed(Run(w, steps[..|steps| - 1]), steps[|steps| - 1])
  }

  /** Not over the cap and not reported to be, and whoever holds the tenant lock counts on no seat
      that is gone. */
  predicate Within(w: World) {
    !OverCap(w) && w.since.None? && I.CountHolds(w.tenant) && I.SeatKept(w.tenant)
  }

  lemma StaysWithin(w: World, s: Step)
    requires Within(w) && !MayExceed(w, s)
    ensures Within(Next(w, s)) && Next(w, s).outbox == w.outbox
  {
    if s.Tenant? {
      I.NextCountHolds(w.tenant, s.step);
      I.CapStep(w.tenant, s.step);
    }
  }

  /** No pass ever reports an overage unless the seats were changed or one of the unchecked steps
      was taken: what invites and acceptances guarantee is what the reconciler sees. */
  lemma {:induction false} OverageHasACause(w: World, steps: seq<Step>)
    requires Within(w) && NeverExceeds(w, steps)
    ensures Within(Run(w, steps)) && Run(w, steps).outbox == w.outbox
  {
    if steps == [] {
    } else {
      OverageHasACause(w, steps[..|steps| - 1]);
      StaysWithin(Run(w, steps[..|steps| - 1]), steps[|steps| - 1]);
    }
  }

  // ---- as it runs ---------------------------------------------------------------------

  class Reconciler {
    var tenant: I.World
    var live: bool
    var since: Option<nat>
    var outbox: seq<Event>

    ghost function State(): World reads this { World(tenant, live, since, outbox) }

    method ReconcileOneTenant() returns (ok: bool, started: bool)
      modifies `since, `outbox
      ensures State() == PassStep(old(State()))
      ensures ok <==> live
      ensures started <==> live && OverCap(State()) && old(since).None?
      ensures var active := set u | u in tenant.members && tenant.members[u] == I.MemberActive;
              var pending := set i | i in tenant.invites && tenant.invites[i].status == I.Pending
                                     && tenant.invites[i].expires > tenant.now;
              if live && |active| + |pending| > tenant.seats && old(since).None? then
                && since == Some(tenant.now)
                && outbox == old(outbox) + [Started(tenant.seats, |active|, |pending|, tenant.now)]
              else if live && |active| + |pending| <= tenant.seats && old(since).Some? then
                since.None? && outbox == old(outbox) + [Resolved(tenant.now)]
              else since == old(since) && outbox == old(outbox)
    {
      started := false;
      if !live {
        return false, false;
      }
      var active := set u | u in tenant.members && tenant.members[u] == I.MemberActive;
      var pending := set i | i in tenant.invites && I.Outstanding(tenant.invites[i], tenant.now);
      assert active == I.ActiveMembers(tenant.members) && pending == I.PendingIds(tenant.invites, tenant.now);
      assert pending == set i | i in tenant.invites && tenant.invites[i].status == I.Pending
                                && tenant.invites[i].expires > tenant.now;
      var overCap := |active| + |pending| > tenant.seats;
      if overCap && since.None? {
        since := Some(tenant.now);
        started := true;
        outbox := outbox + [Started(tenant.seats, |active|, |pending|, tenant.now)];
      } else if !overCap && since.Some? {
        since := None;
        outbox := outbox + [Resolved(tenant.now)];
      }
      ok := true;
    }
  }

  ghost function CountTrue(l: seq<bool>): nat {
    if l == [] then 0 else CountTrue(l[..|l| - 1]) + (if l[|l| - 1] then 1 else 0)
  }

  /** SeatOverageReconcile: every candidate is attempted, whatever the others come to; it succeeds
      for those whose tenant is not deleted. */
  method ReconcileAll(candidates: seq<Reconciler>)
    returns (attempted: nat, succeeded: nat, failed: nat, ghost oks: seq<bool>)
    requires forall i, j :: 0 <= i < j < |candidates| ==> candidates[i] != candidates[j]
    modifies set c | c in candidates
    ensures forall i :: 0 <= i < |candidates| ==> candidates[i].State() == PassStep(old(candidates[i].State()))
    ensures attempted == |candidates| == succeeded + failed
    ensures |oks| == |candidates| && succeeded == CountTrue(oks)
    ensures forall i :: 0 <= i < |candidates| ==> oks[i] == old(candidates[i].live)
  {
    attempted, succeeded, failed, oks := 0, 0, 0, [];
    for k := 0 to |candidates|
      invariant attempted == k == succeeded + failed
      invariant |oks| == k && succeeded == CountTrue(oks)
      invariant forall i :: 0 <= i < k ==> oks[i] == old(candidates[i].live)
      invariant forall i :: 0 <= i < k ==> candidates[i].State() == PassStep(old(candidates[i].State()))
      invariant forall i :: k <= i < |candidates| ==> candidates[i].State() == old(candidates[i].State())
    {
      attempted := attempted + 1;
      var ok, started := candidates[k].ReconcileOneTenant();
      assert (oks + [ok])[..k] == oks;
      oks := oks + [ok];
      if ok {
        succeeded := succeeded + 1;
      } else {
        failed := failed + 1;
      }
    }
  }
}
