/**
  Events delivered before the tenant exists: whatever the order, duplicates, aborts and
  interleavings of their deliveries, I-1 and one undisturbed replay pass end in the same
  tenant row, the fold of the events in (occurred_at, event_id) order.
 */
module OrderIndependence {
  import opened Tenants
  import opened ParkReplay
  import opened ParkReplaySafety
  import opened ParkReplayTheorems

  /** The Catalog's trial length per plan. */
  type Catalog = Plan -> nat

  /** Run one replay pass to its end with nothing in between; trial lengths are those of the
      row's current plan. */
  ghost function ReplayAll(m: Messages, cat: Catalog, w: World, r: nat): World
    decreases if r in w.replays then |w.replays[r]| + 1 else 0
  {
    if r !in w.replays then w
    else ReplayAll(m, cat, ReplayStep(m, w, r, if w.row.Some? then cat(w.row.value.plan) else 0), r)
  }

  /** I-1 on a tenant without a row, then its replay of the parked events. */
  ghost function SignUp(m: Messages, cat: Catalog, w: World, seed: Seed): World {
    ReplayAll(m, cat, StartStep(m, ProvisionStep(w, seed), 0), 0)
  }

  // ---- the fold -----------------------------------------------------------

  /** What projecting the events in the given order comes to; it stops at the first error. */
  datatype Folded = Folded(row: Tenant, relays: seq<Out>, log: seq<Entry>, failed: bool)

  function Fold(m: Messages, cat: Catalog, now: Time, t: Tenant, l: seq<EventId>): Folded
    requires forall i :: 0 <= i < |l| ==> l[i] in m
    decreases |l|
  {
    if l == [] then Folded(t, [], [], false)
    else
      match Project(t, m[l[0]], cat(t.plan), now)
      case Err(_) => Folded(t, [], [], true)
      case Ok(StaleSkip) =>
        var f := Fold(m, cat, now, t, l[1..]);
        f.(log := [Entry(l[0], Skipped)] + f.log)
      case Ok(Apply(row, relays, _)) =>
        var f := Fold(m, cat, now, row, l[1..]);
        f.(relays := relays + f.relays, log := [Entry(l[0], Applied)] + f.log)
  }

  /** One undisturbed iteration takes the head of the list off both the list and the table. */
  lemma TakeHead(m: Messages, w: World, r: nat, days: nat)
    requires Live(w.row) && Checks(w.row.value)
    requires r in w.replays && Lists(m, w.replays[r], w.parked) && w.replays[r] != []
    requires forall id :: id in w.parked ==> !m[id].body.TenantOffboarded?
    requires Project(w.row.value, m[w.replays[r][0]], days, w.now).Ok?
    ensures var w' := ReplayStep(m, w, r, days);
            var id := w.replays[r][0];
            var v := Project(w.row.value, m[id], days, w.now).value;
            && w'.now == w.now && w'.parked == w.parked - {id}
            && r in w'.replays && w'.replays[r] == w.replays[r][1..]
            && Live(w'.row) && Checks(w'.row.value)
            && w'.row.value == (if v.Apply? then v.row else w.row.value)
            && w'.outbox == w.outbox + (if v.Apply? then v.relays else [])
            && w'.log == w.log + [Entry(id, if v.Apply? then Applied else Skipped)]
  {
    var id := w.replays[r][0];
    assert id in w.parked;
    if Project(w.row.value, m[id], days, w.now).value.Apply? {
      ProjectionStoresWhatItReports(w.row.value, m[id].body, days, w.now);
    }
  }

  /** `w'` is what `w` becomes when its pass comes to `f`. */
  ghost predicate FoldsTo(w: World, w': World, f: Folded) {
    && w'.row == Some(f.row) && w'.outbox == w.outbox + f.relays && w'.log == w.log + f.log
    && (!f.failed ==> w'.parked == {})
  }

  lemma FoldsToHead(w: World, w1: World, w': World, relays: seq<Out>, e: Entry, f: Folded)
    requires w1.outbox == w.outbox + relays && w1.log == w.log + [e]
    requires FoldsTo(w1, w', f)
    ensures FoldsTo(w, w', Folded(f.row, relays + f.relays, [e] + f.log, f.failed))
  {
    assert (w.outbox + relays) + f.relays == w.outbox + (relays + f.relays);
    assert (w.log + [e]) + f.log == w.log + ([e] + f.log);
  }

  /** One iteration of the pass and one unfolding of the fold, side by side. */
  lemma BothTakeHead(m: Messages, cat: Catalog, w: World, r: nat)
    returns (w1: World, relays: seq<Out>, e: Entry)
    requires Live(w.row) && Checks(w.row.value)
    requires r in w.replays && Lists(m, w.replays[r], w.parked) && w.replays[r] != []
    requires forall id :: id in w.parked ==> !m[id].body.TenantOffboarded?
    requires Project(w.row.value, m[w.replays[r][0]], cat(w.row.value.plan), w.now).Ok?
    ensures ReplayAll(m, cat, w, r) == ReplayAll(m, cat, w1, r)
    ensures w1.now == w.now && w1.parked == w.parked - {w.replays[r][0]}
    ensures r in w1.replays && w1.replays[r] == w.replays[r][1..]
    ensures Live(w1.row) && Checks(w1.row.value)
    ensures w1.outbox == w.outbox + relays && w1.log == w.log + [e]
    ensures forall i :: 0 <= i < |w1.replays[r]| ==> w1.replays[r][i] in m
    ensures var f := Fold(m, cat, w.now, w1.row.value, w1.replays[r]);
            Fold(m, cat, w.now, w.row.value, w.replays[r]) ==
            Folded(f.row, relays + f.relays, [e] + f.log, f.failed)
  {
    var l := w.replays[r];
    var days := cat(w.row.value.plan);
    var v := Project(w.row.value, m[l[0]], days, w.now).value;
    w1 := ReplayStep(m, w, r, days);
    relays := if v.Apply? then v.relays else [];
    e := Entry(l[0], if v.Apply? then Applied else Skipped);
    TakeHead(m, w, r, days);
    FoldHead(m, cat, w.now, w.row.value, l);
  }

  lemma {:induction false} ReplayAllIsTheFold(m: Messages, cat: Catalog, w: World, r: nat)
    requires Live(w.row) && Checks(w.row.value)
    requires r in w.replays && Lists(m, w.replays[r], w.parked)
    requires forall id :: id in w.parked ==> !m[id].body.TenantOffboarded?
    ensures FoldsTo(w, ReplayAll(m, cat, w, r), Fold(m, cat, w.now, w.row.value, w.replays[r]))
    decreases |w.replays[r]|
  {
    var l := w.replays[r];
    if l != [] && Project(w.row.value, m[l[0]], cat(w.row.value.plan), w.now).Ok? {
      var w1, relays, e := BothTakeHead(m, cat, w, r);
      HeadLeaves(m, l, w.parked);
      ReplayAllIsTheFold(m, cat, w1, r);
      FoldsToHead(w, w1, ReplayAll(m, cat, w1, r), relays, e,
                  Fold(m, cat, w.now, w1.row.value, w1.replays[r]));
    } else {
      PassEnds(m, cat, w, r);
    }
  }

  /** A pass ends at the end of its list, or at an event it cannot apply. */
  lemma PassEnds(m: Messages, cat: Catalog, w: World, r: nat)
    requires Live(w.row) && r in w.replays && Lists(m, w.replays[r], w.parked)
    requires w.replays[r] == []
          || Project(w.row.value, m[w.replays[r][0]], cat(w.row.value.plan), w.now).Err?
    ensures ReplayAll(m, cat, w, r) == w.(replays := w.replays - {r})
    ensures w.replays[r] == [] ==> w.parked == {}
  {
    assert w.replays[r] != [] ==> w.replays[r][0] in w.parked;
    assert ReplayStep(m, w, r, cat(w.row.value.plan)) == w.(replays := w.replays - {r});
  }

  lemma FoldHead(m: Messages, cat: Catalog, now: Time, t: Tenant, l: seq<EventId>)
    requires l != [] && forall i :: 0 <= i < |l| ==> l[i] in m
    requires Project(t, m[l[0]], cat(t.plan), now).Ok?
    ensures var v := Project(t, m[l[0]], cat(t.plan), now).value;
            var f := Fold(m, cat, now, if v.Apply? then v.row else t, l[1..]);
            Fold(m, cat, now, t, l) ==
            Folded(f.row, (if v.Apply? then v.relays else []) + f.relays,
                   [Entry(l[0], if v.Apply? then Applied else Skipped)] + f.log, f.failed)
  {
    var v := Project(t, m[l[0]], cat(t.plan), now).value;
    var f := Fold(m, cat, now, if v.Apply? then v.row else t, l[1..]);
    assert [] + f.relays == f.relays;
  }

  lemma HeadLeaves(m: Messages, l: seq<EventId>, s: set<EventId>)
    requires Lists(m, l, s) && l != []
    ensures Lists(m, l[1..], s - {l[0]})
  {
    ListTail(m, l);
    forall i ensures i in l[1..] <==> i in s - {l[0]} {
      if i in l[1..] { assert Before(m, l[0], i); }
    }
  }

  /** Replay order is total: a set of events has one listing. */
  lemma {:induction false} ReplayOrderIsUnique(m: Messages, a: seq<EventId>, b: seq<EventId>, s: set<EventId>)
    requires Lists(m, a, s) && Lists(m, b, s)
    ensures a == b
  {
    assert a != [] ==> a[0] in s && a[0] in b;
    assert b != [] ==> b[0] in s && b[0] in a;
    if a != [] {
      ListTail(m, a);
      ListTail(m, b);
      assert a[0] == b[0];
      HeadLeaves(m, a, s);
      HeadLeaves(m, b, s);
      ReplayOrderIsUnique(m, a[1..], b[1..], s - {a[0]});
      assert a == [a[0]] + a[1..] && b == [b[0]] + b[1..];
    }
  }

  // ---- before the tenant exists ------------------------------------------------

  /** With no row yet, what is parked is exactly what has been acknowledged, save the
      TenantOffboarded events and those that never reach the projection. */
  lemma ParkedIsWhatWasAcknowledged(m: Messages, skew: nat, w: World)
    requires Reachable(m, skew, w) && w.row.None? && w.pruned == {}
    ensures forall id :: id in w.parked <==>
              id in w.inbox && id in m && Projectable(m[id].body) && !m[id].body.TenantOffboarded?
  {
    ReachableInv(m, skew, w);
    DropsAreJustified(m, skew, w);
    forall id ensures id in w.parked <==>
      id in w.inbox && id in m && Projectable(m[id].body) && !m[id].body.TenantOffboarded?
    {
      if id in m && Projectable(m[id].body) {
        EachEventHasOneOutcome(m, skew, w, id);
        if id in w.inbox && id !in w.parked {
          var i :| 0 <= i < |w.log| && w.log[i].id == id;
          assert w.log[i].outcome == DroppedOffboard;
        }
      }
    }
  }

  lemma SignUpIsTheFold(m: Messages, cat: Catalog, skew: nat, w: World, seed: Seed, l: seq<EventId>)
    requires Reachable(m, skew, w) && w.row.None? && Lists(m, l, w.parked)
    ensures var w' := SignUp(m, cat, w, seed);
            var f := Fold(m, cat, w.now, Created(seed, w.now), l);
            && w'.row == Some(f.row)
            && w'.log == w.log + f.log
            && w'.outbox == [TenantCreated(Trial, seed.plan), TrialStarted(seed.plan)] + f.relays
            && (!f.failed ==> w'.parked == {})
  {
    ReachableInv(m, skew, w);
    var w1 := ProvisionStep(w, seed);
    var w2 := StartStep(m, w1, 0);
    ReplayOrderIsUnique(m, l, ListForTenant(m, w.parked), w.parked);
    ReplayAllIsTheFold(m, cat, w2, 0);
    assert w.outbox + [TenantCreated(Trial, seed.plan), TrialStarted(seed.plan)]
        == [TenantCreated(Trial, seed.plan), TrialStarted(seed.plan)];
  }

  /** Any two histories that acknowledged the same events before the tenant existed end, after
      I-1 and its replay, in the same row and the same relayed events, even if the replay
      stops at an event it cannot apply. */
  lemma DeliveryOrderIsIrrelevant(m: Messages, cat: Catalog, skew: nat, w1: World, w2: World, seed: Seed)
    requires Reachable(m, skew, w1) && w1.row.None? && w1.pruned == {}
    requires Reachable(m, skew, w2) && w2.row.None? && w2.pruned == {}
    requires w1.inbox == w2.inbox && w1.now == w2.now
    ensures SignUp(m, cat, w1, seed).row == SignUp(m, cat, w2, seed).row
    ensures SignUp(m, cat, w1, seed).outbox == SignUp(m, cat, w2, seed).outbox
  {
    ParkedIsWhatWasAcknowledged(m, skew, w1);
    ParkedIsWhatWasAcknowledged(m, skew, w2);
    assert w1.parked == w2.parked;
    ReachableInv(m, skew, w1);
    SignUpIsTheFold(m, cat, skew, w1, seed, ListForTenant(m, w1.parked));
    SignUpIsTheFold(m, cat, skew, w2, seed, ListForTenant(m, w1.parked));
  }

  // ---- when a parked event is skipped --------------------------------------------

  predicate NoneSkipped(log: seq<Entry>) {
    forall i :: 0 <= i < |log| ==> log[i].outcome != Skipped
  }

  predicate DistinctTimes(m: Messages, l: seq<EventId>)
    requires forall i :: 0 <= i < |l| ==> l[i] in m
  {
    forall i, j :: 0 <= i < j < |l| ==> m[l[i]].at != m[l[j]].at
  }

  /** A replay that meets no error skips nothing exactly if no two parked events share a
      timestamp (and none is as old as the watermark, which a new tenant does not have). */
  lemma {:induction false} SkipsExactlyTies(m: Messages, cat: Catalog, now: Time, t: Tenant, l: seq<EventId>)
    requires InOrder(m, l) && !Fold(m, cat, now, t, l).failed
    requires l != [] && t.lastEventAt.Some? ==> t.lastEventAt.value <= m[l[0]].at
    ensures NoneSkipped(Fold(m, cat, now, t, l).log)
       <==> DistinctTimes(m, l) && (l != [] ==> !Stale(t, m[l[0]].at))
    decreases |l|
  {
    if l == [] {
    } else {
      ListTail(m, l);
      FoldHead(m, cat, now, t, l);
      var f := Fold(m, cat, now, t, l);
      var v := Project(t, m[l[0]], cat(t.plan), now).value;
      if v.StaleSkip? {
        assert f.log[0].outcome == Skipped;
      } else {
        var g := Fold(m, cat, now, v.row, l[1..]);
        SkipsExactlyTies(m, cat, now, v.row, l[1..]);
        NoneSkippedHead(Entry(l[0], Applied), g.log);
        DistinctHead(m, l);
      }
    }
  }

  lemma NoneSkippedHead(e: Entry, log: seq<Entry>)
    ensures NoneSkipped([e] + log) <==> e.outcome != Skipped && NoneSkipped(log)
  {
    var l := [e] + log;
    assert l[0] == e;
    assert forall i :: 0 <= i < |log| ==> log[i] == l[i + 1];
    if NoneSkipped(l) {
      forall i | 0 <= i < |log| ensures log[i].outcome != Skipped { assert l[i + 1].outcome != Skipped; }
    }
  }

  lemma DistinctHead(m: Messages, l: seq<EventId>)
    requires InOrder(m, l) && l != []
    ensures DistinctTimes(m, l)
       <==> DistinctTimes(m, l[1..]) && (|l| > 1 ==> m[l[0]].at < m[l[1]].at)
  {
    var r := l[1..];
    assert forall i :: 0 <= i < |r| ==> r[i] == l[i + 1];
    if DistinctTimes(m, r) && (|l| > 1 ==> m[l[0]].at < m[l[1]].at) {
      forall i, j | 0 <= i < j < |l| ensures m[l[i]].at != m[l[j]].at {
        if i > 0 { assert r[i - 1] == l[i] && r[j - 1] == l[j]; }
        else if j > 1 { assert Before(m, l[1], l[j]); }
      }
    }
    if DistinctTimes(m, l) && |l| > 1 { assert Before(m, l[0], l[1]); }
  }

  /** So, after I-1 and an error-free replay, every parked event has been applied, none
      skipped, exactly if their timestamps are distinct. */
  lemma NewTenantSkipsExactlyTies(m: Messages, cat: Catalog, skew: nat, w: World, seed: Seed, l: seq<EventId>)
    requires Reachable(m, skew, w) && w.row.None? && Lists(m, l, w.parked)
    requires !Fold(m, cat, w.now, Created(seed, w.now), l).failed
    ensures var w' := SignUp(m, cat, w, seed);
            && w'.parked == {} && |w.log| <= |w'.log| && w'.log[..|w.log|] == w.log
            && (NoneSkipped(w'.log[|w.log|..]) <==> DistinctTimes(m, l))
  {
    SignUpIsTheFold(m, cat, skew, w, seed, l);
    SkipsExactlyTies(m, cat, w.now, Created(seed, w.now), l);
    var f := Fold(m, cat, w.now, Created(seed, w.now), l);
    assert (w.log + f.log)[|w.log|..] == f.log;
  }
}
