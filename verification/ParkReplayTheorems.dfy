/**
  The properties of the park-and-replay system, stated for every run and every
  interleaving of consumer transactions, I-1, replay passes, crashes and pruning.
 */
module ParkReplayTheorems {
  import opened Tenants
  import opened ParkReplay
  import opened ParkReplaySafety

  /** A tenant's history up to any point: some run from before the tenant existed. */
  ghost predicate Reachable(m: Messages, skew: nat, w: World) {
    exists now, steps :: now >= 0 && Run(m, skew, Init(now), steps) == w
  }

  lemma ReachableInv(m: Messages, skew: nat, w: World)
    requires Reachable(m, skew, w)
    ensures Inv(m, skew, w)
  {
    var now, steps :| now >= 0 && Run(m, skew, Init(now), steps) == w;
    RunKeepsInv(m, skew, Init(now), steps);
  }

  // ---- exactly one outcome --------------------------------------------------

  lemma {:induction false} NoOutcome(log: seq<Entry>, id: EventId)
    ensures Outcomes(log, id) == 0 <==> forall i :: 0 <= i < |log| ==> log[i].id != id
  {
    if log == [] {
    } else {
      var n := |log| - 1;
      NoOutcome(log[..n], id);
      assert forall i :: 0 <= i < n ==> log[..n][i] == log[i];
    }
  }

  lemma {:induction false} SoleOutcome(log: seq<Entry>, id: EventId) returns (i: nat)
    requires Outcomes(log, id) == 1
    ensures i < |log| && log[i].id == id && forall j :: 0 <= j < |log| && log[j].id == id ==> j == i
  {
    var n := |log| - 1;
    if log[n].id == id {
      i := n;
      NoOutcome(log[..n], id);
      assert forall j :: 0 <= j < n ==> log[..n][j] == log[j];
    } else {
      i := SoleOutcome(log[..n], id);
      assert forall j :: 0 <= j < n ==> log[..n][j] == log[j];
    }
  }

  /** Every acknowledged lifecycle or billing event is still parked or has exactly one
      outcome, never both and never neither; an unacknowledged one has left no trace. */
  lemma EachEventHasOneOutcome(m: Messages, skew: nat, w: World, id: EventId)
    requires Reachable(m, skew, w)
    requires id in m && Projectable(m[id].body) && id !in w.pruned
    ensures id !in w.inbox ==>
              id !in w.parked && forall i :: 0 <= i < |w.log| ==> w.log[i].id != id
    ensures id in w.inbox && id in w.parked ==> forall i :: 0 <= i < |w.log| ==> w.log[i].id != id
    ensures id in w.inbox && id !in w.parked ==>
              exists i :: 0 <= i < |w.log| && w.log[i].id == id
                && forall j :: 0 <= j < |w.log| && w.log[j].id == id ==> j == i
  {
    ReachableInv(m, skew, w);
    NoOutcome(w.log, id);
    assert Places(w.log, w.parked, id) == (if id in w.inbox then 1 else 0);
    if id in w.inbox && id !in w.parked { var i := SoleOutcome(w.log, id); }
  }

  /** A drop for a soft-deleted tenant only happens to one, and only TenantOffboarded is
      dropped for want of a live row. */
  ghost predicate Justified(m: Messages, w: World) {
    forall i :: 0 <= i < |w.log| ==>
      match w.log[i].outcome
      case DroppedDeleted => w.row.Some? && w.row.value.deletedAt.Some?
      case DroppedOffboard => w.log[i].id in m && m[w.log[i].id].body.TenantOffboarded?
      case _ => w.row.Some?
  }

  lemma JustifiedStep(m: Messages, skew: nat, w: World, s: Step)
    requires Justified(m, w)
    ensures Justified(m, Next(m, skew, w, s))
  {
    if w.row.Some? && w.row.value.deletedAt.Some? { DeletedStays(m, skew, w, s); }
  }

  lemma {:induction false} JustifiedRun(m: Messages, skew: nat, now: Time, steps: seq<Step>)
    ensures Justified(m, Run(m, skew, Init(now), steps))
    decreases |steps|
  {
    if steps == [] {
    } else {
      JustifiedRun(m, skew, now, steps[..|steps| - 1]);
      JustifiedStep(m, skew, Run(m, skew, Init(now), steps[..|steps| - 1]), steps[|steps| - 1]);
    }
  }

  lemma DropsAreJustified(m: Messages, skew: nat, w: World)
    requires Reachable(m, skew, w)
    ensures Justified(m, w)
  {
    var now, steps :| now >= 0 && Run(m, skew, Init(now), steps) == w;
    JustifiedRun(m, skew, now, steps);
  }

  // ---- parking and I-1 --------------------------------------------------------

  lemma DeletedStays(m: Messages, skew: nat, w: World, s: Step)
    requires w.row.Some? && w.row.value.deletedAt.Some?
    ensures var w' := Next(m, skew, w, s);
            w'.row == w.row && w'.outbox == w.outbox && w'.wipes == w.wipes
  {
  }

  /** Offboarding is terminal: row, relays and wipe count never change again. */
  lemma {:induction false} OffboardingIsTerminal(m: Messages, skew: nat, w: World, steps: seq<Step>)
    requires w.row.Some? && w.row.value.deletedAt.Some?
    ensures var w' := Run(m, skew, w, steps);
            w'.row == w.row && w'.outbox == w.outbox && w'.wipes == w.wipes
    decreases |steps|
  {
    if steps == [] {
    } else {
      OffboardingIsTerminal(m, skew, w, steps[..|steps| - 1]);
      DeletedStays(m, skew, Run(m, skew, w, steps[..|steps| - 1]), steps[|steps| - 1]);
    }
  }

  lemma LiveNeverParks(m: Messages, skew: nat, w: World, s: Step)
    requires Live(w.row)
    ensures Next(m, skew, w, s).parked <= w.parked
    ensures Next(m, skew, w, s).row.Some?
  {
  }

  /** Once I-1 has committed, and while the tenant is not offboarded, no event is parked:
      the parked set only shrinks. */
  lemma {:induction false} ParkedOnlyShrinks(m: Messages, skew: nat, w: World, steps: seq<Step>)
    requires Live(w.row) && Live(Run(m, skew, w, steps).row)
    ensures Run(m, skew, w, steps).parked <= w.parked
    decreases |steps|
  {
    if steps == [] {
    } else {
      var front := steps[..|steps| - 1];
      var mid := Run(m, skew, w, front);
      if mid.row.None? {
        RowStays(m, skew, w, front);
      } else if !Live(mid.row) {
        DeletedStays(m, skew, mid, steps[|steps| - 1]);
      } else {
        ParkedOnlyShrinks(m, skew, w, front);
        LiveNeverParks(m, skew, mid, steps[|steps| - 1]);
      }
    }
  }

  lemma {:induction false} RowStays(m: Messages, skew: nat, w: World, steps: seq<Step>)
    requires w.row.Some?
    ensures Run(m, skew, w, steps).row.Some?
    decreases |steps|
  {
    if steps == [] {
    } else {
      RowStays(m, skew, w, steps[..|steps| - 1]);
    }
  }

  /** A replay pass that reaches the end of its list without an error leaves nothing parked. */
  lemma CleanPassEmptiesParked(m: Messages, skew: nat, w: World, r: nat)
    requires Reachable(m, skew, w) && Live(w.row)
    requires r in w.replays && w.replays[r] == []
    ensures w.parked == {}
  {
    ReachableInv(m, skew, w);
  }

  // ---- replay order -----------------------------------------------------------

  /** Any pass, however stale its list, only ever takes the earliest event still parked. */
  lemma ReplayTakesTheEarliest(m: Messages, skew: nat, w: World, r: nat, days: nat)
    requires Reachable(m, skew, w) && Live(w.row)
    requires ReplayStep(m, w, r, days).log != w.log
    ensures var w' := ReplayStep(m, w, r, days);
            && |w'.log| == |w.log| + 1 && w'.log[..|w.log|] == w.log
            && var id := w'.log[|w.log|].id;
               && id in w.parked && w'.parked == w.parked - {id}
               && forall j :: j in w.parked && j != id ==> j in m && id in m && Before(m, id, j)
  {
    ReachableInv(m, skew, w);
    ListTail(m, w.replays[r]);
  }

  /** Events taken by any two replay passes, at any distance in the run, come in replay order. */
  lemma ReplaysApplyInOrder(m: Messages, skew: nat, w: World, r1: nat, d1: nat,
                            steps: seq<Step>, r2: nat, d2: nat)
    requires Reachable(m, skew, w) && Live(w.row)
    requires var w1 := ReplayStep(m, w, r1, d1);
             var w2 := Run(m, skew, w1, steps);
             && w1.log != w.log && Live(w1.row)
             && Live(w2.row) && ReplayStep(m, w2, r2, d2).log != w2.log
    ensures var w1 := ReplayStep(m, w, r1, d1);
            var w2 := Run(m, skew, w1, steps);
            var w3 := ReplayStep(m, w2, r2, d2);
            && |w1.log| > 0 && |w3.log| > 0
            && var i, j := w1.log[|w1.log| - 1].id, w3.log[|w3.log| - 1].id;
               i in m && j in m && Before(m, i, j)
  {
    var w1 := ReplayStep(m, w, r1, d1);
    var w2 := Run(m, skew, w1, steps);
    ReplayTakesTheEarliest(m, skew, w, r1, d1);
    StepReachable(m, skew, w, ReplayNext(r1, d1));
    RunReachable(m, skew, w1, steps);
    ReplayTakesTheEarliest(m, skew, w2, r2, d2);
    ParkedOnlyShrinks(m, skew, w1, steps);
  }

  lemma StepReachable(m: Messages, skew: nat, w: World, s: Step)
    requires Reachable(m, skew, w)
    ensures Reachable(m, skew, Next(m, skew, w, s))
  {
    var now, steps :| now >= 0 && Run(m, skew, Init(now), steps) == w;
    RunSnoc(m, skew, Init(now), steps, s);
    assert Run(m, skew, Init(now), steps + [s]) == Next(m, skew, w, s);
  }

  lemma RunReachable(m: Messages, skew: nat, w: World, more: seq<Step>)
    requires Reachable(m, skew, w)
    ensures Reachable(m, skew, Run(m, skew, w, more))
  {
    var now, steps :| now >= 0 && Run(m, skew, Init(now), steps) == w;
    RunAppend(m, skew, Init(now), steps, more);
    assert Run(m, skew, Init(now), steps + more) == Run(m, skew, w, more);
  }

  // ---- recency ------------------------------------------------------------

  /** The applied events are exactly the strict left-to-right maxima by timestamp of the
      projected ones, the stored watermark is their maximum, and so no event is applied
      twice, even when inbox rows are pruned at arbitrary moments. */
  lemma AppliedAreStrictMaxima(m: Messages, skew: nat, w: World)
    requires Reachable(m, skew, w)
    ensures StrictMaxima(m, w.log)
    ensures w.row.Some? ==> w.row.value.lastEventAt == Watermark(m, w.log)
    ensures forall i, j :: 0 <= i < j < |w.log| && w.log[i].outcome == w.log[j].outcome == Applied ==>
              w.log[i].id != w.log[j].id
  {
    ReachableInv(m, skew, w);
    forall i, j | 0 <= i < j < |w.log| && w.log[i].outcome == Applied && w.log[j].outcome == Applied
      ensures w.log[i].id != w.log[j].id
    {
      assert Projected?(w.log[i]) && Projected?(w.log[j]);
    }
  }

  /** The watermark never runs ahead of the clock by more than the skew, although replay does
      not check the clamp again. */
  lemma WatermarkWithinSkew(m: Messages, skew: nat, w: World)
    requires Reachable(m, skew, w)
    ensures w.row.Some? && w.row.value.lastEventAt.Some? ==>
              w.row.value.lastEventAt.value <= w.now + skew
    ensures forall id :: id in w.parked ==> id in m && m[id].at <= w.now + skew
  {
    ReachableInv(m, skew, w);
  }

  // ---- relay chain ----------------------------------------------------------

  predicate Link?(o: Out) { o.TenantCreated? || o.TenantStateChanged? }

  function Links(out: seq<Out>): (links: seq<Out>)
    ensures forall i :: 0 <= i < |links| ==> Link?(links[i])
  {
    if out == [] then []
    else Links(out[..|out| - 1]) + (if Link?(out[|out| - 1]) then [out[|out| - 1]] else [])
  }

  function Reached(o: Out): (Status, Plan)
    requires Link?(o)
  {
    if o.TenantCreated? then (o.status, o.plan) else (o.toStatus, o.toPlan)
  }

  /** Link i starts where link i-1 ended, and changes something. */
  predicate Follows(links: seq<Out>, i: nat)
    requires 0 < i < |links|
  {
    && links[i].TenantStateChanged? && Link?(links[i - 1])
    && Reached(links[i - 1]) == (links[i].fromStatus, links[i].fromPlan)
    && Reached(links[i - 1]) != Reached(links[i])
  }

  predicate Contiguous(links: seq<Out>) {
    && links != [] && links[0].TenantCreated?
    && (forall i :: 0 < i < |links| ==> Follows(links, i))
  }

  lemma {:induction false} ChainIsContiguous(out: seq<Out>)
    requires ChainEnd(out).Some?
    ensures Contiguous(Links(out)) && Reached(Links(out)[|Links(out)| - 1]) == ChainEnd(out).value
  {
    var n := |out| - 1;
    var front := out[..n];
    if out[n].TenantCreated? {
      assert front == [];
      assert Links(out) == [out[n]];
    } else {
      ChainIsContiguous(front);
      var l := Links(front);
      if out[n].TenantStateChanged? {
        assert Links(out) == l + [out[n]];
        forall i | 0 < i < |l| + 1 ensures Follows(Links(out), i) {
          if i < |l| { assert Follows(l, i); }
        }
      } else {
        assert Links(out) == l + [] == l;
      }
    }
  }

  /** A tenant's state events form one chain: it starts at TenantCreated with (trial, plan),
      every link starts where the one before ended and changes something, and the last one
      ends at the row's status and plan. The child wipe and the purge event happen together,
      at most once, and exactly if the tenant is offboarded. */
  lemma RelayChainReachesTheRow(m: Messages, skew: nat, w: World)
    requires Reachable(m, skew, w) && w.row.Some?
    ensures Contiguous(Links(w.outbox))
    ensures Links(w.outbox)[0].status == Trial
    ensures Reached(Links(w.outbox)[|Links(w.outbox)| - 1]) == (w.row.value.status, w.row.value.plan)
    ensures w.wipes == Purges(w.outbox) == (if w.row.value.status == Offboarded then 1 else 0)
  {
    ReachableInv(m, skew, w);
    ChainIsContiguous(w.outbox);
    LinksHead(w.outbox);
  }

  /** Every row of every run meets the CHECKs. */
  lemma RowsMeetTheChecks(m: Messages, skew: nat, w: World)
    requires Reachable(m, skew, w) && w.row.Some?
    ensures Checks(w.row.value)
  {
    ReachableInv(m, skew, w);
  }

  /** An applied event whose inbox row has been pruned is redelivered without effect: the watermark
      has passed it. */
  lemma PrunedRedeliveryIsSkipped(m: Messages, skew: nat, w: World, id: EventId, days: nat, i: nat)
    requires Reachable(m, skew, w) && Live(w.row) && i < |w.log| && w.log[i] == Entry(id, Applied)
    requires id in m && !m[id].body.UnknownType? && !m[id].body.TenantIdentityProvisioned?
    requires id !in w.inflight && !(m[id].at != 0 && m[id].at > w.now + skew)
    ensures var w' := Next(m, skew, Next(m, skew, w, Prune(id)), Deliver(id, days));
            && w'.row == w.row && w'.outbox == w.outbox && w'.wipes == w.wipes && w'.parked == w.parked
            && w'.log == w.log + [Entry(id, Skipped)] && w'.inbox == w.inbox + {id}
  {
    ReachableInv(m, skew, w);
    WatermarkBounds(m, w.log);
    assert Projected?(w.log[i]);
    assert w.inbox - {id} + {id} == w.inbox + {id};
  }

  lemma {:induction false} LinksHead(out: seq<Out>)
    requires out != [] && Link?(out[0])
    ensures Links(out) != [] && Links(out)[0] == out[0]
  {
    if |out| == 1 {
      assert Links(out[..0]) == [];
    } else {
      LinksHead(out[..|out| - 1]);
    }
  }

  // ---- the gap between the row lock and the lookup -----------------------------------

  /** A delivery can be acknowledged and lost: it finds no row, I-1 commits, and the lookup
      then takes the live row for a soft-deleted one. The seat change is neither applied nor
      parked, and no redelivery will bring it back. */
  lemma ADeliveryCanBeLost()
    ensures var m: Messages := map[7 := Event(10, TenantSeatsChanged(50))];
            var w := Run(m, 300, Init(100), [Deliver(7, 0), Provision(Seed(Pro, 14, 0)), Lookup(7)]);
            && w.log == [Entry(7, DroppedLive)]
            && 7 in w.inbox && w.parked == {} && Live(w.row) && w.row.value.seats == 10
            && Next(m, 300, w, Deliver(7, 0)) == w
  {
    var m: Messages := map[7 := Event(10, TenantSeatsChanged(50))];
    var steps := [Deliver(7, 0), Provision(Seed(Pro, 14, 0)), Lookup(7)];
    var w0 := Init(100);
    var w1 := Next(m, 300, w0, steps[0]);
    var w2 := Next(m, 300, w1, steps[1]);
    assert steps[..2] == [steps[0], steps[1]] && steps[..2][..1] == [steps[0]] && steps[..1] == [steps[0]];
    assert [steps[0]][..0] == [];
    assert Run(m, 300, w0, [steps[0]]) == w1;
    assert Run(m, 300, w0, steps[..2]) == w2;
    assert w1.inflight == map[7 := Looking];
    assert Run(m, 300, w0, steps) == Next(m, 300, w2, steps[2]);
  }

  /** The transaction of `id` reaches no further step during these. */
  ghost predicate Leaves(steps: seq<Step>, id: EventId) {
    forall k :: 0 <= k < |steps| ==> steps[k] != Lookup(id) && steps[k] != Abort(id)
  }

  lemma {:induction false} LookingWaits(m: Messages, skew: nat, w: World, steps: seq<Step>, id: EventId)
    requires id in w.inflight && w.inflight[id] == Looking && Leaves(steps, id)
    ensures var w' := Run(m, skew, w, steps); id in w'.inflight && w'.inflight[id] == Looking
    decreases |steps|
  {
    if steps == [] {
    } else {
      LookingWaits(m, skew, w, steps[..|steps| - 1], id);
      LookingWaitsOne(m, skew, Run(m, skew, w, steps[..|steps| - 1]), steps[|steps| - 1], id);
    }
  }

  lemma LookingWaitsOne(m: Messages, skew: nat, w: World, s: Step, id: EventId)
    requires id in w.inflight && w.inflight[id] == Looking && s != Lookup(id) && s != Abort(id)
    ensures var w' := Next(m, skew, w, s); id in w'.inflight && w'.inflight[id] == Looking
  {
  }

  /** The row comes into being only by a Provision step that finds none. */
  lemma {:induction false} RowComesFromI1(m: Messages, skew: nat, w: World, steps: seq<Step>) returns (k: nat)
    requires w.row.None? && Run(m, skew, w, steps).row.Some?
    ensures k < |steps| && steps[k].Provision? && Run(m, skew, w, steps[..k]).row.None?
    decreases |steps|
  {
    var n := |steps| - 1;
    if Run(m, skew, w, steps[..n]).row.None? {
      k := n;
    } else {
      k := RowComesFromI1(m, skew, w, steps[..n]);
      assert steps[..n][..k] == steps[..k];
    }
  }

  /** I-1 creates the row during these steps. */
  ghost predicate I1During(m: Messages, skew: nat, w: World, steps: seq<Step>) {
    exists k :: 0 <= k < |steps| && steps[k].Provision? && Run(m, skew, w, steps[..k]).row.None?
  }

  lemma LiveOnlyByI1(m: Messages, skew: nat, w: World, steps: seq<Step>)
    requires !Live(w.row) && Live(Run(m, skew, w, steps).row)
    ensures w.row.None? && I1During(m, skew, w, steps)
  {
    if w.row.Some? {
      OffboardingIsTerminal(m, skew, w, steps);
    } else {
      var k := RowComesFromI1(m, skew, w, steps);
    }
  }

  lemma LookupDrops(w: World, id: EventId)
    requires id in w.inflight && w.inflight[id] == Looking
    ensures LookupStep(w, id).log == w.log + [Entry(id, DroppedLive)] <==> Live(w.row)
  {
    var live, gone := w.log + [Entry(id, DroppedLive)], w.log + [Entry(id, DroppedDeleted)];
    assert live[|w.log|] != gone[|w.log|] && |live| != |w.log|;
  }

  lemma DeliveryWaits(m: Messages, skew: nat, w: World, id: EventId, days: nat)
    requires id !in w.inflight && id in DeliverStep(m, skew, w, id, days).inflight
    ensures var w1 := DeliverStep(m, skew, w, id, days); w1.inflight[id] == Looking && w1.row == w.row && !Live(w.row)
  {
  }

  /** Exactly when a delivery is lost: no row at its row lock, and I-1 created the row (which
      is still live) before its lookup. */
  lemma LostExactlyInTheGap(m: Messages, skew: nat, w: World, id: EventId, days: nat, between: seq<Step>)
    requires id !in w.inflight && Leaves(between, id)
    requires id in DeliverStep(m, skew, w, id, days).inflight
    ensures var w1 := DeliverStep(m, skew, w, id, days);
            var w2 := Run(m, skew, w1, between);
            LookupStep(w2, id).log == w2.log + [Entry(id, DroppedLive)] <==>
            w.row.None? && Live(w2.row) && I1During(m, skew, w1, between)
  {
    var w1 := DeliverStep(m, skew, w, id, days);
    var w2 := Run(m, skew, w1, between);
    DeliveryWaits(m, skew, w, id, days);
    LookingWaits(m, skew, w1, between, id);
    LookupDrops(w2, id);
    if Live(w2.row) { LiveOnlyByI1(m, skew, w1, between); }
  }

  /** No I-1 in the run creates the row while some delivery is between lock and lookup. */
  ghost predicate NoGap(m: Messages, skew: nat, w: World, steps: seq<Step>) {
    forall k :: 0 <= k < |steps| && steps[k].Provision? ==>
      var v := Run(m, skew, w, steps[..k]);
      v.row.None? ==> forall id :: id in v.inflight ==> v.inflight[id] != Looking
  }

  ghost predicate NothingLost(w: World) {
    && (forall i :: 0 <= i < |w.log| ==> w.log[i].outcome != DroppedLive)
    && (Live(w.row) ==> forall id :: id in w.inflight ==> w.inflight[id] != Looking)
  }

  lemma NothingLostStep(m: Messages, skew: nat, w: World, s: Step)
    requires NothingLost(w)
    requires s.Provision? && w.row.None? ==> forall id :: id in w.inflight ==> w.inflight[id] != Looking
    ensures NothingLost(Next(m, skew, w, s))
  {
  }

  /** Without such a gap no event is lost: every outcome is applied, skipped as stale, or
      dropped because the tenant is offboarded. */
  lemma {:induction false} NoGapNoLoss(m: Messages, skew: nat, now: Time, steps: seq<Step>)
    requires NoGap(m, skew, Init(now), steps)
    ensures NothingLost(Run(m, skew, Init(now), steps))
    decreases |steps|
  {
    if steps == [] {
    } else {
      var n := |steps| - 1;
      forall k | 0 <= k < n && steps[..n][k].Provision?
        ensures var v := Run(m, skew, Init(now), steps[..n][..k]);
                v.row.None? ==> forall id :: id in v.inflight ==> v.inflight[id] != Looking
      {
        assert steps[..n][..k] == steps[..k] && steps[k].Provision?;
      }
      NoGapNoLoss(m, skew, now, steps[..n]);
      NothingLostStep(m, skew, Run(m, skew, Init(now), steps[..n]), steps[n]);
    }
  }
}
