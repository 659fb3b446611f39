/**
  What every run of the park-and-replay system keeps: each acknowledged event has exactly
  one outcome, nothing is parked under a live row, replay order, the recency guard, the
  future-time clamp, and the relay chain.
 */
module ParkReplaySafety {
  import opened Tenants
  import opened ParkReplay

  // ---- exactly one outcome --------------------------------------------------

  function Outcomes(log: seq<Entry>, id: EventId): nat {
    if log == [] then 0
    else Outcomes(log[..|log| - 1], id) + (if log[|log| - 1].id == id then 1 else 0)
  }

  lemma OutcomesSnoc(log: seq<Entry>, e: Entry, id: EventId)
    ensures Outcomes(log + [e], id) == Outcomes(log, id) + (if e.id == id then 1 else 0)
  {
    assert (log + [e])[..|log|] == log;
  }

  /** In how many places the event is accounted for: outcomes reached, plus still parked. */
  function Places(log: seq<Entry>, parked: set<EventId>, id: EventId): nat {
    Outcomes(log, id) + (if id in parked then 1 else 0)
  }

  /** An event whose inbox row was never pruned is in exactly one place once it is
      acknowledged, and in none before. */
  ghost predicate ExactlyOnce(m: Messages, log: seq<Entry>, parked: set<EventId>,
                              inbox: set<EventId>, pruned: set<EventId>) {
    forall id :: id in m && id !in pruned ==>
      Places(log, parked, id) == (if id in inbox && Projectable(m[id].body) then 1 else 0)
  }

  // ---- parking and replay ---------------------------------------------------

  ghost predicate WellParked(m: Messages, parked: set<EventId>,
                             inflight: map<EventId, Phase>, inbox: set<EventId>) {
    && parked <= m.Keys
    && (forall id :: id in parked ==> Projectable(m[id].body) && !m[id].body.TenantOffboarded?)
    && (forall id :: id in inflight ==>
          && id in m && id !in inbox
          && Projectable(m[id].body) && !m[id].body.TenantOffboarded?)
  }

  /** Every running pass still has every parked event ahead of it, in replay order. */
  ghost predicate PassesCover(m: Messages, row: Option<Tenant>, parked: set<EventId>,
                              replays: map<nat, seq<EventId>>) {
    && (row.None? ==> replays == map[])
    && (forall r :: r in replays ==> InOrder(m, replays[r]))
    && (Live(row) ==> forall r, id :: r in replays && id in parked ==> id in replays[r])
  }

  // ---- recency ------------------------------------------------------------

  /** The latest timestamp among the applied entries. */
  function Watermark(m: Messages, log: seq<Entry>): Option<Time> {
    if log == [] then None
    else
      var w := Watermark(m, log[..|log| - 1]);
      var e := log[|log| - 1];
      if e.outcome != Applied || e.id !in m then w
      else if w.None? || w.value < m[e.id].at then Some(m[e.id].at) else w
  }

  lemma WatermarkSnoc(m: Messages, log: seq<Entry>, e: Entry)
    ensures Watermark(m, log + [e])
         == (var w := Watermark(m, log);
             if e.outcome != Applied || e.id !in m then w
             else if w.None? || w.value < m[e.id].at then Some(m[e.id].at) else w)
  {
    assert (log + [e])[..|log|] == log;
  }

  predicate Projected?(e: Entry) { e.outcome == Applied || e.outcome == Skipped }

  /** The applied entries are exactly the strict left-to-right maxima of the projected ones. */
  ghost predicate StrictMaxima(m: Messages, log: seq<Entry>) {
    && (forall i :: 0 <= i < |log| ==> log[i].id in m)
    && (forall i :: 0 <= i < |log| && Projected?(log[i]) ==>
          (log[i].outcome == Applied <==>
           forall j :: 0 <= j < i && Projected?(log[j]) ==> m[log[j].id].at < m[log[i].id].at))
  }

  ghost predicate Recency(m: Messages, row: Option<Tenant>, log: seq<Entry>) {
    && StrictMaxima(m, log)
    && (row.Some? ==> row.value.lastEventAt == Watermark(m, log))
    && (row.None? ==> forall i :: 0 <= i < |log| ==> !Projected?(log[i]))
  }

  // ---- clamp --------------------------------------------------------------

  ghost predicate Clamped(m: Messages, skew: nat, now: Time, row: Option<Tenant>,
                          parked: set<EventId>, inflight: map<EventId, Phase>) {
    && 0 <= now
    && (forall id :: (id in parked || id in inflight) && id in m ==> m[id].at <= now + skew)
    && (row.Some? && row.value.lastEventAt.Some? ==> row.value.lastEventAt.value <= now + skew)
  }

  // ---- relay chain ----------------------------------------------------------

  /** The (status, plan) at the end of the relayed chain; None when the outbox does not form
      one contiguous chain starting at TenantCreated, or has a link that changes nothing. */
  function ChainEnd(out: seq<Out>): Option<(Status, Plan)> {
    if out == [] then None
    else
      var end := ChainEnd(out[..|out| - 1]);
      match out[|out| - 1]
      case TenantCreated(s, p) => if |out| == 1 then Some((s, p)) else None
      case TenantStateChanged(fs, fp, ts, tp) =>
        if end == Some((fs, fp)) && (fs, fp) != (ts, tp) then Some((ts, tp)) else None
      case _ => end
  }

  lemma ChainSnoc(out: seq<Out>, o: Out)
    ensures ChainEnd(out + [o])
         == (match o
             case TenantCreated(s, p) => if out == [] then Some((s, p)) else None
             case TenantStateChanged(fs, fp, ts, tp) =>
               if ChainEnd(out) == Some((fs, fp)) && (fs, fp) != (ts, tp) then Some((ts, tp)) else None
             case _ => ChainEnd(out))
  {
    assert (out + [o])[..|out|] == out;
  }

  function Purges(out: seq<Out>): nat {
    if out == [] then 0
    else Purges(out[..|out| - 1]) + (if out[|out| - 1].TenantMembershipsPurged? then 1 else 0)
  }

  lemma PurgesSnoc(out: seq<Out>, o: Out)
    ensures Purges(out + [o]) == Purges(out) + (if o.TenantMembershipsPurged? then 1 else 0)
  {
    assert (out + [o])[..|out|] == out;
  }

  /** The chain ends at the row's own status and plan; the child wipe and the purge event
      happened together, once, exactly if the row is soft-deleted. */
  predicate Relayed(row: Option<Tenant>, outbox: seq<Out>, wipes: nat) {
    match row
    case None => outbox == [] && wipes == 0
    case Some(t) =>
      && Checks(t)
      && outbox != [] && outbox[0].TenantCreated? && outbox[0].status == Trial
      && ChainEnd(outbox) == Some((t.status, t.plan))
      && wipes == Purges(outbox)
      && wipes == (if t.deletedAt.Some? then 1 else 0)
      && (t.status.Offboarded? <==> t.deletedAt.Some?)
  }

  ghost predicate Inv(m: Messages, skew: nat, w: World) {
    && ExactlyOnce(m, w.log, w.parked, w.inbox, w.pruned)
    && WellParked(m, w.parked, w.inflight, w.inbox)
    && PassesCover(m, w.row, w.parked, w.replays)
    && Recency(m, w.row, w.log)
    && Clamped(m, skew, w.now, w.row, w.parked, w.inflight)
    && Relayed(w.row, w.outbox, w.wipes)
  }

  // ---- committing a verdict on the live row --------------------------------

  lemma VerdictKeepsRecency(m: Messages, t: Tenant, log: seq<Entry>, id: EventId, days: nat, now: Time)
    requires id in m && StrictMaxima(m, log) && t.lastEventAt == Watermark(m, log)
    requires Checks(t) && t.deletedAt.None?
    requires Project(t, m[id], days, now).Ok?
    ensures var v := Project(t, m[id], days, now).value;
            var log' := log + [Entry(id, if v.StaleSkip? then Skipped else Applied)];
            && StrictMaxima(m, log')
            && (v.StaleSkip? ==> t.lastEventAt == Watermark(m, log'))
            && (v.Apply? ==> v.row.lastEventAt == Watermark(m, log'))
  {
    var v := Project(t, m[id], days, now).value;
    var e := Entry(id, if v.StaleSkip? then Skipped else Applied);
    WatermarkSnoc(m, log, e);
    WatermarkBounds(m, log);
    StrictMaximaSnoc(m, log, e);
  }

  lemma StrictMaximaFront(m: Messages, log: seq<Entry>)
    requires StrictMaxima(m, log) && log != []
    ensures StrictMaxima(m, log[..|log| - 1])
  {
    var front := log[..|log| - 1];
    assert forall i :: 0 <= i < |front| ==> front[i] == log[i];
  }

  /** The watermark bounds every projected entry and is reached by an applied one. */
  lemma {:induction false} WatermarkBounds(m: Messages, log: seq<Entry>)
    requires StrictMaxima(m, log)
    ensures Watermark(m, log).None? ==> forall i :: 0 <= i < |log| ==> !Projected?(log[i])
    ensures Watermark(m, log).Some? ==>
              && (forall i :: 0 <= i < |log| && Projected?(log[i]) ==>
                    m[log[i].id].at <= Watermark(m, log).value)
              && (exists i :: 0 <= i < |log| && log[i].outcome == Applied
                    && m[log[i].id].at == Watermark(m, log).value)
  {
    if log == [] {
    } else {
      var n := |log| - 1;
      var front := log[..n];
      assert log == front + [log[n]];
      assert forall i :: 0 <= i < n ==> front[i] == log[i];
      StrictMaximaFront(m, log);
      WatermarkBounds(m, front);
      WatermarkSnoc(m, front, log[n]);
      if Watermark(m, log).Some? && Watermark(m, log) != Watermark(m, front) {
        assert log[n].outcome == Applied;
      } else if Watermark(m, front).Some? {
        var i :| 0 <= i < |front| && front[i].outcome == Applied
                 && m[front[i].id].at == Watermark(m, front).value;
        assert log[i].outcome == Applied;
      }
    }
  }

  lemma StrictMaximaSnoc(m: Messages, log: seq<Entry>, e: Entry)
    requires StrictMaxima(m, log) && e.id in m
    requires Projected?(e) ==>
               (e.outcome == Applied <==>
                forall j :: 0 <= j < |log| && Projected?(log[j]) ==> m[log[j].id].at < m[e.id].at)
    ensures StrictMaxima(m, log + [e])
  {
    var log' := log + [e];
    forall i | 0 <= i < |log'| && Projected?(log'[i])
      ensures log'[i].outcome == Applied <==>
              forall j :: 0 <= j < i && Projected?(log'[j]) ==> m[log'[j].id].at < m[log'[i].id].at
    {
      if i < |log| {
        assert log'[i] == log[i];
        assert forall j :: 0 <= j < i ==> log'[j] == log[j];
      } else {
        assert forall j :: 0 <= j < |log| ==> log'[j] == log[j];
      }
    }
  }

  lemma VerdictKeepsRelay(w: World, e: Event, days: nat, now: Time)
    requires Relayed(w.row, w.outbox, w.wipes) && Live(w.row)
    requires Project(w.row.value, e, days, now).Ok?
    ensures var w' := Commit(w, 0, Project(w.row.value, e, days, now).value);
            Relayed(w'.row, w'.outbox, w'.wipes)
  {
    var t := w.row.value;
    if !Stale(t, e.at) {
      ProjectionStoresWhatItReports(t, e.body, days, now);
      var p := ApplyProjection(t, e.body, days, now).value;
      var changed := TenantStateChanged(t.status, t.plan, p.status, p.plan);
      ChainSnoc(w.outbox, changed);
      PurgesSnoc(w.outbox, changed);
      if p.status == Offboarded {
        ChainSnoc(w.outbox + [changed], TenantMembershipsPurged);
        PurgesSnoc(w.outbox + [changed], TenantMembershipsPurged);
        assert w.outbox + [changed] + [TenantMembershipsPurged] == w.outbox + Relays(t, p);
      } else {
        assert w.outbox + [] == w.outbox;
        assert w.outbox + Relays(t, p) == (if Relays(t, p) == [] then w.outbox else w.outbox + [changed]);
      }
    }
  }

  // ---- every step keeps the invariant ------------------------------------------

  /** `id` takes its outcome between w and w'; no other event is touched. */
  ghost predicate Settles(w: World, w': World, id: EventId) {
    && w'.pruned == w.pruned
    && (forall x :: x != id ==> (x in w'.inbox <==> x in w.inbox) && (x in w'.parked <==> x in w.parked))
    && (id !in w.pruned ==> id in w'.inbox && id !in w'.parked && (id !in w.inbox || id in w.parked))
  }

  lemma SettleKeepsExactlyOnce(m: Messages, w: World, w': World, id: EventId, o: Outcome)
    requires ExactlyOnce(m, w.log, w.parked, w.inbox, w.pruned) && id in m && Projectable(m[id].body)
    requires Settles(w, w', id) && w'.log == w.log + [Entry(id, o)]
    ensures ExactlyOnce(m, w'.log, w'.parked, w'.inbox, w'.pruned)
  {
    forall x | x in m && x !in w'.pruned
      ensures Places(w'.log, w'.parked, x) == (if x in w'.inbox && Projectable(m[x].body) then 1 else 0)
    {
      OutcomesSnoc(w.log, Entry(id, o), x);
    }
  }

  /** Acknowledging, claiming and advancing a pass, before the verdict is written. */
  ghost predicate Prepares(m: Messages, w: World, w0: World, id: EventId) {
    && w0 == w.(inbox := w0.inbox, parked := w0.parked, inflight := w0.inflight, replays := w0.replays)
    && Settles(w, w0, id)
    && w0.parked <= w.parked && w0.inflight.Keys <= w.inflight.Keys
    && WellParked(m, w0.parked, w0.inflight, w0.inbox) && PassesCover(m, w0.row, w0.parked, w0.replays)
  }

  lemma VerdictKeepsInv(m: Messages, skew: nat, w: World, w0: World, id: EventId, days: nat)
    requires Inv(m, skew, w) && Live(w.row) && Prepares(m, w, w0, id)
    requires id in m && Projectable(m[id].body) && m[id].at <= w.now + skew
    requires Project(w.row.value, m[id], days, w.now).Ok?
    ensures Inv(m, skew, Commit(w0, id, Project(w.row.value, m[id], days, w.now).value))
  {
    var v := Project(w.row.value, m[id], days, w.now).value;
    var w' := Commit(w0, id, v);
    SettleKeepsExactlyOnce(m, w, w', id, if v.StaleSkip? then Skipped else Applied);
    VerdictKeepsRecency(m, w.row.value, w.log, id, days, w.now);
    VerdictKeepsRelay(w0, m[id], days, w.now);
    assert Relayed(w'.row, w'.outbox, w'.wipes);
    assert PassesCover(m, w'.row, w'.parked, w'.replays);
  }

  lemma DropKeepsInv(m: Messages, skew: nat, w: World, w0: World, id: EventId, o: Outcome)
    requires Inv(m, skew, w) && Prepares(m, w, w0, id)
    requires id in m && Projectable(m[id].body) && !Projected?(Entry(id, o))
    ensures Inv(m, skew, w0.(log := w.log + [Entry(id, o)]))
  {
    SettleKeepsExactlyOnce(m, w, w0.(log := w.log + [Entry(id, o)]), id, o);
    StrictMaximaSnoc(m, w.log, Entry(id, o));
    WatermarkSnoc(m, w.log, Entry(id, o));
  }

  lemma DeliverKeepsInv(m: Messages, skew: nat, w: World, id: EventId, days: nat)
    requires Inv(m, skew, w)
    ensures Inv(m, skew, DeliverStep(m, skew, w, id, days))
  {
    if id !in m || Future(m[id], w.now, skew) || id in w.inbox || id in w.inflight {
    } else if !Projectable(m[id].body) {
      AckKeepsInv(m, skew, w, id);
    } else {
      ClaimedKeepsInv(m, skew, w, id, days);
    }
  }

  /** An event that is not projected is only acknowledged. */
  lemma AckKeepsInv(m: Messages, skew: nat, w: World, id: EventId)
    requires Inv(m, skew, w) && id in m && !Projectable(m[id].body) && id !in w.inflight
    ensures Inv(m, skew, Ack(w, id))
  {
  }

  lemma ClaimedKeepsInv(m: Messages, skew: nat, w: World, id: EventId, days: nat)
    requires Inv(m, skew, w) && id in m && Projectable(m[id].body)
    requires !Future(m[id], w.now, skew) && id !in w.inbox && id !in w.inflight
    ensures Inv(m, skew, DeliverStep(m, skew, w, id, days))
  {
    assert id !in w.pruned ==> Places(w.log, w.parked, id) == 0;
    if Live(w.row) {
      if Project(w.row.value, m[id], days, w.now).Ok? {
        VerdictKeepsInv(m, skew, w, Ack(w, id), id, days);
      }
    } else if m[id].body.TenantOffboarded? {
      DropKeepsInv(m, skew, w, Ack(w, id), id, DroppedOffboard);
    }
  }

  lemma LookupKeepsInv(m: Messages, skew: nat, w: World, id: EventId)
    requires Inv(m, skew, w)
    ensures Inv(m, skew, LookupStep(w, id))
  {
    if id in w.inflight && w.inflight[id] == Looking && w.row.Some? {
      assert id !in w.pruned ==> Places(w.log, w.parked, id) == 0;
      DropKeepsInv(m, skew, w, Ack(w, id), id, if Live(w.row) then DroppedLive else DroppedDeleted);
    }
  }

  lemma ParkingKeepsExactlyOnce(m: Messages, w: World, w': World, id: EventId)
    requires ExactlyOnce(m, w.log, w.parked, w.inbox, w.pruned) && id !in w.inbox && id in m && Projectable(m[id].body)
    requires w'.inbox == w.inbox + {id} && w'.parked == w.parked + {id}
    requires w'.log == w.log && w'.pruned == w.pruned
    ensures ExactlyOnce(m, w'.log, w'.parked, w'.inbox, w'.pruned)
  {
    forall x | x in m && x !in w'.pruned
      ensures Places(w'.log, w'.parked, x) == (if x in w'.inbox && Projectable(m[x].body) then 1 else 0)
    {
      assert Places(w.log, w.parked, x) == (if x in w.inbox && Projectable(m[x].body) then 1 else 0);
    }
  }

  lemma ParkingKeepsInv(m: Messages, skew: nat, w: World, id: EventId)
    requires Inv(m, skew, w) && id in w.inflight && !Live(w.row)
    ensures Inv(m, skew, Ack(w, id).(parked := w.parked + {id}))
  {
    ParkingKeepsExactlyOnce(m, w, Ack(w, id).(parked := w.parked + {id}), id);
  }

  lemma ParkKeepsInv(m: Messages, skew: nat, w: World, id: EventId)
    requires Inv(m, skew, w)
    ensures Inv(m, skew, ParkStep(m, w, id))
  {
    if id !in m || id !in w.inflight || w.inflight[id] != AwaitingLock {
    } else {
      assert id !in w.pruned ==> Places(w.log, w.parked, id) == 0;
      if !Live(w.row) {
        ParkingKeepsInv(m, skew, w, id);
      } else if !m[id].body.TrialReactivated? && Project(w.row.value, m[id], 0, w.now).Ok? {
        VerdictKeepsInv(m, skew, w, Ack(w, id), id, 0);
      }
    }
  }

  /** I-1's first two events start the chain. */
  lemma CreatedRelays(seed: Seed, now: Time)
    ensures var t := Created(seed, now);
            Relayed(Some(t), [TenantCreated(t.status, t.plan), TrialStarted(t.plan)], 0)
  {
    var t := Created(seed, now);
    var out := [TenantCreated(t.status, t.plan)];
    ChainSnoc([], out[0]);
    PurgesSnoc([], out[0]);
    ChainSnoc(out, TrialStarted(t.plan));
    PurgesSnoc(out, TrialStarted(t.plan));
    assert [] + out == out;
    assert out + [TrialStarted(t.plan)] == [TenantCreated(t.status, t.plan), TrialStarted(t.plan)];
  }

  /** Nothing has been projected yet. */
  lemma CreatedRecency(m: Messages, seed: Seed, now: Time, log: seq<Entry>)
    requires Recency(m, None, log)
    ensures Recency(m, Some(Created(seed, now)), log)
  {
    WatermarkBounds(m, log);
  }

  lemma ProvisionKeepsInv(m: Messages, skew: nat, w: World, seed: Seed)
    requires Inv(m, skew, w)
    ensures Inv(m, skew, ProvisionStep(w, seed))
  {
    if w.row.None? {
      CreatedRelays(seed, w.now);
      CreatedRecency(m, seed, w.now, w.log);
      var t := Created(seed, w.now);
      assert w.outbox + [TenantCreated(t.status, t.plan), TrialStarted(t.plan)]
          == [TenantCreated(t.status, t.plan), TrialStarted(t.plan)];
    }
  }

  lemma ReplayKeepsInv(m: Messages, skew: nat, w: World, r: nat, days: nat)
    requires Inv(m, skew, w)
    ensures Inv(m, skew, ReplayStep(m, w, r, days))
  {
    if r in w.replays && w.replays[r] != [] {
      var id := w.replays[r][0];
      ListTail(m, w.replays[r]);
      var next := w.(replays := w.replays[r := w.replays[r][1..]]);
      if id in w.parked {
        var w0 := next.(parked := w.parked - {id});
        assert id !in w.pruned ==> id in w.inbox by { assert id !in w.pruned ==> Places(w.log, w.parked, id) <= 1; }
        assert Prepares(m, w, w0, id);
        if !Live(w.row) {
          DropKeepsInv(m, skew, w, w0, id, DroppedDeleted);
        } else if Project(w.row.value, m[id], days, w.now).Ok? {
          VerdictKeepsInv(m, skew, w, w0, id, days);
        }
      }
    }
  }

  lemma ClockAndCrashesKeepInv(m: Messages, skew: nat, w: World, s: Step)
    requires Inv(m, skew, w) && (s.Tick? || s.Abort? || s.StopReplay? || s.Prune?)
    ensures Inv(m, skew, Next(m, skew, w, s))
  {
    if s.Prune? {
      var w' := Next(m, skew, w, s);
      forall x | x in m && x !in w'.pruned
        ensures Places(w'.log, w'.parked, x) == (if x in w'.inbox && Projectable(m[x].body) then 1 else 0)
      {
        assert Places(w.log, w.parked, x) == (if x in w.inbox && Projectable(m[x].body) then 1 else 0);
      }
    }
  }

  lemma StartKeepsInv(m: Messages, skew: nat, w: World, r: nat)
    requires Inv(m, skew, w)
    ensures Inv(m, skew, StartStep(m, w, r))
  {
  }

  /** Which step function each step is. */
  lemma StepIs(m: Messages, skew: nat, w: World, s: Step)
    ensures Next(m, skew, w, s)
         == match s
            case Deliver(id, days) => DeliverStep(m, skew, w, id, days)
            case Lookup(id) => LookupStep(w, id)
            case Park(id) => ParkStep(m, w, id)
            case Provision(seed) => ProvisionStep(w, seed)
            case StartReplay(r) => StartStep(m, w, r)
            case ReplayNext(r, days) => ReplayStep(m, w, r, days)
            case _ => Next(m, skew, w, s)
  {
  }

  lemma NextKeepsInv(m: Messages, skew: nat, w: World, s: Step)
    requires Inv(m, skew, w)
    ensures Inv(m, skew, Next(m, skew, w, s))
  {
    StepIs(m, skew, w, s);
    match s
    case Deliver(id, days) => DeliverKeepsInv(m, skew, w, id, days);
    case Lookup(id) => LookupKeepsInv(m, skew, w, id);
    case Park(id) => ParkKeepsInv(m, skew, w, id);
    case Provision(seed) => ProvisionKeepsInv(m, skew, w, seed);
    case StartReplay(r) => StartKeepsInv(m, skew, w, r);
    case ReplayNext(r, days) => ReplayKeepsInv(m, skew, w, r, days);
    case _ => ClockAndCrashesKeepInv(m, skew, w, s);
  }

  // ---- theorems over every run ---------------------------------------------------

  /** Every run keeps the whole invariant. */
  lemma {:induction false} RunKeepsInv(m: Messages, skew: nat, w: World, steps: seq<Step>)
    requires Inv(m, skew, w)
    ensures Inv(m, skew, Run(m, skew, w, steps))
    decreases |steps|
  {
    if steps == [] {
    } else {
      RunKeepsInv(m, skew, w, steps[..|steps| - 1]);
      NextKeepsInv(m, skew, Run(m, skew, w, steps[..|steps| - 1]), steps[|steps| - 1]);
    }
  }
}
