/**
  The consumer and I-1 as they run: an object whose methods change the tenant row, the
  inbox, the parked table and the outbox. A method that another transaction may interleave
  with covers exactly one step of the step system, in any state; the methods that compose
  them state what an undisturbed call comes to.
 */
module Consumer {
  import opened Tenants
  import opened ParkReplay
  import opened ParkReplaySafety
  import opened ParkReplayTheorems
  import opened OrderIndependence

  datatype Reply = Acknowledged | Duplicate | PoisonPill | Rejected | Failed

  /** What a TenantIdentityProvisioned payload leads to: it does not decode or names another
      tenant; I-1 refuses it for good; I-1 cannot be run now; or I-1 runs. */
  datatype Payload = Malformed | Refused | Unavailable | Ready(seed: Seed)

  /** trialDurationDays: only TrialReactivated needs a trial length, that of the plan of a
      live row. */
  function TrialDurationDays(cat: Catalog, row: Option<Tenant>, b: Body): nat {
    if b.TrialReactivated? && Live(row) then cat(row.value.plan) else 0
  }

  lemma OnlyReactivationNeedsDays(t: Tenant, e: Event, d1: nat, d2: nat, now: Time)
    requires !e.body.TrialReactivated?
    ensures Project(t, e, d1, now) == Project(t, e, d2, now)
  {
  }

  /** What an undisturbed Handle of a lifecycle or billing event comes to. */
  ghost function Handled(m: Messages, skew: nat, cat: Catalog, w: World, id: EventId): World
    requires id in m
  {
    var days := TrialDurationDays(cat, w.row, m[id].body);
    Run(m, skew, w, [Deliver(id, days), Lookup(id), Park(id)])
  }

  lemma RunThree(m: Messages, skew: nat, w: World, a: Step, b: Step, c: Step)
    ensures Run(m, skew, w, [a, b, c])
         == Next(m, skew, Next(m, skew, Next(m, skew, w, a), b), c)
  {
    RunSnoc(m, skew, w, [], a);
    RunSnoc(m, skew, w, [a], b);
    RunSnoc(m, skew, w, [a, b], c);
    assert [] + [a] == [a] && [a] + [b] == [a, b] && [a, b] + [c] == [a, b, c];
  }

  lemma HandledSteps(m: Messages, skew: nat, cat: Catalog, w: World, id: EventId)
    requires id in m
    ensures Handled(m, skew, cat, w, id)
         == ParkStep(m, LookupStep(DeliverStep(m, skew, w, id, TrialDurationDays(cat, w.row, m[id].body)), id), id)
    ensures Reachable(m, skew, w) ==> Reachable(m, skew, Handled(m, skew, cat, w, id))
  {
    var days := TrialDurationDays(cat, w.row, m[id].body);
    RunThree(m, skew, w, Deliver(id, days), Lookup(id), Park(id));
    if Reachable(m, skew, w) {
      RunReachable(m, skew, w, [Deliver(id, days), Lookup(id), Park(id)]);
    }
  }

  lemma {:induction false} ReplayAllReachable(m: Messages, cat: Catalog, skew: nat, w: World, r: nat)
    requires Reachable(m, skew, w)
    ensures Reachable(m, skew, ReplayAll(m, cat, w, r))
    decreases if r in w.replays then |w.replays[r]| + 1 else 0
  {
    if r in w.replays {
      var days := if w.row.Some? then cat(w.row.value.plan) else 0;
      StepReachable(m, skew, w, ReplayNext(r, days));
      ReplayAllReachable(m, cat, skew, ReplayStep(m, w, r, days), r);
    }
  }

  lemma SignUpReachable(m: Messages, cat: Catalog, skew: nat, w: World, seed: Seed)
    requires Reachable(m, skew, w)
    ensures Reachable(m, skew, SignUp(m, cat, w, seed))
  {
    StepReachable(m, skew, w, Provision(seed));
    StepReachable(m, skew, ProvisionStep(w, seed), StartReplay(0));
    ReplayAllReachable(m, cat, skew, StartStep(m, ProvisionStep(w, seed), 0), 0);
  }

  lemma SignUpReplays(m: Messages, cat: Catalog, w: World, seed: Seed, pending: seq<EventId>)
    requires 0 !in w.replays && Lists(m, pending, w.parked)
    ensures SignUp(m, cat, w, seed)
         == ReplayAll(m, cat, ProvisionStep(w, seed).(replays := w.replays[0 := pending]), 0)
  {
    forall id | id in w.parked ensures id in m { assert id in pending; }
    ReplayOrderIsUnique(m, pending, ListForTenant(m, w.parked), w.parked);
  }

  /** What handling TenantIdentityProvisioned comes to. A payload I-1 would not run matters only
      while the tenant has no row. */
  ghost function Provisioned(m: Messages, skew: nat, cat: Catalog, w: World, id: EventId, p: Payload): World
    requires id in m
  {
    if Future(m[id], w.now, skew) || p.Malformed? || (w.row.None? && !p.Ready?) then w
    else
      var w1 := if w.row.None? then SignUp(m, cat, w, p.seed) else w;
      if id in w1.inbox then w1 else Ack(w1, id)
  }

  /** A pass leaves the clock, the inbox and the open deliveries alone. */
  lemma {:induction false} ReplayAllFrame(m: Messages, cat: Catalog, w: World, r: nat)
    ensures var w' := ReplayAll(m, cat, w, r);
            w'.now == w.now && w'.inbox == w.inbox && w'.inflight == w.inflight && (w.row.Some? ==> w'.row.Some?)
    decreases if r in w.replays then |w.replays[r]| + 1 else 0
  {
    if r in w.replays {
      ReplayAllFrame(m, cat, ReplayStep(m, w, r, if w.row.Some? then cat(w.row.value.plan) else 0), r);
    }
  }

  lemma SignUpFrame(m: Messages, cat: Catalog, w: World, seed: Seed)
    ensures var w' := SignUp(m, cat, w, seed);
            w'.now == w.now && w'.inbox == w.inbox && w'.inflight == w.inflight && w'.row.Some?
  {
    ReplayAllFrame(m, cat, StartStep(m, ProvisionStep(w, seed), 0), 0);
  }

  lemma ProvisionedReachable(m: Messages, cat: Catalog, skew: nat, w: World, id: EventId, p: Payload)
    requires id in m && m[id].body.TenantIdentityProvisioned? && id !in w.inflight
    ensures Reachable(m, skew, w) ==> Reachable(m, skew, Provisioned(m, skew, cat, w, id, p))
  {
    if Reachable(m, skew, w) && Provisioned(m, skew, cat, w, id, p) != w {
      var w1 := if w.row.None? then SignUp(m, cat, w, p.seed) else w;
      if w.row.None? { SignUpReachable(m, cat, skew, w, p.seed); SignUpFrame(m, cat, w, p.seed); }
      StepReachable(m, skew, w1, Deliver(id, 0));
      assert DeliverStep(m, skew, w1, id, 0) == Provisioned(m, skew, cat, w, id, p);
    }
  }

  /** How many replayed events a pass counts: those it brought to the projection. */
  function Counted(log: seq<Entry>): nat {
    if log == [] then 0
    else Counted(log[..|log| - 1]) + (if Projected?(log[|log| - 1]) then 1 else 0)
  }

  lemma CountedSnoc(log: seq<Entry>, e: Entry)
    ensures Counted(log + [e]) == Counted(log) + (if Projected?(e) then 1 else 0)
  {
    assert (log + [e])[..|log|] == log;
  }

  lemma CountedGrows(log: seq<Entry>, log': seq<Entry>)
    requires log' == log || (|log'| == |log| + 1 && log'[..|log|] == log)
    ensures Counted(log') == Counted(log) + (if log' != log && Projected?(log'[|log|]) then 1 else 0)
  {
    if log' != log { assert log' == log + [log'[|log|]]; CountedSnoc(log, log'[|log|]); }
  }

  /** What an iteration leaves alone, and that it takes the head of its own list. */
  lemma ReplayStepFrame(m: Messages, w: World, r: nat, days: nat)
    requires r in w.replays && w.replays[r] != [] && w.replays[r][0] in m
    ensures var w' := ReplayStep(m, w, r, days);
            && w'.replays - {r} == w.replays - {r} && w'.parked <= w.parked
            && (w'.log == w.log || (|w'.log| == |w.log| + 1 && w'.log[..|w.log|] == w.log))
            && (r in w'.replays ==> w'.replays[r] == w.replays[r][1..])
            && (r in w'.replays <==> w.replays[r][0] !in w'.parked)
  {
  }

  /** The later steps of a delivery do nothing once it is over. */
  lemma NothingOpen(m: Messages, w: World, id: EventId)
    requires id !in w.inflight
    ensures LookupStep(w, id) == w && ParkStep(m, w, id) == w
  {
  }

  /** A pass at the end of its list only ends. */
  lemma ReplayAllEnds(m: Messages, cat: Catalog, w: World, r: nat)
    requires r in w.replays ==> w.replays[r] == []
    ensures ReplayAll(m, cat, w, r) == w.(replays := w.replays - {r})
  {
    if r in w.replays {
      var w' := w.(replays := w.replays - {r});
      assert ReplayAll(m, cat, w', r) == w';
    } else {
      assert w.replays - {r} == w.replays;
    }
  }

  // ---- what a call comes to, from what it finds -------------------------------------

  /** The event is projected onto the live row `w.row`: skipped if it is not later than the last
      one applied, else written, announced, and the tenant's rows wiped if it offboards it. */
  ghost predicate Lands(w: World, w': World, id: EventId, e: Event, days: nat)
    requires w.row.Some?
  {
    var t := w.row.value;
    if t.lastEventAt.Some? && e.at <= t.lastEventAt.value then
      && w'.row == w.row && w'.outbox == w.outbox && w'.wipes == w.wipes
      && w'.log == w.log + [Entry(id, Skipped)]
    else
      && w'.row.Some? && Becomes(t, e.body, days, w.now, w'.row.value) && w'.row.value.lastEventAt == Some(e.at)
      && w'.outbox == w.outbox + Announced(t, w'.row.value)
      && w'.wipes == w.wipes + (if e.body.TenantOffboarded? then 1 else 0)
      && w'.log == w.log + [Entry(id, Applied)]
  }

  /** It goes through, or is older than what has been applied. */
  predicate Landable(t: Tenant, e: Event) {
    (t.lastEventAt.Some? && e.at <= t.lastEventAt.value) || Succeeds(t, e.body)
  }

  /** The event is dated later than the clock skew allows. */
  predicate Early(e: Event, now: Time, skew: nat) { e.at != 0 && e.at > now + skew }

  /** An undisturbed Handle of anything but TenantIdentityProvisioned. */
  ghost predicate ComesTo(e: Event, id: EventId, skew: nat, days: nat, w: World, w': World, reply: Reply) {
    var acked := w.(inbox := w.inbox + {id});
    if e.at != 0 && e.at > w.now + skew then reply == PoisonPill && w' == w
    else if id in w.inbox then reply == Duplicate && w' == w
    else if e.body.UnknownType? then reply == Acknowledged && w' == acked
    else if w.row.None? then
      if e.body.TenantOffboarded? then
        reply == Acknowledged && w' == acked.(log := w.log + [Entry(id, DroppedOffboard)])
      else reply == Acknowledged && w' == acked.(parked := w.parked + {id})
    else if w.row.value.deletedAt.Some? then
      reply == Acknowledged && w' == acked.(log := w.log + [Entry(id, if e.body.TenantOffboarded? then DroppedOffboard
                                                                     else DroppedDeleted)])
    else
      Checks(w.row.value) ==>
        if Landable(w.row.value, e)
        then && reply == Acknowledged && Lands(w, w', id, e, days)
             && w' == acked.(row := w'.row, outbox := w'.outbox, wipes := w'.wipes, log := w'.log)
        else reply == Failed && w' == w
  }

  /** One iteration of a replay pass whose next event is `id`. */
  ghost predicate ReplayComesTo(e: Event, id: EventId, r: nat, days: nat, w: World, w': World)
    requires r in w.replays && w.replays[r] != []
  {
    var rest := w.(replays := w.replays[r := w.replays[r][1..]]);
    if id !in w.parked then w' == rest
    else if w.row.None? then w' == w.(replays := w.replays - {r})
    else if w.row.value.deletedAt.Some? then
      w' == rest.(parked := w.parked - {id}, log := w.log + [Entry(id, DroppedDeleted)])
    else
      Checks(w.row.value) ==>
        if Landable(w.row.value, e)
        then && Lands(w, w', id, e, days)
             && w' == rest.(parked := w.parked - {id}, row := w'.row, outbox := w'.outbox, wipes := w'.wipes,
                            log := w'.log)
        else w' == w.(replays := w.replays - {r})
  }

  /** Committing the projection's verdict lands the event. */
  lemma CommitLands(w: World, w1: World, id: EventId, e: Event, days: nat)
    requires Live(w.row) && Checks(w.row.value)
    requires w1.row == w.row && w1.outbox == w.outbox && w1.wipes == w.wipes && w1.log == w.log
    ensures match Project(w.row.value, e, days, w.now)
            case Err(_) => !Landable(w.row.value, e)
            case Ok(v) => Landable(w.row.value, e) && Lands(w, Commit(w1, id, v), id, e, days)
  {
    ProjectExactly(w.row.value, e, days, w.now);
  }

  /** The three steps of a delivery with nothing in between. */
  ghost function Undisturbed(m: Messages, skew: nat, w: World, id: EventId, days: nat): World {
    ParkStep(m, LookupStep(DeliverStep(m, skew, w, id, days), id), id)
  }

  lemma AbsentSettles(m: Messages, skew: nat, w: World, id: EventId, days: nat)
    requires id in m && id !in w.inflight && id !in w.inbox && !Early(m[id], w.now, skew)
    requires Projectable(m[id].body) && !Live(w.row) && !m[id].body.TenantOffboarded?
    ensures Undisturbed(m, skew, w, id, days)
         == if w.row.Some? then w.(inbox := w.inbox + {id}, log := w.log + [Entry(id, DroppedDeleted)])
            else w.(inbox := w.inbox + {id}, parked := w.parked + {id})
  {
    assert w.inflight[id := Looking] - {id} == w.inflight;
    assert w.inflight[id := Looking][id := AwaitingLock] - {id} == w.inflight;
  }

  lemma ProjectedSettles(m: Messages, skew: nat, w: World, id: EventId, days: nat)
    requires id in m && id !in w.inflight && id !in w.inbox && !Early(m[id], w.now, skew)
    requires Projectable(m[id].body) && Live(w.row) && Checks(w.row.value)
    ensures var w' := Undisturbed(m, skew, w, id, days);
            if Landable(w.row.value, m[id])
            then && Lands(w, w', id, m[id], days)
                 && w' == w.(inbox := w.inbox + {id}, row := w'.row, outbox := w'.outbox, wipes := w'.wipes,
                             log := w'.log)
            else w' == w
  {
    assert w.inflight - {id} == w.inflight;
    NothingOpen(m, DeliverStep(m, skew, w, id, days), id);
    CommitLands(w, Ack(w, id), id, m[id], days);
  }

  /** So does an iteration of a replay pass. */
  lemma ReplayStepSettles(m: Messages, w: World, r: nat, days: nat)
    requires r in w.replays && w.replays[r] != [] && w.replays[r][0] in m
    ensures var id := w.replays[r][0]; ReplayComesTo(m[id], id, r, days, w, ReplayStep(m, w, r, days))
  {
    var id := w.replays[r][0];
    if id in w.parked && Live(w.row) && Checks(w.row.value) {
      var w1 := w.(replays := w.replays[r := w.replays[r][1..]], parked := w.parked - {id});
      CommitLands(w, w1, id, m[id], days);
    }
  }

  /** Only a reactivation depends on the days. */
  lemma SettlesAnyDays(e: Event, id: EventId, skew: nat, d1: nat, d2: nat, w: World, w': World, reply: Reply)
    requires ComesTo(e, id, skew, d1, w, w', reply)
    requires !e.body.TrialReactivated? || !Live(w.row) || d1 == d2
    ensures ComesTo(e, id, skew, d2, w, w', reply)
  {
  }

  /** An undisturbed delivery settles the event, with the reply its state shows. */
  lemma UndisturbedSettles(m: Messages, skew: nat, w: World, id: EventId, days: nat, reply: Reply)
    requires id in m && id !in w.inflight && !m[id].body.TenantIdentityProvisioned?
    requires reply == PoisonPill <==> m[id].at != 0 && m[id].at > w.now + skew
    requires reply == Duplicate <==> !(m[id].at != 0 && m[id].at > w.now + skew) && id in w.inbox
    requires reply != Rejected && (reply == Acknowledged ==> id in Undisturbed(m, skew, w, id, days).inbox)
    requires reply == Failed ==> id !in Undisturbed(m, skew, w, id, days).inbox
    ensures ComesTo(m[id], id, skew, days, w, Undisturbed(m, skew, w, id, days), reply)
  {
    if Early(m[id], w.now, skew) || id in w.inbox {
    } else if m[id].body.UnknownType? {
      assert w.inflight - {id} == w.inflight;
    } else if Live(w.row) {
      if Checks(w.row.value) { ProjectedSettles(m, skew, w, id, days); }
    } else if m[id].body.TenantOffboarded? {
      assert w.inflight - {id} == w.inflight;
    } else {
      AbsentSettles(m, skew, w, id, days);
    }
  }

  class MembershipEventConsumer {
    const m: Messages
    const skew: nat
    const cat: Catalog

    var now: Time
    var row: Option<Tenant>
    var parked: set<EventId>
    var inbox: set<EventId>
    var outbox: seq<Out>
    var wipes: nat

    // History, and the transactions in progress elsewhere.
    ghost var log: seq<Entry>
    ghost var pruned: set<EventId>
    ghost var inflight: map<EventId, Phase>
    ghost var replays: map<nat, seq<EventId>>

    ghost function State(): World reads this {
      World(now, row, parked, inbox, inflight, replays, outbox, wipes, log, pruned)
    }

    constructor (m: Messages, skew: nat, cat: Catalog, now: Time)
      ensures State() == Init(now)
      ensures this.m == m && this.skew == skew && this.cat == cat
    {
      this.m, this.skew, this.cat, this.now := m, skew, cat, now;
      row, parked, inbox, outbox, wipes := None, {}, {}, [], 0;
      log, pruned, inflight, replays := [], {}, map[], map[];
    }

    /** project's statements, on the locked live row. */
    method ProjectRow(id: EventId, days: nat) returns (r: Result<bool>)
      requires id in m && Live(row)
      modifies `row, `outbox, `wipes, `log
      ensures match Project(old(row.value), m[id], days, now)
              case Err(e) => r == Err(e) && State() == old(State())
              case Ok(v) => r == Ok(v.Apply? && v.wiped) && State() == Commit(old(State()), id, v)
    {
      var locked := row.value;
      if locked.lastEventAt.Some? && !(m[id].at > locked.lastEventAt.value) {
        log := log + [Entry(id, Skipped)];
        return Ok(false);
      }
      match ApplyProjection(locked, m[id].body, days, now)
      case Err(e) =>
        return Err(e);
      case Ok(p) =>
        row := Some(p.row);
        row := Some(row.value.(lastEventAt := Some(m[id].at)));
        ghost var was := outbox;
        if p.status != locked.status || p.plan != locked.plan {
          outbox := outbox + [TenantStateChanged(locked.status, locked.plan, p.status, p.plan)];
        }
        var wiped := false;
        if locked.status != Offboarded && p.status == Offboarded {
          wipes := wipes + 1;
          wiped := true;
        }
        if locked.status != Offboarded && p.status == Offboarded {
          outbox := outbox + [TenantMembershipsPurged];
        }
        log := log + [Entry(id, Applied)];
        assert outbox == was + Relays(locked, p);
        return Ok(wiped);
    }

    /** project: what it leaves, and when it fails. */
    method ProjectLocked(id: EventId, days: nat) returns (r: Result<bool>)
      requires id in m && Live(row)
      modifies `row, `outbox, `wipes, `log
      ensures match Project(old(row.value), m[id], days, now)
              case Err(e) => r == Err(e) && State() == old(State())
              case Ok(v) => r == Ok(v.Apply? && v.wiped) && State() == Commit(old(State()), id, v)
      ensures Checks(old(row.value)) ==>
                && (r.Ok? <==> Landable(old(row.value), m[id]))
                && (r.Ok? ==> Lands(old(State()), State(), id, m[id], days))
    {
      if Checks(row.value) { CommitLands(State(), State(), id, m[id], days); }
      r := ProjectRow(id, days);
    }

    /** Handle as far as the first row lock, in one transaction with the inbox claim. The
        reply is missing when no live row was found and the transaction is still open. */
    method Deliver(id: EventId, days: nat) returns (reply: Option<Reply>)
      requires id in m && id !in inflight
      modifies this
      ensures State() == DeliverStep(m, skew, old(State()), id, days)
      ensures reply.None? <==> id in inflight
      ensures reply == Some(PoisonPill) <==> m[id].at != 0 && m[id].at > old(now) + skew
      ensures reply == Some(Duplicate) <==> !(m[id].at != 0 && m[id].at > old(now) + skew) && id in old(inbox)
      ensures reply.None? <==>
                && !(m[id].at != 0 && m[id].at > old(now) + skew) && id !in old(inbox)
                && !m[id].body.UnknownType? && !m[id].body.TenantIdentityProvisioned? && !m[id].body.TenantOffboarded?
                && !(old(row).Some? && old(row).value.deletedAt.None?)
      ensures reply.None? ==> State() == old(State()).(inflight := old(inflight)[id := Looking])
      ensures reply == Some(Acknowledged) ==> id in inbox && id !in old(inbox)
      ensures reply == Some(Duplicate) ==> id in old(inbox) && State() == old(State())
      ensures reply == Some(Failed) ==> id !in inbox && State() == old(State())
      ensures reply != Some(Rejected)
    {
      if m[id].at != ZERO_TIME && m[id].at > now + skew {
        return Some(PoisonPill);
      }
      if id in inbox { return Some(Duplicate); }
      inbox := inbox + {id};
      if !Projectable(m[id].body) {
        assert inflight - {id} == inflight;
        return Some(Acknowledged);
      }
      if row.Some? && row.value.deletedAt.None? {
        assert inflight - {id} == inflight;
        var r := ProjectLocked(id, days);
        if r.Err? {
          inbox := inbox - {id};
          assert inbox == old(inbox);
          return Some(Failed);
        }
        return Some(Acknowledged);
      }
      if m[id].body.TenantOffboarded? {
        log := log + [Entry(id, DroppedOffboard)];
        assert inflight - {id} == inflight;
        return Some(Acknowledged);
      }
      inbox := inbox - {id};       // not visible to anyone before the commit
      assert inbox == old(inbox);
      inflight := inflight[id := Looking];
      return None;
    }

    /** tenantAbsent's lookup of the row, soft-deleted or not. */
    method TenantAbsent(id: EventId) returns (dropped: bool)
      requires id in inflight && inflight[id] == Looking
      modifies this
      ensures State() == LookupStep(old(State()), id)
      ensures dropped <==> old(row).Some?
      ensures dropped ==> id in inbox && id !in inflight && parked == old(parked) && row == old(row)
      ensures !dropped ==> State() == old(State()).(inflight := old(inflight)[id := AwaitingLock])
    {
      if row.Some? {
        inbox := inbox + {id};
        log := log + [Entry(id, if Live(row) then DroppedLive else DroppedDeleted)];
        inflight := inflight - {id};
        return true;
      }
      inflight := inflight[id := AwaitingLock];
      return false;
    }

    /** The rest of the transaction under the provisioning lock: park, or project onto the row
        I-1 has created in the meantime. */
    method ParkOrProject(id: EventId, days: nat) returns (reply: Reply)
      requires id in m && id !in inbox && id in inflight && inflight[id] == AwaitingLock
      modifies this
      ensures State() == ParkStep(m, old(State()), id)
      ensures id !in inflight && !reply.Duplicate? && !reply.PoisonPill? && !reply.Rejected?
      ensures reply.Acknowledged? <==> id in inbox
      ensures !(old(row).Some? && old(row).value.deletedAt.None?) ==>
                reply.Acknowledged? && parked == old(parked) + {id} && inbox == old(inbox) + {id} && row == old(row)
      ensures Live(old(row)) ==> parked == old(parked)
      ensures Live(old(row)) && m[id].body.TrialReactivated? ==> reply.Failed? && row == old(row)
      ensures Live(old(row)) && !m[id].body.TrialReactivated? && Checks(old(row.value)) ==>
                && (reply.Acknowledged? <==> Landable(old(row.value), m[id]))
                && (reply.Acknowledged? ==> Lands(old(State()), State(), id, m[id], days))
    {
      inflight := inflight - {id};
      if !(row.Some? && row.value.deletedAt.None?) {
        parked := parked + {id};
        inbox := inbox + {id};
        return Acknowledged;
      }
      if m[id].body.TrialReactivated? {
        return Failed;
      }
      inbox := inbox + {id};
      OnlyReactivationNeedsDays(row.value, m[id], days, 0, now);
      var r := ProjectLocked(id, days);
      if r.Err? {
        inbox := inbox - {id};
        assert inbox == old(inbox);
        return Failed;
      }
      return Acknowledged;
    }

    /** tenantAbsent with nothing in between. */
    method HandleAbsent(id: EventId, days: nat) returns (reply: Reply)
      requires id in m && id !in inbox && id in inflight && inflight[id] == Looking
      modifies this
      ensures State() == ParkStep(m, LookupStep(old(State()), id), id)
      ensures reply.Acknowledged? || reply.Failed?
      ensures now == old(now) && inflight == old(inflight) - {id} && replays == old(replays)
      ensures reply.Acknowledged? <==> id in inbox
      ensures reply.Failed? ==> State() == old(State()).(inflight := old(inflight) - {id})
    {
      var dropped := TenantAbsent(id);
      if dropped {
        NothingOpen(m, State(), id);
        return Acknowledged;
      }
      reply := ParkOrProject(id, days);
      assert inflight == old(inflight) - {id};
    }

    /** The transaction of such a Handle: claim, project or park, commit. */
    method ClaimAndProject(id: EventId, days: nat) returns (reply: Reply)
      requires id in m && id !in inflight && !m[id].body.TenantIdentityProvisioned?
      modifies this
      ensures State() == Undisturbed(m, skew, old(State()), id, days)
      ensures now == old(now) && inflight == old(inflight) && replays == old(replays)
      ensures ComesTo(m[id], id, skew, days, old(State()), State(), reply)
      ensures reply == PoisonPill <==> m[id].at != 0 && m[id].at > old(now) + skew
      ensures reply == Duplicate ==> id in old(inbox)
      ensures reply == Acknowledged ==> id in inbox && id !in old(inbox)
      ensures reply == Failed ==> id !in inbox
      ensures reply != Rejected && (reply != Acknowledged ==> State() == old(State()))
    {
      var r := Deliver(id, days);
      if r.Some? {
        NothingOpen(m, State(), id);
        assert inflight == old(inflight);
        reply := r.value;
      } else {
        reply := HandleAbsent(id, days);
        assert inflight == old(inflight);
      }
      UndisturbedSettles(m, skew, old(State()), id, days, reply);
    }

    /** Handle of a lifecycle or billing event, or of an unknown type, with nothing in between. */
    method HandleLifecycle(id: EventId) returns (reply: Reply)
      requires id in m && id !in inflight && !m[id].body.TenantIdentityProvisioned?
      modifies this
      ensures State() == Handled(m, skew, cat, old(State()), id)
      ensures Reachable(m, skew, old(State())) ==>
                Reachable(m, skew, State()) && (old(row).Some? ==> Checks(old(row.value)))
      ensures ComesTo(m[id], id, skew, if Live(old(row)) then cat(old(row.value.plan)) else 0,
                      old(State()), State(), reply)
      ensures old(row).None? && !m[id].body.TenantOffboarded? && !m[id].body.UnknownType?
              && !(m[id].at != 0 && m[id].at > old(now) + skew) && id !in old(inbox) ==>
                reply == Acknowledged && parked == old(parked) + {id} && inbox == old(inbox) + {id}
      ensures now == old(now) && inflight == old(inflight) && replays == old(replays)
      ensures reply == PoisonPill <==> m[id].at != 0 && m[id].at > old(now) + skew
      ensures reply == Duplicate ==> id in old(inbox)
      ensures reply == Acknowledged ==> id in inbox && id !in old(inbox)
      ensures reply == Failed ==> id !in inbox
      ensures reply != Rejected && (reply != Acknowledged ==> State() == old(State()))
    {
      var days := 0;
      if m[id].body.TrialReactivated? && row.Some? && row.value.deletedAt.None? {
        days := cat(row.value.plan);
      }
      HandledSteps(m, skew, cat, State(), id);
      if Reachable(m, skew, State()) && row.Some? { RowsMeetTheChecks(m, skew, State()); }
      reply := ClaimAndProject(id, days);
      SettlesAnyDays(m[id], id, skew, days, if Live(old(row)) then cat(old(row.value.plan)) else 0,
                     old(State()), State(), reply);
    }

    /** The rest of an iteration whose claim found the event and whose lock found a live row. */
    method ReplayLocked(ghost r: nat, id: EventId, days: nat) returns (ok: bool)
      requires id in m && r in replays && replays[r] != [] && replays[r][0] == id && id in parked && Live(row)
      requires m[id].body.TrialReactivated? ==> days == cat(row.value.plan)
      modifies this
      ensures State() == ReplayStep(m, old(State()), r, cat(old(row.value.plan)))
      ensures ok <==> r in replays
      ensures ok ==> |log| == |old(log)| + 1 && Projected?(log[|old(log)|])
      ensures !ok ==> log == old(log)
    {
      if !m[id].body.TrialReactivated? {
        OnlyReactivationNeedsDays(row.value, m[id], days, cat(row.value.plan), now);
      }
      parked := parked - {id};
      var p := ProjectLocked(id, days);
      if p.Err? {
        parked := parked + {id};
        assert parked == old(parked);
        replays := replays - {r};
        return false;
      }
      replays := replays[r := replays[r][1..]];
      return true;
    }

    /** One iteration of a replay pass: claim, lock, project, in a transaction of its own. */
    method ReplayOne(ghost r: nat, id: EventId) returns (more: bool, applied: bool)
      requires id in m && r in replays && replays[r] != [] && replays[r][0] == id
      modifies this
      ensures State() == ReplayStep(m, old(State()), r, if old(row).Some? then cat(old(row.value.plan)) else 0)
      ensures (more <==> r in replays) && (applied ==> more)
      ensures applied ==> |log| == |old(log)| + 1 && Projected?(log[|old(log)|])
      ensures !applied ==> log == old(log) || log == old(log) + [Entry(id, DroppedDeleted)]
      ensures ReplayComesTo(m[id], id, r, if old(row).Some? then cat(old(row.value.plan)) else 0, old(State()), State())
    {
      ReplayStepSettles(m, State(), r, if row.Some? then cat(row.value.plan) else 0);
      var days := 0;
      if m[id].body.TrialReactivated? && row.Some? && row.value.deletedAt.None? {
        days := cat(row.value.plan);
      }
      ghost var rest := replays[r := replays[r][1..]];
      if id !in parked {
        replays := rest;
        return true, false;
      }
      if row.None? {
        replays := replays - {r};
        return false, false;
      }
      if row.value.deletedAt.Some? {
        parked := parked - {id};
        replays := rest;
        log := log + [Entry(id, DroppedDeleted)];
        return true, false;
      }
      more := ReplayLocked(r, id, days);
      applied := more;
    }

    /** The same, as the loop sees it. */
    method ReplayAndCount(ghost r: nat, id: EventId) returns (more: bool, applied: bool)
      requires id in m && r in replays && replays[r] != [] && replays[r][0] == id
      modifies this
      ensures ReplayAll(m, cat, State(), r) == ReplayAll(m, cat, old(State()), r)
      ensures (more <==> r in replays) && (applied ==> more)
      ensures more ==> replays[r] == old(replays[r][1..])
      ensures more <==> id !in parked
      ensures replays - {r} == old(replays) - {r} && parked <= old(parked)
      ensures Counted(log) == Counted(old(log)) + (if applied then 1 else 0)
    {
      ghost var w := State();
      ReplayStepFrame(m, w, r, if row.Some? then cat(row.value.plan) else 0);
      more, applied := ReplayOne(r, id);
      CountedGrows(w.log, log);
    }

    /** replayParked over the listed events, with nothing in between. */
    method ReplayParked(pending: seq<EventId>, ghost r: nat) returns (replayed: nat, ok: bool)
      requires r !in replays && forall i :: 0 <= i < |pending| ==> pending[i] in m
      modifies this
      ensures State() == ReplayAll(m, cat, old(State()).(replays := old(replays)[r := pending]), r)
      ensures replays == old(replays)
      ensures Counted(log) == Counted(old(log)) + replayed
      ensures ok <==> forall i :: 0 <= i < |pending| ==> pending[i] !in parked
    {
      replays := replays[r := pending];
      ghost var whole := ReplayAll(m, cat, State(), r);
      replayed, ok := 0, true;
      var i := 0;
      while i < |pending|
        invariant 0 <= i <= |pending|
        invariant r in replays && replays[r] == pending[i..] && replays - {r} == old(replays)
        invariant ReplayAll(m, cat, State(), r) == whole
        invariant Counted(log) == Counted(old(log)) + replayed
        invariant forall j :: 0 <= j < i ==> pending[j] !in parked
      {
        var more, applied := ReplayAndCount(r, pending[i]);
        if !more {
          ReplayAllEnds(m, cat, State(), r);
          assert replays - {r} == replays;
          assert pending[i] in parked;
          return replayed, false;
        }
        if applied {
          replayed := replayed + 1;
        }
        i := i + 1;
      }
      ReplayAllEnds(m, cat, State(), r);
      replays := replays - {r};
    }

    /** TrialSignup's transaction, under the provisioning lock. */
    method InsertTenant(seed: Seed) returns (created: bool)
      modifies this
      ensures State() == ProvisionStep(old(State()), seed)
      ensures created <==> old(row).None?
      ensures created ==>
                && row.Some? && TrialRow(row.value, seed, old(now))
                && outbox == old(outbox) + [TenantCreated(Trial, seed.plan), TrialStarted(seed.plan)]
                && State() == old(State()).(row := row, outbox := outbox)
      ensures !created ==> State() == old(State())
    {
      created := row.None?;
      if created {
        row := Some(Created(seed, now));
        outbox := outbox + [TenantCreated(Trial, seed.plan), TrialStarted(seed.plan)];
      }
    }

    /** TrialSignup: the transaction, then the replay of what was parked before it. `pending`
        is the answer to ListForTenant. */
    method TrialSignup(seed: Seed, pending: seq<EventId>) returns (created: bool, ghost inserted: Option<Tenant>)
      requires 0 !in replays && Lists(m, pending, parked)
      modifies this
      ensures State() == SignUp(m, cat, old(State()), seed)
      ensures created <==> old(row).None?
      ensures created ==>
                && inserted.Some? && TrialRow(inserted.value, seed, old(now))
                && State() == ReplayAll(m, cat, old(State()).(
                                row := inserted, replays := old(replays)[0 := pending],
                                outbox := old(outbox) + [TenantCreated(Trial, seed.plan), TrialStarted(seed.plan)]), 0)
      ensures created && pending == [] ==> row == inserted
    {
      SignUpReplays(m, cat, State(), seed, pending);
      created := InsertTenant(seed);
      inserted := row;
      ghost var w := State().(replays := replays[0 := pending]);
      if pending == [] { ReplayAllEnds(m, cat, w, 0); }
      var replayed, ok := ReplayParked(pending, 0);
    }

    /** handleTenantIdentityProvisioned: I-1 from the payload unless the row exists in any form,
        then the inbox claim. */
    method HandleIdentityProvisioned(id: EventId, p: Payload, pending: seq<EventId>) returns (reply: Reply)
      requires id in m && m[id].body.TenantIdentityProvisioned? && id !in inflight
      requires row.None? ==> 0 !in replays && Lists(m, pending, parked)
      modifies this
      ensures State() == Provisioned(m, skew, cat, old(State()), id, p)
      ensures reply == PoisonPill <==> m[id].at != 0 && m[id].at > old(now) + skew
      ensures reply == Rejected <==>
                !(m[id].at != 0 && m[id].at > old(now) + skew) && (p.Malformed? || (p.Refused? && old(row).None?))
      ensures reply == Failed <==>
                !(m[id].at != 0 && m[id].at > old(now) + skew) && p.Unavailable? && old(row).None?
      ensures reply == Acknowledged || reply == Duplicate ==> id in inbox && row.Some?
      ensures reply == Acknowledged && old(row).None? && pending == [] ==>
                p.Ready? && TrialRow(row.value, p.seed, old(now))
      ensures old(row).Some? ==> row == old(row)
    {
      if m[id].at != ZERO_TIME && m[id].at > now + skew {
        return PoisonPill;
      }
      if p.Malformed? {
        return Rejected;
      }
      if row.None? {
        match p
        case Refused => return Rejected;
        case Unavailable => return Failed;
        case Ready(seed) =>
          SignUpFrame(m, cat, State(), seed);
          var created, inserted := TrialSignup(seed, pending);
      }
      if id in inbox {
        return Duplicate;
      }
      inbox := inbox + {id};
      assert inflight - {id} == inflight;
      return Acknowledged;
    }

    /** Handle. `p` is the payload of a TenantIdentityProvisioned event and `pending` the answer to
        its replay's ListForTenant. */
    method Handle(id: EventId, p: Payload, pending: seq<EventId>) returns (reply: Reply)
      requires id in m && id !in inflight
      requires m[id].body.TenantIdentityProvisioned? && row.None? ==> 0 !in replays && Lists(m, pending, parked)
      modifies this
      ensures State() == if m[id].body.TenantIdentityProvisioned? then Provisioned(m, skew, cat, old(State()), id, p)
                         else Handled(m, skew, cat, old(State()), id)
      ensures Reachable(m, skew, old(State())) ==> Reachable(m, skew, State())
      ensures reply == PoisonPill <==> m[id].at != 0 && m[id].at > old(now) + skew
      ensures reply == Acknowledged || reply == Duplicate ==> id in inbox
      ensures !m[id].body.TenantIdentityProvisioned? ==>
                ComesTo(m[id], id, skew, if Live(old(row)) then cat(old(row.value.plan)) else 0,
                        old(State()), State(), reply)
    {
      if m[id].body.TenantIdentityProvisioned? {
        ProvisionedReachable(m, cat, skew, State(), id, p);
        reply := HandleIdentityProvisioned(id, p, pending);
      } else {
        reply := HandleLifecycle(id);
      }
    }
  }
}
