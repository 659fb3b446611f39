/**
  The tenant event consumer as a step system over one tenant: consumer transactions,
  I-1, any number of concurrent replay passes, inbox pruning, crashes and a clock.

  Each step is what happens between two points at which another transaction may
  commit. A consumer transaction that finds no live row has taken no row lock, so its
  remaining statements are steps of their own: the lookup that includes soft-deleted
  rows, and the decision taken under the provisioning lock. A step that is not possible
  in a state leaves the state as it is, so every sequence of steps is a run.
 */
module ParkReplay {
  import opened Tenants

  /** The messages of a run: an event id names one envelope. */
  type Messages = map<EventId, Event>

  datatype Outcome = Applied | Skipped | DroppedDeleted | DroppedOffboard | DroppedLive

  /** History: what an acknowledged event came to, in commit order. */
  datatype Entry = Entry(id: EventId, outcome: Outcome)

  /** Where a consumer transaction that found no live row has got to. */
  datatype Phase = Looking | AwaitingLock

  datatype World = World(
    now: Time,
    row: Option<Tenant>,
    parked: set<EventId>,
    inbox: set<EventId>,
    inflight: map<EventId, Phase>,
    replays: map<nat, seq<EventId>>,
    outbox: seq<Out>,
    wipes: nat,
    log: seq<Entry>,
    pruned: set<EventId>)

  datatype Step =
    | Tick(d: nat)
    | Deliver(id: EventId, days: nat)   // Handle, up to its first row lock
    | Lookup(id: EventId)               // tenantAbsent: the lookup including deleted rows
    | Park(id: EventId)                 // tenantAbsent: under the provisioning lock
    | Abort(id: EventId)                // the consumer transaction rolls back
    | Provision(seed: Seed)             // I-1's transaction
    | StartReplay(r: nat)
    | ReplayNext(r: nat, days: nat)     // one iteration of a replay pass
    | StopReplay(r: nat)                // the pass fails or its process dies
    | Prune(id: EventId)                // processed_events retention

  // ---- replay order -------------------------------------------------------

  /** ORDER BY occurred_at, event_id. */
  predicate Before(m: Messages, i: EventId, j: EventId)
    requires i in m && j in m
  {
    m[i].at < m[j].at || (m[i].at == m[j].at && i < j)
  }

  predicate InOrder(m: Messages, l: seq<EventId>) {
    && (forall i :: 0 <= i < |l| ==> l[i] in m)
    && (forall i, j :: 0 <= i < j < |l| ==> Before(m, l[i], l[j]))
  }

  ghost predicate Lists(m: Messages, l: seq<EventId>, s: set<EventId>) {
    InOrder(m, l) && (forall i :: i in l <==> i in s)
  }

  lemma FirstExists(m: Messages, s: set<EventId>) returns (f: EventId)
    requires s != {} && s <= m.Keys
    ensures f in s && forall j :: j in s && j != f ==> Before(m, f, j)
  {
    var a :| a in s;
    f := a;
    var rest := s - {a};
    if rest == {} {
      assert s == {a};
    } else {
      var g := FirstExists(m, rest);
      f := if Before(m, g, a) then g else a;
      forall j | j in s && j != f ensures Before(m, f, j) {
        assert j == a || j == g || (j in rest && Before(m, g, j));
      }
    }
  }

  /** ListForTenant: the parked events in replay order. */
  ghost function ListForTenant(m: Messages, s: set<EventId>): (l: seq<EventId>)
    requires s <= m.Keys
    ensures Lists(m, l, s)
  {
    if s == {} then []
    else
      assert exists f :: f in s && forall j :: j in s && j != f ==> Before(m, f, j) by {
        var f := FirstExists(m, s);
      }
      var f :| f in s && forall j :: j in s && j != f ==> Before(m, f, j);
      [f] + ListForTenant(m, s - {f})
  }

  // ---- steps ------------------------------------------------------------

  /** EVT-15: the future-time clamp. */
  predicate Future(e: Event, now: Time, skew: nat) {
    e.at != ZERO_TIME && e.at > now + skew
  }

  /** Commit a verdict on the locked live row, with its history entry. */
  function Commit(w: World, id: EventId, v: Verdict): World {
    match v
    case StaleSkip => w.(log := w.log + [Entry(id, Skipped)])
    case Apply(row, relays, wiped) =>
      w.(row := Some(row), outbox := w.outbox + relays,
         wipes := w.wipes + (if wiped then 1 else 0),
         log := w.log + [Entry(id, Applied)])
  }

  function Ack(w: World, id: EventId): World {
    w.(inbox := w.inbox + {id}, inflight := w.inflight - {id})
  }

  function DeliverStep(m: Messages, skew: nat, w: World, id: EventId, days: nat): World {
    if id !in m || Future(m[id], w.now, skew) || id in w.inbox || id in w.inflight then w
    else if !Projectable(m[id].body) then Ack(w, id)
    else if Live(w.row) then
      match Project(w.row.value, m[id], days, w.now)
      case Err(_) => w
      case Ok(v) => Commit(Ack(w, id), id, v)
    else if m[id].body.TenantOffboarded? then
      Ack(w, id).(log := w.log + [Entry(id, DroppedOffboard)])
    else w.(inflight := w.inflight[id := Looking])
  }

  function LookupStep(w: World, id: EventId): World {
    if id !in w.inflight || w.inflight[id] != Looking then w
    else if w.row.Some? then
      Ack(w, id).(log := w.log + [Entry(id, if Live(w.row) then DroppedLive else DroppedDeleted)])
    else w.(inflight := w.inflight[id := AwaitingLock])
  }

  function ParkStep(m: Messages, w: World, id: EventId): World {
    if id !in m || id !in w.inflight || w.inflight[id] != AwaitingLock then w
    else if !Live(w.row) then Ack(w, id).(parked := w.parked + {id})
    else if m[id].body.TrialReactivated? then w.(inflight := w.inflight - {id})
    else
      match Project(w.row.value, m[id], 0, w.now)
      case Err(_) => w.(inflight := w.inflight - {id})
      case Ok(v) => Commit(Ack(w, id), id, v)
  }

  function ProvisionStep(w: World, seed: Seed): World {
    if w.row.Some? then w
    else
      var t := Created(seed, w.now);
      w.(row := Some(t),
         outbox := w.outbox + [TenantCreated(t.status, t.plan), TrialStarted(t.plan)])
  }

  /** One loop iteration of a replay pass: claim, lock, project; its own transaction. */
  function ReplayStep(m: Messages, w: World, r: nat, days: nat): World {
    if r !in w.replays then w
    else if w.replays[r] == [] then w.(replays := w.replays - {r})
    else
      var id := w.replays[r][0];
      var next := w.(replays := w.replays[r := w.replays[r][1..]]);
      if id !in w.parked || id !in m then next
      else if w.row.None? then w.(replays := w.replays - {r})
      else if !Live(w.row) then
        next.(parked := w.parked - {id}, log := w.log + [Entry(id, DroppedDeleted)])
      else
        match Project(w.row.value, m[id], days, w.now)
        case Err(_) => w.(replays := w.replays - {r})
        case Ok(v) => Commit(next.(parked := w.parked - {id}), id, v)
  }

  /** I-1 replays after its commit and the sweep only visits tenants with a row, so a pass
      starts only when the row exists. */
  ghost function StartStep(m: Messages, w: World, r: nat): World {
    if w.row.None? || r in w.replays || !(w.parked <= m.Keys) then w
    else w.(replays := w.replays[r := ListForTenant(m, w.parked)])
  }

  ghost function Next(m: Messages, skew: nat, w: World, s: Step): World {
    match s
    case Tick(d) => w.(now := w.now + d)
    case Deliver(id, days) => DeliverStep(m, skew, w, id, days)
    case Lookup(id) => LookupStep(w, id)
    case Park(id) => ParkStep(m, w, id)
    case Abort(id) => w.(inflight := w.inflight - {id})
    case Provision(seed) => ProvisionStep(w, seed)
    case StartReplay(r) => StartStep(m, w, r)
    case ReplayNext(r, days) => ReplayStep(m, w, r, days)
    case StopReplay(r) => w.(replays := w.replays - {r})
    case Prune(id) => w.(inbox := w.inbox - {id}, pruned := w.pruned + {id})
  }

  ghost function Run(m: Messages, skew: nat, w: World, steps: seq<Step>): World {
    if steps == [] then w
    else Next(m, skew, Run(m, skew, w, steps[..|steps| - 1]), steps[|steps| - 1])
  }

  function Init(now: Time): World {
    World(now, None, {}, {}, map[], map[], [], 0, [], {})
  }

  // ---- bookkeeping -----------------------------------------------------------

  lemma RunSnoc(m: Messages, skew: nat, w: World, steps: seq<Step>, s: Step)
    ensures Run(m, skew, w, steps + [s]) == Next(m, skew, Run(m, skew, w, steps), s)
  {
    assert (steps + [s])[..|steps|] == steps;
  }

  lemma {:induction false} RunAppend(m: Messages, skew: nat, w: World, a: seq<Step>, b: seq<Step>)
    ensures Run(m, skew, w, a + b) == Run(m, skew, Run(m, skew, w, a), b)
    decreases |b|
  {
    if b == [] {
      assert a + b == a;
    } else {
      var b' := b[..|b| - 1];
      assert a + b == (a + b') + [b[|b| - 1]];
      RunSnoc(m, skew, w, a + b', b[|b| - 1]);
      RunAppend(m, skew, w, a, b');
    }
  }

  lemma ListTail(m: Messages, l: seq<EventId>)
    requires InOrder(m, l) && l != []
    ensures InOrder(m, l[1..])
    ensures forall i :: i in l ==> i == l[0] || i in l[1..]
    ensures forall i :: i in l[1..] ==> i in l && Before(m, l[0], i)
  {
    assert l == [l[0]] + l[1..];
  }
}
