/**
  The plan-generation cache protocol as a step system: I-8 readers (one MGET of the entry
  and every generation, the plan lookup through `om:plans`, the stamped back-fill), the
  catalog consumer (clear `om:plans`, then bump each affected plan), the Catalog itself,
  TTLs and a clock. Every step is one cache command or one call to the Catalog.
 */
module PlanCache {
  import opened Tenants

  const SECOND: nat := 1_000_000_000
  const BASE_TTL: nat := 300 * SECOND
  const JITTER: nat := 30 * SECOND
  const GENERATION_TTL: nat := 24 * 3600 * SECOND
  const REQUEST_TIMEOUT: nat := 30 * SECOND
  const CATALOG_TTL: nat := 600 * SECOND
  const CATALOG_STALE_TTL: nat := 24 * 3600 * SECOND

  /** A plan-catalog change: the catalog version it made, which also names its event. */
  type Change = nat

  type Key = nat

  /** The plans each change's event affects, in the order the consumer bumps them. */
  type Affected = Change -> seq<Plan>

  datatype Keyed = Keyed(value: nat, expires: nat)

  /** GET: an expired key is absent. */
  function Get(c: Option<Keyed>, now: nat): Option<nat> {
    if c.Some? && now < c.value.expires then Some(c.value.value) else None
  }

  /** An `om:memberships` entry: the plan it was built for, its generation stamp and the catalog
      version of its plan baseline (none when degraded). Then its history: when its MGET
      was, which bumps of its plan had happened then, and which changes had been cleared
      from `om:plans` when its plan lookup began. */
  datatype Entry = Entry(plan: Plan, gen: Option<Change>, baseline: Option<nat>, expires: nat,
                         started: nat, seen: seq<Change>, cleared: set<Change>)

  datatype Phase =
    | Started
    | Missed(plan: Plan)                          // om:plans was absent
    | Fetched(plan: Plan, version: nat)           // the Catalog answered; not stored yet
    | Stored(plan: Plan, version: nat)            // om:plans is set; its stale copy is not yet
    | Resolved(plan: Plan, baseline: Option<nat>)

  /** An I-8 request after its MGET missed. */
  datatype Reader = Reader(phase: Phase, gens: map<Plan, Change>, started: nat,
                           seen: map<Plan, seq<Change>>, cleared: set<Change>)

  datatype World = World(
    now: nat,
    live: nat,                                    // the Catalog's current version
    plans: Option<Keyed>,
    stale: Option<Keyed>,
    gens: map<Plan, Keyed>,
    entries: map<Key, Entry>,
    readers: map<nat, Reader>,
    consumers: map<Change, seq<Plan>>,            // plans still to bump
    cleared: set<Change>,                         // history
    bumps: map<Plan, seq<Change>>,                // history, in order
    bumpedAt: map<Plan, nat>)                     // history: the last one

  datatype Step =
    | Tick(d: nat)
    | Publish                                     // the Catalog changes
    | Clear(k: Change)                            // handlePlanChanged: DEL om:plans, om:plans:stale
    | Bump(k: Change)                             // handlePlanChanged: one SET of its loop
    | Finish(k: Change)                           // it commits, fails or dies
    | Mget(r: nat, key: Key)
    | Lookup(r: nat, plan: Plan)
    | Fetch(r: nat, up: bool)
    | StorePlans(r: nat)
    | StoreStale(r: nat)
    | BackFill(r: nat, key: Key, jitter: int)
    | Abandon(r: nat)
    | Evict(key: Key)                             // DEL of an entry by a write path

  function Bumps(bumps: map<Plan, seq<Change>>, p: Plan): seq<Change> {
    if p in bumps then bumps[p] else []
  }

  /** The generation of a plan as an MGET sees it. */
  function Generation(gens: map<Plan, Keyed>, now: nat, p: Plan): Option<Change> {
    if p in gens then Get(Some(gens[p]), now) else None
  }

  /** getCached finds an unexpired entry whose stamp is the current generation. */
  predicate Hit(w: World, key: Key) {
    && key in w.entries && w.now < w.entries[key].expires
    && w.entries[key].gen == Generation(w.gens, w.now, w.entries[key].plan)
  }

  function ClearStep(aff: Affected, w: World, k: Change): World {
    if k > w.live then w
    else w.(plans := None, stale := None, consumers := w.consumers[k := aff(k)],
            cleared := w.cleared + {k})
  }

  function BumpStep(w: World, k: Change): World {
    if k !in w.consumers || w.consumers[k] == [] then w
    else
      var p := w.consumers[k][0];
      w.(gens := w.gens[p := Keyed(k, w.now + GENERATION_TTL)],
         consumers := w.consumers[k := w.consumers[k][1..]],
         bumps := w.bumps[p := Bumps(w.bumps, p) + [k]],
         bumpedAt := w.bumpedAt[p := w.now])
  }

  function MgetStep(w: World, r: nat, key: Key): World {
    if r in w.readers || Hit(w, key) then w
    else
      var gens := map p | p in w.gens && w.now < w.gens[p].expires :: w.gens[p].value;
      w.(readers := w.readers[r := Reader(Started, gens, w.now, w.bumps, {})])
  }

  function LookupStep(w: World, r: nat, plan: Plan): World {
    if r !in w.readers || !w.readers[r].phase.Started? then w
    else
      var cached := Get(w.plans, w.now);
      var phase := if cached.Some? then Resolved(plan, cached) else Missed(plan);
      w.(readers := w.readers[r := w.readers[r].(phase := phase, cleared := w.cleared)])
  }

  function FetchStep(w: World, r: nat, up: bool): World {
    if r !in w.readers || !w.readers[r].phase.Missed? then w
    else
      var plan := w.readers[r].phase.plan;
      var phase := if up then Fetched(plan, w.live) else Resolved(plan, Get(w.stale, w.now));
      w.(readers := w.readers[r := w.readers[r].(phase := phase)])
  }

  /** setCachedPlans: the SET of om:plans ... */
  function StorePlansStep(w: World, r: nat): World {
    if r !in w.readers || !w.readers[r].phase.Fetched? then w
    else
      var v := w.readers[r].phase.version;
      var phase := Stored(w.readers[r].phase.plan, v);
      w.(plans := Some(Keyed(v, w.now + CATALOG_TTL)),
         readers := w.readers[r := w.readers[r].(phase := phase)])
  }

  /** ... and the SET of om:plans:stale. */
  function StoreStaleStep(w: World, r: nat): World {
    if r !in w.readers || !w.readers[r].phase.Stored? then w
    else
      var v := w.readers[r].phase.version;
      var phase := Resolved(w.readers[r].phase.plan, Some(v));
      w.(stale := Some(Keyed(v, w.now + CATALOG_STALE_TTL)),
         readers := w.readers[r := w.readers[r].(phase := phase)])
  }

  /** setCached: within the request's deadline, jitter in [-30 s, 30 s). */
  function BackFillStep(w: World, r: nat, key: Key, jitter: int): World {
    if r !in w.readers || !w.readers[r].phase.Resolved? then w
    else if !(-(JITTER as int) <= jitter < JITTER) || w.now > w.readers[r].started + REQUEST_TIMEOUT then w
    else
      var d := w.readers[r];
      var p := d.phase.plan;
      var gen := if p in d.gens then Some(d.gens[p]) else None;
      var e := Entry(p, gen, d.phase.baseline, w.now + (BASE_TTL + jitter), d.started,
                     Bumps(d.seen, p), d.cleared);
      w.(entries := w.entries[key := e], readers := w.readers - {r})
  }

  /** A back-fill is written exactly if its lookup is over and the request's 30 s are not, and lasts
      300 s give or take 30. */
  lemma BackFillWritesExactly(w: World, r: nat, key: Key, jitter: int)
    requires r in w.readers && -30_000_000_000 <= jitter < 30_000_000_000
    ensures var d := w.readers[r];
            var w' := BackFillStep(w, r, key, jitter);
            if d.phase.Resolved? && w.now <= d.started + 30_000_000_000
            then && w'.entries.Keys == w.entries.Keys + {key} && w'.entries[key].plan == d.phase.plan
                 && w'.entries[key].baseline == d.phase.baseline
                 && w'.entries[key].gen == (if d.phase.plan in d.gens then Some(d.gens[d.phase.plan]) else None)
                 && w'.entries[key].expires == w.now + 300_000_000_000 + jitter
                 && r !in w'.readers
            else w' == w
  {
  }

  function Next(aff: Affected, w: World, s: Step): World {
    match s
    case Tick(d) => w.(now := w.now + d)
    case Publish => w.(live := w.live + 1)
    case Clear(k) => ClearStep(aff, w, k)
    case Bump(k) => BumpStep(w, k)
    case Finish(k) => w.(consumers := w.consumers - {k})
    case Mget(r, key) => MgetStep(w, r, key)
    case Lookup(r, plan) => LookupStep(w, r, plan)
    case Fetch(r, up) => FetchStep(w, r, up)
    case StorePlans(r) => StorePlansStep(w, r)
    case StoreStale(r) => StoreStaleStep(w, r)
    case BackFill(r, key, jitter) => BackFillStep(w, r, key, jitter)
    case Abandon(r) => w.(readers := w.readers - {r})
    case Evict(key) => w.(entries := w.entries - {key})
  }

  function Run(aff: Affected, w: World, steps: seq<Step>): World {
    if steps == [] then w
    else Next(aff, Run(aff, w, steps[..|steps| - 1]), steps[|steps| - 1])
  }

  function Init(now: nat, live: nat): World {
    World(now, live, None, None, map[], map[], map[], map[], {}, map[], map[])
  }

  lemma RunSnoc(aff: Affected, w: World, steps: seq<Step>, s: Step)
    ensures Run(aff, w, steps + [s]) == Next(aff, Run(aff, w, steps), s)
  {
    assert (steps + [s])[..|steps|] == steps;
  }

  // ---- what every run keeps -----------------------------------------------------

  /** The generation key of a plan holds its last bump until 24 h after it. */
  ghost predicate GensFollowBumps(now: nat, gens: map<Plan, Keyed>, bumps: map<Plan, seq<Change>>,
                                  bumpedAt: map<Plan, nat>) {
    && gens.Keys == bumps.Keys == bumpedAt.Keys
    && forall p :: p in gens ==>
         && bumps[p] != [] && bumpedAt[p] <= now
         && gens[p] == Keyed(bumps[p][|bumps[p]| - 1], bumpedAt[p] + GENERATION_TTL)
  }

  /** Only a cleared change is bumped, and only a published one is cleared. */
  ghost predicate ClearsFirst(live: nat, consumers: map<Change, seq<Plan>>, cleared: set<Change>,
                              bumps: map<Plan, seq<Change>>) {
    && (forall k :: k in consumers ==> k in cleared)
    && (forall k :: k in cleared ==> k <= live)
    && (forall p, i :: p in bumps && 0 <= i < |bumps[p]| ==> bumps[p][i] in cleared)
  }

  /** What an MGET at `started` says about the bumps `all` of one plan: those it had seen are a
      prefix, its stamp is the last of them, and any later one is no older than it. */
  predicate Stamps(gen: Option<Change>, seen: seq<Change>, started: nat, all: seq<Change>, last: Option<nat>) {
    && seen <= all
    && (gen.Some? ==> seen != [] && seen[|seen| - 1] == gen.value)
    && (|seen| < |all| ==> last.Some? && started <= last.value)
  }

  function Last(bumpedAt: map<Plan, nat>, p: Plan): Option<nat> {
    if p in bumpedAt then Some(bumpedAt[p]) else None
  }

  function StampOf(d: Reader, p: Plan): Option<Change> {
    if p in d.gens then Some(d.gens[p]) else None
  }

  predicate Subset(seen: seq<Change>, s: set<Change>) {
    forall i :: 0 <= i < |seen| ==> seen[i] in s
  }

  ghost predicate ReaderOk(d: Reader, now: nat, cleared: set<Change>, bumps: map<Plan, seq<Change>>,
                           bumpedAt: map<Plan, nat>) {
    && d.started <= now && d.cleared <= cleared
    && forall p :: Stamps(StampOf(d, p), Bumps(d.seen, p), d.started, Bumps(bumps, p), Last(bumpedAt, p))
                && (!d.phase.Started? ==> Subset(Bumps(d.seen, p), d.cleared))
                && Subset(Bumps(d.seen, p), cleared)
  }

  ghost predicate EntryOk(e: Entry, now: nat, bumps: map<Plan, seq<Change>>, bumpedAt: map<Plan, nat>) {
    && Stamps(e.gen, e.seen, e.started, Bumps(bumps, e.plan), Last(bumpedAt, e.plan))
    && Subset(e.seen, e.cleared) && e.started <= now
    && e.expires < e.started + REQUEST_TIMEOUT + BASE_TTL + JITTER
  }

  ghost predicate Inv(w: World) {
    && GensFollowBumps(w.now, w.gens, w.bumps, w.bumpedAt)
    && ClearsFirst(w.live, w.consumers, w.cleared, w.bumps)
    && (forall r :: r in w.readers ==> ReaderOk(w.readers[r], w.now, w.cleared, w.bumps, w.bumpedAt))
    && (forall key :: key in w.entries ==> EntryOk(w.entries[key], w.now, w.bumps, w.bumpedAt))
  }

  lemma StampsGrow(gen: Option<Change>, seen: seq<Change>, started: nat, all: seq<Change>,
                   last: Option<nat>, k: Change, now: nat)
    requires Stamps(gen, seen, started, all, last) && started <= now
    ensures Stamps(gen, seen, started, all + [k], Some(now))
  {
  }

  /** Bumping `p` with `k` at `now`. */
  ghost predicate Bumped(bumps: map<Plan, seq<Change>>, bumps': map<Plan, seq<Change>>,
                         at: map<Plan, nat>, at': map<Plan, nat>, p: Plan, k: Change, now: nat) {
    && bumps' == bumps[p := Bumps(bumps, p) + [k]] && at' == at[p := now]
  }

  lemma BumpKeepsReader(d: Reader, now: nat, cleared: set<Change>, bumps: map<Plan, seq<Change>>,
                        bumps': map<Plan, seq<Change>>, at: map<Plan, nat>, at': map<Plan, nat>,
                        p: Plan, k: Change)
    requires ReaderOk(d, now, cleared, bumps, at) && Bumped(bumps, bumps', at, at', p, k, now)
    ensures ReaderOk(d, now, cleared, bumps', at')
  {
    forall q ensures Stamps(StampOf(d, q), Bumps(d.seen, q), d.started, Bumps(bumps', q), Last(at', q)) {
      assert Stamps(StampOf(d, q), Bumps(d.seen, q), d.started, Bumps(bumps, q), Last(at, q));
      if q == p {
        StampsGrow(StampOf(d, p), Bumps(d.seen, p), d.started, Bumps(bumps, p), Last(at, p), k, now);
      }
    }
  }

  lemma BumpKeepsEntry(e: Entry, now: nat, bumps: map<Plan, seq<Change>>,
                       bumps': map<Plan, seq<Change>>, at: map<Plan, nat>, at': map<Plan, nat>,
                       p: Plan, k: Change)
    requires EntryOk(e, now, bumps, at) && Bumped(bumps, bumps', at, at', p, k, now)
    ensures EntryOk(e, now, bumps', at')
  {
    if e.plan == p { StampsGrow(e.gen, e.seen, e.started, Bumps(bumps, p), Last(at, p), k, now); }
  }

  lemma BumpKeepsGens(now: nat, gens: map<Plan, Keyed>, bumps: map<Plan, seq<Change>>,
                      bumps': map<Plan, seq<Change>>, at: map<Plan, nat>, at': map<Plan, nat>,
                      p: Plan, k: Change)
    requires GensFollowBumps(now, gens, bumps, at) && Bumped(bumps, bumps', at, at', p, k, now)
    ensures GensFollowBumps(now, gens[p := Keyed(k, now + GENERATION_TTL)], bumps', at')
  {
  }

  lemma BumpKeepsClears(live: nat, consumers: map<Change, seq<Plan>>, cleared: set<Change>,
                        bumps: map<Plan, seq<Change>>, bumps': map<Plan, seq<Change>>, p: Plan, k: Change)
    requires ClearsFirst(live, consumers, cleared, bumps) && k in cleared
    requires bumps' == bumps[p := Bumps(bumps, p) + [k]]
    ensures ClearsFirst(live, consumers, cleared, bumps')
  {
  }

  lemma BumpKeepsInv(w: World, k: Change)
    requires Inv(w)
    ensures Inv(BumpStep(w, k))
  {
    if k in w.consumers && w.consumers[k] != [] {
      var w' := BumpStep(w, k);
      var p := w.consumers[k][0];
      BumpKeepsGens(w.now, w.gens, w.bumps, w'.bumps, w.bumpedAt, w'.bumpedAt, p, k);
      BumpKeepsClears(w.live, w.consumers, w.cleared, w.bumps, w'.bumps, p, k);
      forall r | r in w'.readers ensures ReaderOk(w'.readers[r], w'.now, w'.cleared, w'.bumps, w'.bumpedAt) {
        BumpKeepsReader(w.readers[r], w.now, w.cleared, w.bumps, w'.bumps, w.bumpedAt, w'.bumpedAt, p, k);
      }
      forall key | key in w'.entries ensures EntryOk(w'.entries[key], w'.now, w'.bumps, w'.bumpedAt) {
        BumpKeepsEntry(w.entries[key], w.now, w.bumps, w'.bumps, w.bumpedAt, w'.bumpedAt, p, k);
      }
    }
  }

  lemma MgetKeepsInv(w: World, r: nat, key: Key)
    requires Inv(w)
    ensures Inv(MgetStep(w, r, key))
  {
    var w' := MgetStep(w, r, key);
    if w' != w {
      var d := w'.readers[r];
      forall p ensures Stamps(StampOf(d, p), Bumps(d.seen, p), d.started, Bumps(w.bumps, p), Last(w.bumpedAt, p))
                    && Subset(Bumps(d.seen, p), w.cleared)
      {
      }
    }
  }

  lemma LookupKeepsInv(w: World, r: nat, plan: Plan)
    requires Inv(w)
    ensures Inv(LookupStep(w, r, plan))
  {
    var w' := LookupStep(w, r, plan);
    if w' != w { LookupKeepsReader(w.readers[r], w'.readers[r].phase, w.now, w.cleared, w.bumps, w.bumpedAt); }
  }

  /** The lookup begins after every clear so far. */
  lemma LookupKeepsReader(d: Reader, phase: Phase, now: nat, cleared: set<Change>,
                          bumps: map<Plan, seq<Change>>, bumpedAt: map<Plan, nat>)
    requires ReaderOk(d, now, cleared, bumps, bumpedAt)
    ensures ReaderOk(d.(phase := phase, cleared := cleared), now, cleared, bumps, bumpedAt)
  {
    forall p ensures StampOf(d.(phase := phase, cleared := cleared), p) == StampOf(d, p) {}
  }

  lemma BackFillKeepsInv(w: World, r: nat, key: Key, jitter: int)
    requires Inv(w)
    ensures Inv(BackFillStep(w, r, key, jitter))
  {
    var w' := BackFillStep(w, r, key, jitter);
    if w' != w {
      var d := w.readers[r];
      assert ReaderOk(d, w.now, w.cleared, w.bumps, w.bumpedAt);
      assert EntryOk(w'.entries[key], w.now, w.bumps, w.bumpedAt);
    }
  }

  /** Moving on from a plan lookup. */
  lemma PhaseKeepsReader(d: Reader, phase: Phase, now: nat, cleared: set<Change>,
                         bumps: map<Plan, seq<Change>>, bumpedAt: map<Plan, nat>)
    requires ReaderOk(d, now, cleared, bumps, bumpedAt) && !d.phase.Started?
    ensures ReaderOk(d.(phase := phase), now, cleared, bumps, bumpedAt)
  {
    forall p ensures StampOf(d.(phase := phase), p) == StampOf(d, p) {}
  }

  lemma FetchKeepsInv(w: World, r: nat, up: bool)
    requires Inv(w)
    ensures Inv(FetchStep(w, r, up))
  {
    if r in w.readers && w.readers[r].phase.Missed? {
      PhaseKeepsReader(w.readers[r], FetchStep(w, r, up).readers[r].phase, w.now, w.cleared, w.bumps, w.bumpedAt);
    }
  }

  lemma StorePlansKeepsInv(w: World, r: nat)
    requires Inv(w)
    ensures Inv(StorePlansStep(w, r))
  {
    if r in w.readers && w.readers[r].phase.Fetched? {
      PhaseKeepsReader(w.readers[r], StorePlansStep(w, r).readers[r].phase, w.now, w.cleared, w.bumps, w.bumpedAt);
    }
  }

  lemma StoreStaleKeepsInv(w: World, r: nat)
    requires Inv(w)
    ensures Inv(StoreStaleStep(w, r))
  {
    if r in w.readers && w.readers[r].phase.Stored? {
      PhaseKeepsReader(w.readers[r], StoreStaleStep(w, r).readers[r].phase, w.now, w.cleared, w.bumps, w.bumpedAt);
    }
  }

  lemma ClearKeepsInv(aff: Affected, w: World, k: Change)
    requires Inv(w)
    ensures Inv(ClearStep(aff, w, k))
  {
    var w' := ClearStep(aff, w, k);
    forall r | r in w'.readers ensures ReaderOk(w'.readers[r], w'.now, w'.cleared, w'.bumps, w'.bumpedAt) {
      assert ReaderOk(w.readers[r], w.now, w.cleared, w.bumps, w.bumpedAt);
    }
  }

  lemma TickKeepsInv(w: World, d: nat)
    requires Inv(w)
    ensures Inv(w.(now := w.now + d))
  {
  }

  /** The steps that only publish, forget or evict. */
  lemma OthersKeepInv(aff: Affected, w: World, s: Step)
    requires Inv(w) && (s.Publish? || s.Finish? || s.Abandon? || s.Evict?)
    ensures Inv(Next(aff, w, s))
  {
  }

  lemma NextKeepsInv(aff: Affected, w: World, s: Step)
    requires Inv(w)
    ensures Inv(Next(aff, w, s))
  {
    match s
    case Tick(d) => TickKeepsInv(w, d);
    case Clear(k) => ClearKeepsInv(aff, w, k);
    case Fetch(r, up) => FetchKeepsInv(w, r, up);
    case StorePlans(r) => StorePlansKeepsInv(w, r);
    case StoreStale(r) => StoreStaleKeepsInv(w, r);
    case Bump(k) => BumpKeepsInv(w, k);
    case Mget(r, key) => MgetKeepsInv(w, r, key);
    case Lookup(r, plan) => LookupKeepsInv(w, r, plan);
    case BackFill(r, key, jitter) => BackFillKeepsInv(w, r, key, jitter);
    case _ => OthersKeepInv(aff, w, s);
  }

  lemma {:induction false} RunKeepsInv(aff: Affected, now: nat, live: nat, steps: seq<Step>)
    ensures Inv(Run(aff, Init(now, live), steps))
  {
    if steps == [] {
    } else {
      RunKeepsInv(aff, now, live, steps[..|steps| - 1]);
      NextKeepsInv(aff, Run(aff, Init(now, live), steps[..|steps| - 1]), steps[|steps| - 1]);
    }
  }

  // ---- generation safety ----------------------------------------------------------

  /** A bump is orderly if its event has not bumped that plan before, or was the last to. */
  predicate Orderly(w: World, s: Step) {
    s.Bump? && s.k in w.consumers && w.consumers[s.k] != [] ==>
      var b := Bumps(w.bumps, w.consumers[s.k][0]);
      s.k !in b || b[|b| - 1] == s.k
  }

  predicate OrderlyRun(aff: Affected, w: World, steps: seq<Step>) {
    steps != [] ==>
      && OrderlyRun(aff, w, steps[..|steps| - 1])
      && Orderly(Run(aff, w, steps[..|steps| - 1]), steps[|steps| - 1])
  }

  /** A generation value, once replaced, never comes back. */
  predicate NoneReturns(b: seq<Change>) {
    forall i, j, l :: 0 <= i < j < l < |b| && b[i] == b[l] ==> b[j] == b[i]
  }

  predicate BumpsPlan(w: World, s: Step, p: Plan) {
    s.Bump? && s.k in w.consumers && w.consumers[s.k] != [] && w.consumers[s.k][0] == p
  }

  lemma OnlyBumpsBump(aff: Affected, w: World, s: Step, p: Plan)
    ensures Bumps(Next(aff, w, s).bumps, p)
         == if BumpsPlan(w, s, p) then Bumps(w.bumps, p) + [s.k] else Bumps(w.bumps, p)
  {
  }

  lemma {:induction false} OrderlyNoneReturns(aff: Affected, now: nat, live: nat, steps: seq<Step>, p: Plan)
    requires OrderlyRun(aff, Init(now, live), steps)
    ensures NoneReturns(Bumps(Run(aff, Init(now, live), steps).bumps, p))
  {
    if steps == [] {
    } else {
      var front, s := steps[..|steps| - 1], steps[|steps| - 1];
      OrderlyNoneReturns(aff, now, live, front, p);
      var w := Run(aff, Init(now, live), front);
      OnlyBumpsBump(aff, w, s, p);
      if BumpsPlan(w, s, p) { NoneReturnsSnoc(Bumps(w.bumps, p), s.k); }
    }
  }

  /** Exactly the orderly bumps bring no generation back. */
  lemma NoneReturnsSnoc(b: seq<Change>, k: Change)
    requires NoneReturns(b)
    ensures NoneReturns(b + [k]) <==> k !in b || b[|b| - 1] == k
  {
    var c := b + [k];
    if k !in b || b[|b| - 1] == k {
      forall i, j, l | 0 <= i < j < l < |c| && c[i] == c[l] ensures c[j] == c[i] {
        if l == |b| {
          assert b[i] == k;
          assert b[|b| - 1] == k;
        }
      }
    } else {
      var i :| 0 <= i < |b| && b[i] == k;
      assert c[i] == c[|b|] && c[|b| - 1] != c[i];
    }
  }

  /** If the entry is served, its plan lookup began after the `om:plans` clear of every change
      that has bumped its plan's generation. */
  predicate Covered(w: World, key: Key) {
    Hit(w, key) ==>
      forall k :: k in Bumps(w.bumps, w.entries[key].plan) ==> k in w.entries[key].cleared
  }

  /** Every hit is covered, in every run whose bumps are orderly. */
  lemma GenerationSafety(aff: Affected, now: nat, live: nat, steps: seq<Step>, key: Key)
    requires OrderlyRun(aff, Init(now, live), steps)
    ensures Covered(Run(aff, Init(now, live), steps), key)
  {
    var w := Run(aff, Init(now, live), steps);
    RunKeepsInv(aff, now, live, steps);
    if key in w.entries {
      OrderlyNoneReturns(aff, now, live, steps, w.entries[key].plan);
      CoveredUnlessOneReturns(w, key);
    }
  }

  lemma CoveredUnlessOneReturns(w: World, key: Key)
    requires Inv(w) && key in w.entries && NoneReturns(Bumps(w.bumps, w.entries[key].plan))
    ensures Covered(w, key)
  {
    if Hit(w, key) {
      var e := w.entries[key];
      assert EntryOk(e, w.now, w.bumps, w.bumpedAt);
      HitSawLast(e, w.now, w.gens, w.bumps, w.bumpedAt);
      AllSeen(e.seen, Bumps(w.bumps, e.plan), e.cleared);
    }
  }

  /** A hit whose MGET missed a bump carries the stamp of the latest one all the same. */
  lemma HitSawLast(e: Entry, now: nat, gens: map<Plan, Keyed>, bumps: map<Plan, seq<Change>>,
                   bumpedAt: map<Plan, nat>)
    requires GensFollowBumps(now, gens, bumps, bumpedAt) && EntryOk(e, now, bumps, bumpedAt)
    requires now < e.expires && e.gen == Generation(gens, now, e.plan)
    ensures var all := Bumps(bumps, e.plan);
            |e.seen| < |all| ==> e.seen != [] && e.seen[|e.seen| - 1] == all[|all| - 1]
  {
  }

  lemma AllSeen(seen: seq<Change>, all: seq<Change>, cleared: set<Change>)
    requires seen <= all && NoneReturns(all) && Subset(seen, cleared)
    requires |seen| < |all| ==> seen != [] && seen[|seen| - 1] == all[|all| - 1]
    ensures forall k :: k in all ==> k in cleared
  {
    forall i | 0 <= i < |all| ensures all[i] in cleared {
      if i >= |seen| {
        assert all[|seen| - 1] == all[|all| - 1];
        assert all[i] == seen[|seen| - 1];
      } else {
        assert all[i] == seen[i];
      }
    }
  }

  /** Some change that has bumped the plan was not cleared yet when the lookup began. */
  predicate Lacks(bumps: seq<Change>, cleared: set<Change>) {
    exists i :: 0 <= i < |bumps| && bumps[i] !in cleared
  }

  /** The bump makes `k` the generation again of a live entry stamped with it, which lacks another
      change of its plan. */
  predicate BumpRevives(w: World, k: Change, key: Key) {
    && k in w.consumers && w.consumers[k] != []
    && key in w.entries && w.now < w.entries[key].expires
    && w.entries[key].plan == w.consumers[k][0] && w.entries[key].gen == Some(k)
    && Lacks(Bumps(w.bumps, w.entries[key].plan), w.entries[key].cleared)
  }

  /** setCached's own conditions. */
  predicate MayBackFill(w: World, r: nat, jitter: int) {
    && r in w.readers && w.readers[r].phase.Resolved?
    && -(JITTER as int) <= jitter < JITTER && w.now <= w.readers[r].started + REQUEST_TIMEOUT
  }

  /** The back-fill is stamped with what is the generation again, and its lookup lacks a change of
      its plan. */
  predicate BackFillRevives(w: World, r: nat, jitter: int) {
    && MayBackFill(w, r, jitter)
    && var d := w.readers[r];
       && StampOf(d, d.phase.plan) == Generation(w.gens, w.now, d.phase.plan)
       && Lacks(Bumps(w.bumps, d.phase.plan), d.cleared)
  }

  predicate Revives(w: World, s: Step, key: Key) {
    match s
    case Bump(k) => BumpRevives(w, k, key)
    case BackFill(r, n, jitter) => n == key && BackFillRevives(w, r, jitter)
    case _ => false
  }

  lemma CoveredIff(w: World, key: Key)
    ensures Covered(w, key) <==>
              !(Hit(w, key) && Lacks(Bumps(w.bumps, w.entries[key].plan), w.entries[key].cleared))
  {
  }

  lemma BumpCoversExactly(w: World, k: Change, key: Key)
    requires Inv(w) && Covered(w, key)
    ensures Covered(BumpStep(w, k), key) <==> !BumpRevives(w, k, key)
  {
    if k in w.consumers && w.consumers[k] != [] && key in w.entries {
      if w.entries[key].plan == w.consumers[k][0] { OwnBumpCovers(w, k, key); } else { OtherBumpCovers(w, k, key); }
    }
  }

  lemma OwnBumpCovers(w: World, k: Change, key: Key)
    requires Inv(w) && Covered(w, key) && k in w.consumers && w.consumers[k] != []
    requires key in w.entries && w.entries[key].plan == w.consumers[k][0]
    ensures Covered(BumpStep(w, k), key) <==> !BumpRevives(w, k, key)
  {
    var e := w.entries[key];
    CoveredIff(w, key);
    CoveredIff(BumpStep(w, k), key);
    assert EntryOk(e, w.now, w.bumps, w.bumpedAt);
    LacksSnoc(Bumps(w.bumps, e.plan), k, e.cleared);
    if e.gen == Some(k) { assert e.seen[|e.seen| - 1] == k; }
  }

  lemma OtherBumpCovers(w: World, k: Change, key: Key)
    requires Covered(w, key) && k in w.consumers && w.consumers[k] != []
    requires key in w.entries && w.entries[key].plan != w.consumers[k][0]
    ensures Covered(BumpStep(w, k), key)
  {
    assert Bumps(BumpStep(w, k).bumps, w.entries[key].plan) == Bumps(w.bumps, w.entries[key].plan);
  }

  lemma LacksSnoc(bumps: seq<Change>, k: Change, cleared: set<Change>)
    ensures Lacks(bumps + [k], cleared) <==> Lacks(bumps, cleared) || k !in cleared
  {
    var all := bumps + [k];
    assert all[|bumps|] == k;
    if Lacks(bumps, cleared) {
      var i :| 0 <= i < |bumps| && bumps[i] !in cleared;
      assert all[i] == bumps[i];
    }
  }

  lemma BackFillCoversExactly(w: World, r: nat, n: Key, jitter: int, key: Key)
    requires Covered(w, key)
    ensures Covered(BackFillStep(w, r, n, jitter), key) <==> !(n == key && BackFillRevives(w, r, jitter))
  {
    var w' := BackFillStep(w, r, n, jitter);
    CoveredIff(w, key);
    CoveredIff(w', key);
    if MayBackFill(w, r, jitter) && n == key {
      assert w'.entries[key].expires > w.now;
    }
  }

  /** As time passes, an entry whose generation key expires has seen every bump. */
  lemma TickCovers(w: World, d: nat, key: Key)
    requires Inv(w) && Covered(w, key)
    ensures Covered(w.(now := w.now + d), key)
  {
    var w' := w.(now := w.now + d);
    TickKeepsInv(w, d);
    if Hit(w', key) && !Hit(w, key) {
      var e := w.entries[key];
      assert EntryOk(e, w'.now, w.bumps, w.bumpedAt);
      HitSawLast(e, w'.now, w.gens, w.bumps, w.bumpedAt);
      assert e.gen.None?;
      assert e.seen == Bumps(w.bumps, e.plan);
    }
  }

  /** A step leaves the entry under `key` covered exactly if it does not revive it. */
  lemma CoveredExactly(aff: Affected, w: World, s: Step, key: Key)
    requires Inv(w) && Covered(w, key)
    ensures Covered(Next(aff, w, s), key) <==> !Revives(w, s, key)
  {
    match s
    case Tick(d) => TickCovers(w, d, key);
    case Bump(k) => BumpCoversExactly(w, k, key);
    case BackFill(r, n, jitter) => BackFillCoversExactly(w, r, n, jitter, key);
    case _ => OthersCover(aff, w, s, key);
  }

  /** The steps that write no generation and no entry. */
  lemma OthersFrame(aff: Affected, w: World, s: Step)
    requires !s.Tick? && !s.Bump? && !s.BackFill?
    ensures var w' := Next(aff, w, s);
            && w'.now == w.now && w'.gens == w.gens && w'.bumps == w.bumps
            && w'.entries == if s.Evict? then w.entries - {s.key} else w.entries
  {
  }

  lemma OthersCover(aff: Affected, w: World, s: Step, key: Key)
    requires Covered(w, key) && !s.Tick? && !s.Bump? && !s.BackFill?
    ensures Covered(Next(aff, w, s), key)
  {
    OthersFrame(aff, w, s);
  }

  predicate AlwaysCovered(aff: Affected, w: World, steps: seq<Step>, key: Key) {
    Covered(Run(aff, w, steps), key) && (steps != [] ==> AlwaysCovered(aff, w, steps[..|steps| - 1], key))
  }

  predicate NeverRevived(aff: Affected, w: World, steps: seq<Step>, key: Key) {
    steps != [] ==>
      && NeverRevived(aff, w, steps[..|steps| - 1], key)
      && !Revives(Run(aff, w, steps[..|steps| - 1]), steps[|steps| - 1], key)
  }

  /** So an entry is covered throughout exactly the runs that never revive it; by GenerationSafety
      the runs of orderly bumps are among them. */
  lemma {:induction false} CoveredThroughout(aff: Affected, now: nat, live: nat, steps: seq<Step>, key: Key)
    ensures AlwaysCovered(aff, Init(now, live), steps, key) <==> NeverRevived(aff, Init(now, live), steps, key)
  {
    if steps == [] {
    } else {
      var front := steps[..|steps| - 1];
      CoveredThroughout(aff, now, live, front, key);
      RunKeepsInv(aff, now, live, front);
      if AlwaysCovered(aff, Init(now, live), front, key) {
        CoveredExactly(aff, Run(aff, Init(now, live), front), steps[|steps| - 1], key);
      }
    }
  }

  /** One SET retires every cached projection of every tenant on the plan. */
  lemma BumpRetiresEveryEntry(w: World, k: Change, key: Key)
    requires Inv(w) && k in w.consumers && w.consumers[k] != []
    requires k !in Bumps(w.bumps, w.consumers[k][0])
    ensures key in w.entries && w.entries[key].plan == w.consumers[k][0] ==> !Hit(BumpStep(w, k), key)
  {
    if key in w.entries {
      var e := w.entries[key];
      assert EntryOk(e, w.now, w.bumps, w.bumpedAt);
      if e.gen.Some? && e.plan == w.consumers[k][0] {
        assert e.seen[|e.seen| - 1] == Bumps(w.bumps, e.plan)[|e.seen| - 1];
      }
    }
  }

  /** An entry built before its plan's last bump is gone before that bump's generation key
      expires: in every run, orderly or not, the key is still there to be compared with. */
  lemma ExpiryNeverRevives(aff: Affected, now: nat, live: nat, steps: seq<Step>, key: Key)
    ensures var w := Run(aff, Init(now, live), steps);
            key in w.entries && w.now < w.entries[key].expires
            && |w.entries[key].seen| < |Bumps(w.bumps, w.entries[key].plan)| ==>
              var b := Bumps(w.bumps, w.entries[key].plan);
              Generation(w.gens, w.now, w.entries[key].plan) == Some(b[|b| - 1])
  {
    RunKeepsInv(aff, now, live, steps);
    var w := Run(aff, Init(now, live), steps);
    if key in w.entries { assert EntryOk(w.entries[key], w.now, w.bumps, w.bumpedAt); }
  }

  // ---- fresh baselines ------------------------------------------------------------

  /** The reader fetched the catalog before a change it lacks was cleared, and has yet to
      store it, or to store its stale copy. */
  predicate Straddles(w: World, r: nat) {
    && r in w.readers && (w.readers[r].phase.Fetched? || w.readers[r].phase.Stored?)
    && exists k :: k in w.cleared && k > w.readers[r].phase.version
  }

  /** Neither SET of a refresh straddles a clear. */
  predicate Prompt(w: World, s: Step) {
    && (s.StorePlans? && s.r in w.readers && w.readers[s.r].phase.Fetched? ==> !Straddles(w, s.r))
    && (s.StoreStale? && s.r in w.readers && w.readers[s.r].phase.Stored? ==> !Straddles(w, s.r))
  }

  predicate PromptRun(aff: Affected, w: World, steps: seq<Step>) {
    steps != [] ==>
      && PromptRun(aff, w, steps[..|steps| - 1])
      && Prompt(Run(aff, w, steps[..|steps| - 1]), steps[|steps| - 1])
  }

  predicate AtLeast(v: Option<nat>, changes: set<Change>) {
    v.Some? ==> forall k :: k in changes ==> k <= v.value
  }

  function Value(c: Option<Keyed>): Option<nat> { if c.Some? then Some(c.value.value) else None }

  /** `om:plans` and its stale copy hold every cleared change. */
  predicate PlansFresh(w: World) {
    AtLeast(Value(w.plans), w.cleared) && AtLeast(Value(w.stale), w.cleared)
  }

  predicate PhaseFresh(d: Reader) {
    match d.phase
    case Fetched(_, v) => AtLeast(Some(v), d.cleared)
    case Stored(_, v) => AtLeast(Some(v), d.cleared)
    case Resolved(_, b) => AtLeast(b, d.cleared)
    case _ => true
  }

  ghost predicate Fresh(w: World) {
    && PlansFresh(w)
    && (forall r :: r in w.readers ==> PhaseFresh(w.readers[r]))
    && (forall key :: key in w.entries ==> AtLeast(w.entries[key].baseline, w.entries[key].cleared))
  }

  /** A step keeps `om:plans` and its stale copy fresh exactly if it is not a SET that straddles a
      clear. */
  lemma StoreKeepsFreshExactly(aff: Affected, w: World, s: Step)
    requires Inv(w) && PlansFresh(w)
    ensures PlansFresh(Next(aff, w, s)) <==> Prompt(w, s)
  {
    var w' := Next(aff, w, s);
    if s.StorePlans? && s.r in w.readers && w.readers[s.r].phase.Fetched? {
      assert Value(w'.plans) == Some(w.readers[s.r].phase.version) && w'.stale == w.stale;
    } else if s.StoreStale? && s.r in w.readers && w.readers[s.r].phase.Stored? {
      assert Value(w'.stale) == Some(w.readers[s.r].phase.version) && w'.plans == w.plans;
    }
  }

  lemma StepKeepsReadersFresh(aff: Affected, w: World, s: Step, r: nat)
    requires Inv(w) && PlansFresh(w) && r in Next(aff, w, s).readers
    requires r in w.readers ==> PhaseFresh(w.readers[r])
    ensures PhaseFresh(Next(aff, w, s).readers[r])
  {
    if s.Lookup? {
      LookupKeepsReadersFresh(w, s.r, s.plan, r);
    } else if s.Fetch? {
      FetchKeepsReadersFresh(w, s.r, s.up, r);
    }
  }

  lemma LookupKeepsReadersFresh(w: World, n: nat, plan: Plan, r: nat)
    requires PlansFresh(w) && r in LookupStep(w, n, plan).readers
    requires r in w.readers ==> PhaseFresh(w.readers[r])
    ensures PhaseFresh(LookupStep(w, n, plan).readers[r])
  {
  }

  /** What the Catalog answers is the live version, and the stale copy is fresh. */
  lemma FetchKeepsReadersFresh(w: World, n: nat, up: bool, r: nat)
    requires Inv(w) && PlansFresh(w) && r in FetchStep(w, n, up).readers
    requires r in w.readers ==> PhaseFresh(w.readers[r])
    ensures PhaseFresh(FetchStep(w, n, up).readers[r])
  {
    if r in w.readers { assert ReaderOk(w.readers[r], w.now, w.cleared, w.bumps, w.bumpedAt); }
  }

  lemma StepKeepsEntriesFresh(aff: Affected, w: World, s: Step, key: Key)
    requires Fresh(w) && key in Next(aff, w, s).entries
    ensures var e := Next(aff, w, s).entries[key]; AtLeast(e.baseline, e.cleared)
  {
    if s.BackFill? && s.r in w.readers { assert PhaseFresh(w.readers[s.r]); }
  }

  lemma StepKeepsFresh(aff: Affected, w: World, s: Step)
    requires Inv(w) && Fresh(w) && Prompt(w, s)
    ensures Fresh(Next(aff, w, s))
  {
    StoreKeepsFreshExactly(aff, w, s);
    var w' := Next(aff, w, s);
    forall r | r in w'.readers ensures PhaseFresh(w'.readers[r]) {
      StepKeepsReadersFresh(aff, w, s, r);
    }
    forall key | key in w'.entries ensures AtLeast(w'.entries[key].baseline, w'.entries[key].cleared) {
      StepKeepsEntriesFresh(aff, w, s, key);
    }
  }

  lemma {:induction false} RunKeepsFresh(aff: Affected, now: nat, live: nat, steps: seq<Step>)
    requires PromptRun(aff, Init(now, live), steps)
    ensures Fresh(Run(aff, Init(now, live), steps))
  {
    if steps == [] {
    } else {
      var front := steps[..|steps| - 1];
      RunKeepsFresh(aff, now, live, front);
      RunKeepsInv(aff, now, live, front);
      StepKeepsFresh(aff, Run(aff, Init(now, live), front), steps[|steps| - 1]);
    }
  }

  /** If the entry is served, its baseline is absent or at least as new as every change that has
      bumped its plan. */
  predicate UpToDate(w: World, key: Key) {
    Hit(w, key) ==>
      var b := w.entries[key].baseline;
      b.None? || forall k :: k in Bumps(w.bumps, w.entries[key].plan) ==> k <= b.value
  }

  /** So every hit is up to date where moreover no refresh straddles a clear. */
  lemma HitsAreFresh(aff: Affected, now: nat, live: nat, steps: seq<Step>, key: Key)
    requires OrderlyRun(aff, Init(now, live), steps) && PromptRun(aff, Init(now, live), steps)
    ensures UpToDate(Run(aff, Init(now, live), steps), key)
  {
    var w := Run(aff, Init(now, live), steps);
    GenerationSafety(aff, now, live, steps, key);
    RunKeepsFresh(aff, now, live, steps);
    if Hit(w, key) { assert AtLeast(w.entries[key].baseline, w.entries[key].cleared); }
  }
}
