/**
  The I-8 read path and the catalog consumer as they run: an object over the cache keys and
  the Catalog. What an undisturbed call does is the corresponding steps of the protocol.
 */
module MembershipCache {
  import opened Tenants
  import opened PlanCache

  const KNOWN_PLANS: seq<Plan> := [Starter, Pro, Enterprise]

  function Code(p: Plan): string {
    match p
    case Starter => "starter"
    case Pro => "pro"
    case Enterprise => "enterprise"
  }

  /** The plans a payload's code stands for: the one it names, or all of them. */
  function PlansNamed(code: string): seq<Plan> {
    if code == Code(Starter) then [Starter]
    else if code == Code(Pro) then [Pro]
    else if code == Code(Enterprise) then [Enterprise]
    else KNOWN_PLANS
  }

  /** affectedPlans: a search through the known plans. */
  method AffectedPlans(code: string) returns (plans: seq<Plan>)
    ensures plans == PlansNamed(code)
    ensures (exists p :: Code(p) == code) ==> |plans| == 1 && Code(plans[0]) == code
    ensures (forall p :: Code(p) != code) ==> plans == KNOWN_PLANS
    ensures plans == if code == "starter" then [Starter] else if code == "pro" then [Pro]
                     else if code == "enterprise" then [Enterprise] else [Starter, Pro, Enterprise]
  {
    for i := 0 to |KNOWN_PLANS|
      invariant forall j :: 0 <= j < i ==> Code(KNOWN_PLANS[j]) != code
    {
      if Code(KNOWN_PLANS[i]) == code {
        CodesDiffer(KNOWN_PLANS[i]);
        return [KNOWN_PLANS[i]];
      }
    }
    forall p ensures Code(p) != code {
      assert p == KNOWN_PLANS[0] || p == KNOWN_PLANS[1] || p == KNOWN_PLANS[2];
    }
    return KNOWN_PLANS;
  }

  lemma CodesDiffer(p: Plan)
    ensures PlansNamed(Code(p)) == [p]
  {
    assert Code(Starter)[0] == 's' && Code(Pro)[0] == 'p' && Code(Enterprise)[0] == 'e';
  }

  /** The steps of one I-8 request; those its branches do not reach change nothing. */
  function Requested(w: World, r: nat, key: Key, plan: Plan, up: bool, jitter: int): World {
    BackFillStep(Answered(LookupStep(MgetStep(w, r, key), r, plan), r, up), r, key, jitter)
  }

  /** Plans, past its first look at om:plans. */
  function Answered(w: World, r: nat, up: bool): World {
    StoreStaleStep(StorePlansStep(FetchStep(w, r, up), r), r)
  }

  function RequestSteps(r: nat, key: Key, plan: Plan, up: bool, jitter: int): seq<Step> {
    [Mget(r, key), Lookup(r, plan), Fetch(r, up), StorePlans(r), StoreStale(r), BackFill(r, key, jitter)]
  }

  lemma Extend(aff: Affected, w: World, steps: seq<Step>, w1: World, s: Step, w2: World)
    requires Run(aff, w, steps) == w1 && Next(aff, w1, s) == w2
    ensures Run(aff, w, steps + [s]) == w2
  {
    RunSnoc(aff, w, steps, s);
  }

  lemma AskingIsARun(aff: Affected, w: World, r: nat, key: Key, plan: Plan, up: bool)
    ensures Run(aff, w, [Mget(r, key), Lookup(r, plan), Fetch(r, up)])
         == FetchStep(LookupStep(MgetStep(w, r, key), r, plan), r, up)
  {
    var w1 := MgetStep(w, r, key);
    var w2 := LookupStep(w1, r, plan);
    Extend(aff, w, [], w, Mget(r, key), w1);
    Extend(aff, w, [] + [Mget(r, key)], w1, Lookup(r, plan), w2);
    Extend(aff, w, [] + [Mget(r, key)] + [Lookup(r, plan)], w2, Fetch(r, up), FetchStep(w2, r, up));
    assert [] + [Mget(r, key)] + [Lookup(r, plan)] + [Fetch(r, up)] == [Mget(r, key), Lookup(r, plan), Fetch(r, up)];
  }

  lemma StoringIsARun(aff: Affected, w: World, front: seq<Step>, w3: World, r: nat, key: Key, jitter: int)
    requires Run(aff, w, front) == w3
    ensures Run(aff, w, front + [StorePlans(r)] + [StoreStale(r)] + [BackFill(r, key, jitter)])
         == BackFillStep(StoreStaleStep(StorePlansStep(w3, r), r), r, key, jitter)
  {
    var w4 := StorePlansStep(w3, r);
    var w5 := StoreStaleStep(w4, r);
    Extend(aff, w, front, w3, StorePlans(r), w4);
    Extend(aff, w, front + [StorePlans(r)], w4, StoreStale(r), w5);
    Extend(aff, w, front + [StorePlans(r)] + [StoreStale(r)], w5, BackFill(r, key, jitter),
           BackFillStep(w5, r, key, jitter));
  }

  lemma RequestedIsARun(aff: Affected, w: World, r: nat, key: Key, plan: Plan, up: bool, jitter: int)
    ensures Run(aff, w, RequestSteps(r, key, plan, up, jitter)) == Requested(w, r, key, plan, up, jitter)
  {
    var front := [Mget(r, key), Lookup(r, plan), Fetch(r, up)];
    AskingIsARun(aff, w, r, key, plan, up);
    StoringIsARun(aff, w, front, FetchStep(LookupStep(MgetStep(w, r, key), r, plan), r, up), r, key, jitter);
    assert front + [StorePlans(r)] + [StoreStale(r)] + [BackFill(r, key, jitter)]
        == RequestSteps(r, key, plan, up, jitter);
  }

  function Asked(w: World, phase: Phase): Reader {
    var gens := map p | p in w.gens && w.now < w.gens[p].expires :: w.gens[p].value;
    Reader(phase, gens, w.now, w.bumps, w.cleared)
  }

  /** A request up to the answer of `om:plans`. */
  lemma LookedUp(w: World, r: nat, key: Key, plan: Plan)
    requires r !in w.readers && !Hit(w, key)
    ensures var cached := Get(w.plans, w.now);
            var phase := if cached.Some? then Resolved(plan, cached) else Missed(plan);
            LookupStep(MgetStep(w, r, key), r, plan) == At(w, w, r, phase)
  {
    var w1 := MgetStep(w, r, key);
    var w2 := LookupStep(w1, r, plan);
    assert w1.readers[r := w2.readers[r]] == w.readers[r := w2.readers[r]];
  }

  /** What Plans leaves in the two catalog keys. */
  function Refreshed(w: World, up: bool): World {
    if Get(w.plans, w.now).None? && up
    then w.(plans := Some(Keyed(w.live, w.now + CATALOG_TTL)),
            stale := Some(Keyed(w.live, w.now + CATALOG_STALE_TTL)))
    else w
  }

  /** The plan version it answers with. */
  function Baseline(w: World, up: bool): Option<nat> {
    var cached := Get(w.plans, w.now);
    if cached.Some? then cached else if up then Some(w.live) else Get(w.stale, w.now)
  }

  /** The catalog through its cache: `om:plans` while it lasts, 600 s from a refresh; else the
      Catalog, which refreshes both copies; else the stale copy, which lasts a day. */
  lemma CatalogAnswers(w: World, up: bool)
    ensures var held := w.plans.Some? && w.now < w.plans.value.expires;
            var w' := Refreshed(w, up);
            && Baseline(w, up) == (if held then Some(w.plans.value.value)
                                   else if up then Some(w.live)
                                   else if w.stale.Some? && w.now < w.stale.value.expires then Some(w.stale.value.value)
                                   else None)
            && w'.plans == (if !held && up then Some(Keyed(w.live, w.now + 600_000_000_000)) else w.plans)
            && w'.stale == (if !held && up then Some(Keyed(w.live, w.now + 86_400_000_000_000)) else w.stale)
            && w' == w.(plans := w'.plans, stale := w'.stale)
  {
  }

  /** Rewriting one reader twice. */
  lemma Rewritten(readers: map<nat, Reader>, r: nat, a: Reader, b: Reader)
    ensures readers[r := a][r := b] == readers[r := b]
  {
  }

  /** The world with reader `r` of `w` in the given phase. */
  function At(w: World, w1: World, r: nat, phase: Phase): World {
    w1.(readers := w.readers[r := Asked(w, phase)])
  }

  lemma FetchesAt(w: World, r: nat, plan: Plan)
    ensures FetchStep(At(w, w, r, Missed(plan)), r, true) == At(w, w, r, Fetched(plan, w.live))
  {
    Rewritten(w.readers, r, Asked(w, Missed(plan)), Asked(w, Fetched(plan, w.live)));
  }

  lemma StoresAt(w: World, w1: World, r: nat, plan: Plan, v: nat)
    requires w1.now == w.now
    ensures StorePlansStep(At(w, w1, r, Fetched(plan, v)), r)
         == At(w, w1.(plans := Some(Keyed(v, w.now + CATALOG_TTL))), r, Stored(plan, v))
    ensures StoreStaleStep(At(w, w1, r, Stored(plan, v)), r)
         == At(w, w1.(stale := Some(Keyed(v, w.now + CATALOG_STALE_TTL))), r, Resolved(plan, Some(v)))
  {
    Rewritten(w.readers, r, Asked(w, Fetched(plan, v)), Asked(w, Stored(plan, v)));
    Rewritten(w.readers, r, Asked(w, Stored(plan, v)), Asked(w, Resolved(plan, Some(v))));
  }

  lemma Refreshes(w: World, r: nat, plan: Plan)
    requires Get(w.plans, w.now).None?
    ensures Answered(At(w, w, r, Missed(plan)), r, true) == At(w, Refreshed(w, true), r, Resolved(plan, Some(w.live)))
  {
    FetchesAt(w, r, plan);
    StoresAt(w, w, r, plan, w.live);
    StoresAt(w, w.(plans := Some(Keyed(w.live, w.now + CATALOG_TTL))), r, plan, w.live);
  }

  lemma FallsBack(w: World, r: nat, plan: Plan)
    ensures Answered(At(w, w, r, Missed(plan)), r, false) == At(w, w, r, Resolved(plan, Get(w.stale, w.now)))
  {
    Rewritten(w.readers, r, Asked(w, Missed(plan)), Asked(w, Resolved(plan, Get(w.stale, w.now))));
  }

  lemma Resolves(w: World, r: nat, plan: Plan, up: bool)
    ensures var cached := Get(w.plans, w.now);
            var phase := if cached.Some? then Resolved(plan, cached) else Missed(plan);
            Answered(At(w, w, r, phase), r, up) == At(w, Refreshed(w, up), r, Resolved(plan, Baseline(w, up)))
  {
    if Get(w.plans, w.now).None? {
      if up { Refreshes(w, r, plan); } else { FallsBack(w, r, plan); }
    }
  }

  /** The entry a request that misses leaves behind. */
  function Built(w: World, plan: Plan, up: bool, jitter: int): Entry
    requires -(JITTER as int) <= jitter < JITTER
  {
    Entry(plan, Generation(w.gens, w.now, plan), Baseline(w, up), w.now + (BASE_TTL + jitter), w.now,
          Bumps(w.bumps, plan), w.cleared)
  }

  function Left(w: World, key: Key, plan: Plan, up: bool, jitter: int): World
    requires -(JITTER as int) <= jitter < JITTER
  {
    Refreshed(w, up).(entries := w.entries[key := Built(w, plan, up, jitter)])
  }

  /** A miss refreshes the catalog keys and leaves one stamped entry. */
  lemma RequestMissed(w: World, r: nat, key: Key, plan: Plan, up: bool, jitter: int)
    requires r !in w.readers && -(JITTER as int) <= jitter < JITTER && !Hit(w, key)
    ensures Requested(w, r, key, plan, up, jitter) == Left(w, key, plan, up, jitter)
  {
    LookedUp(w, r, key, plan);
    Resolves(w, r, plan, up);
    BackFilled(w, Refreshed(w, up), r, key, plan, up, jitter);
  }

  lemma BackFilled(w: World, w1: World, r: nat, key: Key, plan: Plan, up: bool, jitter: int)
    requires r !in w.readers && -(JITTER as int) <= jitter < JITTER
    requires w1 == w.(plans := w1.plans, stale := w1.stale)
    ensures BackFillStep(w1.(readers := w.readers[r := Asked(w, Resolved(plan, Baseline(w, up)))]), r, key, jitter)
         == w1.(entries := w.entries[key := Built(w, plan, up, jitter)])
  {
    assert w.readers[r := Asked(w, Resolved(plan, Baseline(w, up)))] - {r} == w.readers;
  }

  /** A hit is answered from the entry, and changes nothing. */
  lemma RequestHit(w: World, r: nat, key: Key, plan: Plan, up: bool, jitter: int)
    requires r !in w.readers && Hit(w, key)
    ensures Requested(w, r, key, plan, up, jitter) == w
  {
  }

  /** One entry has been written: for the plan, stamped with its generation as it is, with the
      baseline found, for 270 to 330 s. */
  predicate Filled(w: World, w': World, key: Key, plan: Plan, baseline: Option<nat>, jitter: int) {
    && w'.entries.Keys == w.entries.Keys + {key}
    && (forall k :: k in w.entries && k != key ==> w'.entries[k] == w.entries[k])
    && var e := w'.entries[key];
       && e.plan == plan && e.baseline == baseline
       && e.gen == (if plan in w.gens && w.now < w.gens[plan].expires then Some(w.gens[plan].value) else None)
       && w.now + 270_000_000_000 <= e.expires == w.now + 300_000_000_000 + jitter < w.now + 330_000_000_000
  }

  lemma LeftIsFilled(w: World, key: Key, plan: Plan, up: bool, jitter: int)
    requires -(JITTER as int) <= jitter < JITTER
    ensures Filled(w, Left(w, key, plan, up, jitter), key, plan, Baseline(w, up), jitter)
    ensures Hit(Left(w, key, plan, up, jitter), key)
  {
  }

  /** What a miss leaves is a hit for the next request. */
  lemma MissRequests(w: World, w': World, r: nat, key: Key, plan: Plan, up: bool, jitter: int)
    requires r !in w.readers && -(JITTER as int) <= jitter < JITTER && !Hit(w, key)
    requires w' == Left(w, key, plan, up, jitter)
    ensures w' == Requested(w, r, key, plan, up, jitter)
    ensures Hit(w', key) && w'.entries[key].baseline == Baseline(w, up)
    ensures Filled(w, w', key, plan, Baseline(w, up), jitter)
  {
    RequestMissed(w, r, key, plan, up, jitter);
    LeftIsFilled(w, key, plan, up, jitter);
  }

  /** The generations of the listed plans are `v`; the others are as they were. */
  predicate Stamped(was: map<Plan, Keyed>, gens: map<Plan, Keyed>, l: seq<Plan>, v: Keyed) {
    forall p :: if p in l then p in gens && gens[p] == v
                else (p in gens <==> p in was) && (p in gens ==> gens[p] == was[p])
  }

  lemma StampedNext(was: map<Plan, Keyed>, gens: map<Plan, Keyed>, l: seq<Plan>, i: nat, v: Keyed)
    requires i < |l| && Stamped(was, gens, l[..i], v)
    ensures Stamped(was, gens[l[i] := v], l[..i + 1], v)
  {
    assert l[..i + 1] == l[..i] + [l[i]];
  }

  /** What an I-8 caller gets. */
  datatype Answer = NotFound | Served(hit: bool, baseline: Option<nat>)

  class AuthZ {
    const code: Change -> string      // the code in each event's payload

    var now: nat
    var live: nat
    var plans: Option<Keyed>
    var stale: Option<Keyed>
    var gens: map<Plan, Keyed>
    var entries: map<Key, Entry>

    // History, which entries record, and requests and deliveries in progress elsewhere.
    var cleared: set<Change>
    var bumps: map<Plan, seq<Change>>
    ghost var readers: map<nat, Reader>
    ghost var consumers: map<Change, seq<Plan>>
    ghost var bumpedAt: map<Plan, nat>

    /** The plans each event affects. */
    ghost function Aff(): Affected { (k: Change) => PlansNamed(code(k)) }

    ghost function State(): World reads this {
      World(now, live, plans, stale, gens, entries, readers, consumers, cleared, bumps, bumpedAt)
    }

    /** One iteration of handlePlanChanged's loop. */
    method BumpPlan(k: Change, p: Plan)
      requires k in consumers && consumers[k] != [] && consumers[k][0] == p
      modifies `gens, `consumers, `bumps, `bumpedAt
      ensures State() == BumpStep(old(State()), k)
      ensures gens == old(gens)[p := Keyed(k, now + GENERATION_TTL)]
      ensures consumers == old(consumers)[k := old(consumers)[k][1..]]
    {
      gens := gens[p := Keyed(k, now + GENERATION_TTL)];
      consumers := consumers[k := consumers[k][1..]];
      bumpedAt := bumpedAt[p := now];
      bumps := bumps[p := Bumps(bumps, p) + [k]];
    }

    /** handlePlanChanged's loop over the affected plans. */
    method BumpPlans(k: Change, l: seq<Plan>)
      requires k in consumers && consumers[k] == l
      modifies `gens, `consumers, `bumps, `bumpedAt
      ensures State() == BumpedTimes(old(State()), k, |l|)
      ensures consumers == old(consumers)[k := []]
      ensures Stamped(old(gens), gens, l, Keyed(k, now + GENERATION_TTL))
    {
      for i := 0 to |l|
        invariant consumers == old(consumers)[k := l[i..]]
        invariant State() == BumpedTimes(old(State()), k, i)
        invariant Stamped(old(gens), gens, l[..i], Keyed(k, now + GENERATION_TTL))
      {
        StampedNext(old(gens), gens, l, i, Keyed(k, now + GENERATION_TTL));
        BumpPlan(k, l[i]);
      }
      assert l[..|l|] == l;
    }

    /** handlePlanChanged's DEL of both catalog keys. */
    method ClearPlans(k: Change, l: seq<Plan>)
      requires k <= live && l == PlansNamed(code(k))
      modifies `plans, `stale, `cleared, `consumers
      ensures State() == ClearStep(Aff(), old(State()), k)
      ensures plans.None? && stale.None? && consumers == old(consumers)[k := l]
    {
      plans, stale := None, None;
      cleared := cleared + {k};
      consumers := consumers[k := l];
    }

    /** handlePlanChanged: clear, then bump each plan the payload affects. */
    method HandlePlanChanged(k: Change)
      requires k <= live && k !in consumers
      modifies this
      ensures State() == BumpedTimes(ClearStep(Aff(), old(State()), k), k, |PlansNamed(code(k))|)
                         .(consumers := old(consumers))
      ensures plans.None? && stale.None? && entries == old(entries) && now == old(now)
      ensures forall p :: p in PlansNamed(code(k)) ==> p in gens && gens[p] == Keyed(k, now + 86_400_000_000_000)
      ensures forall p :: p !in PlansNamed(code(k)) ==>
                (p in gens <==> p in old(gens)) && (p in gens ==> gens[p] == old(gens)[p])
    {
      var l := AffectedPlans(code(k));
      ClearPlans(k, l);
      BumpPlans(k, l);
      assert old(consumers)[k := l][k := []] - {k} == old(consumers);
      consumers := consumers - {k};
    }

    /** Plans: through om:plans, refreshing both copies, falling back to the stale one. */
    method Plans(up: bool) returns (version: Option<nat>)
      modifies `plans, `stale
      ensures version == Baseline(old(State()), up)
      ensures State() == Refreshed(old(State()), up)
    {
      if plans.Some? && now < plans.value.expires {
        return Some(plans.value.value);
      }
      if !up {
        if stale.Some? && now < stale.value.expires {
          return Some(stale.value.value);
        }
        return None;
      }
      plans := Some(Keyed(live, now + CATALOG_TTL));
      stale := Some(Keyed(live, now + CATALOG_STALE_TTL));
      return Some(live);
    }

    /** getCached: the hit, if any, and the generations read with it. */
    method GetCached(key: Key) returns (hit: bool, read: map<Plan, Change>)
      ensures hit <==> Hit(State(), key)
      ensures hit <==> key in entries && now < entries[key].expires
                       && var p := entries[key].plan;
                          entries[key].gen == if p in gens && now < gens[p].expires then Some(gens[p].value) else None
      ensures forall p :: Generation(gens, now, p) == if p in read then Some(read[p]) else None
    {
      read := map p | p in gens && now < gens[p].expires :: gens[p].value;
      if key !in entries || now >= entries[key].expires {
        return false, read;
      }
      var p := entries[key].plan;
      return entries[key].gen == (if p in read then Some(read[p]) else None), read;
    }

    /** The entry written after a miss. */
    method BackFill(key: Key, plan: Plan, gen: Option<Change>, baseline: Option<nat>, jitter: int)
      requires -(JITTER as int) <= jitter < JITTER
      modifies `entries
      ensures entries == old(entries)[key := Entry(plan, gen, baseline, now + (BASE_TTL + jitter), now,
                                                   Bumps(bumps, plan), cleared)]
    {
      entries := entries[key := Entry(plan, gen, baseline, now + (BASE_TTL + jitter), now,
                                      Bumps(bumps, plan), cleared)];
    }

    /** A miss: the row's plan, the catalog through its cache and, if the cache could be read, the
        entry stamped with the generations read before. */
    method Build(key: Key, plan: Plan, read: Option<map<Plan, Change>>, up: bool, jitter: int)
      returns (baseline: Option<nat>)
      requires -(JITTER as int) <= jitter < JITTER
      requires read.Some? ==>
                 forall p :: Generation(gens, now, p) == if p in read.value then Some(read.value[p]) else None
      modifies `plans, `stale, `entries
      ensures baseline == Baseline(old(State()), up)
      ensures State() == if read.Some? then Left(old(State()), key, plan, up, jitter) else Refreshed(old(State()), up)
    {
      baseline := Plans(up);
      if read.Some? {
        BackFill(key, plan, if plan in read.value then Some(read.value[plan]) else None, baseline, jitter);
      }
    }

    /** GetMembership: `row` is the plan of the membership it reads, if there is one, `readable`
        whether the MGET succeeds and `up` whether the Catalog answers. With a readable cache
        and a row it is the request `r` of the protocol, undisturbed. */
    method GetMembership(ghost r: nat, key: Key, row: Option<Plan>, readable: bool, up: bool, jitter: int)
      returns (answer: Answer)
      requires -30_000_000_000 <= jitter < 30_000_000_000 && r !in readers
      modifies `plans, `stale, `entries
      ensures answer.Served? && answer.hit <==> readable && Hit(old(State()), key)
      ensures answer.NotFound? <==> !(readable && Hit(old(State()), key)) && row.None?
      ensures answer.NotFound? || answer.hit ==> State() == old(State())
      ensures answer.Served? && answer.hit ==> answer.baseline == entries[key].baseline
      ensures answer.Served? && !answer.hit ==> answer.baseline == Baseline(old(State()), up)
      ensures answer.Served? && !answer.hit ==>
                State() == if readable then Left(old(State()), key, row.value, up, jitter)
                           else Refreshed(old(State()), up)
      ensures answer.Served? && readable ==> Hit(State(), key) && entries[key].baseline == answer.baseline
      ensures readable && row.Some? ==> State() == Requested(old(State()), r, key, row.value, up, jitter)
      ensures answer.Served? && !answer.hit && readable ==>
                Filled(old(State()), State(), key, row.value, answer.baseline, jitter)
    {
      var read := None;
      if readable {
        var hit, gensRead := GetCached(key);
        if hit {
          if row.Some? {
            RequestHit(State(), r, key, row.value, up, jitter);
          }
          return Served(true, entries[key].baseline);
        }
        read := Some(gensRead);
      }
      if row.None? {
        return NotFound;
      }
      var baseline := Build(key, row.value, read, up, jitter);
      if readable {
        MissRequests(old(State()), State(), r, key, row.value, up, jitter);
      }
      return Served(false, baseline);
    }
  }

  /** The first `n` bumps of a delivery. */
  function BumpedTimes(w: World, k: Change, n: nat): World {
    if n == 0 then w else BumpStep(BumpedTimes(w, k, n - 1), k)
  }
}
