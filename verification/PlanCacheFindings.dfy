/**
  Three ways a hit can carry a baseline older than a change that has already bumped its plan:
  the bump of an older event is run again after a newer one (its cache writes are not
  undone when its transaction rolls back), or the first or the second SET of a refresh of
  `om:plans` straddles a clear. Each is shown for a whole family of runs that avoid the others.
 */
module PlanCacheFindings {
  import opened Tenants
  import opened PlanCache

  /** The entry under `key` would be served although its baseline lacks the change `j`. */
  predicate ServesOld(w: World, key: Key, j: Change) {
    && Hit(w, key) && j in Bumps(w.bumps, w.entries[key].plan)
    && w.entries[key].baseline.Some? && w.entries[key].baseline.value < j
  }

  /** A run, with what is known of it so far. */
  ghost predicate Story(aff: Affected, live: nat, steps: seq<Step>, w: World, prompt: bool, orderly: bool) {
    && Run(aff, Init(0, live), steps) == w
    && (prompt ==> PromptRun(aff, Init(0, live), steps))
    && (orderly ==> OrderlyRun(aff, Init(0, live), steps))
  }

  lemma Then(aff: Affected, live: nat, steps: seq<Step>, w: World, prompt: bool, orderly: bool, s: Step)
    requires Story(aff, live, steps, w, prompt, orderly)
    requires (prompt ==> Prompt(w, s)) && (orderly ==> Orderly(w, s))
    ensures Story(aff, live, steps + [s], Next(aff, w, s), prompt, orderly)
  {
    RunSnoc(aff, Init(0, live), steps, s);
    assert (steps + [s])[..|steps|] == steps;
  }

  datatype Tale = Tale(steps: seq<Step>, world: World)

  lemma Mgets(aff: Affected, live: nat, t: Tale, prompt: bool, orderly: bool, r: nat, key: Key) returns (t': Tale)
    requires Story(aff, live, t.steps, t.world, prompt, orderly)
    requires r !in t.world.readers && key !in t.world.entries
    ensures Story(aff, live, t'.steps, t'.world, prompt, orderly)
    ensures t'.world == t.world.(readers := t'.world.readers)
    ensures t'.world.readers.Keys == t.world.readers.Keys + {r}
    ensures var d := t'.world.readers[r];
            && d.phase == Started && d.started == t.world.now
            && forall p :: StampOf(d, p) == Generation(t.world.gens, t.world.now, p)
  {
    Then(aff, live, t.steps, t.world, prompt, orderly, Mget(r, key));
    t' := Tale(t.steps + [Mget(r, key)], MgetStep(t.world, r, key));
  }

  /** MGET and plan lookup of reader `r`, of a key not in the cache. */
  lemma Looks(aff: Affected, live: nat, t: Tale, prompt: bool, orderly: bool, r: nat, p: Plan, key: Key)
    returns (t': Tale)
    requires Story(aff, live, t.steps, t.world, prompt, orderly)
    requires r !in t.world.readers && key !in t.world.entries
    ensures Story(aff, live, t'.steps, t'.world, prompt, orderly)
    ensures t'.world == t.world.(readers := t'.world.readers)
    ensures t'.world.readers.Keys == t.world.readers.Keys + {r}
    ensures var d := t'.world.readers[r];
            var cached := Get(t.world.plans, t.world.now);
            && d.phase == (if cached.Some? then Resolved(p, cached) else Missed(p))
            && d.started == t.world.now
            && StampOf(d, p) == Generation(t.world.gens, t.world.now, p)
  {
    var t1 := Mgets(aff, live, t, prompt, orderly, r, key);
    Then(aff, live, t1.steps, t1.world, prompt, orderly, Lookup(r, p));
    t' := Tale(t1.steps + [Lookup(r, p)], LookupStep(t1.world, r, p));
  }

  lemma Fetches(aff: Affected, live: nat, t: Tale, prompt: bool, orderly: bool, r: nat) returns (t': Tale)
    requires Story(aff, live, t.steps, t.world, prompt, orderly)
    requires r in t.world.readers && t.world.readers[r].phase.Missed?
    ensures Story(aff, live, t'.steps, t'.world, prompt, orderly)
    ensures t'.world == t.world.(readers := t'.world.readers) && r in t'.world.readers
    ensures t'.world.readers[r]
         == t.world.readers[r].(phase := Fetched(t.world.readers[r].phase.plan, t.world.live))
    ensures t'.world.readers.Keys == t.world.readers.Keys
  {
    Then(aff, live, t.steps, t.world, prompt, orderly, Fetch(r, true));
    t' := Tale(t.steps + [Fetch(r, true)], FetchStep(t.world, r, true));
  }

  /** The first SET of a refresh. */
  lemma StoresPlans(aff: Affected, live: nat, t: Tale, prompt: bool, orderly: bool, r: nat) returns (t': Tale)
    requires Story(aff, live, t.steps, t.world, prompt, orderly)
    requires r in t.world.readers && t.world.readers[r].phase.Fetched?
    requires prompt ==> !Straddles(t.world, r)
    ensures Story(aff, live, t'.steps, t'.world, prompt, orderly)
    ensures t'.world == t.world.(readers := t'.world.readers, plans := t'.world.plans)
    ensures r in t'.world.readers && t'.world.readers.Keys == t.world.readers.Keys
    ensures var d := t.world.readers[r];
            && t'.world.readers[r] == d.(phase := Stored(d.phase.plan, d.phase.version))
            && t'.world.plans == Some(Keyed(d.phase.version, t.world.now + CATALOG_TTL))
  {
    Then(aff, live, t.steps, t.world, prompt, orderly, StorePlans(r));
    t' := Tale(t.steps + [StorePlans(r)], StorePlansStep(t.world, r));
  }

  /** The second. */
  lemma StoresStale(aff: Affected, live: nat, t: Tale, prompt: bool, orderly: bool, r: nat) returns (t': Tale)
    requires Story(aff, live, t.steps, t.world, prompt, orderly)
    requires r in t.world.readers && t.world.readers[r].phase.Stored?
    requires prompt ==> !Straddles(t.world, r)
    ensures Story(aff, live, t'.steps, t'.world, prompt, orderly)
    ensures t'.world == t.world.(readers := t'.world.readers, stale := t'.world.stale)
    ensures r in t'.world.readers && t'.world.readers.Keys == t.world.readers.Keys
    ensures var d := t.world.readers[r];
            && t'.world.readers[r] == d.(phase := Resolved(d.phase.plan, Some(d.phase.version)))
            && t'.world.stale == Some(Keyed(d.phase.version, t.world.now + CATALOG_STALE_TTL))
  {
    Then(aff, live, t.steps, t.world, prompt, orderly, StoreStale(r));
    t' := Tale(t.steps + [StoreStale(r)], StoreStaleStep(t.world, r));
  }

  /** Both at once, with no newer change cleared: a prompt refresh. */
  lemma StoresBoth(aff: Affected, live: nat, t: Tale, r: nat) returns (t': Tale)
    requires Story(aff, live, t.steps, t.world, true, false)
    requires r in t.world.readers && t.world.readers[r].phase.Fetched?
    requires forall k :: k in t.world.cleared ==> k <= t.world.readers[r].phase.version
    ensures Story(aff, live, t'.steps, t'.world, true, false)
    ensures t'.world == t.world.(readers := t'.world.readers, plans := t'.world.plans, stale := t'.world.stale)
    ensures r in t'.world.readers
    ensures var d := t.world.readers[r];
            t'.world.readers[r] == d.(phase := Resolved(d.phase.plan, Some(d.phase.version)))
  {
    t' := StoresPlans(aff, live, t, true, false, r);
    t' := StoresStale(aff, live, t', true, false, r);
  }

  /** The Catalog is down: the stale copy answers. */
  lemma FallsBack(aff: Affected, live: nat, t: Tale, prompt: bool, orderly: bool, r: nat) returns (t': Tale)
    requires Story(aff, live, t.steps, t.world, prompt, orderly)
    requires r in t.world.readers && t.world.readers[r].phase.Missed?
    ensures Story(aff, live, t'.steps, t'.world, prompt, orderly)
    ensures t'.world == t.world.(readers := t'.world.readers) && r in t'.world.readers
    ensures t'.world.readers[r] == t.world.readers[r].(
              phase := Resolved(t.world.readers[r].phase.plan, Get(t.world.stale, t.world.now)))
  {
    Then(aff, live, t.steps, t.world, prompt, orderly, Fetch(r, false));
    t' := Tale(t.steps + [Fetch(r, false)], FetchStep(t.world, r, false));
  }

  lemma BackFills(aff: Affected, live: nat, t: Tale, prompt: bool, orderly: bool, r: nat, key: Key) returns (t': Tale)
    requires Story(aff, live, t.steps, t.world, prompt, orderly)
    requires r in t.world.readers && t.world.readers[r].phase.Resolved?
    requires t.world.now <= t.world.readers[r].started + REQUEST_TIMEOUT
    ensures Story(aff, live, t'.steps, t'.world, prompt, orderly)
    ensures t'.world == t.world.(readers := t'.world.readers, entries := t'.world.entries)
    ensures key in t'.world.entries
    ensures var d := t.world.readers[r];
            var e := t'.world.entries[key];
            && e.plan == d.phase.plan && e.baseline == d.phase.baseline
            && e.gen == StampOf(d, d.phase.plan) && e.expires == t.world.now + BASE_TTL
  {
    Then(aff, live, t.steps, t.world, prompt, orderly, BackFill(r, key, 0));
    t' := Tale(t.steps + [BackFill(r, key, 0)], BackFillStep(t.world, r, key, 0));
  }

  /** The consumer's clear and bump for a change to one plan. */
  lemma Changes(aff: Affected, live: nat, t: Tale, prompt: bool, orderly: bool, k: Change, p: Plan) returns (t': Tale)
    requires Story(aff, live, t.steps, t.world, prompt, orderly)
    requires aff(k) == [p] && k <= t.world.live && (orderly ==> k !in Bumps(t.world.bumps, p))
    ensures Story(aff, live, t'.steps, t'.world, prompt, orderly)
    ensures t'.world.plans == None && t'.world.cleared == t.world.cleared + {k}
    ensures p in t'.world.gens && t'.world.gens[p] == Keyed(k, t.world.now + GENERATION_TTL)
    ensures Bumps(t'.world.bumps, p) == Bumps(t.world.bumps, p) + [k]
    ensures t'.world.now == t.world.now && t'.world.live == t.world.live
    ensures t'.world.entries == t.world.entries && t'.world.readers == t.world.readers
  {
    Then(aff, live, t.steps, t.world, prompt, orderly, Clear(k));
    var w1 := ClearStep(aff, t.world, k);
    assert w1.consumers[k] == [p];
    Then(aff, live, t.steps + [Clear(k)], w1, prompt, orderly, Bump(k));
    t' := Tale(t.steps + [Clear(k)] + [Bump(k)], BumpStep(w1, k));
  }

  lemma Publishes(aff: Affected, live: nat, t: Tale, prompt: bool, orderly: bool) returns (t': Tale)
    requires Story(aff, live, t.steps, t.world, prompt, orderly)
    ensures Story(aff, live, t'.steps, t'.world, prompt, orderly)
    ensures t'.world == t.world.(live := t.world.live + 1)
  {
    Then(aff, live, t.steps, t.world, prompt, orderly, Publish);
    t' := Tale(t.steps + [Publish], t.world.(live := t.world.live + 1));
  }

  /** A reader that has fetched the catalog as it was before the change `j`, which has since
      been cleared and bumped. */
  lemma FetchedBefore(aff: Affected, j: Change, p: Plan, key: Key) returns (t: Tale)
    requires j > 0 && aff(j) == [p]
    ensures Story(aff, j - 1, t.steps, t.world, false, true)
    ensures t.world.readers.Keys == {0} && t.world.readers[0].phase == Fetched(p, j - 1)
    ensures t.world.entries == map[] && t.world.now == 0
    ensures Bumps(t.world.bumps, p) == [j]
    ensures p in t.world.gens && t.world.gens[p] == Keyed(j, GENERATION_TTL)
  {
    t := Tale([], Init(0, j - 1));
    t := Looks(aff, j - 1, t, false, true, 0, p, key);
    t := Fetches(aff, j - 1, t, false, true, 0);
    t := Publishes(aff, j - 1, t, false, true);
    t := Changes(aff, j - 1, t, false, true, j, p);
  }

  /** Any change: a refresh that fetched before it and stores after its clear puts the old
      catalog back, and a later reader stamps it with the new generation. Every bump is run
      once. */
  lemma StraddlingRefreshServesOld(aff: Affected, j: Change, p: Plan, key: Key) returns (steps: seq<Step>)
    requires j > 0 && aff(j) == [p]
    ensures OrderlyRun(aff, Init(0, j - 1), steps)
    ensures ServesOld(Run(aff, Init(0, j - 1), steps), key, j)
  {
    var t := FetchedBefore(aff, j, p, key);
    assert Bumps(t.world.bumps, p)[0] == j;
    t := StoresPlans(aff, j - 1, t, false, true, 0);
    t := Looks(aff, j - 1, t, false, true, 1, p, key);
    t := BackFills(aff, j - 1, t, false, true, 1, key);
    steps := t.steps;
  }

  /** A reader that has just set om:plans. */
  lemma JustStored(aff: Affected, live: nat, p: Plan, key: Key) returns (t: Tale)
    ensures Story(aff, live, t.steps, t.world, false, true)
    ensures t.world.readers.Keys == {0} && t.world.readers[0].phase == Stored(p, live)
    ensures t.world.entries == map[] && t.world.now == 0 && t.world.live == live && t.world.bumps == map[]
  {
    t := Tale([], Init(0, live));
    t := Looks(aff, live, t, false, true, 0, p, key);
    t := Fetches(aff, live, t, false, true, 0);
    t := StoresPlans(aff, live, t, false, true, 0);
  }

  /** A reader that has set om:plans before the change `j` and is yet to set the stale copy; the
      change has since been cleared and bumped. */
  lemma StoredBefore(aff: Affected, j: Change, p: Plan, key: Key) returns (t: Tale)
    requires j > 0 && aff(j) == [p]
    ensures Story(aff, j - 1, t.steps, t.world, false, true)
    ensures t.world.readers.Keys == {0} && t.world.readers[0].phase == Stored(p, j - 1)
    ensures t.world.entries == map[] && t.world.now == 0 && t.world.plans.None?
    ensures Bumps(t.world.bumps, p) == [j]
    ensures p in t.world.gens && t.world.gens[p] == Keyed(j, GENERATION_TTL)
  {
    t := JustStored(aff, j - 1, p, key);
    t := Publishes(aff, j - 1, t, false, true);
    t := Changes(aff, j - 1, t, false, true, j, p);
  }

  /** ... and then the stale copy, after which another reader finds no primary. */
  lemma StaleAfter(aff: Affected, j: Change, p: Plan, key: Key) returns (t: Tale)
    requires j > 0 && aff(j) == [p]
    ensures Story(aff, j - 1, t.steps, t.world, false, true)
    ensures 1 in t.world.readers
    ensures var d := t.world.readers[1]; d.phase == Missed(p) && d.started == 0 && StampOf(d, p) == Some(j)
    ensures t.world.now == 0 && t.world.stale == Some(Keyed(j - 1, CATALOG_STALE_TTL))
    ensures Bumps(t.world.bumps, p) == [j]
    ensures p in t.world.gens && t.world.gens[p] == Keyed(j, GENERATION_TTL)
  {
    t := StoredBefore(aff, j, p, key);
    t := StoresStale(aff, j - 1, t, false, true, 0);
    t := Looks(aff, j - 1, t, false, true, 1, p, key);
  }

  /** Any change between the two SETs of a refresh: its clear removes the new primary, but the
      stale copy comes after it, and with the Catalog down a later reader takes that. */
  lemma LateStaleCopyServesOld(aff: Affected, j: Change, p: Plan, key: Key) returns (steps: seq<Step>)
    requires j > 0 && aff(j) == [p]
    ensures OrderlyRun(aff, Init(0, j - 1), steps)
    ensures ServesOld(Run(aff, Init(0, j - 1), steps), key, j)
  {
    var t := StaleAfter(aff, j, p, key);
    assert Bumps(t.world.bumps, p)[0] == j;
    t := FallsBack(aff, j - 1, t, false, true, 1);
    t := BackFills(aff, j - 1, t, false, true, 1, key);
    steps := t.steps;
  }

  /** A reader that fetched under the generation `k`, when the Catalog was one short of `j`. */
  lemma FetchedBetween(aff: Affected, k: Change, j: Change, p: Plan, key: Key) returns (t: Tale)
    requires k < j && aff(k) == [p]
    ensures Story(aff, j - 1, t.steps, t.world, true, false)
    ensures t.world.now == 0 && t.world.live == j - 1 && Bumps(t.world.bumps, p) == [k]
    ensures t.world.cleared == {k}
    ensures 0 in t.world.readers
    ensures var d := t.world.readers[0];
            d.phase == Fetched(p, j - 1) && d.started == 0 && StampOf(d, p) == Some(k)
  {
    t := Tale([], Init(0, j - 1));
    t := Changes(aff, j - 1, t, true, false, k, p);
    t := Looks(aff, j - 1, t, true, false, 0, p, key);
    t := Fetches(aff, j - 1, t, true, false, 0);
  }

  /** It stores what it fetched, in time. */
  lemma StoredBetween(aff: Affected, k: Change, j: Change, p: Plan, key: Key) returns (t: Tale)
    requires k < j && aff(k) == [p]
    ensures Story(aff, j - 1, t.steps, t.world, true, false)
    ensures t.world.now == 0 && t.world.live == j - 1 && Bumps(t.world.bumps, p) == [k]
    ensures 0 in t.world.readers
    ensures var d := t.world.readers[0];
            d.phase == Resolved(p, Some(j - 1)) && d.started == 0 && StampOf(d, p) == Some(k)
  {
    t := FetchedBetween(aff, k, j, p, key);
    t := StoresBoth(aff, j - 1, t, 0);
  }

  /** An entry built so. */
  lemma BuiltBetween(aff: Affected, k: Change, j: Change, p: Plan, key: Key) returns (t: Tale)
    requires k < j && aff(k) == [p]
    ensures Story(aff, j - 1, t.steps, t.world, true, false)
    ensures t.world.now == 0 && t.world.live == j - 1 && Bumps(t.world.bumps, p) == [k]
    ensures key in t.world.entries
    ensures var e := t.world.entries[key];
            e.plan == p && e.gen == Some(k) && e.baseline == Some(j - 1) && e.expires == BASE_TTL
  {
    t := StoredBetween(aff, k, j, p, key);
    t := BackFills(aff, j - 1, t, true, false, 0, key);
  }

  /** ... and after it the newer change has been published and bumped. */
  lemma BumpedAfter(aff: Affected, k: Change, j: Change, p: Plan, key: Key) returns (t: Tale)
    requires k < j && aff(k) == [p] && aff(j) == [p]
    ensures Story(aff, j - 1, t.steps, t.world, true, false)
    ensures t.world.now == 0 && t.world.live == j && Bumps(t.world.bumps, p) == [k, j]
    ensures key in t.world.entries
    ensures var e := t.world.entries[key];
            e.plan == p && e.gen == Some(k) && e.baseline == Some(j - 1) && e.expires == BASE_TTL
  {
    var t1 := BuiltAndPublished(aff, k, j, p, key);
    t := Changes(aff, j - 1, t1, true, false, j, p);
  }

  lemma BuiltAndPublished(aff: Affected, k: Change, j: Change, p: Plan, key: Key) returns (t: Tale)
    requires k < j && aff(k) == [p]
    ensures Story(aff, j - 1, t.steps, t.world, true, false)
    ensures t.world.now == 0 && t.world.live == j && Bumps(t.world.bumps, p) == [k]
    ensures key in t.world.entries
    ensures var e := t.world.entries[key];
            e.plan == p && e.gen == Some(k) && e.baseline == Some(j - 1) && e.expires == BASE_TTL
  {
    var t0 := BuiltBetween(aff, k, j, p, key);
    t := Publishes(aff, j - 1, t0, true, false);
  }

  /** Any two changes to one plan: an entry built between them is served again once the older
      event's bump is repeated. Every refresh is prompt. */
  lemma RepeatedBumpRevives(aff: Affected, k: Change, j: Change, p: Plan, key: Key) returns (steps: seq<Step>)
    requires k < j && aff(k) == [p] && aff(j) == [p]
    ensures PromptRun(aff, Init(0, j - 1), steps)
    ensures ServesOld(Run(aff, Init(0, j - 1), steps), key, j)
  {
    var t := BumpedAfter(aff, k, j, p, key);
    t := Changes(aff, j - 1, t, true, false, k, p);
    assert Bumps(t.world.bumps, p)[1] == j;
    steps := t.steps;
  }
}
