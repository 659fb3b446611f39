/**
  The last-owner guard (TM-8, TM-12, TM-13), over every run of the membership mutators with
  stale pre-transaction reads.
 */
module LastOwner {
  import opened Roles
  import opened RoleRuns

  lemma AnotherRemains(s: set<User>, u: User)
    requires |s| > 1
    ensures s - {u} != {}
  {
    assert s == (s - {u}) + (s * {u});
    assert s * {u} == {} || s * {u} == {u};
  }

  /** How each mutator changes the owner rows. */
  lemma CascadeOwners(w: World, u: User, rs: seq<Role>, ds: seq<Dept>)
    ensures OwnerRows(Cascade(w, u, rs, ds).tables) == OwnerRows(w.tables) - {u}
  {
    var t := Cascade(w, u, rs, ds).tables;
    forall v ensures v in OwnerRows(t) <==> v in OwnerRows(w.tables) - {u} {
      assert v in OwnerRows(t) <==> (v, TenantOwner) in t.roles;
      assert v in OwnerRows(w.tables) <==> (v, TenantOwner) in w.tables.roles;
    }
  }

  lemma OwnerRowIff(t: Tables, v: User)
    ensures v in OwnerRows(t) <==> (v, TenantOwner) in t.roles
  {
    assert (v, TenantOwner).0 == v;
  }

  lemma RolesGrow(t: Tables, t': Tables)
    requires t.roles <= t'.roles
    ensures OwnerRows(t) <= OwnerRows(t')
  {
    forall v | v in OwnerRows(t) ensures v in OwnerRows(t') { OwnerRowIff(t, v); OwnerRowIff(t', v); }
  }

  /** An accepted reconcile that takes the owner role. */
  predicate Takes(w: World, tx: Tx, gs: seq<Role>, rs: seq<Role>) {
    MayReconcile(w, tx, gs, rs) && TenantOwner in w.prior[tx].current - w.prior[tx].desired
  }

  /** A reconcile takes at most its target's owner row, and only past the guard. */
  lemma ReconcileOwners(w: World, tx: Tx, gs: seq<Role>, rs: seq<Role>)
    ensures var w' := ReconcileStep(w, tx, gs, rs);
            if Takes(w, tx, gs, rs)
            then |OwnerRows(w.tables)| > 1 && OwnerRows(w'.tables) == OwnerRows(w.tables) - {w.prior[tx].user}
            else OwnerRows(w.tables) <= OwnerRows(w'.tables)
  {
    var w' := ReconcileStep(w, tx, gs, rs);
    if w'.tables != w.tables {
      var u := w.prior[tx].user;
      var t, t' := w.tables, w'.tables;
      forall v ensures v in OwnerRows(t') <==>
        (v in OwnerRows(t) || (v == u && TenantOwner in gs)) && !(v == u && TenantOwner in rs)
      {
        OwnerRowIff(t, v);
        OwnerRowIff(t', v);
        PairIff(u, gs, v, TenantOwner);
        PairIff(u, rs, v, TenantOwner);
      }
    }
  }

  // ---- role rows ------------------------------------------------------------------

  lemma ReconcileKeepsAnOwner(w: World, tx: Tx, gs: seq<Role>, rs: seq<Role>)
    requires OwnerRows(w.tables) != {}
    ensures OwnerRows(ReconcileStep(w, tx, gs, rs).tables) != {}
  {
    ReconcileOwners(w, tx, gs, rs);
    if Takes(w, tx, gs, rs) { AnotherRemains(OwnerRows(w.tables), w.prior[tx].user); }
  }

  lemma RemoveKeepsAnOwner(w: World, u: User, rs: seq<Role>, ds: seq<Dept>)
    requires OwnerRows(w.tables) != {}
    ensures OwnerRows(RemoveUserStep(w, u, rs, ds).tables) != {}
  {
    CascadeOwners(w, u, rs, ds);
    OwnerRowIff(w.tables, u);
    if u in OwnerRows(w.tables) && |OwnerRows(w.tables)| > 1 { AnotherRemains(OwnerRows(w.tables), u); }
  }

  /** The other mutators of a live tenant only add role rows. */
  lemma OthersGrant(w: World, s: Step)
    requires w.live && Next(w, s).live && !s.Reconcile? && !s.RemoveUser? && !s.DeleteMember?
    ensures w.tables.roles <= Next(w, s).tables.roles
  {
    if s.Accept? { AssignedRoles(w.tables.(roles := w.tables.roles + Pairs(s.user, s.roles)), s.user, s.pairs); }
    if s.Jit? && s.tx in w.prior { AssignedRoles(w.tables, w.prior[s.tx].user, s.pairs); }
  }

  lemma NextKeepsAnOwner(w: World, s: Step)
    requires w.live && Next(w, s).live && !s.DeleteMember? && OwnerRows(w.tables) != {}
    ensures OwnerRows(Next(w, s).tables) != {}
  {
    match s
    case Reconcile(tx, gs, rs) => ReconcileKeepsAnOwner(w, tx, gs, rs);
    case RemoveUser(u, rs, ds) => RemoveKeepsAnOwner(w, u, rs, ds);
    case _ =>
      OthersGrant(w, s);
      RolesGrow(w.tables, Next(w, s).tables);
  }

  /** Only I-1 makes a tenant live, with an owner. */
  lemma NextLive(w: World, s: Step)
    requires w.live ==> w.row
    ensures Next(w, s).live ==> Next(w, s).row
    ensures !w.live && Next(w, s).live ==> OwnerRows(Next(w, s).tables) != {}
  {
    if s.Signup? { OwnerRowIff(Next(w, s).tables, s.owner); }
  }

  predicate HasOwnerRow(w: World) {
    (w.live ==> w.row) && (w.live ==> OwnerRows(w.tables) != {})
  }

  lemma NextKeepsOwnerRow(w: World, s: Step)
    requires HasOwnerRow(w) && !s.DeleteMember?
    ensures HasOwnerRow(Next(w, s))
  {
    NextLive(w, s);
    if w.live && Next(w, s).live { NextKeepsAnOwner(w, s); }
  }

  /** Whatever the interleaving of removals, reconciles working from stale reads and suspensions,
      a live tenant keeps an owner row as long as no I-5 runs. */
  lemma {:induction false} AnOwnerRowRemains(steps: seq<Step>)
    requires forall i :: 0 <= i < |steps| ==> !steps[i].DeleteMember?
    ensures HasOwnerRow(Run(INIT, steps))
  {
    if steps == [] {
    } else {
      AnOwnerRowRemains(steps[..|steps| - 1]);
      NextKeepsOwnerRow(Run(INIT, steps[..|steps| - 1]), steps[|steps| - 1]);
    }
  }

  /** ... and with I-5 and O-7 in play, each transaction one step, a tenant without one carries
      ownerless_since. (OwnerlessRace has I-5 and the removals interleave.) */
  predicate Marked(w: World) {
    (w.live ==> w.row) && (w.live ==> OwnerRows(w.tables) != {} || w.ownerless)
  }

  lemma DeleteMarks(w: World, u: User, rs: seq<Role>, ds: seq<Dept>)
    requires Marked(w)
    ensures Marked(DeleteMemberStep(w, u, rs, ds))
  {
    CascadeOwners(w, u, rs, ds);
    OwnerRowIff(w.tables, u);
  }

  lemma NextKeepsMark(w: World, s: Step)
    requires w.live && w.ownerless && w.row && !s.DeleteMember?
    ensures Next(w, s).ownerless || OwnerRows(Next(w, s).tables) != {}
  {
    if s.Reassign? && s.tx in w.prior && w.prior[s.tx].CandidateRead? {
      OwnerRowIff(Next(w, s).tables, w.prior[s.tx].user);
    }
  }

  lemma NextMarks(w: World, s: Step)
    requires Marked(w)
    ensures Marked(Next(w, s))
  {
    NextLive(w, s);
    if s.DeleteMember? {
      DeleteMarks(w, s.user, s.roles, s.depts);
    } else if w.live && Next(w, s).live {
      if OwnerRows(w.tables) != {} { NextKeepsAnOwner(w, s); } else { NextKeepsMark(w, s); }
    }
  }

  lemma {:induction false} OwnerlessIsMarked(steps: seq<Step>)
    ensures Marked(Run(INIT, steps))
  {
    if steps == [] {
    } else {
      OwnerlessIsMarked(steps[..|steps| - 1]);
      NextMarks(Run(INIT, steps[..|steps| - 1]), steps[|steps| - 1]);
    }
  }

  // ---- active owners --------------------------------------------------------------

  /** TM-8's own notion: an owner row whose membership is active. */
  function ActiveOwners(w: World): set<User> {
    set u | u in OwnerRows(w.tables) && u in w.members && w.members[u] == Active
  }

  lemma TwoOwnersJoin() returns (steps: seq<Step>)
    ensures forall i :: 0 <= i < |steps| ==> !steps[i].DeleteMember?
    ensures var w := Run(INIT, steps);
            && w.live && w.tables.roles == {(0, TenantOwner), (1, TenantOwner)}
            && w.members == map[0 := Active, 1 := Active]
  {
    RunSnoc([], Signup(0));
    RunSnoc([] + [Signup(0)], Accept(1, [TenantOwner], []));
    steps := [] + [Signup(0)] + [Accept(1, [TenantOwner], [])];
    PairsSnoc(1, [TenantOwner]);
    assert Pairs(1, [TenantOwner][..0]) == {};
  }

  lemma SuspendOne(steps: seq<Step>, u: User) returns (steps': seq<Step>)
    requires var w := Run(INIT, steps); w.live && |OwnerRows(w.tables)| > 1 && u in w.members
    requires forall i :: 0 <= i < |steps| ==> !steps[i].DeleteMember?
    ensures forall i :: 0 <= i < |steps'| ==> !steps'[i].DeleteMember?
    ensures var w, w' := Run(INIT, steps), Run(INIT, steps');
            w'.live && w'.tables == w.tables && w'.members == w.members[u := Suspended]
  {
    RunSnoc(steps, ReadOwner(0, u));
    RunSnoc(steps + [ReadOwner(0, u)], Suspend(0, true));
    steps' := steps + [ReadOwner(0, u)] + [Suspend(0, true)];
  }

  /** CountActiveOwners counts rows, so suspending one owner after the other passes the guard
      both times and leaves none active. */
  lemma BothOwnersCanBeSuspended() returns (steps: seq<Step>)
    ensures forall i :: 0 <= i < |steps| ==> !steps[i].DeleteMember?
    ensures Run(INIT, steps).live && ActiveOwners(Run(INIT, steps)) == {}
  {
    steps := TwoOwnersJoin();
    TwoOwners(Run(INIT, steps).tables);
    steps := SuspendOne(steps, 0);
    steps := SuspendOne(steps, 1);
    assert Run(INIT, steps).members == map[0 := Suspended, 1 := Suspended];
  }

  lemma TwoOwners(t: Tables)
    requires t.roles == {(0, TenantOwner), (1, TenantOwner)}
    ensures OwnerRows(t) == {0, 1} && |OwnerRows(t)| == 2
  {
    OwnerRowIff(t, 0);
    OwnerRowIff(t, 1);
    assert OwnerRows(t) == {0, 1};
  }

  /** The member whose ownership or activity the step takes away, if its guards let it. */
  function Target(w: World, s: Step): set<User> {
    match s
    case Suspend(tx, current) => if MaySuspend(w, tx, current) then {w.prior[tx].user} else {}
    case Reconcile(tx, gs, rs) => if Takes(w, tx, gs, rs) then {w.prior[tx].user} else {}
    case RemoveUser(u, rs, ds) => if MayRemove(w, u, rs, ds) then {u} else {}
    case DeleteMember(u, rs, ds) => if MayDelete(w, u, rs, ds) then {u} else {}
    case _ => {}
  }

  /** The other steps only add owners and activate members. */
  lemma OthersGrow(w: World, s: Step)
    requires w.live && Next(w, s).live && !s.Suspend? && !s.Reconcile? && !s.RemoveUser? && !s.DeleteMember?
    ensures ActiveOwners(w) <= ActiveOwners(Next(w, s))
  {
    OthersGrant(w, s);
    RolesGrow(w.tables, Next(w, s).tables);
    ActiveGrow(w, Next(w, s));
  }

  lemma ActiveAfter(w: World, s: Step)
    requires w.live && Next(w, s).live
    ensures ActiveOwners(w) - Target(w, s) <= ActiveOwners(Next(w, s))
    ensures Target(w, s) != {} ==> ActiveOwners(Next(w, s)) == ActiveOwners(w) - Target(w, s)
  {
    match s
    case Suspend(tx, current) => SuspendActive(w, tx, current);
    case Reconcile(tx, gs, rs) => ReconcileActive(w, tx, gs, rs);
    case RemoveUser(u, rs, ds) => CascadeActive(w, u, rs, ds);
    case DeleteMember(u, rs, ds) => CascadeActive(w, u, rs, ds);
    case _ => OthersGrow(w, s);
  }

  /** An accepted step leaves an active owner exactly if some active owner is not its target. Each
      transaction is one step here. */
  lemma ActiveOwnerLeftExactly(w: World, s: Step)
    requires w.live && Next(w, s).live && ActiveOwners(w) != {}
    ensures ActiveOwners(Next(w, s)) != {} <==> ActiveOwners(w) - Target(w, s) != {}
  {
    ActiveAfter(w, s);
    assert Target(w, s) == {} ==> ActiveOwners(w) - Target(w, s) == ActiveOwners(w);
  }

  lemma ActiveGrow(w: World, w': World)
    requires OwnerRows(w.tables) <= OwnerRows(w'.tables)
    requires forall u :: u in w.members && w.members[u] == Active ==> u in w'.members && w'.members[u] == Active
    ensures ActiveOwners(w) <= ActiveOwners(w')
  {
  }

  lemma SuspendActive(w: World, tx: Tx, current: bool)
    ensures ActiveOwners(SuspendStep(w, tx, current)) == ActiveOwners(w) - Target(w, Suspend(tx, current))
  {
  }

  lemma CascadeActive(w: World, u: User, rs: seq<Role>, ds: seq<Dept>)
    ensures ActiveOwners(Cascade(w, u, rs, ds)) == ActiveOwners(w) - {u}
    ensures u in w.members ==> Cascade(w, u, rs, ds) != w
  {
    CascadeOwners(w, u, rs, ds);
    assert u in w.members ==> u !in Cascade(w, u, rs, ds).members;
  }

  lemma ReconcileActive(w: World, tx: Tx, gs: seq<Role>, rs: seq<Role>)
    ensures ActiveOwners(w) - Target(w, Reconcile(tx, gs, rs)) <= ActiveOwners(ReconcileStep(w, tx, gs, rs))
    ensures Takes(w, tx, gs, rs) ==>
              ActiveOwners(ReconcileStep(w, tx, gs, rs)) == ActiveOwners(w) - {w.prior[tx].user}
  {
    ReconcileOwners(w, tx, gs, rs);
  }

  /** Every step of the run leaves an active owner who is not its target. */
  predicate PrudentRun(steps: seq<Step>) {
    steps != [] ==>
      var w := Run(INIT, steps[..|steps| - 1]);
      && PrudentRun(steps[..|steps| - 1])
      && (w.live ==> ActiveOwners(w) - Target(w, steps[|steps| - 1]) != {})
  }

  predicate HasActiveOwner(w: World) { w.live ==> ActiveOwners(w) != {} }

  predicate AlwaysOwned(steps: seq<Step>) {
    HasActiveOwner(Run(INIT, steps)) && (steps != [] ==> AlwaysOwned(steps[..|steps| - 1]))
  }

  lemma OnlyPurgesEnd(w: World, s: Step)
    requires w.live && !Next(w, s).live
    ensures Target(w, s) == {}
  {
  }

  lemma SignupActive(w: World, s: Step)
    requires !w.live && Next(w, s).live
    ensures ActiveOwners(Next(w, s)) != {}
  {
    assert s.Signup?;
    OwnerRowIff(Next(w, s).tables, s.owner);
    assert s.owner in ActiveOwners(Next(w, s));
  }

  lemma PrudentExactly(w: World, s: Step)
    requires HasActiveOwner(w)
    ensures HasActiveOwner(Next(w, s)) <==> (w.live ==> ActiveOwners(w) - Target(w, s) != {})
  {
    if w.live && Next(w, s).live {
      ActiveOwnerLeftExactly(w, s);
    } else if w.live {
      OnlyPurgesEnd(w, s);
      assert ActiveOwners(w) - {} == ActiveOwners(w);
    } else if Next(w, s).live {
      SignupActive(w, s);
    }
  }

  /** Over whole runs: a live tenant has an active owner at every point exactly if every accepted
      removal, reconcile and suspension leaves one who is not its target; each is one step. */
  lemma {:induction false} AnActiveOwnerRemains(steps: seq<Step>)
    ensures AlwaysOwned(steps) <==> PrudentRun(steps)
  {
    if steps == [] {
    } else {
      var front := steps[..|steps| - 1];
      AnActiveOwnerRemains(front);
      if AlwaysOwned(front) { PrudentExactly(Run(INIT, front), steps[|steps| - 1]); }
    }
  }

  /** The row count the code guards with is that condition, for a target that is an owner,
      whenever every owner row belongs to an active member. */
  lemma RowCountSufficesWhenOwnersActive(w: World, u: User)
    requires u in OwnerRows(w.tables) && OwnerRows(w.tables) == ActiveOwners(w)
    ensures |OwnerRows(w.tables)| > 1 <==> ActiveOwners(w) - {u} != {}
  {
    var s := OwnerRows(w.tables);
    if |s| > 1 { AnotherRemains(s, u); }
    if s - {u} != {} {
      var v :| v in s - {u};
      TwoElements(s, u, v);
    }
  }

  lemma TwoElements(s: set<User>, u: User, v: User)
    requires u in s && v in s && u != v
    ensures |s| > 1
  {
    assert |s - {u}| > 0;
  }
}
