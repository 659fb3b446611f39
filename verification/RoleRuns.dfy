/**
  Every run of the membership mutators: the event log stays faithful to the tables, and
  what becomes of the last owner.
 */
module RoleRuns {
  import opened Roles

  /** What a mutator read before its transaction. */
  datatype Read =
    | OwnerRead(user: User, isOwner: bool)                               // P-7
    | RolesRead(user: User, current: set<Role>, desired: set<Role>)      // P-28
    | CandidateRead(user: User)                                          // O-7
    | MemberRead(user: User)                                             // P-10, I-10

  datatype World = World(
    row: bool,                    // the tenants row
    live: bool,                       // ... not soft-deleted
    ownerless: bool,                  // ownerless_since is set
    members: map<User, Status>,
    known: set<User>,                 // membership rows, soft-deleted ones included
    tables: Tables,
    outbox: seq<Event>,
    prior: map<Tx, Read>)

  datatype Step =
    | Signup(owner: User)                                                // I-1
    | Join(user: User)                                                   // I-3, plain add
    | Accept(user: User, roles: seq<Role>, pairs: seq<(Dept, Level)>)    // I-3, invitation
    | ReadOwner(tx: Tx, user: User)
    | Suspend(tx: Tx, current: bool)                                     // current: the version matches
    | Reactivate(user: User, current: bool)
    | ReadRoles(tx: Tx, user: User, desired: set<Role>)
    | Reconcile(tx: Tx, grants: seq<Role>, revokes: seq<Role>)
    | RemoveUser(user: User, roles: seq<Role>, depts: seq<Dept>)         // P-8
    | DeleteMember(user: User, roles: seq<Role>, depts: seq<Dept>)       // I-5
    | ReadCandidate(tx: Tx, user: User)
    | Reassign(tx: Tx)
    | ReadMember(tx: Tx, user: User)
    | Assign(tx: Tx, dept: Dept, level: Level)
    | RemoveDept(user: User, dept: Dept)
    | Jit(tx: Tx, pairs: seq<(Dept, Level)>, roles: seq<Role>)
    | Offboard                                                           // the wipe of the projection
    | HardDelete                                                         // trial cleanup

  function Begin(w: World, tx: Tx, r: Read): World { w.(prior := w.prior[tx := r]) }

  function Done(w: World, tx: Tx): World { w.(prior := w.prior - {tx}) }

  function SignupStep(w: World, o: User): World {
    if w.row then w
    else w.(row := true, live := true, ownerless := false,
            members := w.members[o := Active], known := w.known + {o},
            tables := w.tables.(roles := w.tables.roles + {(o, TenantOwner)}),
            outbox := w.outbox + [RoleGranted(o, TenantOwner)])
  }

  function JoinStep(w: World, u: User): World {
    if !w.live then w
    else w.(members := if u in w.members then w.members else w.members[u := Active],
            known := w.known + {u})
  }

  function AcceptStep(w: World, u: User, rs: seq<Role>, ps: seq<(Dept, Level)>): World {
    if !w.live then w
    else
      var t := w.tables.(roles := w.tables.roles + Pairs(u, rs));
      JoinStep(w, u).(tables := AssignedAll(t, u, ps),
                      outbox := w.outbox + Granted(u, rs) + InitialEvents(u, ps))
  }

  function SuspendStep(w: World, tx: Tx, current: bool): World {
    if tx !in w.prior || !w.prior[tx].OwnerRead? then w
    else
      var u := w.prior[tx].user;
      if w.prior[tx].isOwner && (!w.live || |OwnerRows(w.tables)| <= 1) then Done(w, tx)
      else if u !in w.members || !current then Done(w, tx)
      else Done(w, tx).(members := w.members[u := Suspended])
  }

  function ReadRolesStep(w: World, tx: Tx, u: User, desired: set<Role>): World {
    if u !in w.members then w
    else
      var current := RolesOf(w.tables, u);
      if TenantOwner in current - desired && |OwnerRows(w.tables)| <= 1 then w
      else Begin(w, tx, RolesRead(u, current, desired))
  }

  function ReconcileStep(w: World, tx: Tx, gs: seq<Role>, rs: seq<Role>): World {
    if tx !in w.prior || !w.prior[tx].RolesRead? then w
    else
      var d := w.prior[tx];
      if !Enumerates(gs, d.desired - d.current) || !Enumerates(rs, d.current - d.desired) then w
      else if TenantOwner in d.current - d.desired && (!w.live || |OwnerRows(w.tables)| <= 1) then Done(w, tx)
      else if gs != [] && d.user !in w.known then Done(w, tx)
      else if exists i :: 0 <= i < |rs| && (d.user, rs[i]) !in w.tables.roles then Done(w, tx)
      else
        var t := w.tables;
        Done(w, tx).(tables := t.(roles := t.roles + Pairs(d.user, gs) - Pairs(d.user, rs)),
                     outbox := w.outbox + Granted(d.user, gs) + Revoked(d.user, rs))
  }

  /** The cascade both removals share. */
  function Cascade(w: World, u: User, rs: seq<Role>, ds: seq<Dept>): World {
    var t := w.tables;
    w.(tables := Tables(set p | p in t.roles && p.0 != u, map p | p in t.depts && p.0 != u :: t.depts[p]),
       members := w.members - {u},
       outbox := w.outbox + Revoked(u, rs) + DeptsRevoked(u, ds) + [MembershipRevoked(u)])
  }

  /** What the two cascading UPDATEs return. */
  predicate Returned(t: Tables, u: User, rs: seq<Role>, ds: seq<Dept>) {
    Enumerates(rs, RolesOf(t, u)) && Enumerates(ds, DeptsOf(t, u))
  }

  function RemoveUserStep(w: World, u: User, rs: seq<Role>, ds: seq<Dept>): World {
    if !w.live || u !in w.members || !Returned(w.tables, u, rs, ds) then w
    else if (u, TenantOwner) in w.tables.roles && |OwnerRows(w.tables)| <= 1 then w
    else Cascade(w, u, rs, ds)
  }

  function DeleteMemberStep(w: World, u: User, rs: seq<Role>, ds: seq<Dept>): World {
    if u !in w.members || !Returned(w.tables, u, rs, ds) then w
    else
      var w' := Cascade(w, u, rs, ds);
      if (u, TenantOwner) in w.tables.roles && OwnerRows(w'.tables) == {}
      then w'.(ownerless := true) else w'
  }

  function ReassignStep(w: World, tx: Tx): World {
    if tx !in w.prior || !w.prior[tx].CandidateRead? then w
    else
      var u := w.prior[tx].user;
      if u !in w.known then Done(w, tx)
      else Done(w, tx).(tables := w.tables.(roles := w.tables.roles + {(u, TenantOwner)}),
                        ownerless := false, outbox := w.outbox + [RoleGranted(u, TenantOwner)])
  }

  function AssignStep(w: World, tx: Tx, d: Dept, l: Level): World {
    if tx !in w.prior || !w.prior[tx].MemberRead? then w
    else
      var u := w.prior[tx].user;
      if u !in w.known then Done(w, tx)
      else Done(w, tx).(tables := Assigned(w.tables, u, d, l),
                        outbox := w.outbox + AssignEvent(w.tables, u, d, l))
  }

  function RemoveDeptStep(w: World, u: User, d: Dept): World {
    if (u, d) !in w.tables.depts then w
    else w.(tables := w.tables.(depts := w.tables.depts - {(u, d)}),
            outbox := w.outbox + [DeptRevoked(u, d)])
  }

  /** AssignFromGroups: departments first, then the matched roles not held yet. */
  function JitStep(w: World, tx: Tx, ps: seq<(Dept, Level)>, rs: seq<Role>): World {
    if tx !in w.prior || !w.prior[tx].MemberRead? then w
    else
      var u := w.prior[tx].user;
      if u !in w.known || exists i :: 0 <= i < |rs| && (u, rs[i]) in w.tables.roles then Done(w, tx)
      else
        var t := AssignedAll(w.tables, u, ps);
        Done(w, tx).(tables := t.(roles := t.roles + Pairs(u, rs)),
                     outbox := w.outbox + AssignEvents(w.tables, u, ps) + Granted(u, rs))
  }

  function Purged(w: World): World {
    w.(live := false, members := map[], known := {}, tables := EMPTY,
       outbox := w.outbox + [MembershipsPurged])
  }

  // ---- when a mutator is accepted ---------------------------------------------------

  predicate MaySuspend(w: World, tx: Tx, current: bool) {
    && tx in w.prior && w.prior[tx].OwnerRead?
    && (w.prior[tx].isOwner ==> w.live && |OwnerRows(w.tables)| > 1)
    && w.prior[tx].user in w.members && current
  }

  predicate MayReconcile(w: World, tx: Tx, gs: seq<Role>, rs: seq<Role>) {
    && tx in w.prior && w.prior[tx].RolesRead?
    && var d := w.prior[tx];
       && Enumerates(gs, d.desired - d.current) && Enumerates(rs, d.current - d.desired)
       && (TenantOwner in d.current - d.desired ==> w.live && |OwnerRows(w.tables)| > 1)
       && (gs != [] ==> d.user in w.known)
       && (forall i :: 0 <= i < |rs| ==> (d.user, rs[i]) in w.tables.roles)
  }

  predicate MayRemove(w: World, u: User, rs: seq<Role>, ds: seq<Dept>) {
    && w.live && u in w.members && Returned(w.tables, u, rs, ds)
    && ((u, TenantOwner) in w.tables.roles ==> |OwnerRows(w.tables)| > 1)
  }

  predicate MayDelete(w: World, u: User, rs: seq<Role>, ds: seq<Dept>) {
    u in w.members && Returned(w.tables, u, rs, ds)
  }

  function Next(w: World, s: Step): World {
    match s
    case Signup(o) => SignupStep(w, o)
    case Join(u) => JoinStep(w, u)
    case Accept(u, rs, ps) => AcceptStep(w, u, rs, ps)
    case ReadOwner(tx, u) => Begin(w, tx, OwnerRead(u, (u, TenantOwner) in w.tables.roles))
    case Suspend(tx, current) => SuspendStep(w, tx, current)
    case Reactivate(u, current) =>
      if u in w.members && current then w.(members := w.members[u := Active]) else w
    case ReadRoles(tx, u, desired) => ReadRolesStep(w, tx, u, desired)
    case Reconcile(tx, gs, rs) => ReconcileStep(w, tx, gs, rs)
    case RemoveUser(u, rs, ds) => RemoveUserStep(w, u, rs, ds)
    case DeleteMember(u, rs, ds) => DeleteMemberStep(w, u, rs, ds)
    case ReadCandidate(tx, u) =>
      if w.live && u in w.members && w.members[u] == Active then Begin(w, tx, CandidateRead(u)) else w
    case Reassign(tx) => ReassignStep(w, tx)
    case ReadMember(tx, u) => if u in w.members then Begin(w, tx, MemberRead(u)) else w
    case Assign(tx, d, l) => AssignStep(w, tx, d, l)
    case RemoveDept(u, d) => RemoveDeptStep(w, u, d)
    case Jit(tx, ps, rs) => JitStep(w, tx, ps, rs)
    case Offboard => if w.live then Purged(w) else w
    case HardDelete => Purged(w).(row := false)
  }

  function Run(w: World, steps: seq<Step>): World {
    if steps == [] then w
    else Next(Run(w, steps[..|steps| - 1]), steps[|steps| - 1])
  }

  const INIT := World(false, false, false, map[], {}, EMPTY, [], map[])

  lemma RunSnoc(steps: seq<Step>, s: Step)
    ensures Run(INIT, steps + [s]) == Next(Run(INIT, steps), s)
  {
    assert (steps + [s])[..|steps|] == steps;
  }

  // ---- the faithful event log ---------------------------------------------------

  /** Folding the whole log from empty gives the tables, and every event was true when made. */
  predicate Faithful(w: World) { Tells(EMPTY, w.outbox, w.tables) }

  lemma TellsTwo(t: Tables, a: seq<Event>, t1: Tables, b: seq<Event>, t2: Tables, c: seq<Event>, t3: Tables)
    requires Tells(t, a, t1) && Tells(t1, b, t2) && Tells(t2, c, t3)
    ensures Tells(t, a + b + c, t3)
  {
    TellsAppend(t, a, t1, b, t2);
    TellsAppend(t, a + b, t2, c, t3);
  }

  lemma CascadeTells(w: World, u: User, rs: seq<Role>, ds: seq<Dept>)
    requires Faithful(w) && Returned(w.tables, u, rs, ds)
    ensures Faithful(Cascade(w, u, rs, ds))
  {
    var t := w.tables;
    var t' := Cascade(w, u, rs, ds).tables;
    forall i | 0 <= i < |rs| ensures (u, rs[i]) in t.roles { assert rs[i] in RolesOf(t, u); }
    forall i | 0 <= i < |ds| ensures (u, ds[i]) in t.depts { assert ds[i] in DeptsOf(t, u); }
    RevokesTell(t, u, rs);
    var t1 := t.(roles := t.roles - Pairs(u, rs));
    DeptRevokesTell(t1, u, ds);
    var t2 := t1.(depts := t1.depts - Pairs(u, ds));
    EnumeratedRoles(t, u, rs);
    EnumeratedDepts(t, u, ds);
    TellsTwo(EMPTY, w.outbox, t, Revoked(u, rs), t1, DeptsRevoked(u, ds), t2);
    TellsSnoc(EMPTY, w.outbox + Revoked(u, rs) + DeptsRevoked(u, ds), t2, MembershipRevoked(u));
  }

  lemma EnumeratedRoles(t: Tables, u: User, rs: seq<Role>)
    requires Enumerates(rs, RolesOf(t, u))
    ensures t.roles - Pairs(u, rs) == set p | p in t.roles && p.0 != u
  {
    forall p | p in t.roles ensures p in Pairs(u, rs) <==> p.0 == u {
      if p.0 == u {
        assert p.1 in RolesOf(t, u);
        var i :| 0 <= i < |rs| && rs[i] == p.1;
        assert p == (u, rs[i]);
      }
    }
  }

  lemma EnumeratedDepts(t: Tables, u: User, ds: seq<Dept>)
    requires Enumerates(ds, DeptsOf(t, u))
    ensures t.depts - Pairs(u, ds) == map p | p in t.depts && p.0 != u :: t.depts[p]
  {
    forall p | p in t.depts ensures p in Pairs(u, ds) <==> p.0 == u {
      if p.0 == u {
        assert p.1 in DeptsOf(t, u);
        var i :| 0 <= i < |ds| && ds[i] == p.1;
        assert p == (u, ds[i]);
      }
    }
  }

  lemma ReconcileTells(w: World, tx: Tx, gs: seq<Role>, rs: seq<Role>)
    requires Faithful(w)
    ensures Faithful(ReconcileStep(w, tx, gs, rs))
  {
    var w' := ReconcileStep(w, tx, gs, rs);
    if w'.outbox != w.outbox || w'.tables != w.tables {
      var u := w.prior[tx].user;
      GrantsTell(w.tables, u, gs);
      var t1 := w.tables.(roles := w.tables.roles + Pairs(u, gs));
      RevokesTell(t1, u, rs);
      TellsTwo(EMPTY, w.outbox, w.tables, Granted(u, gs), t1, Revoked(u, rs), w'.tables);
    }
  }

  lemma AcceptTells(w: World, u: User, rs: seq<Role>, ps: seq<(Dept, Level)>)
    requires Faithful(w)
    ensures Faithful(AcceptStep(w, u, rs, ps))
  {
    var t := w.tables.(roles := w.tables.roles + Pairs(u, rs));
    GrantsTell(w.tables, u, rs);
    InitialsTell(t, u, ps);
    TellsTwo(EMPTY, w.outbox, w.tables, Granted(u, rs), t, InitialEvents(u, ps), AssignedAll(t, u, ps));
  }

  lemma JitTells(w: World, tx: Tx, ps: seq<(Dept, Level)>, rs: seq<Role>)
    requires Faithful(w)
    ensures Faithful(JitStep(w, tx, ps, rs))
  {
    var w' := JitStep(w, tx, ps, rs);
    if w'.outbox != w.outbox || w'.tables != w.tables {
      var u := w.prior[tx].user;
      var t := AssignedAll(w.tables, u, ps);
      AssignsTell(w.tables, u, ps);
      GrantsTell(t, u, rs);
      TellsTwo(EMPTY, w.outbox, w.tables, AssignEvents(w.tables, u, ps), t, Granted(u, rs), w'.tables);
    }
  }

  lemma AssignStepTells(w: World, tx: Tx, d: Dept, l: Level)
    requires Faithful(w)
    ensures Faithful(AssignStep(w, tx, d, l))
  {
    if tx in w.prior && w.prior[tx].MemberRead? {
      var u := w.prior[tx].user;
      AssignTells(w.tables, u, d, l);
      TellsAppend(EMPTY, w.outbox, w.tables, AssignEvent(w.tables, u, d, l), Assigned(w.tables, u, d, l));
    }
  }

  lemma SingleTells(w: World, e: Event)
    requires Faithful(w) && Legal(w.tables, e)
    ensures Tells(EMPTY, w.outbox + [e], Apply(w.tables, e))
  {
    TellsSnoc(EMPTY, w.outbox, w.tables, e);
  }

  lemma RemovalsTell(w: World, u: User, rs: seq<Role>, ds: seq<Dept>)
    requires Faithful(w)
    ensures Faithful(RemoveUserStep(w, u, rs, ds)) && Faithful(DeleteMemberStep(w, u, rs, ds))
  {
    if Returned(w.tables, u, rs, ds) { CascadeTells(w, u, rs, ds); }
  }

  lemma ReassignTells(w: World, tx: Tx)
    requires Faithful(w)
    ensures Faithful(ReassignStep(w, tx))
  {
    if tx in w.prior && w.prior[tx].CandidateRead? { SingleTells(w, RoleGranted(w.prior[tx].user, TenantOwner)); }
  }

  /** The steps that touch neither table and tell nothing. */
  lemma QuietSteps(w: World, s: Step)
    requires s.Join? || s.ReadOwner? || s.Suspend? || s.Reactivate? || s.ReadRoles? || s.ReadCandidate? || s.ReadMember?
    ensures Next(w, s).tables == w.tables && Next(w, s).outbox == w.outbox
  {
  }

  lemma NextTells(w: World, s: Step)
    requires Faithful(w)
    ensures Faithful(Next(w, s))
  {
    match s
    case Signup(o) => SingleTells(w, RoleGranted(o, TenantOwner));
    case Accept(u, rs, ps) => AcceptTells(w, u, rs, ps);
    case Reconcile(tx, gs, rs) => ReconcileTells(w, tx, gs, rs);
    case RemoveUser(u, rs, ds) => RemovalsTell(w, u, rs, ds);
    case DeleteMember(u, rs, ds) => RemovalsTell(w, u, rs, ds);
    case Reassign(tx) => ReassignTells(w, tx);
    case Assign(tx, d, l) => AssignStepTells(w, tx, d, l);
    case RemoveDept(u, d) => if (u, d) in w.tables.depts { SingleTells(w, DeptRevoked(u, d)); }
    case Jit(tx, ps, rs) => JitTells(w, tx, ps, rs);
    case Offboard => SingleTells(w, MembershipsPurged);
    case HardDelete => SingleTells(w, MembershipsPurged);
    case _ => QuietSteps(w, s);
  }

  /** In every run, each transaction one step, the log is faithful: folding the Granted, Revoked,
      LevelChanged and Purged events from empty gives exactly the active role and department
      rows, every Revoked names a row that was there, and every LevelChanged the level that was
      there. (GrantRace has a grant's look at the row and its commit apart.) */
  lemma {:induction false} LogIsFaithful(steps: seq<Step>)
    ensures Faithful(Run(INIT, steps))
  {
    if steps == [] {
    } else {
      LogIsFaithful(steps[..|steps| - 1]);
      NextTells(Run(INIT, steps[..|steps| - 1]), steps[|steps| - 1]);
    }
  }
}
