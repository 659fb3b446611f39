/**
  The membership, role and department tables of one tenant, the transactions that change
  them, and the events those transactions append to the outbox. What a mutator reads
  before its transaction opens is a step of its own, so it may be stale by the time the
  transaction runs. A step that is not possible, or whose transaction rolls back, leaves
  the tables and the outbox as they are.
 */
module Roles {
  type User = nat
  type Dept = nat
  type Tx = nat

  datatype Role = TenantOwner | TenantAdmin | TenderAdmin

  datatype Level = Preparator | Reviewer | Approver

  datatype Status = Active | Suspended

  datatype Event =
    | RoleGranted(user: User, role: Role)
    | RoleRevoked(user: User, role: Role)
    | DeptGranted(user: User, dept: Dept, level: Level)
    | DeptLevelChanged(user: User, dept: Dept, previous: Level, level: Level)
    | DeptRevoked(user: User, dept: Dept)
    | MembershipRevoked(user: User)
    | MembershipsPurged

  /** The active rows of tenant_roles and dept_memberships. */
  datatype Tables = Tables(roles: set<(User, Role)>, depts: map<(User, Dept), Level>)

  const EMPTY := Tables({}, map[])

  // ---- what a subscriber makes of the events -------------------------------------

  function Apply(t: Tables, e: Event): Tables {
    match e
    case RoleGranted(u, r) => t.(roles := t.roles + {(u, r)})
    case RoleRevoked(u, r) => t.(roles := t.roles - {(u, r)})
    case DeptGranted(u, d, l) => t.(depts := t.depts[(u, d) := l])
    case DeptLevelChanged(u, d, _, l) => t.(depts := t.depts[(u, d) := l])
    case DeptRevoked(u, d) => t.(depts := t.depts - {(u, d)})
    case MembershipRevoked(_) => t
    case MembershipsPurged => EMPTY
  }

  /** A revocation names a row that is there; a level change names the level that was there
      and a different one. */
  predicate Legal(t: Tables, e: Event) {
    match e
    case RoleRevoked(u, r) => (u, r) in t.roles
    case DeptRevoked(u, d) => (u, d) in t.depts
    case DeptLevelChanged(u, d, p, l) => (u, d) in t.depts && t.depts[(u, d)] == p && p != l
    case _ => true
  }

  function ApplyAll(t: Tables, log: seq<Event>): Tables {
    if log == [] then t else Apply(ApplyAll(t, log[..|log| - 1]), log[|log| - 1])
  }

  predicate LegalAll(t: Tables, log: seq<Event>) {
    log != [] ==>
      && LegalAll(t, log[..|log| - 1])
      && Legal(ApplyAll(t, log[..|log| - 1]), log[|log| - 1])
  }

  /** The log `evs` takes `t` to `t'`, every event saying what happened. */
  predicate Tells(t: Tables, evs: seq<Event>, t': Tables) {
    ApplyAll(t, evs) == t' && LegalAll(t, evs)
  }

  lemma TellsSnoc(t: Tables, evs: seq<Event>, t': Tables, e: Event)
    requires Tells(t, evs, t') && Legal(t', e)
    ensures Tells(t, evs + [e], Apply(t', e))
  {
    assert (evs + [e])[..|evs|] == evs;
  }

  lemma {:induction false} TellsAppend(t: Tables, a: seq<Event>, t1: Tables, b: seq<Event>, t2: Tables)
    requires Tells(t, a, t1) && Tells(t1, b, t2)
    ensures Tells(t, a + b, t2)
    decreases |b|
  {
    if b == [] {
      assert a + b == a;
    } else {
      var n := |b| - 1;
      TellsAppend(t, a, t1, b[..n], ApplyAll(t1, b[..n]));
      TellsSnoc(t, a + b[..n], ApplyAll(t1, b[..n]), b[n]);
      assert a + b == (a + b[..n]) + [b[n]];
    }
  }

  // ---- the tables -----------------------------------------------------------------

  function RolesOf(t: Tables, u: User): set<Role> {
    set p | p in t.roles && p.0 == u :: p.1
  }

  function DeptsOf(t: Tables, u: User): set<Dept> {
    set p | p in t.depts && p.0 == u :: p.1
  }

  /** CountActiveOwners counts these: rows of tenant_roles, whatever the membership's status. */
  function OwnerRows(t: Tables): set<User> {
    set p | p in t.roles && p.1 == TenantOwner :: p.0
  }

  /** The rows of a set in the order a statement returns them, or a map is iterated. */
  predicate Enumerates<T(==)>(l: seq<T>, s: set<T>) {
    && (forall i :: 0 <= i < |l| ==> l[i] in s)
    && (forall x :: x in s ==> x in l)
    && (forall i, j :: 0 <= i < j < |l| ==> l[i] != l[j])
  }

  function Pairs<T(==)>(u: User, l: seq<T>): set<(User, T)> {
    set i | 0 <= i < |l| :: (u, l[i])
  }

  function Granted(u: User, rs: seq<Role>): seq<Event> {
    seq(|rs|, i requires 0 <= i < |rs| => RoleGranted(u, rs[i]))
  }

  function Revoked(u: User, rs: seq<Role>): seq<Event> {
    seq(|rs|, i requires 0 <= i < |rs| => RoleRevoked(u, rs[i]))
  }

  function DeptsRevoked(u: User, ds: seq<Dept>): seq<Event> {
    seq(|ds|, i requires 0 <= i < |ds| => DeptRevoked(u, ds[i]))
  }

  /** Assign's event: from the row it found under the lock. */
  function AssignEvent(t: Tables, u: User, d: Dept, l: Level): seq<Event> {
    if (u, d) !in t.depts then [DeptGranted(u, d, l)]
    else if t.depts[(u, d)] != l then [DeptLevelChanged(u, d, t.depts[(u, d)], l)]
    else []
  }

  function Assigned(t: Tables, u: User, d: Dept, l: Level): Tables {
    t.(depts := t.depts[(u, d) := l])
  }

  /** A loop of Assign over (department, level) pairs. */
  function AssignedAll(t: Tables, u: User, ps: seq<(Dept, Level)>): Tables {
    if ps == [] then t
    else
      var n := |ps| - 1;
      Assigned(AssignedAll(t, u, ps[..n]), u, ps[n].0, ps[n].1)
  }

  function AssignEvents(t: Tables, u: User, ps: seq<(Dept, Level)>): seq<Event> {
    if ps == [] then []
    else
      var n := |ps| - 1;
      AssignEvents(t, u, ps[..n]) + AssignEvent(AssignedAll(t, u, ps[..n]), u, ps[n].0, ps[n].1)
  }

  /** I-3 announces every initial department as granted, whatever was there. */
  function InitialEvents(u: User, ps: seq<(Dept, Level)>): seq<Event> {
    seq(|ps|, i requires 0 <= i < |ps| => DeptGranted(u, ps[i].0, ps[i].1))
  }

  /** Assigning departments touches no role. */
  lemma {:induction false} AssignedRoles(t: Tables, u: User, ps: seq<(Dept, Level)>)
    ensures AssignedAll(t, u, ps).roles == t.roles
  {
    if ps == [] {
    } else {
      AssignedRoles(t, u, ps[..|ps| - 1]);
    }
  }

  // ---- each loop tells what it did ------------------------------------------------

  lemma {:induction false} GrantsTell(t: Tables, u: User, rs: seq<Role>)
    ensures Tells(t, Granted(u, rs), t.(roles := t.roles + Pairs(u, rs)))
  {
    if rs == [] {
      assert t.roles + Pairs(u, rs) == t.roles;
    } else {
      var n := |rs| - 1;
      var t1 := t.(roles := t.roles + Pairs(u, rs[..n]));
      GrantsTell(t, u, rs[..n]);
      TellsSnoc(t, Granted(u, rs[..n]), t1, RoleGranted(u, rs[n]));
      assert Granted(u, rs) == Granted(u, rs[..n]) + [RoleGranted(u, rs[n])];
      PairsSnoc(u, rs);
      assert t1.roles + {(u, rs[n])} == t.roles + Pairs(u, rs);
    }
  }

  lemma PairsSnoc<T>(u: User, l: seq<T>)
    requires l != []
    ensures Pairs(u, l) == Pairs(u, l[..|l| - 1]) + {(u, l[|l| - 1])}
  {
    var n := |l| - 1;
    forall p | p in Pairs(u, l) ensures p in Pairs(u, l[..n]) + {(u, l[n])} {
      var i :| 0 <= i < |l| && p == (u, l[i]);
      if i < n { assert l[..n][i] == l[i]; }
    }
    forall p | p in Pairs(u, l[..n]) ensures p in Pairs(u, l) {
      var i :| 0 <= i < n && p == (u, l[..n][i]);
      assert p == (u, l[i]);
    }
  }

  lemma PairIff<T>(u: User, l: seq<T>, v: User, x: T)
    ensures (v, x) in Pairs(u, l) <==> v == u && x in l
  {
    if v == u && x in l {
      var i :| 0 <= i < |l| && l[i] == x;
      assert (u, l[i]) in Pairs(u, l);
    }
  }

  lemma {:induction false} RevokesTell(t: Tables, u: User, rs: seq<Role>)
    requires forall i :: 0 <= i < |rs| ==> (u, rs[i]) in t.roles
    requires forall i, j :: 0 <= i < j < |rs| ==> rs[i] != rs[j]
    ensures Tells(t, Revoked(u, rs), t.(roles := t.roles - Pairs(u, rs)))
  {
    if rs == [] {
      assert t.roles - Pairs(u, rs) == t.roles;
    } else {
      var n := |rs| - 1;
      var t1 := t.(roles := t.roles - Pairs(u, rs[..n]));
      RevokesTell(t, u, rs[..n]);
      TellsSnoc(t, Revoked(u, rs[..n]), t1, RoleRevoked(u, rs[n]));
      assert Revoked(u, rs) == Revoked(u, rs[..n]) + [RoleRevoked(u, rs[n])];
      PairsSnoc(u, rs);
      assert t1.roles - {(u, rs[n])} == t.roles - Pairs(u, rs);
    }
  }

  lemma {:induction false} DeptRevokesTell(t: Tables, u: User, ds: seq<Dept>)
    requires forall i :: 0 <= i < |ds| ==> (u, ds[i]) in t.depts
    requires forall i, j :: 0 <= i < j < |ds| ==> ds[i] != ds[j]
    ensures Tells(t, DeptsRevoked(u, ds), t.(depts := t.depts - Pairs(u, ds)))
  {
    if ds == [] {
      assert t.depts - Pairs(u, ds) == t.depts;
    } else {
      var n := |ds| - 1;
      var t1 := t.(depts := t.depts - Pairs(u, ds[..n]));
      DeptRevokesTell(t, u, ds[..n]);
      TellsSnoc(t, DeptsRevoked(u, ds[..n]), t1, DeptRevoked(u, ds[n]));
      assert DeptsRevoked(u, ds) == DeptsRevoked(u, ds[..n]) + [DeptRevoked(u, ds[n])];
      PairsSnoc(u, ds);
      assert t1.depts - {(u, ds[n])} == t.depts - Pairs(u, ds);
    }
  }

  lemma AssignTells(t: Tables, u: User, d: Dept, l: Level)
    ensures Tells(t, AssignEvent(t, u, d, l), Assigned(t, u, d, l))
  {
    var evs := AssignEvent(t, u, d, l);
    if evs == [] {
      assert t.depts[(u, d) := l] == t.depts;
    } else {
      assert Tells(t, [], t);
      TellsSnoc(t, [], t, evs[0]);
      assert [] + [evs[0]] == evs;
    }
  }

  lemma {:induction false} AssignsTell(t: Tables, u: User, ps: seq<(Dept, Level)>)
    ensures Tells(t, AssignEvents(t, u, ps), AssignedAll(t, u, ps))
  {
    if ps == [] {
    } else {
      var n := |ps| - 1;
      var t1 := AssignedAll(t, u, ps[..n]);
      AssignsTell(t, u, ps[..n]);
      AssignTells(t1, u, ps[n].0, ps[n].1);
      TellsAppend(t, AssignEvents(t, u, ps[..n]), t1, AssignEvent(t1, u, ps[n].0, ps[n].1),
                  AssignedAll(t, u, ps));
    }
  }

  lemma {:induction false} InitialsTell(t: Tables, u: User, ps: seq<(Dept, Level)>)
    ensures Tells(t, InitialEvents(u, ps), AssignedAll(t, u, ps))
  {
    if ps == [] {
    } else {
      var n := |ps| - 1;
      InitialsTell(t, u, ps[..n]);
      TellsSnoc(t, InitialEvents(u, ps[..n]), AssignedAll(t, u, ps[..n]), DeptGranted(u, ps[n].0, ps[n].1));
      assert InitialEvents(u, ps) == InitialEvents(u, ps[..n]) + [DeptGranted(u, ps[n].0, ps[n].1)];
    }
  }
}
