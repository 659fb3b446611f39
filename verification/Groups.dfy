/**
  I-10: resolving asserted Keycloak groups to (department, level) pairs and tenant roles, and
  what running the same resolution again does.
 */
module Groups {
  import opened Roles

  type Group = string

  datatype DeptMapping = DeptMapping(group: Group, dept: Dept)
  datatype LevelMapping = LevelMapping(group: Group, level: Level)

  /** A mapped role: elevated, or the derived member role, which is never granted. */
  datatype Code = Member | Elevated(role: Role)
  datatype RoleMapping = RoleMapping(group: Group, code: Code)

  /** One asserted group maps both to the department and to the level. */
  predicate Provides(dms: seq<DeptMapping>, drs: seq<LevelMapping>, groups: set<Group>, p: (Dept, Level)) {
    exists i, j :: 0 <= i < |dms| && 0 <= j < |drs| && Joins(dms[i], drs[j], groups, p)
  }

  predicate Joins(dm: DeptMapping, dr: LevelMapping, groups: set<Group>, p: (Dept, Level)) {
    dm.group == dr.group && dm.group in groups && p == (dm.dept, dr.level)
  }

  predicate Distinct<T(==)>(l: seq<T>) {
    forall i, j :: 0 <= i < j < |l| ==> l[i] != l[j]
  }

  /** The nested loops of AssignFromGroups: every pair some one asserted group provides, once. */
  method ResolveDepts(dms: seq<DeptMapping>, drs: seq<LevelMapping>, groups: set<Group>)
    returns (pairs: seq<(Dept, Level)>)
    ensures Distinct(pairs)
    ensures forall p :: p in pairs <==> Provides(dms, drs, groups, p)
  {
    pairs := [];
    var seen: set<(Dept, Level)> := {};
    for i := 0 to |dms|
      invariant Distinct(pairs) && forall p :: p in pairs <==> p in seen
      invariant forall p :: p in seen <==> Provides(dms[..i], drs, groups, p)
    {
      ghost var before := seen;
      if dms[i].group in groups {
        for j := 0 to |drs|
          invariant Distinct(pairs) && forall p :: p in pairs <==> p in seen
          invariant forall p :: p in seen <==> p in before || RowProvides(dms[i], drs[..j], groups, p)
        {
          if drs[j].group in groups && dms[i].group == drs[j].group {
            var pair := (dms[i].dept, drs[j].level);
            if pair !in seen {
              seen := seen + {pair};
              pairs := pairs + [pair];
            }
          }
          forall p ensures p in seen <==> p in before || RowProvides(dms[i], drs[..j + 1], groups, p) {
            RowSnoc(dms[i], drs, j, groups, p);
          }
        }
        assert drs[..|drs|] == drs;
      }
      forall p ensures p in seen <==> Provides(dms[..i + 1], drs, groups, p) {
        ProvidesSnoc(dms, i, drs, groups, p);
      }
    }
    assert dms[..|dms|] == dms;
  }

  /** What one department mapping provides. */
  predicate RowProvides(dm: DeptMapping, drs: seq<LevelMapping>, groups: set<Group>, p: (Dept, Level)) {
    exists j :: 0 <= j < |drs| && Joins(dm, drs[j], groups, p)
  }

  lemma RowSnoc(dm: DeptMapping, drs: seq<LevelMapping>, j: nat, groups: set<Group>, p: (Dept, Level))
    requires j < |drs|
    ensures RowProvides(dm, drs[..j + 1], groups, p)
       <==> RowProvides(dm, drs[..j], groups, p) || Joins(dm, drs[j], groups, p)
  {
    var l := drs[..j + 1];
    assert l[j] == drs[j];
    if RowProvides(dm, drs[..j], groups, p) {
      var k :| 0 <= k < j && Joins(dm, drs[..j][k], groups, p);
      assert l[k] == drs[..j][k];
    }
    if RowProvides(dm, l, groups, p) {
      var k :| 0 <= k <= j && Joins(dm, l[k], groups, p);
      if k < j { assert drs[..j][k] == l[k]; }
    }
  }

  lemma ProvidesSnoc(dms: seq<DeptMapping>, i: nat, drs: seq<LevelMapping>, groups: set<Group>, p: (Dept, Level))
    requires i < |dms|
    ensures Provides(dms[..i + 1], drs, groups, p)
       <==> Provides(dms[..i], drs, groups, p) || RowProvides(dms[i], drs, groups, p)
  {
    var l := dms[..i + 1];
    assert l[i] == dms[i];
    if Provides(dms[..i], drs, groups, p) {
      var k, j :| 0 <= k < i && 0 <= j < |drs| && Joins(dms[..i][k], drs[j], groups, p);
      assert Joins(l[k], drs[j], groups, p);
    }
    if RowProvides(dms[i], drs, groups, p) {
      var j :| 0 <= j < |drs| && Joins(dms[i], drs[j], groups, p);
      assert Joins(l[i], drs[j], groups, p);
    }
    if Provides(l, drs, groups, p) {
      var k, j :| 0 <= k <= i && 0 <= j < |drs| && Joins(l[k], drs[j], groups, p);
      if k < i { assert Joins(dms[..i][k], drs[j], groups, p); }
    }
  }

  /** The matched elevated roles. */
  method ResolveRoles(trs: seq<RoleMapping>, groups: set<Group>) returns (roles: set<Role>)
    ensures forall r :: r in roles <==>
              exists i :: 0 <= i < |trs| && trs[i].group in groups && trs[i].code == Elevated(r)
  {
    roles := {};
    for i := 0 to |trs|
      invariant forall r :: r in roles <==>
                  exists k :: 0 <= k < i && trs[k].group in groups && trs[k].code == Elevated(r)
    {
      if trs[i].group in groups && trs[i].code.Elevated? {
        roles := roles + {trs[i].code.role};
      }
    }
  }

  // ---- running it again ---------------------------------------------------------

  predicate OneLevelEach(ps: seq<(Dept, Level)>) {
    forall i, j :: 0 <= i < j < |ps| ==> ps[i].0 != ps[j].0
  }

  /** Assigning touches the listed departments of the user and no other row; with one level for
      each department, what is listed is what is stored. */
  lemma {:induction false} AssignedRows(t: Tables, u: User, ps: seq<(Dept, Level)>, k: (User, Dept))
    ensures var t' := AssignedAll(t, u, ps);
            if k.0 == u && exists i :: 0 <= i < |ps| && ps[i].0 == k.1
            then k in t'.depts && exists i :: 0 <= i < |ps| && ps[i] == (k.1, t'.depts[k])
            else (k in t'.depts <==> k in t.depts) && (k in t.depts ==> t'.depts[k] == t.depts[k])
  {
    if ps == [] {
    } else {
      var n := |ps| - 1;
      AssignedRows(t, u, ps[..n], k);
      if k.0 == u && ps[n].0 == k.1 {
        assert ps[n] == (k.1, AssignedAll(t, u, ps).depts[k]);
      } else if exists i :: 0 <= i < |ps| && ps[i].0 == k.1 {
        var i :| 0 <= i < |ps| && ps[i].0 == k.1;
        if k.0 == u { assert ps[..n][i] == ps[i]; }
      }
    }
  }

  /** Every listed level is the stored one. */
  predicate Stored(t: Tables, u: User, ps: seq<(Dept, Level)>) {
    forall i :: 0 <= i < |ps| ==> (u, ps[i].0) in t.depts && t.depts[(u, ps[i].0)] == ps[i].1
  }

  lemma {:induction false} QuietIffStored(t: Tables, u: User, ps: seq<(Dept, Level)>)
    ensures AssignEvents(t, u, ps) == [] <==> Stored(t, u, ps)
    ensures Stored(t, u, ps) ==> AssignedAll(t, u, ps) == t
  {
    if ps == [] {
    } else {
      var n := |ps| - 1;
      QuietIffStored(t, u, ps[..n]);
      assert forall i :: 0 <= i < n ==> ps[..n][i] == ps[i];
      if Stored(t, u, ps[..n]) {
        assert Stored(t, u, ps) <==> AssignEvent(t, u, ps[n].0, ps[n].1) == [];
        if Stored(t, u, ps) { assert t.depts[(u, ps[n].0) := ps[n].1] == t.depts; }
      } else {
        assert !Stored(t, u, ps);
      }
    }
  }

  /** The same resolution run again emits no department event exactly if no department has two
      matched levels. */
  lemma SecondRunQuietExactly(t: Tables, u: User, ps: seq<(Dept, Level)>)
    requires Distinct(ps)
    ensures AssignEvents(AssignedAll(t, u, ps), u, ps) == [] <==> OneLevelEach(ps)
  {
    var t' := AssignedAll(t, u, ps);
    QuietIffStored(t', u, ps);
    if OneLevelEach(ps) {
      forall i | 0 <= i < |ps| ensures (u, ps[i].0) in t'.depts && t'.depts[(u, ps[i].0)] == ps[i].1 {
        AssignedRows(t, u, ps, (u, ps[i].0));
        var j :| 0 <= j < |ps| && ps[j] == (ps[i].0, t'.depts[(u, ps[i].0)]);
        assert j == i;
      }
    } else {
      var i, j :| 0 <= i < j < |ps| && ps[i].0 == ps[j].0;
      assert ps[i] != ps[j];
    }
  }
}
