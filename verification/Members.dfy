/**
  The membership mutators' transactions as they run: statement by statement, loop by loop,
  with the outbox written along the way and a rollback on the first error. Each is a step
  of the step system.
 */
module Members {
  import opened Roles
  import opened RoleRuns
  import opened Groups
  import opened Effects

  /** The elements of `l` outside `skip`, in order: what a loop with a `continue` visits. */
  predicate Visits(visited: seq<Role>, l: seq<Role>, skip: set<Role>) {
    && Distinct(visited)
    && (forall r :: r in visited <==> r in l && r !in skip)
  }

  lemma VisitsNext(visited: seq<Role>, l: seq<Role>, i: nat, skip: set<Role>)
    requires i < |l| && Distinct(l) && Visits(visited, l[..i], skip)
    ensures Visits(if l[i] in skip then visited else visited + [l[i]], l[..i + 1], skip)
  {
    assert l[..i + 1] == l[..i] + [l[i]];
    assert l[i] !in l[..i];
  }

  lemma VisitsAll(visited: seq<Role>, l: seq<Role>, s: set<Role>, skip: set<Role>)
    requires Visits(visited, l, skip) && Enumerates(l, s)
    ensures Enumerates(visited, s - skip)
  {
    forall r | r in s - skip ensures r in visited { assert r in l; }
    forall i | 0 <= i < |visited| ensures visited[i] in s - skip { assert visited[i] in l; }
  }

  lemma GrantedSnoc(u: User, rs: seq<Role>, r: Role)
    ensures Granted(u, rs + [r]) == Granted(u, rs) + [RoleGranted(u, r)]
    ensures Pairs(u, rs + [r]) == Pairs(u, rs) + {(u, r)}
  {
    PairsSnoc(u, rs + [r]);
    assert (rs + [r])[..|rs|] == rs;
  }

  lemma RevokedSnoc(u: User, rs: seq<Role>, r: Role)
    ensures Revoked(u, rs + [r]) == Revoked(u, rs) + [RoleRevoked(u, r)]
    ensures Pairs(u, rs + [r]) == Pairs(u, rs) + {(u, r)}
  {
    PairsSnoc(u, rs + [r]);
    assert (rs + [r])[..|rs|] == rs;
  }

  class TenantMembers {
    var row: bool
    var live: bool
    var ownerless: bool
    var members: map<User, Status>
    var known: set<User>
    var tables: Tables
    var outbox: seq<Event>

    ghost var prior: map<Tx, Read>

    ghost function State(): World reads this {
      World(row, live, ownerless, members, known, tables, outbox, prior)
    }

    // ---- P-28 -------------------------------------------------------------------

    /** The grant loop: every desired role the stale read did not show. */
    method GrantLoop(u: User, desired: seq<Role>, current: set<Role>) returns (granted: seq<Role>)
      requires Distinct(desired)
      modifies `tables, `outbox
      ensures Visits(granted, desired, current)
      ensures tables == old(tables).(roles := old(tables).roles + Pairs(u, granted))
      ensures outbox == old(outbox) + Granted(u, granted)
    {
      granted := [];
      for i := 0 to |desired|
        invariant Visits(granted, desired[..i], current)
        invariant tables == old(tables).(roles := old(tables).roles + Pairs(u, granted))
        invariant outbox == old(outbox) + Granted(u, granted)
      {
        VisitsNext(granted, desired, i, current);
        if desired[i] !in current {
          GrantedSnoc(u, granted, desired[i]);
          tables := tables.(roles := tables.roles + {(u, desired[i])});
          granted := granted + [desired[i]];
          outbox := outbox + [RoleGranted(u, desired[i])];
        }
      }
      assert desired[..|desired|] == desired;
    }

    /** The revoke loop: it fails on the first row that is no longer there. */
    method RevokeLoop(u: User, current: seq<Role>, desired: set<Role>) returns (ok: bool, revoked: seq<Role>)
      requires Distinct(current)
      modifies `tables, `outbox
      ensures ok <==> forall r :: r in current && r !in desired ==> (u, r) in old(tables).roles
      ensures ok ==> Visits(revoked, current, desired)
      ensures ok ==> tables == old(tables).(roles := old(tables).roles - Pairs(u, revoked))
      ensures ok ==> outbox == old(outbox) + Revoked(u, revoked)
    {
      revoked := [];
      for i := 0 to |current|
        invariant Visits(revoked, current[..i], desired)
        invariant tables == old(tables).(roles := old(tables).roles - Pairs(u, revoked))
        invariant outbox == old(outbox) + Revoked(u, revoked)
        invariant forall r :: r in current[..i] && r !in desired ==> (u, r) in old(tables).roles
      {
        VisitsNext(revoked, current, i, desired);
        assert current[..i + 1] == current[..i] + [current[i]];
        if current[i] !in desired {
          NotYetRevoked(u, revoked, current, i, desired);
          if (u, current[i]) !in tables.roles {
            return false, revoked;
          }
          RevokedSnoc(u, revoked, current[i]);
          tables := tables.(roles := tables.roles - {(u, current[i])});
          revoked := revoked + [current[i]];
          outbox := outbox + [RoleRevoked(u, current[i])];
        }
      }
      assert current[..|current|] == current;
      ok := true;
    }

    /** The statements of ReconcileRoles' transaction. */
    method WriteReconcile(tx: Tx, u: User, current: seq<Role>, desired: seq<Role>,
                     currentSet: set<Role>, desiredSet: set<Role>)
      returns (ok: bool, granted: seq<Role>, revoked: seq<Role>)
      requires tx in prior && prior[tx] == RolesRead(u, currentSet, desiredSet)
      requires Enumerates(current, currentSet) && Enumerates(desired, desiredSet)
      modifies this
      ensures ok ==> State() == ReconcileStep(old(State()), tx, granted, revoked)
      ensures ok ==> Enumerates(granted, desiredSet - currentSet) && Enumerates(revoked, currentSet - desiredSet)
      ensures !ok ==> State() == Done(old(State()), tx)
      ensures ok <==>
                && (TenantOwner in currentSet - desiredSet ==> old(live) && |OwnerRows(old(tables))| > 1)
                && (desiredSet - currentSet != {} ==> u in old(known))
                && (forall r :: r in currentSet - desiredSet ==> (u, r) in old(tables).roles)
    {
      granted, revoked := [], [];
      prior := prior - {tx};
      if TenantOwner in currentSet && TenantOwner !in desiredSet {
        if !live || |OwnerRows(tables)| <= 1 {
          return false, [], [];
        }
      }
      var savedTables, savedOutbox := tables, outbox;
      granted := GrantLoop(u, desired, currentSet);
      VisitsAll(granted, desired, desiredSet, currentSet);
      assert granted == [] <==> desiredSet - currentSet == {} by {
        assert granted != [] ==> granted[0] in desiredSet - currentSet;
      }
      assert forall r :: r in currentSet - desiredSet ==> ((u, r) in tables.roles <==> (u, r) in old(tables).roles);
      if granted != [] && u !in known {
        tables, outbox := savedTables, savedOutbox;
        return false, [], [];
      }
      ghost var t1 := tables;
      ok, revoked := RevokeLoop(u, current, desiredSet);
      if !ok {
        tables, outbox := savedTables, savedOutbox;
        return false, [], [];
      }
      VisitsAll(revoked, current, currentSet, desiredSet);
      ReconcileAccepted(old(State()), tx, granted, revoked, t1);
    }

    /** ReconcileRoles' transaction, on what was read before it. */
    method Reconcile(tx: Tx, u: User, current: seq<Role>, desired: seq<Role>,
                     currentSet: set<Role>, desiredSet: set<Role>)
      returns (ok: bool, granted: seq<Role>, revoked: seq<Role>)
      requires tx in prior && prior[tx] == RolesRead(u, currentSet, desiredSet)
      requires Enumerates(current, currentSet) && Enumerates(desired, desiredSet)
      modifies this
      ensures ok ==> State() == ReconcileStep(old(State()), tx, granted, revoked)
      ensures ok ==> Enumerates(granted, desiredSet - currentSet) && Enumerates(revoked, currentSet - desiredSet)
      ensures ok ==> Reconciled(old(State()), State(), u, granted, revoked)
      ensures !ok ==> tables == old(tables) && outbox == old(outbox) && State() == Done(old(State()), tx)
      ensures ok <==>
                && (TenantOwner in currentSet - desiredSet ==> old(live) && |OwnerRows(old(tables))| > 1)
                && (desiredSet - currentSet != {} ==> u in old(known))
                && (forall r :: r in currentSet - desiredSet ==> (u, r) in old(tables).roles)
    {
      ok, granted, revoked := WriteReconcile(tx, u, current, desired, currentSet, desiredSet);
      if ok {
        assert granted != [] ==> granted[0] in desiredSet - currentSet;
        ReconcileWrites(old(State()), tx, granted, revoked);
      }
    }

    // ---- P-8 and I-5 --------------------------------------------------------------

    /** The cascade: both UPDATEs with their events, the MembershipRevoked signal, the row. */
    method WriteCascade(u: User, rs: seq<Role>, ds: seq<Dept>)
      modifies `tables, `outbox, `members
      ensures State() == Cascade(old(State()), u, rs, ds)
    {
      var t := tables;
      tables := tables.(roles := set p | p in t.roles && p.0 != u);
      for i := 0 to |rs|
        invariant outbox == old(outbox) + Revoked(u, rs[..i])
        invariant tables == old(tables).(roles := set p | p in t.roles && p.0 != u) && members == old(members)
      {
        assert Revoked(u, rs[..i + 1]) == Revoked(u, rs[..i]) + [RoleRevoked(u, rs[i])];
        outbox := outbox + [RoleRevoked(u, rs[i])];
      }
      assert rs[..|rs|] == rs;
      tables := tables.(depts := map p | p in t.depts && p.0 != u :: t.depts[p]);
      for i := 0 to |ds|
        invariant outbox == old(outbox) + Revoked(u, rs) + DeptsRevoked(u, ds[..i])
        invariant tables == Cascade(old(State()), u, rs, ds).tables && members == old(members)
      {
        assert DeptsRevoked(u, ds[..i + 1]) == DeptsRevoked(u, ds[..i]) + [DeptRevoked(u, ds[i])];
        outbox := outbox + [DeptRevoked(u, ds[i])];
      }
      assert ds[..|ds|] == ds;
      outbox := outbox + [MembershipRevoked(u)];
      members := members - {u};
    }

    /** ... which leaves no row of the user and announces each. */
    method CascadeAll(u: User, rs: seq<Role>, ds: seq<Dept>)
      modifies `tables, `outbox, `members
      ensures State() == Cascade(old(State()), u, rs, ds)
      ensures Removed(old(State()), State(), u, rs, ds)
    {
      CascadeRemoves(State(), u, rs, ds);
      WriteCascade(u, rs, ds);
    }

    /** RemoveUser; `rs` and `ds` are what the cascading UPDATEs return. */
    method RemoveUser(u: User, rs: seq<Role>, ds: seq<Dept>) returns (ok: bool)
      requires Returned(tables, u, rs, ds)
      modifies this
      ensures State() == RemoveUserStep(old(State()), u, rs, ds)
      ensures ok <==> old(live) && u in old(members)
                      && ((u, TenantOwner) in old(tables).roles ==> |OwnerRows(old(tables))| > 1)
      ensures ok ==> Removed(old(State()), State(), u, rs, ds) && ownerless == old(ownerless)
      ensures !ok ==> State() == old(State())
    {
      if !live || u !in members {
        return false;
      }
      if (u, TenantOwner) in tables.roles && |OwnerRows(tables)| <= 1 {
        return false;
      }
      CascadeAll(u, rs, ds);
      return true;
    }

    /** DeleteMember: removing an absent member succeeds without effect. */
    method DeleteMember(u: User, rs: seq<Role>, ds: seq<Dept>) returns (escalated: bool)
      requires Returned(tables, u, rs, ds)
      modifies this
      ensures State() == DeleteMemberStep(old(State()), u, rs, ds)
      ensures escalated ==> ownerless && !old(ownerless) && OwnerRows(tables) == {}
      ensures u !in old(members) ==> State() == old(State()) && !escalated
      ensures u in old(members) ==>
                && Removed(old(State()), State(), u, rs, ds)
                && ownerless == (old(ownerless) || ((u, TenantOwner) in old(tables).roles && OwnerRows(tables) == {}))
                && escalated == (ownerless && !old(ownerless))
    {
      if u !in members {
        return false;
      }
      var wasOwner := (u, TenantOwner) in tables.roles;
      CascadeAll(u, rs, ds);
      escalated := false;
      if wasOwner && |OwnerRows(tables)| == 0 {
        escalated := !ownerless;
        ownerless := true;
      }
    }

    /** SetStatus to suspended, with the owner check decided before the transaction. */
    method Suspend(tx: Tx, u: User, isOwner: bool, versionMatches: bool) returns (ok: bool)
      requires tx in prior && prior[tx] == OwnerRead(u, isOwner)
      modifies this
      ensures State() == SuspendStep(old(State()), tx, versionMatches)
      ensures ok <==> (isOwner ==> old(live) && |OwnerRows(old(tables))| > 1) && u in old(members) && versionMatches
      ensures members == if ok then old(members)[u := Suspended] else old(members)
      ensures tables == old(tables) && outbox == old(outbox) && known == old(known) && ownerless == old(ownerless)
    {
      prior := prior - {tx};
      if isOwner {
        if !live {
          return false;
        }
        if |OwnerRows(tables)| <= 1 {
          return false;
        }
      }
      if u !in members || !versionMatches {
        return false;
      }
      members := members[u := Suspended];
      return true;
    }

    /** SetStatus to active: no owner check and no tenant lock. */
    method Reactivate(u: User, versionMatches: bool) returns (ok: bool)
      modifies `members
      ensures State() == Next(old(State()), RoleRuns.Reactivate(u, versionMatches))
      ensures ok <==> u in old(members) && versionMatches
      ensures members == if ok then old(members)[u := Active] else old(members)
    {
      if u !in members || !versionMatches {
        return false;
      }
      members := members[u := Active];
      return true;
    }

    // ---- departments, O-7, I-3 and I-10 -------------------------------------------

    /** Assign: the event is chosen from the row found under the lock. */
    method AssignOne(u: User, d: Dept, l: Level)
      modifies `tables, `outbox
      ensures tables == Assigned(old(tables), u, d, l)
      ensures outbox == old(outbox) + AssignEvent(old(tables), u, d, l)
      ensures tables.roles == old(tables).roles && tables.depts == old(tables).depts[(u, d) := l]
      ensures outbox == old(outbox) + (if (u, d) !in old(tables).depts then [DeptGranted(u, d, l)]
                                       else if old(tables).depts[(u, d)] == l then []
                                       else [DeptLevelChanged(u, d, old(tables).depts[(u, d)], l)])
    {
      if (u, d) in tables.depts {
        var previous := tables.depts[(u, d)];
        if previous == l {
          assert tables.depts[(u, d) := l] == tables.depts;
          return;
        }
        tables := tables.(depts := tables.depts[(u, d) := l]);
        outbox := outbox + [DeptLevelChanged(u, d, previous, l)];
      } else {
        tables := tables.(depts := tables.depts[(u, d) := l]);
        outbox := outbox + [DeptGranted(u, d, l)];
      }
    }

    method Assign(tx: Tx, u: User, d: Dept, l: Level) returns (ok: bool)
      requires tx in prior && prior[tx] == MemberRead(u)
      modifies this
      ensures State() == AssignStep(old(State()), tx, d, l)
      ensures ok <==> u in old(known)
      ensures tables == if ok then old(tables).(depts := old(tables).depts[(u, d) := l]) else old(tables)
      ensures outbox == old(outbox) + (if !ok then [] else if (u, d) !in old(tables).depts then [DeptGranted(u, d, l)]
                                       else if old(tables).depts[(u, d)] == l then []
                                       else [DeptLevelChanged(u, d, old(tables).depts[(u, d)], l)])
    {
      prior := prior - {tx};
      if u !in known {
        return false;
      }
      AssignOne(u, d, l);
      return true;
    }

    method RemoveDept(u: User, d: Dept) returns (ok: bool)
      modifies this
      ensures State() == RemoveDeptStep(old(State()), u, d)
      ensures ok <==> (u, d) in old(tables).depts
      ensures ok ==> tables == old(tables).(depts := old(tables).depts - {(u, d)})
      ensures ok ==> outbox == old(outbox) + [DeptRevoked(u, d)]
      ensures !ok ==> State() == old(State())
    {
      if (u, d) !in tables.depts {
        return false;
      }
      tables := tables.(depts := tables.depts - {(u, d)});
      outbox := outbox + [DeptRevoked(u, d)];
      return true;
    }

    method ReassignOwner(tx: Tx, u: User) returns (ok: bool)
      requires tx in prior && prior[tx] == CandidateRead(u)
      modifies this
      ensures State() == ReassignStep(old(State()), tx)
      ensures ok <==> u in old(known)
      ensures ok ==> u in OwnerRows(tables) && !ownerless && outbox == old(outbox) + [RoleGranted(u, TenantOwner)]
      ensures ok ==> tables == old(tables).(roles := old(tables).roles + {(u, TenantOwner)})
      ensures !ok ==> tables == old(tables) && outbox == old(outbox) && ownerless == old(ownerless)
    {
      prior := prior - {tx};
      if u !in known {
        return false;
      }
      tables := tables.(roles := tables.roles + {(u, TenantOwner)});
      ownerless := false;
      outbox := outbox + [RoleGranted(u, TenantOwner)];
      assert (u, TenantOwner).0 in OwnerRows(tables);
      return true;
    }

    /** AddFromRegister's loop over the queued roles. */
    method GrantInitial(u: User, rs: seq<Role>)
      modifies `tables, `outbox
      ensures tables == old(tables).(roles := old(tables).roles + Pairs(u, rs))
      ensures outbox == old(outbox) + Granted(u, rs)
    {
      for i := 0 to |rs|
        invariant tables == old(tables).(roles := old(tables).roles + Pairs(u, rs[..i]))
        invariant outbox == old(outbox) + Granted(u, rs[..i])
      {
        assert rs[..i + 1] == rs[..i] + [rs[i]];
        GrantedSnoc(u, rs[..i], rs[i]);
        tables := tables.(roles := tables.roles + {(u, rs[i])});
        outbox := outbox + [RoleGranted(u, rs[i])];
      }
      assert rs[..|rs|] == rs;
    }

    /** ... and over the queued departments. */
    method AssignInitial(u: User, ps: seq<(Dept, Level)>)
      modifies `tables, `outbox
      ensures tables == AssignedAll(old(tables), u, ps)
      ensures outbox == old(outbox) + InitialEvents(u, ps)
    {
      for i := 0 to |ps|
        invariant tables == AssignedAll(old(tables), u, ps[..i])
        invariant outbox == old(outbox) + InitialEvents(u, ps[..i])
      {
        assert ps[..i + 1][..i] == ps[..i];
        assert InitialEvents(u, ps[..i + 1]) == InitialEvents(u, ps[..i]) + [DeptGranted(u, ps[i].0, ps[i].1)];
        tables := tables.(depts := tables.depts[(u, ps[i].0) := ps[i].1]);
        outbox := outbox + [DeptGranted(u, ps[i].0, ps[i].1)];
      }
      assert ps[..|ps|] == ps;
    }

    /** AddFromRegister's writes for a matched invitation. */
    method AcceptInvitation(u: User, rs: seq<Role>, ps: seq<(Dept, Level)>) returns (ok: bool)
      modifies this
      ensures State() == AcceptStep(old(State()), u, rs, ps)
      ensures ok <==> old(live)
      ensures ok ==> Onboarded(old(State()), State(), u, rs, ps)
      ensures ok ==> u in members && forall r :: r in rs ==> (u, r) in tables.roles
      ensures !ok ==> State() == old(State())
    {
      AcceptOnboards(State(), u, rs, ps);
      if !live {
        return false;
      }
      if u !in members {
        members := members[u := Active];
      }
      known := known + {u};
      GrantInitial(u, rs);
      AssignInitial(u, ps);
      return true;
    }

    /** The transaction of AssignFromGroups over the resolved pairs and roles. */
    method ApplyJit(tx: Tx, u: User, ps: seq<(Dept, Level)>, codes: seq<Role>)
      returns (ok: bool, granted: seq<Role>)
      requires tx in prior && prior[tx] == MemberRead(u) && Distinct(codes)
      modifies this
      ensures State() == JitStep(old(State()), tx, ps, granted)
      ensures ok <==> u in known
      ensures ok ==> Visits(granted, codes, RolesOf(old(tables), u))
      ensures ok ==> RolesOf(tables, u) == RolesOf(old(tables), u) + set r | r in codes
      ensures ok ==> RolesChange(old(tables), tables, u, set r | r in granted, {})
      ensures ok ==> DeptsChange(old(tables), tables, u, ps)
      ensures !ok ==> tables == old(tables) && outbox == old(outbox)
    {
      prior := prior - {tx};
      if u !in known {
        return false, [];
      }
      for i := 0 to |ps|
        invariant tables == AssignedAll(old(tables), u, ps[..i])
        invariant outbox == old(outbox) + AssignEvents(old(tables), u, ps[..i])
        invariant State() == old(State()).(prior := prior, tables := tables, outbox := outbox)
        invariant prior == old(prior) - {tx}
      {
        assert ps[..i + 1][..i] == ps[..i];
        AssignOne(u, ps[i].0, ps[i].1);
      }
      assert ps[..|ps|] == ps;
      ghost var t := tables;
      AssignedRoles(old(tables), u, ps);
      AssignedChange(old(tables), u, ps);
      var held := RolesOf(tables, u);
      granted := GrantLoop(u, codes, held);
      JitRoles(t, u, codes, granted);
      GrantedChange(t, u, granted);
      ok := true;
    }
  }

  /** Granting the codes not held makes the roles the old ones and the matched ones. */
  lemma JitRoles(t: Tables, u: User, codes: seq<Role>, granted: seq<Role>)
    requires Visits(granted, codes, RolesOf(t, u))
    ensures RolesOf(t.(roles := t.roles + Pairs(u, granted)), u) == RolesOf(t, u) + set r | r in codes
    ensures forall i :: 0 <= i < |granted| ==> (u, granted[i]) !in t.roles
  {
    var t' := t.(roles := t.roles + Pairs(u, granted));
    forall i | 0 <= i < |granted| ensures (u, granted[i]) !in t.roles {
      assert granted[i] in granted;
      RoleIff(t, u, granted[i]);
    }
    forall r ensures r in RolesOf(t', u) <==> r in RolesOf(t, u) || r in codes {
      RoleIff(t, u, r);
      RoleIff(t', u, r);
      if r in codes && r !in RolesOf(t, u) {
        var i :| 0 <= i < |granted| && granted[i] == r;
        assert (u, granted[i]) in Pairs(u, granted);
      }
    }
  }

  lemma NotYetRevoked(u: User, revoked: seq<Role>, l: seq<Role>, i: nat, skip: set<Role>)
    requires i < |l| && Distinct(l) && Visits(revoked, l[..i], skip)
    ensures (u, l[i]) !in Pairs(u, revoked)
  {
    assert l[i] !in l[..i];
  }

  lemma ReconcileAccepted(w: World, tx: Tx, gs: seq<Role>, rs: seq<Role>, t1: Tables)
    requires tx in w.prior && w.prior[tx].RolesRead?
    requires var d := w.prior[tx];
             && Enumerates(gs, d.desired - d.current) && Enumerates(rs, d.current - d.desired)
             && (TenantOwner in d.current - d.desired ==> w.live && |OwnerRows(w.tables)| > 1)
             && (gs != [] ==> d.user in w.known)
             && t1 == w.tables.(roles := w.tables.roles + Pairs(d.user, gs))
             && forall i :: 0 <= i < |rs| ==> (d.user, rs[i]) in t1.roles
    ensures var u := w.prior[tx].user;
            ReconcileStep(w, tx, gs, rs) ==
            Done(w, tx).(tables := t1.(roles := t1.roles - Pairs(u, rs)),
                         outbox := w.outbox + Granted(u, gs) + Revoked(u, rs))
  {
    var u := w.prior[tx].user;
    forall i | 0 <= i < |rs| ensures (u, rs[i]) in w.tables.roles {
      assert (u, rs[i]) !in Pairs(u, gs);
    }
  }

  lemma {:induction false} AssigningIgnoresRoles(t: Tables, u: User, ps: seq<(Dept, Level)>, roles: set<(User, Role)>)
    ensures AssignedAll(t.(roles := roles), u, ps) == AssignedAll(t, u, ps).(roles := roles)
  {
    if ps == [] {
    } else {
      AssigningIgnoresRoles(t, u, ps[..|ps| - 1], roles);
    }
  }

  lemma HasFirst(l: seq<Role>)
    ensures l == [] || l[0] in l
  {
  }

  lemma NothingLeft(visited: seq<Role>, l: seq<Role>, skip: set<Role>)
    requires Visits(visited, l, skip) && forall r :: r in l ==> r in skip
    ensures visited == []
  {
    HasFirst(visited);
  }

  /** I-10 run twice on one resolution: the second run emits nothing exactly if no department
      has two matched levels. */
  lemma SecondJitQuietExactly(w: World, tx1: Tx, tx2: Tx, u: User, ps: seq<(Dept, Level)>, codes: seq<Role>,
                              g1: seq<Role>, g2: seq<Role>)
    requires tx1 != tx2 && tx1 in w.prior && tx2 in w.prior
    requires w.prior[tx1] == w.prior[tx2] == MemberRead(u) && u in w.known
    requires Distinct(ps) && Visits(g1, codes, RolesOf(w.tables, u))
    requires Visits(g2, codes, RolesOf(JitStep(w, tx1, ps, g1).tables, u))
    ensures var w1 := JitStep(w, tx1, ps, g1);
            JitStep(w1, tx2, ps, g2).outbox == w1.outbox <==> OneLevelEach(ps)
  {
    var w1 := JitStep(w, tx1, ps, g1);
    var t := AssignedAll(w.tables, u, ps);
    AssignedRoles(w.tables, u, ps);
    JitRoles(w.tables, u, codes, g1);
    JitRoles(t, u, codes, g1);
    assert w1.tables == t.(roles := t.roles + Pairs(u, g1));
    NothingLeft(g2, codes, RolesOf(w1.tables, u));
    AssigningIgnoresRoles(w.tables, u, ps, w1.tables.roles);
    SecondRunQuietExactly(w.tables.(roles := w1.tables.roles), u, ps);
    assert Granted(u, g2) == [];
    assert JitStep(w1, tx2, ps, g2).outbox == w1.outbox + AssignEvents(w1.tables, u, ps);
  }
}
