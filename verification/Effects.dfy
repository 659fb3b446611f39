/**
  What each membership mutator does to the rows, row by row, and what it announces, event by
  event; and what a call comes to when nothing runs between its read and its transaction.
 */
module Effects {
  import opened Roles
  import opened RoleRuns
  import opened Groups

  // ---- rows -------------------------------------------------------------------------

  /** The user has gained and lost exactly these roles; no one else's change. */
  ghost predicate RolesChange(t: Tables, t': Tables, u: User, gained: set<Role>, lost: set<Role>) {
    forall v: User, r: Role :: (v, r) in t'.roles <==>
      (v == u && r in gained) || ((v, r) in t.roles && !(v == u && r in lost))
  }

  predicate Listed(ps: seq<(Dept, Level)>, d: Dept) { exists i :: 0 <= i < |ps| && ps[i].0 == d }

  /** The last pair of the department names the level. */
  predicate LastLevel(ps: seq<(Dept, Level)>, d: Dept, l: Level) {
    exists i :: 0 <= i < |ps| && ps[i] == (d, l) && forall j :: i < j < |ps| ==> ps[j].0 != d
  }

  predicate SameRow(t: Tables, t': Tables, k: (User, Dept)) {
    (k in t'.depts <==> k in t.depts) && (k in t.depts ==> t'.depts[k] == t.depts[k])
  }

  /** Each listed department of the user holds the level of its last pair; no other row changes. */
  ghost predicate DeptsChange(t: Tables, t': Tables, u: User, ps: seq<(Dept, Level)>) {
    forall k: (User, Dept) ::
      if k.0 == u && Listed(ps, k.1) then k in t'.depts && LastLevel(ps, k.1, t'.depts[k]) else SameRow(t, t', k)
  }

  lemma ListedSnoc(ps: seq<(Dept, Level)>, d: Dept)
    requires ps != []
    ensures Listed(ps, d) <==> Listed(ps[..|ps| - 1], d) || ps[|ps| - 1].0 == d
  {
    var n := |ps| - 1;
    if Listed(ps[..n], d) {
      var i :| 0 <= i < n && ps[..n][i].0 == d;
      assert ps[i].0 == d;
    }
    if Listed(ps, d) && ps[n].0 != d {
      var i :| 0 <= i < |ps| && ps[i].0 == d;
      assert ps[..n][i].0 == d;
    }
  }

  lemma LastLevelSnoc(ps: seq<(Dept, Level)>, d: Dept, l: Level)
    requires ps != [] && ps[|ps| - 1].0 != d && LastLevel(ps[..|ps| - 1], d, l)
    ensures LastLevel(ps, d, l)
  {
    var n := |ps| - 1;
    var i :| 0 <= i < n && ps[..n][i] == (d, l) && forall j :: i < j < n ==> ps[..n][j].0 != d;
    assert ps[i] == (d, l);
    forall j | i < j < |ps| ensures ps[j].0 != d { if j < n { assert ps[..n][j] == ps[j]; } }
  }

  /** Assign over (department, level) pairs: the last pair of a department wins. */
  lemma {:induction false} AssignedChange(t: Tables, u: User, ps: seq<(Dept, Level)>)
    ensures DeptsChange(t, AssignedAll(t, u, ps), u, ps) && AssignedAll(t, u, ps).roles == t.roles
  {
    if ps == [] {
    } else {
      var n := |ps| - 1;
      var t1, t' := AssignedAll(t, u, ps[..n]), AssignedAll(t, u, ps);
      AssignedChange(t, u, ps[..n]);
      forall k: (User, Dept)
        ensures if k.0 == u && Listed(ps, k.1) then k in t'.depts && LastLevel(ps, k.1, t'.depts[k])
                else SameRow(t, t', k)
      {
        ListedSnoc(ps, k.1);
        if k == (u, ps[n].0) {
          assert ps[n] == (k.1, t'.depts[k]);
        } else if k.0 == u && Listed(ps, k.1) {
          LastLevelSnoc(ps, k.1, t1.depts[k]);
        }
      }
    }
  }

  lemma GrantedChange(t: Tables, u: User, rs: seq<Role>)
    ensures RolesChange(t, t.(roles := t.roles + Pairs(u, rs)), u, set r | r in rs, {})
  {
    forall v: User, r: Role { PairIff(u, rs, v, r); }
  }

  // ---- events -----------------------------------------------------------------------

  /** The log grew by one Granted for each role and then one for each department. */
  predicate AnnouncesOffer(out: seq<Event>, out': seq<Event>, u: User, rs: seq<Role>, ps: seq<(Dept, Level)>) {
    && |out'| == |out| + |rs| + |ps| && out'[..|out|] == out
    && (forall i :: 0 <= i < |rs| ==> out'[|out| + i] == RoleGranted(u, rs[i]))
    && (forall i :: 0 <= i < |ps| ==> out'[|out| + |rs| + i] == DeptGranted(u, ps[i].0, ps[i].1))
  }

  /** ... by one Granted for each role gained and one Revoked for each lost. */
  predicate AnnouncesRoles(out: seq<Event>, out': seq<Event>, u: User, gs: seq<Role>, rs: seq<Role>) {
    && |out'| == |out| + |gs| + |rs| && out'[..|out|] == out
    && (forall i :: 0 <= i < |gs| ==> out'[|out| + i] == RoleGranted(u, gs[i]))
    && (forall i :: 0 <= i < |rs| ==> out'[|out| + |gs| + i] == RoleRevoked(u, rs[i]))
  }

  /** ... by one Revoked for each role, one for each department, and MembershipRevoked. */
  predicate AnnouncesRemoval(out: seq<Event>, out': seq<Event>, u: User, rs: seq<Role>, ds: seq<Dept>) {
    && |out'| == |out| + |rs| + |ds| + 1 && out'[..|out|] == out
    && (forall i :: 0 <= i < |rs| ==> out'[|out| + i] == RoleRevoked(u, rs[i]))
    && (forall i :: 0 <= i < |ds| ==> out'[|out| + |rs| + i] == DeptRevoked(u, ds[i]))
    && out'[|out'| - 1] == MembershipRevoked(u)
  }

  // ---- I-3 --------------------------------------------------------------------------

  /** The user is a member and holds what the invitation offered; what was there before stays. */
  ghost predicate Onboarded(w: World, w': World, u: User, rs: seq<Role>, ps: seq<(Dept, Level)>) {
    && w'.members == (if u in w.members then w.members else w.members[u := Active])
    && w'.known == w.known + {u}
    && RolesChange(w.tables, w'.tables, u, set r | r in rs, {}) && DeptsChange(w.tables, w'.tables, u, ps)
    && AnnouncesOffer(w.outbox, w'.outbox, u, rs, ps)
    && w' == w.(members := w'.members, known := w'.known, tables := w'.tables, outbox := w'.outbox)
  }

  /** Accepting an invitation of a live tenant gives the member every role and every department it
      offers, and announces each. */
  lemma AcceptOnboards(w: World, u: User, rs: seq<Role>, ps: seq<(Dept, Level)>)
    ensures if w.live then Onboarded(w, AcceptStep(w, u, rs, ps), u, rs, ps) else AcceptStep(w, u, rs, ps) == w
  {
    if w.live {
      var t := w.tables.(roles := w.tables.roles + Pairs(u, rs));
      GrantedChange(w.tables, u, rs);
      AssignedChange(t, u, ps);
      OfferAnnounced(w.outbox, u, rs, ps);
    }
  }

  lemma OfferAnnounced(out: seq<Event>, u: User, rs: seq<Role>, ps: seq<(Dept, Level)>)
    ensures AnnouncesOffer(out, out + Granted(u, rs) + InitialEvents(u, ps), u, rs, ps)
  {
  }

  // ---- P-8 and I-5 ------------------------------------------------------------------

  /** No membership and no row of the user is left, and each is announced. */
  ghost predicate Removed(w: World, w': World, u: User, rs: seq<Role>, ds: seq<Dept>) {
    && w'.members == w.members - {u}
    && (forall v: User, r: Role :: (v, r) in w'.tables.roles <==> (v, r) in w.tables.roles && v != u)
    && (forall k: (User, Dept) :: if k.0 == u then k !in w'.tables.depts else SameRow(w.tables, w'.tables, k))
    && AnnouncesRemoval(w.outbox, w'.outbox, u, rs, ds)
    && w' == w.(members := w'.members, tables := w'.tables, outbox := w'.outbox, ownerless := w'.ownerless)
  }

  lemma CascadeRemoves(w: World, u: User, rs: seq<Role>, ds: seq<Dept>)
    ensures Removed(w, Cascade(w, u, rs, ds), u, rs, ds)
  {
    RemovalAnnounced(w.outbox, u, rs, ds);
  }

  lemma RemovalAnnounced(out: seq<Event>, u: User, rs: seq<Role>, ds: seq<Dept>)
    ensures AnnouncesRemoval(out, out + Revoked(u, rs) + DeptsRevoked(u, ds) + [MembershipRevoked(u)], u, rs, ds)
  {
  }

  // ---- calls with nothing in between --------------------------------------------------

  /** P-7: a member is suspended unless the only owner row is theirs. */
  lemma UndisturbedSuspend(w: World, tx: Tx, u: User)
    requires w.live
    ensures var w' := Next(Next(w, ReadOwner(tx, u)), Suspend(tx, true));
            && w'.tables == w.tables && w'.outbox == w.outbox
            && w'.members == if u in w.members && ((u, TenantOwner) in w.tables.roles ==> |OwnerRows(w.tables)| > 1)
                             then w.members[u := Suspended] else w.members
  {
  }

  lemma ReactivateActivates(w: World, u: User, current: bool)
    ensures Next(w, Reactivate(u, current))
         == if u in w.members && current then w.(members := w.members[u := Active]) else w
  {
  }

  // P-28

  /** The reconcile's writes: exactly the roles to grant are gained and those to revoke lost. */
  ghost predicate Reconciled(w: World, w': World, u: User, gs: seq<Role>, rs: seq<Role>) {
    && RolesChange(w.tables, w'.tables, u, set r | r in gs, set r | r in rs)
    && w'.tables.depts == w.tables.depts && AnnouncesRoles(w.outbox, w'.outbox, u, gs, rs)
  }

  lemma RolesAnnounced(out: seq<Event>, u: User, gs: seq<Role>, rs: seq<Role>)
    ensures AnnouncesRoles(out, out + Granted(u, gs) + Revoked(u, rs), u, gs, rs)
  {
  }

  lemma RewrittenRoles(t: Tables, u: User, gs: seq<Role>, rs: seq<Role>)
    requires forall i :: 0 <= i < |gs| ==> gs[i] !in rs
    ensures RolesChange(t, t.(roles := t.roles + Pairs(u, gs) - Pairs(u, rs)), u, set r | r in gs, set r | r in rs)
  {
    forall v: User, r: Role
      ensures (v, r) in t.roles + Pairs(u, gs) - Pairs(u, rs) <==>
                (v == u && r in gs) || ((v, r) in t.roles && !(v == u && r in rs))
    {
      PairIff(u, gs, v, r);
      PairIff(u, rs, v, r);
    }
  }

  lemma ReconcileWrites(w: World, tx: Tx, gs: seq<Role>, rs: seq<Role>)
    requires MayReconcile(w, tx, gs, rs)
    ensures Reconciled(w, ReconcileStep(w, tx, gs, rs), w.prior[tx].user, gs, rs)
  {
    RewrittenRoles(w.tables, w.prior[tx].user, gs, rs);
    RolesAnnounced(w.outbox, w.prior[tx].user, gs, rs);
  }

  lemma DesiredOnly(t: Tables, t': Tables, u: User, desired: set<Role>, gs: seq<Role>, rs: seq<Role>)
    requires Enumerates(gs, desired - RolesOf(t, u)) && Enumerates(rs, RolesOf(t, u) - desired)
    requires RolesChange(t, t', u, set r | r in gs, set r | r in rs)
    ensures RolesOf(t', u) == desired
    ensures forall v: User, r: Role :: v != u ==> ((v, r) in t'.roles <==> (v, r) in t.roles)
  {
    forall r ensures r in RolesOf(t', u) <==> r in desired {
      RoleIff(t, u, r);
      RoleIff(t', u, r);
    }
  }

  /** Afterwards the member's roles are exactly the desired ones, unless that would take the only
      owner row; then nothing changes. */
  lemma UndisturbedReconcile(w: World, tx: Tx, u: User, desired: set<Role>, gs: seq<Role>, rs: seq<Role>)
    requires w.live && u in w.members && u in w.known && tx !in w.prior
    requires Enumerates(gs, desired - RolesOf(w.tables, u)) && Enumerates(rs, RolesOf(w.tables, u) - desired)
    ensures var w' := Next(Next(w, ReadRoles(tx, u, desired)), Reconcile(tx, gs, rs));
            if TenantOwner in RolesOf(w.tables, u) && TenantOwner !in desired && |OwnerRows(w.tables)| <= 1
            then w' == w
            else RolesOf(w'.tables, u) == desired && Reconciled(w, w', u, gs, rs)
  {
    if !(TenantOwner in RolesOf(w.tables, u) - desired && |OwnerRows(w.tables)| <= 1) {
      var w1 := Begin(w, tx, RolesRead(u, RolesOf(w.tables, u), desired));
      assert ReadRolesStep(w, tx, u, desired) == w1;
      forall i | 0 <= i < |rs| ensures (u, rs[i]) in w.tables.roles { RoleIff(w.tables, u, rs[i]); }
      ReconcileWrites(w1, tx, gs, rs);
      DesiredOnly(w.tables, ReconcileStep(w1, tx, gs, rs).tables, u, desired, gs, rs);
    }
  }

  lemma RoleIff(t: Tables, u: User, r: Role)
    ensures r in RolesOf(t, u) <==> (u, r) in t.roles
  {
    assert (u, r).1 == r;
  }

  /** P-10: the member's level in the department is the one given. */
  lemma UndisturbedAssign(w: World, tx: Tx, u: User, d: Dept, l: Level)
    requires u in w.members && u in w.known
    ensures var w' := Next(Next(w, ReadMember(tx, u)), Assign(tx, d, l));
            && w'.tables.depts == w.tables.depts[(u, d) := l] && w'.tables.roles == w.tables.roles
            && w'.outbox == w.outbox + (if (u, d) !in w.tables.depts then [DeptGranted(u, d, l)]
                                        else if w.tables.depts[(u, d)] == l then []
                                        else [DeptLevelChanged(u, d, w.tables.depts[(u, d)], l)])
  {
  }

  lemma RemoveDeptRemoves(w: World, u: User, d: Dept)
    ensures var w' := Next(w, RemoveDept(u, d));
            if (u, d) in w.tables.depts
            then && (u, d) !in w'.tables.depts && w'.tables.roles == w.tables.roles
                 && (forall k: (User, Dept) :: k != (u, d) ==> SameRow(w.tables, w'.tables, k))
                 && w'.outbox == w.outbox + [DeptRevoked(u, d)]
            else w' == w
  {
  }

  /** O-7: an active member of a live tenant becomes owner, and the tenant is no longer ownerless. */
  lemma UndisturbedReassign(w: World, tx: Tx, u: User)
    requires w.live && u in w.members && w.members[u] == Active && u in w.known
    ensures var w' := Next(Next(w, ReadCandidate(tx, u)), Reassign(tx));
            && w'.tables == w.tables.(roles := w.tables.roles + {(u, TenantOwner)}) && !w'.ownerless
            && w'.outbox == w.outbox + [RoleGranted(u, TenantOwner)] && w'.members == w.members
  {
  }

  /** I-10: the member's departments hold the last level matched, and the roles not held before are
      added. */
  lemma UndisturbedJit(w: World, tx: Tx, u: User, ps: seq<(Dept, Level)>, rs: seq<Role>)
    requires u in w.members && u in w.known && forall i :: 0 <= i < |rs| ==> (u, rs[i]) !in w.tables.roles
    ensures var w' := Next(Next(w, ReadMember(tx, u)), Jit(tx, ps, rs));
            && RolesChange(w.tables, w'.tables, u, set r | r in rs, {}) && DeptsChange(w.tables, w'.tables, u, ps)
            && w'.members == w.members
  {
    var w1 := Begin(w, tx, MemberRead(u));
    assert Next(w, ReadMember(tx, u)) == w1;
    JitChanges(w1, tx, ps, rs);
  }

  lemma JitChanges(w: World, tx: Tx, ps: seq<(Dept, Level)>, rs: seq<Role>)
    requires tx in w.prior && w.prior[tx].MemberRead? && w.prior[tx].user in w.known
    requires forall i :: 0 <= i < |rs| ==> (w.prior[tx].user, rs[i]) !in w.tables.roles
    ensures var u := w.prior[tx].user;
            var w' := JitStep(w, tx, ps, rs);
            && RolesChange(w.tables, w'.tables, u, set r | r in rs, {}) && DeptsChange(w.tables, w'.tables, u, ps)
            && w'.members == w.members
  {
    var u := w.prior[tx].user;
    AssignedChange(w.tables, u, ps);
    GrantedChange(AssignedAll(w.tables, u, ps), u, rs);
  }

  /** I-1 seeds the owner, once. */
  lemma SignupSeeds(w: World, o: User)
    ensures var w' := Next(w, Signup(o));
            if w.row then w' == w
            else && w'.row && w'.live && !w'.ownerless && o in w'.members && w'.members[o] == Active && o in w'.known
                 && w'.tables == w.tables.(roles := w.tables.roles + {(o, TenantOwner)})
                 && w'.outbox == w.outbox + [RoleGranted(o, TenantOwner)]
  {
  }

  /** A plain add makes an absent user an active member, and changes nothing for a present one. */
  lemma JoinAdds(w: World, u: User)
    ensures var w' := Next(w, Join(u));
            && w'.tables == w.tables && w'.outbox == w.outbox
            && w'.members == (if w.live && u !in w.members then w.members[u := Active] else w.members)
            && (w.live ==> u in w'.known)
  {
  }

  /** Offboarding and hard deletion leave no member and no row. */
  lemma PurgeEmpties(w: World)
    requires w.live
    ensures var w' := Next(w, Offboard);
            && !w'.live && w'.row == w.row && w'.members == map[] && w'.known == {}
            && w'.tables.roles == {} && w'.tables.depts == map[] && w'.outbox == w.outbox + [MembershipsPurged]
    ensures Next(w, HardDelete) == Next(w, Offboard).(row := false)
  {
  }
}
