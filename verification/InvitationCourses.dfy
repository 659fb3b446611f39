/**
  What becomes of an invitation when nothing disturbs it: invited and accepted, revoked and
  cleaned up, or expired.
 */
module InvitationCourses {
  import opened Tenants
  import opened Invitations

  lemma Invited(w: World, id: Id, kc: KcUser, lifetime: nat)
    requires w.lock.None? && Occupancy(w) < w.seats && id !in w.invites && lifetime > 0
    ensures Next(Next(w, LockAndCount), Create(id, kc, lifetime, 0))
         == w.(invites := w.invites[id := Invite(Pending, w.now + lifetime, 0, Some(kc), false)])
  {
    assert CountStep(w) == w.(lock := Some(Inviting(false)));
  }

  lemma Looked(w: World, tx: Tx, id: Id)
    requires w.lock.None? && tx !in w.open && PendingRow(w, id) && w.invites[id].expires > w.now
    ensures Next(Next(w, Find(tx, id)), Look(tx)) == w.(lock := Some(Accepting(Full(w), id, false)))
  {
    assert w.open[tx := Matched(id)] - {tx} == w.open;
  }

  /** An invitation made below the cap and accepted before it expires makes its user a member, and
      takes one seat. */
  lemma InvitedThenAccepted(w: World, tx: Tx, id: Id, kc: KcUser, lifetime: nat, u: User)
    requires w.lock.None? && Occupancy(w) < w.seats && id !in w.invites && lifetime > 0
    requires tx !in w.open && u !in w.members
    ensures var w1 := Next(Next(w, LockAndCount), Create(id, kc, lifetime, 0));
            var w' := Next(Next(Next(w1, Find(tx, id)), Look(tx)), Accept(u));
            && w'.invites == w.invites[id := Invite(Accepted, w.now + lifetime, 1, Some(kc), false)]
            && w'.members == w.members[u := MemberActive] && w'.granted == w.granted + multiset{id}
            && w'.lock.None? && Occupancy(w') == Occupancy(w) + 1
  {
    Invited(w, id, kc, lifetime);
    var w1 := w.(invites := w.invites[id := Invite(Pending, w.now + lifetime, 0, Some(kc), false)]);
    Looked(w1, tx, id);
    var w2 := w1.(lock := Some(Accepting(Full(w1), id, false)));
    AcceptedRow(w2, u);
    var row := Invite(Accepted, w.now + lifetime, 1, Some(kc), false);
    assert w1.invites[id := row] == w.invites[id := row];
    PendingInsert(w.invites, id, row, w.now);
    Activates(w.members, u);
  }

  lemma AcceptedRow(w: World, u: User)
    requires RowTaken(w) && !w.lock.value.overdue && u !in w.members
    ensures var id := w.lock.value.id;
            var w' := Next(w, Accept(u));
            && w'.invites == w.invites[id := w.invites[id].(status := Accepted, version := w.invites[id].version + 1)]
            && w'.members == w.members[u := MemberActive] && w'.granted == w.granted + multiset{id}
            && w'.lock.None? && w'.now == w.now
  {
  }

  lemma RevokedRow(w: World, tx: Tx, id: Id)
    requires !RowHeld(w, id) && tx !in w.open && PendingRow(w, id)
    ensures var i := w.invites[id];
            var w' := Next(Next(w, ReadVersion(tx, id)), Revoke(tx));
            && w'.invites == w.invites[id := i.(status := Revoked, version := i.version + 1)]
            && w'.marking == w.marking[id := i.version + 1] && w'.deleted == w.deleted && w'.clearing == w.clearing
  {
  }

  lemma MarkedRow(w: World, id: Id)
    requires id in w.invites && id in w.marking && w.marking[id] == w.invites[id].version
    ensures var i := w.invites[id];
            var w' := Next(w, Mark(id));
            && w'.invites == w.invites[id := i.(cleanup := true, version := i.version + 1)]
            && w'.deleted == w.deleted && w'.clearing == w.clearing
  {
  }

  lemma CleanedRow(w: World, id: Id)
    requires id in w.invites && w.invites[id].cleanup && w.invites[id].kc.Some?
    ensures var i := w.invites[id];
            var w' := Next(Next(w, Delete(id)), Clear(id));
            && w'.invites == w.invites[id := i.(cleanup := false, version := i.version + 1)]
            && w'.deleted == w.deleted + {i.kc.value}
  {
  }

  /** A pending invitation that is revoked and then swept: the Keycloak user is deleted and the
      marker gone. */
  lemma RevokedThenCleaned(w: World, tx: Tx, id: Id)
    requires !RowHeld(w, id) && tx !in w.open && PendingRow(w, id) && w.invites[id].kc.Some?
    ensures var i := w.invites[id];
            var w1 := Next(Next(Next(w, ReadVersion(tx, id)), Revoke(tx)), Mark(id));
            var w' := Next(Next(w1, Delete(id)), Clear(id));
            && w'.invites == w.invites[id := i.(status := Revoked, version := i.version + 3, cleanup := false)]
            && w'.deleted == w.deleted + {i.kc.value}
  {
    var i := w.invites[id];
    RevokedRow(w, tx, id);
    var w1 := Next(Next(w, ReadVersion(tx, id)), Revoke(tx));
    MarkedRow(w1, id);
    var w2 := Next(w1, Mark(id));
    CleanedRow(w2, id);
    assert w2.invites == w.invites[id := i.(status := Revoked, version := i.version + 2, cleanup := true)];
  }

  /** An expiry pass over the given rows makes exactly the pending ones past their expiry expired, and
      marks them. */
  lemma ExpiredInOnePass(w: World, tx: Tx, ids: set<Id>)
    requires w.lock.None? && tx !in w.batches
    ensures var w' := Next(Next(w, SelectOverdue(tx, ids)), ExpireSelected(tx));
            && w'.invites.Keys == w.invites.Keys && w'.batches == w.batches
            && forall id :: id in w.invites ==>
                 var i := w.invites[id];
                 w'.invites[id] == if id in ids && i.status == Pending && i.expires < w.now
                                   then i.(status := Expired, cleanup := true, version := i.version + 1) else i
  {
    var w1 := SelectStep(w, tx, ids);
    assert MayExpire(w1, tx);
    assert w1.batches - {tx} == w.batches;
  }
}
