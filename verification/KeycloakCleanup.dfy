/**
  Which Keycloak users of terminated invitations still await deletion: the durable marker
  over every run, and what P-31's two statements without a transaction cost it.
 */
module KeycloakCleanup {
  import opened Tenants
  import opened Invitations

  predicate Terminated(i: Invite) { i.status == Revoked || i.status == Expired }

  /** What the markers and the revokes in progress say about one invitation. An expiry may
      overtake a revoke between its statements: then it sets the marker itself. */
  predicate MarkerOk(w: World, id: Id)
    requires id in w.invites
  {
    var i := w.invites[id];
    && (i.cleanup ==> Terminated(i))
    && (id in w.abandoned || id in w.marking ==> Terminated(i))
    && (i.status == Revoked && id in w.abandoned ==> !i.cleanup && id !in w.marking)
    && (i.status == Revoked && id in w.marking ==> !i.cleanup && w.marking[id] == i.version)
    && (i.status == Expired && id in w.marking ==> w.marking[id] < i.version)
    && (id in w.clearing && i.kc.Some? ==> i.kc.value in w.deleted)
    && (Terminated(i) && !i.cleanup && i.kc.Some? && i.kc.value !in w.deleted ==>
          i.status == Revoked && (id in w.abandoned || id in w.marking))
  }

  predicate Keyed(w: World) {
    w.abandoned <= w.invites.Keys && w.marking.Keys <= w.invites.Keys && w.clearing <= w.invites.Keys
  }

  ghost predicate Inv(w: World) {
    Keyed(w) && forall id :: id in w.invites ==> MarkerOk(w, id)
  }

  lemma InsertMarker(w: World, n: Id, kc: KcUser, lifetime: nat, late: int, full: bool, id: Id)
    requires Inv(w) && id in Inserted(w, n, kc, lifetime, late, full).invites
    ensures MarkerOk(Inserted(w, n, kc, lifetime, late, full), id)
  {
    if id in w.invites { assert MarkerOk(w, id); }
  }

  lemma CreateMarker(w: World, n: Id, kc: KcUser, lifetime: nat, late: int, id: Id)
    requires Inv(w) && id in CreateStep(w, n, kc, lifetime, late).invites
    ensures MarkerOk(CreateStep(w, n, kc, lifetime, late), id)
  {
    if w.lock.Some? && w.lock.value.Inviting? {
      UnlockKeepsInv(w);
      InsertMarker(w.(lock := None), n, kc, lifetime, late, w.lock.value.full, id);
    } else {
      assert MarkerOk(w, id);
    }
  }

  lemma UnlockKeepsInv(w: World)
    requires Inv(w)
    ensures Inv(w.(lock := None))
  {
    forall id | id in w.invites ensures MarkerOk(w.(lock := None), id) { assert MarkerOk(w, id); }
  }

  /** Nothing kept about an invitation changes but its own row. */
  predicate SameMarks(w: World, w': World) {
    && w'.abandoned == w.abandoned && w'.marking == w.marking
    && w'.clearing == w.clearing && w'.deleted == w.deleted
  }

  predicate KeptOrAccepted(i: Invite, i': Invite) {
    i' == i || (i.status == Pending && i' == i.(status := Accepted, version := i.version + 1))
  }

  lemma JoinedMarks(w: World, n: Id, overdue: bool, full: bool, u: User)
    ensures SameMarks(w, Joined(w, n, overdue, full, u))
  {
  }

  lemma JoinedRow(w: World, n: Id, overdue: bool, full: bool, u: User, id: Id)
    requires id in Joined(w, n, overdue, full, u).invites
    ensures id in w.invites && KeptOrAccepted(w.invites[id], Joined(w, n, overdue, full, u).invites[id])
  {
  }

  /** I-3 touches no more than the pending invitation it accepts. */
  lemma AcceptFrame(w: World, u: User, id: Id)
    requires id in AcceptStep(w, u).invites
    ensures var w' := AcceptStep(w, u);
            SameMarks(w, w') && id in w.invites && KeptOrAccepted(w.invites[id], w'.invites[id])
  {
    if w.lock.Some? && w.lock.value.Accepting? {
      var n, overdue, full := w.lock.value.id, w.lock.value.overdue, w.lock.value.full;
      JoinedMarks(w.(lock := None), n, overdue, full, u);
      JoinedRow(w.(lock := None), n, overdue, full, u, id);
    }
  }

  lemma FrameKeepsMarker(w: World, w': World, id: Id)
    requires id in w.invites && MarkerOk(w, id) && id in w'.invites
    requires SameMarks(w, w') && KeptOrAccepted(w.invites[id], w'.invites[id])
    ensures MarkerOk(w', id)
  {
  }

  lemma AcceptMarker(w: World, u: User, id: Id)
    requires Inv(w) && id in AcceptStep(w, u).invites
    ensures MarkerOk(AcceptStep(w, u), id)
  {
    AcceptFrame(w, u, id);
    FrameKeepsMarker(w, AcceptStep(w, u), id);
  }

  lemma RevokeMarker(w: World, tx: Tx, id: Id)
    requires Inv(w) && id in RevokeStep(w, tx).invites
    ensures MarkerOk(RevokeStep(w, tx), id)
  {
    if id in w.invites { assert MarkerOk(w, id); }
  }

  lemma MarkMarker(w: World, n: Id, id: Id)
    requires Inv(w) && id in MarkStep(w, n).invites
    ensures MarkerOk(MarkStep(w, n), id)
  {
    if id in w.invites { assert MarkerOk(w, id); }
  }

  lemma DieMarker(w: World, n: Id, id: Id)
    requires Inv(w) && id in DieStep(w, n).invites
    ensures MarkerOk(DieStep(w, n), id)
  {
    if id in w.invites { assert MarkerOk(w, id); }
  }

  predicate KeptOrExpired(i: Invite, i': Invite) {
    i' == i || (i.status != Accepted && i' == ExpiredRow(i))
  }

  lemma ExpireMarks(w: World, tx: Tx)
    ensures SameMarks(w, ExpireStep(w, tx))
  {
  }

  lemma ExpireRow(w: World, tx: Tx, id: Id)
    requires id in ExpireStep(w, tx).invites
    ensures id in w.invites && KeptOrExpired(w.invites[id], ExpireStep(w, tx).invites[id])
  {
  }

  lemma ExpiredKeepsMarker(w: World, w': World, id: Id)
    requires id in w.invites && MarkerOk(w, id) && id in w'.invites
    requires SameMarks(w, w') && KeptOrExpired(w.invites[id], w'.invites[id])
    ensures MarkerOk(w', id)
  {
  }

  lemma ExpireMarker(w: World, tx: Tx, id: Id)
    requires Inv(w) && id in ExpireStep(w, tx).invites
    ensures MarkerOk(ExpireStep(w, tx), id)
  {
    ExpireMarks(w, tx);
    ExpireRow(w, tx, id);
    ExpiredKeepsMarker(w, ExpireStep(w, tx), id);
  }

  lemma DeleteMarker(w: World, n: Id, id: Id)
    requires Inv(w) && id in DeleteStep(w, n).invites
    ensures MarkerOk(DeleteStep(w, n), id)
  {
    if id in w.invites { assert MarkerOk(w, id); }
  }

  lemma ClearMarker(w: World, n: Id, id: Id)
    requires Inv(w) && id in ClearStep(w, n).invites
    ensures MarkerOk(ClearStep(w, n), id)
  {
    if id in w.invites { assert MarkerOk(w, id); }
  }

  lemma EraseMarker(w: World, n: Id, id: Id)
    requires Inv(w) && id in ErasePIIStep(w, n).invites
    ensures MarkerOk(ErasePIIStep(w, n), id)
  {
    if id in w.invites { assert MarkerOk(w, id); }
  }

  /** The steps that leave rows, markers and the revokes in progress alone, or only delete users. */
  lemma SameRowsMarker(w: World, w': World, id: Id)
    requires Inv(w) && SameRows(w, w') && id in w'.invites
    ensures MarkerOk(w', id)
  {
    assert MarkerOk(w, id);
  }

  lemma RowStepMarker(w: World, s: Step, id: Id)
    requires Inv(w) && !Outside(s) && !Reads(s) && id in Next(w, s).invites
    ensures MarkerOk(Next(w, s), id)
  {
    match s
    case Create(n, kc, lifetime, late) => CreateMarker(w, n, kc, lifetime, late, id);
    case Accept(u) => AcceptMarker(w, u, id);
    case Revoke(tx) => RevokeMarker(w, tx, id);
    case Mark(n) => MarkMarker(w, n, id);
    case Die(n) => DieMarker(w, n, id);
    case ExpireSelected(tx) => ExpireMarker(w, tx, id);
    case Delete(n) => DeleteMarker(w, n, id);
    case Clear(n) => ClearMarker(w, n, id);
    case ErasePII(n) => EraseMarker(w, n, id);
    case _ =>
  }

  lemma NextKeepsMarker(w: World, s: Step, id: Id)
    requires Inv(w) && id in Next(w, s).invites
    ensures MarkerOk(Next(w, s), id)
  {
    if Outside(s) {
      OutsideSteps(w, s);
      SameRowsMarker(w, Next(w, s), id);
    } else if Reads(s) {
      ReadSteps(w, s);
      SameRowsMarker(w, Next(w, s), id);
    } else {
      RowStepMarker(w, s, id);
    }
  }

  lemma CreateKeepsKeys(w: World, id: Id, kc: KcUser, lifetime: nat, late: int)
    requires Keyed(w)
    ensures Keyed(CreateStep(w, id, kc, lifetime, late))
  {
  }

  lemma AcceptKeepsKeys(w: World, u: User)
    requires Keyed(w)
    ensures Keyed(AcceptStep(w, u))
  {
  }

  lemma RevokeKeepsKeys(w: World, tx: Tx)
    requires Keyed(w)
    ensures Keyed(RevokeStep(w, tx))
  {
  }

  lemma MarkKeepsKeys(w: World, id: Id)
    requires Keyed(w)
    ensures Keyed(MarkStep(w, id)) && Keyed(ClearStep(w, id)) && Keyed(ErasePIIStep(w, id))
  {
  }

  lemma DeleteKeepsKeys(w: World, id: Id)
    requires Keyed(w)
    ensures Keyed(DieStep(w, id)) && Keyed(DeleteStep(w, id))
  {
  }

  lemma BatchKeepsKeys(w: World, tx: Tx)
    requires Keyed(w)
    ensures Keyed(ExpireStep(w, tx))
  {
  }

  lemma RowStepKeepsKeys(w: World, s: Step)
    requires Keyed(w) && !Outside(s) && !Reads(s)
    ensures Keyed(Next(w, s))
  {
    match s
    case Create(id, kc, lifetime, late) => CreateKeepsKeys(w, id, kc, lifetime, late);
    case Accept(u) => AcceptKeepsKeys(w, u);
    case Revoke(tx) => RevokeKeepsKeys(w, tx);
    case Mark(id) => MarkKeepsKeys(w, id);
    case Clear(id) => MarkKeepsKeys(w, id);
    case ErasePII(id) => MarkKeepsKeys(w, id);
    case Die(id) => DeleteKeepsKeys(w, id);
    case Delete(id) => DeleteKeepsKeys(w, id);
    case ExpireSelected(tx) => BatchKeepsKeys(w, tx);
    case _ =>
  }

  lemma NextKeepsKeys(w: World, s: Step)
    requires Keyed(w)
    ensures Keyed(Next(w, s))
  {
    if Outside(s) {
      OutsideSteps(w, s);
    } else if Reads(s) {
      ReadSteps(w, s);
    } else {
      RowStepKeepsKeys(w, s);
    }
  }

  lemma NextKeepsInv(w: World, s: Step)
    requires Inv(w)
    ensures Inv(Next(w, s))
  {
    var w' := Next(w, s);
    forall id | id in w'.invites ensures MarkerOk(w', id) { NextKeepsMarker(w, s, id); }
    NextKeepsKeys(w, s);
  }

  lemma {:induction false} RunKeepsInv(now: nat, seats: int, steps: seq<Step>)
    ensures Inv(Run(Init(now, seats), steps))
  {
    if steps == [] {
    } else {
      RunKeepsInv(now, seats, steps[..|steps| - 1]);
      NextKeepsInv(Run(Init(now, seats), steps[..|steps| - 1]), steps[|steps| - 1]);
    }
  }

  /** A terminated invitation whose Keycloak user has not been deleted carries the marker exactly
      if it expired or its revoke is neither between its two statements nor died there. */
  lemma MarkedUnlessRevokeDied(now: nat, seats: int, steps: seq<Step>, id: Id)
    ensures var w := Run(Init(now, seats), steps);
            id in w.invites && Terminated(w.invites[id])
            && w.invites[id].kc.Some? && w.invites[id].kc.value !in w.deleted ==>
              (w.invites[id].cleanup <==>
               w.invites[id].status == Expired || (id !in w.marking && id !in w.abandoned))
  {
    RunKeepsInv(now, seats, steps);
    var w := Run(Init(now, seats), steps);
    if id in w.invites { assert MarkerOk(w, id); }
  }

  /** The marker's optimistic lock fails exactly if an expiry has overtaken the revoke, which then
      has set the marker itself. */
  lemma MarkConflictsExactly(now: nat, seats: int, steps: seq<Step>, id: Id)
    ensures var w := Run(Init(now, seats), steps);
            id in w.marking ==>
              id in w.invites && (w.invites[id].version != w.marking[id] <==> w.invites[id].status == Expired)
  {
    RunKeepsInv(now, seats, steps);
    var w := Run(Init(now, seats), steps);
    if id in w.marking { assert MarkerOk(w, id); }
  }

  /** No expiry that picked the invitation is still to write. */
  predicate Unpicked(w: World, id: Id) {
    forall tx :: tx in w.batches ==> id !in w.batches[tx]
  }

  predicate Forgotten(w: World, id: Id) {
    id in w.abandoned && id in w.invites && w.invites[id].status == Revoked && !w.invites[id].cleanup
  }

  /** A revoke that died between its statements is made good exactly by an expiry that picked the
      invitation before. */
  lemma ForgottenExactly(w: World, s: Step, id: Id)
    requires Inv(w) && Forgotten(w, id)
    ensures Forgotten(Next(w, s), id) <==> !(s.ExpireSelected? && MayExpire(w, s.tx) && id in w.batches[s.tx])
  {
    NextKeepsInv(w, s);
    StaysAbandoned(w, s, id);
    SettledChangesExactly(w, s, id);
    var w' := Next(w, s);
    assert MarkerOk(w', id);
  }

  lemma StaysAbandoned(w: World, s: Step, id: Id)
    requires id in w.abandoned
    ensures id in Next(w, s).abandoned
  {
    if Outside(s) { OutsideSteps(w, s); } else if Reads(s) { ReadSteps(w, s); }
  }

  lemma StaysUnpicked(w: World, s: Step, id: Id)
    requires Unpicked(w, id) && id in w.invites && w.invites[id].status != Pending
    ensures Unpicked(Next(w, s), id)
  {
  }

  /** With none left, the user is forgotten whatever follows: no run sets the marker again. */
  lemma {:induction false} ForgottenForGood(w: World, steps: seq<Step>, id: Id)
    requires Inv(w) && Forgotten(w, id) && Unpicked(w, id)
    ensures var w' := Run(w, steps); Inv(w') && Forgotten(w', id) && Unpicked(w', id)
  {
    if steps == [] {
    } else {
      var front, s := steps[..|steps| - 1], steps[|steps| - 1];
      ForgottenForGood(w, front, id);
      NextKeepsInv(Run(w, front), s);
      ForgottenExactly(Run(w, front), s, id);
      StaysUnpicked(Run(w, front), s, id);
    }
  }

  // ---- runs -------------------------------------------------------------------------

  lemma CountedFirst()
    ensures Run(Init(0, 1), [LockAndCount]) == Init(0, 1).(lock := Some(Inviting(false)))
  {
    assert ActiveMembers(map[]) == {} && PendingIds(map[], 0) == {};
    assert Occupancy(Init(0, 1)) == 0;
    RunSnoc(Init(0, 1), [], LockAndCount);
    assert [] + [LockAndCount] == [LockAndCount];
  }

  /** One outstanding invitation, which expires at 10. */
  lemma Invited(kc: KcUser) returns (steps: seq<Step>)
    ensures Run(Init(0, 1), steps) == Init(0, 1).(invites := map[0 := Invite(Pending, 10, 0, Some(kc), false)])
  {
    CountedFirst();
    RunSnoc(Init(0, 1), [LockAndCount], Create(0, kc, 10, 0));
    steps := [LockAndCount] + [Create(0, kc, 10, 0)];
    var w := Init(0, 1).(lock := Some(Inviting(false)));
    assert Next(w, Create(0, kc, 10, 0)) == Inserted(Init(0, 1), 0, kc, 10, 0, false);
  }

  /** A revoke can die: the user is forgotten, and for good. */
  lemma ARevokeCanDie(kc: KcUser) returns (steps: seq<Step>)
    ensures var w := Run(Init(0, 1), steps);
            Forgotten(w, 0) && Unpicked(w, 0) && w.invites[0].kc == Some(kc) && kc !in w.deleted
  {
    var s0 := Invited(kc);
    RunSnoc(Init(0, 1), s0, ReadVersion(0, 0));
    RunSnoc(Init(0, 1), s0 + [ReadVersion(0, 0)], Revoke(0));
    RunSnoc(Init(0, 1), s0 + [ReadVersion(0, 0)] + [Revoke(0)], Die(0));
    steps := s0 + [ReadVersion(0, 0)] + [Revoke(0)] + [Die(0)];
  }

  /** An invitation whose version P-31 holds and which an expiry has picked. */
  lemma Picked(kc: KcUser) returns (steps: seq<Step>)
    ensures Run(Init(0, 1), steps) == Init(11, 1).(
              invites := map[0 := Invite(Pending, 10, 0, Some(kc), false)],
              open := map[0 := Holding(0, 0)], batches := map[1 := {0}])
  {
    var s0 := Invited(kc);
    RunSnoc(Init(0, 1), s0, Tick(11));
    var s1 := s0 + [Tick(11)];
    var w1 := Init(11, 1).(invites := map[0 := Invite(Pending, 10, 0, Some(kc), false)]);
    assert Run(Init(0, 1), s1) == w1;
    RunSnoc(Init(0, 1), s1, ReadVersion(0, 0));
    var s2 := s1 + [ReadVersion(0, 0)];
    var w2 := w1.(open := map[0 := Holding(0, 0)]);
    assert Next(w1, ReadVersion(0, 0)) == w2;
    RunSnoc(Init(0, 1), s2, SelectOverdue(1, {0}));
    assert Overdue(w2, {0}) == {0};
    steps := s2 + [SelectOverdue(1, {0})];
  }

  /** ... and then revoked. */
  lemma PickedThenRevoked(kc: KcUser) returns (steps: seq<Step>)
    ensures var w := Run(Init(0, 1), steps);
            && w.invites == map[0 := Invite(Revoked, 10, 1, Some(kc), false)] && w.marking == map[0 := 1]
            && w.batches == map[1 := {0}] && w.outcomes == multiset{(0, Revoked)} && w.lock.None?
  {
    var s3 := Picked(kc);
    RunSnoc(Init(0, 1), s3, Revoke(0));
    steps := s3 + [Revoke(0)];
  }

  /** An expiry can overwrite a revoke that committed after its sub-select: two outcomes, and the
      revoke's second statement will find another version. */
  lemma AnExpiryCanOverwriteARevoke(kc: KcUser) returns (steps: seq<Step>)
    ensures var w := Run(Init(0, 1), steps);
            && 0 in w.invites && w.invites[0].status == Expired && w.invites[0].cleanup
            && w.outcomes[(0, Revoked)] == 1 && w.outcomes[(0, Expired)] == 1
            && 0 in w.marking && w.marking[0] != w.invites[0].version
  {
    var s0 := PickedThenRevoked(kc);
    var w := Run(Init(0, 1), s0);
    RunSnoc(Init(0, 1), s0, ExpireSelected(1));
    NewlyExpiredCount(w, {0}, 0, Revoked);
    NewlyExpiredCount(w, {0}, 0, Expired);
    steps := s0 + [ExpireSelected(1)];
  }

  /** An invite that loses the seat race leaves the marked row exactly if the insert trigger takes
      it: the service's clock must be past the transaction's own time. Otherwise no row points
      at the Keycloak user. */
  lemma LostRaceMarksExactly(w: World, id: Id, kc: KcUser, lifetime: nat, late: int)
    requires id !in w.invites && w.lock == Some(Inviting(true))
    ensures var w' := CreateStep(w, id, kc, lifetime, late);
            && (late > 0 <==> id in w'.invites)
            && (late > 0 ==> w'.invites[id] == Invite(Revoked, w.now + late, 1, Some(kc), true))
            && (late <= 0 ==> w'.invites == w.invites && kc in w'.unrecorded)
  {
  }
}
