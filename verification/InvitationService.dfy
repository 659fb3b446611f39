/**
  invite, AddFromRegister, Revoke and the Keycloak cleanup job as they run.
 */
module InvitationService {
  import opened Tenants
  import opened Invitations

  /** The cleanup job's counters. */
  datatype Counts = Counts(attempted: nat, succeeded: nat, failed: nat, skipped: nat)

  datatype InviteReply = Invited | SeatLimitReached | InsertFailed

  datatype RegisterReply = AcceptedInvitation | Added | SeatsTaken

  /** What becomes of one target: DeleteUser is called only if there is a user, and the marker is
      cleared only if there is none or the call succeeded (`up`); either call may fail (`ok` is
      the clearing's). */
  datatype Verdict = Succeeded | Failed | Skipped

  function Judged(kc: Option<KcUser>, up: bool, ok: bool): Verdict {
    if kc.None? then (if ok then Skipped else Failed)
    else if up && ok then Succeeded
    else Failed
  }

  function Counted(c: Counts, v: Verdict): Counts {
    match v
    case Succeeded => c.(attempted := c.attempted + 1, succeeded := c.succeeded + 1)
    case Failed => c.(attempted := c.attempted + 1, failed := c.failed + 1)
    case Skipped => c.(attempted := c.attempted + 1, skipped := c.skipped + 1)
  }

  /** How many of the verdicts are `v`. */
  function Tally(vs: seq<Verdict>, v: Verdict): nat {
    if vs == [] then 0 else Tally(vs[..|vs| - 1], v) + (if vs[|vs| - 1] == v then 1 else 0)
  }

  function Tallied(vs: seq<Verdict>): Counts {
    Counts(|vs|, Tally(vs, Succeeded), Tally(vs, Failed), Tally(vs, Skipped))
  }

  lemma CountedTallies(vs: seq<Verdict>, v: Verdict)
    ensures Counted(Tallied(vs), v) == Tallied(vs + [v])
  {
    assert (vs + [v])[..|vs|] == vs;
  }

  /** The steps one target takes. */
  function Cleaned(w: World, id: Id, up: bool, ok: bool): World {
    if id !in w.invites || (w.invites[id].kc.Some? && !up) then w
    else if ok then ClearStep(DeleteStep(w, id), id)
    else DeleteStep(w, id)
  }

  class Desk {
    var now: nat
    var seats: int
    var members: map<User, Membership>
    var invites: map<Id, Invite>
    var deleted: set<KcUser>

    // Requests in progress, and history.
    ghost var open: map<Tx, Open>
    ghost var batches: map<Tx, set<Id>>
    ghost var marking: map<Id, nat>
    ghost var clearing: set<Id>
    ghost var outcomes: multiset<(Id, InviteStatus)>
    ghost var granted: multiset<Id>
    ghost var abandoned: set<Id>
    ghost var unrecorded: set<KcUser>
    ghost var lock: Option<Holder>

    ghost function State(): World reads this {
      World(now, seats, members, invites, open, batches, marking, clearing, deleted, outcomes, granted,
            abandoned, unrecorded, lock)
    }

    /** CountActive + CountPending under the tenant lock. */
    method CountOccupancy() returns (n: nat)
      ensures n == Occupancy(State())
      ensures n == |set u | u in members && members[u] == MemberActive|
                 + |set i | i in invites && invites[i].status == Pending && invites[i].expires > now|
    {
      var active := set u | u in members && members[u] == MemberActive;
      var pending := set i | i in invites && Outstanding(invites[i], now);
      assert active == ActiveMembers(members) && pending == PendingIds(invites, now);
      assert pending == set i | i in invites && invites[i].status == Pending && invites[i].expires > now;
      return |active| + |pending|;
    }

    /** invite's tenant lock and the count under it. */
    method LockAndCount() returns (full: bool)
      requires lock.None?
      modifies `lock
      ensures State() == CountStep(old(State())) && lock == Some(Inviting(full))
      ensures full <==> Occupancy(old(State())) >= seats
    {
      var n := CountOccupancy();
      full := n >= seats;
      lock := Some(Inviting(full));
    }

    /** A row is written with its final status. */
    method SettleRow(id: Id, i: Invite)
      modifies `invites, `outcomes
      ensures State() == Settle(old(State()), id, i)
    {
      invites := invites[id := i];
      outcomes := outcomes + multiset{(id, i.status)};
    }

    /** The row of an invite that lost the seat race: inserted, then marked. */
    method InsertOrphan(id: Id, kc: KcUser, late: int)
      requires late > 0
      modifies `invites, `outcomes
      ensures State() == Settle(old(State()), id, Invite(Revoked, now + late, 1, Some(kc), true))
    {
      SettleRow(id, Invite(Revoked, now + late, 0, Some(kc), false));
      invites := invites[id := invites[id].(cleanup := true, version := invites[id].version + 1)];
    }

    /** The rest of invite's transaction; a taken id stands for the unique violation. */
    method InsertInvite(id: Id, kc: KcUser, lifetime: nat, late: int, full: bool) returns (reply: InviteReply)
      requires lock == Some(Inviting(full))
      modifies this
      ensures State() == CreateStep(old(State()), id, kc, lifetime, late)
      ensures reply.InsertFailed? <==> id in old(invites) || (if full then late <= 0 else lifetime + late <= 0)
      ensures reply.Invited? ==> !full
      ensures reply.SeatLimitReached? ==> full
      ensures invites == match reply
                         case Invited => old(invites)[id := Invite(Pending, now + lifetime + late, 0, Some(kc), false)]
                         case SeatLimitReached => old(invites)[id := Invite(Revoked, now + late, 1, Some(kc), true)]
                         case InsertFailed => old(invites)
      ensures members == old(members) && seats == old(seats) && now == old(now) && lock.None?
      ensures unrecorded == if reply.InsertFailed? then old(unrecorded) + {kc} else old(unrecorded)
    {
      lock := None;
      if id in invites || now + late + (if full then 0 else lifetime) <= now {
        unrecorded := unrecorded + {kc};
        return InsertFailed;
      }
      if full {
        InsertOrphan(id, kc, late);
        return SeatLimitReached;
      }
      invites := invites[id := Invite(Pending, now + lifetime + late, 0, Some(kc), false)];
      return Invited;
    }

    /** invite, from the Keycloak user on, with nothing in between. */
    method Create(id: Id, kc: KcUser, lifetime: nat, late: int) returns (reply: InviteReply)
      requires lock.None?
      modifies this
      ensures State() == CreateStep(CountStep(old(State())), id, kc, lifetime, late)
      ensures reply.Invited? <==> Occupancy(old(State())) < old(seats) && id !in old(invites) && lifetime + late > 0
      ensures reply.SeatLimitReached? <==> Occupancy(old(State())) >= old(seats) && id !in old(invites) && late > 0
      ensures invites == match reply
                         case Invited => old(invites)[id := Invite(Pending, now + lifetime + late, 0, Some(kc), false)]
                         case SeatLimitReached => old(invites)[id := Invite(Revoked, now + late, 1, Some(kc), true)]
                         case InsertFailed => old(invites)
      ensures members == old(members) && lock.None?
    {
      var full := LockAndCount();
      reply := InsertInvite(id, kc, lifetime, late, full);
    }

    method AddMember(u: User)
      modifies `members
      ensures State() == PlainAddStep(old(State()), u) && u in members
    {
      if u !in members {
        members := members[u := MemberActive];
      }
    }

    /** The flip to accepted and the invitation's initial grants. */
    method SetAccepted(id: Id)
      requires id in invites
      modifies `invites, `outcomes, `granted
      ensures var i := old(invites)[id];
              State() == Settle(old(State()), id, i.(status := Accepted, version := i.version + 1))
                         .(granted := old(granted) + multiset{id})
    {
      SettleRow(id, invites[id].(status := Accepted, version := invites[id].version + 1));
      granted := granted + multiset{id};
    }

    /** AddFromRegister's transaction up to its first write: the tenant lock, the lock of the
        invitation found before, the look at its expiry and the count. */
    method LockAndLook(tx: Tx, id: Id) returns (overdue: bool, full: bool)
      requires lock.None? && tx in open && open[tx] == Matched(id)
      modifies `lock, `open
      ensures State() == LookStep(old(State()), tx) && lock == Some(Accepting(full, id, overdue))
      ensures overdue <==> id in invites && invites[id].expires <= now
      ensures full <==> Occupancy(old(State())) >= seats
    {
      var n := CountOccupancy();
      full := n >= seats;
      overdue := id in invites && invites[id].expires <= now;
      lock := Some(Accepting(full, id, overdue));
      open := open - {tx};
    }

    /** The rest of it; the count matters only if the invitation was overdue. */
    method AcceptFound(id: Id, overdue: bool, full: bool, u: User) returns (reply: RegisterReply)
      requires lock == Some(Accepting(full, id, overdue))
      modifies this
      ensures State() == AcceptStep(old(State()), u)
      ensures reply.Added? <==> !PendingRow(old(State()), id)
      ensures reply.SeatsTaken? <==> PendingRow(old(State()), id) && overdue && full
      ensures reply.AcceptedInvitation? ==> id in invites && invites[id].status == Accepted && u in members
      ensures reply.Added? ==> invites == old(invites) && granted == old(granted) && u in members
      ensures reply.SeatsTaken? ==> members == old(members) && invites == old(invites) && granted == old(granted)
      ensures reply.AcceptedInvitation? ==>
                var i := old(invites)[id];
                && invites == old(invites)[id := i.(status := Accepted, version := i.version + 1)]
                && granted == old(granted) + multiset{id}
      ensures !reply.SeatsTaken? ==>
                members == if u in old(members) then old(members) else old(members)[u := MemberActive]
      ensures lock.None? && seats == old(seats) && now == old(now)
    {
      lock := None;
      var pending := id in invites && invites[id].status == Pending;
      if pending && overdue && full {
        return SeatsTaken;
      }
      AddMember(u);
      if !pending {
        return Added;
      }
      SetAccepted(id);
      return AcceptedInvitation;
    }

    /** AddFromRegister with nothing in between: what it accepts takes no seat beyond the cap. */
    method Register(tx: Tx, id: Id, u: User) returns (reply: RegisterReply)
      requires lock.None? && tx in open && open[tx] == Matched(id)
      modifies this
      ensures State() == AcceptStep(LookStep(old(State()), tx), u)
      ensures reply.AcceptedInvitation? ==>
                Occupancy(State()) <= Occupancy(old(State())) || Occupancy(State()) <= seats == old(seats)
    {
      var overdue, full := LockAndLook(tx, id);
      ghost var looked := State();
      reply := AcceptFound(id, overdue, full, u);
      if reply.AcceptedInvitation? {
        AcceptedWithin(looked, u, id);
      }
    }

    /** Revoke's first statement: guarded by the version and by the pending status. It waits for a
        row lock. */
    method SetRevoked(tx: Tx, id: Id, version: nat) returns (ok: bool)
      requires tx in open && open[tx] == Holding(id, version) && !RowHeld(State(), id)
      modifies `open, `invites, `outcomes, `marking
      ensures State() == RevokeStep(old(State()), tx)
      ensures ok <==> id in old(invites) && old(invites)[id].status == Pending && old(invites)[id].version == version
      ensures ok ==> id in marking && id in invites && marking[id] == invites[id].version
      ensures invites == if ok then old(invites)[id := old(invites)[id].(status := Revoked, version := version + 1)]
                         else old(invites)
    {
      open := open - {tx};
      if id !in invites || invites[id].status != Pending || invites[id].version != version {
        return false;
      }
      marking := marking[id := version + 1];
      SettleRow(id, invites[id].(status := Revoked, version := version + 1));
      return true;
    }

    /** Revoke's second statement, on the version the first one returned. */
    method SetMarker(id: Id, version: nat) returns (ok: bool)
      requires id in marking && marking[id] == version
      modifies this
      ensures State() == MarkStep(old(State()), id)
      ensures ok <==> id in old(invites) && old(invites)[id].version == version
      ensures ok ==> id in invites && invites[id].cleanup && invites[id].status == old(invites)[id].status
      ensures invites == if ok then old(invites)[id := old(invites)[id].(cleanup := true, version := version + 1)]
                         else old(invites)
    {
      marking := marking - {id};
      if id !in invites || invites[id].version != version {
        return false;
      }
      invites := invites[id := invites[id].(cleanup := true, version := version + 1)];
      return true;
    }

    /** Revoke with nothing between its statements: the marker is set. */
    method Revoke(tx: Tx, id: Id, version: nat) returns (ok: bool)
      requires tx in open && open[tx] == Holding(id, version) && !RowHeld(State(), id)
      modifies this
      ensures ok <==> id in old(invites) && old(invites)[id].status == Pending && old(invites)[id].version == version
      ensures ok ==> State() == MarkStep(RevokeStep(old(State()), tx), id)
      ensures ok ==> id in invites && invites[id].cleanup
      ensures !ok ==> State() == RevokeStep(old(State()), tx)
      ensures ok ==> invites == old(invites)[id := old(invites)[id].(status := Revoked, cleanup := true,
                                                                     version := version + 2)]
      ensures !ok ==> invites == old(invites)
    {
      ok := SetRevoked(tx, id, version);
      if ok {
        var marked := SetMarker(id, invites[id].version);
      }
    }

    /** One target of the cleanup job. */
    method CleanOne(id: Id, up: bool, ok: bool) returns (v: Verdict)
      requires id in invites && invites[id].cleanup
      modifies `invites, `deleted, `clearing
      ensures State() == Cleaned(old(State()), id, up, ok)
      ensures v == Judged(old(invites)[id].kc, up, ok)
      ensures deleted == if up && old(invites)[id].kc.Some? then old(deleted) + {old(invites)[id].kc.value}
                         else old(deleted)
      ensures invites == if v == Failed then old(invites)
                         else old(invites)[id := old(invites)[id].(cleanup := false,
                                                                   version := old(invites)[id].version + 1)]
    {
      if invites[id].kc.Some? {
        if !up {
          return Failed;
        }
        deleted := deleted + {invites[id].kc.value};
      }
      clearing := clearing + {id};
      if !ok {
        return Failed;
      }
      v := if invites[id].kc.None? then Skipped else Succeeded;
      invites := invites[id := invites[id].(cleanup := false, version := invites[id].version + 1)];
    }

    /** The same, as the loop sees it. */
    method CleanTarget(id: Id, up: bool, ok: bool) returns (v: Verdict)
      requires id in invites && invites[id].cleanup
      modifies `invites, `deleted, `clearing
      ensures v == Judged(old(invites)[id].kc, up, ok)
      ensures invites.Keys == old(invites).Keys
      ensures invites[id].cleanup == (v == Failed) && invites[id].status == old(invites)[id].status
      ensures forall j :: j in old(invites) && j != id ==> invites[j] == old(invites)[j]
      ensures deleted == if up && old(invites)[id].kc.Some? then old(deleted) + {old(invites)[id].kc.value}
                         else old(deleted)
    {
      v := CleanOne(id, up, ok);
    }

    /** InvitationKCCleanup over the listed targets; `up[i]` and `ok[i]` are the answers of DeleteUser
        and of clearing the marker. A marker goes exactly if there was no user or its deletion
        succeeded, and the clearing did. */
    method Cleanup(targets: seq<Id>, up: seq<bool>, ok: seq<bool>) returns (res: Counts, ghost vs: seq<Verdict>)
      requires |up| == |ok| == |targets|
      requires forall i :: 0 <= i < |targets| ==> targets[i] in invites && invites[targets[i]].cleanup
      requires forall i, j :: 0 <= i < j < |targets| ==> targets[i] != targets[j]
      modifies `invites, `deleted, `clearing
      ensures invites.Keys == old(invites).Keys && |vs| == |targets|
      ensures forall i :: 0 <= i < |targets| ==>
                && vs[i] == Judged(old(invites)[targets[i]].kc, up[i], ok[i])
                && (invites[targets[i]].cleanup <==> vs[i] == Failed)
      ensures forall id :: id in invites ==>
                if id in targets then invites[id].status == old(invites)[id].status
                else invites[id] == old(invites)[id]
      ensures forall k :: k in deleted <==> k in old(deleted) || DeletedBy(old(invites), targets, up, |targets|, k)
      ensures res == Tallied(vs)
    {
      res, vs := Counts(0, 0, 0, 0), [];
      for i := 0 to |targets|
        invariant |vs| == i && CleanedTo(old(invites), invites, targets, up, ok, vs)
        invariant forall k :: k in deleted <==> k in old(deleted) || DeletedBy(old(invites), targets, up, i, k)
        invariant res == Tallied(vs)
      {
        ghost var before := invites;
        var v := CleanTarget(targets[i], up[i], ok[i]);
        CleanedNext(old(invites), before, invites, targets, up, ok, vs, v);
        DeletedBySnoc(old(invites), targets, up, i);
        CountedTallies(vs, v);
        vs := vs + [v];
        res := Counted(res, v);
      }
      assert targets[..|targets|] == targets;
    }
  }

  /** The targets judged so far have what they deserve; the others are as they were. */
  ghost predicate CleanedTo(was: map<Id, Invite>, invites: map<Id, Invite>, targets: seq<Id>,
                            up: seq<bool>, ok: seq<bool>, vs: seq<Verdict>)
    requires |vs| <= |targets| == |up| == |ok|
  {
    && invites.Keys == was.Keys
    && (forall j :: 0 <= j < |vs| ==>
          && targets[j] in was && vs[j] == Judged(was[targets[j]].kc, up[j], ok[j])
          && (invites[targets[j]].cleanup <==> vs[j] == Failed))
    && (forall id :: id in was ==>
          if id in targets[..|vs|] then invites[id].status == was[id].status else invites[id] == was[id])
  }

  /** One more target. */
  lemma CleanedNext(was: map<Id, Invite>, before: map<Id, Invite>, after: map<Id, Invite>, targets: seq<Id>,
                    up: seq<bool>, ok: seq<bool>, vs: seq<Verdict>, v: Verdict)
    requires |vs| < |targets| == |up| == |ok|
    requires forall i, j :: 0 <= i < j < |targets| ==> targets[i] != targets[j]
    requires CleanedTo(was, before, targets, up, ok, vs)
    requires var id := targets[|vs|];
             && id in before && after.Keys == before.Keys
             && v == Judged(before[id].kc, up[|vs|], ok[|vs|])
             && after[id].cleanup == (v == Failed) && after[id].status == before[id].status
             && (forall j :: j in before && j != id ==> after[j] == before[j])
    ensures CleanedTo(was, after, targets, up, ok, vs + [v])
  {
    var n := |vs|;
    assert targets[n] !in targets[..n];
    assert targets[..n + 1] == targets[..n] + [targets[n]];
    assert before[targets[n]] == was[targets[n]];
  }

  /** An acceptance that follows its look at once. */
  lemma AcceptedWithin(w: World, u: User, id: Id)
    requires w.lock.Some? && w.lock.value.Accepting? && w.lock.value.id == id && PendingRow(w, id)
    requires w.lock.value.overdue == PastExpiry(w, id) && w.lock.value.full == (Occupancy(w) >= w.seats)
    ensures Occupancy(AcceptStep(w, u)) <= Occupancy(w) || Occupancy(AcceptStep(w, u)) <= w.seats
  {
    AcceptOccupies(w, u);
  }

  /** One of the first `n` targets held the user, and its deletion succeeded. */
  ghost predicate DeletedBy(invites: map<Id, Invite>, targets: seq<Id>, up: seq<bool>, n: nat, k: KcUser)
    requires n <= |targets| == |up|
  {
    exists i :: 0 <= i < n && targets[i] in invites && up[i] && invites[targets[i]].kc == Some(k)
  }

  lemma DeletedBySnoc(invites: map<Id, Invite>, targets: seq<Id>, up: seq<bool>, n: nat)
    requires n < |targets| == |up|
    ensures forall k: KcUser :: DeletedBy(invites, targets, up, n + 1, k) <==>
              || DeletedBy(invites, targets, up, n, k)
              || (targets[n] in invites && up[n] && invites[targets[n]].kc == Some(k))
  {
  }
}
