/**
  Seats and invitations of one tenant as a step system: invite, accept (with a lookup before
  its transaction, and a look at the locked row before its writes), revoke (two statements
  without a transaction), expiry (one UPDATE that picks its rows in a sub-select), Keycloak
  cleanup, members coming and going, seat changes and a clock.
 */
module Invitations {
  import opened Tenants

  type Id = nat
  type User = nat
  type KcUser = nat
  type Tx = nat

  datatype InviteStatus = Pending | Accepted | Revoked | Expired

  datatype Invite = Invite(status: InviteStatus, expires: nat, version: nat,
                           kc: Option<KcUser>, cleanup: bool)

  datatype Membership = MemberActive | MemberSuspended

  /** Who holds the tenant lock, with what it saw under it: are the seats full, and for I-3, which
      also holds the invitation's row, was that overdue? */
  datatype Holder =
    | Inviting(full: bool)
    | Accepting(full: bool, id: Id, overdue: bool)

  /** What a request read before its first write. */
  datatype Open =
    | Matched(id: Id)                        // I-3 found a pending invitation
    | Holding(id: Id, version: nat)          // P-31 holds the version its caller read

  datatype World = World(
    now: nat,
    seats: int,
    members: map<User, Membership>,
    invites: map<Id, Invite>,
    open: map<Tx, Open>,
    batches: map<Tx, set<Id>>,                // expiries between sub-select and write
    marking: map<Id, nat>,                    // P-31 between its statements, with the new version
    clearing: set<Id>,                        // a cleanup's DeleteUser succeeded for the row
    deleted: set<KcUser>,                     // history: DeleteUser succeeded
    outcomes: multiset<(Id, InviteStatus)>,   // history
    granted: multiset<Id>,                    // history: initial roles and departments applied
    abandoned: set<Id>,                       // history: P-31 died between its statements
    unrecorded: set<KcUser>,                  // history: created for an invite that then failed
    lock: Option<Holder>)                     // the tenant lock

  datatype Step =
    | Tick(d: nat)
    | SetSeats(n: int)
    | LockAndCount                            // invite
    | Look(tx: Tx)                            // I-3: both locks, the look at the row, the count
    | Unlock                                  // the holder rolls back
    | Create(id: Id, kc: KcUser, lifetime: nat, late: int)
    | DeleteOrphan(id: Id)                    // the immediate attempt after a lost seat race
    | DeleteUnrecorded(kc: KcUser)            // ... and after a failed transaction
    | Find(tx: Tx, id: Id)
    | Accept(user: User)
    | PlainAdd(user: User)
    | ReadVersion(tx: Tx, id: Id)
    | Revoke(tx: Tx)
    | Mark(id: Id)
    | Die(id: Id)                             // P-31 dies between its statements
    | Abort(tx: Tx)
    | SelectOverdue(tx: Tx, ids: set<Id>)
    | ExpireSelected(tx: Tx)
    | Delete(id: Id)                          // cleanup: DeleteUser succeeds
    | Clear(id: Id)
    | ErasePII(id: Id)
    | Remove(user: User)
    | Suspend(user: User)
    | Reactivate(user: User)

  // ---- occupancy ------------------------------------------------------------------

  function ActiveMembers(members: map<User, Membership>): set<User> {
    set u | u in members && members[u] == MemberActive
  }

  predicate Outstanding(i: Invite, now: nat) { i.status == Pending && i.expires > now }

  function PendingIds(invites: map<Id, Invite>, now: nat): set<Id> {
    set i | i in invites && Outstanding(invites[i], now)
  }

  function Occupancy(w: World): nat {
    |ActiveMembers(w.members)| + |PendingIds(w.invites, w.now)|
  }

  // ---- steps ------------------------------------------------------------------------

  function Settle(w: World, id: Id, i: Invite): World {
    w.(invites := w.invites[id := i], outcomes := w.outcomes + multiset{(id, i.status)})
  }

  /** The insert trigger takes only rows that expire after the transaction's time; `late` is how
      far the service's clock has got past that time. */
  predicate InsertTaken(w: World, id: Id, lifetime: nat, late: int, full: bool) {
    id !in w.invites && (if full then late > 0 else lifetime + late > 0)
  }

  /** invite's writes. When the seats are full it still commits a revoked row that carries the
      Keycloak user and its marker; when the insert fails, no row points at the user. */
  function Inserted(w: World, id: Id, kc: KcUser, lifetime: nat, late: int, full: bool): World {
    if !InsertTaken(w, id, lifetime, late, full) then w.(unrecorded := w.unrecorded + {kc})
    else if full then Settle(w, id, Invite(Revoked, w.now + late, 1, Some(kc), true))
    else w.(invites := w.invites[id := Invite(Pending, w.now + lifetime + late, 0, Some(kc), false)])
  }

  predicate Full(w: World) { Occupancy(w) >= w.seats }

  /** invite takes the tenant lock and counts the seats. Whoever else needs the lock waits;
      revokes, expiries, I-5, suspensions and reactivations do not need it. */
  function CountStep(w: World): World {
    if w.lock.Some? then w else w.(lock := Some(Inviting(Full(w))))
  }

  /** The rest of invite's transaction. */
  function CreateStep(w: World, id: Id, kc: KcUser, lifetime: nat, late: int): World {
    if w.lock.None? || !w.lock.value.Inviting? then w
    else Inserted(w.(lock := None), id, kc, lifetime, late, w.lock.value.full)
  }

  /** INSERT ... ON CONFLICT DO NOTHING. */
  function Added(members: map<User, Membership>, u: User): map<User, Membership> {
    if u in members then members else members[u := MemberActive]
  }

  function PlainAddStep(w: World, u: User): World { w.(members := Added(w.members, u)) }

  predicate PendingRow(w: World, id: Id) { id in w.invites && w.invites[id].status == Pending }

  predicate PastExpiry(w: World, id: Id) { id in w.invites && w.invites[id].expires <= w.now }

  /** I-3 locks the tenant and the invitation found before, and looks at its expiry. */
  function LookStep(w: World, tx: Tx): World {
    if w.lock.Some? || tx !in w.open || !w.open[tx].Matched? then w
    else
      var id := w.open[tx].id;
      w.(open := w.open - {tx}, lock := Some(Accepting(Full(w), id, PastExpiry(w, id))))
  }

  /** I-3's writes. The clock is not read again: what the look saw decides. */
  function Joined(w: World, id: Id, overdue: bool, full: bool, u: User): World {
    if !PendingRow(w, id) then PlainAddStep(w, u)
    else if overdue && full then w
    else
      var i := w.invites[id].(status := Accepted, version := w.invites[id].version + 1);
      w.(members := Added(w.members, u), invites := w.invites[id := i],
         outcomes := w.outcomes + multiset{(id, Accepted)}, granted := w.granted + multiset{id})
  }

  /** The rest of AddFromRegister's transaction. */
  function AcceptStep(w: World, u: User): World {
    if w.lock.None? || !w.lock.value.Accepting? then w
    else Joined(w.(lock := None), w.lock.value.id, w.lock.value.overdue, w.lock.value.full, u)
  }

  /** Writers of the row I-3 has locked wait. */
  predicate RowHeld(w: World, id: Id) { w.lock.Some? && w.lock.value.Accepting? && w.lock.value.id == id }

  predicate BatchHeld(w: World, tx: Tx) {
    w.lock.Some? && w.lock.value.Accepting? && tx in w.batches && w.lock.value.id in w.batches[tx]
  }

  function RevokeStep(w: World, tx: Tx): World {
    if tx !in w.open || !w.open[tx].Holding? || RowHeld(w, w.open[tx].id) then w
    else
      var id := w.open[tx].id;
      if id !in w.invites || w.invites[id].status != Pending || w.invites[id].version != w.open[tx].version
      then w.(open := w.open - {tx})
      else
        var i := w.invites[id];
        Settle(w.(open := w.open - {tx}, marking := w.marking[id := i.version + 1]), id,
               i.(status := Revoked, version := i.version + 1))
  }

  function MarkStep(w: World, id: Id): World {
    if id !in w.marking then w
    else
      var w1 := w.(marking := w.marking - {id});
      if id !in w.invites || w.invites[id].version != w.marking[id] then w1
      else w1.(invites := w.invites[id := w.invites[id].(cleanup := true, version := w.invites[id].version + 1)])
  }

  function DieStep(w: World, id: Id): World {
    if id !in w.marking then w
    else w.(marking := w.marking - {id}, abandoned := w.abandoned + {id})
  }

  function Overdue(w: World, ids: set<Id>): set<Id> {
    set i | i in ids && i in w.invites && w.invites[i].status == Pending && w.invites[i].expires < w.now
  }

  /** The sub-select: the overdue rows among `ids` as the statement's snapshot shows them. */
  function SelectStep(w: World, tx: Tx, ids: set<Id>): World {
    if tx in w.batches then w else w.(batches := w.batches[tx := Overdue(w, ids)])
  }

  /** The outer UPDATE looks at no status again, but a CHECK lets no accepted row become anything
      else, and fails the whole statement. */
  predicate MayExpire(w: World, tx: Tx) {
    && tx in w.batches && !BatchHeld(w, tx)
    && forall i :: i in w.batches[tx] && i in w.invites ==> w.invites[i].status != Accepted
  }

  function ExpiredRow(i: Invite): Invite {
    if i.status == Expired && i.cleanup then i
    else i.(status := Expired, cleanup := true, version := i.version + 1)
  }

  /** Those of the batch it makes expired. */
  function NewlyExpired(w: World, batch: set<Id>): set<(Id, InviteStatus)> {
    set i | i in batch && i in w.invites && w.invites[i].status != Expired :: (i, Expired)
  }

  function ExpireStep(w: World, tx: Tx): World {
    if tx !in w.batches || BatchHeld(w, tx) then w
    else if !MayExpire(w, tx) then w.(batches := w.batches - {tx})
    else
      var batch := w.batches[tx];
      w.(invites := map i | i in w.invites :: if i in batch then ExpiredRow(w.invites[i]) else w.invites[i],
         outcomes := w.outcomes + multiset(NewlyExpired(w, batch)),
         batches := w.batches - {tx})
  }

  function DeleteStep(w: World, id: Id): World {
    if id !in w.invites || !w.invites[id].cleanup then w
    else
      w.(clearing := w.clearing + {id},
         deleted := if w.invites[id].kc.Some? then w.deleted + {w.invites[id].kc.value} else w.deleted)
  }

  function ClearStep(w: World, id: Id): World {
    if id !in w.clearing || id !in w.invites || !w.invites[id].cleanup then w
    else w.(invites := w.invites[id := w.invites[id].(cleanup := false, version := w.invites[id].version + 1)])
  }

  /** Only for a settled invitation, and after the marker. */
  function ErasePIIStep(w: World, id: Id): World {
    if id !in w.invites || w.invites[id].status == Pending || id in w.marking then w
    else w.(invites := w.invites[id := w.invites[id].(version := w.invites[id].version + 1)])
  }

  // ... the clock, the seats and the members

  function TickStep(w: World, d: nat): World { w.(now := w.now + d) }

  function SetSeatsStep(w: World, n: int): World { if w.lock.Some? then w else w.(seats := n) }

  function UnlockStep(w: World): World { w.(lock := None) }

  function AddStep(w: World, u: User): World { if w.lock.Some? then w else PlainAddStep(w, u) }

  function RemoveStep(w: World, u: User): World { w.(members := w.members - {u}) }

  function SwitchStep(w: World, u: User, m: Membership): World {
    if u in w.members then w.(members := w.members[u := m]) else w
  }

  // ... what requests read, and users deleted for no marker

  function FindStep(w: World, tx: Tx, id: Id): World {
    if PendingRow(w, id) && tx !in w.open then w.(open := w.open[tx := Matched(id)]) else w
  }

  function ReadVersionStep(w: World, tx: Tx, id: Id): World {
    if id in w.invites && tx !in w.open
    then w.(open := w.open[tx := Holding(id, w.invites[id].version)]) else w
  }

  function AbortStep(w: World, tx: Tx): World { w.(open := w.open - {tx}) }

  function DeleteUnrecordedStep(w: World, kc: KcUser): World {
    if kc in w.unrecorded then w.(deleted := w.deleted + {kc}) else w
  }

  function DeleteOrphanStep(w: World, id: Id): World {
    if id in w.invites && w.invites[id].cleanup && w.invites[id].kc.Some?
    then w.(deleted := w.deleted + {w.invites[id].kc.value}) else w
  }

  function Next(w: World, s: Step): World {
    match s
    case Tick(d) => TickStep(w, d)
    case SetSeats(n) => SetSeatsStep(w, n)
    case LockAndCount => CountStep(w)
    case Look(tx) => LookStep(w, tx)
    case Unlock => UnlockStep(w)
    case Create(id, kc, lifetime, late) => CreateStep(w, id, kc, lifetime, late)
    case DeleteUnrecorded(kc) => DeleteUnrecordedStep(w, kc)
    case DeleteOrphan(id) => DeleteOrphanStep(w, id)
    case Find(tx, id) => FindStep(w, tx, id)
    case Accept(u) => AcceptStep(w, u)
    case PlainAdd(u) => AddStep(w, u)
    case ReadVersion(tx, id) => ReadVersionStep(w, tx, id)
    case Revoke(tx) => RevokeStep(w, tx)
    case Mark(id) => MarkStep(w, id)
    case Die(id) => DieStep(w, id)
    case Abort(tx) => AbortStep(w, tx)
    case SelectOverdue(tx, ids) => SelectStep(w, tx, ids)
    case ExpireSelected(tx) => ExpireStep(w, tx)
    case Delete(id) => DeleteStep(w, id)
    case Clear(id) => ClearStep(w, id)
    case ErasePII(id) => ErasePIIStep(w, id)
    case Remove(u) => RemoveStep(w, u)
    case Suspend(u) => SwitchStep(w, u, MemberSuspended)
    case Reactivate(u) => SwitchStep(w, u, MemberActive)
  }

  function Run(w: World, steps: seq<Step>): World {
    if steps == [] then w
    else Next(Run(w, steps[..|steps| - 1]), steps[|steps| - 1])
  }

  lemma RunSnoc(w: World, steps: seq<Step>, s: Step)
    ensures Run(w, steps + [s]) == Next(Run(w, steps), s)
  {
    assert (steps + [s])[..|steps|] == steps;
  }

  function Init(now: nat, seats: int): World {
    World(now, seats, map[], map[], map[], map[], map[], {}, {}, multiset{}, multiset{}, {}, {}, None)
  }

  // ---- the steps that settle nothing --------------------------------------------------

  predicate SameStatuses(w: World, w': World) {
    && w'.invites.Keys == w.invites.Keys
    && (forall id :: id in w.invites ==>
          w'.invites[id].status == w.invites[id].status && w'.invites[id].expires == w.invites[id].expires)
    && w'.outcomes == w.outcomes && w'.granted == w.granted
  }

  lemma MarkersQuiet(w: World, id: Id)
    ensures SameStatuses(w, MarkStep(w, id)) && SameStatuses(w, ClearStep(w, id))
  {
  }

  lemma DeletesQuiet(w: World, id: Id)
    ensures SameStatuses(w, DieStep(w, id)) && SameStatuses(w, DeleteStep(w, id))
    ensures SameStatuses(w, ErasePIIStep(w, id))
  {
  }

  /** The clock, the seats, the lock and the members. */
  predicate Outside(s: Step) {
    || s.Tick? || s.SetSeats? || s.LockAndCount? || s.Look? || s.Unlock? || s.PlainAdd?
    || s.Remove? || s.Suspend? || s.Reactivate?
  }

  /** What requests read, and users deleted for no marker. */
  predicate Reads(s: Step) {
    s.Find? || s.ReadVersion? || s.Abort? || s.SelectOverdue? || s.DeleteOrphan? || s.DeleteUnrecorded?
  }

  /** No invitation, and nothing kept about one, changes. */
  predicate SameRows(w: World, w': World) {
    && w'.invites == w.invites && w'.outcomes == w.outcomes && w'.granted == w.granted
    && w'.marking == w.marking && w'.clearing == w.clearing && w'.abandoned == w.abandoned
    && w.deleted <= w'.deleted
  }

  lemma LockRows(w: World, tx: Tx, n: int)
    ensures SameRows(w, CountStep(w)) && SameRows(w, LookStep(w, tx)) && SameRows(w, SetSeatsStep(w, n))
  {
  }

  lemma MemberRows(w: World, u: User, m: Membership)
    ensures SameRows(w, AddStep(w, u)) && SameRows(w, RemoveStep(w, u)) && SameRows(w, SwitchStep(w, u, m))
  {
  }

  lemma OutsideSteps(w: World, s: Step)
    requires Outside(s)
    ensures SameRows(w, Next(w, s))
  {
    match s
    case SetSeats(n) => LockRows(w, 0, n);
    case LockAndCount => LockRows(w, 0, 0);
    case Look(tx) => LockRows(w, tx, 0);
    case PlainAdd(u) => MemberRows(w, u, MemberActive);
    case Remove(u) => MemberRows(w, u, MemberActive);
    case Suspend(u) => MemberRows(w, u, MemberSuspended);
    case Reactivate(u) => MemberRows(w, u, MemberActive);
    case _ =>
  }

  /** ... nor the members or the clock. */
  predicate SameFacts(w: World, w': World) {
    SameRows(w, w') && w'.members == w.members && w'.now == w.now && w'.seats == w.seats && w'.lock == w.lock
  }

  lemma RequestReads(w: World, tx: Tx, id: Id)
    ensures SameFacts(w, FindStep(w, tx, id)) && SameFacts(w, ReadVersionStep(w, tx, id))
  {
  }

  lemma SelectReads(w: World, tx: Tx, ids: set<Id>)
    ensures SameFacts(w, SelectStep(w, tx, ids)) && SameFacts(w, AbortStep(w, tx))
  {
  }

  lemma UserDeletions(w: World, id: Id, kc: KcUser)
    ensures SameFacts(w, DeleteOrphanStep(w, id)) && SameFacts(w, DeleteUnrecordedStep(w, kc))
  {
  }

  lemma ReadSteps(w: World, s: Step)
    requires Reads(s)
    ensures SameFacts(w, Next(w, s))
  {
    match s
    case Find(tx, id) => RequestReads(w, tx, id);
    case ReadVersion(tx, id) => RequestReads(w, tx, id);
    case Abort(tx) => SelectReads(w, tx, {});
    case SelectOverdue(tx, ids) => SelectReads(w, tx, ids);
    case DeleteOrphan(id) => UserDeletions(w, id, 0);
    case DeleteUnrecorded(kc) => UserDeletions(w, 0, kc);
    case _ =>
  }

  /** The steps that settle nothing. */
  lemma QuietSteps(w: World, s: Step)
    requires !s.Create? && !s.Accept? && !s.Revoke? && !s.ExpireSelected?
    ensures SameStatuses(w, Next(w, s))
  {
    if Outside(s) {
      OutsideSteps(w, s);
    } else if Reads(s) {
      ReadSteps(w, s);
    } else {
      MarkersQuiet(w, s.id);
      DeletesQuiet(w, s.id);
    }
  }

  // ---- the seat cap -----------------------------------------------------------------

  /** The steps that add an active member without looking at the seats. */
  predicate Unchecked(w: World, s: Step) {
    match s
    case PlainAdd(u) => w.lock.None? && u !in w.members
    case Accept(u) =>
      w.lock.Some? && w.lock.value.Accepting? && u !in w.members && !PendingRow(w, w.lock.value.id)
    case Reactivate(u) => u in w.members && w.members[u] == MemberSuspended
    case _ => false
  }

  /** The invitation I-3 holds was not overdue at the look and is now. */
  predicate Lapsing(w: World) {
    && w.lock.Some? && w.lock.value.Accepting? && !w.lock.value.overdue
    && PendingRow(w, w.lock.value.id) && PastExpiry(w, w.lock.value.id)
  }

  /** I-3 accepts such an invitation for a new member: the seat has been given up, and is taken
      without a look at the others. */
  predicate Lapsed(w: World, s: Step) { s.Accept? && Lapsing(w) && s.user !in w.members }

  /** The steps that take a seat on a count made earlier. */
  predicate OnCount(w: World, s: Step) {
    match s
    case Create(id, _, lifetime, late) =>
      w.lock == Some(Inviting(false)) && InsertTaken(w, id, lifetime, late, false)
    case Accept(u) =>
      && w.lock.Some? && w.lock.value.Accepting? && u !in w.members
      && var id := w.lock.value.id;
         PendingRow(w, id) && w.lock.value.overdue && !w.lock.value.full && PastExpiry(w, id)
    case _ => false
  }

  lemma SubsetSize<T>(a: set<T>, b: set<T>)
    requires a <= b
    ensures |a| <= |b|
  {
    assert b == a + (b - a);
  }

  /** Members and pending invitations only leave. */
  lemma Shrinks(w: World, w': World)
    requires ActiveMembers(w'.members) <= ActiveMembers(w.members)
    requires PendingIds(w'.invites, w'.now) <= PendingIds(w.invites, w.now)
    ensures Occupancy(w') <= Occupancy(w)
  {
    SubsetSize(ActiveMembers(w'.members), ActiveMembers(w.members));
    SubsetSize(PendingIds(w'.invites, w'.now), PendingIds(w.invites, w.now));
  }

  lemma Activates(members: map<User, Membership>, u: User)
    requires u !in ActiveMembers(members)
    ensures |ActiveMembers(members[u := MemberActive])| == |ActiveMembers(members)| + 1
  {
    assert ActiveMembers(members[u := MemberActive]) == ActiveMembers(members) + {u};
  }

  lemma PlainAddOccupies(w: World, u: User)
    ensures Occupancy(PlainAddStep(w, u)) == Occupancy(w) + (if u in w.members then 0 else 1)
  {
    if u !in w.members { Activates(w.members, u); }
  }

  /** Accepting an unexpired invitation trades its seat for the member's; accepting an expired
      one adds a seat for a new member, unless it was overdue at the look and the seats full. */
  lemma JoinOccupies(w: World, id: Id, overdue: bool, full: bool, u: User)
    requires PendingRow(w, id)
    ensures var w' := Joined(w, id, overdue, full, u);
            if !PastExpiry(w, id) then Occupancy(w') <= Occupancy(w)
            else Occupancy(w') == Occupancy(w) + (if !(overdue && full) && u !in w.members then 1 else 0)
  {
    var w' := Joined(w, id, overdue, full, u);
    if !(overdue && full) {
      PlainAddOccupies(w, u);
      assert PendingIds(w'.invites, w.now) == PendingIds(w.invites, w.now) - {id};
      if PastExpiry(w, id) { assert id !in PendingIds(w.invites, w.now); }
    }
  }

  lemma PendingInsert(invites: map<Id, Invite>, id: Id, i: Invite, now: nat)
    requires id !in invites
    ensures |PendingIds(invites[id := i], now)| == |PendingIds(invites, now)| + (if Outstanding(i, now) then 1 else 0)
  {
    var a, b := PendingIds(invites, now), PendingIds(invites[id := i], now);
    if Outstanding(i, now) { assert b == a + {id}; } else { assert b == a; }
  }

  lemma InsertOccupies(w: World, id: Id, kc: KcUser, lifetime: nat, late: int, full: bool)
    ensures Occupancy(Inserted(w, id, kc, lifetime, late, full))
         == Occupancy(w) + (if !full && InsertTaken(w, id, lifetime, late, full) then 1 else 0)
  {
    if InsertTaken(w, id, lifetime, late, full) {
      PendingInsert(w.invites, id, Inserted(w, id, kc, lifetime, late, full).invites[id], w.now);
    }
  }

  lemma ReactivateOccupies(w: World, u: User)
    ensures Occupancy(SwitchStep(w, u, MemberActive))
         == Occupancy(w) + (if Unchecked(w, Reactivate(u)) then 1 else 0)
  {
    if u in w.members {
      if w.members[u] == MemberSuspended { Activates(w.members, u); }
      else { assert w.members[u := MemberActive] == w.members; }
    }
  }

  /** In every state and for every step: occupancy grows at or above the cap exactly by the steps
      that do not look at it, by accepting an invitation that has lapsed since the look, and by
      those whose count has been overtaken. All others raise it only below the cap, and none by
      more than one. */
  lemma SeatCapExactly(w: World, s: Step)
    ensures Occupancy(Next(w, s)) > Occupancy(w) && Full(w)
       <==> (Unchecked(w, s) || Lapsed(w, s) || OnCount(w, s)) && Full(w)
    ensures Occupancy(Next(w, s)) > Occupancy(w) <==> Unchecked(w, s) || Lapsed(w, s) || OnCount(w, s)
    ensures Occupancy(Next(w, s)) <= Occupancy(w) + 1
  {
    match s
    case Create(id, kc, lifetime, late) => CreateOccupies(w, id, kc, lifetime, late);
    case Accept(u) => AcceptOccupies(w, u);
    case PlainAdd(u) => AddOccupies(w, u);
    case Reactivate(u) => ReactivateOccupies(w, u);
    case _ => OthersShrink(w, s);
  }

  lemma CreateOccupies(w: World, id: Id, kc: KcUser, lifetime: nat, late: int)
    ensures var w' := CreateStep(w, id, kc, lifetime, late);
            Occupancy(w') == Occupancy(w) + (if OnCount(w, Create(id, kc, lifetime, late)) then 1 else 0)
  {
    if w.lock.Some? && w.lock.value.Inviting? {
      InsertOccupies(w.(lock := None), id, kc, lifetime, late, w.lock.value.full);
    }
  }

  lemma AddOccupies(w: World, u: User)
    ensures Occupancy(AddStep(w, u)) == Occupancy(w) + (if Unchecked(w, PlainAdd(u)) then 1 else 0)
  {
    PlainAddOccupies(w, u);
  }

  /** I-3 holds an invitation that is pending. */
  predicate RowTaken(w: World) { w.lock.Some? && w.lock.value.Accepting? && PendingRow(w, w.lock.value.id) }

  lemma AcceptOccupies(w: World, u: User)
    ensures var s := Accept(u);
            && (Occupancy(AcceptStep(w, u)) > Occupancy(w) <==> Unchecked(w, s) || Lapsed(w, s) || OnCount(w, s))
            && Occupancy(AcceptStep(w, u)) <= Occupancy(w) + 1
    ensures RowTaken(w) && !PastExpiry(w, w.lock.value.id) ==> Occupancy(AcceptStep(w, u)) <= Occupancy(w)
  {
    if w.lock.Some? && w.lock.value.Accepting? {
      var w0 := w.(lock := None);
      if PendingRow(w, w.lock.value.id) {
        JoinOccupies(w0, w.lock.value.id, w.lock.value.overdue, w.lock.value.full, u);
      } else {
        PlainAddOccupies(w0, u);
      }
    }
  }

  /** Neither the active members nor the pending invitations grow. */
  predicate Narrows(w: World, w': World) {
    && ActiveMembers(w'.members) <= ActiveMembers(w.members)
    && PendingIds(w'.invites, w'.now) <= PendingIds(w.invites, w.now)
  }

  lemma OthersShrink(w: World, s: Step)
    requires !s.Create? && !s.Accept? && !s.PlainAdd? && !s.Reactivate?
    ensures Occupancy(Next(w, s)) <= Occupancy(w)
  {
    if Reads(s) {
      ReadSteps(w, s);
    } else if Outside(s) {
      OutsideNarrows(w, s);
    } else {
      RowsNarrow(w, s);
    }
    Shrinks(w, Next(w, s));
  }

  lemma OutsideNarrows(w: World, s: Step)
    requires Outside(s) && !s.PlainAdd? && !s.Reactivate?
    ensures Narrows(w, Next(w, s))
  {
    OutsideSteps(w, s);
  }

  lemma RowsNarrow(w: World, s: Step)
    requires !Outside(s) && !Reads(s) && !s.Create? && !s.Accept?
    ensures Narrows(w, Next(w, s))
  {
    if s.Revoke? {
      RevokeNarrows(w, s.tx);
    } else if s.ExpireSelected? {
      ExpireNarrows(w, s.tx);
    } else {
      MarkerNarrows(w, s.id);
    }
  }

  lemma RevokeNarrows(w: World, tx: Tx)
    ensures Narrows(w, RevokeStep(w, tx))
  {
  }

  lemma ExpireNarrows(w: World, tx: Tx)
    ensures Narrows(w, ExpireStep(w, tx))
  {
  }

  lemma MarkerNarrows(w: World, id: Id)
    ensures Narrows(w, MarkStep(w, id)) && Narrows(w, ClearStep(w, id)) && Narrows(w, ErasePIIStep(w, id))
    ensures Narrows(w, DieStep(w, id)) && Narrows(w, DeleteStep(w, id))
  {
  }

  /** Neither the clock nor the seats move, and the lock is at most given up. */
  predicate SameClock(w: World, w': World) {
    w'.now == w.now && w'.seats == w.seats && (w'.lock == w.lock || w'.lock.None?)
  }

  lemma CreateUnlocks(w: World, id: Id, kc: KcUser, lifetime: nat, late: int)
    ensures SameClock(w, CreateStep(w, id, kc, lifetime, late))
    ensures w.lock.Some? && w.lock.value.Inviting? ==> CreateStep(w, id, kc, lifetime, late).lock.None?
  {
  }

  lemma AcceptUnlocks(w: World, u: User)
    ensures SameClock(w, AcceptStep(w, u))
    ensures w.lock.Some? && w.lock.value.Accepting? ==> AcceptStep(w, u).lock.None?
  {
  }

  lemma SettleClock(w: World, tx: Tx)
    ensures SameClock(w, RevokeStep(w, tx)) && SameClock(w, ExpireStep(w, tx))
  {
  }

  lemma MarkClock(w: World, id: Id)
    ensures SameClock(w, MarkStep(w, id)) && SameClock(w, ClearStep(w, id)) && SameClock(w, ErasePIIStep(w, id))
    ensures SameClock(w, DieStep(w, id)) && SameClock(w, DeleteStep(w, id))
  {
  }

  lemma RowStepClock(w: World, s: Step)
    requires !Outside(s)
    ensures SameClock(w, Next(w, s))
  {
    if Reads(s) {
      ReadSteps(w, s);
    } else if s.Create? {
      CreateUnlocks(w, s.id, s.kc, s.lifetime, s.late);
    } else if s.Accept? {
      AcceptUnlocks(w, s.user);
    } else if s.Revoke? || s.ExpireSelected? {
      SettleClock(w, s.tx);
    } else {
      MarkClock(w, s.id);
    }
  }

  lemma OnlySetSeats(w: World, s: Step)
    ensures !s.SetSeats? ==> Next(w, s).seats == w.seats
  {
    if !Outside(s) { RowStepClock(w, s); }
  }

  lemma OnlyTicks(w: World, s: Step)
    ensures Next(w, s).now != w.now ==> s.Tick? && Next(w, s).now == w.now + s.d
  {
    if !Outside(s) { RowStepClock(w, s); }
  }

  /** A count below the cap still holds. */
  predicate CountHolds(w: World) {
    w.lock.Some? && !w.lock.value.full ==> !Full(w)
  }

  /** Only an unchecked step can overtake a count: everything else that raises occupancy, and
      every seat change, waits for the lock. */
  lemma NextCountHolds(w: World, s: Step)
    requires CountHolds(w) && !Unchecked(w, s)
    ensures CountHolds(Next(w, s))
  {
    SeatCapExactly(w, s);
    if w.lock.Some? && Next(w, s).lock.Some? { KeepsCount(w, s); }
    if w.lock.None? && Next(w, s).lock.Some? { Locks(w, s); }
  }

  lemma KeepsCount(w: World, s: Step)
    requires w.lock.Some? && Next(w, s).lock.Some?
    ensures w.lock == Next(w, s).lock && Next(w, s).seats == w.seats
    ensures !OnCount(w, s) && !Lapsed(w, s)
  {
    if OnCount(w, s) || Lapsed(w, s) { TakersUnlock(w, s); } else { KeepsLock(w, s); }
  }

  /** Whoever takes a seat gives up the lock. */
  lemma TakersUnlock(w: World, s: Step)
    requires OnCount(w, s) || Lapsed(w, s)
    ensures Next(w, s).lock.None?
  {
    if s.Create? { CreateUnlocks(w, s.id, s.kc, s.lifetime, s.late); } else { AcceptUnlocks(w, s.user); }
  }

  lemma KeepsLock(w: World, s: Step)
    requires w.lock.Some? && Next(w, s).lock.Some?
    ensures w.lock == Next(w, s).lock && Next(w, s).seats == w.seats
  {
    if !Outside(s) { RowStepClock(w, s); }
  }

  lemma Locks(w: World, s: Step)
    requires w.lock.None? && Next(w, s).lock.Some?
    ensures var w' := Next(w, s);
            && w'.lock.value.full == Full(w) && w'.now == w.now && w'.seats == w.seats
            && w'.members == w.members && w'.invites == w.invites
            && (w'.lock.value.Accepting? ==> w'.lock.value.overdue == PastExpiry(w, w'.lock.value.id))
  {
    if !Outside(s) { RowStepClock(w, s); }
  }

  predicate CheckedRun(w: World, steps: seq<Step>) {
    steps != [] ==>
      && CheckedRun(w, steps[..|steps| - 1])
      && !Unchecked(Run(w, steps[..|steps| - 1]), steps[|steps| - 1])
  }

  /** In every run without an unchecked step, with any seat changes: occupancy is raised at or
      above the cap exactly by accepting an invitation that has lapsed since the look. */
  lemma {:induction false} NeverRaisedAtCap(w: World, steps: seq<Step>, s: Step)
    requires CountHolds(w) && CheckedRun(w, steps) && !Unchecked(Run(w, steps), s)
    ensures var v := Run(w, steps);
            CountHolds(v) && (Full(v) ==> (Occupancy(Next(v, s)) > Occupancy(v) <==> Lapsed(v, s)))
  {
    if steps == [] {
      SeatCapExactly(w, s);
    } else {
      var front, last := steps[..|steps| - 1], steps[|steps| - 1];
      NeverRaisedAtCap(w, front, last);
      NextCountHolds(Run(w, front), last);
      SeatCapExactly(Run(w, steps), s);
    }
  }

  /** The seat of an invitation that lapses while I-3 holds it is still free. */
  predicate SeatKept(w: World) {
    Lapsing(w) ==> !Full(w)
  }

  /** While I-3 holds a row that is pending after a step, it was pending before, with the same
      expiry. */
  lemma WasPending(w: World, s: Step)
    requires w.lock.Some? && w.lock.value.Accepting? && Next(w, s).lock == w.lock
    requires PendingRow(Next(w, s), w.lock.value.id)
    ensures var id := w.lock.value.id;
            PendingRow(w, id) && Next(w, s).invites[id].expires == w.invites[id].expires
  {
    match s
    case Create(id, kc, lifetime, late) => assert CreateStep(w, id, kc, lifetime, late) == w;
    case Accept(u) => AcceptUnlocks(w, u);
    case Revoke(tx) => RevokeNoneNew(w, tx, w.lock.value.id);
    case ExpireSelected(tx) => ExpireNoneNew(w, tx, w.lock.value.id);
    case _ => QuietSteps(w, s);
  }

  lemma RevokeNoneNew(w: World, tx: Tx, id: Id)
    ensures PendingRow(RevokeStep(w, tx), id) ==> id in w.invites && RevokeStep(w, tx).invites[id] == w.invites[id]
  {
  }

  lemma ExpireNoneNew(w: World, tx: Tx, id: Id)
    ensures PendingRow(ExpireStep(w, tx), id) ==> id in w.invites && ExpireStep(w, tx).invites[id] == w.invites[id]
  {
  }

  lemma TickGivesUpASeat(w: World, d: nat, id: Id)
    requires id in w.invites && Outstanding(w.invites[id], w.now) && w.invites[id].expires <= w.now + d
    ensures Occupancy(w.(now := w.now + d)) < Occupancy(w)
  {
    var a, b := PendingIds(w.invites, w.now), PendingIds(w.invites, w.now + d);
    SubsetSize(b, a - {id});
    assert a == a - {id} + {id};
  }

  lemma NextSeatKept(w: World, s: Step)
    requires Occupancy(w) <= w.seats && SeatKept(w) && !Unchecked(w, s)
    ensures SeatKept(Next(w, s))
  {
    if Lapsing(Next(w, s)) {
      if w.lock.None? { Locks(w, s); } else { HeldSeatKept(w, s); }
    }
  }

  lemma HeldSeatKept(w: World, s: Step)
    requires Occupancy(w) <= w.seats && SeatKept(w) && !Unchecked(w, s) && w.lock.Some? && Lapsing(Next(w, s))
    ensures !Full(Next(w, s))
  {
    KeepsCount(w, s);
    SeatCapExactly(w, s);
    WasPending(w, s);
    if !PastExpiry(w, w.lock.value.id) {
      OnlyTicks(w, s);
      TickGivesUpASeat(w, s.d, w.lock.value.id);
    }
  }

  /** So with a fixed cap occupancy stays within a cap it is within, lapsed invitations or not. */
  lemma {:induction false} CapHolds(w: World, steps: seq<Step>)
    requires Occupancy(w) <= w.seats && CountHolds(w) && SeatKept(w) && CheckedRun(w, steps)
    requires forall i :: 0 <= i < |steps| ==> !steps[i].SetSeats?
    ensures Run(w, steps).seats == w.seats && Occupancy(Run(w, steps)) <= w.seats && SeatKept(Run(w, steps))
  {
    if steps == [] {
    } else {
      var front, s := steps[..|steps| - 1], steps[|steps| - 1];
      CapHolds(w, front);
      NeverRaisedAtCap(w, front, s);
      CapStep(Run(w, front), s);
    }
  }

  lemma CapStep(w: World, s: Step)
    requires Occupancy(w) <= w.seats && CountHolds(w) && SeatKept(w) && !Unchecked(w, s) && !s.SetSeats?
    ensures Next(w, s).seats == w.seats && Occupancy(Next(w, s)) <= w.seats && SeatKept(Next(w, s))
  {
    SeatCapExactly(w, s);
    OnlySetSeats(w, s);
    NextSeatKept(w, s);
  }

  /** A count can be overtaken: with one seat left, a reactivation between an invite's count and its
      insert puts the tenant over its cap. */
  lemma AnInviteCanBeOvertaken(w: World, u: User, id: Id, kc: KcUser, lifetime: nat)
    requires w.lock.None? && Occupancy(w) == w.seats - 1 && id !in w.invites && lifetime > 0
    requires u in w.members && w.members[u] == MemberSuspended
    ensures var w' := CreateStep(SwitchStep(CountStep(w), u, MemberActive), id, kc, lifetime, 0);
            w'.seats == w.seats && Occupancy(w') == w.seats + 1
  {
    var w1 := CountStep(w);
    assert w1 == w.(lock := Some(Inviting(false)));
    ReactivateOccupies(w1, u);
    var w2 := SwitchStep(w1, u, MemberActive);
    assert w2.lock == w1.lock && w2.seats == w.seats && w2.invites == w.invites;
    CreateOccupies(w2, id, kc, lifetime, 0);
    CreateUnlocks(w2, id, kc, lifetime, 0);
  }

  /** A lapsed invitation can raise occupancy above the cap, if the cap has been lowered to the
      active members since it was made: it expires between I-3's look and its commit. */
  lemma AnInvitationCanLapse(w: World, tx: Tx, u: User)
    requires w.lock.None? && tx in w.open && w.open[tx].Matched? && PendingRow(w, w.open[tx].id)
    requires !PastExpiry(w, w.open[tx].id) && u !in w.members && w.seats <= |ActiveMembers(w.members)|
    ensures var w' := TickStep(LookStep(w, tx), w.invites[w.open[tx].id].expires - w.now);
            && Lapsed(w', Accept(u)) && Full(w')
            && Occupancy(AcceptStep(w', u)) == Occupancy(w') + 1 > w.seats
  {
    var id := w.open[tx].id;
    var w1 := LookStep(w, tx);
    assert w1.lock == Some(Accepting(Full(w), id, false));
    var w' := TickStep(w1, w.invites[id].expires - w.now);
    JoinOccupies(w'.(lock := None), id, false, Full(w), u);
  }

  // ---- one outcome ------------------------------------------------------------------

  /** The outcomes recorded for an invitation: none while it is pending, then exactly its
      status, once. */
  predicate Recorded(i: Option<Invite>, id: Id, outcomes: multiset<(Id, InviteStatus)>) {
    forall s: InviteStatus :: outcomes[(id, s)] ==
      if i.Some? && i.value.status != Pending && i.value.status == s then 1 else 0
  }

  function Row(invites: map<Id, Invite>, id: Id): Option<Invite> {
    if id in invites then Some(invites[id]) else None
  }

  ghost predicate OneOutcome(w: World) {
    forall id :: Recorded(Row(w.invites, id), id, w.outcomes)
  }

  /** An invitation leaves the pending state once, to one status. */
  lemma SettleRecords(w: World, id: Id, i: Invite)
    requires OneOutcome(w) && i.status != Pending
    requires id in w.invites ==> w.invites[id].status == Pending
    ensures OneOutcome(Settle(w, id, i))
  {
    var w' := Settle(w, id, i);
    forall j ensures Recorded(Row(w'.invites, j), j, w'.outcomes) {
      assert Recorded(Row(w.invites, j), j, w.outcomes);
    }
  }

  /** An expiry whose batch holds a row revoked since its sub-select. */
  predicate Overwrites(w: World, s: Step) {
    && s.ExpireSelected? && MayExpire(w, s.tx)
    && exists i :: i in w.batches[s.tx] && i in w.invites && w.invites[i].status == Revoked
  }

  lemma NewlyExpiredCount(w: World, batch: set<Id>, id: Id, s: InviteStatus)
    ensures multiset(NewlyExpired(w, batch))[(id, s)] ==
            if s == Expired && id in batch && id in w.invites && w.invites[id].status != Expired then 1 else 0
  {
    assert (id, s) in NewlyExpired(w, batch) <==>
           s == Expired && id in batch && id in w.invites && w.invites[id].status != Expired;
  }

  lemma ExpireRecords(w: World, tx: Tx)
    requires OneOutcome(w) && !Overwrites(w, ExpireSelected(tx))
    ensures OneOutcome(ExpireStep(w, tx))
  {
    var w' := ExpireStep(w, tx);
    forall j ensures Recorded(Row(w'.invites, j), j, w'.outcomes) {
      assert Recorded(Row(w.invites, j), j, w.outcomes);
      if MayExpire(w, tx) {
        forall s: InviteStatus { NewlyExpiredCount(w, w.batches[tx], j, s); }
      }
    }
  }

  lemma OverwriteRecordsTwice(w: World, tx: Tx)
    requires OneOutcome(w) && Overwrites(w, ExpireSelected(tx))
    ensures !OneOutcome(ExpireStep(w, tx))
  {
    var w' := ExpireStep(w, tx);
    var i :| i in w.batches[tx] && i in w.invites && w.invites[i].status == Revoked;
    assert Recorded(Row(w.invites, i), i, w.outcomes);
    NewlyExpiredCount(w, w.batches[tx], i, Revoked);
    assert w'.outcomes[(i, Revoked)] == 1 && w'.invites[i].status == Expired;
    assert !Recorded(Row(w'.invites, i), i, w'.outcomes);
  }

  /** The other writes leave every status alone. */
  lemma SameStatusRecords(w: World, w': World)
    requires OneOutcome(w) && w'.outcomes == w.outcomes
    requires forall id :: id in w'.invites && id !in w.invites ==> w'.invites[id].status == Pending
    requires forall id :: id in w.invites ==> id in w'.invites && w'.invites[id].status == w.invites[id].status
    ensures OneOutcome(w')
  {
    forall j ensures Recorded(Row(w'.invites, j), j, w'.outcomes) {
      assert Recorded(Row(w.invites, j), j, w.outcomes);
    }
  }

  lemma InsertRecords(w: World, id: Id, kc: KcUser, lifetime: nat, late: int, full: bool)
    requires OneOutcome(w)
    ensures OneOutcome(Inserted(w, id, kc, lifetime, late, full))
  {
    if InsertTaken(w, id, lifetime, late, full) && full {
      SettleRecords(w, id, Invite(Revoked, w.now + late, 1, Some(kc), true));
    } else {
      SameStatusRecords(w, Inserted(w, id, kc, lifetime, late, full));
    }
  }

  lemma CreateRecords(w: World, id: Id, kc: KcUser, lifetime: nat, late: int)
    requires OneOutcome(w)
    ensures OneOutcome(CreateStep(w, id, kc, lifetime, late))
  {
    if w.lock.Some? && w.lock.value.Inviting? {
      SameStatusRecords(w, w.(lock := None));
      InsertRecords(w.(lock := None), id, kc, lifetime, late, w.lock.value.full);
    }
  }

  lemma AcceptRecords(w: World, u: User)
    requires OneOutcome(w)
    ensures OneOutcome(AcceptStep(w, u))
  {
    var w' := AcceptStep(w, u);
    if w'.invites != w.invites {
      var id := w.lock.value.id;
      SettleRecords(w.(lock := None, members := w'.members), id, w'.invites[id]);
    }
  }

  lemma RevokeRecords(w: World, tx: Tx)
    requires OneOutcome(w)
    ensures OneOutcome(RevokeStep(w, tx))
  {
    var w' := RevokeStep(w, tx);
    if w'.invites != w.invites {
      var id := w.open[tx].id;
      var i := w.invites[id];
      SettleRecords(w.(open := w'.open, marking := w'.marking), id, i.(status := Revoked, version := i.version + 1));
    }
  }

  /** A step keeps every invitation at one outcome exactly if it is no such expiry. */
  lemma OneOutcomeExactly(w: World, s: Step)
    requires OneOutcome(w)
    ensures OneOutcome(Next(w, s)) <==> !Overwrites(w, s)
  {
    match s
    case Create(id, kc, lifetime, late) => CreateRecords(w, id, kc, lifetime, late);
    case Accept(u) => AcceptRecords(w, u);
    case Revoke(tx) => RevokeRecords(w, tx);
    case ExpireSelected(tx) =>
      if Overwrites(w, s) { OverwriteRecordsTwice(w, tx); } else { ExpireRecords(w, tx); }
    case _ => QuietRecords(w, s);
  }

  lemma QuietRecords(w: World, s: Step)
    requires OneOutcome(w) && !s.Create? && !s.Accept? && !s.Revoke? && !s.ExpireSelected?
    ensures OneOutcome(Next(w, s))
  {
    QuietSteps(w, s);
    SameStatusRecords(w, Next(w, s));
  }

  ghost predicate AlwaysOneOutcome(w: World, steps: seq<Step>) {
    OneOutcome(Run(w, steps)) && (steps != [] ==> AlwaysOneOutcome(w, steps[..|steps| - 1]))
  }

  predicate NeverOverwrites(w: World, steps: seq<Step>) {
    steps != [] ==>
      && NeverOverwrites(w, steps[..|steps| - 1])
      && !Overwrites(Run(w, steps[..|steps| - 1]), steps[|steps| - 1])
  }

  /** For any interleaving of accepts, redelivered webhooks, revokes with a version read earlier
      and expiries, at most one of accepted, revoked and expired is reached, once, exactly if
      no expiry writes over a revoke that committed after its sub-select. */
  lemma {:induction false} OneOutcomeWins(now: nat, seats: int, steps: seq<Step>)
    ensures AlwaysOneOutcome(Init(now, seats), steps) <==> NeverOverwrites(Init(now, seats), steps)
  {
    if steps == [] {
    } else {
      var front := steps[..|steps| - 1];
      OneOutcomeWins(now, seats, front);
      if AlwaysOneOutcome(Init(now, seats), front) {
        OneOutcomeExactly(Run(Init(now, seats), front), steps[|steps| - 1]);
      }
    }
  }

  // ---- what a settled invitation can still become ----------------------------------------

  predicate Keeps(w: World, w': World, id: Id)
    requires id in w.invites
  {
    id in w'.invites && w'.invites[id].status == w.invites[id].status
  }

  lemma AcceptKeeps(w: World, u: User, id: Id)
    requires id in w.invites && w.invites[id].status != Pending
    ensures Keeps(w, AcceptStep(w, u), id)
  {
  }

  lemma CreateKeeps(w: World, n: Id, kc: KcUser, lifetime: nat, late: int, id: Id)
    requires id in w.invites
    ensures Keeps(w, CreateStep(w, n, kc, lifetime, late), id)
  {
  }

  lemma RevokeKeeps(w: World, tx: Tx, id: Id)
    requires id in w.invites && w.invites[id].status != Pending
    ensures Keeps(w, RevokeStep(w, tx), id)
  {
  }

  lemma ExpireKeeps(w: World, tx: Tx, id: Id)
    requires id in w.invites && w.invites[id].status != Pending
    ensures !Keeps(w, ExpireStep(w, tx), id) <==>
              w.invites[id].status == Revoked && MayExpire(w, tx) && id in w.batches[tx]
  {
  }

  /** A settled status changes exactly when an expiry overwrites a revoke; accepted and expired
      are final. */
  lemma SettledChangesExactly(w: World, s: Step, id: Id)
    requires id in w.invites && w.invites[id].status != Pending
    ensures !Keeps(w, Next(w, s), id) <==>
              w.invites[id].status == Revoked && s.ExpireSelected? && MayExpire(w, s.tx) && id in w.batches[s.tx]
  {
    match s
    case Accept(u) => AcceptKeeps(w, u, id);
    case Revoke(tx) => RevokeKeeps(w, tx, id);
    case ExpireSelected(tx) => ExpireKeeps(w, tx, id);
    case Create(n, kc, lifetime, late) => CreateKeeps(w, n, kc, lifetime, late, id);
    case _ => QuietSteps(w, s);
  }

  // ---- initial grants -----------------------------------------------------------------

  /** The initial roles and departments have been applied once to an accepted invitation and to
      no other. */
  ghost predicate GrantedOnce(w: World) {
    forall id :: w.granted[id] == if id in w.invites && w.invites[id].status == Accepted then 1 else 0
  }

  lemma AcceptGrants(w: World, u: User)
    requires GrantedOnce(w)
    ensures GrantedOnce(AcceptStep(w, u))
  {
  }

  /** Creating, revoking and expiring accept nothing, and an accepted row stays so. */
  lemma InsertGrants(w: World, id: Id, kc: KcUser, lifetime: nat, late: int, full: bool)
    requires GrantedOnce(w)
    ensures GrantedOnce(Inserted(w, id, kc, lifetime, late, full))
  {
  }

  lemma CreateGrants(w: World, id: Id, kc: KcUser, lifetime: nat, late: int)
    requires GrantedOnce(w)
    ensures GrantedOnce(CreateStep(w, id, kc, lifetime, late))
  {
    if w.lock.Some? && w.lock.value.Inviting? {
      InsertGrants(w.(lock := None), id, kc, lifetime, late, w.lock.value.full);
    }
  }

  lemma RevokeGrants(w: World, tx: Tx)
    requires GrantedOnce(w)
    ensures GrantedOnce(RevokeStep(w, tx))
  {
  }

  lemma ExpireGrants(w: World, tx: Tx)
    requires GrantedOnce(w)
    ensures GrantedOnce(ExpireStep(w, tx))
  {
  }

  lemma QuietGrants(w: World, s: Step)
    requires GrantedOnce(w) && !s.Create? && !s.Accept? && !s.Revoke? && !s.ExpireSelected?
    ensures GrantedOnce(Next(w, s))
  {
    QuietSteps(w, s);
  }

  lemma NextGrants(w: World, s: Step)
    requires GrantedOnce(w)
    ensures GrantedOnce(Next(w, s))
  {
    match s
    case Create(id, kc, lifetime, late) => CreateGrants(w, id, kc, lifetime, late);
    case Accept(u) => AcceptGrants(w, u);
    case Revoke(tx) => RevokeGrants(w, tx);
    case ExpireSelected(tx) => ExpireGrants(w, tx);
    case _ => QuietGrants(w, s);
  }

  lemma {:induction false} InitialGrantsOnce(now: nat, seats: int, steps: seq<Step>)
    ensures GrantedOnce(Run(Init(now, seats), steps))
  {
    if steps == [] {
    } else {
      InitialGrantsOnce(now, seats, steps[..|steps| - 1]);
      NextGrants(Run(Init(now, seats), steps[..|steps| - 1]), steps[|steps| - 1]);
    }
  }
}
