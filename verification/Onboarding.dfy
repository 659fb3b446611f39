/**
  Invitations and the membership tables together: I-3 settles an invitation and applies what it
  offers in one transaction, beside every other mutator and every other invitation step.
 */
module Onboarding {
  import opened Roles
  import opened Effects
  import I = Invitations
  import R = RoleRuns

  /** The initial roles and departments of an invitation. */
  datatype Offer = Offer(roles: seq<Role>, pairs: seq<(Dept, Level)>)

  type Offers = I.Id -> Offer

  datatype World = World(inv: I.World, mem: R.World, takers: map<I.Id, User>)   // takers: history

  datatype Step =
    | Register(user: User)          // the rest of I-3's transaction, after its look
    | Add(user: User)               // I-3 without an invitation
    | Invitation(step: I.Step)      // anything else that happens to invitations and seats
    | Member(mutation: R.Step)      // any other mutator

  /** I-3 is about to accept the invitation it holds. */
  predicate Accepts(w: I.World) {
    I.RowTaken(w) && !(w.lock.value.overdue && w.lock.value.full)
  }

  /** The tenant lock fails for a deleted tenant. */
  function RegisterStep(offers: Offers, w: World, u: User): World {
    if !w.mem.live || w.inv.lock.None? || !w.inv.lock.value.Accepting? then w
    else
      var inv := I.AcceptStep(w.inv, u);
      var id := w.inv.lock.value.id;
      if Accepts(w.inv) then
        World(inv, R.AcceptStep(w.mem, u, offers(id).roles, offers(id).pairs), w.takers[id := u])
      else if I.PendingRow(w.inv, id) then w.(inv := inv)
      else w.(inv := inv, mem := R.JoinStep(w.mem, u))
  }

  function Next(offers: Offers, w: World, s: Step): World {
    match s
    case Register(u) => RegisterStep(offers, w, u)
    case Add(u) =>
      if !w.mem.live || w.inv.lock.Some? then w else w.(inv := I.AddStep(w.inv, u), mem := R.JoinStep(w.mem, u))
    case Invitation(t) => if t.Accept? || t.PlainAdd? then w else w.(inv := I.Next(w.inv, t))
    case Member(t) => if t.Accept? || t.Join? then w else w.(mem := R.Next(w.mem, t))
  }

  function Run(offers: Offers, w: World, steps: seq<Step>): World {
    if steps == [] then w
    else Next(offers, Run(offers, w, steps[..|steps| - 1]), steps[|steps| - 1])
  }

  function Init(now: nat, seats: int): World { World(I.Init(now, seats), R.INIT, map[]) }

  // ---- one transaction ----------------------------------------------------------------

  /** An invitation enters the `granted` history exactly if its user is made a member with every
      role and department it offers; otherwise no role and no department changes. */
  lemma GrantedExactly(offers: Offers, w: World, u: User)
    ensures var w' := RegisterStep(offers, w, u);
            if w.mem.live && Accepts(w.inv)
            then var id := w.inv.lock.value.id;
                 && w'.inv.granted == w.inv.granted + multiset{id} && w'.inv.invites[id].status == I.Accepted
                 && Onboarded(w.mem, w'.mem, u, offers(id).roles, offers(id).pairs)
            else w'.inv.granted == w.inv.granted && w'.mem.tables == w.mem.tables && w'.mem.outbox == w.mem.outbox
  {
    if w.mem.live && Accepts(w.inv) {
      var id := w.inv.lock.value.id;
      AcceptOnboards(w.mem, u, offers(id).roles, offers(id).pairs);
    }
  }

  // ---- every run ----------------------------------------------------------------------

  predicate ToldAt(out: seq<Event>, u: User, o: Offer, n: nat) {
    && n + |o.roles| + |o.pairs| <= |out|
    && AnnouncesOffer(out[..n], out[..n + |o.roles| + |o.pairs|], u, o.roles, o.pairs)
  }

  /** The log holds the Granted events of the whole offer, in one piece. */
  predicate Told(out: seq<Event>, u: User, o: Offer) { exists n: nat :: n <= |out| && ToldAt(out, u, o, n) }

  /** The initial roles and departments were applied once for each accepted invitation, to one user,
      and announced; for no other invitation. */
  ghost predicate Applied(offers: Offers, w: World) {
    && I.GrantedOnce(w.inv)
    && (forall id :: id in w.takers <==> w.inv.granted[id] == 1)
    && (forall id :: id in w.takers ==> Told(w.mem.outbox, w.takers[id], offers(id)))
  }

  lemma ToldGrows(out: seq<Event>, out': seq<Event>, u: User, o: Offer)
    requires Told(out, u, o) && out <= out'
    ensures Told(out', u, o)
  {
    var n: nat :| n <= |out| && ToldAt(out, u, o, n);
    assert out'[..n] == out[..n];
    assert out'[..n + |o.roles| + |o.pairs|] == out[..n + |o.roles| + |o.pairs|];
    assert ToldAt(out', u, o, n);
  }

  /** No mutator rewrites the log. */
  lemma LogGrows(w: R.World, s: R.Step)
    ensures w.outbox <= R.Next(w, s).outbox
  {
    match s
    case Accept(u, rs, ps) => AcceptLogGrows(w, u, rs, ps);
    case RemoveUser(u, rs, ds) => RemovalLogGrows(w, u, rs, ds);
    case DeleteMember(u, rs, ds) => RemovalLogGrows(w, u, rs, ds);
    case _ =>
  }

  lemma AcceptLogGrows(w: R.World, u: User, rs: seq<Role>, ps: seq<(Dept, Level)>)
    ensures w.outbox <= R.AcceptStep(w, u, rs, ps).outbox
  {
  }

  lemma RemovalLogGrows(w: R.World, u: User, rs: seq<Role>, ds: seq<Dept>)
    ensures w.outbox <= R.RemoveUserStep(w, u, rs, ds).outbox
    ensures w.outbox <= R.DeleteMemberStep(w, u, rs, ds).outbox
  {
  }

  /** Only an acceptance grants. */
  lemma OthersGrantNothing(w: I.World, s: I.Step)
    requires !s.Accept?
    ensures I.Next(w, s).granted == w.granted
  {
    match s
    case Create(id, kc, lifetime, late) => CreateGrantsNothing(w, id, kc, lifetime, late);
    case Revoke(tx) => SettleGrantsNothing(w, tx);
    case ExpireSelected(tx) => SettleGrantsNothing(w, tx);
    case _ => I.QuietSteps(w, s);
  }

  lemma CreateGrantsNothing(w: I.World, id: I.Id, kc: I.KcUser, lifetime: nat, late: int)
    ensures I.CreateStep(w, id, kc, lifetime, late).granted == w.granted
  {
  }

  lemma SettleGrantsNothing(w: I.World, tx: I.Tx)
    ensures I.RevokeStep(w, tx).granted == w.granted && I.ExpireStep(w, tx).granted == w.granted
  {
  }

  lemma OfferTold(out: seq<Event>, out': seq<Event>, u: User, o: Offer)
    requires AnnouncesOffer(out, out', u, o.roles, o.pairs)
    ensures Told(out', u, o) && out <= out'
  {
    assert out'[..|out|] == out && out'[..|out'|] == out';
    assert ToldAt(out', u, o, |out|);
  }

  lemma RegisterApplies(offers: Offers, w: World, u: User)
    requires Applied(offers, w)
    ensures Applied(offers, RegisterStep(offers, w, u))
  {
    var w' := RegisterStep(offers, w, u);
    GrantedExactly(offers, w, u);
    I.AcceptGrants(w.inv, u);
    if w.mem.live && Accepts(w.inv) {
      var id := w.inv.lock.value.id;
      OfferTold(w.mem.outbox, w'.mem.outbox, u, offers(id));
      forall j | j in w'.takers ensures Told(w'.mem.outbox, w'.takers[j], offers(j)) {
        if j != id { ToldGrows(w.mem.outbox, w'.mem.outbox, w.takers[j], offers(j)); }
      }
    }
  }

  lemma MutatorApplies(offers: Offers, w: World, s: R.Step)
    requires Applied(offers, w)
    ensures Applied(offers, w.(mem := R.Next(w.mem, s)))
  {
    LogGrows(w.mem, s);
    forall j | j in w.takers ensures Told(R.Next(w.mem, s).outbox, w.takers[j], offers(j)) {
      ToldGrows(w.mem.outbox, R.Next(w.mem, s).outbox, w.takers[j], offers(j));
    }
  }

  lemma InvitationApplies(offers: Offers, w: World, s: I.Step)
    requires Applied(offers, w) && !s.Accept?
    ensures Applied(offers, w.(inv := I.Next(w.inv, s)))
  {
    OthersGrantNothing(w.inv, s);
    I.NextGrants(w.inv, s);
  }

  lemma AddApplies(offers: Offers, w: World, u: User)
    requires Applied(offers, w)
    ensures Applied(offers, w.(inv := I.AddStep(w.inv, u), mem := R.JoinStep(w.mem, u)))
  {
    InvitationApplies(offers, w, I.PlainAdd(u));
    assert R.JoinStep(w.mem, u).outbox == w.mem.outbox;
  }

  lemma NextApplies(offers: Offers, w: World, s: Step)
    requires Applied(offers, w)
    ensures Applied(offers, Next(offers, w, s))
  {
    match s
    case Register(u) => RegisterApplies(offers, w, u);
    case Add(u) => AddApplies(offers, w, u);
    case Invitation(t) => if !t.Accept? { InvitationApplies(offers, w, t); }
    case Member(t) => MutatorApplies(offers, w, t);
  }

  /** In every run of all invitation steps and all mutators: what an invitation offers has been
      applied exactly once if it is accepted, to the user who accepted it, and the log tells so. */
  lemma {:induction false} OffersAreApplied(offers: Offers, now: nat, seats: int, steps: seq<Step>)
    ensures Applied(offers, Run(offers, Init(now, seats), steps))
  {
    if steps == [] {
    } else {
      OffersAreApplied(offers, now, seats, steps[..|steps| - 1]);
      NextApplies(offers, Run(offers, Init(now, seats), steps[..|steps| - 1]), steps[|steps| - 1]);
    }
  }
}
