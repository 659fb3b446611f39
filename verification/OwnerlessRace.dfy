/**
  The owner rows and ownerless_since, statement by statement. I-5 takes no tenant lock: it lists
  the member's roles, revokes them, and only if the list showed the owner role counts the
  owners left and marks the tenant. P-8 and P-28 hold the tenant lock from their guard on,
  which does not keep I-5 out. O-7 grants the role, holding nothing if the row is there
  already, and then clears the mark. A statement sees what is committed and its own
  transaction's writes; one that must wait for a row another transaction holds is a step
  that is not possible yet.
 */
module OwnerlessRace {
  import opened Tenants
  import opened Roles

  /** How far a transaction on the owner row of `user` has got. */
  datatype Phase =
    | Listed(user: User, wasOwner: bool)                    // I-5: ListByUser
    | Cascaded(user: User, wasOwner: bool, took: bool)      // I-5: SoftDeleteAllForUser
    | Counted(user: User, took: bool, zero: bool)           // I-5: CountActiveOwners
    | Marking(user: User, took: bool, marks: bool)          // I-5: MarkOwnerlessIfUnset
    | Guarded(user: User)                                   // P-8, P-28: LockByID and the guard
    | Stripped(user: User, took: bool)                      // P-8, P-28: the revocation
    | Granted(user: User, inserted: bool, reassigns: bool)  // any grant; O-7 goes on to clear
    | Cleared(user: User, inserted: bool)                   // O-7: ClearOwnerlessSince

  datatype World = World(
    owners: set<User>,               // committed
    ownerless: bool,                 // committed
    open: map<Tx, Phase>,
    lock: Option<Tx>)                // who holds the tenants row

  datatype Step =
    | List(tx: Tx, user: User)
    | Cascade(tx: Tx)
    | Count(tx: Tx)
    | Mark(tx: Tx)
    | Guard(tx: Tx, user: User)
    | Strip(tx: Tx)
    | Grant(tx: Tx, user: User, reassigns: bool)
    | Clear(tx: Tx)
    | Commit(tx: Tx)
    | Rollback(tx: Tx)

  // ---- what a transaction will do when it commits -------------------------------------

  predicate Took(p: Phase) {
    (p.Cascaded? || p.Counted? || p.Marking? || p.Stripped?) && p.took
  }

  predicate Inserts(p: Phase) { (p.Granted? || p.Cleared?) && p.inserted }

  predicate Marks(p: Phase) { p.Marking? && p.marks }

  /** Its last statement is behind it. */
  predicate Finished(p: Phase) {
    match p
    case Cascaded(_, wasOwner, _) => !wasOwner
    case Counted(_, _, zero) => !zero
    case Granted(_, _, reassigns) => !reassigns
    case Marking(_, _, _) => true
    case Stripped(_, _) => true
    case Cleared(_, _) => true
    case _ => false
  }

  /** The owner row of the user is held: revoked or inserted by an open transaction. */
  predicate Held(w: World, u: User) {
    exists tx :: tx in w.open && w.open[tx].user == u && (Took(w.open[tx]) || Inserts(w.open[tx]))
  }

  /** P-8 or P-28 holds the tenants row FOR UPDATE, which keeps out the foreign-key check of an
      insert; an UPDATE of the mark does not. */
  predicate Exclusive(w: World) {
    w.lock.Some? && w.lock.value in w.open && (w.open[w.lock.value].Guarded? || w.open[w.lock.value].Stripped?)
  }

  /** ... and such an insert, once made, keeps the FOR UPDATE out. */
  predicate Inserting(w: World) {
    exists tx :: tx in w.open && Inserts(w.open[tx])
  }

  // ---- steps ------------------------------------------------------------------------

  function At(w: World, tx: Tx, p: Phase): World { w.(open := w.open[tx := p]) }

  function ListStep(w: World, tx: Tx, u: User): World {
    if tx in w.open then w else At(w, tx, Listed(u, u in w.owners))
  }

  function CascadeStep(w: World, tx: Tx): World {
    if tx !in w.open || !w.open[tx].Listed? || Held(w, w.open[tx].user) then w
    else
      var p := w.open[tx];
      At(w, tx, Cascaded(p.user, p.wasOwner, p.user in w.owners))
  }

  function CountStep(w: World, tx: Tx): World {
    if tx !in w.open || !w.open[tx].Cascaded? || !w.open[tx].wasOwner then w
    else
      var p := w.open[tx];
      var left := if p.took then w.owners - {p.user} else w.owners;
      At(w, tx, Counted(p.user, p.took, left == {}))
  }

  /** The UPDATE touches the row, and so waits for it and holds it, only if the mark is not set. */
  function MarkStep(w: World, tx: Tx): World {
    if tx !in w.open || !w.open[tx].Counted? || !w.open[tx].zero then w
    else
      var p := w.open[tx];
      if w.ownerless then At(w, tx, Marking(p.user, p.took, false))
      else if w.lock.Some? then w
      else At(w, tx, Marking(p.user, p.took, true)).(lock := Some(tx))
  }

  /** The guard passes for a member listed without the owner role, or with another owner row. */
  function GuardStep(w: World, tx: Tx, u: User): World {
    if tx in w.open || w.lock.Some? || Inserting(w) || (u in w.owners && |w.owners| <= 1) then w
    else At(w, tx, Guarded(u)).(lock := Some(tx))
  }

  function StripStep(w: World, tx: Tx): World {
    if tx !in w.open || !w.open[tx].Guarded? || Held(w, w.open[tx].user) then w
    else At(w, tx, Stripped(w.open[tx].user, w.open[tx].user in w.owners))
  }

  function GrantStep(w: World, tx: Tx, u: User, reassigns: bool): World {
    if tx in w.open || Held(w, u) || (u !in w.owners && Exclusive(w)) then w
    else At(w, tx, Granted(u, u !in w.owners, reassigns))
  }

  function ClearStep(w: World, tx: Tx): World {
    if tx !in w.open || !w.open[tx].Granted? || !w.open[tx].reassigns || w.lock.Some? then w
    else At(w, tx, Cleared(w.open[tx].user, w.open[tx].inserted)).(lock := Some(tx))
  }

  function Released(w: World, tx: Tx): World {
    w.(open := w.open - {tx}, lock := if w.lock == Some(tx) then None else w.lock)
  }

  function CommitStep(w: World, tx: Tx): World {
    if tx !in w.open || !Finished(w.open[tx]) then w
    else
      var p := w.open[tx];
      Released(w, tx).(
        owners := if Took(p) then w.owners - {p.user}
                  else if Inserts(p) then w.owners + {p.user} else w.owners,
        ownerless := if p.Cleared? then false else w.ownerless || Marks(p))
  }

  function Next(w: World, s: Step): World {
    match s
    case List(tx, u) => ListStep(w, tx, u)
    case Cascade(tx) => CascadeStep(w, tx)
    case Count(tx) => CountStep(w, tx)
    case Mark(tx) => MarkStep(w, tx)
    case Guard(tx, u) => GuardStep(w, tx, u)
    case Strip(tx) => StripStep(w, tx)
    case Grant(tx, u, reassigns) => GrantStep(w, tx, u, reassigns)
    case Clear(tx) => ClearStep(w, tx)
    case Commit(tx) => CommitStep(w, tx)
    case Rollback(tx) => Released(w, tx)
  }

  function Run(w: World, steps: seq<Step>): World {
    if steps == [] then w
    else Next(Run(w, steps[..|steps| - 1]), steps[|steps| - 1])
  }

  lemma RunSnoc(w: World, steps: seq<Step>, s: Step)
    ensures Run(w, steps + [s]) == Next(Run(w, steps), s)
  {
    assert (steps + [s])[..|steps|] == steps;
  }

  // ---- when the mark is lost ----------------------------------------------------------

  predicate Marked(w: World) { w.owners == {} ==> w.ownerless }

  /** Its transaction takes the last owner of an unmarked tenant and writes no mark: an I-5 that
      listed no owner role, counted another owner or found the mark still set, or a P-8 or P-28. */
  predicate TakesLast(w: World, p: Phase) {
    Took(p) && !Marks(p) && w.owners == {p.user} && !w.ownerless
  }

  /** An O-7 that found the row clears the mark of a tenant that has lost it since. */
  predicate ClearsWrongly(w: World, p: Phase) {
    p.Cleared? && !p.inserted && w.owners == {}
  }

  predicate Outdated(w: World, s: Step) {
    && s.Commit? && s.tx in w.open && Finished(w.open[s.tx])
    && (TakesLast(w, w.open[s.tx]) || ClearsWrongly(w, w.open[s.tx]))
  }

  lemma LastTaken(owners: set<User>, u: User)
    ensures owners - {u} == {} <==> owners == {} || owners == {u}
  {
    assert owners - {u} == {} ==> owners <= {u};
  }

  lemma CommitLosesExactly(w: World, tx: Tx)
    requires Marked(w)
    ensures Marked(CommitStep(w, tx)) <==> !Outdated(w, Commit(tx))
  {
    if tx in w.open { LastTaken(w.owners, w.open[tx].user); }
  }

  /** An ownerless tenant stays marked exactly through the steps that are no such commit. */
  lemma MarkLostExactly(w: World, s: Step)
    requires Marked(w)
    ensures Marked(Next(w, s)) <==> !Outdated(w, s)
  {
    if s.Commit? { CommitLosesExactly(w, s.tx); } else { OnlyCommits(w, s); }
  }

  lemma OnlyCommits(w: World, s: Step)
    requires !s.Commit?
    ensures Next(w, s).owners == w.owners && Next(w, s).ownerless == w.ownerless
  {
  }

  /** No step of the run is such a commit. */
  predicate UpToDate(w: World, steps: seq<Step>) {
    steps != [] ==>
      && UpToDate(w, steps[..|steps| - 1])
      && !Outdated(Run(w, steps[..|steps| - 1]), steps[|steps| - 1])
  }

  /** Marked at every point of the run. */
  predicate AlwaysMarked(w: World, steps: seq<Step>) {
    Marked(Run(w, steps)) && (steps != [] ==> AlwaysMarked(w, steps[..|steps| - 1]))
  }

  /** So it is marked throughout exactly the runs without one. */
  lemma {:induction false} MarkedThroughout(w: World, steps: seq<Step>)
    requires Marked(w)
    ensures AlwaysMarked(w, steps) <==> UpToDate(w, steps)
  {
    if steps == [] {
    } else {
      var front := steps[..|steps| - 1];
      MarkedThroughout(w, front);
      if AlwaysMarked(w, front) { MarkLostExactly(Run(w, front), steps[|steps| - 1]); }
    }
  }

  // ---- the ways to lose it ----------------------------------------------------------

  predicate Unmarked(w: World) { w.owners == {} && !w.ownerless }

  /** One more step of a run. */
  lemma Then(w0: World, steps: seq<Step>, s: Step, w: World) returns (steps': seq<Step>)
    requires Next(Run(w0, steps), s) == w
    ensures steps' == steps + [s] && Run(w0, steps') == w
  {
    RunSnoc(w0, steps, s);
    steps' := steps + [s];
  }

  function TwoOwners(a: User, b: User): World { World({a, b}, false, map[], None) }

  /** I-5 of `u` as far as its count, which finds someone left. */
  lemma CountsAnother(w0: World, steps: seq<Step>, tx: Tx, u: User) returns (steps': seq<Step>)
    requires var w := Run(w0, steps); tx !in w.open && u in w.owners && !Held(w, u) && w.owners - {u} != {}
    ensures var w := Run(w0, steps); Run(w0, steps') == At(w, tx, Counted(u, true, false))
  {
    var w := Run(w0, steps);
    steps' := Then(w0, steps, List(tx, u), At(w, tx, Listed(u, true)));
    steps' := Then(w0, steps', Cascade(tx), At(w, tx, Cascaded(u, true, true)));
    steps' := Then(w0, steps', Count(tx), At(w, tx, Counted(u, true, false)));
  }

  /** P-8 of `u`, one of several owners, as far as its cascade. */
  lemma GuardsAndStrips(w0: World, steps: seq<Step>, tx: Tx, u: User) returns (steps': seq<Step>)
    requires var w := Run(w0, steps);
             tx !in w.open && w.lock.None? && !Inserting(w) && u in w.owners && !Held(w, u) && |w.owners| > 1
    ensures var w := Run(w0, steps);
            Run(w0, steps') == At(w, tx, Stripped(u, true)).(lock := Some(tx))
  {
    var w := Run(w0, steps);
    steps' := Then(w0, steps, Guard(tx, u), At(w, tx, Guarded(u)).(lock := Some(tx)));
    steps' := Then(w0, steps', Strip(tx), At(w, tx, Stripped(u, true)).(lock := Some(tx)));
  }

  /** Any two last owners deleted at once: both counts see the other, neither marks. */
  lemma TwoDeletionsLoseTheMark(a: User, b: User) returns (steps: seq<Step>)
    requires a != b
    ensures Unmarked(Run(TwoOwners(a, b), steps))
  {
    var w0 := TwoOwners(a, b);
    assert b in w0.owners - {a} && a in w0.owners - {b};
    steps := CountsAnother(w0, [], 0, a);
    steps := CountsAnother(w0, steps, 1, b);
    RunSnoc(w0, steps, Commit(0));
    RunSnoc(w0, steps + [Commit(0)], Commit(1));
    steps := steps + [Commit(0)] + [Commit(1)];
  }

  /** Any two last owners, one removed and one deleted: the removal counts both under the tenant
      lock, the deletion counts the owner being removed and commits, and the removal commits. */
  lemma RemovalAndDeletionLoseTheMark(a: User, b: User) returns (steps: seq<Step>)
    requires a != b
    ensures Unmarked(Run(TwoOwners(a, b), steps))
  {
    var w0 := TwoOwners(a, b);
    assert |{a, b}| == 2 && a in w0.owners - {b};
    steps := Then(w0, [], Guard(0, a), World({a, b}, false, map[0 := Guarded(a)], Some(0)));
    steps := CountsAnother(w0, steps, 1, b);
    steps := Then(w0, steps, Commit(1), World({a}, false, map[0 := Guarded(a)], Some(0)));
    steps := Then(w0, steps, Strip(0), World({a}, false, map[0 := Stripped(a, true)], Some(0)));
    steps := Then(w0, steps, Commit(0), World({}, false, map[], None));
  }

  /** ... or the deletion counts first and commits last. */
  lemma DeletionAroundRemovalLosesTheMark(a: User, b: User) returns (steps: seq<Step>)
    requires a != b
    ensures Unmarked(Run(TwoOwners(a, b), steps))
  {
    var w0 := TwoOwners(a, b);
    var p := Counted(b, true, false);
    assert |{a, b}| == 2 && a in w0.owners - {b};
    steps := CountsAnother(w0, [], 0, b);
    steps := GuardsAndStrips(w0, steps, 1, a);
    steps := Then(w0, steps, Commit(1), World({b}, false, map[0 := p], None));
    steps := Then(w0, steps, Commit(0), World({}, false, map[], None));
  }

  lemma RunFour(w: World, a: Step, b: Step, c: Step, d: Step)
    ensures Run(w, [a, b, c, d]) == Next(Next(Next(Next(w, a), b), c), d)
  {
    var s := [a, b, c, d];
    assert s[..3][..2] == s[..2] && s[..2][..1] == s[..1] && s[..1][..0] == [];
    assert Run(w, s[..1]) == Next(w, a);
    assert Run(w, s[..2]) == Next(Next(w, a), b);
    assert Run(w, s[..3]) == Next(Next(Next(w, a), b), c);
  }

  lemma {:induction false} RunAppend(w: World, a: seq<Step>, b: seq<Step>)
    ensures Run(w, a + b) == Run(Run(w, a), b)
    decreases |b|
  {
    if b == [] {
      assert a + b == a;
    } else {
      var front := b[..|b| - 1];
      assert a + b == (a + front) + [b[|b| - 1]];
      RunSnoc(w, a + front, b[|b| - 1]);
      RunAppend(w, a, front);
    }
  }

  /** A sole owner: O-7 for that owner finds the row, and I-5 of the owner counts none left. */
  lemma FoundThenCounted(u: User)
    ensures Run(World({u}, false, map[], None), [Grant(0, u, true), List(1, u), Cascade(1), Count(1)])
         == World({u}, false, map[0 := Granted(u, false, true), 1 := Counted(u, true, true)], None)
  {
    var w0 := World({u}, false, map[], None);
    var g := Granted(u, false, true);
    RunFour(w0, Grant(0, u, true), List(1, u), Cascade(1), Count(1));
    var w1 := World({u}, false, map[0 := g], None);
    assert GrantStep(w0, 0, u, true) == w1;
    var w2 := World({u}, false, map[0 := g, 1 := Listed(u, true)], None);
    assert ListStep(w1, 1, u) == w2;
    var w3 := World({u}, false, map[0 := g, 1 := Cascaded(u, true, true)], None);
    assert CascadeStep(w2, 1) == w3;
    assert {u} - {u} == {};
  }

  /** I-5 marks and commits, and O-7 clears the mark. */
  lemma MarkedThenCleared(u: User)
    ensures var w := World({u}, false, map[0 := Granted(u, false, true), 1 := Counted(u, true, true)], None);
            Unmarked(Run(w, [Mark(1), Commit(1), Clear(0), Commit(0)]))
  {
    var g := Granted(u, false, true);
    var w := World({u}, false, map[0 := g, 1 := Counted(u, true, true)], None);
    RunFour(w, Mark(1), Commit(1), Clear(0), Commit(0));
    var w1 := World({u}, false, map[0 := g, 1 := Marking(u, true, true)], Some(1));
    assert MarkStep(w, 1) == w1;
    var w2 := World({}, true, map[0 := g], None);
    assert CommitStep(w1, 1) == w2;
    var w3 := World({}, true, map[0 := Cleared(u, false)], Some(0));
    assert ClearStep(w2, 0) == w3;
  }

  /** Any sole owner: O-7 for that owner finds the row, I-5 of the owner counts none left, marks
      and commits, and O-7 clears the mark. */
  lemma ReassigningTheDeletedOwnerLosesTheMark(u: User) returns (steps: seq<Step>)
    ensures Unmarked(Run(World({u}, false, map[], None), steps))
  {
    var a, b := [Grant(0, u, true), List(1, u), Cascade(1), Count(1)], [Mark(1), Commit(1), Clear(0), Commit(0)];
    FoundThenCounted(u);
    MarkedThenCleared(u);
    RunAppend(World({u}, false, map[], None), a, b);
    steps := a + b;
  }

  /** A member of an ownerless tenant: I-5 lists no owner role, O-7 makes the member owner and
      clears the mark. */
  lemma ListedThenReassigned(u: User)
    ensures Run(World({}, true, map[], None), [List(0, u), Grant(1, u, true), Clear(1), Commit(1)])
         == World({u}, false, map[0 := Listed(u, false)], None)
  {
    var w0 := World({}, true, map[], None);
    RunFour(w0, List(0, u), Grant(1, u, true), Clear(1), Commit(1));
    var w1 := World({}, true, map[0 := Listed(u, false)], None);
    assert ListStep(w0, 0, u) == w1;
    var w2 := World({}, true, map[0 := Listed(u, false), 1 := Granted(u, true, true)], None);
    assert GrantStep(w1, 1, u, true) == w2;
    ClearedThenCommitted(u);
  }

  lemma ClearedThenCommitted(u: User)
    ensures CommitStep(ClearStep(World({}, true, map[0 := Listed(u, false), 1 := Granted(u, true, true)], None), 1), 1)
         == World({u}, false, map[0 := Listed(u, false)], None)
  {
    var w3 := World({}, true, map[0 := Listed(u, false), 1 := Cleared(u, true)], Some(1));
    assert CommitStep(w3, 1) == World({u}, false, map[0 := Listed(u, false)], None);
  }

  /** ... and I-5 takes the role without counting: any member of an ownerless tenant. */
  lemma DeletingTheNewOwnerLosesTheMark(u: User) returns (steps: seq<Step>)
    ensures Unmarked(Run(World({}, true, map[], None), steps))
  {
    var a := [List(0, u), Grant(1, u, true), Clear(1), Commit(1)];
    var w0 := World({}, true, map[], None);
    ListedThenReassigned(u);
    steps := Then(w0, a, Cascade(0), World({u}, false, map[0 := Cascaded(u, false, true)], None));
    steps := Then(w0, steps, Commit(0), World({}, false, map[], None));
  }
}
