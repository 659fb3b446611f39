/**
  The event log when grants are taken apart. A grant that inserts its row holds it until it
  commits, as a revocation does. A grant that finds the row there inserts nothing and holds
  nothing, and yet announces it (P-28 on a stale read, O-7, I-3): its look at the row and
  its commit are two moments, and any other mutator may run in between.
 */
module GrantRace {
  import opened Roles
  import R = RoleRuns

  /** A grant between its INSERT and its commit. */
  datatype Grant = Grant(user: User, role: Role, found: bool)

  datatype World = World(base: R.World, open: map<Tx, Grant>)

  datatype Step =
    | Mutate(step: R.Step)                        // any mutator, as one step
    | Insert(tx: Tx, user: User, role: Role)      // INSERT ... ON CONFLICT DO NOTHING
    | Commit(tx: Tx)
    | Rollback(tx: Tx)

  /** Another insert of the row is not committed yet: this one waits for it. */
  predicate BeingInserted(w: World, u: User, r: Role) {
    exists tx :: tx in w.open && !w.open[tx].found && w.open[tx].user == u && w.open[tx].role == r
  }

  function InsertStep(w: World, tx: Tx, u: User, r: Role): World {
    var there := (u, r) in w.base.tables.roles;
    if tx in w.open || u !in w.base.known || (!there && BeingInserted(w, u, r)) then w
    else w.(open := w.open[tx := Grant(u, r, there)])
  }

  /** The row appears if the grant inserted it; the event is announced either way. */
  function CommitStep(w: World, tx: Tx): World {
    if tx !in w.open then w
    else
      var g := w.open[tx];
      var t := w.base.tables;
      World(w.base.(tables := if g.found then t else t.(roles := t.roles + {(g.user, g.role)}),
                    outbox := w.base.outbox + [RoleGranted(g.user, g.role)]),
            w.open - {tx})
  }

  function Next(w: World, s: Step): World {
    match s
    case Mutate(m) => w.(base := R.Next(w.base, m))
    case Insert(tx, u, r) => InsertStep(w, tx, u, r)
    case Commit(tx) => CommitStep(w, tx)
    case Rollback(tx) => w.(open := w.open - {tx})
  }

  function Run(w: World, steps: seq<Step>): World {
    if steps == [] then w
    else Next(Run(w, steps[..|steps| - 1]), steps[|steps| - 1])
  }

  const INIT := World(R.INIT, map[])

  predicate Faithful(w: World) { R.Faithful(w.base) }

  /** A grant that found its row announces it after the row is gone. */
  predicate Belated(w: World, s: Step) {
    s.Commit? && s.tx in w.open && w.open[s.tx].found
    && (w.open[s.tx].user, w.open[s.tx].role) !in w.base.tables.roles
  }

  lemma CommitTellsExactly(w: World, tx: Tx)
    requires Faithful(w)
    ensures Faithful(CommitStep(w, tx)) <==> !Belated(w, Commit(tx))
  {
    if tx in w.open {
      var g := w.open[tx];
      var t := w.base.tables;
      TellsSnoc(EMPTY, w.base.outbox, t, RoleGranted(g.user, g.role));
      assert (g.user, g.role) in t.roles ==> t.roles + {(g.user, g.role)} == t.roles;
    }
  }

  /** The log stays faithful to the tables exactly through the steps that are no such
      announcement. */
  lemma FaithLostExactly(w: World, s: Step)
    requires Faithful(w)
    ensures Faithful(Next(w, s)) <==> !Belated(w, s)
  {
    match s
    case Mutate(m) => R.NextTells(w.base, m);
    case Commit(tx) => CommitTellsExactly(w, tx);
    case _ =>
  }

  predicate AlwaysFaithful(steps: seq<Step>) {
    Faithful(Run(INIT, steps)) && (steps != [] ==> AlwaysFaithful(steps[..|steps| - 1]))
  }

  predicate NeverBelated(steps: seq<Step>) {
    steps != [] ==>
      && NeverBelated(steps[..|steps| - 1])
      && !Belated(Run(INIT, steps[..|steps| - 1]), steps[|steps| - 1])
  }

  /** So, over every run of all mutators with any grants taken apart, the log is faithful at every
      point exactly if no grant is belated. */
  lemma {:induction false} FaithfulThroughout(steps: seq<Step>)
    ensures AlwaysFaithful(steps) <==> NeverBelated(steps)
  {
    if steps == [] {
    } else {
      var front := steps[..|steps| - 1];
      FaithfulThroughout(front);
      if AlwaysFaithful(front) { FaithLostExactly(Run(INIT, front), steps[|steps| - 1]); }
    }
  }

  /** One can be: a second grant of any held role finds the row, a reconcile revokes it, and the
      second grant announces it. The log then tells of a row that is not there. */
  lemma AGrantCanBeBelated(w: World, tx: Tx, p: Tx, u: User, r: Role)
    requires Faithful(w) && tx !in w.open && u in w.base.known && (u, r) in w.base.tables.roles
    requires r != TenantOwner && p in w.base.prior && w.base.prior[p] == R.RolesRead(u, {r}, {})
    ensures var w1 := InsertStep(w, tx, u, r);
            var w2 := Next(w1, Mutate(R.Reconcile(p, [], [r])));
            var w3 := CommitStep(w2, tx);
            (u, r) !in w3.base.tables.roles && (u, r) in ApplyAll(EMPTY, w3.base.outbox).roles
  {
    var w1 := InsertStep(w, tx, u, r);
    PairsSnoc(u, [r]);
    assert Pairs(u, [r][..0]) == {};
    var b2 := R.ReconcileStep(w.base, p, [], [r]);
    assert b2.tables.roles == w.base.tables.roles + Pairs(u, []) - {(u, r)};
    R.NextTells(w.base, R.Reconcile(p, [], [r]));
    TellsSnoc(EMPTY, b2.outbox, b2.tables, RoleGranted(u, r));
  }
}
