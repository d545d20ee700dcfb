/**
 No stale reads: a projection the store hands out belongs to the set last
 committed, and that commit was for exactly the current, canonical checkpoint.
 */
module ChainReads {
  import opened Prelude
  import opened Lifecycle
  import opened ChainTables
  import opened ChainStack
  import opened ChainRuns
  import opened ChainSafety

  // ---- the committed rows ---------------------------------------------------

  /** The projection a list of projections puts under a key. */
  ghost predicate Puts(ps: seq<Projection>, k: ProjectionKey, row: ProjectionRow) {
    exists p :: p in ps && ProjectionKeyOf(p) == k && row == ProjectionRow(p.at, p.state)
  }

  lemma {:induction false} PutProjectionsAt(rows: map<ProjectionKey, ProjectionRow>, ps: seq<Projection>, k: ProjectionKey)
    requires DistinctProjections(ps)
    ensures k in PutProjections(rows, ps) <==> k in rows || exists p :: p in ps && ProjectionKeyOf(p) == k
    ensures forall p :: p in ps && ProjectionKeyOf(p) == k ==>
              PutProjections(rows, ps)[k] == ProjectionRow(p.at, p.state)
    ensures (forall p :: p in ps ==> ProjectionKeyOf(p) != k) && k in rows ==> PutProjections(rows, ps)[k] == rows[k]
  {
    if ps != [] {
      var n := |ps| - 1;
      LastProjectionIsNew(ps);
      PutProjectionsAt(rows, ps[..n], k);
      assert PutProjections(rows, ps)
          == PutProjections(rows, ps[..n])[ProjectionKeyOf(ps[n]) := ProjectionRow(ps[n].at, ps[n].state)];
      hide ProjectionKeyOf, DistinctProjections, PutProjections;
    }
  }

  lemma LastProjectionIsNew(ps: seq<Projection>)
    requires ps != [] && DistinctProjections(ps)
    ensures var n := |ps| - 1;
            ps == ps[..n] + [ps[n]] && DistinctProjections(ps[..n])
            && forall p :: p in ps[..n] ==> ProjectionKeyOf(p) != ProjectionKeyOf(ps[n])
  {
    var n := |ps| - 1;
    forall p | p in ps[..n] ensures ProjectionKeyOf(p) != ProjectionKeyOf(ps[n]) {
      var i :| 0 <= i < n && ps[i] == p;
    }
  }

  // ---- the invariant --------------------------------------------------------

  /** The rows of `c` are those of its last commit, made at the projection pointer. */
  ghost predicate RowsCommitted(db: Db, commits: map<Contract, Committed>, c: Contract) {
    var pointed := c in db.checkpoints && db.checkpoints[c].projected.Some?;
    && (pointed ==> c in commits && commits[c].at == db.checkpoints[c].projected.value)
    && (forall k: ProjectionKey :: k.contract == c && k in db.projections ==>
          pointed && Puts(commits[c].projections, k, db.projections[k]))
    && (pointed ==> forall p :: p in commits[c].projections ==> p.contract == c && ProjectionKeyOf(p) in db.projections)
  }

  /** Every stored projection row sits on a canonical block, not above the pointer. */
  ghost predicate RowsAnchored(db: Db, c: Contract) {
    forall k: ProjectionKey :: k.contract == c && k in db.projections ==>
      IsCanonical(db, c, db.projections[k].at)
      && c in db.checkpoints && db.checkpoints[c].projected.Some?
      && db.projections[k].at.number <= db.checkpoints[c].projected.value.number
  }

  ghost predicate AllCommitted(w: World) {
    forall c :: RowsCommitted(w.db, w.commits, c) && RowsAnchored(w.db, c)
  }

  // ---- each transaction -----------------------------------------------------

  /** The call moves neither `c`'s projection pointer nor its projection rows. */
  ghost predicate PointerStays(db: Db, db': Db, c: Contract) {
    && db'.projections == db.projections
    && (c in db.checkpoints ==> c in db'.checkpoints && db'.checkpoints[c].projected == db.checkpoints[c].projected)
    && (c !in db.checkpoints && c in db'.checkpoints ==> db'.checkpoints[c].projected.None?)
  }

  lemma StayingKeeps(db: Db, db': Db, commits: map<Contract, Committed>, c: Contract)
    requires RowsCommitted(db, commits, c) && RowsAnchored(db, c)
    requires PointerStays(db, db', c) && ChainGrew(db, db')
    ensures RowsCommitted(db', commits, c) && RowsAnchored(db', c)
  {}

  lemma QuietCallsStay(db: Db, call: Call, c: Contract)
    requires Perform(db, call).Ok? && !call.Rollback? && !call.Commit? && !call.Record?
    ensures PointerStays(db, Perform(db, call).value, c)
  {}

  lemma RecordStays(db: Db, c: Contract, b: Block, es: seq<Event>, target: Option<nat>, token: Option<Token>, d: Contract)
    requires RecordCanonicalBlock(db, c, b, es, target, token).Ok?
    ensures PointerStays(db, RecordCanonicalBlock(db, c, b, es, target, token).value, d)
  {
    var mid := PutBlock(db, c, b, es, Placement(db, c, b, es).value);
    assert PointerStays(db, mid, d);
  }

  lemma RollbackClears(db: Db, c: Contract, n: nat, token: Option<Token>, commits: map<Contract, Committed>, d: Contract)
    requires RollbackFromBlock(db, c, n, token).Ok?
    requires RowsCommitted(db, commits, d) && RowsAnchored(db, d)
    ensures var db' := RollbackFromBlock(db, c, n, token).value;
            RowsCommitted(db', commits, d) && RowsAnchored(db', d)
  {
    var db' := RollbackFromBlock(db, c, n, token).value;
    if d != c {
      assert forall k: ProjectionKey :: k.contract == d ==> (k in db'.projections <==> k in db.projections);
      forall p: Point | IsCanonical(db, d, p) ensures IsCanonical(db', d, p) {}
    }
  }

  lemma CommittedRow(db: Db, c: Contract, p: Point, ps: seq<Projection>, token: Option<Token>, k: ProjectionKey)
    requires CommitProjections(db, c, p, ps, token).Ok? && k.contract == c
    ensures var db' := CommitProjections(db, c, p, ps, token).value;
            (k in db'.projections ==> Puts(ps, k, db'.projections[k]) && IsCanonical(db', c, db'.projections[k].at)
                                      && db'.projections[k].at.number <= p.number)
            && ((exists q :: q in ps && ProjectionKeyOf(q) == k) ==> k in db'.projections)
  {
    FaultFree(db, c, p, ps);
    PutProjectionsAt(DropProjections(db.projections, c), ps, k);
  }

  lemma CommitSets(db: Db, c: Contract, p: Point, ps: seq<Projection>, token: Option<Token>,
                   commits: map<Contract, Committed>)
    requires CommitProjections(db, c, p, ps, token).Ok?
    ensures var db' := CommitProjections(db, c, p, ps, token).value;
            RowsCommitted(db', commits[c := Committed(p, ps)], c) && RowsAnchored(db', c)
  {
    var db' := CommitProjections(db, c, p, ps, token).value;
    FaultFree(db, c, p, ps);
    forall k: ProjectionKey | k.contract == c && k in db'.projections
      ensures Puts(ps, k, db'.projections[k]) && IsCanonical(db', c, db'.projections[k].at)
              && db'.projections[k].at.number <= p.number
    {
      CommittedRow(db, c, p, ps, token, k);
    }
    forall q | q in ps ensures q.contract == c && ProjectionKeyOf(q) in db'.projections {
      CommittedRow(db, c, p, ps, token, ProjectionKeyOf(q));
    }
  }

  lemma CommitLeavesOthers(db: Db, c: Contract, p: Point, ps: seq<Projection>, token: Option<Token>,
                           commits: map<Contract, Committed>, d: Contract)
    requires CommitProjections(db, c, p, ps, token).Ok? && d != c
    requires RowsCommitted(db, commits, d) && RowsAnchored(db, d)
    ensures var db' := CommitProjections(db, c, p, ps, token).value;
            RowsCommitted(db', commits[c := Committed(p, ps)], d) && RowsAnchored(db', d)
  {
    var db' := CommitProjections(db, c, p, ps, token).value;
    FaultFree(db, c, p, ps);
    forall k: ProjectionKey | k.contract == d
      ensures k in db'.projections <==> k in db.projections
      ensures k in db.projections ==> db'.projections[k] == db.projections[k]
    {
      PutProjectionsAt(DropProjections(db.projections, c), ps, k);
    }
  }

  lemma StepKeepsCommitted(w: World, depth: nat, step: Step)
    requires AllCommitted(w)
    ensures AllCommitted(Do(w, depth, step))
  {
    var w' := Do(w, depth, step);
    forall d ensures RowsCommitted(w'.db, w'.commits, d) && RowsAnchored(w'.db, d) {
      assert RowsCommitted(w.db, w.commits, d) && RowsAnchored(w.db, d);
      match step
      case Store(call) =>
        if Perform(w.db, call).Ok? { CallKeepsCommitted(w, call, d); }
      case _ => TrackersOnlySave(w, depth, step);
    }
  }

  lemma CallKeepsCommitted(w: World, call: Call, d: Contract)
    requires Perform(w.db, call).Ok?
    requires RowsCommitted(w.db, w.commits, d) && RowsAnchored(w.db, d)
    ensures RowsCommitted(Stored(w, call).db, Stored(w, call).commits, d) && RowsAnchored(Stored(w, call).db, d)
  {
    match call
    case Commit(c, at, projections, token) =>
      if d == c { CommitSets(w.db, c, at, projections, token, w.commits); }
      else { CommitLeavesOthers(w.db, c, at, projections, token, w.commits, d); }
    case Rollback(c, from, token) =>
      RollbackClears(w.db, c, from, token, w.commits, d);
    case Record(c, block, events, target, token) =>
      RecordStays(w.db, c, block, events, target, token, d);
      CallsGrow(w.db, call);
      StayingKeeps(w.db, Perform(w.db, call).value, w.commits, d);
    case _ =>
      QuietCallsStay(w.db, call, d);
      CallsGrow(w.db, call);
      StayingKeeps(w.db, Perform(w.db, call).value, w.commits, d);
  }

  lemma {:induction false} RunKeepsCommitted(w: World, depth: nat, steps: seq<Step>)
    requires AllCommitted(w)
    ensures AllCommitted(RunSteps(w, depth, steps))
    decreases |steps|
  {
    if steps != [] {
      StepKeepsCommitted(w, depth, steps[0]);
      RunKeepsCommitted(Do(w, depth, steps[0]), depth, steps[1..]);
    }
  }

  /**
   Over every interleaving from an empty store: a row a read returns was put there
   by the contract's last commit, that commit's block is the current checkpoint,
   and the checkpoint is the top of the contract's stack.
   */
  lemma NoStaleReads(depth: nat, steps: seq<Step>, k: ProjectionKey)
    requires var w := RunSteps(START, depth, steps);
             ReadProjection(w.db, k).Found? && ReadProjection(w.db, k).row.Some?
    ensures var w := RunSteps(START, depth, steps);
            var row := ReadProjection(w.db, k).row.value;
            var s := StackOf(w, k.contract);
            && k.contract !in w.db.leases
            && k.contract in w.db.checkpoints && k.contract in w.commits
            && w.commits[k.contract].at == w.db.checkpoints[k.contract].at
            && Puts(w.commits[k.contract].projections, k, row)
            && s.lo < s.hi && s.hi - 1 in s.at
            && w.commits[k.contract].at == Point(s.hi - 1, Top(s).block.hash)
            && row.at.number in s.at && s.at[row.at.number].block.hash == row.at.hash
  {
    forall c ensures Represents(EMPTY, c, NOTHING) { EmptyRepresents(c); }
    RunKeeps(START, depth, steps);
    RunKeepsCommitted(START, depth, steps);
    var w := RunSteps(START, depth, steps);
    assert RowsCommitted(w.db, w.commits, k.contract) && RowsAnchored(w.db, k.contract);
    assert Represents(w.db, k.contract, StackOf(w, k.contract));
  }

  /**
   The converse: once the index is healthy and projected at its checkpoint, every projection of the
   last commit is handed out with the state it was committed with, and nothing else is.
   */
  lemma CommittedIsRead(depth: nat, steps: seq<Step>, k: ProjectionKey)
    requires var db := RunSteps(START, depth, steps).db; var c := k.contract;
             c !in db.leases && c in db.checkpoints && db.checkpoints[c].healthy
             && db.checkpoints[c].projected == Some(db.checkpoints[c].at)
    ensures var w := RunSteps(START, depth, steps); var r := ReadProjection(w.db, k);
            && k.contract in w.commits && r.Found?
            && (r.row.Some? <==> exists p :: p in w.commits[k.contract].projections && ProjectionKeyOf(p) == k)
            && forall p :: p in w.commits[k.contract].projections && ProjectionKeyOf(p) == k ==>
                 r.row.Some? && Puts(w.commits[k.contract].projections, k, r.row.value)
  {
    RunKeepsCommitted(START, depth, steps);
    var w := RunSteps(START, depth, steps);
    assert RowsCommitted(w.db, w.commits, k.contract);
  }

  /** Otherwise a read says why: the index is busy or unhealthy, or its projection is not there yet. */
  lemma UnreadIsExplained(db: Db, k: ProjectionKey)
    ensures var c := k.contract; var r := ReadProjection(db, k);
            && (r.Unhealthy? <==> c in db.leases || (c in db.checkpoints && !db.checkpoints[c].healthy))
            && (r.Pending? <==> c !in db.leases && c in db.checkpoints && db.checkpoints[c].healthy
                                && db.checkpoints[c].projected != Some(db.checkpoints[c].at))
  {}
}
