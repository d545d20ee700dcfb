/**
 The readiness verdict is never wrong: over every interleaving an operation is
 reported ready exactly when it is confirmed, the index is healthy and projected,
 and a short enough hash-linked path leads from its block through the
 projection's block to the checkpoint.
 */
module ChainEvidence {
  import opened Prelude
  import opened Lifecycle
  import opened ChainTables
  import opened ChainStack
  import opened ChainRuns
  import opened ChainSafety
  import opened ChainReads
  import C = ChainStore

  lemma LinksOnStack(db: Db, c: Contract, s: Stack, m: nat, n: nat)
    requires Represents(db, c, s) && m in s.at && n in s.at && n == m + 1
    ensures C.Links(db, c, m, n)
  {
    var k, l := BlockKey(c, m, s.at[m].block.hash), BlockKey(c, n, s.at[n].block.hash);
    assert CanonicalKey(db, c, m, k) && CanonicalKey(db, c, n, l);
    assert s.at[n].block.parent == s.at[m].block.hash;
    assert db.blocks[l] == RowOf(s.at[n]);
  }

  /** Canonical blocks in height order always lie on one linked path. */
  lemma CanonicalBlocksDescend(db: Db, c: Contract, s: Stack, from: Point, via: Point, to: Point)
    requires Represents(db, c, s) && from.number <= via.number <= to.number
    requires IsCanonical(db, c, from) && IsCanonical(db, c, via) && IsCanonical(db, c, to)
    ensures C.Descends(db, c, from, via, to)
  {
    assert from.number in s.at && to.number in s.at;
    forall n | from.number <= n <= to.number ensures CanonicalAt(db, c, n).Some? {
      CanonicalAtIs(db, c, s, n);
    }
    forall m, n | from.number <= m < n <= to.number && n == m + 1 ensures C.Links(db, c, m, n) {
      LinksOnStack(db, c, s, m, n);
    }
  }

  /** Ready to use: what a caller can check before asking. */
  predicate Deserves(db: Db, op: Operation, key: string) {
    var c := ContractOf(op);
    && op.state.Confirmed?
    && c !in db.leases && c in db.checkpoints && db.checkpoints[c].healthy
    && db.checkpoints[c].projected == Some(db.checkpoints[c].at)
    && ProjectionKey(c, op.owner, key) in db.projections
    && op.blockNumber.Some?
    && op.blockNumber.value <= db.projections[ProjectionKey(c, op.owner, key)].at.number
    && db.checkpoints[c].at.number - op.blockNumber.value + 1 <= C.MAX_ANCESTRY
  }

  /** A ready verdict always comes with the linked path. */
  lemma ReadyHasPath(db: Db, id: string, key: string)
    requires var r := C.EvidenceOf(db, id, key);
             r.Ok? && r.value.Some? && r.value.value.productReady
    ensures id in db.operations
            && var op := db.operations[id];
               var c := ContractOf(op);
               Deserves(db, op, key) && op.canonical && op.reconciled && op.blockHash.Some?
               && 0 <= op.blockNumber.value
               && C.Descends(db, c, Point(op.blockNumber.value, op.blockHash.value),
                             db.projections[ProjectionKey(c, op.owner, key)].at, db.checkpoints[c].at)
  {}

  lemma DeservingIsReady(w: World, depth: nat, id: string, key: string)
    requires AllAnchored(w.db, depth) && AllStacked(w) && AllCommitted(w)
    requires id in w.db.operations && Deserves(w.db, w.db.operations[id], key)
    ensures var r := C.EvidenceOf(w.db, id, key);
            r.Ok? && r.value.Some? && r.value.value.productReady
  {
    var op := w.db.operations[id];
    var c := ContractOf(op);
    var row := w.db.projections[ProjectionKey(c, op.owner, key)];
    var s := StackOf(w, c);
    assert Anchored(w.db, depth, op);
    assert Represents(w.db, c, s);
    assert RowsAnchored(w.db, c);
    var from := Point(op.blockNumber.value, op.blockHash.value);
    assert IsCanonical(w.db, c, w.db.checkpoints[c].at);
    CanonicalBlocksDescend(w.db, c, s, from, row.at, w.db.checkpoints[c].at);
    assert C.Ancestry(w.db, op, row, w.db.checkpoints[c].at);
  }

  /** Over every interleaving from an empty store the verdict is exact. */
  lemma ReadinessIsExact(depth: nat, steps: seq<Step>, id: string, key: string)
    requires id in RunSteps(START, depth, steps).db.operations
    ensures var w := RunSteps(START, depth, steps);
            var r := C.EvidenceOf(w.db, id, key);
            (r.Ok? && r.value.Some? && r.value.value.productReady) <==> Deserves(w.db, w.db.operations[id], key)
  {
    forall c ensures Represents(EMPTY, c, NOTHING) { EmptyRepresents(c); }
    RunKeeps(START, depth, steps);
    RunKeepsCommitted(START, depth, steps);
    var w := RunSteps(START, depth, steps);
    var r := C.EvidenceOf(w.db, id, key);
    if r.Ok? && r.value.Some? && r.value.value.productReady {
      ReadyHasPath(w.db, id, key);
    }
    if Deserves(w.db, w.db.operations[id], key) {
      DeservingIsReady(w, depth, id, key);
    }
  }

  // ---- every field of the answer --------------------------------------------

  /** A checkpoint is healthy or says why not, and has a target exactly while it is incomplete. */
  predicate HealthTold(db: Db) {
    forall c :: c in db.checkpoints ==> RowTold(db.checkpoints[c])
  }

  predicate RowTold(row: CheckpointRow) {
    (row.healthy <==> row.error.None?) && (row.target.Some? <==> row.error == Some(Incomplete))
  }

  lemma RecordKeepsHealth(db: Db, call: Call)
    requires HealthTold(db) && Perform(db, call).Ok? && call.Record?
    ensures HealthTold(Perform(db, call).value)
  {
    hide Placement, Agrees, ValidEvent, DistinctKeys, PutEvents, BadInput;
  }

  lemma CallKeepsHealth(db: Db, call: Call)
    requires HealthTold(db) && Perform(db, call).Ok?
    ensures HealthTold(Perform(db, call).value)
  {
    hide RecordCanonicalBlock, RollbackFromBlock, FirstFault;
    if call.Record? { RecordKeepsHealth(db, call); }
    if call.Rollback? { RollbackKeepsHealth(db, call); }
  }

  lemma RollbackKeepsHealth(db: Db, call: Call)
    requires HealthTold(db) && Perform(db, call).Ok? && call.Rollback?
    ensures HealthTold(Perform(db, call).value)
  {
    hide TopBelow, TombBlocks, TombEvents, TombOperations, DropProjections;
  }

  lemma {:induction false} RunKeepsHealth(w: World, depth: nat, steps: seq<Step>)
    requires HealthTold(w.db)
    ensures HealthTold(RunSteps(w, depth, steps).db)
    decreases |steps|
  {
    hide HealthTold, Perform, Reported, Receipted, Reconciled;
    if steps != [] {
      if steps[0].Store? {
        if Perform(w.db, steps[0].call).Ok? { CallKeepsHealth(w.db, steps[0].call); }
      } else {
        TrackersOnlySave(w, depth, steps[0]);
        SavingKeepsHealth(w.db, Do(w, depth, steps[0]).db);
      }
      RunKeepsHealth(Do(w, depth, steps[0]), depth, steps[1..]);
    }
  }

  lemma SavingKeepsHealth(db: Db, db': Db)
    requires HealthTold(db) && OnlyOperations(db, db')
    ensures HealthTold(db')
  {}

  /** What the chain says about an operation, from what it carries rather than from the name of its state. */
  predicate ChainStatusTold(op: Operation, status: C.ChainStatus) {
    && (status == C.StatusPending <==> op.error.None? && op.receipt.None?)
    && (status == C.Included <==> op.error.None? && op.receipt == Some(Success) && op.confirmedAt.None?)
    && (status == C.SoftReady <==> op.confirmedAt.Some?)
    && (status == C.StatusReorged <==> op.error == Some(ChainReorg))
    && (status == C.StatusFailed <==> op.error.Some? && op.error != Some(ChainReorg))
  }

  predicate ReconciliationTold(op: Operation, r: C.Reconciliation) {
    && (r == C.Failed <==> op.error in {Some(EventEvidenceMismatch), Some(ContractStateMismatch)})
    && (r == C.Matched <==> op.reconciled)
  }

  /** The index: given up, complete, or under way. */
  predicate IndexerTold(db: Db, c: Contract, indexer: C.IndexerStatus, reason: Option<SyncError>) {
    && (indexer == C.Degraded <==> reason.Some?)
    && (indexer == C.Degraded ==>
          c !in db.leases && c in db.checkpoints && db.checkpoints[c].error == reason && reason != Some(Incomplete))
    && (indexer == C.Healthy <==> c !in db.leases && c in db.checkpoints && db.checkpoints[c].error.None?)
    && (indexer == C.Syncing <==>
          c in db.leases || c !in db.checkpoints || db.checkpoints[c].error == Some(Incomplete))
  }

  /** The stored projection is at or above the operation's block and close enough to the checkpoint. */
  predicate Spans(db: Db, op: Operation, row: ProjectionRow)
    requires ContractOf(op) in db.checkpoints
  {
    && op.canonical && op.blockNumber.Some? && op.blockNumber.value <= row.at.number
    && db.checkpoints[ContractOf(op)].at.number - op.blockNumber.value + 1 <= C.MAX_ANCESTRY
  }

  /** The projection is ready on a path of the present chain, stale off it, and pending while there is none to judge. */
  predicate ProjectionTold(db: Db, op: Operation, key: string, indexer: C.IndexerStatus, milestone: C.Milestone)
    requires indexer == C.Healthy ==> ContractOf(op) in db.checkpoints
  {
    var k := ProjectionKey(ContractOf(op), op.owner, key);
    var judged := op.error != Some(ChainReorg) && indexer == C.Healthy && k in db.projections;
    && (milestone == C.Ready <==> judged && Spans(db, op, db.projections[k]))
    && (milestone == C.Stale <==>
          op.error == Some(ChainReorg) || indexer == C.Degraded || (judged && !Spans(db, op, db.projections[k])))
  }

  lemma StatesAreTold(op: Operation)
    requires ValidEvidence(op)
    ensures ChainStatusTold(op, C.ChainStatusOf(op.state)) && ReconciliationTold(op, C.ReconciliationOf(op))
  {}

  lemma IndexerIsTold(db: Db, c: Contract)
    requires HealthTold(db)
    ensures var error := C.HealthError(db, c);
            IndexerTold(db, c, C.IndexerOf(db, c), if error == Some(Incomplete) then None else error)
  {
    if c in db.checkpoints { assert RowTold(db.checkpoints[c]); }
  }

  lemma PathIsSpan(w: World, depth: nat, op: Operation, key: string)
    requires AllAnchored(w.db, depth) && AllStacked(w) && AllCommitted(w)
    requires op.id in w.db.operations && w.db.operations[op.id] == op
    requires var c := ContractOf(op);
             c in w.db.checkpoints && ProjectionKey(c, op.owner, key) in w.db.projections
             && w.db.checkpoints[c].projected == Some(w.db.checkpoints[c].at)
    ensures var c := ContractOf(op);
            var row := w.db.projections[ProjectionKey(c, op.owner, key)];
            C.Ancestry(w.db, op, row, w.db.checkpoints[c].at) <==> Spans(w.db, op, row)
  {
    var c := ContractOf(op);
    var row := w.db.projections[ProjectionKey(c, op.owner, key)];
    if Spans(w.db, op, row) {
      assert Anchored(w.db, depth, op);
      assert Represents(w.db, c, StackOf(w, c));
      assert RowsAnchored(w.db, c);
      assert IsCanonical(w.db, c, w.db.checkpoints[c].at);
      CanonicalBlocksDescend(w.db, c, StackOf(w, c), Point(op.blockNumber.value, op.blockHash.value), row.at,
                             w.db.checkpoints[c].at);
    }
  }

  /**
   Every field of the answer, over every interleaving: the receipt is called canonical exactly when the
   operation's block is on its target's stack, the chain status and the reconciliation follow from what
   the operation carries, the indexer from lease and checkpoint, and the projection from the present chain.
   */
  lemma EvidenceIsTold(depth: nat, steps: seq<Step>, id: string, key: string)
    requires id in RunSteps(START, depth, steps).db.operations
    ensures var w := RunSteps(START, depth, steps);
            var r := C.EvidenceOf(w.db, id, key);
            r.Ok? ==> r.value.Some? && AnswerTold(w, w.db.operations[id], key, r.value.value)
  {
    forall c ensures Represents(EMPTY, c, NOTHING) { EmptyRepresents(c); }
    RunKeeps(START, depth, steps);
    RunKeepsCommitted(START, depth, steps);
    RunKeepsHealth(START, depth, steps);
    AnswerIsTold(RunSteps(START, depth, steps), depth, id, key);
  }

  /** The operation's block is on the current stack of its target. */
  predicate Standing(w: World, op: Operation) {
    var s := StackOf(w, ContractOf(op));
    && op.blockNumber.Some? && op.blockHash.Some? && op.blockNumber.value in s.at
    && s.at[op.blockNumber.value].block.hash == op.blockHash.value
  }

  ghost predicate AnswerTold(w: World, op: Operation, key: string, v: C.Evidence) {
    var c := ContractOf(op);
    && v.lifecycle == op.state && v.receipt == op.receipt && v.confirmations == op.confirmations
    && (v.receiptCanonical <==> op.receipt.Some? && op.canonical)
    && (v.receiptCanonical ==> Standing(w, op))
    && ChainStatusTold(op, v.chainStatus) && ReconciliationTold(op, v.reconciliation)
    && IndexerTold(w.db, c, v.indexer, v.degradedReason)
    && ProjectionTold(w.db, op, key, v.indexer, v.projection)
  }

  lemma AnswerIsTold(w: World, depth: nat, id: string, key: string)
    requires AllAnchored(w.db, depth) && AllStacked(w) && AllCommitted(w) && HealthTold(w.db) && id in w.db.operations
    ensures var r := C.EvidenceOf(w.db, id, key);
            r.Ok? ==> r.value.Some? && AnswerTold(w, w.db.operations[id], key, r.value.value)
  {
    hide AllAnchored, AllStacked, AllCommitted, HealthTold, Anchored, ChainStatusTold, ReconciliationTold,
      IndexerTold, ProjectionTold, Standing, ValidEvidence, C.MilestoneOf, C.IndexerOf, C.HealthError;
    var op := w.db.operations[id];
    StoredIsAnchored(w, depth, id);
    OnStack(w, depth, op);
    StatesAreTold(op);
    IndexerIsTold(w.db, ContractOf(op));
    MilestoneIsTold(w, depth, op, key);
  }

  lemma OnStack(w: World, depth: nat, op: Operation)
    requires AllStacked(w) && Anchored(w.db, depth, op)
    ensures op.canonical ==> Standing(w, op)
  {
    assert Represents(w.db, ContractOf(op), StackOf(w, ContractOf(op)));
  }

  lemma StoredIsAnchored(w: World, depth: nat, id: string)
    requires AllAnchored(w.db, depth) && id in w.db.operations
    ensures Anchored(w.db, depth, w.db.operations[id]) && ValidEvidence(w.db.operations[id])
    ensures w.db.operations[id].id == id
  {}

  lemma MilestoneIsTold(w: World, depth: nat, op: Operation, key: string)
    requires AllAnchored(w.db, depth) && AllStacked(w) && AllCommitted(w) && HealthTold(w.db)
    requires op.id in w.db.operations && w.db.operations[op.id] == op && ValidEvidence(op)
    ensures var r := C.EvidenceOf(w.db, op.id, key);
            r.Ok? ==> r.value.Some? && r.value.value.indexer == C.IndexerOf(w.db, ContractOf(op))
                      && (r.value.value.indexer == C.Healthy ==> ContractOf(op) in w.db.checkpoints)
                      && ProjectionTold(w.db, op, key, r.value.value.indexer, r.value.value.projection)
    ensures var c := ContractOf(op);
            C.EvidenceOf(w.db, op.id, key).Err? <==>
              op.error != Some(ChainReorg) && C.IndexerOf(w.db, c) == C.Healthy
              && w.db.checkpoints[c].projected != Some(w.db.checkpoints[c].at)
  {
    hide AllAnchored, AllStacked, AllCommitted, HealthTold, C.Ancestry, Spans, ValidEvidence;
    var c := ContractOf(op);
    ReorgedIsTold(op);
    if c in w.db.checkpoints && ProjectionKey(c, op.owner, key) in w.db.projections
       && w.db.checkpoints[c].projected == Some(w.db.checkpoints[c].at)
    {
      PathIsSpan(w, depth, op, key);
    }
  }

  lemma ReorgedIsTold(op: Operation)
    requires ValidEvidence(op)
    ensures op.state.Reorged? <==> op.error == Some(ChainReorg)
  {}
}
