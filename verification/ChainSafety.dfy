/**
 What every interleaving keeps: the tables of each contract represent the stack
 of its recordings and rollbacks, and no stored operation claims a block that is
 not on the current canonical chain of its target.
 */
module ChainSafety {
  import opened Prelude
  import opened Lifecycle
  import opened ChainTables
  import opened ChainStack
  import opened ChainRuns

  // ---- stored operations ----------------------------------------------------

  /** A canonical operation's block is canonical; a confirmed one is deep enough. */
  ghost predicate Anchored(db: Db, depth: nat, op: Operation) {
    && ValidEvidence(op) && Unchecked(op)
    && (op.canonical ==> IsCanonical(db, ContractOf(op), Point(op.blockNumber.value, op.blockHash.value)))
    && (op.state == Confirmed ==> depth <= op.confirmations)
  }

  ghost predicate AllAnchored(db: Db, depth: nat) {
    forall id :: id in db.operations ==> db.operations[id].id == id && Anchored(db, depth, db.operations[id])
  }

  /** No canonical block row stopped being canonical and no operation changed. */
  ghost predicate ChainGrew(db: Db, db': Db) {
    db'.operations == db.operations
    && forall k :: k in db.blocks && db.blocks[k].canonical ==> k in db'.blocks && db'.blocks[k].canonical
  }

  lemma GrowthKeepsAnchors(db: Db, db': Db, depth: nat)
    requires AllAnchored(db, depth) && ChainGrew(db, db')
    ensures AllAnchored(db', depth)
  {
    forall id | id in db'.operations
      ensures db'.operations[id].id == id && Anchored(db', depth, db'.operations[id])
    {
      var op := db.operations[id];
      assert Anchored(db, depth, op);
    }
  }

  lemma RecordGrows(db: Db, c: Contract, b: Block, es: seq<Event>, target: Option<nat>, token: Option<Token>)
    requires RecordCanonicalBlock(db, c, b, es, target, token).Ok?
    ensures ChainGrew(db, RecordCanonicalBlock(db, c, b, es, target, token).value)
  {
    var replay := Placement(db, c, b, es).value;
    assert ChainGrew(db, PutBlock(db, c, b, es, replay));
  }

  lemma CallsGrow(db: Db, call: Call)
    requires Perform(db, call).Ok? && !call.Rollback?
    ensures ChainGrew(db, Perform(db, call).value)
  {
    match call
    case Record(c, block, events, target, token) => RecordGrows(db, c, block, events, target, token);
    case _ =>
  }

  lemma RollbackAnchors(db: Db, depth: nat, c: Contract, n: nat, top: Option<BlockKey>, id: string)
    requires AllAnchored(db, depth) && id in db.operations
    ensures var db' := Rewound(db, c, n, top);
            db'.operations[id].id == id && Anchored(db', depth, db'.operations[id])
  {
    var op := db.operations[id];
    assert Anchored(db, depth, op);
    RollbackIsTransition(op);
    if Unwinds(op, c, n) {
      ApplyKeepsEvidence(op, ToReorged);
    } else if op.canonical {
      var k := BlockKey(ContractOf(op), op.blockNumber.value, op.blockHash.value);
      assert k in db.blocks && db.blocks[k].canonical;
      assert ContractOf(op) == c ==> op.blockNumber.value < n;
    }
  }

  lemma CallsKeepAnchors(db: Db, depth: nat, call: Call)
    requires AllAnchored(db, depth) && Perform(db, call).Ok?
    ensures AllAnchored(Perform(db, call).value, depth)
  {
    if call.Rollback? {
      var top := TopBelow(db, call.c, call.from);
      forall id | id in db.operations
        ensures var db' := Rewound(db, call.c, call.from, top);
                db'.operations[id].id == id && Anchored(db', depth, db'.operations[id])
      {
        RollbackAnchors(db, depth, call.c, call.from, top, id);
      }
    } else {
      CallsGrow(db, call);
      GrowthKeepsAnchors(db, Perform(db, call).value, depth);
    }
  }

  lemma SavingAnchored(db: Db, depth: nat, op: Operation)
    requires AllAnchored(db, depth) && SaveOperation(db, op).Ok?
    requires Anchored(db, depth, op)
    ensures AllAnchored(SaveOperation(db, op).value, depth)
  {
    var db' := SaveOperation(db, op).value;
    forall id | id in db'.operations
      ensures db'.operations[id].id == id && Anchored(db', depth, db'.operations[id])
    {
      assert id != op.id ==> Anchored(db, depth, db.operations[id]);
    }
  }

  lemma ReportsKeepAnchors(db: Db, depth: nat, r: Report)
    requires AllAnchored(db, depth)
    ensures AllAnchored(Reported(db, r), depth)
  {
    var wanted := Wanted(db, r);
    if wanted.Some? && SaveOperation(db, wanted.value).Ok? {
      WantedIsAnchored(db, depth, r);
      SavingAnchored(db, depth, wanted.value);
    }
  }

  lemma WantedIsAnchored(db: Db, depth: nat, r: Report)
    requires AllAnchored(db, depth) && Wanted(db, r).Some?
    ensures Anchored(db, depth, Wanted(db, r).value)
  {
    match r
    case Submission(id, chainId, owner, target, calldata, tx, at) =>
      ApplyKeepsEvidence(Fresh(id, chainId, owner, target, Some(calldata)), ToSubmitted(tx, at));
    case Replacement(id, newHash) =>
      assert Anchored(db, depth, db.operations[id]);
      ApplyKeepsEvidence(db.operations[id], ToReplaced(Some(newHash)));
    case Drop(id) =>
      assert Anchored(db, depth, db.operations[id]);
      ApplyKeepsEvidence(db.operations[id], ToDropped);
  }

  lemma ReceiptKeepsAnchors(db: Db, depth: nat, t: Tracker, receipt: Option<ReceiptData>)
    requires AllAnchored(db, depth) && t.AwaitReceipt?
    ensures AllAnchored(Receipted(db, t, receipt).0, depth)
  {
    if Receipted(db, t, receipt).0 != db {
      var next := Apply(t.op, Inclusive(receipt.value)).value;
      assert Anchored(db, depth, t.op);
      ApplyKeepsEvidence(t.op, Inclusive(receipt.value));
      assert Anchored(db, depth, next);
      SavingAnchored(db, depth, next);
    }
  }

  lemma VerdictIsAnchored(db: Db, depth: nat, op: Operation, count: int, mismatch: Option<bool>, now: Time)
    requires Anchored(db, depth, op) && Verdict(op, depth, count, mismatch, now).Some?
    requires op.canonical
    ensures Anchored(db, depth, Verdict(op, depth, count, mismatch, now).value)
  {
    if mismatch.Some? {
      ApplyKeepsEvidence(op, ToReconciliationFailed(mismatch.value));
    } else {
      ApplyKeepsEvidence(op, ToConfirming(count, Some(true)));
      if depth <= count {
        ApplyKeepsEvidence(Apply(op, ToConfirming(count, Some(true))).value, ToConfirmed(count, now, true));
      }
    }
  }

  lemma ReconciliationKeepsAnchors(db: Db, depth: nat, t: Tracker, mismatch: Option<bool>, now: Time)
    requires AllAnchored(db, depth) && t.AwaitReconciliation?
    ensures AllAnchored(Reconciled(db, t, depth, mismatch, now), depth)
  {
    var count := t.at.number - t.receipt.number + 1;
    if Reconciled(db, t, depth, mismatch, now) != db {
      assert Anchored(db, depth, t.op);
      RollbackIsTransition(t.op);
      VerdictIsAnchored(db, depth, t.op, count, mismatch, now);
      SavingAnchored(db, depth, Verdict(t.op, depth, count, mismatch, now).value);
    }
  }

  // ---- stacks ---------------------------------------------------------------

  ghost predicate AllStacked(w: World) {
    forall c :: Represents(w.db, c, StackOf(w, c))
  }

  lemma QuietDemands(db: Db, call: Call, d: Contract)
    requires Perform(db, call).Ok? && (call.Claim? || call.MarkUnhealthy? || call.Release?)
    ensures SameChain(db, Perform(db, call).value, d)
  {}

  lemma QuietSettlings(db: Db, call: Call, d: Contract)
    requires Perform(db, call).Ok? && (call.MarkHealthy? || call.Commit?)
    ensures SameChain(db, Perform(db, call).value, d)
  {}

  lemma QuietCalls(db: Db, call: Call, d: Contract)
    requires Perform(db, call).Ok? && !call.Record? && !call.Rollback?
    ensures SameChain(db, Perform(db, call).value, d)
  {
    hide Perform;
    if call.MarkHealthy? || call.Commit? { QuietSettlings(db, call, d); } else { QuietDemands(db, call, d); }
  }

  lemma RecordKeepsStacks(w: World, call: Call, d: Contract)
    requires AllStacked(w) && Perform(w.db, call).Ok? && call.Record?
    ensures Represents(Stored(w, call).db, d, StackOf(Stored(w, call), d))
  {
    hide Represents, RecordCanonicalBlock, Placement, Recorded;
    assert Represents(w.db, call.c, StackOf(w, call.c)) && Represents(w.db, d, StackOf(w, d));
    if d == call.c {
      RecordIsPush(w.db, d, StackOf(w, d), call.block, call.events, call.target, call.token);
    } else {
      RecordLeavesOthers(w.db, call.c, StackOf(w, call.c), call.block, call.events, call.target, call.token,
                         d, StackOf(w, d));
    }
  }

  lemma RollbackKeepsStacks(w: World, call: Call, d: Contract)
    requires AllStacked(w) && Perform(w.db, call).Ok? && call.Rollback?
    ensures Represents(Stored(w, call).db, d, StackOf(Stored(w, call), d))
  {
    assert Represents(w.db, d, StackOf(w, d));
    if d == call.c {
      RollbackIsTruncation(w.db, d, StackOf(w, d), call.from, call.token);
    } else {
      RollbackLeavesOthers(w.db, call.c, call.from, call.token, d, StackOf(w, d));
    }
  }

  lemma CallsKeepStacks(w: World, call: Call)
    requires AllStacked(w)
    ensures AllStacked(Stored(w, call))
  {
    if Perform(w.db, call).Ok? {
      var w' := Stored(w, call);
      forall d ensures Represents(w'.db, d, StackOf(w', d)) {
        assert Represents(w.db, d, StackOf(w, d));
        if call.Record? {
          RecordKeepsStacks(w, call, d);
        } else if call.Rollback? {
          RollbackKeepsStacks(w, call, d);
        } else {
          QuietCalls(w.db, call, d);
          SameChainRepresents(w.db, w'.db, d, StackOf(w, d));
        }
      }
    }
  }

  /** Trackers and wallet reports write nothing but operations. */
  ghost predicate OnlyOperations(db: Db, db': Db) {
    db' == db.(operations := db'.operations)
  }

  lemma SaveOnlySaves(db: Db, op: Operation, expected: Operation, at: Point)
    ensures var saved := SaveOperationAtCheckpoint(db, op, expected, at);
            saved.Ok? ==> OnlyOperations(db, saved.value)
  {
    hide ValidEvidence, Represents;
  }

  lemma ReceiptOnlySaves(db: Db, t: Tracker, receipt: Option<ReceiptData>)
    requires t.AwaitReceipt?
    ensures OnlyOperations(db, Receipted(db, t, receipt).0)
  {
    if receipt.Some? && Apply(t.op, Inclusive(receipt.value)).Ok? {
      SaveOnlySaves(db, Apply(t.op, Inclusive(receipt.value)).value, t.op, t.at);
    }
    hide Apply, SaveOperationAtCheckpoint, CanonicalAt, ReceiptMatches, Inclusive;
  }

  lemma ReconciliationOnlySaves(db: Db, t: Tracker, depth: nat, mismatch: Option<bool>, now: Time)
    requires t.AwaitReconciliation?
    ensures OnlyOperations(db, Reconciled(db, t, depth, mismatch, now))
  {
    hide Verdict, SaveOperationAtCheckpoint;
    var next := Verdict(t.op, depth, t.at.number - t.receipt.number + 1, mismatch, now);
    if next.Some? { SaveOnlySaves(db, next.value, t.op, t.at); }
  }

  lemma TrackersOnlySave(w: World, depth: nat, step: Step)
    requires !step.Store?
    ensures OnlyOperations(w.db, Do(w, depth, step).db)
    ensures Do(w, depth, step).stacks == w.stacks && Do(w, depth, step).commits == w.commits
  {
    hide Receipted, Reconciled, Apply, ValidEvidence, SaveOperationAtCheckpoint;
    match step
    case Receive(pid, receipt) =>
      if pid in w.trackers && w.trackers[pid].AwaitReceipt? { ReceiptOnlySaves(w.db, w.trackers[pid], receipt); }
    case Reconcile(pid, mismatch, now) =>
      if pid in w.trackers && w.trackers[pid].AwaitReconciliation? {
        ReconciliationOnlySaves(w.db, w.trackers[pid], depth, mismatch, now);
      }
    case _ =>
  }

  lemma StepKeepsStacks(w: World, depth: nat, step: Step)
    requires AllStacked(w)
    ensures AllStacked(Do(w, depth, step))
  {
    match step
    case Store(call) => CallsKeepStacks(w, call);
    case _ =>
      TrackersOnlySave(w, depth, step);
      var w' := Do(w, depth, step);
      forall d ensures Represents(w'.db, d, StackOf(w', d)) {
        assert Represents(w.db, d, StackOf(w, d));
        SameChainRepresents(w.db, w'.db, d, StackOf(w, d));
      }
  }

  lemma StepKeepsAnchors(w: World, depth: nat, step: Step)
    requires AllAnchored(w.db, depth)
    ensures AllAnchored(Do(w, depth, step).db, depth)
  {
    match step
    case Store(call) =>
      if Perform(w.db, call).Ok? { CallsKeepAnchors(w.db, depth, call); }
    case Wallet(report) => ReportsKeepAnchors(w.db, depth, report);
    case Track(pid, c, id) =>
    case Synced(pid, latest) =>
    case Receive(pid, receipt) =>
      if pid in w.trackers && w.trackers[pid].AwaitReceipt? {
        ReceiptKeepsAnchors(w.db, depth, w.trackers[pid], receipt);
      }
    case Reconcile(pid, mismatch, now) =>
      if pid in w.trackers && w.trackers[pid].AwaitReconciliation? {
        ReconciliationKeepsAnchors(w.db, depth, w.trackers[pid], mismatch, now);
      }
  }

  lemma {:induction false} RunKeeps(w: World, depth: nat, steps: seq<Step>)
    requires AllStacked(w) && AllAnchored(w.db, depth)
    ensures AllStacked(RunSteps(w, depth, steps)) && AllAnchored(RunSteps(w, depth, steps).db, depth)
    decreases |steps|
  {
    if steps != [] {
      StepKeepsStacks(w, depth, steps[0]);
      StepKeepsAnchors(w, depth, steps[0]);
      RunKeeps(Do(w, depth, steps[0]), depth, steps[1..]);
    }
  }

  /**
   Over every interleaving from an empty store: an operation flagged canonical
   passes the evidence check and its (number, hash) is the entry of its target's
   stack at that height; a confirmed one has the required confirmations.
   */
  lemma CanonicalOperationsAreOnChain(depth: nat, steps: seq<Step>, id: string)
    requires id in RunSteps(START, depth, steps).db.operations
    ensures var w := RunSteps(START, depth, steps);
            var op := w.db.operations[id];
            ValidEvidence(op)
            && (op.canonical ==>
                  op.blockNumber.value in StackOf(w, ContractOf(op)).at
                  && StackOf(w, ContractOf(op)).at[op.blockNumber.value].block.hash == op.blockHash.value)
            && (op.state == Confirmed ==> op.canonical && op.reconciled && depth <= op.confirmations)
  {
    forall c ensures Represents(EMPTY, c, NOTHING) { EmptyRepresents(c); }
    RunKeeps(START, depth, steps);
    var w := RunSteps(START, depth, steps);
    var op := w.db.operations[id];
    assert Anchored(w.db, depth, op);
    assert Represents(w.db, ContractOf(op), StackOf(w, ContractOf(op)));
  }

  /** Over every interleaving the tables stay the stack of the recordings and rollbacks. */
  lemma TablesAreStacks(depth: nat, steps: seq<Step>, c: Contract)
    ensures Represents(RunSteps(START, depth, steps).db, c, StackOf(RunSteps(START, depth, steps), c))
  {
    forall c ensures Represents(EMPTY, c, NOTHING) { EmptyRepresents(c); }
    RunKeeps(START, depth, steps);
  }
}
