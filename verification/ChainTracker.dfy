/**
 What tracking an operation stores: which state a receipt and a reconciliation
 lead to, from any state of the store that an interleaving can reach.
 */
module ChainTracker {
  import opened Prelude
  import opened Lifecycle
  import opened ChainTables
  import opened ChainStack
  import opened ChainRuns
  import opened ChainSafety
  import T = ChainRuntime

  ghost predicate HeightsSafe(db: Db) { forall k :: k in db.blocks ==> IsSafeInteger(k.number) }

  predicate RowsSafe(db: Db) {
    forall id :: id in db.operations && db.operations[id].blockNumber.Some? ==>
      IsSafeInteger(db.operations[id].blockNumber.value)
  }

  /** What every interleaving keeps. */
  ghost predicate Sound(w: World, depth: nat) {
    AllStacked(w) && AllAnchored(w.db, depth) && HeightsSafe(w.db) && RowsSafe(w.db)
  }

  lemma SaveKeepsRows(db: Db, op: Operation)
    requires RowsSafe(db) && SaveOperation(db, op).Ok?
    ensures RowsSafe(SaveOperation(db, op).value)
  {
    hide ValidEvidence, ValidOperationId, BindingTaken;
  }

  lemma SettledSaveKeepsRows(db: Db, op: Operation, expected: Operation, at: Point)
    requires RowsSafe(db) && SaveOperationAtCheckpoint(db, op, expected, at).Ok?
    ensures RowsSafe(SaveOperationAtCheckpoint(db, op, expected, at).value)
  {
    hide ValidEvidence, SaveOperation, RowsSafe;
    SaveKeepsRows(db, op);
  }

  lemma ReceiptKeepsRows(db: Db, t: Tracker, receipt: Option<ReceiptData>)
    requires RowsSafe(db) && t.AwaitReceipt?
    ensures RowsSafe(Receipted(db, t, receipt).0)
  {
    hide RowsSafe, Apply, SaveOperationAtCheckpoint, CanonicalAt, ReceiptMatches, Inclusive;
    if receipt.Some? && Apply(t.op, Inclusive(receipt.value)).Ok? {
      var next := Apply(t.op, Inclusive(receipt.value)).value;
      if SaveOperationAtCheckpoint(db, next, t.op, t.at).Ok? { SettledSaveKeepsRows(db, next, t.op, t.at); }
    }
  }

  lemma ReconciliationKeepsRows(db: Db, t: Tracker, depth: nat, mismatch: Option<bool>, now: Time)
    requires RowsSafe(db) && t.AwaitReconciliation?
    ensures RowsSafe(Reconciled(db, t, depth, mismatch, now))
  {
    hide RowsSafe, Verdict, SaveOperationAtCheckpoint;
    var next := Verdict(t.op, depth, t.at.number - t.receipt.number + 1, mismatch, now);
    if next.Some? && SaveOperationAtCheckpoint(db, next.value, t.op, t.at).Ok? {
      SettledSaveKeepsRows(db, next.value, t.op, t.at);
    }
  }

  lemma ReportKeepsRows(db: Db, r: Report)
    requires RowsSafe(db)
    ensures RowsSafe(Reported(db, r))
  {
    hide RowsSafe, Wanted, SaveOperation;
    var wanted := Wanted(db, r);
    if wanted.Some? && SaveOperation(db, wanted.value).Ok? { SaveKeepsRows(db, wanted.value); }
  }

  lemma CallKeepsRows(db: Db, call: Call)
    requires RowsSafe(db) && Perform(db, call).Ok?
    ensures RowsSafe(Perform(db, call).value)
  {
    hide FirstFault, Placement, Agrees, ValidEvent, DistinctKeys, TombEvents, TombBlocks, DropProjections,
      PutProjections;
  }

  lemma StepKeepsRows(w: World, depth: nat, step: Step)
    requires RowsSafe(w.db)
    ensures RowsSafe(Do(w, depth, step).db)
  {
    hide RowsSafe, Perform, Reported, Receipted, Reconciled;
    match step
    case Store(call) => if Perform(w.db, call).Ok? { CallKeepsRows(w.db, call); }
    case Wallet(report) => ReportKeepsRows(w.db, report);
    case Track(pid, c, id) =>
    case Synced(pid, latest) =>
    case Receive(pid, receipt) =>
      if pid in w.trackers && w.trackers[pid].AwaitReceipt? { ReceiptKeepsRows(w.db, w.trackers[pid], receipt); }
    case Reconcile(pid, mismatch, now) =>
      if pid in w.trackers && w.trackers[pid].AwaitReconciliation? {
        ReconciliationKeepsRows(w.db, w.trackers[pid], depth, mismatch, now);
      }
  }

  lemma RecordKeepsHeights(db: Db, call: Call)
    requires HeightsSafe(db) && Perform(db, call).Ok?
    ensures HeightsSafe(Perform(db, call).value)
  {
    hide FirstFault, Placement, Agrees, ValidEvent, DistinctKeys, TombEvents, DropProjections, PutProjections;
  }

  lemma StepKeepsHeights(w: World, depth: nat, step: Step)
    requires HeightsSafe(w.db)
    ensures HeightsSafe(Do(w, depth, step).db)
  {
    hide Perform, Reported, Receipted, Reconciled;
    if step.Store? {
      if Perform(w.db, step.call).Ok? { RecordKeepsHeights(w.db, step.call); }
    } else {
      TrackersOnlySave(w, depth, step);
    }
  }

  lemma StepKeepsSound(w: World, depth: nat, step: Step)
    requires Sound(w, depth)
    ensures Sound(Do(w, depth, step), depth)
  {
    hide AllStacked, AllAnchored, HeightsSafe, RowsSafe, Do;
    StepKeepsRows(w, depth, step);
    StepKeepsStacks(w, depth, step);
    StepKeepsAnchors(w, depth, step);
    StepKeepsHeights(w, depth, step);
  }

  lemma {:induction false} RunKeepsSound(w: World, depth: nat, steps: seq<Step>)
    requires Sound(w, depth)
    ensures Sound(RunSteps(w, depth, steps), depth)
    decreases |steps|
  {
    hide Sound, Do;
    if steps != [] {
      StepKeepsSound(w, depth, steps[0]);
      RunKeepsSound(Do(w, depth, steps[0]), depth, steps[1..]);
    }
  }

  lemma StartIsSound(depth: nat)
    ensures Sound(START, depth)
  {
    forall c ensures Represents(EMPTY, c, NOTHING) { EmptyRepresents(c); }
  }

  /** Whatever ran before, the laws below apply. */
  lemma ReachedIsSound(depth: nat, steps: seq<Step>)
    ensures Sound(RunSteps(START, depth, steps), depth)
  {
    StartIsSound(depth);
    RunKeepsSound(START, depth, steps);
  }

  // ---- what a receipt decides -----------------------------------------------

  /** The stored row is still the one the tracker read, and the index still settled where it was. */
  predicate Current(db: Db, op: Operation, at: Point) {
    && op.id in db.operations && db.operations[op.id] == op
    && ContractOf(op) !in db.leases && SettledAt(db, ContractOf(op), at)
  }

  /** The receipt is the transaction's, between the operation's parties, in a canonical block. */
  predicate Shown(db: Db, op: Operation, tx: Hash, r: ReceiptData) {
    && r.tx == tx && r.sender == op.owner && r.to == Some(op.target)
    && IsCanonical(db, ContractOf(op), Point(r.number, r.hash))
  }

  /** The operation in the receipt's block, as the receipt's status says. */
  function InBlockOf(op: Operation, r: ReceiptData): Operation {
    op.(state := (match r.status case Success => Mined case Revert => Reverted),
        error := (match r.status case Success => None case Revert => Some(TransactionReverted)),
        blockNumber := Some(r.number), blockHash := Some(r.hash), transactionIndex := Some(r.index),
        receipt := Some(r.status), confirmations := 0, canonical := true, reconciled := false, confirmedAt := None)
  }

  /** The receipt is recorded. */
  predicate Lands(db: Db, t: Tracker, r: ReceiptData)
    requires t.AwaitReceipt?
  {
    && t.op.state in {Submitted, Reorged} && Shown(db, t.op, t.tx, r) && Current(db, t.op, t.at)
    && 0 <= r.index && IsSafeInteger(r.index)
  }

  /** What is left to reconcile after a receipt. */
  function Reconcilable(db: Db, t: Tracker, r: ReceiptData): Option<Operation>
    requires t.AwaitReceipt?
  {
    if r.status.Revert? || !Shown(db, t.op, t.tx, r) then None
    else if Lands(db, t, r) then Some(InBlockOf(t.op, r))
    else if t.op.state in {Mined, Confirming, ReconciliationFailed} then Some(t.op)
    else None
  }

  lemma ShownIsFound(w: World, depth: nat, op: Operation, r: ReceiptData)
    requires Sound(w, depth)
    ensures var here := CanonicalAt(w.db, ContractOf(op), r.number);
            IsCanonical(w.db, ContractOf(op), Point(r.number, r.hash)) <==> here.Some? && here.value.hash == r.hash
    ensures IsCanonical(w.db, ContractOf(op), Point(r.number, r.hash)) ==> IsSafeInteger(r.number)
  {
    var c := ContractOf(op);
    assert Represents(w.db, c, StackOf(w, c));
    CanonicalAtIs(w.db, c, StackOf(w, c), r.number);
  }

  /** The row that a receipt makes of a stored operation is accepted. */
  lemma LandingIsSaved(db: Db, depth: nat, op: Operation, at: Point, r: ReceiptData)
    requires AllAnchored(db, depth) && Current(db, op, at) && op.state in {Submitted, Reorged}
    requires 0 <= r.index && IsSafeInteger(r.index) && IsSafeInteger(r.number)
    ensures Apply(op, Inclusive(r)) == Ok(InBlockOf(op, r))
    ensures SaveOperationAtCheckpoint(db, InBlockOf(op, r), op, at)
            == Ok(db.(operations := db.operations[op.id := InBlockOf(op, r)]))
  {
    assert Anchored(db, depth, op);
    ApplyKeepsEvidence(op, Inclusive(r));
  }

  lemma OthersAreRefused(db: Db, op: Operation, expected: Operation, at: Point)
    requires SameIdentity(op, expected) && !Current(db, expected, at)
    ensures SaveOperationAtCheckpoint(db, op, expected, at).Err?
  {
    hide ValidEvidence, SaveOperation;
  }

  lemma InclusionKeepsIdentity(op: Operation, r: ReceiptData)
    ensures Apply(op, Inclusive(r)).Ok? ==> SameIdentity(Apply(op, Inclusive(r)).value, op) && ValidIndex(Some(r.index))
  {}

  lemma ReceiptedIs(w: World, depth: nat, t: Tracker, r: ReceiptData)
    requires Sound(w, depth) && t.AwaitReceipt?
    ensures Receipted(w.db, t, Some(r)).0
            == if Lands(w.db, t, r) then w.db.(operations := w.db.operations[t.op.id := InBlockOf(t.op, r)]) else w.db
    ensures Receipted(w.db, t, Some(r)).1
            == match Reconcilable(w.db, t, r)
               case Some(op) => Some(AwaitReconciliation(op, t.at, r))
               case None => None
  {
    hide Sound, SaveOperationAtCheckpoint, Apply, Inclusive, IsCanonical, CanonicalAt, Current, InBlockOf;
    ShownIsFound(w, depth, t.op, r);
    InclusionKeepsIdentity(t.op, r);
    if Lands(w.db, t, r) {
      AnchorsOf(w, depth);
      LandingIsSaved(w.db, depth, t.op, t.at, r);
    } else if Apply(t.op, Inclusive(r)).Ok? && !Current(w.db, t.op, t.at) {
      OthersAreRefused(w.db, Apply(t.op, Inclusive(r)).value, t.op, t.at);
    }
  }

  lemma AnchorsOf(w: World, depth: nat)
    requires Sound(w, depth)
    ensures AllAnchored(w.db, depth)
  {}

  /**
   A matching receipt in a canonical block leaves a submitted or reorganised operation mined or
   reverted, as its status says, in exactly the receipt's block; any other receipt stores nothing.
   */
  lemma ReceiptDecides(w: World, depth: nat, pid: nat, r: ReceiptData)
    requires Sound(w, depth) && pid in w.trackers && w.trackers[pid].AwaitReceipt?
    ensures var t, x := w.trackers[pid], Do(w, depth, Receive(pid, Some(r)));
            && x.db == (if Lands(w.db, t, r) then w.db.(operations := w.db.operations[t.op.id := InBlockOf(t.op, r)]) else w.db)
            && x.trackers == (match Reconcilable(w.db, t, r)
                              case Some(op) => w.trackers[pid := AwaitReconciliation(op, t.at, r)]
                              case None => w.trackers - {pid})
  {
    hide Sound, Receipted, Reconcilable, Lands, InBlockOf;
    ReceiptedIs(w, depth, w.trackers[pid], r);
  }

  lemma NoReceiptStoresNothing(w: World, depth: nat, pid: nat)
    requires pid in w.trackers && w.trackers[pid].AwaitReceipt?
    ensures Do(w, depth, Receive(pid, None)) == w.(trackers := w.trackers - {pid})
  {}

  // ---- what a reconciliation decides ----------------------------------------

  /** Another operation is already reconciled with the same transaction. */
  predicate BoundElsewhere(db: Db, op: Operation) {
    exists id :: id in db.operations && id != op.id && db.operations[id].chainId == op.chainId
                 && db.operations[id].txHash == op.txHash && db.operations[id].reconciled
  }

  /** The operation after `count` confirmations, or after a mismatch. */
  function Judged(op: Operation, depth: nat, count: int, mismatch: Option<bool>, now: Time): Operation {
    match mismatch
    case Some(ofState) =>
      op.(state := ReconciliationFailed, reconciled := false, confirmedAt := None,
          error := Some(if ofState then ContractStateMismatch else EventEvidenceMismatch))
    case None =>
      op.(state := if count < depth then Confirming else Confirmed, confirmations := count, reconciled := true,
          confirmedAt := if count < depth then None else Some(now), error := None)
  }

  /** The reconciliation is recorded. */
  predicate Settles(db: Db, t: Tracker, depth: nat, count: int, mismatch: Option<bool>, now: Time)
    requires t.AwaitReconciliation?
  {
    && Current(db, t.op, t.at)
    && if mismatch.Some? then t.op.state in {Mined, Confirming}
       else
         && t.op.state in {Mined, Confirming, ReconciliationFailed}
         && 0 <= count && t.op.confirmations <= count && IsSafeInteger(count)
         && (depth <= count ==> now.Instant?) && !BoundElsewhere(db, t.op)
  }

  lemma JudgedIsSaved(w: World, depth: nat, t: Tracker, count: int, mismatch: Option<bool>, now: Time)
    requires Sound(w, depth) && t.AwaitReconciliation? && Settles(w.db, t, depth, count, mismatch, now)
    ensures Verdict(t.op, depth, count, mismatch, now) == Some(Judged(t.op, depth, count, mismatch, now))
    ensures SaveOperationAtCheckpoint(w.db, Judged(t.op, depth, count, mismatch, now), t.op, t.at)
            == Ok(w.db.(operations := w.db.operations[t.op.id := Judged(t.op, depth, count, mismatch, now)]))
  {
    hide Represents;
    StoredIsAnchored(w, depth, t.op, t.at);
    hide Sound, Current, SettledAt;
    JudgedIsLegal(t.op, depth, count, mismatch, now);
    SaveAccepts(w.db, Judged(t.op, depth, count, mismatch, now), t.op, t.at);
  }

  lemma StoredIsAnchored(w: World, depth: nat, op: Operation, at: Point)
    requires Sound(w, depth) && Current(w.db, op, at) && op.state in {Mined, Confirming, ReconciliationFailed}
    ensures ValidEvidence(op) && Unchecked(op) && op.canonical && op.blockNumber.Some?
    ensures 0 <= op.blockNumber.value && IsSafeInteger(op.blockNumber.value)
  {
    hide Represents;
    assert Anchored(w.db, depth, op);
    assert BlockKey(ContractOf(op), op.blockNumber.value, op.blockHash.value) in w.db.blocks;
  }

  lemma JudgedIsLegal(op: Operation, depth: nat, count: int, mismatch: Option<bool>, now: Time)
    requires ValidEvidence(op) && op.canonical
    requires if mismatch.Some? then op.state in {Mined, Confirming}
             else op.state in {Mined, Confirming, ReconciliationFailed} && 0 <= count && op.confirmations <= count
                  && IsSafeInteger(count) && (depth <= count ==> now.Instant?)
    ensures Verdict(op, depth, count, mismatch, now) == Some(Judged(op, depth, count, mismatch, now))
    ensures ValidEvidence(Judged(op, depth, count, mismatch, now))
  {}

  lemma SaveAccepts(db: Db, op: Operation, expected: Operation, at: Point)
    requires Current(db, expected, at) && SameIdentity(op, expected) && op.txHash == expected.txHash
    requires ValidEvidence(op) && ValidOperationId(op.id)
    requires op.blockNumber.Some? && 0 <= op.blockNumber.value && IsSafeInteger(op.blockNumber.value)
    requires op.reconciled ==> !BoundElsewhere(db, expected)
    ensures SaveOperationAtCheckpoint(db, op, expected, at) == Ok(db.(operations := db.operations[op.id := op]))
  {
    hide ValidEvidence, ValidOperationId;
  }

  lemma VerdictKeepsIdentity(op: Operation, depth: nat, count: int, mismatch: Option<bool>, now: Time)
    requires Verdict(op, depth, count, mismatch, now).Some?
    ensures SameIdentity(Verdict(op, depth, count, mismatch, now).value, op)
    ensures if mismatch.Some? then op.state in {Mined, Confirming}
            else op.state in {Mined, Confirming, ReconciliationFailed}
                 && 0 <= count && op.confirmations <= count && IsSafeInteger(count) && (depth <= count ==> now.Instant?)
    ensures mismatch.None? ==> Verdict(op, depth, count, mismatch, now).value.reconciled
                               && Verdict(op, depth, count, mismatch, now).value.txHash == op.txHash
  {}

  lemma BoundIsRefused(db: Db, op: Operation, expected: Operation, at: Point)
    requires SameIdentity(op, expected) && op.txHash == expected.txHash && op.reconciled && BoundElsewhere(db, expected)
    ensures SaveOperationAtCheckpoint(db, op, expected, at).Err?
  {}

  lemma UnsettledIsRefused(db: Db, t: Tracker, depth: nat, count: int, mismatch: Option<bool>, now: Time)
    requires t.AwaitReconciliation? && !Settles(db, t, depth, count, mismatch, now)
    requires Verdict(t.op, depth, count, mismatch, now).Some?
    ensures SaveOperationAtCheckpoint(db, Verdict(t.op, depth, count, mismatch, now).value, t.op, t.at).Err?
  {
    hide SaveOperationAtCheckpoint, Verdict, Current, BoundElsewhere;
    VerdictKeepsIdentity(t.op, depth, count, mismatch, now);
    var next := Verdict(t.op, depth, count, mismatch, now).value;
    if Current(db, t.op, t.at) {
      BoundIsRefused(db, next, t.op, t.at);
    } else {
      OthersAreRefused(db, next, t.op, t.at);
    }
  }

  lemma ReconciledIs(w: World, depth: nat, t: Tracker, mismatch: Option<bool>, now: Time)
    requires Sound(w, depth) && t.AwaitReconciliation?
    ensures var count := t.at.number - t.receipt.number + 1;
            Reconciled(w.db, t, depth, mismatch, now)
            == if Settles(w.db, t, depth, count, mismatch, now)
               then w.db.(operations := w.db.operations[t.op.id := Judged(t.op, depth, count, mismatch, now)])
               else w.db
  {
    hide Sound, SaveOperationAtCheckpoint, Verdict, Settles, Judged;
    var count := t.at.number - t.receipt.number + 1;
    if Settles(w.db, t, depth, count, mismatch, now) {
      JudgedIsSaved(w, depth, t, count, mismatch, now);
    } else if Verdict(t.op, depth, count, mismatch, now).Some? {
      UnsettledIsRefused(w.db, t, depth, count, mismatch, now);
    }
  }

  /**
   A match leaves the operation confirming below the depth and confirmed from it on, with exactly the
   confirmations the settled head gives, also after a failed reconciliation; a mismatch leaves it
   failed with its code; in every other case nothing is stored.
   */
  lemma ReconciliationDecides(w: World, depth: nat, pid: nat, mismatch: Option<bool>, now: Time)
    requires Sound(w, depth) && pid in w.trackers && w.trackers[pid].AwaitReconciliation?
    ensures var t, x := w.trackers[pid], Do(w, depth, Reconcile(pid, mismatch, now));
            var count := t.at.number - t.receipt.number + 1;
            && x.trackers == w.trackers - {pid}
            && x.db == if Settles(w.db, t, depth, count, mismatch, now)
                       then w.db.(operations := w.db.operations[t.op.id := Judged(t.op, depth, count, mismatch, now)])
                       else w.db
  {
    hide Sound, Reconciled, Settles, Judged;
    ReconciledIs(w, depth, w.trackers[pid], mismatch, now);
  }

  // ---- a whole tracking -----------------------------------------------------

  /** A run of `trackOperation` that nothing interrupts. */
  function Tracking(pid: nat, op: Operation, latest: Point, r: ReceiptData, mismatch: Option<bool>, now: Time): seq<Step> {
    [Track(pid, ContractOf(op), op.id), Synced(pid, latest), Receive(pid, Some(r)), Reconcile(pid, mismatch, now)]
  }

  lemma RunFour(w: World, depth: nat, a: Step, b: Step, c: Step, d: Step)
    ensures RunSteps(w, depth, [a, b, c, d]) == Do(Do(Do(Do(w, depth, a), depth, b), depth, c), depth, d)
  {
    hide Do;
    var u := Do(w, depth, a);
    var v := Do(u, depth, b);
    var y := Do(v, depth, c);
    assert [a, b, c, d][1..] == [b, c, d] && RunSteps(w, depth, [a, b, c, d]) == RunSteps(u, depth, [b, c, d]);
    assert [b, c, d][1..] == [c, d] && RunSteps(u, depth, [b, c, d]) == RunSteps(v, depth, [c, d]);
    assert [c, d][1..] == [d] && RunSteps(v, depth, [c, d]) == RunSteps(y, depth, [d]);
    assert [d][1..] == [] && RunSteps(y, depth, [d]) == Do(y, depth, d);
  }

  /** Tracking waits for the receipt once the operation is known and the index settled at the head. */
  lemma TrackingStarts(w: World, depth: nat, pid: nat, op: Operation, latest: Point)
    requires Current(w.db, op, latest) && op.txHash.Some? && pid !in w.trackers
    ensures Do(Do(w, depth, Track(pid, ContractOf(op), op.id)), depth, Synced(pid, latest))
            == w.(trackers := w.trackers[pid := AwaitReceipt(ContractOf(op), op, op.txHash.value, latest)])
  {
    var t := AwaitHead(ContractOf(op), op.id, op.txHash.value);
    assert Do(w, depth, Track(pid, ContractOf(op), op.id)) == w.(trackers := w.trackers[pid := t]);
    assert w.trackers[pid := t][pid := AwaitReceipt(ContractOf(op), op, op.txHash.value, latest)]
        == w.trackers[pid := AwaitReceipt(ContractOf(op), op, op.txHash.value, latest)];
  }

  /**
   From a settled index and a stored submitted operation, a tracking with a matching receipt in a
   canonical block ends in exactly the state that receipt, reconciliation and depth call for.
   */
  lemma TrackingSettles(w: World, depth: nat, pid: nat, op: Operation, latest: Point, r: ReceiptData,
                        mismatch: Option<bool>, now: Time)
    requires Sound(w, depth) && pid !in w.trackers && Current(w.db, op, latest)
    requires op.state in {Submitted, Reorged} && op.txHash.Some? && Shown(w.db, op, op.txHash.value, r)
    requires 0 <= r.index && IsSafeInteger(r.index)
    ensures var x := RunSteps(w, depth, Tracking(pid, op, latest, r, mismatch, now));
            var count := latest.number - r.number + 1;
            && op.id in x.db.operations
            && x.db == w.db.(operations := w.db.operations[op.id := x.db.operations[op.id]])
            && x.db.operations[op.id] ==
               if r.status.Revert? then InBlockOf(op, r)
               else if mismatch.Some? then Judged(InBlockOf(op, r), depth, count, mismatch, now)
               else if 0 <= count && IsSafeInteger(count) && (depth <= count ==> now.Instant?) && !BoundElsewhere(w.db, op)
               then Judged(InBlockOf(op, r), depth, count, None, now)
               else InBlockOf(op, r)
  {
    hide Sound, Shown, IsCanonical, SettledAt, Do, InBlockOf, Judged;
    RunFour(w, depth, Track(pid, ContractOf(op), op.id), Synced(pid, latest), Receive(pid, Some(r)),
            Reconcile(pid, mismatch, now));
    TrackingStarts(w, depth, pid, op, latest);
    var t := AwaitReceipt(ContractOf(op), op, op.txHash.value, latest);
    var y := w.(trackers := w.trackers[pid := t]);
    SoundStays(w, y, depth);
    ReceiptDecides(y, depth, pid, r);
    var z := Do(y, depth, Receive(pid, Some(r)));
    StepKeepsSound(y, depth, Receive(pid, Some(r)));
    if r.status.Success? {
      ReconciliationDecides(z, depth, pid, mismatch, now);
      AfterReceipt(w.db, op, latest, r);
    } else {
      GoneStoresNothing(z, depth, pid, mismatch, now);
    }
  }

  lemma SoundStays(w: World, y: World, depth: nat)
    requires Sound(w, depth) && y.db == w.db && y.stacks == w.stacks
    ensures Sound(y, depth)
  {
    forall c ensures Represents(y.db, c, StackOf(y, c)) { assert Represents(w.db, c, StackOf(w, c)); }
  }

  lemma GoneStoresNothing(w: World, depth: nat, pid: nat, mismatch: Option<bool>, now: Time)
    requires pid !in w.trackers
    ensures Do(w, depth, Reconcile(pid, mismatch, now)) == w
  {}

  lemma AfterReceipt(db: Db, op: Operation, at: Point, r: ReceiptData)
    requires Current(db, op, at) && r.status.Success?
    ensures var next := InBlockOf(op, r);
            var db' := db.(operations := db.operations[op.id := next]);
            && Current(db', next, at) && next.state == Mined && next.confirmations == 0 && next.id == op.id
            && (BoundElsewhere(db', next) <==> BoundElsewhere(db, op))
  {
    var next := InBlockOf(op, r);
    var db' := db.(operations := db.operations[op.id := next]);
    if BoundElsewhere(db, op) {
      var id :| id in db.operations && id != op.id && db.operations[id].chainId == op.chainId
                && db.operations[id].txHash == op.txHash && db.operations[id].reconciled;
      assert id in db'.operations && db'.operations[id] == db.operations[id];
    }
    if BoundElsewhere(db', next) {
      var id :| id in db'.operations && id != next.id && db'.operations[id].chainId == next.chainId
                && db'.operations[id].txHash == next.txHash && db'.operations[id].reconciled;
      assert id in db.operations && db'.operations[id] == db.operations[id];
    }
  }

  // ---- which operations are worth tracking ----------------------------------

  /** A tracking changes the row of no operation that the tracking query leaves out. */
  lemma OnlyTrackableMove(w: World, depth: nat, pid: nat, step: Step, id: string)
    requires Sound(w, depth) && (step.Receive? || step.Reconcile?) && id in w.db.operations
    ensures id in Do(w, depth, step).db.operations
    ensures Do(w, depth, step).db.operations[id] != w.db.operations[id] ==>
              id in T.Trackable(w.db.operations, ContractOf(w.db.operations[id]))
  {
    hide Sound, InBlockOf, Judged, Shown, SettledAt, Receipted, Reconciled, BoundElsewhere, Reconcilable;
    if step.pid in w.trackers {
      if step.Receive? && w.trackers[step.pid].AwaitReceipt? {
        if step.receipt.Some? {
          ReceiptDecides(w, depth, step.pid, step.receipt.value);
        } else {
          NoReceiptStoresNothing(w, depth, step.pid);
        }
      }
      if step.Reconcile? && w.trackers[step.pid].AwaitReconciliation? {
        ReconciliationDecides(w, depth, step.pid, step.mismatch, step.now);
      }
    }
  }

  /** A receipt and a reconciliation that change the row of a trackable operation. */
  predicate Moves(op: Operation, latest: Point, r: ReceiptData, mismatch: Option<bool>, now: Time) {
    && op.txHash.Some? && r.tx == op.txHash.value && r.sender == op.owner && r.to == Some(op.target)
    && r.index == 0 && r.status.Success? && now.Instant?
    && if op.state in {Submitted, Reorged} then r.number == latest.number && r.hash == latest.hash
       else op.blockNumber == Some(r.number) && op.blockHash == Some(r.hash)
            && (mismatch.Some? <==> op.state != ReconciliationFailed)
  }

  /**
   Every operation the tracking query selects can still change: once the index is settled, some receipt
   and some reconciliation store another row; a failed reconciliation needs a match that counts.
   */
  lemma TrackableMoves(w: World, depth: nat, pid: nat, op: Operation, latest: Point, r: ReceiptData, mismatch: Option<bool>,
                       now: Time)
    requires Sound(w, depth) && pid !in w.trackers && Current(w.db, op, latest)
    requires op.id in T.Trackable(w.db.operations, ContractOf(op)) && Moves(op, latest, r, mismatch, now)
    requires op.state == ReconciliationFailed ==>
               !BoundElsewhere(w.db, op) && op.confirmations <= latest.number - r.number + 1
               && IsSafeInteger(latest.number - r.number + 1)
    ensures var x := RunSteps(w, depth, Tracking(pid, op, latest, r, mismatch, now));
            op.id in x.db.operations && x.db.operations[op.id] != op
  {
    hide Sound, IsCanonical, SettledAt, Do, InBlockOf, Judged, BoundElsewhere;
    RunFour(w, depth, Track(pid, ContractOf(op), op.id), Synced(pid, latest), Receive(pid, Some(r)),
            Reconcile(pid, mismatch, now));
    TrackingStarts(w, depth, pid, op, latest);
    var t := AwaitReceipt(ContractOf(op), op, op.txHash.value, latest);
    var y := w.(trackers := w.trackers[pid := t]);
    SoundStays(w, y, depth);
    MoveIsShown(w, depth, op, latest, r, mismatch, now);
    MovedRowDiffers(op, depth, latest, r, mismatch, now);
    if op.state in {Submitted, Reorged} {
      TrackingSettles(w, depth, pid, op, latest, r, mismatch, now);
    } else {
      ReceiptDecides(y, depth, pid, r);
      var z := Do(y, depth, Receive(pid, Some(r)));
      StepKeepsSound(y, depth, Receive(pid, Some(r)));
      assert z.trackers[pid] == AwaitReconciliation(op, latest, r) && z.db == w.db;
      ReconciliationDecides(z, depth, pid, mismatch, now);
      var count := latest.number - r.number + 1;
      assert Settles(z.db, z.trackers[pid], depth, count, mismatch, now);
      assert Judged(op, depth, count, mismatch, now).state != op.state;
    }
  }

  lemma MoveIsShown(w: World, depth: nat, op: Operation, latest: Point, r: ReceiptData, mismatch: Option<bool>, now: Time)
    requires Sound(w, depth) && Current(w.db, op, latest) && Moves(op, latest, r, mismatch, now)
    requires op.state in {Submitted, Mined, Confirming, Reorged, ReconciliationFailed}
    ensures Shown(w.db, op, op.txHash.value, r) && r.number <= latest.number && IsSafeInteger(latest.number)
    ensures 0 <= op.confirmations
  {
    var c := ContractOf(op);
    assert Represents(w.db, c, StackOf(w, c));
    assert Anchored(w.db, depth, op);
    assert IsCanonical(w.db, c, latest);
    assert BlockKey(c, latest.number, latest.hash) in w.db.blocks;
  }

  lemma MovedRowDiffers(op: Operation, depth: nat, latest: Point, r: ReceiptData, mismatch: Option<bool>, now: Time)
    requires Moves(op, latest, r, mismatch, now)
    ensures op.state in {Submitted, Reorged} ==>
              InBlockOf(op, r).state == Mined
              && forall count: int, m: Option<bool> :: Judged(InBlockOf(op, r), depth, count, m, now).state !in {Submitted, Reorged}
    ensures op.state in {Mined, Confirming} ==> forall count: int :: Judged(op, depth, count, mismatch, now).state != op.state
    ensures op.state == ReconciliationFailed ==> forall count: int :: Judged(op, depth, count, None, now).state != op.state
  {}

  // ---- what the wallet reports ----------------------------------------------

  /** The row a report leaves under its identifier. */
  function Displaced(op: Operation, newHash: Option<Hash>): Operation {
    op.(state := if newHash.Some? then Replaced else Dropped,
        replacement := if newHash.Some? then newHash else op.replacement,
        error := Some(if newHash.Some? then TransactionReplaced else TransactionDropped),
        canonical := false, reconciled := false, confirmedAt := None)
  }

  /**
   A replacement or drop is recorded exactly for an operation that is submitted or reorganised, a
   replacement only under another hash; it never touches anything else.
   */
  lemma DisplacementDecides(w: World, depth: nat, id: string, newHash: Option<Hash>)
    requires Sound(w, depth)
    ensures var x := Do(w, depth, Wallet(if newHash.Some? then Replacement(id, newHash.value) else Drop(id)));
            x == w.(db := if id in w.db.operations && w.db.operations[id].state in {Submitted, Reorged}
                             && w.db.operations[id].txHash != newHash
                          then w.db.(operations := w.db.operations[id := Displaced(w.db.operations[id], newHash)])
                          else w.db)
  {
    hide AllStacked, HeightsSafe, Anchored, Apply, SaveOperation, Displaced;
    if id in w.db.operations {
      DisplacementIsLegal(w.db, depth, w.db.operations[id], newHash);
      if w.db.operations[id].state in {Submitted, Reorged} { DisplacementIsSaved(w.db, w.db.operations[id], newHash); }
    }
  }

  lemma DisplacementIsLegal(db: Db, depth: nat, op: Operation, newHash: Option<Hash>)
    requires Anchored(db, depth, op)
    ensures ValidEvidence(op) && ValidOperationId(op.id) && (op.blockNumber.Some? ==> 0 <= op.blockNumber.value)
    ensures var r := Apply(op, if newHash.Some? then ToReplaced(newHash) else ToDropped);
            if op.state in {Submitted, Reorged} && op.txHash != newHash then r == Ok(Displaced(op, newHash)) else r.Err?
  {}

  lemma DisplacementIsSaved(db: Db, op: Operation, newHash: Option<Hash>)
    requires op.id in db.operations && db.operations[op.id] == op && RowsSafe(db)
    requires ValidEvidence(op) && ValidOperationId(op.id) && op.state in {Submitted, Reorged}
    requires op.blockNumber.Some? ==> 0 <= op.blockNumber.value
    ensures SaveOperation(db, Displaced(op, newHash))
            == Ok(db.(operations := db.operations[op.id := Displaced(op, newHash)]))
  {
    hide ValidOperationId;
  }

  /** The row of an operation the wallet has just sent. */
  function Sent(r: Report): Operation
    requires r.Submission?
  {
    Operation(r.id, r.chainId, r.owner, r.target, Some(r.calldata), Submitted, Some(r.tx), Some(r.at), None, None, None,
              None, 0, None, false, false, None, None)
  }

  /** The transaction is known under another identifier: from the same report, or reconciled. */
  predicate KnownElsewhere(db: Db, r: Report)
    requires r.Submission?
  {
    exists id :: id in db.operations && db.operations[id].chainId == r.chainId && db.operations[id].txHash == Some(r.tx)
                 && (db.operations[id].reconciled
                     || (db.operations[id].owner == r.owner && db.operations[id].target == r.target
                         && db.operations[id].calldata == Some(r.calldata)))
  }

  lemma ObservedIsKnown(db: Db, r: Report)
    requires r.Submission?
    ensures Observed(db, r) <==> KnownElsewhere(db, r)
  {}

  /** A submission is recorded exactly when it is well formed, its identifier new and its transaction not known. */
  lemma SubmissionDecides(w: World, depth: nat, r: Report)
    requires r.Submission?
    ensures Do(w, depth, Wallet(r))
            == w.(db := if r.id !in w.db.operations && !KnownElsewhere(w.db, r) && ValidOperationId(r.id)
                           && IsSafeInteger(r.chainId) && r.chainId != 0 && r.at.Instant?
                        then w.db.(operations := w.db.operations[r.id := Sent(r)])
                        else w.db)
  {
    hide Observed, KnownElsewhere, ValidOperationId;
    ObservedIsKnown(w.db, r);
  }

  // ---- identities and bindings over whole runs ------------------------------

  /** At most one operation is reconciled with a transaction. */
  predicate BoundOnce(db: Db) {
    forall i, j :: i in db.operations && j in db.operations && i != j ==> !Share(db.operations[i], db.operations[j])
  }

  predicate Share(a: Operation, b: Operation) {
    a.reconciled && b.reconciled && a.txHash.Some? && a.txHash == b.txHash && a.chainId == b.chainId
  }

  /** Every operation of `db` is still there under its identity, with the transaction it had. */
  predicate SameOperations(db: Db, db': Db) {
    forall id :: id in db.operations ==>
      id in db'.operations && SameIdentity(db.operations[id], db'.operations[id])
      && (db.operations[id].txHash.Some? ==> db'.operations[id].txHash == db.operations[id].txHash)
  }

  predicate OwnKeys(db: Db) { forall id :: id in db.operations ==> db.operations[id].id == id }

  lemma SaveBindsOnce(db: Db, op: Operation)
    requires BoundOnce(db) && OwnKeys(db) && SaveOperation(db, op).Ok?
    ensures var db' := SaveOperation(db, op).value;
            BoundOnce(db') && OwnKeys(db')
  {
    hide ValidEvidence, ValidOperationId;
  }

  lemma SaveKeepsIdentities(db: Db, op: Operation)
    requires SaveOperation(db, op).Ok?
    requires op.id in db.operations && db.operations[op.id].txHash.Some? ==> op.txHash.Some?
    ensures SameOperations(db, SaveOperation(db, op).value)
  {
    hide ValidEvidence, ValidOperationId, BindingTaken;
  }

  lemma SettledSave(db: Db, op: Operation, expected: Operation, at: Point)
    requires BoundOnce(db) && OwnKeys(db) && SaveOperationAtCheckpoint(db, op, expected, at).Ok?
    ensures var db' := SaveOperationAtCheckpoint(db, op, expected, at).value;
            BoundOnce(db') && OwnKeys(db') && SameOperations(db, db')
  {
    hide ValidEvidence, SaveOperation, BoundOnce, SameOperations;
    SaveBindsOnce(db, op);
    SaveKeepsIdentities(db, op);
  }

  lemma ApplyKeepsHash(op: Operation, u: Transition)
    requires Apply(op, u).Ok?
    ensures op.txHash.Some? ==> Apply(op, u).value.txHash.Some?
    ensures Apply(op, u).value.id == op.id
  {}

  lemma ReportBindsOnce(db: Db, r: Report)
    requires BoundOnce(db) && OwnKeys(db)
    ensures BoundOnce(Reported(db, r)) && OwnKeys(Reported(db, r)) && SameOperations(db, Reported(db, r))
  {
    hide BoundOnce, Apply, SaveOperation, Observed, Create;
    Unmoved(db);
    var wanted := Wanted(db, r);
    if wanted.Some? && SaveOperation(db, wanted.value).Ok? {
      WantedKeepsHash(db, r);
      SaveBindsOnce(db, wanted.value);
      SaveKeepsIdentities(db, wanted.value);
    }
  }

  lemma WantedKeepsHash(db: Db, r: Report)
    requires OwnKeys(db) && Wanted(db, r).Some?
    ensures var op := Wanted(db, r).value;
            op.id in db.operations && db.operations[op.id].txHash.Some? ==> op.txHash.Some?
  {
    hide Observed;
    match r
    case Submission(_, _, _, _, _, _, _) =>
    case Replacement(id, newHash) => ApplyKeepsHash(db.operations[id], ToReplaced(Some(newHash)));
    case Drop(id) => ApplyKeepsHash(db.operations[id], ToDropped);
  }

  lemma Unmoved(db: Db)
    ensures SameOperations(db, db)
  {}

  lemma CallBindsOnce(db: Db, call: Call)
    requires BoundOnce(db) && OwnKeys(db) && Perform(db, call).Ok?
    ensures var db' := Perform(db, call).value;
            BoundOnce(db') && OwnKeys(db') && SameOperations(db, db')
  {
    if call.Rollback? {
      RollbackBindsOnce(db, call);
    } else {
      CallsGrow(db, call);
      hide Perform;
    }
  }

  lemma RollbackBindsOnce(db: Db, call: Call)
    requires BoundOnce(db) && OwnKeys(db) && Perform(db, call).Ok? && call.Rollback?
    ensures var db' := Perform(db, call).value;
            BoundOnce(db') && OwnKeys(db') && SameOperations(db, db')
  {
    hide TombEvents, TombBlocks, DropProjections, TopBelow;
  }

  lemma StepBindsOnce(w: World, depth: nat, step: Step)
    requires BoundOnce(w.db) && OwnKeys(w.db)
    ensures var db' := Do(w, depth, step).db;
            BoundOnce(db') && OwnKeys(db') && SameOperations(w.db, db')
  {
    hide BoundOnce, OwnKeys, SameOperations, Perform, Reported, SaveOperationAtCheckpoint, Verdict, Apply,
      CanonicalAt, ReceiptMatches, Inclusive;
    Unmoved(w.db);
    match step
    case Store(call) => if Perform(w.db, call).Ok? { CallBindsOnce(w.db, call); }
    case Wallet(report) => ReportBindsOnce(w.db, report);
    case Track(pid, c, id) =>
    case Synced(pid, latest) =>
    case Receive(pid, receipt) =>
      if pid in w.trackers && w.trackers[pid].AwaitReceipt? { ReceiptBindsOnce(w.db, w.trackers[pid], receipt); }
    case Reconcile(pid, mismatch, now) =>
      if pid in w.trackers && w.trackers[pid].AwaitReconciliation? {
        ReconciliationBindsOnce(w.db, w.trackers[pid], depth, mismatch, now);
      }
  }

  lemma ReceiptBindsOnce(db: Db, t: Tracker, receipt: Option<ReceiptData>)
    requires BoundOnce(db) && OwnKeys(db) && t.AwaitReceipt?
    ensures var db' := Receipted(db, t, receipt).0;
            BoundOnce(db') && OwnKeys(db') && SameOperations(db, db')
  {
    hide BoundOnce, OwnKeys, SameOperations, Apply, SaveOperationAtCheckpoint, CanonicalAt, ReceiptMatches, Inclusive;
    Unmoved(db);
    if receipt.Some? && Apply(t.op, Inclusive(receipt.value)).Ok? {
      var next := Apply(t.op, Inclusive(receipt.value)).value;
      if SaveOperationAtCheckpoint(db, next, t.op, t.at).Ok? { SettledSave(db, next, t.op, t.at); }
    }
  }

  lemma ReconciliationBindsOnce(db: Db, t: Tracker, depth: nat, mismatch: Option<bool>, now: Time)
    requires BoundOnce(db) && OwnKeys(db) && t.AwaitReconciliation?
    ensures var db' := Reconciled(db, t, depth, mismatch, now);
            BoundOnce(db') && OwnKeys(db') && SameOperations(db, db')
  {
    hide BoundOnce, OwnKeys, SameOperations, Verdict, SaveOperationAtCheckpoint;
    Unmoved(db);
    var next := Verdict(t.op, depth, t.at.number - t.receipt.number + 1, mismatch, now);
    if next.Some? && SaveOperationAtCheckpoint(db, next.value, t.op, t.at).Ok? { SettledSave(db, next.value, t.op, t.at); }
  }

  lemma SameThroughout(a: Db, b: Db, c: Db)
    requires SameOperations(a, b) && SameOperations(b, c)
    ensures SameOperations(a, c)
  {}

  /**
   Over every interleaving no two operations are reconciled with one transaction, and an operation
   never disappears, changes its identity or its transaction.
   */
  lemma {:induction false} OperationsStayThemselves(w: World, depth: nat, steps: seq<Step>)
    requires BoundOnce(w.db) && OwnKeys(w.db)
    ensures var db' := RunSteps(w, depth, steps).db;
            BoundOnce(db') && OwnKeys(db') && SameOperations(w.db, db')
    decreases |steps|
  {
    hide BoundOnce, OwnKeys, SameOperations, Do;
    Unmoved(w.db);
    if steps != [] {
      StepBindsOnce(w, depth, steps[0]);
      OperationsStayThemselves(Do(w, depth, steps[0]), depth, steps[1..]);
      SameThroughout(w.db, Do(w, depth, steps[0]).db, RunSteps(w, depth, steps).db);
    }
  }
}
