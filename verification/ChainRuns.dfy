/**
 Every interleaving of synchronizers, operation trackers, submissions,
 replacements and drops over one store. A step is what runs between two awaits:
 one store transaction with any arguments, or one stretch of a tracker.
 */
module ChainRuns {
  import opened Prelude
  import opened Lifecycle
  import opened ChainTables
  import opened ChainStack

  // ---- store calls ----------------------------------------------------------

  datatype Call =
    | Claim(c: Contract, goal: nat, owner: Token)
    | MarkUnhealthy(c: Contract, error: SyncError, target: Option<nat>, token: Option<Token>)
    | MarkHealthy(c: Contract, completed: nat, token: Option<Token>)
    | Release(c: Contract, goal: nat, owner: Token)
    | Record(c: Contract, block: Block, events: seq<Event>, target: Option<nat>, token: Option<Token>)
    | Rollback(c: Contract, from: nat, token: Option<Token>)
    | Commit(c: Contract, at: Point, projections: seq<Projection>, token: Option<Token>)

  ghost function Perform(db: Db, call: Call): Result<Db, StoreError> {
    match call
    case Claim(c, goal, owner) => ClaimSync(db, c, goal, owner)
    case MarkUnhealthy(c, error, target, token) => MarkSyncUnhealthy(db, c, error, target, token)
    case MarkHealthy(c, completed, token) =>
      var r := MarkSyncHealthy(db, c, completed, token);
      if r.Ok? then Ok(r.value.0) else Err(r.error)
    case Release(c, goal, owner) => ReleaseSyncIncomplete(db, c, goal, owner)
    case Record(c, block, events, target, token) => RecordCanonicalBlock(db, c, block, events, target, token)
    case Rollback(c, from, token) => RollbackFromBlock(db, c, from, token)
    case Commit(c, at, projections, token) => CommitProjections(db, c, at, projections, token)
  }

  // ---- wallet reports -------------------------------------------------------

  datatype Report =
    | Submission(id: string, chainId: nat, owner: Address, target: Address, calldata: string, tx: Hash, at: Time)
    | Replacement(id: string, newHash: Hash)
    | Drop(id: string)

  predicate SameSubmission(op: Operation, r: Report)
    requires r.Submission?
  {
    op.chainId == r.chainId && op.txHash == Some(r.tx) && op.owner == r.owner && op.target == r.target
    && op.calldata == Some(r.calldata)
  }

  /** A different operation already stands for the same transaction. */
  predicate Observed(db: Db, r: Report)
    requires r.Submission?
  {
    exists id :: id in db.operations
                 && (SameSubmission(db.operations[id], r)
                     || (db.operations[id].chainId == r.chainId && db.operations[id].txHash == Some(r.tx)
                         && db.operations[id].reconciled))
  }

  /** The operation a report wants to store, or None when it stores nothing. */
  function Wanted(db: Db, r: Report): Option<Operation> {
    match r
    case Submission(id, chainId, owner, target, calldata, tx, at) =>
      if id in db.operations || Observed(db, r) then None
      else
        var made := Create(id, chainId, owner, target, Some(calldata));
        if made.Err? then None
        else
          var sent := Apply(made.value, ToSubmitted(tx, at));
          if sent.Err? then None else Some(sent.value)
    case Replacement(id, newHash) =>
      if id !in db.operations then None
      else
        var next := Apply(db.operations[id], ToReplaced(Some(newHash)));
        if next.Err? then None else Some(next.value)
    case Drop(id) =>
      if id !in db.operations then None
      else
        var next := Apply(db.operations[id], ToDropped);
        if next.Err? then None else Some(next.value)
  }

  function Reported(db: Db, r: Report): Db {
    var wanted := Wanted(db, r);
    if wanted.None? then db
    else
      var saved := SaveOperation(db, wanted.value);
      if saved.Ok? then saved.value else db
  }

  // ---- trackers -------------------------------------------------------------

  datatype ReceiptData = ReceiptData(
    tx: Hash, sender: Address, to: Option<Address>, number: nat, hash: Hash, index: int, status: Receipt)

  /** What a running trackOperation call remembers across an await. */
  datatype Tracker =
    | AwaitHead(c: Contract, id: string, tx: Hash)
    | AwaitReceipt(c: Contract, op: Operation, tx: Hash, at: Point)
    | AwaitReconciliation(op: Operation, at: Point, receipt: ReceiptData)

  /** The first stretch: the operation must exist, be submitted and belong to the contract. */
  function Begin(db: Db, c: Contract, id: string): Option<Tracker> {
    if id in db.operations && db.operations[id].txHash.Some? && ContractOf(db.operations[id]) == c then
      Some(AwaitHead(c, id, db.operations[id].txHash.value))
    else None
  }

  /** After synchronization: the index must be healthy and stand exactly at `latest`. */
  function Synchronized(db: Db, t: Tracker, latest: Point): Option<Tracker>
    requires t.AwaitHead?
  {
    if t.c in db.checkpoints && db.checkpoints[t.c].at == latest && SyncHealthy(db, t.c)
       && t.id in db.operations then
      Some(AwaitReceipt(t.c, db.operations[t.id], t.tx, latest))
    else None
  }

  function Inclusive(r: ReceiptData): Transition {
    if r.status.Revert? then ToReverted(r.number, r.hash, Some(r.index)) else ToMined(r.number, r.hash, Some(r.index))
  }

  predicate ReceiptMatches(r: ReceiptData, op: Operation, tx: Hash) {
    r.tx == tx && r.sender == op.owner && r.to == Some(op.target)
  }

  /** After the receipt: record the inclusion if the receipt's block is canonical now. */
  ghost function Receipted(db: Db, t: Tracker, receipt: Option<ReceiptData>): (Db, Option<Tracker>)
    requires t.AwaitReceipt?
  {
    if receipt.None? || !ReceiptMatches(receipt.value, t.op, t.tx) then (db, None)
    else
      var r := receipt.value;
      var here := CanonicalAt(db, ContractOf(t.op), r.number);
      if here.None? || here.value.hash != r.hash then (db, None)
      else if t.op.state.Submitted? || t.op.state.Reorged? then
        var next := Apply(t.op, Inclusive(r));
        if next.Err? then (db, None)
        else
          var saved := SaveOperationAtCheckpoint(db, next.value, t.op, t.at);
          if saved.Err? then (db, None)
          else (saved.value, if r.status.Revert? then None else Some(AwaitReconciliation(next.value, t.at, r)))
      else if r.status.Success? && t.op.state in {Mined, Confirming, ReconciliationFailed} then
        (db, Some(AwaitReconciliation(t.op, t.at, r)))
      else (db, None)
  }

  /** The operation after reconciliation, or None when it stays as it is or the code throws. */
  function Verdict(op: Operation, depth: nat, count: int, mismatch: Option<bool>, now: Time): Option<Operation> {
    if mismatch.Some? then
      if op.state.ReconciliationFailed? then None
      else
        var failed := Apply(op, ToReconciliationFailed(mismatch.value));
        if failed.Err? then None else Some(failed.value)
    else if count < 0 then None
    else
      var confirming := Apply(op, ToConfirming(count, Some(true)));
      if confirming.Err? then None
      else if count < depth then Some(confirming.value)
      else
        var confirmed := Apply(confirming.value, ToConfirmed(count, now, true));
        if confirmed.Err? then None else Some(confirmed.value)
  }

  function Reconciled(db: Db, t: Tracker, depth: nat, mismatch: Option<bool>, now: Time): Db
    requires t.AwaitReconciliation?
  {
    var next := Verdict(t.op, depth, t.at.number - t.receipt.number + 1, mismatch, now);
    if next.None? then db
    else
      var saved := SaveOperationAtCheckpoint(db, next.value, t.op, t.at);
      if saved.Ok? then saved.value else db
  }

  // ---- the interleaved world ------------------------------------------------

  datatype Committed = Committed(at: Point, projections: seq<Projection>)

  /**
   The store, the running trackers, and two histories: the stack each contract's
   successful recordings and rollbacks describe, and its last committed projections.
   */
  datatype World = World(
    db: Db, trackers: map<nat, Tracker>, stacks: map<Contract, Stack>, commits: map<Contract, Committed>)

  datatype Step =
    | Store(call: Call)
    | Wallet(report: Report)
    | Track(pid: nat, c: Contract, id: string)
    | Synced(pid: nat, latest: Point)
    | Receive(pid: nat, receipt: Option<ReceiptData>)
    | Reconcile(pid: nat, mismatch: Option<bool>, now: Time)

  function StackOf(w: World, c: Contract): Stack { if c in w.stacks then w.stacks[c] else NOTHING }

  ghost function StacksAfter(w: World, call: Call): map<Contract, Stack> {
    if call.Record? && Placement(w.db, call.c, call.block, call.events).Ok? then
      w.stacks[call.c := Recorded(StackOf(w, call.c), call.block, call.events,
                                  Placement(w.db, call.c, call.block, call.events).value)]
    else if call.Rollback? then w.stacks[call.c := Truncate(StackOf(w, call.c), call.from)]
    else w.stacks
  }

  ghost function Stored(w: World, call: Call): World {
    var r := Perform(w.db, call);
    if r.Err? then w
    else World(r.value, w.trackers, StacksAfter(w, call),
               if call.Commit? then w.commits[call.c := Committed(call.at, call.projections)] else w.commits)
  }

  function Keep(w: World, pid: nat, t: Option<Tracker>): World {
    w.(trackers := if t.Some? then w.trackers[pid := t.value] else w.trackers - {pid})
  }

  /** One step; a step that does not fit the named tracker changes nothing. */
  ghost function Do(w: World, depth: nat, step: Step): World {
    match step
    case Store(call) => Stored(w, call)
    case Wallet(report) => w.(db := Reported(w.db, report))
    case Track(pid, c, id) => if pid in w.trackers then w else Keep(w, pid, Begin(w.db, c, id))
    case Synced(pid, latest) =>
      if pid in w.trackers && w.trackers[pid].AwaitHead? then
        Keep(w, pid, Synchronized(w.db, w.trackers[pid], latest))
      else w
    case Receive(pid, receipt) =>
      if pid in w.trackers && w.trackers[pid].AwaitReceipt? then
        var (db, t) := Receipted(w.db, w.trackers[pid], receipt);
        Keep(w.(db := db), pid, t)
      else w
    case Reconcile(pid, mismatch, now) =>
      if pid in w.trackers && w.trackers[pid].AwaitReconciliation? then
        Keep(w.(db := Reconciled(w.db, w.trackers[pid], depth, mismatch, now)), pid, None)
      else w
  }

  ghost function RunSteps(w: World, depth: nat, steps: seq<Step>): World
    decreases |steps|
  {
    if steps == [] then w else RunSteps(Do(w, depth, steps[0]), depth, steps[1..])
  }

  const START := World(EMPTY, map[], map[], map[])
}
