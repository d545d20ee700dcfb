/**
 The tables of the chain store and its transactions, one function each: the
 result is the state after the commit, or the error with which the transaction
 throws (and then nothing is written).
 */
module ChainTables {
  import opened Prelude
  import opened Lifecycle

  type Token = string

  datatype Contract = Contract(chain: nat, address: Address)
  datatype Point = Point(number: nat, hash: Hash)
  datatype Block = Block(number: nat, hash: Hash, parent: Hash, timestamp: int)

  datatype Event = Event(
    chain: nat, address: Address, number: nat, hash: Hash, tx: Hash, txIndex: int, logIndex: int,
    removed: bool, data: string, topics: seq<string>, signature: string, name: string, normalized: string)

  datatype BlockKey = BlockKey(contract: Contract, number: nat, hash: Hash)
  datatype BlockRow = BlockRow(parent: Hash, timestamp: int, logCount: nat, canonical: bool)
  datatype EventKey = EventKey(chain: nat, tx: Hash, logIndex: int)
  datatype EventRow = EventRow(event: Event, canonical: bool)
  datatype SyncError = Incomplete | DepthExceeded | NoCommonAncestor
  datatype CheckpointRow = CheckpointRow(
    at: Point, projected: Option<Point>, healthy: bool, error: Option<SyncError>, target: Option<nat>)
  datatype LeaseRow = LeaseRow(owner: Token, target: nat)
  datatype ProjectionKey = ProjectionKey(contract: Contract, owner: Address, key: string)
  datatype ProjectionRow = ProjectionRow(at: Point, state: string)
  datatype Projection = Projection(contract: Contract, owner: Address, key: string, at: Point, state: string)

  datatype Db = Db(
    blocks: map<BlockKey, BlockRow>,
    events: map<EventKey, EventRow>,
    checkpoints: map<Contract, CheckpointRow>,
    leases: map<Contract, LeaseRow>,
    operations: map<string, Operation>,
    projections: map<ProjectionKey, ProjectionRow>)

  datatype StoreError =
    | InvalidSyncOwner | BlockNumberUnsupported | TargetBehind | Superseded | CheckpointNotFound
    | InvalidSyncHealth | InvalidBlock | InvalidSyncTarget | InvalidEvent | EventConflict | BlockConflict
    | OutOfOrder | ParentMismatch | ProjectionBlockNotCanonical | InvalidProjection | DuplicateProjection
    | InvalidEvidence | InvalidId | IdentityConflict | ProjectionPending

  const EMPTY := Db(map[], map[], map[], map[], map[], map[])
  const MAX_EVENTS := 10000

  // ---- reads ----------------------------------------------------------------

  predicate IsCanonical(db: Db, c: Contract, p: Point) {
    var k := BlockKey(c, p.number, p.hash);
    k in db.blocks && db.blocks[k].canonical
  }

  predicate CanonicalKey(db: Db, c: Contract, n: nat, k: BlockKey) {
    k in db.blocks && k.contract == c && k.number == n && db.blocks[k].canonical
  }

  function BlockOf(db: Db, k: BlockKey): Block
    requires k in db.blocks
  {
    Block(k.number, k.hash, db.blocks[k].parent, db.blocks[k].timestamp)
  }

  /** SELECT ... WHERE block_number = n AND canonical = 1. */
  ghost function CanonicalAt(db: Db, c: Contract, n: nat): Option<BlockKey> {
    if exists k :: CanonicalKey(db, c, n, k) then
      var k :| CanonicalKey(db, c, n, k);
      Some(k)
    else None
  }

  function KeyOf(e: Event): EventKey { EventKey(e.chain, e.tx, e.logIndex) }

  predicate OfContract(e: Event, c: Contract) { e.chain == c.chain && e.address == c.address }

  /** The canonical events of a contract. */
  function CanonicalEvents(db: Db, c: Contract): set<Event> {
    set k | k in db.events && db.events[k].canonical && OfContract(db.events[k].event, c) :: db.events[k].event
  }

  function EventsAt(db: Db, c: Contract, n: nat): set<Event> {
    set k | k in db.events && db.events[k].canonical && OfContract(db.events[k].event, c)
            && db.events[k].event.number == n :: db.events[k].event
  }

  // ---- the fenced lease -----------------------------------------------------

  predicate Owns(db: Db, c: Contract, token: Option<Token>) {
    if c in db.leases then token == Some(db.leases[c].owner) else token.None?
  }

  function Max(a: int, b: int): int { if a < b then b else a }

  function Raise(t: Option<nat>, n: nat): Option<nat> {
    if t.None? || t.value < n then Some(n) else t
  }

  /** Marks the checkpoint incomplete with at least the target `n`. */
  function Demand(row: CheckpointRow, n: nat): CheckpointRow {
    row.(healthy := false, error := Some(Incomplete), target := Raise(row.target, n))
  }

  predicate ValidToken(token: Token) {
    |token| == 36 && forall ch <- token :: '0' <= ch <= '9' || 'a' <= ch <= 'f' || ch == '-'
  }

  /** The target some earlier claim or checkpoint still demands, or -1. */
  function Outstanding(db: Db, c: Contract): int {
    Max(if c in db.leases then db.leases[c].target else -1,
        if c in db.checkpoints && db.checkpoints[c].target.Some? then db.checkpoints[c].target.value else -1)
  }

  function ClaimSync(db: Db, c: Contract, target: nat, token: Token): Result<Db, StoreError> {
    if !ValidToken(token) then Err(InvalidSyncOwner)
    else if !IsSafeInteger(target) then Err(BlockNumberUnsupported)
    else if target < Outstanding(db, c) then Err(TargetBehind)
    else Ok(db.(
      leases := db.leases[c := LeaseRow(token, target)],
      checkpoints := if c in db.checkpoints then db.checkpoints[c := Demand(db.checkpoints[c], target)]
                     else db.checkpoints))
  }

  /** `target` is given exactly when the error is Incomplete. */
  function MarkSyncUnhealthy(db: Db, c: Contract, error: SyncError, target: Option<nat>, token: Option<Token>)
    : Result<Db, StoreError>
  {
    if error.Incomplete? != target.Some? then Err(InvalidSyncHealth)
    else if target.Some? && !IsSafeInteger(target.value) then Err(BlockNumberUnsupported)
    else if !Owns(db, c, token) then Err(Superseded)
    else if c !in db.checkpoints then Err(CheckpointNotFound)
    else if error.Incomplete? then
      Ok(db.(checkpoints := db.checkpoints[c := Demand(db.checkpoints[c], target.value)]))
    else Ok(db.(
      checkpoints := db.checkpoints[c := db.checkpoints[c].(healthy := false, error := Some(error), target := None)],
      leases := db.leases - {c}))
  }

  predicate Completes(row: CheckpointRow, completed: nat) {
    && row.error == Some(Incomplete)
    && completed <= row.at.number
    && row.projected == Some(row.at)
    && row.target.Some? && row.target.value <= completed
  }

  /** The flag of the result is false when the guarded update matched no row. */
  function MarkSyncHealthy(db: Db, c: Contract, completed: nat, token: Option<Token>)
    : Result<(Db, bool), StoreError>
  {
    if !IsSafeInteger(completed) then Err(BlockNumberUnsupported)
    else if !Owns(db, c, token) then Err(Superseded)
    else if c in db.checkpoints && Completes(db.checkpoints[c], completed) then
      Ok((db.(
        checkpoints := db.checkpoints[c := db.checkpoints[c].(healthy := true, error := None, target := None)],
        leases := db.leases - {c}), true))
    else Ok((db, false))
  }

  function ReleaseSyncIncomplete(db: Db, c: Contract, target: nat, token: Token): Result<Db, StoreError> {
    if !IsSafeInteger(target) then Err(BlockNumberUnsupported)
    else if !Owns(db, c, Some(token)) then Err(Superseded)
    else if c !in db.checkpoints then Err(CheckpointNotFound)
    else Ok(db.(checkpoints := db.checkpoints[c := Demand(db.checkpoints[c], target)], leases := db.leases - {c}))
  }

  predicate SyncHealthy(db: Db, c: Contract) {
    c !in db.leases && (c in db.checkpoints ==> db.checkpoints[c].healthy)
  }

  // ---- recording a block ----------------------------------------------------

  predicate NameChar(ch: char) { IdHead(ch) || ch == '.' || ch == '_' || ch == '-' }

  predicate ValidName(name: string) {
    1 <= |name| <= 128 && ('A' <= name[0] <= 'Z' || 'a' <= name[0] <= 'z') && forall ch <- name :: NameChar(ch)
  }

  predicate ValidEvent(e: Event, c: Contract, b: Block) {
    && OfContract(e, c) && e.number == b.number && e.hash == b.hash && !e.removed
    && 0 <= e.txIndex && IsSafeInteger(e.txIndex) && 0 <= e.logIndex && IsSafeInteger(e.logIndex)
    && ValidName(e.name) && |e.topics| >= 1 && e.topics[0] == e.signature
  }

  predicate DistinctKeys(es: seq<Event>) {
    forall i, j :: 0 <= i < j < |es| ==> KeyOf(es[i]) != KeyOf(es[j])
  }

  /** Equal but for the position in the chain. */
  predicate SamePayload(a: Event, b: Event) {
    a.(number := b.number, hash := b.hash, txIndex := b.txIndex) == b
  }

  /** A supplied event agrees with the row, if any, stored under its key. */
  predicate Agrees(rows: map<EventKey, EventRow>, e: Event) {
    KeyOf(e) in rows ==>
      var row := rows[KeyOf(e)];
      if row.canonical then row.event == e else SamePayload(row.event, e)
  }

  function PutEvents(rows: map<EventKey, EventRow>, es: seq<Event>): map<EventKey, EventRow> {
    if es == [] then rows
    else PutEvents(rows, es[..|es| - 1])[KeyOf(es[|es| - 1]) := EventRow(es[|es| - 1], true)]
  }

  function SetOf(es: seq<Event>): set<Event> { set e | e in es }

  /** The checkpoint table after a block has been written: it only moves forward. */
  function Advance(rows: map<Contract, CheckpointRow>, c: Contract, b: Block): map<Contract, CheckpointRow> {
    var p := Point(b.number, b.hash);
    if c !in rows then rows[c := CheckpointRow(p, None, true, None, None)]
    else if rows[c].at.number < b.number then rows[c := rows[c].(at := p)]
    else rows
  }

  /** The tables after the block (unless it is replayed) and its events are written. */
  function PutBlock(db: Db, c: Contract, b: Block, es: seq<Event>, replay: bool): Db {
    db.(blocks := if replay then db.blocks
                  else db.blocks[BlockKey(c, b.number, b.hash) := BlockRow(b.parent, b.timestamp, |es|, true)],
        events := PutEvents(db.events, es),
        checkpoints := Advance(db.checkpoints, c, b))
  }

  predicate BadInput(b: Block, es: seq<Event>) { b.timestamp < 0 || |es| > MAX_EVENTS }

  /** The block and its events are already there, as the top of the chain. */
  ghost predicate Replays(db: Db, c: Contract, b: Block, es: seq<Event>, k: BlockKey)
    requires k in db.blocks
  {
    k.hash == b.hash && db.blocks[k].logCount == |es| && EventsAt(db, c, b.number) == SetOf(es)
  }

  /** Where the write goes: Ok(true) a replay, Ok(false) a new top. */
  ghost function Placement(db: Db, c: Contract, b: Block, es: seq<Event>): Result<bool, StoreError> {
    var existing := CanonicalAt(db, c, b.number);
    if existing.Some? then
      if c in db.checkpoints && b.number < db.checkpoints[c].at.number then Err(OutOfOrder)
      else if !Replays(db, c, b, es, existing.value) then Err(BlockConflict)
      else Ok(true)
    else if c in db.checkpoints
            && (b.number != db.checkpoints[c].at.number + 1 || b.parent != db.checkpoints[c].at.hash) then
      Err(ParentMismatch)
    else Ok(false)
  }

  function DemandAt(db: Db, c: Contract, target: Option<nat>): Db
    requires c in db.checkpoints
  {
    if target.None? then db
    else db.(checkpoints := db.checkpoints[c := Demand(db.checkpoints[c], target.value)])
  }

  ghost function RecordCanonicalBlock(
    db: Db, c: Contract, b: Block, es: seq<Event>, target: Option<nat>, token: Option<Token>): Result<Db, StoreError>
  {
    if !IsSafeInteger(b.number) then Err(BlockNumberUnsupported)
    else if BadInput(b, es) then Err(InvalidBlock)
    else if target.Some? && target.value < b.number then Err(InvalidSyncTarget)
    else if exists e :: e in es && !ValidEvent(e, c, b) then Err(InvalidEvent)
    else if !DistinctKeys(es) then Err(EventConflict)
    else if !Owns(db, c, token) then Err(Superseded)
    else
      match Placement(db, c, b, es)
      case Err(e) => Err(e)
      case Ok(replay) =>
        if exists e :: e in es && !Agrees(db.events, e) then Err(EventConflict)
        else if target.Some? && !IsSafeInteger(target.value) then Err(BlockNumberUnsupported)
        else Ok(DemandAt(PutBlock(db, c, b, es, replay), c, target))
  }

  // ---- rollback -------------------------------------------------------------

  function TombBlocks(rows: map<BlockKey, BlockRow>, c: Contract, n: nat): map<BlockKey, BlockRow> {
    map k | k in rows :: if k.contract == c && n <= k.number then rows[k].(canonical := false) else rows[k]
  }

  function TombEvents(rows: map<EventKey, EventRow>, c: Contract, n: nat): map<EventKey, EventRow> {
    map k | k in rows ::
      if OfContract(rows[k].event, c) && n <= rows[k].event.number then rows[k].(canonical := false) else rows[k]
  }

  predicate Unwinds(op: Operation, c: Contract, n: nat) {
    op.chainId == c.chain && op.target == c.address && op.blockNumber.Some? && n <= op.blockNumber.value
    && RolledBackState(op.state)
  }

  function TombOperations(ops: map<string, Operation>, c: Contract, n: nat): map<string, Operation> {
    map id | id in ops :: if Unwinds(ops[id], c, n) then RolledBack(ops[id]) else ops[id]
  }

  function DropProjections(rows: map<ProjectionKey, ProjectionRow>, c: Contract)
    : map<ProjectionKey, ProjectionRow>
  {
    map k | k in rows && k.contract != c :: rows[k]
  }

  /** The highest canonical block below `n`: ORDER BY block_number DESC LIMIT 1. */
  ghost predicate IsTopBelow(db: Db, c: Contract, n: nat, k: BlockKey) {
    CanonicalKey(db, c, k.number, k) && k.number < n
    && forall other: BlockKey :: CanonicalKey(db, c, other.number, other) && other.number < n ==> other.number <= k.number
  }

  ghost function TopBelow(db: Db, c: Contract, n: nat): Option<BlockKey> {
    if exists k :: IsTopBelow(db, c, n, k) then
      var k :| IsTopBelow(db, c, n, k);
      Some(k)
    else None
  }

  function Rewound(db: Db, c: Contract, n: nat, top: Option<BlockKey>): Db {
    Db(TombBlocks(db.blocks, c, n),
       TombEvents(db.events, c, n),
       if top.None? then db.checkpoints - {c}
       else if c in db.checkpoints then
         db.checkpoints[c := db.checkpoints[c].(at := Point(top.value.number, top.value.hash), projected := None)]
       else db.checkpoints,
       db.leases,
       TombOperations(db.operations, c, n),
       DropProjections(db.projections, c))
  }

  ghost function RollbackFromBlock(db: Db, c: Contract, n: nat, token: Option<Token>): Result<Db, StoreError> {
    if !IsSafeInteger(n) then Err(BlockNumberUnsupported)
    else if !Owns(db, c, token) then Err(Superseded)
    else Ok(Rewound(db, c, n, TopBelow(db, c, n)))
  }

  // ---- projections ----------------------------------------------------------

  function ProjectionKeyOf(p: Projection): ProjectionKey { ProjectionKey(p.contract, p.owner, p.key) }

  predicate IsCheckpoint(db: Db, c: Contract, p: Point) {
    c in db.checkpoints && db.checkpoints[c].at == p && IsCanonical(db, c, p)
  }

  predicate DistinctProjections(ps: seq<Projection>) {
    forall i, j :: 0 <= i < j < |ps| ==> ProjectionKeyOf(ps[i]) != ProjectionKeyOf(ps[j])
  }

  function PutProjections(rows: map<ProjectionKey, ProjectionRow>, ps: seq<Projection>)
    : map<ProjectionKey, ProjectionRow>
  {
    if ps == [] then rows
    else PutProjections(rows, ps[..|ps| - 1])
         [ProjectionKeyOf(ps[|ps| - 1]) := ProjectionRow(ps[|ps| - 1].at, ps[|ps| - 1].state)]
  }

  predicate ProjectionKeyIn(ps: seq<Projection>, k: ProjectionKey) {
    exists q :: q in ps && ProjectionKeyOf(q) == k
  }

  /** What the check of one projection, after those before it, throws. */
  function Fault(db: Db, c: Contract, p: Point, before: seq<Projection>, q: Projection): Option<StoreError> {
    if q.contract != c || p.number < q.at.number || !ValidName(q.key) then Some(InvalidProjection)
    else if !IsCanonical(db, c, q.at) then Some(ProjectionBlockNotCanonical)
    else if ProjectionKeyIn(before, ProjectionKeyOf(q)) then Some(DuplicateProjection)
    else None
  }

  function FirstFault(db: Db, c: Contract, p: Point, ps: seq<Projection>): Option<StoreError> {
    if ps == [] then None
    else
      var earlier := FirstFault(db, c, p, ps[..|ps| - 1]);
      if earlier.Some? then earlier else Fault(db, c, p, ps[..|ps| - 1], ps[|ps| - 1])
  }

  function CommitProjections(db: Db, c: Contract, p: Point, ps: seq<Projection>, token: Option<Token>)
    : Result<Db, StoreError>
  {
    if !IsSafeInteger(p.number) then Err(BlockNumberUnsupported)
    else if !IsCheckpoint(db, c, p) then Err(ProjectionBlockNotCanonical)
    else if FirstFault(db, c, p, ps).Some? then Err(FirstFault(db, c, p, ps).value)
    else if !Owns(db, c, token) then Err(Superseded)
    else Ok(db.(
      projections := PutProjections(DropProjections(db.projections, c), ps),
      checkpoints := db.checkpoints[c := db.checkpoints[c].(projected := Some(p))]))
  }

  lemma {:induction false} FaultFree(db: Db, c: Contract, p: Point, ps: seq<Projection>)
    requires FirstFault(db, c, p, ps).None?
    ensures DistinctProjections(ps)
    ensures forall q :: q in ps ==> q.contract == c && q.at.number <= p.number && IsCanonical(db, c, q.at)
  {
    if ps != [] {
      var n := |ps| - 1;
      FaultFree(db, c, p, ps[..n]);
      assert ps == ps[..n] + [ps[n]];
      forall i | 0 <= i < n ensures ProjectionKeyOf(ps[i]) != ProjectionKeyOf(ps[n]) {
        assert ps[i] in ps[..n];
      }
    }
  }

  datatype Reading = Pending | Unhealthy | Found(row: Option<ProjectionRow>)

  /** What reading one projection answers. */
  function ReadProjection(db: Db, k: ProjectionKey): Reading {
    var c := k.contract;
    if c in db.leases then Unhealthy
    else if c !in db.checkpoints then Found(None)
    else if !db.checkpoints[c].healthy then Unhealthy
    else if db.checkpoints[c].projected != Some(db.checkpoints[c].at) then Pending
    else Found(if k in db.projections then Some(db.projections[k]) else None)
  }

  // ---- operations -----------------------------------------------------------

  predicate SameIdentity(a: Operation, b: Operation) {
    a.id == b.id && a.chainId == b.chainId && a.owner == b.owner && a.target == b.target && a.calldata == b.calldata
  }

  /** Another row already holds the reconciled binding of this transaction. */
  predicate BindingTaken(db: Db, op: Operation) {
    op.txHash.Some? && op.reconciled &&
    exists id :: id in db.operations && id != op.id && db.operations[id].chainId == op.chainId
                 && db.operations[id].txHash == op.txHash && db.operations[id].reconciled
  }

  function SaveOperation(db: Db, op: Operation): Result<Db, StoreError> {
    if !ValidEvidence(op) then Err(InvalidEvidence)
    else if !ValidOperationId(op.id) then Err(InvalidId)
    else if op.id in db.operations
            && (!SameIdentity(db.operations[op.id], op)
                || (db.operations[op.id].txHash.Some? && op.txHash.Some?
                    && db.operations[op.id].txHash != op.txHash)) then Err(IdentityConflict)
    else if op.blockNumber.Some? && !(0 <= op.blockNumber.value && IsSafeInteger(op.blockNumber.value)) then
      Err(BlockNumberUnsupported)
    else if BindingTaken(db, op) then Err(IdentityConflict)
    else Ok(db.(operations := db.operations[op.id := op]))
  }

  function ContractOf(op: Operation): Contract { Contract(op.chainId, op.target) }

  /** The checkpoint is exactly `p`, projected and healthy. */
  predicate SettledAt(db: Db, c: Contract, p: Point) {
    c in db.checkpoints && db.checkpoints[c] == CheckpointRow(p, Some(p), true, None, None)
  }

  function SaveOperationAtCheckpoint(db: Db, op: Operation, expected: Operation, p: Point): Result<Db, StoreError> {
    var c := ContractOf(op);
    if !ValidEvidence(op) then Err(InvalidEvidence)
    else if !SameIdentity(op, expected) || op.txHash != expected.txHash then Err(IdentityConflict)
    else if !Owns(db, c, None) then Err(Superseded)
    else if !SettledAt(db, c, p) then Err(Superseded)
    else if expected.id !in db.operations || db.operations[expected.id] != expected then Err(Superseded)
    else SaveOperation(db, op)
  }
}
