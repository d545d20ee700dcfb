/**
 The chain store as an object: the tables are its fields, and each transaction
 updates them in place or, when it throws, puts back what BEGIN found.
 */
module ChainStore {
  import opened Prelude
  import opened Lifecycle
  import opened ChainTables
  import opened ChainStack

  // ---- supporting facts -----------------------------------------------------

  /** At most one canonical block per height. */
  ghost predicate Unique(rows: map<BlockKey, BlockRow>) {
    forall k, l :: k in rows && l in rows && rows[k].canonical && rows[l].canonical ==>
      k.contract == l.contract && k.number == l.number ==> k == l
  }

  function KeySet(es: seq<Event>): set<EventKey> { set e | e in es :: KeyOf(e) }

  lemma DistinctOneMore(es: seq<Event>)
    requires es != []
    ensures DistinctKeys(es) <==>
            DistinctKeys(es[..|es| - 1]) && forall e :: e in es[..|es| - 1] ==> KeyOf(e) != KeyOf(es[|es| - 1])
  {
    var n := |es| - 1;
    assert forall i :: 0 <= i < n ==> es[..n][i] == es[i];
    forall e | e in es[..n] && KeyOf(e) == KeyOf(es[n]) ensures !DistinctKeys(es) {
      var i :| 0 <= i < n && es[..n][i] == e;
      assert KeyOf(es[i]) == KeyOf(es[n]);
    }
    assert forall i :: 0 <= i < n ==> es[i] in es[..n];
  }

  lemma {:induction false} KeyCount(es: seq<Event>)
    ensures |KeySet(es)| <= |es|
    ensures |KeySet(es)| == |es| <==> DistinctKeys(es)
  {
    if es != [] {
      var n := |es| - 1;
      hide DistinctKeys;
      KeyCount(es[..n]);
      DistinctOneMore(es);
      assert es == es[..n] + [es[n]];
      assert KeySet(es) == KeySet(es[..n]) + {KeyOf(es[n])};
    }
  }

  /** How many of the events had no canonical row before. */
  function CountNew(rows: map<EventKey, EventRow>, es: seq<Event>): nat {
    if es == [] then 0
    else
      var e := es[|es| - 1];
      CountNew(rows, es[..|es| - 1]) + if KeyOf(e) in rows && rows[KeyOf(e)].canonical then 0 else 1
  }

  lemma SameMembers(rows: set<Event>, es: seq<Event>)
    requires DistinctKeys(es)
    ensures rows == SetOf(es) <==> |rows| == |es| && forall e :: e in es ==> e in rows
  {
    SetOfSize(es);
    if |rows| == |es| && forall e :: e in es ==> e in rows {
      SubsetOfSameSize(SetOf(es), rows);
    }
  }

  lemma PrefixKeysDiffer(es: seq<Event>, i: nat)
    requires DistinctKeys(es) && i < |es|
    ensures DistinctKeys(es[..i])
    ensures forall e :: e in es[..i] ==> KeyOf(e) != KeyOf(es[i])
    ensures es[..i + 1][..i] == es[..i] && es[..i + 1][i] == es[i]
  {
    forall e | e in es[..i] ensures KeyOf(e) != KeyOf(es[i]) {
      var j :| 0 <= j < i && es[j] == e;
    }
  }

  predicate IsTop(rows: map<BlockKey, BlockRow>, c: Contract, k: BlockKey) {
    k in rows && k.contract == c && rows[k].canonical
    && forall l :: l in rows && l.contract == c && rows[l].canonical ==> l.number <= k.number
  }

  lemma TombsStayUnique(rows: map<BlockKey, BlockRow>, c: Contract, n: nat)
    requires Unique(rows)
    ensures Unique(TombBlocks(rows, c, n))
  {}

  /** After the tombstones are set, the top of the table is the top below `n` before. */
  lemma TopAfterTombs(db: Db, c: Contract, n: nat)
    requires Unique(db.blocks)
    ensures forall k :: IsTop(TombBlocks(db.blocks, c, n), c, k) <==> TopBelow(db, c, n) == Some(k)
  {
    var rows := TombBlocks(db.blocks, c, n);
    forall k ensures IsTop(rows, c, k) <==> IsTopBelow(db, c, n, k) {
      if IsTopBelow(db, c, n, k) {
        forall l | l in rows && l.contract == c && rows[l].canonical ensures l.number <= k.number {
          assert CanonicalKey(db, c, l.number, l);
        }
      }
      if IsTop(rows, c, k) {
        forall l: BlockKey | CanonicalKey(db, c, l.number, l) && l.number < n ensures l.number <= k.number {
          assert l in rows && rows[l].canonical;
        }
      }
    }
    forall k, l | IsTopBelow(db, c, n, k) && IsTopBelow(db, c, n, l) ensures k == l {
      assert CanonicalKey(db, c, k.number, k) && CanonicalKey(db, c, l.number, l);
    }
  }

  lemma {:induction false} FaultStays(db: Db, c: Contract, p: Point, ps: seq<Projection>, i: nat)
    requires i <= |ps| && FirstFault(db, c, p, ps[..i]).Some?
    ensures FirstFault(db, c, p, ps) == FirstFault(db, c, p, ps[..i])
    decreases |ps| - i
  {
    if i == |ps| {
      assert ps[..i] == ps;
    } else {
      assert ps[..i + 1][..i] == ps[..i];
      FaultStays(db, c, p, ps, i + 1);
    }
  }

  // ---- the ancestry walk ----------------------------------------------------

  /** Exactly the canonical rows of heights a..b-1, in ascending order. */
  ghost predicate IsRange(db: Db, c: Contract, a: nat, b: nat, rows: seq<BlockKey>) {
    && (forall i :: 0 <= i < |rows| ==> a <= rows[i].number < b && CanonicalKey(db, c, rows[i].number, rows[i]))
    && (forall i, j :: 0 <= i < j < |rows| ==> rows[i].number < rows[j].number)
    && (forall k :: k in db.blocks && k.contract == c && db.blocks[k].canonical && a <= k.number < b ==> k in rows)
  }

  /** The row at height n links to the row at height m, just below. */
  ghost predicate Links(db: Db, c: Contract, m: nat, n: nat) {
    exists k, l :: CanonicalKey(db, c, m, k) && CanonicalKey(db, c, n, l) && db.blocks[l].parent == k.hash
  }

  /** A hash-linked path of canonical blocks from `from` through `via` to `to`. */
  ghost predicate Descends(db: Db, c: Contract, from: Point, via: Point, to: Point) {
    && from.number <= via.number <= to.number
    && IsCanonical(db, c, from) && IsCanonical(db, c, via) && IsCanonical(db, c, to)
    && (forall n :: from.number <= n <= to.number ==> CanonicalAt(db, c, n).Some?)
    && (forall m, n :: from.number <= m < n <= to.number && n == m + 1 ==> Links(db, c, m, n))
  }

  /** The first `n` rows sit at consecutive heights, the first is `from`, and each links to the one before. */
  ghost predicate Walked(db: Db, from: Point, rows: seq<BlockKey>, n: nat) {
    n <= |rows|
    && (forall i :: 0 <= i < n ==> rows[i].number == from.number + i)
    && (n > 0 ==> rows[0].hash == from.hash)
    && (forall i, j :: 0 <= i < j < n && j == i + 1 ==> rows[j] in db.blocks && db.blocks[rows[j]].parent == rows[i].hash)
  }

  lemma EmptyWalk(db: Db, from: Point, rows: seq<BlockKey>)
    ensures Walked(db, from, rows, 0)
  {}

  lemma WalkOn(db: Db, c: Contract, from: Point, to: Point, rows: seq<BlockKey>, i: nat)
    requires IsRange(db, c, from.number, to.number + 1, rows) && Walked(db, from, rows, i) && i < |rows|
    requires rows[i].number == from.number + i && (i == 0 ==> rows[i].hash == from.hash)
    requires rows[i] in db.blocks && (i > 0 ==> db.blocks[rows[i]].parent == rows[i - 1].hash)
    ensures Walked(db, from, rows, i + 1)
  {}

  lemma ExtendRange(db: Db, c: Contract, a: nat, n: nat, rows: seq<BlockKey>, k: BlockKey)
    requires Unique(db.blocks) && IsRange(db, c, a, n, rows) && CanonicalKey(db, c, n, k) && a <= n
    ensures IsRange(db, c, a, n + 1, rows + [k])
  {
    forall l | l in db.blocks && l.contract == c && db.blocks[l].canonical && a <= l.number < n + 1
      ensures l in rows + [k]
    {
      assert l.number < n ==> l in rows;
    }
  }

  /** A gap, a wrong first hash or a wrong parent means there is no such path. */
  lemma BrokenWalk(db: Db, c: Contract, from: Point, via: Point, to: Point, rows: seq<BlockKey>, i: nat)
    requires Unique(db.blocks) && from.number <= to.number
    requires IsRange(db, c, from.number, to.number + 1, rows) && Walked(db, from, rows, i) && i < |rows|
    requires rows[i].number != from.number + i || (i == 0 && rows[i].hash != from.hash)
             || (i > 0 && db.blocks[rows[i]].parent != rows[i - 1].hash)
    ensures !Descends(db, c, from, via, to)
  {
    var n := from.number + i;
    if rows[i].number != n {
      assert i > 0 ==> rows[i - 1].number < rows[i].number;
      MissingHeight(db, c, from, to, rows, i);
      assert CanonicalAt(db, c, n).None?;
    } else if i == 0 {
      assert !IsCanonical(db, c, from);
    } else {
      assert rows[i - 1].number == n - 1;
      assert !Links(db, c, n - 1, n);
    }
  }

  lemma MissingHeight(db: Db, c: Contract, from: Point, to: Point, rows: seq<BlockKey>, i: nat)
    requires from.number + i <= to.number
    requires IsRange(db, c, from.number, to.number + 1, rows) && Walked(db, from, rows, i)
    requires i < |rows| ==> rows[i].number != from.number + i
    ensures CanonicalAt(db, c, from.number + i).None?
  {
    var n := from.number + i;
    forall j | 0 <= j < |rows| ensures rows[j].number != n {
      if i < j { HeightsGrow(db, c, from, to, rows, i, j); }
    }
    assert forall k :: k in rows ==> k.number != n;
  }

  lemma HeightsGrow(db: Db, c: Contract, from: Point, to: Point, rows: seq<BlockKey>, i: nat, j: nat)
    requires IsRange(db, c, from.number, to.number + 1, rows) && Walked(db, from, rows, i) && i < j < |rows|
    ensures rows[j].number > from.number + i
  {
    assert rows[i].number < rows[j].number;
    if i > 0 { assert rows[i - 1].number < rows[i].number; }
  }

  /** A walk to the end of the rows decides the question by what it counted. */
  lemma FinishedWalk(db: Db, c: Contract, from: Point, via: Point, to: Point, rows: seq<BlockKey>)
    requires Unique(db.blocks) && from.number <= via.number <= to.number
    requires IsRange(db, c, from.number, to.number + 1, rows) && Walked(db, from, rows, |rows|)
    ensures Descends(db, c, from, via, to) <==>
            |rows| == to.number - from.number + 1
            && rows[via.number - from.number].hash == via.hash && rows[|rows| - 1].hash == to.hash
  {
    var count := to.number - from.number + 1;
    assert |rows| > 0 ==> rows[|rows| - 1].number == from.number + |rows| - 1;
    if |rows| < count {
      MissingHeight(db, c, from, to, rows, |rows|);
    } else {
      assert |rows| == count;
      WholeWalk(db, c, from, via, to, rows);
    }
  }

  lemma WalkIsLinked(db: Db, c: Contract, from: Point, to: Point, rows: seq<BlockKey>)
    requires Unique(db.blocks) && from.number <= to.number
    requires IsRange(db, c, from.number, to.number + 1, rows) && Walked(db, from, rows, |rows|)
    requires |rows| == to.number - from.number + 1
    ensures forall n :: from.number <= n <= to.number ==>
              CanonicalKey(db, c, n, rows[n - from.number]) && CanonicalAt(db, c, n).Some?
    ensures forall m, n :: from.number <= m < n <= to.number && n == m + 1 ==> Links(db, c, m, n)
  {
    forall n | from.number <= n <= to.number
      ensures CanonicalKey(db, c, n, rows[n - from.number]) && CanonicalAt(db, c, n).Some?
    {
      assert rows[n - from.number].number == n;
    }
    forall m, n | from.number <= m < n <= to.number && n == m + 1 ensures Links(db, c, m, n) {
      assert CanonicalKey(db, c, m, rows[m - from.number]) && CanonicalKey(db, c, n, rows[n - from.number]);
    }
  }

  lemma WholeWalk(db: Db, c: Contract, from: Point, via: Point, to: Point, rows: seq<BlockKey>)
    requires Unique(db.blocks) && from.number <= via.number <= to.number
    requires IsRange(db, c, from.number, to.number + 1, rows) && Walked(db, from, rows, |rows|)
    requires |rows| == to.number - from.number + 1
    ensures Descends(db, c, from, via, to) <==>
            rows[via.number - from.number].hash == via.hash && rows[|rows| - 1].hash == to.hash
  {
    WalkIsLinked(db, c, from, to, rows);
    hide Walked, IsRange, Links;
    forall p: Point | from.number <= p.number <= to.number
      ensures IsCanonical(db, c, p) <==> rows[p.number - from.number].hash == p.hash
    {
      var k := rows[p.number - from.number];
      assert CanonicalKey(db, c, p.number, k);
    }
  }

  // ---- product evidence -----------------------------------------------------

  datatype Reconciliation = ReconciliationPending | Matched | Failed
  datatype Milestone = MilestonePending | Ready | Stale
  datatype ChainStatus = StatusPending | Included | SoftReady | StatusReorged | StatusFailed
  datatype IndexerStatus = Healthy | Syncing | Degraded

  datatype Evidence = Evidence(
    lifecycle: State, receipt: Option<Receipt>, receiptCanonical: bool, confirmations: int,
    reconciliation: Reconciliation, projection: Milestone, chainStatus: ChainStatus, indexer: IndexerStatus,
    degradedReason: Option<SyncError>, productReady: bool)

  const MAX_ANCESTRY := 2000

  function ReconciliationOf(op: Operation): Reconciliation {
    if op.state.ReconciliationFailed? then Failed else if op.reconciled then Matched else ReconciliationPending
  }

  function ChainStatusOf(s: State): ChainStatus {
    match s
    case AwaitingSignature => StatusPending
    case Submitted => StatusPending
    case Mined => Included
    case Confirming => Included
    case Confirmed => SoftReady
    case Reorged => StatusReorged
    case _ => StatusFailed
  }

  /** The error sync health reports; a held lease reads as an incomplete sync. */
  function HealthError(db: Db, c: Contract): Option<SyncError> {
    if c in db.leases then Some(Incomplete)
    else if c in db.checkpoints then db.checkpoints[c].error
    else None
  }

  function IndexerOf(db: Db, c: Contract): IndexerStatus {
    if c !in db.checkpoints then Syncing
    else if SyncHealthy(db, c) then Healthy
    else if HealthError(db, c) != Some(Incomplete) then Degraded
    else Syncing
  }

  /** The path check that decides between a ready and a stale projection. */
  ghost predicate Ancestry(db: Db, op: Operation, row: ProjectionRow, top: Point) {
    && op.canonical && op.blockNumber.Some? && op.blockHash.Some? && 0 <= op.blockNumber.value
    && op.blockNumber.value <= row.at.number <= top.number
    && top.number - op.blockNumber.value + 1 <= MAX_ANCESTRY
    && Descends(db, ContractOf(op), Point(op.blockNumber.value, op.blockHash.value), row.at, top)
  }

  ghost function MilestoneOf(db: Db, op: Operation, reading: Option<ProjectionRow>): Milestone {
    var c := ContractOf(op);
    if op.state.Reorged? || IndexerOf(db, c).Degraded? then Stale
    else if !IndexerOf(db, c).Healthy? || reading.None? then MilestonePending
    else if Ancestry(db, op, reading.value, db.checkpoints[c].at) then Ready
    else Stale
  }

  function Summary(db: Db, op: Operation, milestone: Milestone): Evidence {
    var indexer := IndexerOf(db, ContractOf(op));
    var error := HealthError(db, ContractOf(op));
    Evidence(op.state, op.receipt, op.receipt.Some? && op.canonical, op.confirmations, ReconciliationOf(op), milestone,
             ChainStatusOf(op.state), indexer, if error == Some(Incomplete) then None else error,
             op.state.Confirmed? && op.canonical && ReconciliationOf(op).Matched? && milestone.Ready? && indexer.Healthy?)
  }

  /** Whether answering has to read the projection, which throws while it is pending. */
  predicate ReadsProjection(db: Db, op: Operation) {
    !op.state.Reorged? && IndexerOf(db, ContractOf(op)).Healthy?
  }

  ghost function EvidenceOf(db: Db, id: string, key: string): Result<Option<Evidence>, StoreError> {
    if id !in db.operations then Ok(None)
    else
      var op := db.operations[id];
      var reading := ReadProjection(db, ProjectionKey(ContractOf(op), op.owner, key));
      if !ReadsProjection(db, op) then Ok(Some(Summary(db, op, MilestoneOf(db, op, None))))
      else if !reading.Found? then Err(ProjectionPending)
      else Ok(Some(Summary(db, op, MilestoneOf(db, op, reading.row))))
  }

  class Store {
    var blocks: map<BlockKey, BlockRow>
    var events: map<EventKey, EventRow>
    var checkpoints: map<Contract, CheckpointRow>
    var leases: map<Contract, LeaseRow>
    var operations: map<string, Operation>
    var projections: map<ProjectionKey, ProjectionRow>

    function State(): Db
      reads this
    {
      Db(blocks, events, checkpoints, leases, operations, projections)
    }

    ghost predicate Valid()
      reads this
    {
      Unique(blocks)
    }

    constructor ()
      ensures Valid() && State() == EMPTY
    {
      blocks, events, checkpoints, leases, operations, projections := map[], map[], map[], map[], map[], map[];
    }

    method CanonicalBlock(c: Contract, n: nat) returns (r: Option<Block>)
      requires Valid()
      ensures r == match CanonicalAt(State(), c, n) case None => None case Some(k) => Some(BlockOf(State(), k))
    {
      if exists k :: k in blocks && k.contract == c && k.number == n && blocks[k].canonical {
        var k :| k in blocks && k.contract == c && k.number == n && blocks[k].canonical;
        assert CanonicalKey(State(), c, n, k);
        r := Some(Block(k.number, k.hash, blocks[k].parent, blocks[k].timestamp));
      } else {
        r := None;
      }
    }

    method Checkpoint(c: Contract) returns (r: Option<Point>)
      ensures r == if c in checkpoints then Some(checkpoints[c].at) else None
    {
      r := if c in checkpoints then Some(checkpoints[c].at) else None;
    }

    method ProjectionCheckpoint(c: Contract) returns (r: Option<Point>)
      ensures r == if c in checkpoints then checkpoints[c].projected else None
    {
      r := if c in checkpoints then checkpoints[c].projected else None;
    }

    method ClaimSync(c: Contract, target: nat, token: Token) returns (r: Result<(), StoreError>)
      requires Valid()
      modifies this
      ensures Valid()
      ensures match ChainTables.ClaimSync(old(State()), c, target, token)
              case Ok(db) => r.Ok? && State() == db
              case Err(e) => r == Err(e) && State() == old(State())
    {
      if !ValidToken(token) { return Err(InvalidSyncOwner); }
      if !IsSafeInteger(target) { return Err(BlockNumberUnsupported); }
      var existing: int := if c in leases then leases[c].target else -1;
      var checkpoint: int :=
        if c in checkpoints && checkpoints[c].target.Some? then checkpoints[c].target.value else -1;
      if target < Max(existing, checkpoint) { return Err(TargetBehind); }
      leases := leases[c := LeaseRow(token, target)];
      if c in checkpoints {
        checkpoints := checkpoints[c := Demand(checkpoints[c], target)];
      }
      r := Ok(());
    }

    method MarkSyncUnhealthy(c: Contract, error: SyncError, target: Option<nat>, token: Option<Token>)
      returns (r: Result<(), StoreError>)
      requires Valid()
      modifies this
      ensures Valid()
      ensures match ChainTables.MarkSyncUnhealthy(old(State()), c, error, target, token)
              case Ok(db) => r.Ok? && State() == db
              case Err(e) => r == Err(e) && State() == old(State())
    {
      if error.Incomplete? != target.Some? { return Err(InvalidSyncHealth); }
      if target.Some? && !IsSafeInteger(target.value) { return Err(BlockNumberUnsupported); }
      if !Owns(State(), c, token) { return Err(Superseded); }
      if c !in checkpoints { return Err(CheckpointNotFound); }
      if error.Incomplete? {
        checkpoints := checkpoints[c := Demand(checkpoints[c], target.value)];
      } else {
        checkpoints := checkpoints[c := checkpoints[c].(healthy := false, error := Some(error), target := None)];
        if token.Some? {
          leases := leases - {c};
        } else {
          assert leases - {c} == leases;
        }
      }
      r := Ok(());
    }

    method MarkSyncHealthy(c: Contract, completed: nat, token: Option<Token>) returns (r: Result<bool, StoreError>)
      requires Valid()
      modifies this
      ensures Valid()
      ensures match ChainTables.MarkSyncHealthy(old(State()), c, completed, token)
              case Ok((db, done)) => r == Ok(done) && State() == db
              case Err(e) => r == Err(e) && State() == old(State())
    {
      if !IsSafeInteger(completed) { return Err(BlockNumberUnsupported); }
      if !Owns(State(), c, token) { return Err(Superseded); }
      var changed := c in checkpoints && Completes(checkpoints[c], completed);
      if changed {
        checkpoints := checkpoints[c := checkpoints[c].(healthy := true, error := None, target := None)];
        if token.Some? {
          leases := leases - {c};
        } else {
          assert leases - {c} == leases;
        }
      }
      r := Ok(changed);
    }

    method ReleaseSyncIncomplete(c: Contract, target: nat, token: Token) returns (r: Result<(), StoreError>)
      requires Valid()
      modifies this
      ensures Valid()
      ensures match ChainTables.ReleaseSyncIncomplete(old(State()), c, target, token)
              case Ok(db) => r.Ok? && State() == db
              case Err(e) => r == Err(e) && State() == old(State())
    {
      if !IsSafeInteger(target) { return Err(BlockNumberUnsupported); }
      if !Owns(State(), c, Some(token)) { return Err(Superseded); }
      if c !in checkpoints { return Err(CheckpointNotFound); }
      checkpoints := checkpoints[c := Demand(checkpoints[c], target)];
      leases := leases - {c};
      r := Ok(());
    }

    /** The checks made before the transaction begins. */
    method CheckSupplied(c: Contract, b: Block, es: seq<Event>, target: Option<nat>) returns (e: Option<StoreError>)
      ensures e == if !IsSafeInteger(b.number) then Some(BlockNumberUnsupported)
                   else if BadInput(b, es) then Some(InvalidBlock)
                   else if target.Some? && target.value < b.number then Some(InvalidSyncTarget)
                   else if exists x :: x in es && !ValidEvent(x, c, b) then Some(InvalidEvent)
                   else if !DistinctKeys(es) then Some(EventConflict)
                   else None
    {
      if !IsSafeInteger(b.number) { return Some(BlockNumberUnsupported); }
      if b.timestamp < 0 || |es| > MAX_EVENTS { return Some(InvalidBlock); }
      if target.Some? && target.value < b.number { return Some(InvalidSyncTarget); }
      var identities: set<EventKey> := {};
      for i := 0 to |es|
        invariant forall x :: x in es[..i] ==> ValidEvent(x, c, b)
        invariant identities == KeySet(es[..i])
      {
        if !ValidEvent(es[i], c, b) {
          assert es[i] in es;
          return Some(InvalidEvent);
        }
        assert es[..i + 1] == es[..i] + [es[i]];
        identities := identities + {KeyOf(es[i])};
      }
      assert es[..|es|] == es;
      KeyCount(es);
      return if |identities| != |es| then Some(EventConflict) else None;
    }

    /** The replay comparison: same hash, same count, same events. */
    method IsReplay(c: Contract, b: Block, es: seq<Event>, k: BlockKey) returns (ok: bool)
      requires k in blocks && DistinctKeys(es)
      ensures ok == Replays(State(), c, b, es, k)
    {
      var rows := EventsAt(State(), c, b.number);
      SameMembers(rows, es);
      if k.hash != b.hash || blocks[k].logCount != |es| || |rows| != |es| { return false; }
      for i := 0 to |es|
        invariant forall x :: x in es[..i] ==> x in rows
      {
        if es[i] !in rows { return false; }
        assert es[..i + 1] == es[..i] + [es[i]];
      }
      assert es[..|es|] == es;
      return true;
    }

    /** Writes the events one by one; a conflicting one stops the loop. */
    method WriteEvents(es: seq<Event>) returns (ok: bool, inserted: nat)
      requires DistinctKeys(es)
      modifies `events
      ensures ok <==> forall e :: e in es ==> Agrees(old(events), e)
      ensures ok ==> events == PutEvents(old(events), es) && inserted == CountNew(old(events), es)
    {
      inserted := 0;
      for i := 0 to |es|
        invariant forall e :: e in es[..i] ==> Agrees(old(events), e)
        invariant events == PutEvents(old(events), es[..i])
        invariant inserted == CountNew(old(events), es[..i])
      {
        var item := es[i];
        PrefixKeysDiffer(es, i);
        PutEventsAt(old(events), es[..i]);
        assert es[..i + 1] == es[..i] + [item];
        if KeyOf(item) in events {
          var row := events[KeyOf(item)];
          if !Agrees(events, item) {
            assert item in es;
            return false, inserted;
          }
          if !row.canonical {
            events := events[KeyOf(item) := EventRow(item, true)];
            inserted := inserted + 1;
          }
        } else {
          events := events[KeyOf(item) := EventRow(item, true)];
          inserted := inserted + 1;
        }
      }
      assert es[..|es|] == es;
      ok := true;
    }

    /** Decides between a replay and a new top, and writes the block row of a new top. */
    method PlaceBlock(c: Contract, b: Block, es: seq<Event>) returns (r: Result<bool, StoreError>)
      requires Valid() && DistinctKeys(es)
      modifies `blocks
      ensures Valid()
      ensures r == Placement(old(State()), c, b, es)
      ensures r.Ok? ==> blocks == PutBlock(old(State()), c, b, es, r.value).blocks
      ensures r.Err? ==> blocks == old(blocks)
    {
      if exists k :: k in blocks && k.contract == c && k.number == b.number && blocks[k].canonical {
        var k :| k in blocks && k.contract == c && k.number == b.number && blocks[k].canonical;
        assert CanonicalKey(State(), c, b.number, k);
        if c in checkpoints && b.number < checkpoints[c].at.number { return Err(OutOfOrder); }
        var replay := IsReplay(c, b, es, k);
        r := if replay then Ok(true) else Err(BlockConflict);
      } else {
        if c in checkpoints
           && (b.number != checkpoints[c].at.number + 1 || b.parent != checkpoints[c].at.hash) {
          return Err(ParentMismatch);
        }
        blocks := blocks[BlockKey(c, b.number, b.hash) := BlockRow(b.parent, b.timestamp, |es|, true)];
        r := Ok(false);
      }
    }

    method AdvanceCheckpoint(c: Contract, b: Block)
      modifies `checkpoints
      ensures checkpoints == Advance(old(checkpoints), c, b)
    {
      if c !in checkpoints {
        checkpoints := checkpoints[c := CheckpointRow(Point(b.number, b.hash), None, true, None, None)];
      } else if checkpoints[c].at.number < b.number {
        checkpoints := checkpoints[c := checkpoints[c].(at := Point(b.number, b.hash))];
      }
    }

    method RecordCanonicalBlock(c: Contract, b: Block, es: seq<Event>, target: Option<nat>, token: Option<Token>)
      returns (r: Result<nat, StoreError>)
      requires Valid()
      modifies this
      ensures Valid()
      ensures match ChainTables.RecordCanonicalBlock(old(State()), c, b, es, target, token)
              case Ok(db) => r == Ok(CountNew(old(events), es)) && State() == db
              case Err(e) => r == Err(e) && State() == old(State())
    {
      var bad := CheckSupplied(c, b, es, target);
      if bad.Some? { return Err(bad.value); }
      if !Owns(State(), c, token) { return Err(Superseded); }
      var blocks0, events0 := blocks, events;
      var placed := PlaceBlock(c, b, es);
      if placed.Err? { return Err(placed.error); }
      var ok, inserted := WriteEvents(es);
      if !ok || (target.Some? && !IsSafeInteger(target.value)) {
        blocks, events := blocks0, events0;
        return Err(if !ok then EventConflict else BlockNumberUnsupported);
      }
      AdvanceCheckpoint(c, b);
      if target.Some? {
        checkpoints := checkpoints[c := Demand(checkpoints[c], target.value)];
      }
      r := Ok(inserted);
    }

    /** The checkpoint falls back to the top that is left, or goes with the last block. */
    method RestoreCheckpoint(ghost db: Db, c: Contract, ghost n: nat)
      requires Unique(db.blocks) && blocks == TombBlocks(db.blocks, c, n) && checkpoints == db.checkpoints
      modifies `checkpoints
      ensures checkpoints == Rewound(db, c, n, TopBelow(db, c, n)).checkpoints
    {
      TopAfterTombs(db, c, n);
      if top :| top in blocks && IsTop(blocks, c, top) {
        if c in checkpoints {
          checkpoints := checkpoints[c := checkpoints[c].(at := Point(top.number, top.hash), projected := None)];
        }
      } else {
        assert TopBelow(db, c, n).None?;
        checkpoints := checkpoints - {c};
      }
    }

    method RollbackFromBlock(c: Contract, n: nat, token: Option<Token>) returns (r: Result<nat, StoreError>)
      requires Valid()
      modifies this
      ensures Valid()
      ensures match ChainTables.RollbackFromBlock(old(State()), c, n, token)
              case Ok(db) =>
                State() == db
                && r == Ok(|set k | k in old(blocks) && k.contract == c && n <= k.number && old(blocks)[k].canonical|)
              case Err(e) => r == Err(e) && State() == old(State())
    {
      if !IsSafeInteger(n) { return Err(BlockNumberUnsupported); }
      if !Owns(State(), c, token) { return Err(Superseded); }
      ghost var db := State();
      TombsStayUnique(blocks, c, n);
      hide Unique, TombBlocks, TombEvents, TombOperations, DropProjections;
      var changed := set k | k in blocks && k.contract == c && n <= k.number && blocks[k].canonical;
      blocks := TombBlocks(blocks, c, n);
      events := TombEvents(events, c, n);
      operations := TombOperations(operations, c, n);
      projections := DropProjections(projections, c);
      RestoreCheckpoint(db, c, n);
      r := Ok(|changed|);
    }

    /** Checks the projections one by one, before the transaction. */
    method CheckProjections(c: Contract, p: Point, ps: seq<Projection>) returns (e: Option<StoreError>)
      ensures e == FirstFault(State(), c, p, ps)
    {
      for i := 0 to |ps|
        invariant FirstFault(State(), c, p, ps[..i]).None?
      {
        assert ps[..i + 1][..i] == ps[..i];
        e := Fault(State(), c, p, ps[..i], ps[i]);
        if e.Some? {
          FaultStays(State(), c, p, ps, i + 1);
          return e;
        }
      }
      assert ps[..|ps|] == ps;
      e := None;
    }

    method InsertProjections(ps: seq<Projection>)
      modifies `projections
      ensures projections == PutProjections(old(projections), ps)
    {
      for i := 0 to |ps|
        invariant projections == PutProjections(old(projections), ps[..i])
      {
        assert ps[..i + 1][..i] == ps[..i];
        projections := projections[ProjectionKeyOf(ps[i]) := ProjectionRow(ps[i].at, ps[i].state)];
      }
      assert ps[..|ps|] == ps;
    }

    method CommitProjections(c: Contract, p: Point, ps: seq<Projection>, token: Option<Token>)
      returns (r: Result<(), StoreError>)
      requires Valid()
      modifies this
      ensures Valid()
      ensures match ChainTables.CommitProjections(old(State()), c, p, ps, token)
              case Ok(db) => r.Ok? && State() == db
              case Err(e) => r == Err(e) && State() == old(State())
    {
      if !IsSafeInteger(p.number) { return Err(BlockNumberUnsupported); }
      if !IsCheckpoint(State(), c, p) { return Err(ProjectionBlockNotCanonical); }
      var fault := CheckProjections(c, p, ps);
      if fault.Some? { return Err(fault.value); }
      if !Owns(State(), c, token) { return Err(Superseded); }
      projections := DropProjections(projections, c);
      InsertProjections(ps);
      checkpoints := checkpoints[c := checkpoints[c].(projected := Some(p))];
      r := Ok(());
    }

    method SaveOperation(op: Operation) returns (r: Result<(), StoreError>)
      requires Valid()
      modifies this
      ensures Valid()
      ensures match ChainTables.SaveOperation(old(State()), op)
              case Ok(db) => r.Ok? && State() == db
              case Err(e) => r == Err(e) && State() == old(State())
    {
      if !ValidEvidence(op) { return Err(InvalidEvidence); }
      if !ValidOperationId(op.id) { return Err(InvalidId); }
      if op.id in operations {
        var previous := operations[op.id];
        if !SameIdentity(previous, op) || (previous.txHash.Some? && op.txHash.Some? && previous.txHash != op.txHash) {
          return Err(IdentityConflict);
        }
      }
      if op.blockNumber.Some? && !(0 <= op.blockNumber.value && IsSafeInteger(op.blockNumber.value)) {
        return Err(BlockNumberUnsupported);
      }
      if BindingTaken(State(), op) { return Err(IdentityConflict); }
      operations := operations[op.id := op];
      r := Ok(());
    }

    method SaveOperationAtCheckpoint(op: Operation, expected: Operation, p: Point) returns (r: Result<(), StoreError>)
      requires Valid()
      modifies this
      ensures Valid()
      ensures match ChainTables.SaveOperationAtCheckpoint(old(State()), op, expected, p)
              case Ok(db) => r.Ok? && State() == db
              case Err(e) => r == Err(e) && State() == old(State())
    {
      if !ValidEvidence(op) { return Err(InvalidEvidence); }
      if !SameIdentity(op, expected) || op.txHash != expected.txHash { return Err(IdentityConflict); }
      var c := ContractOf(op);
      if !Owns(State(), c, None) || !SettledAt(State(), c, p) { return Err(Superseded); }
      if expected.id !in operations || operations[expected.id] != expected { return Err(Superseded); }
      r := SaveOperation(op);
    }

    // ---- product evidence ---------------------------------------------------

    /** SELECT the canonical rows at heights first..last in order. */
    method CanonicalRange(c: Contract, first: nat, last: nat) returns (rows: seq<BlockKey>)
      requires Valid() && first <= last
      ensures IsRange(State(), c, first, last + 1, rows)
    {
      rows := [];
      for n := first to last + 1
        invariant IsRange(State(), c, first, n, rows)
      {
        if exists k :: k in blocks && k.contract == c && k.number == n && blocks[k].canonical {
          var k :| k in blocks && k.contract == c && k.number == n && blocks[k].canonical;
          ExtendRange(State(), c, first, n, rows, k);
          rows := rows + [k];
        }
      }
    }

    /** The walk over the blocks from `from` to `to`, looking for `via` on the way. */
    method AncestryHolds(c: Contract, from: Point, via: Point, to: Point) returns (holds: bool)
      requires Valid() && from.number <= via.number <= to.number
      ensures holds <==> Descends(State(), c, from, via, to)
    {
      hide Descends, Walked, Unique;
      var rows := CanonicalRange(c, from.number, to.number);
      var expected := to.number - from.number + 1;
      var observed, witnessed := 0, false;
      var previous: Option<Hash> := None;
      holds := true;
      EmptyWalk(State(), from, rows);
      while observed < |rows|
        invariant observed <= |rows|
        invariant Walked(State(), from, rows, observed)
        invariant observed == 0 ==> previous.None?
        invariant observed > 0 ==> previous == Some(rows[observed - 1].hash)
        invariant witnessed <==> via.number < from.number + observed && rows[via.number - from.number].hash == via.hash
        decreases |rows| - observed
      {
        var k := rows[observed];
        if k.number != from.number + observed
           || (observed == 0 && k.hash != from.hash)
           || (previous.Some? && blocks[k].parent != previous.value) {
          BrokenWalk(State(), c, from, via, to, rows, observed);
          return false;
        }
        WalkOn(State(), c, from, to, rows, observed);
        if k.number == via.number {
          witnessed := k.hash == via.hash;
        }
        previous := Some(k.hash);
        observed := observed + 1;
      }
      FinishedWalk(State(), c, from, via, to, rows);
      holds := observed == expected && witnessed && previous.Some? && previous.value == to.hash;
    }

    method OperationEvidence(id: string, key: string) returns (r: Result<Option<Evidence>, StoreError>)
      requires Valid()
      requires id in operations && operations[id].blockNumber.Some? ==> 0 <= operations[id].blockNumber.value
      ensures r == EvidenceOf(State(), id, key)
    {
      if id !in operations { return Ok(None); }
      var op := operations[id];
      var c := ContractOf(op);
      var milestone := MilestonePending;
      if op.state.Reorged? || IndexerOf(State(), c).Degraded? {
        milestone := Stale;
      } else if IndexerOf(State(), c).Healthy? {
        var reading := ReadProjection(State(), ProjectionKey(c, op.owner, key));
        if !reading.Found? { return Err(ProjectionPending); }
        if reading.row.Some? {
          var row, top := reading.row.value, checkpoints[c].at;
          var holds := op.canonical && op.blockNumber.Some? && op.blockHash.Some?
                       && op.blockNumber.value <= row.at.number <= top.number
                       && top.number - op.blockNumber.value + 1 <= MAX_ANCESTRY;
          if holds {
            holds := AncestryHolds(c, Point(op.blockNumber.value, op.blockHash.value), row.at, top);
          }
          milestone := if holds then Ready else Stale;
        }
      }
      r := Ok(Some(Summary(State(), op, milestone)));
    }
  }
}
