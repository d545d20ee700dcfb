/**
 The synchronizer: claim the lease, rewind to the fork, repair the projection,
 record the missing blocks one by one, and settle. Between two awaits other
 callers may change operations; the lease keeps everything else still.
 */
module ChainSync {
  import opened Prelude
  import opened Lifecycle
  import opened ChainTables
  import opened ChainStack
  import opened ChainRemote
  import C = ChainStore

  datatype Failure =
    | Transport | ChainIdMismatch | HeadUnavailable | HeadBeforeDeployment | RangeExceeded | SyncTargetBehind
    | SyncSuperseded | ReorgDepthExceeded | ReorgNoCommonAncestor | BlockUnavailable | BlockMismatch
    | LogMismatch | RebuildFailed | StoreFault(error: StoreError)

  /** What stops a run before or at its claim. */
  predicate OnlyBefore(f: Failure) { f in {ChainIdMismatch, HeadUnavailable, HeadBeforeDeployment, SyncTargetBehind} }

  /** What stops the block loop. */
  predicate InLoop(f: Failure) {
    f.StoreFault? || f in {Transport, BlockUnavailable, BlockMismatch, LogMismatch, RebuildFailed}
  }

  /** The store's tables for `c` are a stack that starts at the deployment block. */
  ghost predicate Based(db: Db, c: Contract, deployment: nat, s: Stack) {
    Represents(db, c, s) && (!IsEmpty(s) ==> s.lo == deployment && IsSafeInteger(s.hi - 1))
  }

  /** The session holds the lease for `goal`, and an existing checkpoint demands exactly that. */
  ghost predicate Holding(db: Db, c: Contract, token: Token, goal: nat) {
    && c in db.leases && db.leases[c] == LeaseRow(token, goal)
    && (c in db.checkpoints ==>
          !db.checkpoints[c].healthy && db.checkpoints[c].error == Some(Incomplete)
          && db.checkpoints[c].target == Some(goal))
  }

  predicate ProjectedTop(db: Db, c: Contract) {
    c in db.checkpoints ==> db.checkpoints[c].projected == Some(db.checkpoints[c].at)
  }

  lemma ClaimHolds(db: Db, c: Contract, goal: nat, token: Token, deployment: nat, s: Stack)
    requires Based(db, c, deployment, s) && ClaimSync(db, c, goal, token).Ok?
    ensures Based(ClaimSync(db, c, goal, token).value, c, deployment, s)
    ensures Holding(ClaimSync(db, c, goal, token).value, c, token, goal)
  {
    SameChainRepresents(db, ClaimSync(db, c, goal, token).value, c, s);
  }

  lemma OperationsDoNotMatter(db: Db, ops: map<string, Operation>, c: Contract, deployment: nat, s: Stack)
    requires Based(db, c, deployment, s)
    ensures Based(db.(operations := ops), c, deployment, s)
  {
    SameChainRepresents(db, db.(operations := ops), c, s);
  }

  lemma RollbackHolds(db: Db, c: Contract, n: nat, token: Token, goal: nat, deployment: nat, s: Stack)
    requires Based(db, c, deployment, s) && Holding(db, c, token, goal) && IsSafeInteger(n)
    ensures var r := RollbackFromBlock(db, c, n, Some(token));
            r.Ok? && Based(r.value, c, deployment, Truncate(s, n)) && Holding(r.value, c, token, goal)
  {
    RollbackIsTruncation(db, c, s, n, Some(token));
  }

  lemma CommitHolds(db: Db, c: Contract, p: Point, ps: seq<Projection>, token: Token, goal: nat, deployment: nat, s: Stack)
    requires Based(db, c, deployment, s) && Holding(db, c, token, goal)
    requires CommitProjections(db, c, p, ps, Some(token)).Ok?
    ensures var db' := CommitProjections(db, c, p, ps, Some(token)).value;
            Based(db', c, deployment, s) && Holding(db', c, token, goal) && ProjectedTop(db', c) && db'.events == db.events
  {
    SameChainRepresents(db, CommitProjections(db, c, p, ps, Some(token)).value, c, s);
  }

  lemma TopIsCheckpoint(db: Db, c: Contract, s: Stack)
    requires Represents(db, c, s)
    ensures c in db.checkpoints <==> !IsEmpty(s)
    ensures !IsEmpty(s) ==> s.hi - 1 in s.at && db.checkpoints[c].at == Point(s.hi - 1, Top(s).block.hash)
  {}

  /** The height the synchronizer records next. */
  function Next(s: Stack, deployment: nat): nat { if IsEmpty(s) then deployment else s.hi }

  lemma RecordHolds(db: Db, c: Contract, b: Block, es: seq<Event>, token: Token, goal: nat, deployment: nat, s: Stack)
    requires Based(db, c, deployment, s) && Holding(db, c, token, goal) && b.number == Next(s, deployment)
    requires RecordCanonicalBlock(db, c, b, es, Some(goal), Some(token)).Ok?
    ensures var db' := RecordCanonicalBlock(db, c, b, es, Some(goal), Some(token)).value;
            Based(db', c, deployment, Push(s, b, SetOf(es))) && Holding(db', c, token, goal)
  {
    RecordIsPush(db, c, s, b, es, Some(goal), Some(token));
    RecordKeepsHolding(db, c, b, es, token, goal);
    assert Placement(db, c, b, es) == Ok(false);
  }

  lemma RecordKeepsHolding(db: Db, c: Contract, b: Block, es: seq<Event>, token: Token, goal: nat)
    requires Holding(db, c, token, goal)
    requires RecordCanonicalBlock(db, c, b, es, Some(goal), Some(token)).Ok?
    ensures Holding(RecordCanonicalBlock(db, c, b, es, Some(goal), Some(token)).value, c, token, goal)
  {}

  lemma HolderIsNotSuperseded(db: Db, c: Contract, b: Block, es: seq<Event>, token: Token, goal: nat)
    requires Holding(db, c, token, goal)
    ensures RecordCanonicalBlock(db, c, b, es, Some(goal), Some(token)) != Err(Superseded)
  {}

  lemma SafeHeights(db: Db, c: Contract, deployment: nat, s: Stack)
    requires Based(db, c, deployment, s) && !IsEmpty(s)
    ensures IsSafeInteger(s.hi - 1) && deployment == s.lo
  {}

  /** What a run reports. */
  datatype Report = Report(scanned: nat, inserted: nat, reorged: nat)

  /** The events of the entries from height `lo` up to below `hi`. */
  ghost function EventsBetween(s: Stack, lo: nat, hi: nat): nat
    decreases hi
  {
    if hi <= lo then 0
    else EventsBetween(s, lo, hi - 1) + if hi - 1 in s.at then |s.at[hi - 1].events| else 0
  }

  lemma EventsOneMore(s: Stack, lo: nat, n: nat)
    requires lo <= n && n in s.at
    ensures EventsBetween(s, lo, n + 1) == EventsBetween(s, lo, n) + |s.at[n].events|
  {}

  lemma NoEvents(s: Stack, lo: nat)
    ensures EventsBetween(s, lo, lo) == 0
  {}

  lemma {:induction false} EventsStay(s: Stack, t: Stack, lo: nat, hi: nat)
    requires forall n :: lo <= n < hi ==> n in s.at && n in t.at && t.at[n] == s.at[n]
    ensures EventsBetween(s, lo, hi) == EventsBetween(t, lo, hi)
    decreases hi
  {
    if lo < hi { EventsStay(s, t, lo, hi - 1); }
  }

  /** Every event of a new block is counted as inserted. */
  lemma {:induction false} NewIsInserted(db: Db, c: Contract, s: Stack, b: Block, all: seq<Event>, es: seq<Event>)
    requires Represents(db, c, s) && Recordable(db, c, b, all, false) && forall e :: e in es ==> e in all
    ensures C.CountNew(db.events, es) == |es|
  {
    hide Represents, Recordable;
    if es != [] {
      var n := |es| - 1;
      NewIsInserted(db, c, s, b, all, es[..n]);
      PushedEventsAreNew(db, c, s, b, all, es[n]);
    }
  }

  lemma RecordInserts(db: Db, c: Contract, b: Block, es: seq<Event>, token: Token, goal: nat, deployment: nat, s: Stack)
    requires Based(db, c, deployment, s) && b.number == Next(s, deployment)
    requires RecordCanonicalBlock(db, c, b, es, Some(goal), Some(token)).Ok?
    ensures C.CountNew(db.events, es) == |SetOf(es)|
  {
    RecordIsPush(db, c, s, b, es, Some(goal), Some(token));
    assert Recordable(db, c, b, es, false);
    NewIsInserted(db, c, s, b, es, es);
    SetOfSize(es);
  }

  class Synchronizer {
    const store: C.Store
    const rpc: Rpc
    const c: Contract
    const deployment: nat
    const limit: nat
    const maxBlocks: nat

    constructor (store: C.Store, rpc: Rpc, c: Contract, deployment: nat, limit: nat, maxBlocks: nat)
      requires 1 <= limit <= 10000 && 1 <= maxBlocks <= 100000
      ensures this.store == store && this.rpc == rpc && this.c == c && this.deployment == deployment
              && this.limit == limit && this.maxBlocks == maxBlocks
    {
      this.store, this.rpc, this.c := store, rpc, c;
      this.deployment, this.limit, this.maxBlocks := deployment, limit, maxBlocks;
    }

    ghost predicate Ready(s: Stack)
      reads store
    {
      store.Valid() && Based(store.State(), c, deployment, s)
    }

    ghost predicate InRun(token: Token, goal: nat, s: Stack)
      reads store
    {
      Ready(s) && Holding(store.State(), c, token, goal)
    }

    /** The node is reliable, what it offers fits the store, and nothing stored contradicts it. */
    ghost predicate Cooperative()
      reads store`events
    {
      rpc.reliable && Sound(rpc, c, deployment) && Consistent(store.events, rpc, c, deployment)
    }

    /** What other callers may do at an await: save operations. */
    method Await(ghost s: Stack)
      requires Ready(s)
      modifies store`operations
      ensures Ready(s)
    {
      ghost var db := store.State();
      store.operations := *;
      OperationsDoNotMatter(db, store.operations, c, deployment, s);
    }

    /** The same at an await of a run: nothing else about the run changes. */
    method AwaitInRun(ghost token: Token, ghost goal: nat, ghost s: Stack)
      requires InRun(token, goal, s)
      modifies store`operations
      ensures InRun(token, goal, s)
    {
      hide Based;
      Await(s);
    }

    /** The rewind succeeds: the highest common block is deep enough in reach and not below deployment. */
    ghost predicate ForkInReach(s: Stack) {
      exists n :: Common(s, rpc.remote, n) && deployment <= n && s.hi - 1 - n <= limit
    }

    /** `kept` is exactly the part of `s` that agrees with the remote chain. */
    ghost predicate KeepsCommonPrefix(s: Stack, kept: Stack) {
      && !IsEmpty(kept) && kept.lo == s.lo && kept == Truncate(s, kept.hi)
      && AllCommon(kept, rpc.remote)
      && (forall n :: n in s.at && kept.hi <= n ==> !Common(s, rpc.remote, n))
    }

    /** Compares the local and the remote block at one height. */
    method Probe(n: nat, ghost token: Token, ghost goal: nat, ghost s: Stack) returns (r: Result<bool, Failure>)
      requires InRun(token, goal, s)
      modifies store`operations, rpc
      ensures InRun(token, goal, s) && rpc.queries == old(rpc.queries) + 1
      ensures rpc.fixed && r.Ok? ==> n in rpc.remote && (r.value <==> Common(s, rpc.remote, n))
      ensures r == Ok(true) ==> n in s.at
      ensures rpc.reliable && n in rpc.remote ==> r.Ok?
      ensures rpc.reliable && n !in rpc.remote ==> r == Err(BlockUnavailable)
      ensures r.Err? ==> r.error in {Transport, BlockUnavailable}
    {
      var local := store.CanonicalBlock(c, n);
      CanonicalAtIs(store.State(), c, s, n);
      var remote := rpc.BlockAt(n);
      Await(s);
      if remote.Broken? { return Err(Transport); }
      if remote.value.None? { return Err(BlockUnavailable); }
      r := Ok(local.Some? && local.value.hash == remote.value.value.hash);
    }

    method RollBack(n: nat, token: Token, ghost goal: nat, ghost s: Stack) returns (done: nat)
      requires InRun(token, goal, s) && IsSafeInteger(n)
      modifies store
      ensures InRun(token, goal, Truncate(s, n)) && done == s.hi - Truncate(s, n).hi
      ensures old(Cooperative()) ==> Cooperative()
    {
      ghost var db := store.State();
      RowsAbove(db, c, s, n);
      if Cooperative() { TombKeepsConsistent(store.events, rpc, c, deployment, n); }
      RollbackHolds(db, c, n, token, goal, deployment, s);
      ghost var after := RollbackFromBlock(db, c, n, Some(token));
      assert after.Ok? && Based(after.value, c, deployment, Truncate(s, n)) && Holding(after.value, c, token, goal);
      var r := store.RollbackFromBlock(c, n, Some(token));
      assert store.State() == after.value;
      done := r.value;
    }

    /** The failures of a search that found no common block, as the store records them. */
    predicate IsReorgFailure(f: Failure) { f.ReorgDepthExceeded? || f.ReorgNoCommonAncestor? }

    /**
     The lease is given back and the failure recorded: the checkpoint keeps its block and its
     projection, demands nothing, and says why it is unhealthy.
     */
    ghost predicate GaveUp(f: Failure, before: map<Contract, CheckpointRow>)
      reads store
    {
      && IsReorgFailure(f) && c in before && c !in store.leases && c in store.checkpoints
      && store.checkpoints[c] == CheckpointRow(
           before[c].at, before[c].projected, false,
           Some(if f.ReorgDepthExceeded? then DepthExceeded else NoCommonAncestor), None)
    }

    /** Records that no common block was found; `candidate` is where the search ended. */
    method GiveUp(candidate: int, token: Token, ghost goal: nat, ghost s: Stack) returns (f: Failure)
      requires InRun(token, goal, s) && !IsEmpty(s)
      modifies store
      ensures Ready(s)
      ensures f == if candidate >= deployment then ReorgDepthExceeded else ReorgNoCommonAncestor
      ensures GaveUp(f, old(store.checkpoints))
    {
      ghost var db := store.State();
      TopIsCheckpoint(db, c, s);
      var failure := if candidate >= deployment then DepthExceeded else NoCommonAncestor;
      var marked := store.MarkSyncUnhealthy(c, failure, None, Some(token));
      SameChainRepresents(db, store.State(), c, s);
      f := if candidate >= deployment then ReorgDepthExceeded else ReorgNoCommonAncestor;
    }

    /** How a run stands when it fails after the claim: given up, or still holding its lease. */
    ghost predicate Failed(f: Failure, token: Token, goal: nat, s: Stack, before: map<Contract, CheckpointRow>)
      reads store
    {
      if IsReorgFailure(f) then Ready(s) && GaveUp(f, before) else InRun(token, goal, s)
    }

    /** What the search leaves: the stack above the highest common block is gone. */
    ghost predicate Rewound(s: Stack, kept: Stack) {
      rpc.fixed ==> if IsEmpty(s) then kept == s else KeepsCommonPrefix(s, kept)
    }

    /** No block of `s` above height `n` agrees with the remote one. */
    ghost predicate DiffersAbove(s: Stack, n: int) {
      forall m :: m in s.at && n < m ==> !Common(s, rpc.remote, m)
    }

    lemma CutIsCommonPrefix(s: Stack, n: nat)
      requires Ready(s) && n in s.at
      requires rpc.fixed ==> RemoteChain(rpc.remote) && Named(s, rpc.remote) && Common(s, rpc.remote, n)
                             && DiffersAbove(s, n)
      ensures Rewound(s, Truncate(s, n + 1))
    {
      if rpc.fixed { CommonPrefix(s, rpc.remote, n); }
    }

    /** What the search found out, against a fixed chain. */
    ghost predicate Searched(s: Stack, found: bool, candidate: int) {
      && (found ==> candidate in s.at && deployment <= candidate < s.hi - 1 && s.hi - 1 - candidate <= limit)
      && (!found ==> candidate == Max(s.hi - 2 - limit, deployment - 1))
      && (rpc.fixed ==> DiffersAbove(s, candidate) && (found ==> Common(s, rpc.remote, candidate)))
    }

    lemma SearchDecides(s: Stack, found: bool, candidate: int)
      requires rpc.fixed && Searched(s, found, candidate)
      ensures found <==> ForkInReach(s)
    {}

    /** Steps down from the top until the local and the remote block agree, or the search ends. */
    method FindCommon(top: nat, ghost token: Token, ghost goal: nat, ghost s: Stack)
      returns (r: Result<bool, Failure>, candidate: int)
      requires InRun(token, goal, s) && top == s.hi - 1
      requires deployment <= top && (rpc.fixed ==> DiffersAbove(s, top - 1))
      requires rpc.reliable ==> rpc.fixed && RemoteChain(rpc.remote) && top in rpc.remote
      modifies store`operations, rpc
      ensures InRun(token, goal, s) && rpc.queries <= old(rpc.queries) + limit
      ensures rpc.reliable ==> r.Ok?
      ensures r.Ok? ==> Searched(s, r.value, candidate)
      ensures r.Err? ==> r.error in {Transport, BlockUnavailable}
    {
      var searched := 1;
      candidate := top - 1;
      while candidate >= deployment && searched <= limit
        invariant InRun(token, goal, s) && 1 <= searched <= limit + 1 && candidate == top - searched
        invariant rpc.queries == old(rpc.queries) + searched - 1 && deployment - 1 <= candidate
        invariant rpc.fixed ==> DiffersAbove(s, candidate)
        decreases candidate
      {
        var same := Probe(candidate, token, goal, s);
        if same.Err? { return Err(same.error), candidate; }
        if same.value { return Ok(true), candidate; }
        candidate, searched := candidate - 1, searched + 1;
      }
      r := Ok(false);
    }

    /** The search below the top, and what is done with its outcome. */
    method Search(top: nat, token: Token, ghost goal: nat, ghost s: Stack) returns (r: Result<nat, Failure>, ghost kept: Stack)
      requires InRun(token, goal, s) && !IsEmpty(s) && top == s.hi - 1 && IsSafeInteger(top) && deployment <= top
      requires rpc.fixed ==> RemoteChain(rpc.remote) && Named(s, rpc.remote) && DiffersAbove(s, top - 1)
      requires rpc.reliable ==> rpc.fixed && top in rpc.remote
      modifies store, rpc
      ensures rpc.queries <= old(rpc.queries) + limit
      ensures r.Ok? ==> r.value == s.hi - kept.hi
      ensures r.Ok? ==> InRun(token, goal, kept) && Rewound(s, kept) && (old(Cooperative()) ==> Cooperative())
      ensures r.Err? ==> kept == s && Failed(r.error, token, goal, s, old(store.checkpoints))
      ensures r.Err? ==> IsReorgFailure(r.error) || r.error in {Transport, BlockUnavailable}
      ensures rpc.reliable ==> (r.Ok? <==> ForkInReach(s))
      ensures rpc.reliable && r.Err? ==>
                r.error == if top - 1 - limit >= deployment then ReorgDepthExceeded else ReorgNoCommonAncestor
    {
      hide Represents, RemoteChain, Named, Sound, Consistent;
      var found, candidate := FindCommon(top, token, goal, s);
      if found.Err? { return Err(found.error), s; }
      if rpc.fixed { SearchDecides(s, found.value, candidate); }
      if found.value {
        CutIsCommonPrefix(s, candidate);
        kept := Truncate(s, candidate + 1);
        var done := RollBack(candidate + 1, token, goal, s);
        return Ok(done), kept;
      }
      var failure := GiveUp(candidate, token, goal, s);
      r, kept := Err(failure), s;
    }

    lemma TopIsLast(s: Stack)
      requires Ready(s) && !IsEmpty(s)
      ensures DiffersAbove(s, s.hi - 1) && Truncate(s, s.hi) == s && s.hi - 1 in s.at && deployment <= s.hi - 1
      ensures !Common(s, rpc.remote, s.hi - 1) ==> DiffersAbove(s, s.hi - 2)
      ensures Common(s, rpc.remote, s.hi - 1) ==> ForkInReach(s)
      ensures ForkInReach(s) && !Common(s, rpc.remote, s.hi - 1) ==> deployment <= s.hi - 2
    {}

    /**
     Against a fixed remote chain the rewind keeps exactly the longest common
     prefix, or fails; and when every answer comes it succeeds exactly when the
     fork is in reach, after at most limit + 1 remote blocks.
     */
    method Rewind(token: Token, ghost goal: nat, ghost s: Stack) returns (r: Result<nat, Failure>, ghost kept: Stack)
      requires InRun(token, goal, s)
      requires rpc.fixed ==> RemoteChain(rpc.remote) && Named(s, rpc.remote)
      requires rpc.reliable ==> rpc.fixed
      modifies store, rpc
      ensures rpc.queries <= old(rpc.queries) + limit + 1
      ensures r.Ok? ==> r.value == s.hi - kept.hi
      ensures r.Ok? ==> InRun(token, goal, kept) && Rewound(s, kept) && (old(Cooperative()) ==> Cooperative())
      ensures r.Err? ==> kept == s && Failed(r.error, token, goal, s, old(store.checkpoints))
      ensures r.Err? ==> IsReorgFailure(r.error) || r.error in {Transport, BlockUnavailable}
      ensures rpc.reliable ==> (r.Ok? <==> Reaches(s))
      ensures rpc.reliable && r.Err? ==> r.error == RewindObstacle(s)
    {
      hide Sound, Consistent, RemoteChain, Named, Represents, DiffersAbove;
      TopIsCheckpoint(store.State(), c, s);
      var checkpoint := store.Checkpoint(c);
      if checkpoint.None? { return Ok(0), s; }
      SafeHeights(store.State(), c, deployment, s);
      TopIsLast(s);
      var top := checkpoint.value;
      var same := Probe(top.number, token, goal, s);
      if same.Err? { return Err(same.error), s; }
      if same.value {
        assert rpc.fixed ==> Common(s, rpc.remote, top.number);
        CutIsCommonPrefix(s, top.number);
        return Ok(0), s;
      }
      r, kept := Search(top.number, token, goal, s);
    }

    /** Everything the local stack and the remote chain share is known to agree. */
    ghost predicate Agreed(s: Stack) {
      rpc.fixed ==> RemoteChain(rpc.remote) && Named(s, rpc.remote) && AllCommon(s, rpc.remote)
    }

    ghost predicate IsTop(s: Stack, p: Point) { s.lo < s.hi && s.hi - 1 in s.at && p == Point(s.hi - 1, Top(s).block.hash) }

    lemma ProjectionIsAccepted(p: Point, token: Token, goal: nat, s: Stack)
      requires InRun(token, goal, s) && Cooperative() && AllCommon(s, rpc.remote) && IsTop(s, p)
      ensures CommitProjections(store.State(), c, p, rpc.ViewsOf(p.number), Some(token)).Ok?
    {
      CommitIsAccepted(store.State(), s, rpc, c, deployment, token);
      hide CommitProjections, Represents, Sound, Consistent, AllCommon;
    }

    method RebuildProjection(p: Point, token: Token, ghost goal: nat, ghost s: Stack) returns (ok: bool)
      requires InRun(token, goal, s)
      modifies store
      ensures InRun(token, goal, s) && store.events == old(store.events)
      ensures ok ==> ProjectedTop(store.State(), c)
      ensures old(Cooperative()) && AllCommon(s, rpc.remote) && IsTop(s, p) ==> ok
    {
      hide CommitProjections, Based, Holding, Sound, Consistent, AllCommon, IsTop, ProjectedTop;
      var answer := rpc.Rebuild(p);
      AwaitInRun(token, goal, s);
      if answer.Broken? { return false; }
      ghost var db := store.State();
      if Cooperative() && AllCommon(s, rpc.remote) && IsTop(s, p) { ProjectionIsAccepted(p, token, goal, s); }
      ghost var after := CommitProjections(db, c, p, answer.value, Some(token));
      if after.Ok? { CommitHolds(db, c, p, answer.value, token, goal, deployment, s); }
      var r := store.CommitProjections(c, p, answer.value, Some(token));
      ok := r.Ok?;
    }

    method RecoverProjection(token: Token, ghost goal: nat, ghost s: Stack) returns (ok: bool)
      requires InRun(token, goal, s)
      modifies store
      ensures InRun(token, goal, s) && store.events == old(store.events)
      ensures ok ==> ProjectedTop(store.State(), c)
      ensures old(Cooperative()) && AllCommon(s, rpc.remote) ==> ok
    {
      TopIsCheckpoint(store.State(), c, s);
      var checkpoint := store.Checkpoint(c);
      if checkpoint.None? { return true; }
      var projected := store.ProjectionCheckpoint(c);
      if projected == checkpoint { return true; }
      var block := store.CanonicalBlock(c, checkpoint.value.number);
      CanonicalAtIs(store.State(), c, s, checkpoint.value.number);
      if block.None? || block.value.hash != checkpoint.value.hash { return false; }
      ok := RebuildProjection(checkpoint.value, token, goal, s);
    }

    /** Keeps the logs that decode; one that does not belong to the block stops the run. */
    method DecodeLogs(logs: seq<Log>, b: Block) returns (r: Result<seq<Event>, Failure>)
      ensures r == if forall l :: l in logs ==> Belongs(l, c, b) then Ok(Decoded(logs, c)) else Err(LogMismatch)
    {
      var events: seq<Event> := [];
      for i := 0 to |logs|
        invariant events == Decoded(logs[..i], c) && forall l :: l in logs[..i] ==> Belongs(l, c, b)
      {
        assert logs[..i + 1] == logs[..i] + [logs[i]];
        var e := logs[i].event;
        if e.address != c.address || e.number != b.number || e.hash != b.hash || e.removed {
          assert logs[i] in logs;
          return Err(LogMismatch);
        }
        if logs[i].decodes {
          events := events + [e.(chain := c.chain)];
        }
      }
      assert logs[..|logs|] == logs;
      r := Ok(events);
    }

    /** The remote chain has the next block on top of a local chain that agrees with it. */
    ghost predicate Continues(number: nat, s: Stack)
      reads store`events
    {
      Cooperative() && AllCommon(s, rpc.remote) && number == Next(s, deployment) && number in rpc.remote
    }

    /** The remote chain goes on where a local chain that agrees with it ends. */
    lemma RemoteGoesOn(number: nat, s: Stack)
      requires Ready(s) && Continues(number, s)
      ensures rpc.remote[number].number == number
      ensures c in store.checkpoints ==> rpc.remote[number].parent == store.checkpoints[c].at.hash
      ensures forall l :: l in rpc.LogsOf(number) ==> Belongs(l, c, rpc.remote[number])
    {
      TopIsCheckpoint(store.State(), c, s);
      assert LogsFit(rpc.LogsOf(number), c, rpc.remote[number]);
      if !IsEmpty(s) { assert Common(s, rpc.remote, s.hi - 1); }
    }

    /** Asks for one block and checks that it continues the local chain. */
    method FetchHeader(number: nat, ghost token: Token, ghost goal: nat, ghost s: Stack)
      returns (r: Result<Block, Failure>)
      requires InRun(token, goal, s)
      modifies store`operations, rpc
      ensures InRun(token, goal, s)
      ensures r.Ok? ==> r.value.number == number
      ensures r.Ok? && rpc.fixed ==> number in rpc.remote && r.value == rpc.remote[number]
      ensures Continues(number, s) ==> r.Ok?
      ensures r.Err? ==> r.error in {Transport, BlockUnavailable, BlockMismatch}
    {
      if Continues(number, s) { RemoteGoesOn(number, s); }
      hide Based, Holding, Continues;
      var current := rpc.BlockAt(number);
      AwaitInRun(token, goal, s);
      if current.Broken? { return Err(Transport); }
      if current.value.None? { return Err(BlockUnavailable); }
      var b := current.value.value;
      if b.number != number { return Err(BlockMismatch); }
      var previous := store.Checkpoint(c);
      if previous.Some? && b.parent != previous.value.hash { return Err(BlockMismatch); }
      r := Ok(b);
    }

    /** Asks for one block and its logs and checks that they continue the local chain. */
    method FetchBlock(number: nat, ghost token: Token, ghost goal: nat, ghost s: Stack)
      returns (r: Result<(Block, seq<Event>), Failure>)
      requires InRun(token, goal, s) && (rpc.reliable ==> rpc.fixed)
      modifies store`operations, rpc
      ensures InRun(token, goal, s)
      ensures r.Ok? ==> r.value.0.number == number
      ensures r.Ok? && rpc.fixed ==> number in rpc.remote && r.value.0 == rpc.remote[number]
      ensures r.Ok? && rpc.reliable ==> r.value.1 == Decoded(rpc.LogsOf(number), c)
      ensures Continues(number, s) ==> r.Ok?
      ensures r.Err? ==> r.error in {Transport, BlockUnavailable, BlockMismatch, LogMismatch}
    {
      if Continues(number, s) { RemoteGoesOn(number, s); }
      hide Based, Holding, Sound, Consistent, AllCommon, Belongs, Decoded;
      var header := FetchHeader(number, token, goal, s);
      if header.Err? { return Err(header.error); }
      var logs := rpc.Logs(number);
      AwaitInRun(token, goal, s);
      if logs.Broken? { return Err(Transport); }
      var events := DecodeLogs(logs.value, header.value);
      if events.Err? { return Err(events.error); }
      r := Ok((header.value, events.value));
    }

    /** The block and its events are what the remote chain has next. */
    ghost predicate Offered(s: Stack, b: Block, es: seq<Event>) {
      && AllCommon(s, rpc.remote) && b.number in rpc.remote && b == rpc.remote[b.number]
      && es == Decoded(rpc.LogsOf(b.number), c)
    }

    lemma OfferIsAccepted(b: Block, es: seq<Event>, token: Token, goal: nat, s: Stack)
      requires InRun(token, goal, s) && b.number == Next(s, deployment)
      requires Cooperative() && Offered(s, b, es) && b.number <= goal && IsSafeInteger(goal)
      ensures var r := RecordCanonicalBlock(store.State(), c, b, es, Some(goal), Some(token));
              r.Ok? && Consistent(r.value.events, rpc, c, deployment)
    {
      hide RecordCanonicalBlock, Represents, Sound, Consistent, AllCommon, Decoded;
      assert deployment <= b.number by { NextIsAbove(s); }
      RecordIsAccepted(store.State(), s, rpc, c, deployment, b.number, goal, token);
      RecordedEvents(store.State(), c, b, es, Some(goal), Some(token));
      PutKeepsConsistent(store.events, rpc, c, deployment, b.number);
    }

    lemma NextIsAbove(s: Stack)
      requires Ready(s)
      ensures deployment <= Next(s, deployment)
    {}

    /** Stores the block; nothing changes when the store refuses it. */
    method StoreBlock(b: Block, es: seq<Event>, token: Token, goal: nat, ghost s: Stack) returns (r: Result<nat, Failure>)
      requires InRun(token, goal, s) && b.number == Next(s, deployment)
      modifies store
      ensures r.Ok? ==> InRun(token, goal, Push(s, b, SetOf(es))) && r.value == |SetOf(es)|
      ensures old(Cooperative()) && Offered(s, b, es) && b.number <= goal && IsSafeInteger(goal) ==> r.Ok? && Cooperative()
      ensures r.Err? ==> InRun(token, goal, s) && r.error.StoreFault?
    {
      ghost var db := store.State();
      HolderIsNotSuperseded(db, c, b, es, token, goal);
      if Cooperative() && Offered(s, b, es) && b.number <= goal && IsSafeInteger(goal) {
        OfferIsAccepted(b, es, token, goal, s);
      }
      hide RecordCanonicalBlock, Represents, Sound, Consistent, AllCommon, Decoded;
      if RecordCanonicalBlock(db, c, b, es, Some(goal), Some(token)).Ok? {
        RecordHolds(db, c, b, es, token, goal, deployment, s);
        RecordInserts(db, c, b, es, token, goal, deployment, s);
      }
      var recorded := store.RecordCanonicalBlock(c, b, es, Some(goal), Some(token));
      r := if recorded.Ok? then Ok(recorded.value) else Err(StoreFault(recorded.error));
    }

    lemma PushAgrees(b: Block, es: set<Event>, s: Stack)
      requires Linked(s) && Agreed(s) && b.number == Next(s, deployment)
      requires rpc.fixed ==> b.number in rpc.remote && b == rpc.remote[b.number]
      ensures Agreed(Push(s, b, es)) && IsTop(Push(s, b, es), Point(b.number, b.hash))
      ensures !IsEmpty(Push(s, b, es)) && Push(s, b, es).hi == b.number + 1
    {
      hide AllCommon, Named, RemoteChain;
      if rpc.fixed { PushCommon(s, rpc.remote, b.number, es); }
    }

    /** `t` has every entry of `s`. */
    ghost predicate Extends(s: Stack, t: Stack) { forall n :: n in s.at ==> n in t.at && t.at[n] == s.at[n] }

    lemma PushExtends(b: Block, es: set<Event>, s: Stack)
      requires Linked(s) && b.number == Next(s, deployment)
      ensures Extends(s, Push(s, b, es))
    {}

    /** Undoing a push leaves the entries there were. */
    lemma UndoneIsBefore(b: Block, es: set<Event>, s: Stack)
      requires Linked(s) && Agreed(s) && b.number == Next(s, deployment)
      ensures Truncate(Push(s, b, es), b.number).at == s.at && Agreed(Truncate(Push(s, b, es), b.number))
    {
      assert forall n :: n in s.at ==> n < b.number;
    }

    /** One turn of the block loop: fetch, record, rebuild, and undo when the rebuild fails. */
    method RecordNext(number: nat, token: Token, goal: nat, ghost s: Stack)
      returns (r: Result<nat, Failure>, ghost s': Stack)
      requires InRun(token, goal, s) && Agreed(s) && number == Next(s, deployment) && (rpc.reliable ==> rpc.fixed)
      modifies store, rpc
      ensures InRun(token, goal, s')
      ensures old(Cooperative()) && number in rpc.remote && number <= goal && IsSafeInteger(goal) ==> r.Ok? && Cooperative()
      ensures r.Ok? ==> InRun(token, goal, s') && Agreed(s') && ProjectedTop(store.State(), c)
                        && !IsEmpty(s') && s'.hi == number + 1
      ensures Extends(s, s') && Agreed(s') && (r.Err? ==> s'.at == s.at)
      ensures r.Ok? ==> number in s'.at && r.value == |s'.at[number].events|
      ensures r.Err? ==> InLoop(r.error)
    {
      hide Represents, Sound, Consistent, AllCommon, RemoteChain, Named, Decoded, Linked, Holding, ProjectedTop;
      s' := s;
      ReadyIsLinked(s);
      var fetched := FetchBlock(number, token, goal, s);
      if fetched.Err? { return Err(fetched.error), s; }
      var (b, events) := fetched.value;
      var stored := StoreBlock(b, events, token, goal, s);
      if stored.Err? { return Err(stored.error), s; }
      s' := Push(s, b, SetOf(events));
      PushAgrees(b, SetOf(events), s);
      PushExtends(b, SetOf(events), s);
      UndoneIsBefore(b, SetOf(events), s);
      var built := RebuildProjection(Point(b.number, b.hash), token, goal, s');
      if !built {
        SafeHeights(store.State(), c, deployment, s');
        var undone := RollBack(number, token, goal, s');
        return Err(RebuildFailed), Truncate(s', number);
      }
      r := Ok(stored.value);
    }

    /** The lease is released; a met goal leaves a settled checkpoint, a partial one keeps its demand. */
    ghost predicate Finished(head: nat, goal: nat, s: Stack)
      reads store
    {
      && Ready(s) && s.lo < s.hi && s.hi - 1 in s.at && c !in store.leases
      && var top := Point(s.hi - 1, Top(s).block.hash);
         c in store.checkpoints
         && store.checkpoints[c] == if head < goal then CheckpointRow(top, Some(top), false, Some(Incomplete), Some(goal))
                                    else CheckpointRow(top, Some(top), true, None, None)
    }

    method Finish(head: nat, goal: nat, token: Token, ghost s: Stack) returns (r: Result<(), Failure>)
      requires InRun(token, goal, s) && ProjectedTop(store.State(), c) && !IsEmpty(s) && head < s.hi
      requires head <= goal && IsSafeInteger(goal)
      modifies store
      ensures r.Ok? && Finished(head, goal, s) && store.events == old(store.events)
    {
      ghost var db := store.State();
      TopIsCheckpoint(db, c, s);
      if head < goal {
        var released := store.ReleaseSyncIncomplete(c, goal, token);
        SameChainRepresents(db, store.State(), c, s);
        r := match released case Ok(_) => Ok(()) case Err(e) => Err(StoreFault(e));
      } else {
        var marked := store.MarkSyncHealthy(c, head, Some(token));
        SameChainRepresents(db, store.State(), c, s);
        r := match marked
          case Ok(done) => if done then Ok(()) else Err(SyncSuperseded)
          case Err(e) => Err(StoreFault(e));
      }
    }

    /** The checks before the claim. */
    method CheckHead(head: nat, goal: nat, ghost s: Stack) returns (e: Option<Failure>)
      requires Ready(s)
      modifies store`operations, rpc
      ensures Ready(s)
      ensures e.None? ==> deployment <= head <= goal
      ensures e.None? && rpc.fixed ==> head in rpc.remote
      ensures e.Some? ==> OnlyBefore(e.value) || e.value in {Transport, BlockMismatch}
      ensures rpc.reliable && RemoteChain(rpc.remote) ==>
                e == if head < deployment then Some(HeadBeforeDeployment) else if goal < head then Some(SyncTargetBehind)
                     else if head !in rpc.remote then Some(HeadUnavailable) else None
    {
      var matches := rpc.ChainMatches();
      Await(s);
      if matches.Broken? { return Some(Transport); }
      if !matches.value { return Some(ChainIdMismatch); }
      if head < deployment { return Some(HeadBeforeDeployment); }
      if goal < head { return Some(SyncTargetBehind); }
      var remoteHead := rpc.BlockAt(head);
      Await(s);
      if remoteHead.Broken? { return Some(Transport); }
      if remoteHead.value.None? { return Some(HeadUnavailable); }
      if remoteHead.value.value.number != head { return Some(BlockMismatch); }
      e := None;
    }

    /** The contract's checkpoint has not moved and its projection is the same. */
    ghost predicate SamePlace(before: map<Contract, CheckpointRow>)
      reads store
    {
      && (c in before <==> c in store.checkpoints)
      && (c in before ==> store.checkpoints[c].at == before[c].at && store.checkpoints[c].projected == before[c].projected)
    }

    /** Why a claim is refused. */
    function ClaimFault(goal: nat, token: Token): Failure {
      if !ValidToken(token) then StoreFault(InvalidSyncOwner)
      else if !IsSafeInteger(goal) then StoreFault(BlockNumberUnsupported)
      else SyncTargetBehind
    }

    method Claim(goal: nat, token: Token, ghost s: Stack) returns (r: Result<(), Failure>)
      requires Ready(s)
      modifies store
      ensures r.Ok? <==> ValidToken(token) && IsSafeInteger(goal) && old(Outstanding(store.State(), c)) <= goal
      ensures r.Ok? ==> InRun(token, goal, s) && store.events == old(store.events)
      ensures r.Ok? ==> SamePlace(old(store.checkpoints))
      ensures r.Err? ==> store.State() == old(store.State())
      ensures r.Err? ==> Ready(s) && r.error == ClaimFault(goal, token)
      ensures r.Err? ==> (r.error.SyncTargetBehind? || r.error.StoreFault?)
    {
      ghost var db := store.State();
      if ClaimSync(db, c, goal, token).Ok? { ClaimHolds(db, c, goal, token, deployment, s); }
      var claimed := store.ClaimSync(c, goal, token);
      if claimed.Err? {
        return Err(if claimed.error.TargetBehind? then SyncTargetBehind else StoreFault(claimed.error));
      }
      r := Ok(());
    }

    /** The block loop from the local top up to `head`. */
    method RecordUpTo(head: nat, token: Token, goal: nat, ghost kept: Stack)
      returns (r: Result<nat, Failure>, ghost s: Stack)
      requires InRun(token, goal, kept) && Agreed(kept) && ProjectedTop(store.State(), c)
      requires Next(kept, deployment) <= head && (rpc.reliable ==> rpc.fixed)
      modifies store, rpc
      ensures InRun(token, goal, s)
      ensures old(Cooperative()) && head in rpc.remote && head <= goal && IsSafeInteger(goal) ==> r.Ok? && Cooperative()
      ensures r.Ok? ==> InRun(token, goal, s) && Agreed(s) && ProjectedTop(store.State(), c)
                        && !IsEmpty(s) && s.hi == head + 1
      ensures Extends(kept, s) && Agreed(s)
      ensures r.Ok? ==> r.value == EventsBetween(s, Next(kept, deployment), head + 1)
      ensures r.Err? ==> InLoop(r.error)
    {
      hide Represents, Sound, Consistent, AllCommon, RemoteChain, Named, Linked, Holding, ProjectedTop, EventsBetween;
      s := kept;
      var start := deployment;
      TopIsCheckpoint(store.State(), c, s);
      if rpc.fixed && head in rpc.remote {
        forall m | 0 <= m <= head ensures m in rpc.remote { LowerIsRemote(rpc.remote, m, head); }
      }
      var checkpoint := store.Checkpoint(c);
      if checkpoint.Some? { start := checkpoint.value.number + 1; }
      var inserted := 0;
      NoEvents(s, start);
      for number := start to head + 1
        invariant InRun(token, goal, s) && Agreed(s) && ProjectedTop(store.State(), c)
        invariant Next(s, deployment) == number
        invariant number > start ==> !IsEmpty(s)
        invariant Extends(kept, s) && (forall n :: start <= n < number ==> n in s.at)
        invariant inserted == EventsBetween(s, start, number)
        invariant old(Cooperative()) && head in rpc.remote && head <= goal && IsSafeInteger(goal) ==> Cooperative()
      {
        var one;
        ghost var before := s;
        one, s := RecordNext(number, token, goal, s);
        EventsStay(before, s, start, number);
        if one.Err? { return Err(one.error), s; }
        EventsOneMore(s, start, number);
        inserted := inserted + one.value;
      }
      r := Ok(inserted);
    }

    /** The checks before the claim and the claim itself pass. */
    ghost predicate Startable(head: nat, goal: nat, token: Token)
      reads store
    {
      && deployment <= head <= goal && head in rpc.remote && ValidToken(token) && IsSafeInteger(goal)
      && Outstanding(store.State(), c) <= goal
    }

    /** The remote chain is as high as the local one, and the fork, if any, is in reach. */
    ghost predicate Reaches(s: Stack) { IsEmpty(s) || (s.hi - 1 in rpc.remote && ForkInReach(s)) }

    /** What a cooperative remote chain does not help against, in the order a run meets it. */
    ghost function Obstacle(head: nat, goal: nat, token: Token, s: Stack): Option<Failure>
      reads store
    {
      if head < deployment then Some(HeadBeforeDeployment)
      else if goal < head then Some(SyncTargetBehind)
      else if head !in rpc.remote then Some(HeadUnavailable)
      else if !ValidToken(token) then Some(StoreFault(InvalidSyncOwner))
      else if !IsSafeInteger(goal) then Some(StoreFault(BlockNumberUnsupported))
      else if goal < Outstanding(store.State(), c) then Some(SyncTargetBehind)
      else if Reaches(s) then None
      else Some(RewindObstacle(s))
    }

    /** What stops the rewind of a chain whose fork is out of reach. */
    ghost function RewindObstacle(s: Stack): Failure {
      if s.hi - 1 !in rpc.remote then BlockUnavailable
      else if s.hi - 2 - limit >= deployment then ReorgDepthExceeded
      else ReorgNoCommonAncestor
    }

    /** The report of a run: the heights it scanned above the kept chain, their events, and the entries it rolled back. */
    ghost function Counted(head: nat, reorged: nat, kept: Stack, s: Stack): Report {
      var next := Next(kept, deployment);
      Report(if next <= head then head + 1 - next else 0, EventsBetween(s, next, head + 1), reorged)
    }

    /** What follows the repaired projection: the range check, the missing blocks, and the settling. */
    method Advance(head: nat, goal: nat, token: Token, reorged: nat, ghost kept: Stack)
      returns (r: Result<Report, Failure>, ghost s: Stack)
      requires InRun(token, goal, kept) && Agreed(kept) && ProjectedTop(store.State(), c)
      requires deployment <= head <= goal && IsSafeInteger(goal)
      requires (rpc.reliable ==> rpc.fixed) && (rpc.fixed ==> head in rpc.remote)
      modifies store, rpc
      ensures Ready(s)
      ensures r.Ok? ==> r.value == Counted(head, reorged, kept, s)
      ensures r.Ok? ==> Finished(head, goal, s) && s.hi == Max(Next(kept, deployment), head + 1)
                        && head + 1 - Next(kept, deployment) <= maxBlocks
      ensures r == Err(RangeExceeded) <==> head + 1 - Next(kept, deployment) > maxBlocks
      ensures r == Err(RangeExceeded) ==> s == kept
      ensures r.Ok? || r == Err(RangeExceeded) ==>
                Agreed(s) && Outstanding(store.State(), c) <= goal && (old(Cooperative()) ==> Cooperative())
      ensures old(Cooperative()) ==> r.Ok? || r == Err(RangeExceeded)
      ensures r.Err? ==> InRun(token, goal, s) && (InLoop(r.error) || r.error.RangeExceeded?)
    {
      hide Based, Sound, Consistent, RemoteChain, Named, AllCommon;
      s := kept;
      NextIsStart(kept);
      var checkpoint := store.Checkpoint(c);
      var start := if checkpoint.Some? then checkpoint.value.number + 1 else deployment;
      var scanned, inserted := 0, 0;
      if start <= head {
        if head - start + 1 > maxBlocks { return Err(RangeExceeded), kept; }
        var recorded;
        recorded, s := RecordUpTo(head, token, goal, kept);
        if recorded.Err? { return Err(recorded.error), s; }
        scanned, inserted := head - start + 1, recorded.value;
      }
      var finished := Finish(head, goal, token, s);
      r := Ok(Report(scanned, inserted, reorged));
    }

    /** The stored checkpoint tells where the chain goes on. */
    lemma NextIsStart(s: Stack)
      requires Ready(s)
      ensures c in store.checkpoints ==> Next(s, deployment) == store.checkpoints[c].at.number + 1
      ensures c !in store.checkpoints <==> IsEmpty(s)
      ensures c !in store.checkpoints ==> Next(s, deployment) == deployment
    {
      TopIsCheckpoint(store.State(), c, s);
    }

    /** A run from its claim on. */
    method RunClaimed(head: nat, goal: nat, token: Token, ghost s: Stack)
      returns (r: Result<Report, Failure>, ghost kept: Stack, ghost s': Stack)
      requires InRun(token, goal, s) && deployment <= head <= goal && IsSafeInteger(goal)
      requires rpc.fixed ==> RemoteChain(rpc.remote) && Named(s, rpc.remote) && head in rpc.remote
      requires rpc.reliable ==> rpc.fixed
      modifies store, rpc
      ensures Ready(s')
      ensures r.Err? ==> Failed(r.error, token, goal, s', old(store.checkpoints))
      ensures r.Err? ==> InLoop(r.error) || IsReorgFailure(r.error) || r.error.RangeExceeded?
      ensures r.Ok? ==> kept.hi <= s.hi && r.value == Counted(head, s.hi - kept.hi, kept, s')
      ensures r.Ok? ==> Finished(head, goal, s') && head < s'.hi
      ensures r.Ok? || r == Err(RangeExceeded) ==>
                Agreed(s') && Outstanding(store.State(), c) <= goal && (old(Cooperative()) ==> Cooperative())
      ensures old(Cooperative()) ==> (r.Ok? || r == Err(RangeExceeded) <==> Reaches(s))
      ensures old(Cooperative()) && r.Err? && r.error != RangeExceeded ==> r.error == RewindObstacle(s)
      ensures r.Ok? && rpc.fixed ==>
                Rewound(s, kept)
                && s'.hi == Max(Next(kept, deployment), head + 1) && head + 1 - Next(kept, deployment) <= maxBlocks
      ensures r == Err(RangeExceeded) ==>
                s' == kept && Rewound(s, kept) && head + 1 - Next(kept, deployment) > maxBlocks
    {
      hide Represents, RemoteChain, Named, AllCommon, Linked, Holding, IsReorgFailure, InLoop, Sound, Consistent;
      ReadyIsLinked(s);
      FailureKinds();
      var rewound;
      rewound, kept := Rewind(token, goal, s);
      s' := kept;
      if rewound.Err? { return Err(rewound.error), kept, kept; }
      KeptAgrees(s, kept);
      var recovered := RecoverProjection(token, goal, kept);
      if !recovered { return Err(RebuildFailed), kept, kept; }
      r, s' := Advance(head, goal, token, rewound.value, kept);
    }

    /**
     A whole run while the remote chain stays fixed and nobody else claims. If it
     returns, the local chain from the deployment block to a top at or above `head`
     is the remote one, projected, with the lease released, and it holds exactly
     the common prefix plus the blocks up to `head`; the final health update cannot
     fail. With a cooperative remote chain it returns, or fails with the range error,
     exactly when it can start and the fork is in reach, and otherwise says which
     obstacle it met. A failure before the claim (`claimed` is false) moves nothing; one
     after it leaves the lease held for `goal`, unless no common block was found: then
     the lease is given back and the failure recorded. Whatever happens, the tables stay
     a stack based at the deployment block.
     */
    method SyncTo(head: nat, goal: nat, token: Token, ghost s: Stack)
      returns (r: Result<Report, Failure>, ghost kept: Stack, ghost s': Stack, ghost claimed: bool)
      requires Ready(s)
      requires rpc.fixed ==> RemoteChain(rpc.remote) && Named(s, rpc.remote)
      requires rpc.reliable ==> rpc.fixed
      modifies store, rpc
      ensures Ready(s')
      ensures !claimed ==> r.Err? && store.leases == old(store.leases) && store.checkpoints == old(store.checkpoints)
      ensures claimed && r.Err? ==> Failed(r.error, token, goal, s', old(store.checkpoints))
      ensures r.Err? ==> if claimed then !OnlyBefore(r.error) else OnlyBefore(r.error) || r.error.StoreFault?
                                                                   || r.error in {Transport, BlockMismatch}
      ensures old(Cooperative()) && r.Err? && r.error != RangeExceeded ==>
                Some(r.error) == old(Obstacle(head, goal, token, s))
      ensures r.Ok? ==> kept.hi <= s.hi && r.value == Counted(head, s.hi - kept.hi, kept, s')
      ensures r.Ok? ==> Finished(head, goal, s') && head < s'.hi
      ensures r.Ok? || r == Err(RangeExceeded) ==>
                Agreed(s') && Outstanding(store.State(), c) <= goal && (old(Cooperative()) ==> Cooperative())
      ensures old(Cooperative()) ==>
                (r.Ok? || r == Err(RangeExceeded) <==> old(Startable(head, goal, token)) && Reaches(s))
      ensures r.Ok? && rpc.fixed ==>
                Rewound(s, kept)
                && s'.hi == Max(Next(kept, deployment), head + 1) && head + 1 - Next(kept, deployment) <= maxBlocks
      ensures r == Err(RangeExceeded) ==>
                s' == kept && Rewound(s, kept) && head + 1 - Next(kept, deployment) > maxBlocks
      ensures r != Err(SyncSuperseded)
    {
      hide Represents, RemoteChain, Named, AllCommon, Linked, Holding, IsReorgFailure, OnlyBefore, InLoop, Sound,
        Consistent;
      kept, s', claimed := s, s, false;
      FailureKinds();
      var bad := CheckHead(head, goal, s);
      if bad.Some? { return Err(bad.value), s, s, false; }
      var started := Claim(goal, token, s);
      if started.Err? { return Err(started.error), s, s, false; }
      ghost var at := store.checkpoints;
      claimed := true;
      r, kept, s' := RunClaimed(head, goal, token, s);
      if r.Err? && IsReorgFailure(r.error) { GaveUpFromClaim(r.error, old(store.checkpoints), at); }
    }

    /**
     How the outcomes of a run read from outside: given up is degraded with the recorded reason, still
     holding or stopped short of its goal is syncing, finished at its goal is healthy.
     */
    lemma OutcomesAreShown(head: nat, goal: nat, token: Token, f: Failure, s: Stack, before: map<Contract, CheckpointRow>)
      requires store.Valid()
      ensures GaveUp(f, before) ==>
                C.IndexerOf(store.State(), c) == C.Degraded
                && C.HealthError(store.State(), c)
                   == Some(if f.ReorgDepthExceeded? then DepthExceeded else NoCommonAncestor)
      ensures InRun(token, goal, s) ==>
                C.IndexerOf(store.State(), c) == C.Syncing && C.HealthError(store.State(), c) == Some(Incomplete)
      ensures Finished(head, goal, s) ==>
                C.IndexerOf(store.State(), c) == if head < goal then C.Syncing else C.Healthy
    {
      hide Based;
    }

    lemma FailureKinds()
      ensures forall f: Failure :: IsReorgFailure(f) ==> !OnlyBefore(f) && !f.SyncSuperseded? && !f.RangeExceeded?
      ensures forall f: Failure :: InLoop(f) ==> !OnlyBefore(f) && !IsReorgFailure(f) && !f.SyncSuperseded? && !f.RangeExceeded?
      ensures forall f: Failure :: OnlyBefore(f) ==> !f.SyncSuperseded? && !f.RangeExceeded?
      ensures !OnlyBefore(RangeExceeded) && !IsReorgFailure(RangeExceeded) && OnlyBefore(SyncTargetBehind)
      ensures InLoop(RebuildFailed) && InLoop(Transport) && InLoop(BlockUnavailable)
    {}

    lemma GaveUpFromClaim(f: Failure, before: map<Contract, CheckpointRow>, at: map<Contract, CheckpointRow>)
      requires GaveUp(f, at) && (c in before <==> c in at)
      requires c in before ==> at[c].at == before[c].at && at[c].projected == before[c].projected
      ensures GaveUp(f, before)
    {}

    lemma KeptIsLower(s: Stack, kept: Stack)
      requires rpc.fixed && Linked(s) && Rewound(s, kept) && (!IsEmpty(s) ==> s.lo == deployment)
      ensures Next(kept, deployment) <= Next(s, deployment)
    {}

    /** A chain that agrees with the remote one is kept whole. */
    lemma AgreedIsKept(s: Stack, kept: Stack)
      requires rpc.fixed && Linked(s) && Rewound(s, kept) && AllCommon(s, rpc.remote)
      ensures kept.hi == s.hi && kept.at == s.at
    {
      if !IsEmpty(s) {
        assert s.hi - 1 in s.at && Common(s, rpc.remote, s.hi - 1);
        assert forall n :: n in s.at ==> n < kept.hi;
        assert kept.at.Keys == s.at.Keys;
      }
    }

    lemma ReadyIsLinked(s: Stack)
      requires Ready(s)
      ensures Linked(s)
    {}

    lemma KeptAgrees(s: Stack, kept: Stack)
      requires Linked(s) && Rewound(s, kept) && (rpc.fixed ==> RemoteChain(rpc.remote) && Named(s, rpc.remote))
      ensures Agreed(kept)
    {}
  }
}
