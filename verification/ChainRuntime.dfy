/**
 The runtime around the two synchronizers: bounded catch-up towards an observed
 head, and one tracking round after each completed catch-up.
 */
module ChainRuntime {
  import opened Prelude
  import opened Lifecycle
  import opened ChainTables
  import opened ChainStack
  import opened Tracking
  import C = ChainStore
  import R = ChainRemote
  import S = ChainSync

  // ---- the bounded head -----------------------------------------------------

  /** How far one attempt goes: at most `max` blocks past the local top, never past the head. */
  function Bounded(start: nat, head: nat, max: nat): nat
    requires 1 <= max
  {
    if start <= head then (if start + max - 1 < head then start + max - 1 else head) else head
  }

  // ---- how many attempts a fixed chain takes --------------------------------

  /** The next height to record after an attempt that kept everything below `kept`. */
  function NextAfter(next: nat, kept: nat, head: nat, max: nat): nat
    requires 1 <= max && kept <= next
  {
    var bounded := Bounded(next, head, max);
    if bounded < kept then kept
    else if bounded - kept + 1 > max then kept
    else bounded + 1
  }

  /** The attempt returns (does not fail with the range error). */
  predicate Returns(next: nat, kept: nat, head: nat, max: nat)
    requires 1 <= max && kept <= next
  {
    var bounded := Bounded(next, head, max);
    bounded < kept || bounded - kept + 1 <= max
  }

  /** The attempt returned and reached the head. */
  predicate CatchesUp(next: nat, kept: nat, head: nat, max: nat)
    requires 1 <= max && kept <= next
  {
    Returns(next, kept, head, max) && head <= Bounded(next, head, max)
  }

  /** Attempts until one catches up, when the local chain agrees with the remote one. */
  function Attempts(next: nat, head: nat, max: nat): nat
    requires 1 <= max && next <= head + 1
    decreases head + 1 - next
  {
    if CatchesUp(next, next, head, max) then 1
    else 1 + Attempts(NextAfter(next, next, head, max), head, max)
  }

  /** Attempts from a chain that agrees only below `kept`. */
  function AttemptsFrom(next: nat, kept: nat, head: nat, max: nat): nat
    requires 1 <= max && kept <= next
  {
    if CatchesUp(next, kept, head, max) then 1
    else 1 + Attempts(NextAfter(next, kept, head, max), head, max)
  }

  /** `n` is the quotient of `d` by `max` rounded up. */
  predicate IsCeiling(n: nat, d: nat, max: nat) { d <= n * max && (n > 0 ==> (n - 1) * max < d) }

  lemma {:induction false} AgreedAttempts(next: nat, head: nat, max: nat, n: nat)
    requires 1 <= max && next <= head + 1 && IsCeiling(n, head + 1 - next, max)
    ensures Attempts(next, head, max) == if n == 0 then 1 else n
    decreases head + 1 - next
  {
    if !CatchesUp(next, next, head, max) {
      var after := NextAfter(next, next, head, max);
      assert after == next + max;
      assert 1 * max == max && 0 * max == 0;
      assert n > 1;
      assert n * max == (n - 1) * max + max && (n - 1) * max == (n - 2) * max + max;
      AgreedAttempts(after, head, max, n - 1);
    } else {
      assert forall k: nat :: k >= 1 ==> k * max >= max by {
        forall k: nat | k >= 1 ensures k * max >= max { Multiple(k, max); }
      }
    }
  }

  lemma Multiple(k: nat, max: nat)
    requires k >= 1
    ensures k * max >= max
  {
    assert k * max == (k - 1) * max + max;
  }

  /** The blocks a local chain that agrees below `kept` lacks. */
  function Missing(kept: nat, head: nat): nat { if head < kept then 0 else head + 1 - kept }

  /**
   A fixed chain that agrees below `kept`: repeated bounded attempts catch up after
   at most one more attempt than the blocks above the common ancestor take, and
   exactly that many without a fork.
   */
  lemma AttemptsAreBounded(next: nat, kept: nat, head: nat, max: nat, n: nat)
    requires 1 <= max && kept <= next
    requires IsCeiling(n, Missing(kept, head), max)
    ensures AttemptsFrom(next, kept, head, max) <= 1 + Max(1, n)
    ensures kept == next ==> AttemptsFrom(next, kept, head, max) == Max(1, n)
  {
    if kept <= head + 1 {
      AgreedAttempts(kept, head, max, n);
      assert CatchesUp(next, kept, head, max) || kept == next || NextAfter(next, kept, head, max) == kept;
    }
  }

  /** How high the next attempt asks for. */
  function Step(sync: S.Synchronizer, s: Stack, head: nat): nat
    requires 1 <= sync.maxBlocks
  {
    Bounded(S.Next(s, sync.deployment), head, sync.maxBlocks)
  }

  /** The runtime's sync of one contract. */
  method SyncContract(sync: S.Synchronizer, head: nat, token: Token, ghost s: Stack)
    returns (r: Result<bool, S.Failure>, ghost kept: Stack, ghost s': Stack, ghost claimed: bool)
    requires sync.Ready(s) && 1 <= sync.maxBlocks
    requires sync.rpc.fixed ==> R.RemoteChain(sync.rpc.remote) && R.Named(s, sync.rpc.remote)
    requires sync.rpc.reliable ==> sync.rpc.fixed
    modifies sync.store, sync.rpc
    ensures sync.Ready(s')
    ensures !claimed ==>
              r.Err? && sync.store.leases == old(sync.store.leases) && sync.store.checkpoints == old(sync.store.checkpoints)
    ensures claimed && r.Err? ==> sync.Failed(r.error, token, head, s', old(sync.store.checkpoints))
    ensures r.Ok? ==> sync.c !in sync.store.leases && (r.value <==> head <= Step(sync, s, head))
    ensures r == Ok(true) ==> sync.Finished(head, head, s')
    ensures r.Ok? || r == Err(S.RangeExceeded) ==>
              sync.Agreed(s') && Outstanding(sync.store.State(), sync.c) <= head
              && (old(sync.Cooperative()) ==> sync.Cooperative())
    ensures r == Err(S.RangeExceeded) ==> s' == kept
    ensures old(sync.Cooperative()) ==>
              (r.Ok? || r == Err(S.RangeExceeded)
               <==> old(sync.Startable(Step(sync, s, head), head, token)) && sync.Reaches(s))
    ensures (r.Ok? || r == Err(S.RangeExceeded)) && sync.rpc.fixed ==>
              sync.Rewound(s, kept)
              && (var next, low := S.Next(s, sync.deployment), S.Next(kept, sync.deployment);
                  low <= next
                  && (r.Ok? <==> Returns(next, low, head, sync.maxBlocks))
                  && S.Next(s', sync.deployment) == NextAfter(next, low, head, sync.maxBlocks))
  {
    hide Represents, R.RemoteChain, R.Named, R.AllCommon;
    S.TopIsCheckpoint(sync.store.State(), sync.c, s);
    sync.ReadyIsLinked(s);
    var checkpoint := sync.store.Checkpoint(sync.c);
    var start := if checkpoint.Some? then checkpoint.value.number + 1 else sync.deployment;
    var bounded := Bounded(start, head, sync.maxBlocks);
    var result;
    result, kept, s', claimed := sync.SyncTo(bounded, head, token, s);
    if (result.Ok? || result == Err(S.RangeExceeded)) && sync.rpc.fixed { sync.KeptIsLower(s, kept); }
    r := match result case Ok(_) => Ok(bounded >= head) case Err(e) => Err(e);
  }

  // ---- catching up with a fixed chain ---------------------------------------

  /** The remote chain is fixed, reaches the head, and everything it offers is accepted. */
  ghost predicate CanFollow(sync: S.Synchronizer, head: nat, s: Stack)
    reads sync.store
  {
    && 1 <= sync.maxBlocks && sync.Ready(s) && sync.rpc.fixed && sync.Cooperative()
    && R.RemoteChain(sync.rpc.remote) && R.Named(s, sync.rpc.remote)
    && sync.deployment <= head && head in sync.rpc.remote && IsSafeInteger(head)
    && Outstanding(sync.store.State(), sync.c) <= head
  }

  /** A step on the way to a remote head can start. */
  lemma StepStarts(sync: S.Synchronizer, head: nat, token: Token, s: Stack)
    requires CanFollow(sync, head, s) && ValidToken(token)
    ensures sync.Startable(Step(sync, s, head), head, token)
  {
    hide Represents, R.RemoteChain, R.Named;
    sync.NextIsAbove(s);
    R.LowerIsRemote(sync.rpc.remote, Step(sync, s, head), head);
  }

  /** The fork of a chain that agrees with the remote one is its top. */
  lemma AgreedReaches(sync: S.Synchronizer, head: nat, s: Stack)
    requires CanFollow(sync, head, s) && R.AllCommon(s, sync.rpc.remote)
    ensures sync.Reaches(s)
  {
    if !IsEmpty(s) { assert R.Common(s, sync.rpc.remote, s.hi - 1); }
  }

  /** One attempt towards a head that can be followed: it advances as the attempt count says. */
  method Attempt(sync: S.Synchronizer, head: nat, token: Token, ghost s: Stack)
    returns (done: bool, ghost kept: Stack, ghost s': Stack)
    requires CanFollow(sync, head, s) && sync.Reaches(s) && ValidToken(token)
    modifies sync.store, sync.rpc
    ensures CanFollow(sync, head, s') && R.AllCommon(s', sync.rpc.remote) && sync.Rewound(s, kept)
    ensures S.Next(kept, sync.deployment) <= S.Next(s, sync.deployment)
    ensures done <==> CatchesUp(S.Next(s, sync.deployment), S.Next(kept, sync.deployment), head, sync.maxBlocks)
    ensures S.Next(s', sync.deployment)
            == NextAfter(S.Next(s, sync.deployment), S.Next(kept, sync.deployment), head, sync.maxBlocks)
    ensures done ==> sync.Finished(head, head, s')
  {
    StepStarts(sync, head, token, s);
    hide Represents, R.RemoteChain, R.Named, R.AllCommon, R.Sound, R.Consistent;
    var r;
    ghost var claimed;
    r, kept, s', claimed := SyncContract(sync, head, token, s);
    done := r == Ok(true);
  }

  /** An attempt from a chain that agrees with the remote one rewinds nothing. */
  lemma KeptWhole(sync: S.Synchronizer, s: Stack, kept: Stack)
    requires sync.rpc.fixed && Linked(s) && sync.Rewound(s, kept) && R.AllCommon(s, sync.rpc.remote)
    requires !IsEmpty(s) ==> s.lo == sync.deployment
    ensures S.Next(kept, sync.deployment) == S.Next(s, sync.deployment)
  {
    sync.AgreedIsKept(s, kept);
  }

  lemma FollowsFixed(sync: S.Synchronizer, head: nat, s: Stack)
    requires CanFollow(sync, head, s)
    ensures 1 <= sync.maxBlocks && sync.rpc.fixed && Linked(s) && (!IsEmpty(s) ==> s.lo == sync.deployment)
  {}

  lemma CountFirst(next: nat, kept: nat, head: nat, max: nat)
    requires 1 <= max && kept <= next
    ensures if CatchesUp(next, kept, head, max)
            then AttemptsFrom(next, kept, head, max) == 1 && NextAfter(next, kept, head, max) == Max(kept, head + 1)
            else kept <= head && NextAfter(next, kept, head, max) <= head + 1
                 && 1 + Attempts(NextAfter(next, kept, head, max), head, max) == AttemptsFrom(next, kept, head, max)
  {}

  lemma CountNext(next: nat, head: nat, max: nat)
    requires 1 <= max && next <= head + 1
    ensures if CatchesUp(next, next, head, max)
            then Attempts(next, head, max) == 1 && NextAfter(next, next, head, max) == head + 1
            else NextAfter(next, next, head, max) <= head + 1
                 && 1 + Attempts(NextAfter(next, next, head, max), head, max) == Attempts(next, head, max)
  {}

  /**
   Attempts repeated until one catches up with a fixed head. They end, and in at
   most one more than the blocks above the common ancestor take; without a fork
   in exactly that many.
   */
  method CatchUp(sync: S.Synchronizer, head: nat, tokens: nat -> Token, ghost s: Stack)
    returns (attempts: nat, ghost kept: Stack, ghost s': Stack)
    requires CanFollow(sync, head, s) && sync.Reaches(s) && forall i :: ValidToken(tokens(i))
    modifies sync.store, sync.rpc
    ensures sync.Finished(head, head, s') && R.AllCommon(s', sync.rpc.remote)
    ensures s'.hi == Max(S.Next(kept, sync.deployment), head + 1)
    ensures sync.Rewound(s, kept) && S.Next(kept, sync.deployment) <= S.Next(s, sync.deployment)
    ensures forall n: nat :: IsCeiling(n, Missing(S.Next(kept, sync.deployment), head), sync.maxBlocks) ==>
              attempts <= 1 + Max(1, n) && (kept == s ==> attempts == Max(1, n))
  {
    hide CanFollow, R.AllCommon, Attempts, AttemptsFrom, NextAfter, Linked;
    FollowsFixed(sync, head, s);
    ghost var max := sync.maxBlocks;
    var done;
    done, kept, s' := Attempt(sync, head, tokens(0), s);
    attempts := 1;
    ghost var start, low := S.Next(s, sync.deployment), S.Next(kept, sync.deployment);
    CountFirst(start, low, head, max);
    while !done
      invariant CanFollow(sync, head, s') && R.AllCommon(s', sync.rpc.remote)
      invariant done ==> sync.Finished(head, head, s') && attempts == AttemptsFrom(start, low, head, max)
      invariant if done then S.Next(s', sync.deployment) == Max(low, head + 1)
                else low <= head + 1 && S.Next(s', sync.deployment) <= head + 1
      invariant !done ==> attempts + Attempts(S.Next(s', sync.deployment), head, max) == AttemptsFrom(start, low, head, max)
      decreases AttemptsFrom(start, low, head, max) - attempts, !done
    {
      ghost var cur, same := s', s';
      FollowsFixed(sync, head, cur);
      AgreedReaches(sync, head, cur);
      CountNext(S.Next(cur, sync.deployment), head, max);
      done, same, s' := Attempt(sync, head, tokens(attempts), cur);
      KeptWhole(sync, cur, same);
      attempts := attempts + 1;
    }
    forall n: nat | IsCeiling(n, Missing(low, head), max)
      ensures attempts <= 1 + Max(1, n) && (kept == s ==> attempts == Max(1, n))
    {
      AttemptsAreBounded(start, low, head, max, n);
    }
  }

  // ---- the tracking round ---------------------------------------------------

  /** The ids the tracking query can select for a contract. */
  function Trackable(operations: map<string, Operation>, c: Contract): set<string> {
    set id | id in operations && ContractOf(operations[id]) == c
             && operations[id].state in {Submitted, Mined, Confirming, Reorged, ReconciliationFailed}
  }

  datatype Kind = Vault | Pass
  datatype Slot = Slot(id: string, kind: Kind)

  const SLOTS := 100

  /** The ids of one kind, in queue order. */
  function IdsOf(queue: seq<Slot>, kind: Kind): seq<string> {
    if queue == [] then []
    else
      var slot := queue[|queue| - 1];
      var before := IdsOf(queue[..|queue| - 1], kind);
      if slot.kind == kind then before + [slot.id] else before
  }

  lemma IdsOfPush(queue: seq<Slot>, slot: Slot, kind: Kind)
    ensures IdsOf(queue + [slot], kind) == if slot.kind == kind then IdsOf(queue, kind) + [slot.id] else IdsOf(queue, kind)
  {
    assert (queue + [slot])[..|queue|] == queue;
  }

  function Least(a: nat, b: nat): nat { if a < b then a else b }

  /** SELECT ... ORDER BY operation_id: the ids in order. */
  method OrderedIds(ids: set<string>) returns (q: seq<string>)
    ensures q == Ascending(ids)
  {
    var rest := ids;
    q := [];
    while rest != {}
      invariant q + Ascending(rest) == Ascending(ids)
      decreases rest
    {
      LeastExists(rest);
      var m :| m in rest && forall x :: x in rest && x != m ==> Less(m, x);
      OneLeast(rest, m);
      assert Ascending(rest) == [m] + Ascending(rest - {m});
      q := q + [m];
      rest := rest - {m};
    }
  }

  lemma OneLeast(ids: set<string>, m: string)
    requires IsLeast(ids, m)
    ensures Tracking.Least(ids) == m
  {
    LessTotal(m, Tracking.Least(ids));
  }

  /** Takes from both lists in turn until both end or the slots are used up. */
  method Interleave(v: seq<string>, p: seq<string>) returns (queue: seq<Slot>)
    ensures |queue| <= SLOTS && |queue| == |IdsOf(queue, Vault)| + |IdsOf(queue, Pass)|
    ensures IdsOf(queue, Vault) <= v && IdsOf(queue, Pass) <= p
    ensures |IdsOf(queue, Vault)| >= Least(|v|, SHARE) && |IdsOf(queue, Pass)| >= Least(|p|, SHARE)
  {
    hide IdsOf;
    queue := [];
    EmptyQueue();
    ghost var a: nat, b: nat := 0, 0;
    var index := 0;
    while |queue| < SLOTS
      invariant a <= |v| && b <= |p| && |queue| == a + b <= SLOTS
      invariant IdsOf(queue, Vault) == v[..a] && IdsOf(queue, Pass) == p[..b]
      invariant |queue| < SLOTS ==> a == Least(index, |v|) && b == Least(index, |p|)
      invariant |queue| == SLOTS ==> a >= Least(|v|, SHARE) && b >= Least(|p|, SHARE)
      decreases SLOTS - |queue|, |v| + |p| - index
    {
      if index < |v| {
        PushVault(queue, v, p, a, b);
        queue, a := queue + [Slot(v[index], Vault)], a + 1;
      }
      if |queue| < SLOTS && index < |p| {
        PushPass(queue, v, p, a, b);
        queue, b := queue + [Slot(p[index], Pass)], b + 1;
      }
      if index >= |v| && index >= |p| { break; }
      index := index + 1;
    }
  }

  lemma EmptyQueue()
    ensures IdsOf([], Vault) == [] && IdsOf([], Pass) == []
  {}

  lemma PushVault(queue: seq<Slot>, v: seq<string>, p: seq<string>, a: nat, b: nat)
    requires a < |v| && b <= |p| && IdsOf(queue, Vault) == v[..a] && IdsOf(queue, Pass) == p[..b]
    ensures IdsOf(queue + [Slot(v[a], Vault)], Vault) == v[..a + 1]
    ensures IdsOf(queue + [Slot(v[a], Vault)], Pass) == p[..b]
  {
    IdsOfPush(queue, Slot(v[a], Vault), Vault);
    IdsOfPush(queue, Slot(v[a], Vault), Pass);
  }

  lemma PushPass(queue: seq<Slot>, v: seq<string>, p: seq<string>, a: nat, b: nat)
    requires a <= |v| && b < |p| && IdsOf(queue, Vault) == v[..a] && IdsOf(queue, Pass) == p[..b]
    ensures IdsOf(queue + [Slot(p[b], Pass)], Vault) == v[..a]
    ensures IdsOf(queue + [Slot(p[b], Pass)], Pass) == p[..b + 1]
  {
    IdsOfPush(queue, Slot(p[b], Pass), Vault);
    IdsOfPush(queue, Slot(p[b], Pass), Pass);
  }

  class Runtime {
    const store: C.Store
    const vault: Contract
    const pass: Contract
    const ownsPass: bool
    var vaultCursor: Option<string>
    var passCursor: Option<string>

    constructor (store: C.Store, vault: Contract, pass: Contract, ownsPass: bool)
      requires vault != pass
      ensures this.store == store && this.vault == vault && this.pass == pass && this.ownsPass == ownsPass
      ensures vaultCursor.None? && passCursor.None?
    {
      this.store, this.vault, this.pass, this.ownsPass := store, vault, pass, ownsPass;
      vaultCursor, passCursor := None, None;
    }

    method TrackableOperationIds(c: Contract, limit: nat, after: Option<string>) returns (rows: seq<string>)
      ensures rows == Query(Trackable(store.operations, c), limit, after)
    {
      var ids := Trackable(store.operations, c);
      var high := OrderedIds(Above(ids, after));
      rows := Take(high, limit);
      if |rows| < limit {
        var low := OrderedIds(UpTo(ids, after));
        rows := rows + Take(low, limit - |rows|);
      }
    }

    /** One attempt; whatever it and other callers do, only operations change. */
    method Track(slot: Slot) returns (ok: bool)
      modifies store`operations
    {
      ok := *;
      store.operations := *;
    }

    /** Attempts every slot in turn and remembers the last id of each kind. */
    method TrackAll(queue: seq<Slot>) returns (failures: nat, lastVault: Option<string>, lastPass: Option<string>)
      modifies store`operations
      ensures failures <= |queue|
      ensures lastVault == LastOf(IdsOf(queue, Vault)) && lastPass == LastOf(IdsOf(queue, Pass))
    {
      hide IdsOf;
      failures, lastVault, lastPass := 0, None, None;
      EmptyQueue();
      for i := 0 to |queue|
        invariant failures <= i
        invariant lastVault == LastOf(IdsOf(queue[..i], Vault)) && lastPass == LastOf(IdsOf(queue[..i], Pass))
      {
        var slot := queue[i];
        var ok := Track(slot);
        if !ok { failures := failures + 1; }
        assert queue[..i + 1] == queue[..i] + [slot];
        IdsOfPush(queue[..i], slot, Vault);
        IdsOfPush(queue[..i], slot, Pass);
        if slot.kind == Vault { lastVault := Some(slot.id); } else { lastPass := Some(slot.id); }
      }
      assert queue[..|queue|] == queue;
    }

    /**
     One tracking round. Each contract's attempts are a fair round of its cursor
     rotation, and the cursor moves to the last id attempted.
     */
    method TrackRound() returns (queue: seq<Slot>, failures: nat, ghost v: Round, ghost p: Round)
      modifies this, store`operations
      ensures |queue| <= SLOTS && failures <= |queue|
      ensures v.ids == Trackable(old(store.operations), vault) && FairRound(v)
      ensures IdsOf(queue, Vault) == Attempted(old(vaultCursor), v)
      ensures vaultCursor == CursorAfter(old(vaultCursor), v)
      ensures p.ids == (if ownsPass then Trackable(old(store.operations), pass) else {}) && FairRound(p)
      ensures IdsOf(queue, Pass) == Attempted(old(passCursor), p)
      ensures passCursor == CursorAfter(old(passCursor), p)
    {
      hide IdsOf, Query, Trackable, Rotation, FairRound;
      var vaultIds := TrackableOperationIds(vault, SLOTS, vaultCursor);
      var passIds := [];
      ghost var vs, ps := Trackable(store.operations, vault), {};
      if ownsPass {
        passIds := TrackableOperationIds(pass, SLOTS, passCursor);
        ps := Trackable(store.operations, pass);
      } else {
        EmptyQuery(passCursor);
      }
      queue := Interleave(vaultIds, passIds);
      v, p := Round(vs, |IdsOf(queue, Vault)|), Round(ps, |IdsOf(queue, Pass)|);
      FairShare(vs, vaultCursor, vaultIds, IdsOf(queue, Vault));
      FairShare(ps, passCursor, passIds, IdsOf(queue, Pass));
      var lastVault: Option<string>, lastPass: Option<string>;
      failures, lastVault, lastPass := TrackAll(queue);
      if lastVault.Some? { vaultCursor := lastVault; }
      if lastPass.Some? { passCursor := lastPass; }
    }

    /**
     Tracking rounds one after the other, whatever happens to the operations in between. An id that
     stays trackable while none is added is attempted in one of the first ceil(N / 50) rounds.
     */
    method TrackRounds(count: nat) returns (ghost ops: seq<map<string, Operation>>, ghost queues: seq<seq<Slot>>)
      modifies this, store`operations
      ensures |ops| == |queues| == count && (count > 0 ==> ops[0] == old(store.operations))
      ensures Tracked(ops, queues, vault, Vault, old(vaultCursor))
      ensures ownsPass ==> Tracked(ops, queues, pass, Pass, old(passCursor))
      ensures forall x :: StaysTrackable(ops, vault, x) && Served(ops, vault) ==> InSomeQueue(queues, Vault, x)
      ensures ownsPass ==>
                forall x :: StaysTrackable(ops, pass, x) && Served(ops, pass) ==> InSomeQueue(queues, Pass, x)
      decreases count
    {
      hide Trackable, IdsOf, FairRound, Attempted, CursorAfter, StaysTrackable, InSomeQueue, Served;
      ghost var first, v, p := store.operations, vaultCursor, passCursor;
      ops, queues := [], [];
      if count > 0 {
        var queue: seq<Slot>, failures: nat;
        ghost var a: Round, b: Round;
        queue, failures, a, b := TrackRound();
        store.operations := *;
        ghost var rest, more := TrackRounds(count - 1);
        ops, queues := [first] + rest, [queue] + more;
        TrackedFirst(first, queue, rest, more, vault, Vault, v, a);
        if ownsPass { TrackedFirst(first, queue, rest, more, pass, Pass, p, b); }
      }
      forall x | StaysTrackable(ops, vault, x) && Served(ops, vault) ensures InSomeQueue(queues, Vault, x) {
        NoIdStarves(ops, queues, vault, Vault, v, x);
      }
      forall x | ownsPass && StaysTrackable(ops, pass, x) && Served(ops, pass) ensures InSomeQueue(queues, Pass, x) {
        NoIdStarves(ops, queues, pass, Pass, p, x);
      }
    }
  }

  // ---- rounds one after the other -------------------------------------------

  /** Each round's slots for `c` are a fair round of the rotation, from the cursor the last one left. */
  ghost predicate Tracked(ops: seq<map<string, Operation>>, queues: seq<seq<Slot>>, c: Contract, kind: Kind,
                          cursor: Option<string>)
    decreases |ops|
  {
    |ops| == |queues| &&
    (ops == [] ||
     exists taken :: var r := Round(Trackable(ops[0], c), taken);
       FairRound(r) && IdsOf(queues[0], kind) == Attempted(cursor, r)
       && Tracked(ops[1..], queues[1..], c, kind, CursorAfter(cursor, r)))
  }

  lemma TrackedFirst(first: map<string, Operation>, queue: seq<Slot>, rest: seq<map<string, Operation>>,
                     more: seq<seq<Slot>>, c: Contract, kind: Kind, cursor: Option<string>, r: Round)
    requires r.ids == Trackable(first, c) && FairRound(r) && IdsOf(queue, kind) == Attempted(cursor, r)
    requires Tracked(rest, more, c, kind, CursorAfter(cursor, r))
    ensures Tracked([first] + rest, [queue] + more, c, kind, cursor)
  {
    hide Trackable, IdsOf, FairRound, Attempted, CursorAfter;
    var ops, queues := [first] + rest, [queue] + more;
    assert ops[1..] == rest && queues[1..] == more;
    assert r == Round(Trackable(ops[0], c), r.taken);
  }

  /** `x` is trackable at the start of every round, and no round starts with an id the last one lacked. */
  ghost predicate StaysTrackable(ops: seq<map<string, Operation>>, c: Contract, x: string) {
    && (forall i :: 0 <= i < |ops| ==> x in Trackable(ops[i], c))
    && (forall i, j :: 0 <= i < j < |ops| && j == i + 1 ==> Trackable(ops[j], c) <= Trackable(ops[i], c))
  }

  /** There are as many rounds as the ids need at fifty a round. */
  ghost predicate Served(ops: seq<map<string, Operation>>, c: Contract) {
    ops != [] && |Trackable(ops[0], c)| <= SHARE * |ops|
  }

  ghost predicate InSomeQueue(queues: seq<seq<Slot>>, kind: Kind, x: string) {
    exists i :: 0 <= i < |queues| && x in IdsOf(queues[i], kind)
  }

  /** Tracked rounds are the rounds of the rotation, and what they attempt is what the slots hold. */
  lemma {:induction false} RoundsOf(ops: seq<map<string, Operation>>, queues: seq<seq<Slot>>, c: Contract, kind: Kind,
                                    cursor: Option<string>, x: string) returns (rounds: seq<Round>)
    requires Tracked(ops, queues, c, kind, cursor)
    ensures |rounds| == |ops| && forall i :: 0 <= i < |ops| ==> rounds[i].ids == Trackable(ops[i], c) && FairRound(rounds[i])
    ensures EverAttempted(cursor, rounds, x) ==> InSomeQueue(queues, kind, x)
    decreases |ops|
  {
    hide Trackable, IdsOf, FairRound, Attempted, CursorAfter;
    rounds := [];
    if ops != [] {
      var taken :| var r := Round(Trackable(ops[0], c), taken);
                   FairRound(r) && IdsOf(queues[0], kind) == Attempted(cursor, r)
                   && Tracked(ops[1..], queues[1..], c, kind, CursorAfter(cursor, r));
      var r := Round(Trackable(ops[0], c), taken);
      var rest := RoundsOf(ops[1..], queues[1..], c, kind, CursorAfter(cursor, r), x);
      rounds := [r] + rest;
      assert rounds[1..] == rest;
      if EverAttempted(cursor, rounds, x) { assert x in IdsOf(queues[0], kind) || InSomeQueue(queues[1..], kind, x); }
    }
  }

  lemma NoIdStarves(ops: seq<map<string, Operation>>, queues: seq<seq<Slot>>, c: Contract, kind: Kind,
                    cursor: Option<string>, x: string)
    requires Tracked(ops, queues, c, kind, cursor) && StaysTrackable(ops, c, x) && Served(ops, c)
    ensures InSomeQueue(queues, kind, x)
  {
    hide Trackable, IdsOf, FairRound, Attempted, CursorAfter, Tracked, InSomeQueue;
    var rounds := RoundsOf(ops, queues, c, kind, cursor, x);
    NoStarvation(cursor, rounds, x);
  }

  lemma EmptyQuery(cursor: Option<string>)
    ensures Query({}, SLOTS, cursor) == []
  {
    assert Above({}, cursor) == {} && UpTo({}, cursor) == {};
  }

  function LastOf(q: seq<string>): Option<string> { if q == [] then None else Some(q[|q| - 1]) }

  /** A prefix of the query's answer of at least the fair share is a fair round. */
  lemma FairShare(ids: set<string>, cursor: Option<string>, rows: seq<string>, taken: seq<string>)
    requires rows == Query(ids, SLOTS, cursor) && taken <= rows && Least(|rows|, SHARE) <= |taken|
    ensures FairRound(Round(ids, |taken|)) && taken == Attempted(cursor, Round(ids, |taken|))
  {
    QueryIsRotation(ids, SLOTS, cursor);
    RotationLists(ids, cursor);
  }
}
