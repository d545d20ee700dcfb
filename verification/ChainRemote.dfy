/**
 The remote chain the synchronizer follows: its blocks, its logs, what the local
 stack shares with it, and when the store accepts everything it offers.
 */
module ChainRemote {
  import opened Prelude
  import opened Lifecycle
  import opened ChainTables
  import opened ChainStack

  datatype Answer<+T> = Value(value: T) | Broken

  /** A log with what decoding it gives; `decodes` is false for logs the integration skips. */
  datatype Log = Log(event: Event, decodes: bool)

  /** A remote chain: blocks at heights 0, 1, ... linked by parent, no hash used twice. */
  ghost predicate RemoteChain(remote: map<nat, Block>) {
    && (forall n :: n in remote ==> remote[n].number == n)
    && (forall m, n :: n in remote && m < n ==> m in remote)
    && (forall m, n :: m in remote && n in remote && n == m + 1 ==> remote[n].parent == remote[m].hash)
    && (forall m, n :: m in remote && n in remote && remote[m].hash == remote[n].hash ==> m == n)
  }

  /** A hash names one number and one parent, in the local stack and remotely. */
  ghost predicate Named(s: Stack, remote: map<nat, Block>) {
    forall n, m :: n in s.at && m in remote && s.at[n].block.hash == remote[m].hash ==>
      n == m && s.at[n].block.parent == remote[m].parent
  }

  ghost predicate Common(s: Stack, remote: map<nat, Block>, n: nat) {
    n in s.at && n in remote && s.at[n].block.hash == remote[n].hash
  }

  /** Every local block is the remote one: number, hash and parent. */
  ghost predicate AllCommon(s: Stack, remote: map<nat, Block>) {
    forall n :: n in s.at ==>
      Common(s, remote, n) && s.at[n].block.number == remote[n].number && s.at[n].block.parent == remote[n].parent
  }

  /** Agreement at a height carries down to every height below. */
  lemma {:induction false} CommonGoesDown(s: Stack, remote: map<nat, Block>, n: nat, m: nat)
    requires Linked(s) && RemoteChain(remote) && Named(s, remote) && Common(s, remote, n)
    requires m in s.at && m <= n
    ensures Common(s, remote, m)
    decreases n - m
  {
    if m < n {
      CommonGoesDown(s, remote, n, m + 1);
      assert s.at[m + 1].block.parent == s.at[m].block.hash;
    }
  }

  lemma CommonPrefix(s: Stack, remote: map<nat, Block>, n: nat)
    requires Linked(s) && RemoteChain(remote) && Named(s, remote) && Common(s, remote, n)
    ensures AllCommon(Truncate(s, n + 1), remote)
    ensures Named(Truncate(s, n + 1), remote)
  {
    var t := Truncate(s, n + 1);
    forall m | m in t.at
      ensures Common(t, remote, m) && t.at[m].block.number == remote[m].number
              && t.at[m].block.parent == remote[m].parent
    {
      CommonGoesDown(s, remote, n, m);
    }
  }

  /** The log is of the contract and of the block. */
  predicate Belongs(l: Log, c: Contract, b: Block) {
    l.event.address == c.address && l.event.number == b.number && l.event.hash == b.hash && !l.event.removed
  }

  /** The events of the logs that decode, in order. */
  function Decoded(logs: seq<Log>, c: Contract): seq<Event> {
    if logs == [] then []
    else
      var l := logs[|logs| - 1];
      Decoded(logs[..|logs| - 1], c) + (if l.decodes then [l.event.(chain := c.chain)] else [])
  }

  /**
   The node the synchronizer asks. When `fixed`, its chain does not change during the
   run. When `reliable`, every answer comes, and logs and projections are those of the chain.
   */
  class Rpc {
    const remote: map<nat, Block>
    const logs: map<nat, seq<Log>>
    const views: map<nat, seq<Projection>>
    const fixed: bool
    const reliable: bool
    var queries: nat

    constructor (remote: map<nat, Block>, logs: map<nat, seq<Log>>, views: map<nat, seq<Projection>>,
                 fixed: bool, reliable: bool)
      ensures this.remote == remote && this.logs == logs && this.views == views
      ensures this.fixed == fixed && this.reliable == reliable
    {
      this.remote, this.logs, this.views := remote, logs, views;
      this.fixed, this.reliable, queries := fixed, reliable, 0;
    }

    function LogsOf(n: nat): seq<Log> { if n in logs then logs[n] else [] }

    function ViewsOf(n: nat): seq<Projection> { if n in views then views[n] else [] }

    /** A fixed node answers with its block at `n`, or not at all; a reliable one always answers. */
    method BlockAt(n: nat) returns (a: Answer<Option<Block>>)
      modifies this
      ensures queries == old(queries) + 1
      ensures fixed && a.Value? && a.value.Some? ==> n in remote && a.value.value == remote[n]
      ensures reliable ==> a == Value(if n in remote then Some(remote[n]) else None)
    {
      queries := queries + 1;
      if reliable { return Value(if n in remote then Some(remote[n]) else None); }
      if fixed {
        if * { return Broken; }
        if n in remote { return Value(Some(remote[n])); }
        return Value(None);
      }
      a := *;
    }

    method Logs(n: nat) returns (a: Answer<seq<Log>>)
      ensures reliable ==> a == Value(LogsOf(n))
    {
      a := *;
      if reliable { a := Value(LogsOf(n)); }
    }

    method Rebuild(p: Point) returns (a: Answer<seq<Projection>>)
      ensures reliable ==> a == Value(ViewsOf(p.number))
    {
      a := *;
      if reliable { a := Value(ViewsOf(p.number)); }
    }

    method ChainMatches() returns (a: Answer<bool>)
      ensures reliable ==> a == Value(true)
    {
      a := *;
      if reliable { a := Value(true); }
    }
  }

  /** A remote block on top of a stack that agrees with the remote chain agrees too. */
  lemma PushCommon(s: Stack, remote: map<nat, Block>, n: nat, es: set<Event>)
    requires RemoteChain(remote) && Linked(s) && AllCommon(s, remote) && Named(s, remote)
    requires n in remote && n !in s.at
    ensures AllCommon(Push(s, remote[n], es), remote) && Named(Push(s, remote[n], es), remote)
  {}

  // ---- when everything the remote chain offers is accepted ------------------

  /** The logs of a block belong to it and make a list of events the store can take. */
  ghost predicate LogsFit(logs: seq<Log>, c: Contract, b: Block) {
    && (forall l :: l in logs ==> Belongs(l, c, b))
    && !BadInput(b, Decoded(logs, c)) && DistinctKeys(Decoded(logs, c))
    && forall e :: e in Decoded(logs, c) ==> ValidEvent(e, c, b)
  }

  /** The projections of a block are the contract's, distinct, and sit on blocks of the chain up to it. */
  ghost predicate ViewsFit(views: seq<Projection>, c: Contract, remote: map<nat, Block>, deployment: nat, n: nat) {
    && DistinctProjections(views)
    && forall q :: q in views ==>
         && q.contract == c && ValidName(q.key) && deployment <= q.at.number <= n
         && q.at.number in remote && q.at.hash == remote[q.at.number].hash
  }

  /** `e` is an event of the remote block at height `n`. */
  ghost predicate RemoteEvent(rpc: Rpc, c: Contract, deployment: nat, n: nat, e: Event) {
    deployment <= n && n in rpc.remote && e in Decoded(rpc.LogsOf(n), c)
  }

  /** Blocks, logs and projections fit at every height, and a log appears in one block only. */
  ghost predicate Sound(rpc: Rpc, c: Contract, deployment: nat) {
    && RemoteChain(rpc.remote)
    && (forall n :: deployment <= n && n in rpc.remote ==>
          LogsFit(rpc.LogsOf(n), c, rpc.remote[n]) && ViewsFit(rpc.ViewsOf(n), c, rpc.remote, deployment, n))
    && (forall m, n, e, f ::
          RemoteEvent(rpc, c, deployment, m, e) && RemoteEvent(rpc, c, deployment, n, f) && e != f ==> KeyOf(e) != KeyOf(f))
  }

  /** A stored row under the key of a remote event has its payload; if its block is remote too, it is that event. */
  ghost predicate RowFits(rpc: Rpc, c: Contract, row: Event, e: Event) {
    && OfContract(row, c) && SamePayload(row, e)
    && (row.number in rpc.remote && row.hash == rpc.remote[row.number].hash ==> row == e)
  }

  /** What is stored does not contradict the remote chain. */
  ghost predicate Consistent(rows: map<EventKey, EventRow>, rpc: Rpc, c: Contract, deployment: nat) {
    forall n, e :: RemoteEvent(rpc, c, deployment, n, e) && KeyOf(e) in rows ==> RowFits(rpc, c, rows[KeyOf(e)].event, e)
  }

  lemma EventIsRemote(rpc: Rpc, c: Contract, deployment: nat, n: nat, e: Event)
    requires Sound(rpc, c, deployment) && RemoteEvent(rpc, c, deployment, n, e)
    ensures ValidEvent(e, c, rpc.remote[n]) && e.number == n && e.hash == rpc.remote[n].hash
  {
    assert LogsFit(rpc.LogsOf(n), c, rpc.remote[n]);
  }

  /** Rolling back leaves the rows' events alone. */
  lemma TombKeepsConsistent(rows: map<EventKey, EventRow>, rpc: Rpc, c: Contract, deployment: nat, n: nat)
    requires Consistent(rows, rpc, c, deployment)
    ensures Consistent(TombEvents(rows, c, n), rpc, c, deployment)
  {
    hide RemoteEvent, RowFits;
  }

  lemma PutKeepsConsistent(rows: map<EventKey, EventRow>, rpc: Rpc, c: Contract, deployment: nat, n: nat)
    requires Sound(rpc, c, deployment) && Consistent(rows, rpc, c, deployment) && deployment <= n && n in rpc.remote
    ensures Consistent(PutEvents(rows, Decoded(rpc.LogsOf(n), c)), rpc, c, deployment)
  {
    var es := Decoded(rpc.LogsOf(n), c);
    assert LogsFit(rpc.LogsOf(n), c, rpc.remote[n]);
    PutEventsAt(rows, es);
    var rows' := PutEvents(rows, es);
    forall m, e | RemoteEvent(rpc, c, deployment, m, e) && KeyOf(e) in rows'
      ensures RowFits(rpc, c, rows'[KeyOf(e)].event, e)
    {
      if f :| f in es && KeyOf(f) == KeyOf(e) {
        assert RemoteEvent(rpc, c, deployment, n, f);
        EventIsRemote(rpc, c, deployment, m, e);
      }
    }
  }

  /** On top of a local chain that agrees with the remote one, no remote event contradicts a stored row. */
  lemma EventsAgree(db: Db, s: Stack, rpc: Rpc, c: Contract, deployment: nat, n: nat, e: Event)
    requires Represents(db, c, s) && AllCommon(s, rpc.remote) && Sound(rpc, c, deployment)
    requires Consistent(db.events, rpc, c, deployment) && RemoteEvent(rpc, c, deployment, n, e) && n !in s.at
    ensures Agrees(db.events, e)
  {
    EventIsRemote(rpc, c, deployment, n, e);
    var k := KeyOf(e);
    if k in db.events && db.events[k].canonical {
      var row := db.events[k].event;
      assert RowFits(rpc, c, row, e);
      assert row.number in s.at && row in s.at[row.number].events;
      assert EventFits(c, s.at[row.number].block, row) && Common(s, rpc.remote, row.number);
    }
  }

  /** The next remote block is accepted on top of a local chain that agrees with the remote one. */
  lemma RecordIsAccepted(db: Db, s: Stack, rpc: Rpc, c: Contract, deployment: nat, n: nat, goal: nat, token: Token)
    requires Represents(db, c, s) && AllCommon(s, rpc.remote) && Sound(rpc, c, deployment)
    requires Consistent(db.events, rpc, c, deployment)
    requires deployment <= n && n in rpc.remote && n <= goal && IsSafeInteger(goal) && Owns(db, c, Some(token))
    requires if IsEmpty(s) then n == deployment else n == s.hi
    ensures RecordCanonicalBlock(db, c, rpc.remote[n], Decoded(rpc.LogsOf(n), c), Some(goal), Some(token)).Ok?
  {
    var es := Decoded(rpc.LogsOf(n), c);
    assert LogsFit(rpc.LogsOf(n), c, rpc.remote[n]);
    CanonicalAtIs(db, c, s, n);
    forall e | e in es ensures Agrees(db.events, e) {
      assert RemoteEvent(rpc, c, deployment, n, e);
      EventsAgree(db, s, rpc, c, deployment, n, e);
    }
    PlacementIsNext(db, s, rpc, c, n, es);
    hide Represents, AllCommon, Sound, Consistent, Agrees, Placement, ValidEvent, Decoded, DistinctKeys;
  }

  lemma PlacementIsNext(db: Db, s: Stack, rpc: Rpc, c: Contract, n: nat, es: seq<Event>)
    requires Represents(db, c, s) && AllCommon(s, rpc.remote) && RemoteChain(rpc.remote) && n in rpc.remote
    requires !IsEmpty(s) ==> n == s.hi
    requires n !in s.at
    ensures Placement(db, c, rpc.remote[n], es) == Ok(false)
  {
    CanonicalAtIs(db, c, s, n);
    if !IsEmpty(s) { assert s.hi - 1 in s.at && Common(s, rpc.remote, s.hi - 1); }
  }

  /** Projections on blocks of the local chain are accepted. */
  lemma {:induction false} NoFault(db: Db, c: Contract, p: Point, views: seq<Projection>)
    requires DistinctProjections(views)
    requires forall q :: q in views ==> q.contract == c && ValidName(q.key) && q.at.number <= p.number
                                        && IsCanonical(db, c, q.at)
    ensures FirstFault(db, c, p, views).None?
  {
    if views != [] {
      var n := |views| - 1;
      assert views == views[..n] + [views[n]];
      NoFault(db, c, p, views[..n]);
      assert !ProjectionKeyIn(views[..n], ProjectionKeyOf(views[n]));
    }
  }

  /** The projections of the top block are accepted when the local chain agrees with the remote one. */
  lemma CommitIsAccepted(db: Db, s: Stack, rpc: Rpc, c: Contract, deployment: nat, token: Token)
    requires Represents(db, c, s) && AllCommon(s, rpc.remote) && Sound(rpc, c, deployment)
    requires !IsEmpty(s) && s.lo == deployment && IsSafeInteger(s.hi - 1) && Owns(db, c, Some(token))
    ensures s.hi - 1 in s.at
    ensures CommitProjections(db, c, Point(s.hi - 1, Top(s).block.hash), rpc.ViewsOf(s.hi - 1), Some(token)).Ok?
  {
    var n := s.hi - 1;
    assert n in s.at && Common(s, rpc.remote, n);
    var p := Point(n, Top(s).block.hash);
    var views := rpc.ViewsOf(n);
    assert ViewsFit(views, c, rpc.remote, deployment, n);
    forall q | q in views ensures IsCanonical(db, c, q.at) {
      assert q.at.number in s.at && Common(s, rpc.remote, q.at.number);
    }
    NoFault(db, c, p, views);
    assert IsCanonical(db, c, p);
    hide FirstFault, Represents, AllCommon, Sound;
  }

  /** A recording writes exactly its events. */
  lemma RecordedEvents(db: Db, c: Contract, b: Block, es: seq<Event>, target: Option<nat>, token: Option<Token>)
    requires RecordCanonicalBlock(db, c, b, es, target, token).Ok?
    ensures RecordCanonicalBlock(db, c, b, es, target, token).value.events == PutEvents(db.events, es)
  {
    hide Agrees, ValidEvent, DistinctKeys;
  }

  lemma LowerIsRemote(remote: map<nat, Block>, m: nat, n: nat)
    requires RemoteChain(remote) && n in remote && m <= n
    ensures m in remote
  {}
}
