/**
 What the block, event and checkpoint tables of one contract mean: a stack of
 blocks with their events, indexed by height. Recording is push (or replays the
 top), rollback is truncation.
 */
module ChainStack {
  import opened Prelude
  import opened Lifecycle
  import opened ChainTables

  datatype Entry = Entry(block: Block, events: set<Event>)

  /** The entries at heights lo, ..., hi - 1; the top is at hi - 1. */
  datatype Stack = Stack(lo: nat, hi: nat, at: map<nat, Entry>)

  /** Contiguous heights and parent links. */
  ghost predicate Linked(s: Stack) {
    && s.lo <= s.hi
    && (forall n :: n in s.at <==> s.lo <= n < s.hi)
    && (forall n :: n in s.at ==> s.at[n].block.number == n)
    && (forall n, m :: n in s.at && m in s.at && m == n + 1 ==> s.at[m].block.parent == s.at[n].block.hash)
  }

  predicate IsEmpty(s: Stack) { s.lo == s.hi }

  function Top(s: Stack): Entry
    requires s.lo < s.hi && s.hi - 1 in s.at
  {
    s.at[s.hi - 1]
  }

  ghost function Push(s: Stack, b: Block, es: set<Event>): Stack {
    Stack(if IsEmpty(s) then b.number else s.lo, b.number + 1,
          (if IsEmpty(s) then map[] else s.at)[b.number := Entry(b, es)])
  }

  ghost function Truncate(s: Stack, n: nat): Stack {
    var hi := if n < s.lo then s.lo else if n < s.hi then n else s.hi;
    Stack(s.lo, hi, map m | m in s.at && m < n :: s.at[m])
  }

  function RowOf(e: Entry): BlockRow { BlockRow(e.block.parent, e.block.timestamp, |e.events|, true) }

  /** The canonical block rows of `c` are exactly those of the stack. */
  ghost predicate BlocksMatch(rows: map<BlockKey, BlockRow>, c: Contract, s: Stack) {
    && (forall n :: n in s.at ==>
          var k := BlockKey(c, n, s.at[n].block.hash);
          k in rows && rows[k] == RowOf(s.at[n]))
    && (forall k :: k in rows && k.contract == c && rows[k].canonical ==>
          k.number in s.at && k.hash == s.at[k.number].block.hash)
  }

  ghost predicate EventFits(c: Contract, b: Block, e: Event) {
    OfContract(e, c) && e.number == b.number && e.hash == b.hash
  }

  /** The canonical event rows of `c` are exactly those of the stack. */
  ghost predicate EventsMatch(rows: map<EventKey, EventRow>, c: Contract, s: Stack) {
    && (forall n, e {:trigger e in s.at[n].events} :: n in s.at && e in s.at[n].events ==>
          EventFits(c, s.at[n].block, e) && KeyOf(e) in rows && rows[KeyOf(e)] == EventRow(e, true))
    && (forall k :: k in rows && rows[k].canonical && OfContract(rows[k].event, c) ==>
          rows[k].event.number in s.at && rows[k].event in s.at[rows[k].event.number].events)
  }

  ghost predicate CheckpointMatches(db: Db, c: Contract, s: Stack) {
    if s.lo >= s.hi || s.hi - 1 !in s.at then c !in db.checkpoints
    else c in db.checkpoints && db.checkpoints[c].at == Point(s.hi - 1, Top(s).block.hash)
  }

  /** Rows of the event table are stored under their own key. */
  ghost predicate KeyedEvents(rows: map<EventKey, EventRow>) {
    forall k :: k in rows ==> KeyOf(rows[k].event) == k
  }

  /** The tables of `c` represent the stack `s`. */
  ghost predicate Represents(db: Db, c: Contract, s: Stack) {
    KeyedEvents(db.events) && Linked(s) && BlocksMatch(db.blocks, c, s) && EventsMatch(db.events, c, s)
    && CheckpointMatches(db, c, s)
  }

  const NOTHING := Stack(0, 0, map[])

  lemma EmptyRepresents(c: Contract)
    ensures Represents(EMPTY, c, NOTHING)
  {}

  // ---- lookups --------------------------------------------------------------

  lemma CanonicalAtIs(db: Db, c: Contract, s: Stack, n: nat)
    requires Linked(s) && BlocksMatch(db.blocks, c, s)
    ensures CanonicalAt(db, c, n) == if n in s.at then Some(BlockKey(c, n, s.at[n].block.hash)) else None
  {
    if n in s.at {
      assert CanonicalKey(db, c, n, BlockKey(c, n, s.at[n].block.hash));
    }
  }

  lemma EventsAtIs(db: Db, c: Contract, s: Stack, n: nat)
    requires KeyedEvents(db.events) && Linked(s) && EventsMatch(db.events, c, s)
    ensures EventsAt(db, c, n) == if n in s.at then s.at[n].events else {}
  {
    if n in s.at {
      forall e | e in s.at[n].events ensures e in EventsAt(db, c, n) {
        assert KeyOf(e) in db.events;
      }
    }
  }

  // ---- writing events -------------------------------------------------------

  lemma {:induction false} PutEventsAt(rows: map<EventKey, EventRow>, es: seq<Event>)
    requires DistinctKeys(es)
    ensures PutEvents(rows, es).Keys == rows.Keys + set e | e in es :: KeyOf(e)
    ensures forall e :: e in es ==> PutEvents(rows, es)[KeyOf(e)] == EventRow(e, true)
    ensures forall k :: k in rows && (forall e :: e in es ==> KeyOf(e) != k) ==> PutEvents(rows, es)[k] == rows[k]
  {
    if es != [] {
      var n := |es| - 1;
      PutEventsAt(rows, es[..n]);
      LastKeyIsNew(es);
      assert PutEvents(rows, es) == PutEvents(rows, es[..n])[KeyOf(es[n]) := EventRow(es[n], true)];
      hide KeyOf, DistinctKeys, PutEvents;
    }
  }

  lemma LastKeyIsNew(es: seq<Event>)
    requires es != [] && DistinctKeys(es)
    ensures es == es[..|es| - 1] + [es[|es| - 1]]
    ensures forall e :: e in es[..|es| - 1] ==> KeyOf(e) != KeyOf(es[|es| - 1])
  {
    var n := |es| - 1;
    forall e | e in es[..n] ensures KeyOf(e) != KeyOf(es[n]) {
      var i :| 0 <= i < n && es[i] == e;
    }
  }

  /** With distinct keys the event set has as many members as the list. */
  lemma {:induction false} SetOfSize(es: seq<Event>)
    requires DistinctKeys(es)
    ensures |SetOf(es)| == |es|
  {
    if es != [] {
      var n := |es| - 1;
      SetOfSize(es[..n]);
      assert es == es[..n] + [es[n]];
      assert SetOf(es) == SetOf(es[..n]) + {es[n]};
      assert es[n] !in es[..n];
    }
  }

  // ---- push -----------------------------------------------------------------

  /** What the checks of a successful recording established. */
  ghost predicate Recordable(db: Db, c: Contract, b: Block, es: seq<Event>, replay: bool) {
    && (forall e :: e in es ==> ValidEvent(e, c, b) && Agrees(db.events, e))
    && DistinctKeys(es)
    && Placement(db, c, b, es) == Ok(replay)
  }

  ghost function Recorded(s: Stack, b: Block, es: seq<Event>, replay: bool): Stack {
    if replay then s else Push(s, b, SetOf(es))
  }

  lemma ReplayIsTop(db: Db, c: Contract, s: Stack, b: Block, es: seq<Event>)
    requires Represents(db, c, s) && Placement(db, c, b, es) == Ok(true)
    ensures !IsEmpty(s) && s.hi - 1 in s.at && b.number == s.hi - 1 && b.hash == Top(s).block.hash
            && Top(s).events == SetOf(es)
  {
    CanonicalAtIs(db, c, s, b.number);
    EventsAtIs(db, c, s, b.number);
  }

  lemma {:induction false} PutPresent(rows: map<EventKey, EventRow>, es: seq<Event>)
    requires forall e :: e in es ==> KeyOf(e) in rows && rows[KeyOf(e)] == EventRow(e, true)
    ensures PutEvents(rows, es) == rows
  {
    if es != [] {
      assert es[|es| - 1] in es;
      PutPresent(rows, es[..|es| - 1]);
    }
  }

  lemma ReplayChangesNothing(db: Db, c: Contract, s: Stack, b: Block, es: seq<Event>)
    requires Represents(db, c, s) && Recordable(db, c, b, es, true)
    ensures PutBlock(db, c, b, es, true) == db
  {
    ReplayIsTop(db, c, s, b, es);
    forall e | e in es ensures KeyOf(e) in db.events && db.events[KeyOf(e)] == EventRow(e, true) {
      assert e in s.at[s.hi - 1].events;
    }
    PutPresent(db.events, es);
  }

  lemma PushIsNext(db: Db, c: Contract, s: Stack, b: Block, es: seq<Event>)
    requires Represents(db, c, s) && Placement(db, c, b, es) == Ok(false)
    ensures !IsEmpty(s) ==> s.hi - 1 in s.at && b.number == s.hi && b.parent == Top(s).block.hash
    ensures b.number !in s.at
    ensures Linked(Push(s, b, SetOf(es)))
  {}

  /** The top again is a replay exactly when its hash and its events are the same. */
  lemma ReplayIsExact(db: Db, c: Contract, s: Stack, b: Block, es: seq<Event>)
    requires Represents(db, c, s) && !IsEmpty(s) && b.number == s.hi - 1 && DistinctKeys(es)
    ensures s.hi - 1 in s.at
    ensures Placement(db, c, b, es) == Ok(true) <==> b.hash == Top(s).block.hash && SetOf(es) == Top(s).events
    ensures Placement(db, c, b, es) != Ok(true) ==> Placement(db, c, b, es) == Err(BlockConflict)
  {
    CanonicalAtIs(db, c, s, b.number);
    EventsAtIs(db, c, s, b.number);
    SetOfSize(es);
  }

  /** The exact top with its exact events is recorded again, and changes nothing but the demand. */
  lemma ReplayIsAccepted(db: Db, c: Contract, s: Stack, b: Block, es: seq<Event>, target: Option<nat>, token: Option<Token>)
    requires Represents(db, c, s) && !IsEmpty(s) && b.number == s.hi - 1 && IsSafeInteger(b.number)
    requires s.hi - 1 in s.at && b.hash == Top(s).block.hash && SetOf(es) == Top(s).events
    requires !BadInput(b, es) && DistinctKeys(es) && (forall e :: e in es ==> ValidEvent(e, c, b)) && Owns(db, c, token)
    requires target.Some? ==> b.number <= target.value && IsSafeInteger(target.value)
    ensures c in db.checkpoints
    ensures RecordCanonicalBlock(db, c, b, es, target, token)
            == Ok(if target.None? then db
                  else db.(checkpoints := db.checkpoints[c := Demand(db.checkpoints[c], target.value)]))
  {
    ReplayIsExact(db, c, s, b, es);
    forall e | e in es ensures Agrees(db.events, e) {
      assert e in SetOf(es) && e in s.at[s.hi - 1].events;
    }
    assert Recordable(db, c, b, es, true);
    ReplayChangesNothing(db, c, s, b, es);
    hide Represents, Placement, PutBlock, ValidEvent, Agrees, DistinctKeys, Recordable;
  }

  /** A supplied event of a new block cannot already be canonical for any contract. */
  lemma PushedEventsAreNew(db: Db, c: Contract, s: Stack, b: Block, es: seq<Event>, e: Event)
    requires Represents(db, c, s) && Recordable(db, c, b, es, false) && e in es
    ensures KeyOf(e) in db.events ==> !db.events[KeyOf(e)].canonical && OfContract(db.events[KeyOf(e)].event, c)
  {
    PushIsNext(db, c, s, b, es);
  }

  lemma PushBlocks(db: Db, c: Contract, s: Stack, b: Block, es: seq<Event>)
    requires Represents(db, c, s) && Recordable(db, c, b, es, false)
    ensures BlocksMatch(PutBlock(db, c, b, es, false).blocks, c, Push(s, b, SetOf(es)))
  {
    PushIsNext(db, c, s, b, es);
    SetOfSize(es);
  }

  /** The rows of a list of new events are put beside the canonical ones. */
  ghost predicate PutBeside(rows: map<EventKey, EventRow>, rows': map<EventKey, EventRow>, c: Contract, es: seq<Event>) {
    && (forall k :: k in rows && rows[k].canonical ==> k in rows' && rows'[k] == rows[k])
    && (forall k :: k in rows && !OfContract(rows[k].event, c) ==> k in rows' && rows'[k] == rows[k])
    && (forall e :: e in es ==> KeyOf(e) in rows' && rows'[KeyOf(e)] == EventRow(e, true))
    && (forall k :: k in rows' ==> (k in rows && rows'[k] == rows[k]) || rows'[k].event in es)
  }

  lemma PutIsBeside(db: Db, c: Contract, s: Stack, b: Block, es: seq<Event>)
    requires Represents(db, c, s) && Recordable(db, c, b, es, false)
    ensures PutBeside(db.events, PutEvents(db.events, es), c, es)
    ensures KeyedEvents(PutEvents(db.events, es))
  {
    PutEventsAt(db.events, es);
    forall e | e in es
      ensures KeyOf(e) in db.events ==>
                !db.events[KeyOf(e)].canonical && OfContract(db.events[KeyOf(e)].event, c)
    {
      PushedEventsAreNew(db, c, s, b, es, e);
    }
  }

  lemma PushEvents(rows: map<EventKey, EventRow>, rows': map<EventKey, EventRow>, c: Contract, s: Stack,
                   b: Block, es: seq<Event>)
    requires EventsMatch(rows, c, s) && PutBeside(rows, rows', c, es)
    requires Linked(s) && b.number !in s.at && (forall e :: e in es ==> EventFits(c, b, e))
    ensures EventsMatch(rows', c, Push(s, b, SetOf(es)))
  {}

  /** `d`'s blocks and events are untouched and its checkpoint has not moved. */
  ghost predicate SameChain(db: Db, db': Db, d: Contract) {
    && db'.blocks == db.blocks && db'.events == db.events
    && (d in db'.checkpoints <==> d in db.checkpoints)
    && (d in db.checkpoints ==> db'.checkpoints[d].at == db.checkpoints[d].at)
  }

  lemma SameChainRepresents(db: Db, db': Db, d: Contract, s: Stack)
    requires Represents(db, d, s) && SameChain(db, db', d)
    ensures Represents(db', d, s)
  {}

  lemma DemandKeeps(db: Db, c: Contract, target: Option<nat>, d: Contract, s: Stack)
    requires c in db.checkpoints && Represents(db, d, s)
    ensures Represents(DemandAt(db, c, target), d, s)
  {
    assert SameChain(db, DemandAt(db, c, target), d);
    SameChainRepresents(db, DemandAt(db, c, target), d, s);
  }

  lemma PutIsPush(db: Db, c: Contract, s: Stack, b: Block, es: seq<Event>)
    requires Represents(db, c, s) && Recordable(db, c, b, es, false)
    ensures Represents(PutBlock(db, c, b, es, false), c, Push(s, b, SetOf(es)))
  {
    var mid := PutBlock(db, c, b, es, false);
    PushIsNext(db, c, s, b, es);
    PushBlocks(db, c, s, b, es);
    PutIsBeside(db, c, s, b, es);
    PushEvents(db.events, mid.events, c, s, b, es);
    PutCheckpoint(db, c, s, b, es);
  }

  lemma PutCheckpoint(db: Db, c: Contract, s: Stack, b: Block, es: seq<Event>)
    requires Represents(db, c, s) && Placement(db, c, b, es) == Ok(false)
    ensures CheckpointMatches(PutBlock(db, c, b, es, false), c, Push(s, b, SetOf(es)))
  {
    PushIsNext(db, c, s, b, es);
  }

  /** A successful recording pushes the block, or replays the top and changes no block or event. */
  lemma RecordIsPush(db: Db, c: Contract, s: Stack, b: Block, es: seq<Event>, target: Option<nat>, token: Option<Token>)
    requires Represents(db, c, s)
    requires RecordCanonicalBlock(db, c, b, es, target, token).Ok?
    ensures var db' := RecordCanonicalBlock(db, c, b, es, target, token).value;
            Placement(db, c, b, es).Ok?
            && var replay := Placement(db, c, b, es).value;
               Represents(db', c, Recorded(s, b, es, replay))
               && (replay ==> db'.blocks == db.blocks && db'.events == db.events && !IsEmpty(s)
                              && s.hi - 1 == b.number && Top(s).block.hash == b.hash && Top(s).events == SetOf(es))
               && (!replay && !IsEmpty(s) ==> b.number == s.hi && b.parent == Top(s).block.hash)
  {
    var replay := Placement(db, c, b, es).value;
    assert Recordable(db, c, b, es, replay);
    hide Represents, Recordable, Placement, PutBlock, Push;
    if replay {
      ReplayIsTop(db, c, s, b, es);
      ReplayChangesNothing(db, c, s, b, es);
    } else {
      PushIsNext(db, c, s, b, es);
      PutIsPush(db, c, s, b, es);
    }
    RecordedIsDemanded(db, c, b, es, target, token);
    DemandKeeps(PutBlock(db, c, b, es, replay), c, target, c, Recorded(s, b, es, replay));
  }

  lemma RecordedIsDemanded(db: Db, c: Contract, b: Block, es: seq<Event>, target: Option<nat>, token: Option<Token>)
    requires RecordCanonicalBlock(db, c, b, es, target, token).Ok?
    ensures Placement(db, c, b, es).Ok?
    ensures var mid := PutBlock(db, c, b, es, Placement(db, c, b, es).value);
            c in mid.checkpoints
            && RecordCanonicalBlock(db, c, b, es, target, token) == Ok(DemandAt(mid, c, target))
            && DemandAt(mid, c, target).blocks == mid.blocks && DemandAt(mid, c, target).events == mid.events
  {}

  // ---- rollback -------------------------------------------------------------

  /** The height on which the stack ends after rolling back from `n`. */
  function Floor(s: Stack, n: nat): nat {
    if n < s.lo then s.lo else if n < s.hi then n else s.hi
  }

  lemma TopBelowIs(db: Db, c: Contract, s: Stack, n: nat)
    requires Linked(s) && BlocksMatch(db.blocks, c, s)
    ensures TopBelow(db, c, n)
            == if s.lo < Floor(s, n) then Some(BlockKey(c, Floor(s, n) - 1, s.at[Floor(s, n) - 1].block.hash)) else None
  {
    var top := Floor(s, n) - 1;
    if s.lo < Floor(s, n) {
      var k := BlockKey(c, top, s.at[top].block.hash);
      assert k in db.blocks;
      assert IsTopBelow(db, c, n, k);
    }
  }

  lemma TruncateBlocks(db: Db, c: Contract, s: Stack, n: nat)
    requires Represents(db, c, s)
    ensures BlocksMatch(TombBlocks(db.blocks, c, n), c, Truncate(s, n))
    ensures Linked(Truncate(s, n))
  {}

  lemma TruncateEvents(db: Db, c: Contract, s: Stack, n: nat)
    requires Represents(db, c, s)
    ensures EventsMatch(TombEvents(db.events, c, n), c, Truncate(s, n))
    ensures KeyedEvents(TombEvents(db.events, c, n))
  {}

  /** Rolling back from height `n` keeps exactly the entries below `n`. */
  lemma RollbackIsTruncation(db: Db, c: Contract, s: Stack, n: nat, token: Option<Token>)
    requires Represents(db, c, s)
    requires RollbackFromBlock(db, c, n, token).Ok?
    ensures Represents(RollbackFromBlock(db, c, n, token).value, c, Truncate(s, n))
  {
    var db' := RollbackFromBlock(db, c, n, token).value;
    TruncateBlocks(db, c, s, n);
    TruncateEvents(db, c, s, n);
    TruncateCheckpoint(db, c, s, n, token);
  }

  /** The canonical rows of `c` at height `n` and above. */
  ghost function CanonicalFrom(db: Db, c: Contract, n: nat): set<BlockKey> {
    set k | k in db.blocks && k.contract == c && n <= k.number && db.blocks[k].canonical
  }

  /** A rollback from `n` tombs as many rows as the stack loses entries. */
  lemma {:induction false} RowsAbove(db: Db, c: Contract, s: Stack, n: nat)
    requires Linked(s) && BlocksMatch(db.blocks, c, s)
    ensures |CanonicalFrom(db, c, n)| == s.hi - Truncate(s, n).hi
    decreases s.hi - n
  {
    hide Linked, BlocksMatch, CanonicalFrom;
    if s.hi <= n {
      NoRowsAbove(db, c, s, n);
    } else {
      RowsAbove(db, c, s, n + 1);
      OneRowMore(db, c, s, n);
    }
  }

  lemma NoRowsAbove(db: Db, c: Contract, s: Stack, n: nat)
    requires Linked(s) && BlocksMatch(db.blocks, c, s) && s.hi <= n
    ensures CanonicalFrom(db, c, n) == {} && Truncate(s, n).hi == s.hi
  {}

  lemma OneRowMore(db: Db, c: Contract, s: Stack, n: nat)
    requires Linked(s) && BlocksMatch(db.blocks, c, s) && n < s.hi
    ensures |CanonicalFrom(db, c, n)| == |CanonicalFrom(db, c, n + 1)| + if n in s.at then 1 else 0
    ensures Truncate(s, n + 1).hi == Truncate(s, n).hi + if n in s.at then 1 else 0
  {
    if n in s.at {
      var k := BlockKey(c, n, s.at[n].block.hash);
      assert k in db.blocks && db.blocks[k].canonical;
      assert CanonicalFrom(db, c, n) == CanonicalFrom(db, c, n + 1) + {k};
    } else {
      assert CanonicalFrom(db, c, n) == CanonicalFrom(db, c, n + 1);
    }
  }

  lemma TruncateCheckpoint(db: Db, c: Contract, s: Stack, n: nat, token: Option<Token>)
    requires Represents(db, c, s)
    requires RollbackFromBlock(db, c, n, token).Ok?
    ensures CheckpointMatches(RollbackFromBlock(db, c, n, token).value, c, Truncate(s, n))
  {
    TopBelowIs(db, c, s, n);
    assert RollbackFromBlock(db, c, n, token).value == Rewound(db, c, n, TopBelow(db, c, n));
    RewoundCheckpoint(db, c, s, n);
  }

  lemma RewoundCheckpoint(db: Db, c: Contract, s: Stack, n: nat)
    requires Linked(s) && CheckpointMatches(db, c, s)
    requires TopBelow(db, c, n)
             == if s.lo < Floor(s, n) then Some(BlockKey(c, Floor(s, n) - 1, s.at[Floor(s, n) - 1].block.hash)) else None
    ensures CheckpointMatches(Rewound(db, c, n, TopBelow(db, c, n)), c, Truncate(s, n))
  {
    hide TopBelow, TombBlocks, TombEvents, TombOperations, DropProjections;
  }

  // ---- other contracts ------------------------------------------------------

  lemma RecordLeavesOthers(db: Db, c: Contract, s: Stack, b: Block, es: seq<Event>, target: Option<nat>,
                           token: Option<Token>, d: Contract, t: Stack)
    requires Represents(db, c, s) && Represents(db, d, t) && d != c
    requires RecordCanonicalBlock(db, c, b, es, target, token).Ok?
    ensures Represents(RecordCanonicalBlock(db, c, b, es, target, token).value, d, t)
  {
    var replay := Placement(db, c, b, es).value;
    assert Recordable(db, c, b, es, replay);
    if replay {
      ReplayChangesNothing(db, c, s, b, es);
    } else {
      PutLeavesOthers(db, c, s, b, es, d, t);
    }
    DemandKeeps(PutBlock(db, c, b, es, replay), c, target, d, t);
  }

  lemma PutLeavesOthers(db: Db, c: Contract, s: Stack, b: Block, es: seq<Event>, d: Contract, t: Stack)
    requires Represents(db, c, s) && Represents(db, d, t) && d != c
    requires Recordable(db, c, b, es, false)
    ensures Represents(PutBlock(db, c, b, es, false), d, t)
  {
    var mid := PutBlock(db, c, b, es, false);
    PutIsBeside(db, c, s, b, es);
    OtherEventsStay(db.events, mid.events, c, es, d, t);
    assert BlocksMatch(mid.blocks, d, t);
  }

  lemma OtherEventsStay(rows: map<EventKey, EventRow>, rows': map<EventKey, EventRow>, c: Contract, es: seq<Event>,
                        d: Contract, t: Stack)
    requires EventsMatch(rows, d, t) && PutBeside(rows, rows', c, es) && d != c
    requires forall e :: e in es ==> OfContract(e, c)
    ensures EventsMatch(rows', d, t)
  {
    assert c.chain != d.chain || c.address != d.address;
    forall k | k in rows' && rows'[k].canonical && OfContract(rows'[k].event, d)
      ensures k in rows && rows[k] == rows'[k]
    {
      assert rows'[k].event !in es;
    }
  }

  lemma RollbackLeavesOthers(db: Db, c: Contract, n: nat, token: Option<Token>, d: Contract, t: Stack)
    requires Represents(db, d, t) && d != c
    requires RollbackFromBlock(db, c, n, token).Ok?
    ensures Represents(RollbackFromBlock(db, c, n, token).value, d, t)
  {
    var db' := RollbackFromBlock(db, c, n, token).value;
    assert BlocksMatch(db'.blocks, d, t);
    assert EventsMatch(db'.events, d, t);
  }
}
