/**
 Rollback loses nothing: recording the rolled-back blocks again brings back the
 very same rows. And the ordered event query is the concatenation of the stack.
 */
module ChainRestore {
  import opened Prelude
  import opened Lifecycle
  import opened ChainTables
  import opened ChainStack

  lemma SameEntries(db: Db, c: Contract, s: Stack, t: Stack, n: nat)
    requires Represents(db, c, s) && Represents(db, c, t)
    requires n in s.at
    ensures n in t.at && s.at[n] == t.at[n]
  {
    CanonicalAtIs(db, c, s, n);
    CanonicalAtIs(db, c, t, n);
    EventsAtIs(db, c, s, n);
    EventsAtIs(db, c, t, n);
  }

  /** Tables that represent two stacks have the same entries in both. */
  lemma RepresentsOneStack(db: Db, c: Contract, s: Stack, t: Stack)
    requires Represents(db, c, s) && Represents(db, c, t)
    ensures s.at == t.at && (!IsEmpty(s) ==> s == t)
  {
    forall n | n in s.at ensures n in t.at && s.at[n] == t.at[n] { SameEntries(db, c, s, t, n); }
    forall n | n in t.at ensures n in s.at { SameEntries(db, c, t, s, n); }
    assert Linked(s) && Linked(t);
    hide Represents, BlocksMatch, EventsMatch;
    if !IsEmpty(s) {
      assert s.lo in t.at && s.hi - 1 in t.at;
      assert t.lo in s.at && t.hi - 1 in s.at;
    }
  }

  datatype Recording = Recording(block: Block, events: seq<Event>)

  ghost predicate Acceptable(c: Contract, r: Recording) {
    && IsSafeInteger(r.block.number) && !BadInput(r.block, r.events) && DistinctKeys(r.events)
    && (forall e :: e in r.events ==> ValidEvent(e, c, r.block))
  }

  ghost predicate Describes(e: Entry, r: Recording) { e == Entry(r.block, SetOf(r.events)) }

  /** Records the given blocks in order, stopping at the first that throws. */
  ghost function RecordAll(db: Db, c: Contract, rs: seq<Recording>, token: Option<Token>): Result<Db, StoreError>
    decreases |rs|
  {
    if rs == [] then Ok(db) else
    match RecordCanonicalBlock(db, c, rs[0].block, rs[0].events, None, token)
    case Err(e) => Err(e)
    case Ok(next) => RecordAll(next, c, rs[1..], token)
  }

  /** `db` is `db0` with everything of `c` at height `h` or above turned into tombstones. */
  ghost predicate Tombed(db0: Db, db: Db, c: Contract, s: Stack, h: nat) {
    && s.lo <= h <= s.hi
    && db.blocks == TombBlocks(db0.blocks, c, h)
    && db.events == TombEvents(db0.events, c, h)
    && CheckpointMatches(db, c, Truncate(s, h))
  }

  lemma TombedRepresents(db0: Db, db: Db, c: Contract, s: Stack, h: nat)
    requires Represents(db0, c, s) && Tombed(db0, db, c, s, h)
    ensures Represents(db, c, Truncate(s, h))
  {
    TruncateBlocks(db0, c, s, h);
    TruncateEvents(db0, c, s, h);
  }

  lemma PlacedNext(db0: Db, db: Db, c: Contract, s: Stack, h: nat, r: Recording)
    requires Represents(db0, c, s) && Tombed(db0, db, c, s, h) && h < s.hi
    requires Describes(s.at[h], r)
    ensures Placement(db, c, r.block, r.events) == Ok(false)
  {
    TombedRepresents(db0, db, c, s, h);
    CanonicalAtIs(db, c, Truncate(s, h), r.block.number);
  }

  lemma AllAgree(db0: Db, db: Db, c: Contract, s: Stack, h: nat, r: Recording)
    requires Represents(db0, c, s) && Tombed(db0, db, c, s, h) && h < s.hi
    requires Describes(s.at[h], r)
    ensures forall e :: e in r.events ==> Agrees(db.events, e)
  {
    forall e | e in r.events ensures Agrees(db.events, e) {
      assert e in s.at[h].events;
    }
  }

  lemma UntombBlocks(rows: map<BlockKey, BlockRow>, c: Contract, s: Stack, h: nat)
    requires Linked(s) && BlocksMatch(rows, c, s) && h in s.at
    ensures TombBlocks(rows, c, h)[BlockKey(c, h, s.at[h].block.hash) := RowOf(s.at[h])] == TombBlocks(rows, c, h + 1)
  {}

  lemma UntombSupplied(rows: map<EventKey, EventRow>, c: Contract, s: Stack, h: nat, es: seq<Event>, e: Event)
    requires EventsMatch(rows, c, s) && h in s.at && SetOf(es) == s.at[h].events && e in es
    requires Linked(s)
    ensures KeyOf(e) in TombEvents(rows, c, h + 1) && TombEvents(rows, c, h + 1)[KeyOf(e)] == EventRow(e, true)
  {
    assert e in s.at[h].events;
  }

  lemma UntombOther(rows: map<EventKey, EventRow>, c: Contract, s: Stack, h: nat, es: seq<Event>, k: EventKey)
    requires KeyedEvents(rows) && Linked(s) && EventsMatch(rows, c, s) && h in s.at
    requires SetOf(es) == s.at[h].events && k in rows && (forall e :: e in es ==> KeyOf(e) != k)
    ensures TombEvents(rows, c, h)[k] == TombEvents(rows, c, h + 1)[k]
  {
    assert rows[k].event !in es;
  }

  lemma UntombEvents(rows: map<EventKey, EventRow>, c: Contract, s: Stack, h: nat, es: seq<Event>)
    requires KeyedEvents(rows) && Linked(s) && EventsMatch(rows, c, s) && h in s.at
    requires SetOf(es) == s.at[h].events && DistinctKeys(es)
    ensures PutEvents(TombEvents(rows, c, h), es) == TombEvents(rows, c, h + 1)
  {
    var tomb, goal := TombEvents(rows, c, h), TombEvents(rows, c, h + 1);
    PutEventsAt(tomb, es);
    forall e | e in es ensures KeyOf(e) in goal && goal[KeyOf(e)] == EventRow(e, true) {
      UntombSupplied(rows, c, s, h, es, e);
    }
    forall k | k in tomb && (forall e :: e in es ==> KeyOf(e) != k) ensures tomb[k] == goal[k] {
      UntombOther(rows, c, s, h, es, k);
    }
    SameMap(PutEvents(tomb, es), goal, tomb, es);
  }

  lemma SameMap(put: map<EventKey, EventRow>, goal: map<EventKey, EventRow>, tomb: map<EventKey, EventRow>, es: seq<Event>)
    requires put.Keys == tomb.Keys + set e | e in es :: KeyOf(e)
    requires goal.Keys == tomb.Keys
    requires forall e :: e in es ==> put[KeyOf(e)] == EventRow(e, true)
    requires forall e :: e in es ==> KeyOf(e) in goal && goal[KeyOf(e)] == EventRow(e, true)
    requires forall k :: k in tomb && (forall e :: e in es ==> KeyOf(e) != k) ==> put[k] == tomb[k] == goal[k]
    ensures put == goal
  {}

  lemma RecordsNext(db0: Db, db: Db, c: Contract, s: Stack, h: nat, r: Recording, token: Option<Token>)
    requires Represents(db0, c, s) && Tombed(db0, db, c, s, h) && h < s.hi
    requires Describes(s.at[h], r) && Acceptable(c, r) && Owns(db, c, token)
    ensures RecordCanonicalBlock(db, c, r.block, r.events, None, token)
            == Ok(PutBlock(db, c, r.block, r.events, false))
  {
    PlacedNext(db0, db, c, s, h, r);
    AllAgree(db0, db, c, s, h, r);
  }

  lemma StepRestores(db0: Db, db: Db, c: Contract, s: Stack, h: nat, r: Recording)
    requires Represents(db0, c, s) && Tombed(db0, db, c, s, h) && h < s.hi
    requires Describes(s.at[h], r) && Acceptable(c, r)
    ensures Tombed(db0, PutBlock(db, c, r.block, r.events, false), c, s, h + 1)
  {
    StepRestoresCheckpoint(db, c, s, h, r);
    hide TombBlocks, TombEvents, PutEvents, CheckpointMatches, Truncate;
    UntombBlocks(db0.blocks, c, s, h);
    UntombEvents(db0.events, c, s, h, r.events);
    SetOfSize(r.events);
  }

  lemma StepRestoresCheckpoint(db: Db, c: Contract, s: Stack, h: nat, r: Recording)
    requires Linked(s) && h in s.at && s.at[h].block == r.block
    requires CheckpointMatches(db, c, Truncate(s, h))
    ensures CheckpointMatches(PutBlock(db, c, r.block, r.events, false), c, Truncate(s, h + 1))
  {}

  /** The recordings bring back the stack from height `h` up to its top. */
  ghost predicate Script(c: Contract, s: Stack, h: nat, rs: seq<Recording>)
    decreases |rs|
  {
    if rs == [] then h == s.hi
    else h in s.at && Describes(s.at[h], rs[0]) && Acceptable(c, rs[0]) && Script(c, s, h + 1, rs[1..])
  }

  lemma {:induction false} RecordAllRestores(db0: Db, db: Db, c: Contract, s: Stack, h: nat, rs: seq<Recording>,
                                             token: Option<Token>)
    requires Represents(db0, c, s) && Tombed(db0, db, c, s, h) && Owns(db, c, token)
    requires Script(c, s, h, rs)
    ensures var r := RecordAll(db, c, rs, token);
            r.Ok? && Tombed(db0, r.value, c, s, s.hi)
    decreases |rs|
  {
    if rs != [] {
      RecordsNext(db0, db, c, s, h, rs[0], token);
      StepRestores(db0, db, c, s, h, rs[0]);
      RecordAllRestores(db0, PutBlock(db, c, rs[0].block, rs[0].events, false), c, s, h + 1, rs[1..], token);
    }
  }

  lemma TombNothing(db: Db, c: Contract, s: Stack, n: nat)
    requires Represents(db, c, s) && s.hi <= n
    ensures TombBlocks(db.blocks, c, n) == db.blocks && TombEvents(db.events, c, n) == db.events
  {
    assert forall k :: k in db.blocks && k.contract == c && n <= k.number ==> !db.blocks[k].canonical;
    assert forall k :: k in db.events && OfContract(db.events[k].event, c) && n <= db.events[k].event.number ==>
      !db.events[k].canonical;
  }

  lemma TombFromFloor(db: Db, c: Contract, s: Stack, n: nat)
    requires Represents(db, c, s)
    ensures TombBlocks(db.blocks, c, n) == TombBlocks(db.blocks, c, Floor(s, n))
    ensures TombEvents(db.events, c, n) == TombEvents(db.events, c, Floor(s, n))
  {
    if s.hi <= n {
      TombNothing(db, c, s, n);
      TombNothing(db, c, s, s.hi);
    } else if n < s.lo {
      assert forall k :: k in db.blocks && k.contract == c && k.number < s.lo ==> !db.blocks[k].canonical;
      assert forall k :: k in db.events && OfContract(db.events[k].event, c) && db.events[k].event.number < s.lo ==>
        !db.events[k].canonical;
    }
  }

  lemma RollbackTombsRows(db: Db, c: Contract, n: nat, token: Option<Token>)
    requires RollbackFromBlock(db, c, n, token).Ok?
    ensures RollbackFromBlock(db, c, n, token).value.blocks == TombBlocks(db.blocks, c, n)
    ensures RollbackFromBlock(db, c, n, token).value.events == TombEvents(db.events, c, n)
  {
    hide TombBlocks, TombEvents, TombOperations, TopBelow;
  }

  lemma FloorTruncates(db: Db, c: Contract, s: Stack, n: nat)
    requires Represents(db, c, s)
    ensures Truncate(s, n) == Truncate(s, Floor(s, n)) && s.lo <= Floor(s, n) <= s.hi
  {}

  lemma RollbackTombs(db: Db, c: Contract, s: Stack, n: nat, token: Option<Token>)
    requires Represents(db, c, s) && RollbackFromBlock(db, c, n, token).Ok?
    ensures Tombed(db, RollbackFromBlock(db, c, n, token).value, c, s, Floor(s, n))
  {
    hide Represents, RollbackFromBlock, CheckpointMatches, TombBlocks, TombEvents, Truncate, Floor;
    TruncateCheckpoint(db, c, s, n, token);
    FloorTruncates(db, c, s, n);
    TombFromFloor(db, c, s, n);
    RollbackTombsRows(db, c, n, token);
  }

  /**
   Rolling back from any height and recording the removed blocks again, in order
   and with the same logs, is accepted step by step and restores every block row,
   every event row and the checkpoint.
   */
  lemma RerecordingRestores(db: Db, c: Contract, s: Stack, n: nat, rs: seq<Recording>, token: Option<Token>)
    requires Represents(db, c, s) && RollbackFromBlock(db, c, n, token).Ok?
    requires Script(c, s, Floor(s, n), rs)
    ensures var back := RecordAll(RollbackFromBlock(db, c, n, token).value, c, rs, token);
            back.Ok? && back.value.blocks == db.blocks && back.value.events == db.events
            && Represents(back.value, c, s)
  {
    var gone := RollbackFromBlock(db, c, n, token).value;
    RollbackKeepsLease(db, c, n, token);
    assert Linked(s);
    hide Represents, Linked, RollbackFromBlock, TombBlocks, TombEvents, Truncate, CheckpointMatches, RecordAll, Script;
    RollbackTombs(db, c, s, n, token);
    RecordAllRestores(db, gone, c, s, Floor(s, n), rs, token);
    var back := RecordAll(gone, c, rs, token).value;
    TombNothing(db, c, s, s.hi);
    TombedRepresents(db, back, c, s, s.hi);
    WholeTruncation(s);
  }

  lemma RollbackKeepsLease(db: Db, c: Contract, n: nat, token: Option<Token>)
    requires RollbackFromBlock(db, c, n, token).Ok?
    ensures Owns(RollbackFromBlock(db, c, n, token).value, c, token)
  {}

  lemma WholeTruncation(s: Stack)
    requires Linked(s)
    ensures Truncate(s, s.hi) == s
  {}
}
