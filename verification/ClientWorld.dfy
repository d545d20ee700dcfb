/**
 Everything outside one browser tab: the service with its store, the network, the
 session cookie and the storage all tabs share. Each wait of the tab lets an
 arbitrary script of other requests, repeated deliveries, other tabs and failures run.
 */
module ClientWorld {
  import opened Prelude
  import opened Vault
  import opened VaultLaws
  import opened LocalLedger
  import opened LedgerStore
  import VaultLedger

  /** The one envelope a browser keeps until its fate is known, with the status that rejected it. */
  datatype Pending = Pending(owner: string, vaultId: string, command: Command, rejection: Option<int>)

  /** What the shared storage holds; a record that does not validate counts as garbage. */
  datatype Stored = Nothing | Garbage | Kept(pending: Pending)

  /** The part of a vault the client's protocol depends on. */
  datatype View = View(id: string, ownerId: string, strategyId: string, status: Status, revision: int)

  datatype Answer = Accepted(view: View, replayed: bool) | Rejected(status: int) | NoAnswer

  /** A status that does not come from the ledger: host, origin and rate checks, schema errors, internal failures. */
  type ForeignStatus = s: int | 400 <= s < 600 && s != CONFLICT witness 500

  /** The result of reading from the service. */
  datatype Fetched<T> = Got(value: T) | Turned(status: int) | Dropped

  const SESSION_REQUIRED := 401

  datatype Fate = Fine | Lost | TurnedAway(status: ForeignStatus)

  datatype TabAction = Leave | Clear | Put(pending: Pending)

  /** What goes on during one wait. */
  datatype Meanwhile = Meanwhile(
    arrivals: seq<Happening>, session: Option<string>, tab: TabAction, fate: Fate, overtakes: bool)

  function EnvelopeOf(p: Pending): Envelope { Envelope(p.owner, p.vaultId, p.command) }

  function ViewOf(s: State): View { View(s.id, s.ownerId, s.strategyId, s.status, s.revision) }

  ghost predicate Ran(w: World, x: World) { exists hs :: x == Happens(w, hs) }

  lemma {:induction false} HappensThen(w: World, xs: seq<Happening>, ys: seq<Happening>)
    ensures Happens(Happens(w, xs), ys) == Happens(w, xs + ys)
    decreases |xs|
  {
    hide Happen;
    if xs == [] {
      assert xs + ys == ys;
    } else {
      assert (xs + ys)[1..] == xs[1..] + ys;
      HappensThen(Happen(w, xs[0]), xs[1..], ys);
    }
  }

  lemma RanTransitive(a: World, b: World, c: World)
    requires Ran(a, b) && Ran(b, c)
    ensures Ran(a, c)
  {
    var xs :| b == Happens(a, xs);
    var ys :| c == Happens(b, ys);
    HappensThen(a, xs, ys);
  }

  lemma RanReflexive(w: World)
    ensures Ran(w, w)
  {
    assert w == Happens(w, []);
  }

  lemma RanOnce(w: World, h: Happening)
    ensures Ran(w, Happen(w, h))
  {
    assert [h][1..] == [];
    assert Happens(w, [h]) == Happen(w, h);
  }

  lemma RanKeeps(w: World, x: World)
    requires Sane(w) && Ran(w, x)
    ensures Sane(x) && Later(w, x)
  {
    var hs :| x == Happens(w, hs);
    HappensKeeps(w, hs);
  }

  // ---- facts a client may rely on, none of which a run can undo -------------

  /** The view showed the vault at some time up to now. */
  ghost predicate Seen(w: World, v: View) {
    && v.id in w.vaults && v.ownerId == w.vaults[v.id].ownerId && v.strategyId == w.vaults[v.id].strategyId
    && v.revision <= w.vaults[v.id].revision
  }

  /** The row is an event of the vault. */
  ghost predicate RowSeen(w: World, id: string, row: Event) {
    id in w.vaults && 1 <= row.revision <= |w.vaults[id].events| && w.vaults[id].events[row.revision - 1] == row
  }

  /** The envelope names a vault of its owner, at a revision the vault has reached. */
  predicate Honest(vaults: map<string, State>, p: Pending) {
    p.vaultId in vaults && vaults[p.vaultId].ownerId == p.owner && p.command.expectedRevision <= vaults[p.vaultId].revision
  }

  /** The record is honest, and a conflict it is marked with really settles its fate. */
  ghost predicate Founded(w: World, p: Pending) {
    Honest(w.vaults, p) && (p.rejection == Some(CONFLICT) ==> Stuck(w, EnvelopeOf(p)))
  }

  lemma FoundedStays(w: World, x: World, p: Pending)
    requires Sane(w) && Ran(w, x) && Founded(w, p)
    ensures Founded(x, p)
  {
    RanKeeps(w, x);
    HonestStays(w, x, p);
    var hs :| x == Happens(w, hs);
    hide Sane, Stuck, Happens, Later, Honest;
    if p.rejection == Some(CONFLICT) { RefusedForever(w, EnvelopeOf(p), hs); }
  }

  lemma SeenStays(w: World, x: World, v: View)
    requires Later(w, x) && Seen(w, v)
    ensures Seen(x, v)
  {}

  lemma RowSeenStays(w: World, x: World, id: string, row: Event)
    requires Later(w, x) && RowSeen(w, id, row)
    ensures RowSeen(x, id, row)
  {}

  lemma HonestStays(w: World, x: World, p: Pending)
    requires Later(w, x) && Honest(w.vaults, p)
    ensures Honest(x.vaults, p)
  {}

  /** Command identifiers are drawn at random: another request under this one's identifier is this one. */
  ghost predicate Agrees(e: Envelope, f: Envelope) {
    e.vaultId == f.vaultId && e.command.id == f.command.id ==> e.command == f.command
  }

  ghost predicate OwnId(w: World, e: Envelope) { forall f :: f in w.applied ==> Agrees(e, f) }

  ghost predicate ArrivalsAgree(hs: seq<Happening>, e: Envelope) {
    forall i :: 0 <= i < |hs| ==> hs[i].Deliver? ==> Agrees(e, hs[i].envelope)
  }

  ghost predicate ScriptAgrees(script: seq<Meanwhile>, e: Envelope) {
    forall i :: 0 <= i < |script| ==> ArrivalsAgree(script[i].arrivals, e)
  }

  /**
   The world has gone on from `w` to `x` while the script went from `s` to `t`; identifiers
   that were fresh stay fresh, unless the tab itself has sent an envelope that borrows them.
   */
  ghost predicate Onward(w: World, s: seq<Meanwhile>, x: World, t: seq<Meanwhile>, sent: Option<Envelope>) {
    && Ran(w, x)
    && forall e :: OwnId(w, e) && ScriptAgrees(s, e) && (sent.Some? ==> Agrees(e, sent.value)) ==>
         OwnId(x, e) && ScriptAgrees(t, e)
  }

  lemma OnwardTransitive(w: World, s: seq<Meanwhile>, x: World, t: seq<Meanwhile>, y: World, u: seq<Meanwhile>,
                         sent: Option<Envelope>, more: Option<Envelope>)
    requires Onward(w, s, x, t, sent) && Onward(x, t, y, u, more) && (sent.None? || more.None? || sent == more)
    ensures Onward(w, s, y, u, if sent.Some? then sent else more)
  {
    RanTransitive(w, x, y);
    hide Ran, OwnId, ScriptAgrees, Agrees;
  }

  /** Under a fresh identifier, an audit row with that identifier is the trace of the envelope itself. */
  lemma RowMeansApplied(w: World, e: Envelope, row: Event)
    requires Sane(w) && OwnId(w, e) && Owned(w, e)
    requires RowSeen(w, e.vaultId, row) && row.commandId == e.command.id
    ensures e in w.applied
  {
    var s := w.vaults[e.vaultId];
    assert Healthy(s, e.vaultId);
    ReachableIsBalanced(s);
    hide Reachable, AppliedAreRemembered, OnceEach, VaultsAreHealthy, Balanced;
    assert s.events[row.revision - 1].commandId in s.receipts;
    var f := Envelope(s.ownerId, e.vaultId, s.receipts[row.commandId].fingerprint.command);
    assert f in w.applied && Agrees(e, f);
  }

  /** One happening keeps identifiers apart, if it does not borrow this one. */
  lemma OwnIdStays(w: World, h: Happening, e: Envelope)
    requires OwnId(w, e) && (h.Deliver? ==> Agrees(e, h.envelope))
    ensures OwnId(Happen(w, h), e)
  {
    hide OutcomeOf, Readable, WithPasses;
  }

  /** What an answer of the ledger to an envelope tells, whatever else ran since. */
  ghost predicate Truthful(w: World, e: Envelope, a: Answer) {
    match a
    case Accepted(v, _) =>
      e in w.applied && Seen(w, v) && v.id == e.vaultId && v.ownerId == e.owner && v.revision > e.command.expectedRevision
    case Rejected(status) => status == CONFLICT ==> Stuck(w, e)
    case NoAnswer => true
  }

  lemma TruthfulStays(w: World, x: World, e: Envelope, a: Answer)
    requires Sane(w) && Ran(w, x) && Truthful(w, e, a)
    ensures Truthful(x, e, a)
  {
    RanKeeps(w, x);
    var hs :| x == Happens(w, hs);
    hide Sane, Stuck, Happens, Later;
    match a
    case Accepted(v, _) =>
      LaterApplied(w, x, e);
      SeenStays(w, x, v);
    case Rejected(status) => if status == CONFLICT { RefusedForever(w, e, hs); }
    case NoAnswer =>
  }

  lemma LaterApplied(w: World, x: World, e: Envelope)
    requires Later(w, x) && e in w.applied
    ensures e in x.applied
  {}

  /** The ledger's own answer to an honest envelope, whoever's cookie it travels under. */
  lemma ServedIsTruthful(w: World, p: Pending, session: string)
    requires Sane(w) && Honest(w.vaults, p)
    ensures var e := Envelope(session, p.vaultId, p.command);
            var x := Submitted(w, e).0;
            match Submitted(w, e).1
            case Done(state, replayed) => Truthful(x, EnvelopeOf(p), Accepted(ViewOf(state), replayed))
            case Failed(status) => Truthful(x, EnvelopeOf(p), Rejected(status))
  {
    var e := Envelope(session, p.vaultId, p.command);
    if Submitted(w, e).1.Done? { DoneMeansApplied(w, e); }
    hide Sane, OutcomeOf, Readable, MarkOf;
  }

  lemma AnswerStays(w: World, x: World, e: Envelope, a: Answer, b: Answer)
    requires Sane(w) && Ran(w, x) && Truthful(w, e, a) && (b == a || b.NoAnswer?)
    ensures Truthful(x, e, b)
  {
    TruthfulStays(w, x, e, a);
  }

  /** A request under any cookie carries the same identifier as the envelope it was made from. */
  lemma SentGoesOn(w: World, x: World, s: seq<Meanwhile>, e: Envelope, session: string)
    requires Ran(w, x)
    requires forall f :: OwnId(w, f) && Agrees(f, Envelope(session, e.vaultId, e.command)) ==> OwnId(x, f)
    ensures Onward(w, s, x, s, Some(e))
  {
    hide Ran, OwnId, ScriptAgrees;
  }

  lemma PageIsSeen(w: World, id: string, before: int, limit: nat)
    requires id in w.vaults && forall i :: 0 <= i < |w.vaults[id].events| ==> w.vaults[id].events[i].revision == i + 1
    ensures var items := PageOf(w.vaults[id].events, before, limit).items;
            forall i :: 0 <= i < |items| ==> RowSeen(w, id, items[i])
  {}

  lemma OwnIds(w: World)
    requires Sane(w)
    ensures forall id :: id in w.vaults ==> w.vaults[id].id == id
  {
    forall id | id in w.vaults ensures w.vaults[id].id == id { assert Healthy(w.vaults[id], id); }
  }

  lemma HistoryIsShort(w: World, id: string)
    requires Sane(w) && id in w.vaults
    ensures |w.vaults[id].events| < 10001
  {
    hide AppliedAreRemembered, ReceiptsAreApplied, OnceEach, Check, Tidy;
    assert Healthy(w.vaults[id], id);
  }

  /** No other tab touches the storage. */
  predicate TabsIdle(script: seq<Meanwhile>) { forall i :: 0 <= i < |script| ==> script[i].tab.Leave? }

  // ---- waits ----------------------------------------------------------------

  /** What arrives during the next wait, and the script after it. */
  function Coming(script: seq<Meanwhile>): seq<Happening> { if script == [] then [] else script[0].arrivals }

  function Rest(script: seq<Meanwhile>): seq<Meanwhile> { if script == [] then [] else script[1..] }

  /** The world and the script after `n` waits. */
  ghost function WorldAfter(w: World, script: seq<Meanwhile>, n: nat): World
    decreases n
  {
    if n == 0 then w else WorldAfter(Happens(w, Coming(script)), Rest(script), n - 1)
  }

  function ScriptAfter(script: seq<Meanwhile>, n: nat): seq<Meanwhile>
    decreases n
  {
    if n == 0 then script else ScriptAfter(Rest(script), n - 1)
  }

  /** From `w` and `s` to `x` and `t` went `n` waits. */
  ghost predicate Waited(w: World, s: seq<Meanwhile>, x: World, t: seq<Meanwhile>, n: nat) {
    x == WorldAfter(w, s, n) && t == ScriptAfter(s, n)
  }

  lemma OneWait(w: World, script: seq<Meanwhile>)
    ensures Waited(w, script, Happens(w, Coming(script)), Rest(script), 1)
  {
    assert WorldAfter(Happens(w, Coming(script)), Rest(script), 0) == Happens(w, Coming(script));
    assert ScriptAfter(Rest(script), 0) == Rest(script);
  }

  lemma WaitedThen(w: World, s: seq<Meanwhile>, x: World, t: seq<Meanwhile>, m: nat, y: World, u: seq<Meanwhile>, n: nat)
    requires Waited(w, s, x, t, m) && Waited(x, t, y, u, n)
    ensures Waited(w, s, y, u, m + n)
  {
    WaitsAdd(w, s, m, n);
  }

  lemma {:induction false} WaitsAdd(w: World, script: seq<Meanwhile>, m: nat, n: nat)
    ensures WorldAfter(WorldAfter(w, script, m), ScriptAfter(script, m), n) == WorldAfter(w, script, m + n)
    ensures ScriptAfter(ScriptAfter(script, m), n) == ScriptAfter(script, m + n)
    decreases m
  {
    hide Happens;
    if m > 0 { WaitsAdd(Happens(w, Coming(script)), Rest(script), m - 1, n); }
  }

  lemma {:induction false} WaitsRun(w: World, script: seq<Meanwhile>, n: nat)
    ensures Ran(w, WorldAfter(w, script, n))
    decreases n
  {
    hide Happens;
    RanReflexive(w);
    if n > 0 {
      var x := Happens(w, Coming(script));
      assert Ran(w, x);
      WaitsRun(x, Rest(script), n - 1);
      RanTransitive(w, x, WorldAfter(w, script, n));
    }
  }

  /** Nothing fails, nothing overtakes, other tabs are idle and the cookie stays. */
  predicate Undisturbed(script: seq<Meanwhile>, session: Option<string>) {
    session.Some?
    && forall i :: 0 <= i < |script| ==>
         script[i].session == session && script[i].fate == Fine && !script[i].overtakes && script[i].tab == Leave
  }

  /** One view of every vault of the owner, as it is now, and no other. */
  ghost predicate Listing(vaults: map<string, State>, owner: string, views: seq<View>) {
    && (forall i :: 0 <= i < |views| ==>
          views[i].id in vaults && vaults[views[i].id].ownerId == owner && views[i] == ViewOf(vaults[views[i].id]))
    && (forall i, j :: 0 <= i < j < |views| ==> views[i].id != views[j].id)
    && (forall id :: id in vaults && vaults[id].ownerId == owner ==> exists i :: 0 <= i < |views| && views[i].id == id)
  }

  /** The rows are the newest hundred events, newest first. */
  predicate NewestHundred(events: seq<Event>, rows: seq<Event>) {
    |rows| == (if |events| < 100 then |events| else 100)
    && forall k :: 0 <= k < |rows| ==> rows[k] == events[|events| - 1 - k]
  }

  lemma PageIsNewest(events: seq<Event>)
    requires |events| < 10001
    ensures NewestHundred(events, PageOf(events, 10001, 100).items)
  {}

  lemma ListedStates(vaults: map<string, State>, owner: string, states: seq<State>, views: seq<View>)
    requires |views| == |states| && forall i :: 0 <= i < |states| ==> views[i] == ViewOf(states[i])
    requires forall i :: 0 <= i < |states| ==> IsRow(vaults, states[i]) && states[i].ownerId == owner
    requires forall i, j :: 0 <= i < j < |states| ==> states[i].id != states[j].id
    requires forall id :: id in vaults && vaults[id].ownerId == owner ==> vaults[id] in states
    requires forall id :: id in vaults ==> vaults[id].id == id
    ensures Listing(vaults, owner, views)
  {
    forall id | id in vaults && vaults[id].ownerId == owner ensures exists i :: 0 <= i < |views| && views[i].id == id {
      var i :| 0 <= i < |states| && states[i] == vaults[id];
      assert views[i].id == id;
    }
  }

  class Outside {
    const store: LocalStore
    ghost var applied: seq<Envelope>
    var session: Option<string>
    var storage: Stored
    var script: seq<Meanwhile>
    var fate: Fate
    var overtaken: bool

    /** A new store, an empty browser, and whatever is going to go on. */
    constructor (script: seq<Meanwhile>)
      ensures Valid() && World() == LocalLedger.World(map[], []) && storage == Nothing && this.script == script
      ensures fresh(store)
    {
      store := new LocalStore();
      applied, session, storage, this.script, fate, overtaken := [], None, Nothing, script, Fine, false;
    }

    ghost function World(): World
      reads this`applied, store
    {
      LocalLedger.World(store.vaults, applied)
    }

    ghost predicate Valid()
      reads this, store
    {
      store.Valid() && Sane(World()) && (storage.Kept? ==> Founded(World(), storage.pending))
    }

    /** Nothing will fail, overtake this tab or touch the storage, and the cookie stays. */
    predicate Calm()
      reads this
    {
      Undisturbed(script, session)
    }

    /** The ledger will answer the envelope with success when it next arrives. */
    ghost predicate Welcome(p: Pending)
      reads this`applied, this`script, store
    {
      Submitted(WorldAfter(World(), script, 1), EnvelopeOf(p)).1.Done?
    }

    /** Whose cookie the next request travels under. */
    function NextSession(): Option<string>
      reads this
    {
      if script == [] then session else script[0].session
    }

    /** The service runs one request against the store. */
    method Serve(e: Envelope) returns (a: Answer)
      requires store.Valid() && Sane(World())
      modifies this`applied, store
      ensures store.Valid() && Sane(World()) && World() == Submitted(old(World()), e).0
      ensures match Submitted(old(World()), e).1
              case Done(state, replayed) => a == Accepted(ViewOf(state), replayed)
              case Failed(status) => a == Rejected(status)
    {
      hide Sane, LedgerStore.Stored, Execute;
      DeliveryKeeps(World(), e);
      if !Readable(e.command.body) { return Rejected(BAD_REQUEST); }
      var r := store.Command(e.owner, e.vaultId, ActorFor(e.owner, e.command.body), e.command, PolicyFor(e.command.body));
      match r {
        case Err(VaultNotFound) => return Rejected(NOT_FOUND);
        case Err(VaultExists) => assert false;
        case Err(Ledger(error)) => return Rejected(StatusOf(error));
        case Ok((state, replayed)) =>
          if !replayed { applied := applied + [e]; }
          return Accepted(ViewOf(state), replayed);
      }
    }

    /** Anything anyone else does to the service, to the cookie or to the storage, until this tab goes on. */
    method Await()
      requires Valid()
      modifies this, store
      ensures Valid() && Onward(old(World()), old(script), World(), script, None)
      ensures TabsIdle(old(script)) ==> storage == old(storage) && TabsIdle(script)
      ensures session == old(NextSession())
      ensures Waited(old(World()), old(script), World(), script, 1)
      ensures old(Calm()) ==> Calm() && session == old(session) && fate == Fine && !overtaken
    {
      RanReflexive(World());
      OneWait(World(), script);
      fate, overtaken := Fine, false;
      if script == [] { return; }
      var now := script[0];
      script := script[1..];
      Arrive(now.arrivals);
      session, fate, overtaken := now.session, now.fate, now.overtakes;
      match now.tab {
        case Leave =>
        case Clear => storage := Nothing;
        case Put(p) =>
          var founded := IsFounded(p);
          if founded { storage := Kept(p); }
      }
    }

    /** Whether a record is one a tab running the client may have written. */
    method IsFounded(p: Pending) returns (ok: bool)
      requires Valid()
      ensures ok <==> Founded(World(), p)
    {
      if !Honest(store.vaults, p) { return false; }
      if p.rejection != Some(CONFLICT) { return true; }
      hide Sane, Execute, LedgerStore.Stored;
      var outcome := VaultLedger.Run(
        store.vaults[p.vaultId], ActorFor(p.owner, p.command.body), p.command, PolicyFor(p.command.body));
      ok := outcome.Refused?;
    }

    /** Requests of anyone, in the order they reach the service. */
    method Arrive(hs: seq<Happening>)
      requires Valid()
      modifies this`applied, store
      ensures Valid() && World() == Happens(old(World()), hs)
      ensures forall e :: OwnId(old(World()), e) && ArrivalsAgree(hs, e) ==> OwnId(World(), e)
    {
      ghost var w := World();
      assert hs[..0] == [];
      for i := 0 to |hs|
        invariant Valid() && World() == Happens(w, hs[..i])
        invariant forall e :: OwnId(w, e) && ArrivalsAgree(hs, e) ==> OwnId(World(), e)
      {
        Step(hs[i]);
        assert hs[..i + 1] == hs[..i] + [hs[i]];
        HappensThen(w, hs[..i], [hs[i]]);
      }
      assert hs[..|hs|] == hs;
    }

    method Step(h: Happening)
      requires Valid()
      modifies this`applied, store
      ensures Valid() && World() == Happen(old(World()), h) == Happens(old(World()), [h])
      ensures forall e :: OwnId(old(World()), e) && (h.Deliver? ==> Agrees(e, h.envelope)) ==> OwnId(World(), e)
    {
      ghost var w := World();
      assert [h][1..] == [];
      match h {
        case Deliver(e) => var answer := Serve(e);
        case Obtain(owner, strategyId, id) =>
          ObtainKeeps(w, owner, strategyId, id);
          var r := store.ObtainTestPasses(owner, strategyId, id);
      }
      RanOnce(w, h);
      RanKeeps(w, World());
      if storage.Kept? { FoundedStays(w, World(), storage.pending); }
      forall e | OwnId(w, e) && (h.Deliver? ==> Agrees(e, h.envelope)) ensures OwnId(World(), e) { OwnIdStays(w, h, e); }
    }

    /** Sends the envelope under the cookie of the moment; the request, or its answer, may get lost. */
    method Post(p: Pending) returns (a: Answer)
      requires Valid() && Honest(store.vaults, p)
      modifies this, store
      ensures Valid() && Truthful(World(), EnvelopeOf(p), a)
      ensures Onward(old(World()), old(script), World(), script, Some(EnvelopeOf(p)))
      ensures TabsIdle(old(script)) ==> storage == old(storage) && TabsIdle(script)
      ensures old(Calm()) ==> Calm() && session == old(session)
      ensures old(Calm()) && old(session) == Some(p.owner) ==> (a.Accepted? <==> old(Welcome(p)))
    {
      hide Undisturbed, WorldAfter, ScriptAfter, LedgerStore.Stored, OwnId, ScriptAgrees, Founded;
      ghost var start, s := World(), script;
      ghost var e := EnvelopeOf(p);
      Await();
      if fate.Lost? { return NoAnswer; }
      if fate.TurnedAway? { return Rejected(fate.status); }
      if session.None? { return Rejected(SESSION_REQUIRED); }
      ghost var sent := World();
      RanKeeps(start, sent);
      HonestStays(start, sent, p);
      ServedIsTruthful(sent, p, session.value);
      hide Truthful, Submitted, Honest, Sane;
      a := Delivered(Envelope(session.value, p.vaultId, p.command));
      ghost var answer := a;
      ghost var served := World();
      SentGoesOn(sent, served, script, e, session.value);
      OnwardTransitive(start, s, sent, script, served, script, None, Some(e));
      ghost var t := script;
      Await();
      OnwardTransitive(start, s, served, t, World(), script, Some(e), None);
      if fate != Fine { a := NoAnswer; }
      AnswerStays(served, World(), e, answer, a);
    }

    /** The service answers a request that has reached it. */
    method Delivered(e: Envelope) returns (a: Answer)
      requires Valid()
      modifies this`applied, store
      ensures Valid() && Ran(old(World()), World()) && World() == Submitted(old(World()), e).0
      ensures match Submitted(old(World()), e).1
              case Done(state, replayed) => a == Accepted(ViewOf(state), replayed)
              case Failed(status) => a == Rejected(status)
      ensures forall f :: OwnId(old(World()), f) && Agrees(f, e) ==> OwnId(World(), f)
    {
      ghost var w := World();
      a := Serve(e);
      RanOnce(w, Deliver(e));
      RanKeeps(w, World());
      if storage.Kept? { FoundedStays(w, World(), storage.pending); }
      forall f | OwnId(w, f) && Agrees(f, e) ensures OwnId(World(), f) { OwnIdStays(w, Deliver(e), f); }
    }

    predicate Owns(owner: string, id: string)
      reads store
    {
      id in store.vaults && store.vaults[id].ownerId == owner
    }

    /** The owner the cookie stands for. */
    method FetchSession() returns (r: Fetched<string>)
      requires Valid()
      modifies this, store
      ensures Valid() && Onward(old(World()), old(script), World(), script, None)
      ensures TabsIdle(old(script)) ==> storage == old(storage) && TabsIdle(script)
      ensures r.Got? ==> session == Some(r.value) == old(NextSession())
      ensures Waited(old(World()), old(script), World(), script, 1)
      ensures old(Calm()) ==> Calm() && session == old(session) && !overtaken && r == Got(session.value)
    {
      Await();
      if fate.Lost? { return Dropped; }
      if fate.TurnedAway? { return Turned(fate.status); }
      return if session.None? then Turned(SESSION_REQUIRED) else Got(session.value);
    }

    /** The vaults of the cookie's owner. */
    method FetchVaults() returns (r: Fetched<seq<View>>)
      requires Valid()
      modifies this, store
      ensures Valid() && Onward(old(World()), old(script), World(), script, None)
      ensures TabsIdle(old(script)) ==> storage == old(storage) && TabsIdle(script)
      ensures r.Got? ==> forall i :: 0 <= i < |r.value| ==> Seen(World(), r.value[i])
      ensures Waited(old(World()), old(script), World(), script, 1)
      ensures old(Calm()) ==> Calm() && session == old(session) && !overtaken && r.Got?
      ensures r.Got? ==> session.Some? && Listing(store.vaults, session.value, r.value)
    {
      Await();
      if fate.Lost? { return Dropped; }
      if fate.TurnedAway? { return Turned(fate.status); }
      if session.None? { return Turned(SESSION_REQUIRED); }
      hide Sane, LedgerStore.Stored, Honest;
      var states := store.List(session.value);
      var views := seq(|states|, i requires 0 <= i < |states| => ViewOf(states[i]));
      OwnIds(World());
      ListedStates(store.vaults, session.value, states, views);
      return Got(views);
    }

    method FetchVault(id: string) returns (r: Fetched<View>)
      requires Valid()
      modifies this, store
      ensures Valid() && Onward(old(World()), old(script), World(), script, None)
      ensures TabsIdle(old(script)) ==> storage == old(storage) && TabsIdle(script)
      ensures r.Got? ==> Seen(World(), r.value) && r.value.id == id
      ensures Waited(old(World()), old(script), World(), script, 1)
      ensures old(Calm()) ==> Calm() && session == old(session) && !overtaken
      ensures r.Got? ==> session.Some? && Owns(session.value, id) && r.value == ViewOf(store.vaults[id])
      ensures Calm() && Owns(session.value, id) && old(Calm()) ==> r.Got?
    {
      Await();
      if fate.Lost? { return Dropped; }
      if fate.TurnedAway? { return Turned(fate.status); }
      if session.None? { return Turned(SESSION_REQUIRED); }
      var got := store.Get(id, session.value);
      if got.Err? { return Turned(NOT_FOUND); }
      assert Healthy(World().vaults[id], id);
      return Got(ViewOf(got.value));
    }

    /** The newest hundred audit rows of the vault. */
    method FetchAudit(id: string) returns (r: Fetched<seq<Event>>)
      requires Valid()
      modifies this, store
      ensures Valid() && Onward(old(World()), old(script), World(), script, None)
      ensures TabsIdle(old(script)) ==> storage == old(storage) && TabsIdle(script)
      ensures r.Got? ==> forall i :: 0 <= i < |r.value| ==> RowSeen(World(), id, r.value[i])
      ensures Waited(old(World()), old(script), World(), script, 1)
      ensures old(Calm()) ==> Calm() && session == old(session) && !overtaken
      ensures r.Got? ==> session.Some? && Owns(session.value, id) && NewestHundred(store.vaults[id].events, r.value)
      ensures Calm() && Owns(session.value, id) && old(Calm()) ==> r.Got?
    {
      Await();
      if fate.Lost? { return Dropped; }
      if fate.TurnedAway? { return Turned(fate.status); }
      if session.None? { return Turned(SESSION_REQUIRED); }
      hide LedgerStore.Stored, Sane, Honest, Newest, PageOf, RowSeen;
      var got := store.AuditPage(session.value, id, 100, None);
      if got.Err? { return Turned(NOT_FOUND); }
      StoredRows(store.vaults, store.audit, id);
      PageIsSeen(World(), id, 10001, 100);
      HistoryIsShort(World(), id);
      PageIsNewest(store.vaults[id].events);
      return Got(got.value.items);
    }
  }
}
