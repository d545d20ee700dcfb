/**
 The browser client: it stores the one command it sends before sending it, keeps it
 until its fate is known, and retries exactly that envelope.
 */
module ProductClient {
  import opened Prelude
  import opened Vault
  import opened VaultLaws
  import opened LocalLedger
  import opened ClientWorld
  import opened ClientReads
  import LedgerStore

  /** What a tab has on its screen. */
  datatype Screen = Screen(
    user: Option<string>, vaults: seq<View>, selected: Option<string>, audit: seq<Event>, pending: Option<Pending>)

  const BLANK := Screen(None, [], None, [], None)

  class ProductClient {
    const outside: Outside
    var user: Option<string>
    var vaults: seq<View>
    var selected: Option<string>
    var audit: seq<Event>
    var pending: Option<Pending>
    var phase: Phase
    var generation: int
    var busy: bool
    var needsRefresh: bool
    var rejectionRefreshed: bool

    /** A fresh tab, or the same one after a restart: only the shared storage survives. */
    constructor (outside: Outside)
      requires outside.Valid()
      ensures this.outside == outside && Valid() && !busy && needsRefresh && pending.None?
    {
      this.outside := outside;
      user, vaults, selected, audit, pending := None, [], None, [], None;
      phase, generation, busy, needsRefresh, rejectionRefreshed := Loading, 0, false, true, false;
    }

    /** What the tab shows was true of the ledger at some time. */
    ghost predicate Valid()
      reads this, outside, outside.store
    {
      outside.Valid() && Shown(outside.World(), vaults, selected, audit) && (user.Some? ==> Identity(user.value))
    }

    function OnScreen(): Screen
      reads this`user, this`vaults, this`selected, this`audit, this`pending
    {
      Screen(user, vaults, selected, audit, pending)
    }

    /** The cookie now belongs to an identity other than the one on the screen. */
    predicate OtherOwner()
      reads this`user, outside
    {
      var owner := outside.NextSession();
      owner.Some? && Identity(owner.value) && user.Some? && user != owner
    }

    method ReadPending() returns (r: Result<Option<Pending>, Failure>)
      ensures match outside.storage
              case Nothing => r == Ok(None)
              case Garbage => r == Err(Local(StorageInvalid))
              case Kept(p) => r == if ValidRecord(p) then Ok(Some(p)) else Err(Local(StorageInvalid))
    {
      match outside.storage {
        case Nothing => return Ok(None);
        case Garbage => return Err(Local(StorageInvalid));
        case Kept(p) => return if ValidRecord(p) then Ok(Some(p)) else Err(Local(StorageInvalid));
      }
    }

    method ClearPrivate()
      modifies this`user, this`vaults, this`selected, this`audit, this`pending
      ensures OnScreen() == BLANK
    {
      user, vaults, selected, audit, pending := None, [], None, [], None;
    }

    method Fail(f: Failure)
      modifies this`needsRefresh, this`generation, this`user, this`vaults, this`selected, this`audit, this`pending, this`phase
      ensures needsRefresh && phase == PhaseAfter(f)
      ensures f == Api(UNAUTHORIZED) ==> generation == old(generation) + 1 && OnScreen() == BLANK
      ensures f != Api(UNAUTHORIZED) ==> generation == old(generation) && OnScreen() == old(OnScreen())
    {
      needsRefresh := true;
      if f == Api(UNAUTHORIZED) {
        generation := generation + 1;
        ClearPrivate();
      }
      phase := PhaseAfter(f);
    }

    // ---- reading --------------------------------------------------------------

    /** After a wait: what is shown is still true, and a read that nothing protects may have been overtaken. */
    method Resume(ghost w: World)
      requires Sane(w) && Ran(w, outside.World()) && outside.Valid() && Shown(w, vaults, selected, audit)
      requires user.Some? ==> Identity(user.value)
      modifies this`generation
      ensures Valid() && (busy || !outside.overtaken ==> generation == old(generation))
    {
      ShownStays(w, outside.World(), vaults, selected, audit);
      if outside.overtaken && !busy { generation := generation + 1; }
    }

    method ReadOwner(expectedOwner: Option<string>, mine: int) returns (r: Result<string, Failure>)
      requires Valid()
      modifies this`generation, this`user, this`vaults, this`selected, this`audit, this`pending, outside, outside.store
      ensures Valid() && (busy ==> generation == old(generation))
      ensures Onward(old(outside.World()), old(outside.script), outside.World(), outside.script, None)
      ensures TabsIdle(old(outside.script)) ==> outside.storage == old(outside.storage) && TabsIdle(outside.script)
      ensures r.Ok? ==> expectedOwner.None? || expectedOwner.value == r.value
      ensures OnScreen() == old(OnScreen()) || (OnScreen() == BLANK && old(OtherOwner()))
      ensures r.Ok? && (old(user).None? || old(user).value == r.value) ==> OnScreen() == old(OnScreen())
      ensures r.Ok? && old(user).Some? && old(user).value != r.value ==> OnScreen() == BLANK
      ensures r == Err(Local(Overtaken)) || generation == mine
      ensures r.Ok? ==> Identity(r.value)
      ensures Waited(old(outside.World()), old(outside.script), outside.World(), outside.script, 1)
      ensures old(outside.Calm()) ==> outside.Calm() && outside.session == old(outside.session)
      ensures old(outside.Calm()) && old(generation) == mine && Fits(outside.session.value, expectedOwner) ==>
                r.Ok? && outside.session == Some(r.value)
    {
      hide LedgerStore.Stored, Sane, Seen, RowSeen, Founded, Ran, Waited, Identity, Undisturbed;
      var session := outside.FetchSession();
      Resume(old(outside.World()));
      if generation != mine { return Err(Local(Overtaken)); }
      if !session.Got? { return Err(FailureOf(session)); }
      var owner := session.value;
      if !Identity(owner) { return Err(Api(BAD_GATEWAY)); }
      if user.Some? && user.value != owner { ClearPrivate(); }
      if expectedOwner.Some? && owner != expectedOwner.value { return Err(Api(BAD_GATEWAY)); }
      return Ok(owner);
    }

    method ReadCatalogue(owner: string, mine: int) returns (r: Result<seq<View>, Failure>)
      requires Valid()
      modifies this`generation, outside, outside.store
      ensures Valid() && (busy ==> generation == old(generation))
      ensures Onward(old(outside.World()), old(outside.script), outside.World(), outside.script, None)
      ensures TabsIdle(old(outside.script)) ==> outside.storage == old(outside.storage) && TabsIdle(outside.script)
      ensures r == Err(Local(Overtaken)) || generation == mine
      ensures r.Ok? ==> AllSeen(outside.World(), r.value) && forall i :: 0 <= i < |r.value| ==> ValidView(r.value[i], owner)
      ensures Waited(old(outside.World()), old(outside.script), outside.World(), outside.script, 1)
      ensures old(outside.Calm()) ==> outside.Calm() && outside.session == old(outside.session)
      ensures r.Ok? ==> outside.session.Some? && Listing(outside.store.vaults, outside.session.value, r.value)
      ensures old(outside.Calm()) && old(generation) == mine && outside.session == Some(owner) ==> r.Ok?
    {
      hide LedgerStore.Stored, Sane, Seen, RowSeen, Founded, Ran, Waited, Listing, Undisturbed;
      var views := outside.FetchVaults();
      if views.Got? { ListingIsValid(outside.World(), outside.session.value, views.value); }
      Resume(old(outside.World()));
      if generation != mine { return Err(Local(Overtaken)); }
      if !views.Got? { return Err(FailureOf(views)); }
      if exists i :: 0 <= i < |views.value| && !ValidView(views.value[i], owner) { return Err(Api(BAD_GATEWAY)); }
      return Ok(views.value);
    }

    /** Both requests for one vault: its state, then its audit. */
    method FetchBoth(id: string, ghost owner: string) returns (detail: Fetched<View>, rows: Fetched<seq<Event>>)
      requires Valid()
      modifies this`generation, outside, outside.store
      ensures Valid() && (busy ==> generation == old(generation))
      ensures Onward(old(outside.World()), old(outside.script), outside.World(), outside.script, None)
      ensures TabsIdle(old(outside.script)) ==> outside.storage == old(outside.storage) && TabsIdle(outside.script)
      ensures Waited(old(outside.World()), old(outside.script), outside.World(), outside.script, 2)
      ensures old(outside.Calm()) ==>
                outside.Calm() && outside.session == old(outside.session) && generation == old(generation)
      ensures detail.Got? ==> Seen(outside.World(), detail.value) && detail.value.id == id
                              && ViewIn(WorldAfter(old(outside.World()), old(outside.script), 1), detail.value)
      ensures rows.Got? ==> AllRows(outside.World(), id, rows.value) && AuditOf(outside.World(), id, rows.value)
      ensures old(outside.Calm()) && outside.session == Some(owner) && old(outside.Owns(owner, id)) ==> detail.Got? && rows.Got?
    {
      ghost var w, s := outside.World(), outside.script;
      hide LedgerStore.Stored, Sane, Seen, RowSeen, Founded, Ran, NewestHundred, Shown, Undisturbed, TabsIdle,
        WorldAfter, ScriptAfter;
      detail := outside.FetchVault(id);
      ghost var x, t := outside.World(), outside.script;
      OnwardKeepsOwner(w, s, x, t, owner, id);
      if detail.Got? { FirstView(w, s, x, t, detail.value); }
      Resume(w);
      rows := outside.FetchAudit(id);
      ghost var y, u := outside.World(), outside.script;
      OnwardKeepsOwner(x, t, y, u, owner, id);
      OnwardTransitive(w, s, x, t, y, u, None, None);
      WaitedThen(w, s, x, t, 1, y, u, 1);
      if detail.Got? { SeenGoesOn(x, t, y, u, detail.value); }
      Resume(x);
    }

    method ReadDetail(owner: string, listed: View, mine: int) returns (r: Result<(View, seq<Event>), Failure>)
      requires Valid()
      modifies this`generation, outside, outside.store
      ensures Valid() && (busy ==> generation == old(generation))
      ensures Onward(old(outside.World()), old(outside.script), outside.World(), outside.script, None)
      ensures TabsIdle(old(outside.script)) ==> outside.storage == old(outside.storage) && TabsIdle(outside.script)
      ensures r == Err(Local(Overtaken)) || generation == mine
      ensures r.Ok? ==> Seen(outside.World(), r.value.0) && ValidView(r.value.0, owner) && r.value.0.id == listed.id
                        && r.value.0.revision >= listed.revision && AllRows(outside.World(), listed.id, r.value.1)
      ensures Waited(old(outside.World()), old(outside.script), outside.World(), outside.script, 2)
      ensures old(outside.Calm()) ==> outside.Calm() && outside.session == old(outside.session)
      ensures r.Ok? ==> AuditOf(outside.World(), listed.id, r.value.1)
                        && ViewIn(WorldAfter(old(outside.World()), old(outside.script), 1), r.value.0)
      ensures old(outside.Calm()) && old(generation) == mine && outside.session == Some(owner) ==>
                Ours(old(outside.World()), owner, listed) ==> r.Ok?
    {
      ghost var w, s := outside.World(), outside.script;
      hide LedgerStore.Stored, Sane, RowSeen, Founded, Ran, NewestHundred, Shown, Undisturbed, TabsIdle, WorldAfter,
        ScriptAfter, Onward, Waited, ViewIn, AllRows, AuditOf, ValidView, ValidId;
      var detail, audit := FetchBoth(listed.id, owner);
      if detail.Got? && Ours(w, owner, listed) { DetailPasses(w, s, owner, listed, detail.value); }
      if audit.Got? { RowsAreValid(outside.World(), listed.id, audit.value); }
      if generation != mine { return Err(Local(Overtaken)); }
      if !detail.Got? { return Err(FailureOf(detail)); }
      if !audit.Got? { return Err(FailureOf(audit)); }
      var view, rows := detail.value, audit.value;
      if !ValidView(view, owner) || view.id != listed.id { return Err(Api(BAD_GATEWAY)); }
      if view.strategyId != listed.strategyId || view.revision < listed.revision { return Err(Api(BAD_GATEWAY)); }
      if exists i :: 0 <= i < |rows| && !(ValidId(rows[i].commandId) && IsSafeInteger(rows[i].revision)) {
        return Err(Api(BAD_GATEWAY));
      }
      return Ok((view, rows));
    }

    /** Picks the preferred vault of the list, or its first, and reads it with its audit. */
    method ReadSelected(owner: string, views: seq<View>, preferred: Option<string>, mine: int)
      returns (r: Result<(seq<View>, Option<string>, seq<Event>), Failure>)
      requires Valid() && AllSeen(outside.World(), views) && generation == mine
      modifies this`generation, outside, outside.store
      ensures Valid() && (busy ==> generation == old(generation))
      ensures Onward(old(outside.World()), old(outside.script), outside.World(), outside.script, None)
      ensures TabsIdle(old(outside.script)) ==> outside.storage == old(outside.storage) && TabsIdle(outside.script)
      ensures r == Err(Local(Overtaken)) || generation == mine
      ensures r.Ok? ==> Shown(outside.World(), r.value.0, r.value.1, r.value.2)
      ensures r.Ok? ==> Refreshed(views, r.value.0) && r.value.1 == Choice(views, preferred)
      ensures r.Ok? && r.value.1.None? ==> outside.session == old(outside.session)
      ensures r.Ok? && r.value.1.Some? ==>
                && AuditOf(outside.World(), r.value.1.value, r.value.2)
                && Waited(old(outside.World()), old(outside.script), outside.World(), outside.script, 2)
                && Detailed(WorldAfter(old(outside.World()), old(outside.script), 1), r.value.0, r.value.1.value)
      ensures old(outside.Calm()) ==> outside.Calm() && outside.session == old(outside.session)
      ensures old(outside.Calm()) && outside.session == Some(owner) && AllOurs(old(outside.World()), owner, views) ==> r.Ok?
    {
      ghost var w, s := outside.World(), outside.script;
      hide LedgerStore.Stored, Sane, Seen, RowSeen, Founded, Ran, NewestHundred, Undisturbed, TabsIdle, WorldAfter,
        ScriptAfter, Waited, ViewIn, AllRows, AuditOf, ValidView, FindView, ReplaceView, Refreshed, AllSeen;
      var listed := if preferred.Some? then FindView(views, preferred.value) else None;
      if listed.None? && views != [] { listed := Some(views[0]); }
      ListedIsChoice(views, preferred, listed);
      if listed.None? {
        Standing(w, s);
        NothingShown(w);
        return Ok(([], None, []));
      }
      ListedIsSeen(w, views, listed.value);
      var detail := ReadDetail(owner, listed.value, mine);
      if detail.Err? { return Err(detail.error); }
      ReplacedIsSeen(w, outside.World(), s, outside.script, views, detail.value.0);
      ReplaceRefreshes(views, detail.value.0);
      DetailIsShown(outside.World(), ReplaceView(views, detail.value.0), listed.value.id, detail.value.1);
      r := Ok((ReplaceView(views, detail.value.0), Some(listed.value.id), detail.value.1));
    }

    /** Who the cookie belongs to, and that owner's vaults. */
    method ReadListing(expectedOwner: Option<string>, mine: int) returns (r: Result<(string, seq<View>), Failure>)
      requires Valid()
      modifies this`generation, this`user, this`vaults, this`selected, this`audit, this`pending, outside, outside.store
      ensures Valid() && (busy ==> generation == old(generation))
      ensures Onward(old(outside.World()), old(outside.script), outside.World(), outside.script, None)
      ensures TabsIdle(old(outside.script)) ==> outside.storage == old(outside.storage) && TabsIdle(outside.script)
      ensures r.Ok? ==> AllSeen(outside.World(), r.value.1) && Fits(r.value.0, expectedOwner)
      ensures OnScreen() == old(OnScreen()) || (OnScreen() == BLANK && old(OtherOwner()))
      ensures r.Ok? && (old(user).None? || old(user).value == r.value.0) ==> OnScreen() == old(OnScreen())
      ensures r.Ok? && old(user).Some? && old(user).value != r.value.0 ==> OnScreen() == BLANK
      ensures r.Ok? ==>
                && outside.session.Some? && Listing(outside.World().vaults, outside.session.value, r.value.1)
                && (forall i :: 0 <= i < |r.value.1| ==> r.value.1[i].ownerId == r.value.0)
                && Waited(old(outside.World()), old(outside.script), outside.World(), outside.script, 2)
      ensures old(outside.Calm()) ==> outside.Calm() && outside.session == old(outside.session)
      ensures old(outside.Calm()) && old(generation) == mine && Fits(outside.session.value, expectedOwner) ==>
                r.Ok? && outside.session == Some(r.value.0)
      ensures r == Err(Local(Overtaken)) || generation == mine
    {
      hide LedgerStore.Stored, Sane, Seen, RowSeen, Founded, Ran, Shown, AllSeen, Honest, Stuck, Onward, TabsIdle,
        FindView, ValidRecord, Loaded, OtherOwner, Listing, Waited, Identity, Undisturbed, WorldAfter, ScriptAfter;
      ghost var w, s := outside.World(), outside.script;
      var owner := ReadOwner(expectedOwner, mine);
      if owner.Err? { return Err(owner.error); }
      ghost var x, t := outside.World(), outside.script;
      ghost var now := generation;
      var views := ReadCatalogue(owner.value, mine);
      OnwardTransitive(w, s, x, t, outside.World(), outside.script, None, None);
      WaitedThen(w, s, x, t, 1, outside.World(), outside.script, 1);
      if views.Err? { return Err(views.error); }
      return Ok((owner.value, views.value));
    }

    /** Everything one read needs, in its order; nothing is shown yet. */
    method ReadAll(expectedOwner: Option<string>, mine: int) returns (r: Result<Reading, Failure>)
      requires Valid()
      modifies this`generation, this`user, this`vaults, this`selected, this`audit, this`pending, outside, outside.store
      ensures Valid() && (busy ==> generation == old(generation))
      ensures Onward(old(outside.World()), old(outside.script), outside.World(), outside.script, None)
      ensures TabsIdle(old(outside.script)) ==> outside.storage == old(outside.storage) && TabsIdle(outside.script)
      ensures OnScreen() == old(OnScreen()) || (OnScreen() == BLANK && old(OtherOwner()))
      ensures r == Err(Local(Overtaken)) || generation == mine
      ensures r.Ok? && TabsIdle(old(outside.script)) ==> r.value.record == OwnRecord(outside.storage, r.value.owner)
      ensures r.Ok? ==> Fits(r.value.owner, expectedOwner) && ReadWhole(r.value, old(outside.World()))
      ensures r.Ok? ==> r.value.chosen == Choice(r.value.views, PreferredBy(r.value, old(user), old(selected)))
      ensures r.Ok? && r.value.chosen.Some? ==>
                && Waited(old(outside.World()), old(outside.script), outside.World(), outside.script, 4)
                && Detailed(WorldAfter(old(outside.World()), old(outside.script), 3), r.value.views, r.value.chosen.value)
      ensures old(outside.Calm()) ==> outside.Calm() && outside.session == old(outside.session)
      ensures old(outside.Calm()) && old(generation) == mine && Fits(outside.session.value, expectedOwner) ==>
                old(RecordReadable(outside.storage)) ==> r.Ok?
    {
      hide LedgerStore.Stored, Sane, Seen, RowSeen, Founded, Ran, Shown, AllSeen, Onward, FindView, ValidRecord,
        OtherOwner, Listing, Waited, Identity, Undisturbed, WorldAfter, ScriptAfter, Choice, Whole, Refreshed,
        Detailed, AuditOf, AllOurs, TabsIdle;
      ghost var w, s := outside.World(), outside.script;
      CalmIsIdle(s, outside.session);
      var first := ReadFirst(expectedOwner, mine);
      if first.Err? { return Err(first.error); }
      var owner, views, record, preferred := first.value.owner, first.value.views, first.value.record, first.value.chosen;
      ghost var x, t, at := outside.World(), outside.script, outside.session;
      ListingIsOurs(x, at, owner, views);
      var shown := ReadSelected(owner, views, preferred, mine);
      ghost var y, u := outside.World(), outside.script;
      OnwardTransitive(w, s, x, t, y, u, None, None);
      if shown.Err? { return Err(shown.error); }
      r := Ok(Reading(owner, record, shown.value.0, shown.value.1, shown.value.2));
      Assembled(w, s, x, t, y, u, at, outside.session, views, preferred, r.value);
    }

    /** The listing, the owner's own record, and the vault to prefer. */
    method ReadFirst(expectedOwner: Option<string>, mine: int) returns (r: Result<Reading, Failure>)
      requires Valid()
      modifies this`generation, this`user, this`vaults, this`selected, this`audit, this`pending, outside, outside.store
      ensures Valid() && (busy ==> generation == old(generation))
      ensures Onward(old(outside.World()), old(outside.script), outside.World(), outside.script, None)
      ensures TabsIdle(old(outside.script)) ==> outside.storage == old(outside.storage) && TabsIdle(outside.script)
      ensures OnScreen() == old(OnScreen()) || (OnScreen() == BLANK && old(OtherOwner()))
      ensures r == Err(Local(Overtaken)) || generation == mine
      ensures r.Ok? ==> r.value.record == OwnRecord(outside.storage, r.value.owner)
      ensures r.Ok? ==> r.value.chosen == PreferredBy(r.value, old(user), old(selected))
      ensures r.Ok? ==> AllSeen(outside.World(), r.value.views) && Fits(r.value.owner, expectedOwner)
      ensures r.Ok? ==>
                && outside.session.Some? && Listing(outside.World().vaults, outside.session.value, r.value.views)
                && (forall i :: 0 <= i < |r.value.views| ==> r.value.views[i].ownerId == r.value.owner)
                && Waited(old(outside.World()), old(outside.script), outside.World(), outside.script, 2)
      ensures old(outside.Calm()) ==> outside.Calm() && outside.session == old(outside.session)
      ensures old(outside.Calm()) && old(generation) == mine && Fits(outside.session.value, expectedOwner) ==>
                old(RecordReadable(outside.storage)) ==> r.Ok? && outside.session == Some(r.value.owner)
    {
      hide LedgerStore.Stored, Sane, Seen, RowSeen, Founded, Ran, Shown, AllSeen, Onward, FindView, ValidRecord,
        OtherOwner, Listing, Waited, Identity, Undisturbed, WorldAfter, ScriptAfter, TabsIdle;
      CalmIsIdle(outside.script, outside.session);
      var listing := ReadListing(expectedOwner, mine);
      if listing.Err? { return Err(listing.error); }
      var owner := listing.value.0;
      var record := ReadPending();
      if record.Err? { return Err(record.error); }
      var own := record.value.Some? && record.value.value.owner == owner;
      var preferred := if selected.Some? then selected else if own then Some(record.value.value.vaultId) else None;
      r := Ok(Reading(owner, if own then record.value else None, listing.value.1, preferred, []));
    }

    /** What was read is the whole of what the ledger has for the owner, and was true of it. */
    ghost predicate ReadWhole(r: Reading, w: World)
      reads outside, outside.store
    {
      Shown(outside.World(), r.views, r.chosen, r.rows) && Whole(w, outside.World(), outside.session, r)
    }

    /** The steps of one read; the tab shows the result only when all of them succeed. */
    method LoadSteps(expectedOwner: Option<string>, mine: int) returns (failure: Option<Failure>)
      requires Valid()
      modifies this, outside, outside.store
      ensures Valid() && busy == old(busy) && (busy ==> generation == old(generation))
      ensures Onward(old(outside.World()), old(outside.script), outside.World(), outside.script, None)
      ensures TabsIdle(old(outside.script)) ==> outside.storage == old(outside.storage) && TabsIdle(outside.script)
      ensures failure.None? ==> Loaded(expectedOwner, old(user), old(selected), old(outside.World()))
      ensures failure.None? && TabsIdle(old(outside.script)) ==> pending == OwnRecord(outside.storage, user.value)
      ensures failure.None? && selected.Some? ==>
                && Waited(old(outside.World()), old(outside.script), outside.World(), outside.script, 4)
                && Detailed(WorldAfter(old(outside.World()), old(outside.script), 3), vaults, selected.value)
      ensures old(outside.Calm()) ==> outside.Calm() && outside.session == old(outside.session)
      ensures old(CanRead(expectedOwner)) && old(generation) == mine ==> failure.None?
      ensures failure.Some? ==>
                && (OnScreen() == old(OnScreen()) || (OnScreen() == BLANK && old(OtherOwner())))
                && needsRefresh == old(needsRefresh) && (failure == Some(Local(Overtaken)) || generation == mine)
    {
      hide LedgerStore.Stored, Sane, Seen, RowSeen, Founded, Ran, Shown, AllSeen, Onward, FindView, OtherOwner,
        Waited, Identity, Undisturbed, WorldAfter, ScriptAfter, Choice, Whole, Detailed, TabsIdle, RecordReadable,
        OwnRecord;
      var r := ReadAll(expectedOwner, mine);
      if r.Err? { return Some(r.error); }
      Show(r.value);
      return None;
    }

    /** Everything that was read becomes visible at once. */
    method Show(r: Reading)
      requires Valid() && Shown(outside.World(), r.views, r.chosen, r.rows) && Identity(r.owner)
      modifies this`needsRefresh, this`rejectionRefreshed, this`user, this`vaults, this`selected, this`audit,
               this`pending, this`phase
      ensures Valid() && !needsRefresh && OnScreen() == Screen(Some(r.owner), r.views, r.chosen, r.rows, r.record)
      ensures PhaseShown()
    {
      hide LedgerStore.Stored, Sane, Founded, FindView, Shown, Identity;
      needsRefresh := false;
      rejectionRefreshed := r.record.Some? && r.record.value.rejection.Some?;
      user, vaults, selected, audit, pending := Some(r.owner), r.views, r.chosen, r.rows, r.record;
      phase := if r.record.Some? then (if rejectionRefreshed then Stale else PendingPhase)
               else if vaults != [] then Ready else NoVaults;
    }

    /** The phase of a tab that has just read everything: a record of its own first, then whether there is a vault. */
    predicate PhaseShown()
      reads this
    {
      && (rejectionRefreshed <==> pending.Some? && pending.value.rejection.Some?)
      && phase == match pending
                  case Some(p) => if p.rejection.Some? then Stale else PendingPhase
                  case None => if vaults == [] then NoVaults else Ready
    }

    /** A read will find the service answering, the expected cookie and a readable record. */
    predicate CanRead(expectedOwner: Option<string>)
      reads outside
    {
      outside.Calm() && Fits(outside.session.value, expectedOwner) && RecordReadable(outside.storage)
    }

    /**
     Reads everything again. Success shows every vault the owner has, the chosen one with its newest
     audit rows; it is certain when nothing disturbs the reads. A failed read leaves the screen as it
     was, unless the cookie now belongs to another identity or has run out: then it is cleared.
     */
    method Load(expectedOwner: Option<string>) returns (failure: Option<Failure>)
      requires Valid()
      modifies this, outside, outside.store
      ensures Valid() && busy == old(busy)
      ensures Onward(old(outside.World()), old(outside.script), outside.World(), outside.script, None)
      ensures TabsIdle(old(outside.script)) ==> outside.storage == old(outside.storage) && TabsIdle(outside.script)
      ensures failure.None? ==> Loaded(expectedOwner, old(user), old(selected), old(outside.World()))
      ensures failure.None? && TabsIdle(old(outside.script)) ==> pending == OwnRecord(outside.storage, user.value)
      ensures failure.None? && selected.Some? ==>
                && Waited(old(outside.World()), old(outside.script), outside.World(), outside.script, 4)
                && Detailed(WorldAfter(old(outside.World()), old(outside.script), 3), vaults, selected.value)
      ensures old(outside.Calm()) ==> outside.Calm() && outside.session == old(outside.session)
      ensures old(CanRead(expectedOwner)) ==> failure.None?
      ensures failure.Some? ==> needsRefresh && Left(failure.value, old(OnScreen()), old(OtherOwner()))
      ensures failure.Some? && failure != Some(Local(Overtaken)) ==> phase == PhaseAfter(failure.value)
      ensures busy ==> old(generation) < generation
    {
      hide LedgerStore.Stored, Sane, Seen, RowSeen, Founded, Ran, Shown, Onward, FindView, OtherOwner, Waited,
        Identity, Undisturbed, WorldAfter, ScriptAfter, Detailed, TabsIdle, RecordReadable, OwnRecord, Loaded;
      generation := generation + 1;
      var mine := generation;
      needsRefresh, phase := true, Loading;
      failure := LoadSteps(expectedOwner, mine);
      NothingShown(outside.World());
      if failure.Some? && generation == mine { Fail(failure.value); }
    }

    /** The screen after a failed read. */
    predicate Left(failure: Failure, before: Screen, other: bool)
      reads this
    {
      if failure == Api(UNAUTHORIZED) then OnScreen() == BLANK
      else OnScreen() == before || (OnScreen() == BLANK && other)
    }

    /** Reads again on demand; refused while a command is under way. */
    method Refresh() returns (failure: Option<Failure>)
      requires Valid()
      modifies this, outside, outside.store
      ensures Valid() && busy == old(busy)
      ensures Onward(old(outside.World()), old(outside.script), outside.World(), outside.script, None)
      ensures TabsIdle(old(outside.script)) ==> outside.storage == old(outside.storage) && TabsIdle(outside.script)
      ensures failure.None? ==> !busy && Loaded(None, old(user), old(selected), old(outside.World()))
      ensures !old(busy) && old(CanRead(None)) ==> failure.None?
      ensures failure.Some? ==> Left(failure.value, old(OnScreen()), old(OtherOwner()))
    {
      if busy {
        Standing(outside.World(), outside.script);
        return Some(Local(Busy));
      }
      failure := Load(None);
    }

    // ---- one envelope ---------------------------------------------------------

    /** Clears the record, if it is still the one that was sent. */
    method Confirm(p: Pending) returns (failure: Option<Failure>)
      requires Valid()
      modifies this`pending, this`phase, outside`storage
      ensures Valid() && outside.World() == old(outside.World())
      ensures failure.None? ==> outside.storage == Nothing && pending.None? && old(outside.storage) == Kept(p)
      ensures failure.Some? ==> outside.storage == old(outside.storage) && pending == old(pending)
      ensures old(outside.storage) == Kept(p) && ValidRecord(p) ==> failure.None?
    {
      hide LedgerStore.Stored, Sane, Seen, RowSeen, Founded, Shown, Honest, Stuck, ValidRecord, Identity;
      var current := ReadPending();
      if current.Err? { return Some(current.error); }
      if current.value != Some(p) { return Some(Local(StorageChanged)); }
      outside.storage := Nothing;
      pending, phase := None, Ready;
      return None;
    }

    /** Marks the record as rejected, if it is still the one that was sent. */
    method MarkRejected(p: Pending, status: int) returns (failure: Failure)
      requires Valid() && Definitive(status) && Truthful(outside.World(), EnvelopeOf(p), Rejected(status))
      modifies this`pending, this`rejectionRefreshed, outside`storage
      ensures Valid() && outside.World() == old(outside.World())
      ensures outside.storage == old(outside.storage)
              || (old(outside.storage) == Kept(p) && outside.storage == Kept(p.(rejection := Some(status))))
      ensures old(outside.storage) == Kept(p) && ValidRecord(p) ==> Marked(p, status)
    {
      hide LedgerStore.Stored, Sane, Seen, RowSeen, Shown, Stuck, Identity, ValidId, ValidCommand;
      var current := ReadPending();
      if current.Err? { return current.error; }
      if current.value != Some(p) { return Local(StorageChanged); }
      rejectionRefreshed := false;
      var marked := p.(rejection := Some(status));
      assert outside.storage == Kept(p) && EnvelopeOf(marked) == EnvelopeOf(p);
      assert Founded(outside.World(), marked);
      outside.storage := Kept(marked);
      pending := if user == Some(p.owner) then Some(marked) else None;
      return Api(status);
    }

    /** The record is marked with the status, and stays readable. */
    predicate Marked(p: Pending, status: int)
      reads outside`storage
    {
      outside.storage == Kept(p.(rejection := Some(status))) && ValidRecord(p.(rejection := Some(status)))
    }

    /** What a cleared record stands for: an envelope that was applied. */
    ghost predicate Settled(p: Pending)
      reads outside, outside.store
    {
      outside.storage == Nothing && multiset(outside.World().applied)[EnvelopeOf(p)] == 1
    }

    /** The record is still there, possibly marked as rejected. */
    ghost predicate Unsettled(p: Pending)
      reads outside
    {
      outside.storage.Kept? && EnvelopeOf(outside.storage.pending) == EnvelopeOf(p)
    }

    /** Reads the ledger back after a success and clears the record if the ledger shows it. */
    method ReadBack(p: Pending, view: View) returns (failure: Option<Failure>)
      requires Valid() && EnvelopeOf(p) in outside.World().applied
      modifies this, outside, outside.store
      ensures Valid() && busy == old(busy)
      ensures busy ==> old(generation) <= generation
      ensures Onward(old(outside.World()), old(outside.script), outside.World(), outside.script, None)
      ensures failure.None? ==> Settled(p)
      ensures TabsIdle(old(outside.script)) ==> TabsIdle(outside.script)
      ensures TabsIdle(old(outside.script)) && failure.Some? ==> outside.storage == old(outside.storage)
      ensures old(CanRead(Some(p.owner))) && old(outside.storage) == Kept(p) && ValidRecord(p) && view.id == p.vaultId ==>
                Ours(old(outside.World()), p.owner, view) ==> failure.None?
    {
      ghost var x := outside.World();
      hide LedgerStore.Stored, Sane, Seen, RowSeen, Shown, Honest, Stuck, Founded, TabsIdle, FindView, CanRead,
        Identity, ValidRecord, Reached, Ours, Onward;
      failure := Reread(p.owner, view);
      if failure.Some? { return; }
      StillApplied(x, outside.World(), EnvelopeOf(p));
      failure := Conclude(p, view);
    }

    /** Reads again for an owner; a vault of the owner is then shown at the revision it had, or later. */
    method Reread(owner: string, ghost view: View) returns (failure: Option<Failure>)
      requires Valid()
      modifies this, outside, outside.store
      ensures Valid() && busy == old(busy) && Ran(old(outside.World()), outside.World())
      ensures busy ==> old(generation) <= generation
      ensures Onward(old(outside.World()), old(outside.script), outside.World(), outside.script, None)
      ensures TabsIdle(old(outside.script)) ==> outside.storage == old(outside.storage) && TabsIdle(outside.script)
      ensures old(CanRead(Some(owner))) ==>
                failure.None? && outside.storage == old(outside.storage)
                && (Ours(old(outside.World()), owner, view) ==> Reached(view, view.id))
    {
      ghost var x, t := outside.World(), outside.script;
      hide LedgerStore.Stored, Sane, Seen, RowSeen, Shown, Honest, Stuck, Founded, Ran, TabsIdle, FindView, Loaded,
        Left, OtherOwner, Onward, Waited, Detailed, WorldAfter, ScriptAfter, OwnRecord, Undisturbed, RecordReadable,
        Identity, Choice, Whole, Ours, Reached;
      CalmIsIdle(t, outside.session);
      ghost var before, chosen := user, selected;
      failure := Load(Some(owner));
      WentOn(x, t, outside.World(), outside.script, None);
      if failure.None? && outside.session == Some(owner) && Ours(x, owner, view) {
        LoadedShows(Some(owner), before, chosen, x, owner, view);
      }
    }

    /** The vault is shown at the view's revision or later. */
    predicate Reached(view: View, id: string)
      reads this`vaults
    {
      FindView(vaults, id).Some? && view.revision <= FindView(vaults, id).value.revision
    }

    /** A whole reading shows every vault the owner had when it began. */
    lemma LoadedShows(expectedOwner: Option<string>, before: Option<string>, chosen: Option<string>, w: World, owner: string,
                      view: View)
      requires Loaded(expectedOwner, before, chosen, w) && expectedOwner == Some(owner) && outside.session == Some(owner)
      requires Ours(w, owner, view)
      ensures Reached(view, view.id)
    {
      hide PhaseShown, Choice, AuditOf, Identity, CoversAll, DistinctIds, FindView;
      CoveredIsFound(w, owner, vaults, view.id);
    }

    /** Clears the record if the vault shown has reached the answer's revision. */
    method Conclude(p: Pending, view: View) returns (failure: Option<Failure>)
      requires Valid() && EnvelopeOf(p) in outside.World().applied
      modifies this`pending, this`phase, outside`storage
      ensures Valid() && outside.World() == old(outside.World())
      ensures failure.None? ==> Settled(p)
      ensures failure.Some? ==> outside.storage == old(outside.storage)
      ensures old(outside.storage) == Kept(p) && ValidRecord(p) && Reached(view, p.vaultId) ==> failure.None?
    {
      hide LedgerStore.Stored, Sane, Founded, FindView, Shown, Identity, ValidRecord;
      var verified := FindView(vaults, p.vaultId);
      if verified.None? || verified.value.revision < view.revision { return Some(Api(BAD_GATEWAY)); }
      failure := Confirm(p);
      IsOnce(outside.World(), EnvelopeOf(p));
    }

    /** Sends the envelope, reads the ledger back, and clears the record only if the ledger shows the command's effect. */
    method Send(p: Pending) returns (failure: Option<Failure>)
      requires Valid() && busy && Honest(outside.store.vaults, p)
      modifies this, outside, outside.store
      ensures Valid() && busy
      ensures old(generation) <= generation
      ensures Onward(old(outside.World()), old(outside.script), outside.World(), outside.script, Some(EnvelopeOf(p)))
      ensures failure.None? ==> Settled(p)
      ensures TabsIdle(old(outside.script)) ==> TabsIdle(outside.script)
      ensures TabsIdle(old(outside.script)) && old(outside.storage) == Kept(p) && failure.Some? ==> Unsettled(p)
      ensures old(CanRead(Some(p.owner))) && old(outside.storage) == Kept(p) && ValidRecord(p) ==>
                (failure.None? <==> old(outside.Welcome(p)))
    {
      ghost var w, s := outside.World(), outside.script;
      hide LedgerStore.Stored, Sane, Seen, RowSeen, Shown, Honest, Stuck, Founded, Ran, TabsIdle, FindView, Identity,
        ValidRecord, Passes, Onward, Truthful, CanRead, Ours;
      var answer := Deliver(p);
      ghost var x, t := outside.World(), outside.script;
      failure := Judge(p, answer);
      OnwardTransitive(w, s, x, t, outside.World(), outside.script, Some(EnvelopeOf(p)), None);
    }

    /** Posts the envelope and goes on with its answer. */
    method Deliver(p: Pending) returns (answer: Answer)
      requires Valid() && busy && Honest(outside.store.vaults, p)
      modifies this`generation, outside, outside.store
      ensures Valid() && Truthful(outside.World(), EnvelopeOf(p), answer)
      ensures old(generation) <= generation
      ensures Onward(old(outside.World()), old(outside.script), outside.World(), outside.script, Some(EnvelopeOf(p)))
      ensures TabsIdle(old(outside.script)) ==> outside.storage == old(outside.storage) && TabsIdle(outside.script)
      ensures old(CanRead(Some(p.owner))) && ValidRecord(p) ==>
                && CanRead(Some(p.owner)) && outside.storage == old(outside.storage)
                && (answer.Accepted? <==> old(outside.Welcome(p)))
                && (answer.Accepted? ==> Passes(p, answer.view) && Ours(outside.World(), p.owner, answer.view))
    {
      ghost var w, s := outside.World(), outside.script;
      hide LedgerStore.Stored, Sane, Seen, RowSeen, Shown, Honest, Stuck, Founded, Ran, TabsIdle, FindView,
        Undisturbed, Identity, ValidRecord, Passes, Onward, Truthful, Ours;
      CalmIsIdle(s, outside.session);
      answer := outside.Post(p);
      WentOn(w, s, outside.World(), outside.script, Some(EnvelopeOf(p)));
      Resume(w);
      if answer.Accepted? && ValidRecord(p) { AnswerIsValid(outside.World(), p, answer.view); }
    }

    /** What is done about the answer. */
    method Judge(p: Pending, answer: Answer) returns (failure: Option<Failure>)
      requires Valid() && busy && Truthful(outside.World(), EnvelopeOf(p), answer)
      modifies this, outside, outside.store
      ensures Valid() && busy
      ensures old(generation) <= generation
      ensures Onward(old(outside.World()), old(outside.script), outside.World(), outside.script, None)
      ensures failure.None? ==> Settled(p)
      ensures TabsIdle(old(outside.script)) ==> TabsIdle(outside.script)
      ensures TabsIdle(old(outside.script)) && old(outside.storage) == Kept(p) && failure.Some? ==> Unsettled(p)
      ensures old(CanRead(Some(p.owner))) && old(outside.storage) == Kept(p) && ValidRecord(p) && answer.Accepted? ==>
                Passes(p, answer.view) && Ours(old(outside.World()), p.owner, answer.view) ==> failure.None?
      ensures !answer.Accepted? ==> failure.Some?
      ensures answer.Rejected? && 400 <= answer.status < 500 && answer.status !in {401, 429} ==>
                old(outside.storage) == Kept(p) && ValidRecord(p) ==> Marked(p, answer.status)
      ensures answer.NoAnswer? || (answer.Rejected? && !(400 <= answer.status < 500 && answer.status !in {401, 429})) ==>
                outside.storage == old(outside.storage)
    {
      hide LedgerStore.Stored, Sane, Seen, RowSeen, Shown, Honest, Stuck, Founded, Ran, TabsIdle, FindView, CanRead,
        Identity, ValidRecord;
      Standing(outside.World(), outside.script);
      if answer.NoAnswer? { return Some(Transport); }
      if answer.Rejected? {
        if !Definitive(answer.status) { return Some(Api(answer.status)); }
        var rejected := MarkRejected(p, answer.status);
        return Some(rejected);
      }
      if !Passes(p, answer.view) { return Some(Api(BAD_GATEWAY)); }
      failure := ReadBack(p, answer.view);
    }

    /** Records a failed action and lets the next one start. */
    method Finish(failure: Option<Failure>)
      requires Valid()
      modifies this
      ensures Valid() && !busy && outside.World() == old(outside.World())
      ensures old(generation) <= generation && (failure.Some? ==> needsRefresh && phase == PhaseAfter(failure.value))
      ensures failure.Some? && failure.value.Local? ==> OnScreen() == old(OnScreen())
    {
      hide LedgerStore.Stored, Sane, Seen, RowSeen, Founded, Honest, Stuck;
      if failure.Some? { Fail(failure.value); }
      busy := false;
    }

    /** Takes the tab for one action, and overtakes any read under way. */
    method Begin()
      requires Valid() && !busy
      modifies this`busy, this`generation
      ensures Valid() && busy && generation == old(generation) + 1
    {
      hide LedgerStore.Stored, Sane, Seen, RowSeen, Founded, Honest, Stuck;
      busy, generation := true, generation + 1;
    }

    method Release()
      requires Valid()
      modifies this`busy
      ensures Valid() && !busy
    {
      hide LedgerStore.Stored, Sane, Seen, RowSeen, Founded, Honest, Stuck;
      busy := false;
    }

    /** Shows the record that is being worked on. */
    method Announce(p: Pending)
      requires Valid()
      modifies this`pending, this`phase
      ensures Valid()
    {
      hide LedgerStore.Stored, Sane, Seen, RowSeen, Founded, Honest, Stuck;
      pending, phase := Some(p), PendingPhase;
    }

    /** Stores the record, then sends it. */
    method Issue(p: Pending) returns (failure: Option<Failure>)
      requires Valid() && busy && Honest(outside.store.vaults, p) && p.rejection.None?
      modifies this, outside, outside.store
      ensures Valid() && busy
      ensures old(generation) <= generation
      ensures failure.None? ==> Settled(p)
      ensures TabsIdle(old(outside.script)) && failure.Some? ==> Unsettled(p)
      ensures old(outside.Calm()) && old(outside.session) == Some(p.owner) && ValidRecord(p) ==>
                (failure.None? <==> old(outside.Welcome(p)))
    {
      hide LedgerStore.Stored, Sane, Seen, RowSeen, Stuck, Ran, TabsIdle, Honest, Undisturbed, Shown;
      outside.storage := Kept(p);
      Announce(p);
      failure := Send(p);
    }

    /** The review a command can be issued under now: the selected vault, as it is shown. */
    ghost predicate Reviewable(review: Review)
      reads this, outside
    {
      && outside.storage == Nothing && !busy && !needsRefresh
      && user == Some(review.ownerId) && selected == Some(review.vaultId) && review.generation == generation
      && var shown := FindView(vaults, review.vaultId);
         shown.Some? && shown.value.ownerId == review.ownerId && shown.value.revision == review.expectedRevision
    }

    /** The review a command must be issued under; there is never more than one. */
    method Prepare() returns (r: Result<Review, Failure>)
      ensures r.Ok? ==> Reviewable(r.value)
      ensures forall review :: Reviewable(review) ==> r == Ok(review)
      ensures r.Err? ==> r.error.Local?
    {
      hide FindView, ValidRecord;
      var record := ReadPending();
      if record.Err? { return Err(record.error); }
      if record.value.Some? { return Err(Local(ConfirmPendingFirst)); }
      if busy { return Err(Local(Busy)); }
      if needsRefresh { return Err(Local(RefreshRequired)); }
      var vault := if selected.Some? then FindView(vaults, selected.value) else None;
      if user.None? || vault.None? || vault.value.ownerId != user.value { return Err(Local(VaultRequired)); }
      return Ok(Review(user.value, vault.value.id, vault.value.revision, generation));
    }

    /** The envelope a review and a body make up. */
    function Drawn(body: Body, review: Review, id: string): Pending {
      Pending(review.ownerId, review.vaultId, Vault.Command(id, review.expectedRevision, body), None)
    }

    /** The command gets as far as being stored and sent. */
    ghost predicate Issuable(body: Body, review: Review, id: string)
      reads this, outside
    {
      Reviewable(review) && ValidCommand(Drawn(body, review, id).command)
    }

    /**
     Issues a command under a fresh identifier. It is stored before it is sent; success means the
     ledger applied it exactly once, and after any later failure the record is still there. A command
     that is not issued changes neither the storage nor the ledger nor the screen. A review is good for
     one command, and after a failure nothing can be reviewed before a refresh.
     */
    method Command(body: Body, review: Review, id: string) returns (failure: Option<Failure>)
      requires Valid()
      modifies this, outside, outside.store
      ensures Valid() && (failure != Some(Local(Busy)) ==> !busy)
      ensures failure.None? ==> old(Issuable(body, review, id)) && Settled(Drawn(body, review, id))
      ensures old(Issuable(body, review, id)) ==> !Reviewable(review) && (failure.Some? ==> needsRefresh)
      ensures old(Issuable(body, review, id)) && TabsIdle(old(outside.script)) && failure.Some? ==>
                Unsettled(Drawn(body, review, id))
      ensures !old(Issuable(body, review, id)) ==>
                failure.Some? && failure.value.Local? && outside.storage == old(outside.storage)
                && outside.World() == old(outside.World()) && OnScreen() == old(OnScreen())
      ensures old(Issuable(body, review, id)) && old(outside.Calm()) && old(outside.session) == Some(review.ownerId) ==>
                (failure.None? <==> old(outside.Welcome(Drawn(body, review, id))))
    {
      hide LedgerStore.Stored, Sane, Seen, RowSeen, Stuck, Ran, TabsIdle, FindView, Readable, Onward, Founded, Honest,
        ValidCommand, ValidRecord, Identity, Undisturbed;
      if busy { return Some(Local(Busy)); }
      var current := Prepare();
      assert Issuable(body, review, id) ==> Reviewable(review);
      if current.Err? { return Some(current.error); }
      if review != current.value { return Some(Local(ReviewRequired)); }
      Begin();
      var p := Drawn(body, review, id);
      if !ValidCommand(p.command) {
        failure := Some(Local(InvalidFields));
      } else {
        ReviewIsHonest(outside.World(), vaults, p);
        DrawnIsValid(outside.World(), vaults, p);
        failure := Issue(p);
      }
      Finish(failure);
    }

    /** Why a retry may not start. */
    function RetryFault(p: Pending): Option<Reason>
      reads this
    {
      if Some(p.owner) != user then Some(OwnerMismatch)
      else if Some(p.vaultId) != selected then Some(VaultMismatch)
      else if p.rejection.Some? then Some(ReviewRequired)
      else None
    }

    /** Clears a record whose effect the audit already shows. */
    method ConfirmTraced(p: Pending, row: Event) returns (failure: Option<Failure>)
      requires Valid() && row in audit && row.commandId == p.command.id && Honest(outside.store.vaults, p)
      requires FindView(vaults, p.vaultId).Some? ==> selected == Some(p.vaultId)
      modifies this`pending, this`phase, outside`storage
      ensures Valid() && outside.World() == old(outside.World())
      ensures failure.Some? ==> outside.storage == old(outside.storage)
      ensures failure.None? && OwnId(old(outside.World()), EnvelopeOf(p)) ==> Settled(p)
      ensures failure.None? ==> outside.storage == Nothing && old(outside.storage) == Kept(p)
      ensures failure.None? ==> Traces(p, row, FindView(vaults, p.vaultId))
      ensures Traces(p, row, FindView(vaults, p.vaultId)) && old(outside.storage) == Kept(p) && ValidRecord(p) ==> failure.None?
    {
      hide LedgerStore.Stored, Sane, Seen, RowSeen, Stuck, Founded, FindView, OwnId, ActorFor;
      if !Traces(p, row, FindView(vaults, p.vaultId)) { return Some(Api(BAD_GATEWAY)); }
      failure := Confirm(p);
      if failure.None? && OwnId(outside.World(), EnvelopeOf(p)) {
        RowMeansApplied(outside.World(), EnvelopeOf(p), row);
        IsOnce(outside.World(), EnvelopeOf(p));
      }
    }

    /** The envelope's identifier is and stays its own. */
    ghost predicate Unborrowed(p: Pending)
      reads outside, outside.store
    {
      OwnId(outside.World(), EnvelopeOf(p)) && ScriptAgrees(outside.script, EnvelopeOf(p))
    }

    ghost predicate Timely(p: Pending)
      reads outside, outside.store
    {
      Foreseen(outside.World(), outside.script, EnvelopeOf(p))
    }

    /** After a whole reading by the record's owner the record's vault is selected again. */
    lemma LoadedSelects(w: World, p: Pending)
      requires Loaded(Some(p.owner), Some(p.owner), Some(p.vaultId), w)
      ensures FindView(vaults, p.vaultId).Some? ==> selected == Some(p.vaultId)
      ensures outside.session == Some(p.owner) && Honest(w.vaults, p) ==> selected == Some(p.vaultId)
    {
      hide PhaseShown, AuditOf, Identity, FindView;
      FoundIsListed(vaults, p.vaultId);
      if outside.session == Some(p.owner) && Honest(w.vaults, p) { CoveredIsFound(w, p.owner, vaults, p.vaultId); }
    }

    /** Reads the vault of the record again. */
    method Recall(p: Pending) returns (failure: Option<Failure>)
      requires Valid() && busy && Honest(outside.store.vaults, p) && RetryFault(p).None?
      modifies this, outside, outside.store
      ensures Valid() && busy
      ensures old(generation) <= generation
      ensures Onward(old(outside.World()), old(outside.script), outside.World(), outside.script, None)
      ensures TabsIdle(old(outside.script)) ==> outside.storage == old(outside.storage) && TabsIdle(outside.script)
      ensures failure.None? && FindView(vaults, p.vaultId).Some? ==> selected == Some(p.vaultId)
      ensures old(CanRead(Some(p.owner))) ==>
                failure.None? && CanRead(Some(p.owner)) && outside.storage == old(outside.storage)
      ensures old(CanRead(Some(p.owner))) && old(Unborrowed(p)) ==>
                OneVoice(p) && (Answerable(p) <==> old(Timely(p)))
    {
      ghost var w, s := outside.World(), outside.script;
      hide LedgerStore.Stored, Sane, Seen, RowSeen, Stuck, Founded, Ran, TabsIdle, FindView, OwnId, ScriptAgrees,
        Honest, Identity, Traces, Onward, Foreseen, Waited, Answerable, OneVoice, AuditOf, Shown, Loaded, WorldAfter,
        ScriptAfter, Detailed, Whole, Choice, Undisturbed, OwnRecord, RecordReadable, PhaseShown, AllSeen, AllRows,
        Submitted;
      CalmIsIdle(s, outside.session);
      failure := Load(Some(p.owner));
      if failure.Some? { return; }
      LoadedSelects(w, p);
      if outside.session == Some(p.owner) && OwnId(w, EnvelopeOf(p)) && ScriptAgrees(s, EnvelopeOf(p)) {
        LoadedAudits(w, p);
        RecallAnswers(w, s, p);
      }
    }

    lemma LoadedAudits(w: World, p: Pending)
      requires Loaded(Some(p.owner), Some(p.owner), Some(p.vaultId), w) && selected == Some(p.vaultId)
      ensures AuditOf(outside.World(), p.vaultId, audit)
    {
      hide PhaseShown, AuditOf, Identity, Choice;
    }

    /** What the screen says after the reads is what was foreseen before them. */
    lemma RecallAnswers(w: World, s: seq<Meanwhile>, p: Pending)
      requires Sane(w) && Onward(w, s, outside.World(), outside.script, None)
      requires Waited(w, s, outside.World(), outside.script, 4)
      requires Honest(w.vaults, p) && OwnId(w, EnvelopeOf(p)) && ScriptAgrees(s, EnvelopeOf(p))
      requires Detailed(WorldAfter(w, s, 3), vaults, p.vaultId) && AuditOf(outside.World(), p.vaultId, audit)
      requires selected == Some(p.vaultId) && Shown(outside.World(), vaults, selected, audit)
      ensures OneVoice(p) && (Answerable(p) <==> Foreseen(w, s, EnvelopeOf(p)))
    {
      hide Sane, RowSeen, Ran, FindView, OwnId, ScriptAgrees, Honest, Traces, Onward, WorldAfter, ScriptAfter,
        Detailed, AllSeen, AllRows, AuditOf, Submitted, Audited;
      SelectedRows(outside.World(), vaults, selected, audit, p.vaultId);
      RecallDecides(w, s, outside.World(), outside.script, p, vaults, audit);
    }

    /** The exact stored envelope again: found in the audit, or sent once more. */
    method Resolve(p: Pending) returns (failure: Option<Failure>)
      requires Valid() && busy && Honest(outside.store.vaults, p) && RetryFault(p).None?
      modifies this, outside, outside.store
      ensures Valid() && busy
      ensures old(generation) <= generation
      ensures failure.None? ==> outside.storage == Nothing
      ensures failure.None? && OwnId(old(outside.World()), EnvelopeOf(p)) && ScriptAgrees(old(outside.script), EnvelopeOf(p)) ==>
                Settled(p)
      ensures TabsIdle(old(outside.script)) && old(outside.storage) == Kept(p) && failure.Some? ==> Unsettled(p)
      ensures old(CanRead(Some(p.owner))) && old(outside.storage) == Kept(p) && ValidRecord(p) && old(Unborrowed(p)) ==>
                (failure.None? <==> old(Timely(p)))
    {
      ghost var w, s := outside.World(), outside.script;
      hide LedgerStore.Stored, Sane, Seen, RowSeen, Shown, Stuck, Founded, Ran, TabsIdle, FindView, FindRow, OwnId,
        ScriptAgrees, Honest, CanRead, Identity, ValidRecord, Timely, Traces, Onward, Foreseen;
      failure := Recall(p);
      if failure.Some? { return; }
      ghost var x, t := outside.World(), outside.script;
      RecallGoesOn(w, s, x, t, p);
      failure := Settle(p);
    }

    /** The rows shown with the envelope's identifier trace it, or there are none and it will be answered with success. */
    ghost predicate Answerable(p: Pending)
      reads this, outside, outside.store
    {
      if exists row :: row in audit && row.commandId == p.command.id then
        forall row :: row in audit && row.commandId == p.command.id ==> Traces(p, row, FindView(vaults, p.vaultId))
      else outside.Welcome(p)
    }

    /** The rows with the envelope's identifier agree whether they trace it. */
    ghost predicate OneVoice(p: Pending)
      reads this
    {
      forall r, q :: r in audit && q in audit && r.commandId == q.commandId == p.command.id ==>
        (Traces(p, r, FindView(vaults, p.vaultId)) <==> Traces(p, q, FindView(vaults, p.vaultId)))
    }

    /** Confirms the envelope from the audit shown, or sends it. */
    method Settle(p: Pending) returns (failure: Option<Failure>)
      requires Valid() && busy && Honest(outside.store.vaults, p)
      requires FindView(vaults, p.vaultId).Some? ==> selected == Some(p.vaultId)
      modifies this, outside, outside.store
      ensures Valid() && busy
      ensures old(generation) <= generation
      ensures failure.None? ==> outside.storage == Nothing
      ensures failure.None? && OwnId(old(outside.World()), EnvelopeOf(p)) ==> Settled(p)
      ensures TabsIdle(old(outside.script)) && old(outside.storage) == Kept(p) && failure.Some? ==> Unsettled(p)
      ensures old(CanRead(Some(p.owner))) && old(outside.storage) == Kept(p) && ValidRecord(p) && old(OneVoice(p)) ==>
                (failure.None? <==> old(Answerable(p)))
    {
      hide LedgerStore.Stored, Sane, Seen, RowSeen, Shown, Stuck, Founded, Ran, TabsIdle, FindView, FindRow, OwnId,
        Honest, CanRead, Identity, ValidRecord, Traces, Onward;
      var row := FindRow(audit, p.command.id);
      if row.Some? {
        failure := ConfirmTraced(p, row.value);
      } else {
        failure := Send(p);
      }
    }

    /** The stored envelope may be retried, nothing disturbs the tab, and its identifier is its own. */
    ghost predicate Retriable()
      reads this, outside, outside.store
    {
      && !busy && outside.storage.Kept? && ValidRecord(outside.storage.pending)
      && RetryFault(outside.storage.pending).None? && CanRead(Some(outside.storage.pending.owner))
      && Unborrowed(outside.storage.pending)
    }

    /**
     Retries the stored envelope. Success means the ledger applied it exactly once; after any
     failure the record is still there. When nothing disturbs the tab it succeeds exactly when the
     envelope is seen applied by both reads, or else seen by neither and then answered with success.
     */
    method Retry() returns (failure: Option<Failure>)
      requires Valid()
      modifies this, outside, outside.store
      ensures Valid() && (failure != Some(Local(Busy)) ==> !busy)
      ensures failure.None? ==> old(outside.storage).Kept? && outside.storage == Nothing
      ensures failure.None? ==>
                var e := EnvelopeOf(old(outside.storage).pending);
                OwnId(old(outside.World()), e) && ScriptAgrees(old(outside.script), e) ==>
                  Settled(old(outside.storage).pending)
      ensures TabsIdle(old(outside.script)) && old(outside.storage).Kept? && failure.Some? ==>
                Unsettled(old(outside.storage).pending)
      ensures old(Retriable()) ==> (failure.None? <==> old(Timely(outside.storage.pending)))
    {
      hide LedgerStore.Stored, Sane, Seen, RowSeen, Shown, Stuck, Ran, TabsIdle, OwnId, ScriptAgrees, ValidRecord,
        Honest, Identity, Undisturbed, Foreseen;
      if busy { return Some(Local(Busy)); }
      Begin();
      var record := ReadPending();
      if record.Err? || record.value.None? || RetryFault(record.value.value).Some? {
        Release();
        return Some(if record.Err? then record.error else if record.value.None? then Local(NoPending)
                    else Local(RetryFault(record.value.value).value));
      }
      var p := record.value.value;
      Announce(p);
      failure := Resolve(p);
      Finish(failure);
    }

    /**
     Gives up a rejected envelope after a refresh. When the mark is a conflict, the ledger never
     applied it and never will.
     */
    method DismissRejected() returns (failure: Option<Failure>)
      requires Valid()
      modifies this, outside`storage
      ensures Valid() && (failure != Some(Local(Busy)) ==> !busy)
      ensures outside.World() == old(outside.World())
      ensures failure.None? ==>
                && old(outside.storage).Kept? && old(outside.storage).pending.rejection.Some?
                && old(rejectionRefreshed) && !old(needsRefresh) && outside.storage == Nothing && needsRefresh
      ensures failure.None? && old(outside.storage).pending.rejection == Some(CONFLICT) ==>
                forall hs :: EnvelopeOf(old(outside.storage).pending) !in Happens(outside.World(), hs).applied
      ensures failure.Some? ==> outside.storage == old(outside.storage)
    {
      hide LedgerStore.Stored, Sane, Seen, RowSeen, Shown, Stuck, ValidRecord, Honest;
      if busy { return Some(Local(Busy)); }
      generation := generation + 1;
      var record := ReadPending();
      if record.Err? { return Some(record.error); }
      if record.value.None? || record.value.value.rejection.None? { return Some(Local(Unresolved)); }
      var p := record.value.value;
      if Some(p.owner) != user || Some(p.vaultId) != selected { return Some(Local(OwnerMismatch)); }
      if !rejectionRefreshed || needsRefresh { return Some(Local(RefreshRequired)); }
      assert Founded(outside.World(), p);
      DismissedForGood(outside.World(), p);
      outside.storage := Nothing;
      needsRefresh, rejectionRefreshed, pending, phase := true, false, None, Stale;
      return None;
    }

    /** What a successful read leaves behind. */
    ghost predicate Loaded(expectedOwner: Option<string>, before: Option<string>, chosen: Option<string>, w: World)
      reads this, outside, outside.store
    {
      && user.Some? && !needsRefresh && Fits(user.value, expectedOwner) && PhaseShown()
      && var r := Reading(user.value, pending, vaults, selected, audit);
         Whole(w, outside.World(), outside.session, r) && selected == Choice(vaults, PreferredBy(r, before, chosen))
    }
  }
}
