/**
 What the browser client reads and shows: its checks on what the service answers, what
 makes a reading whole, and what a retry can expect to find.
 */
module ClientReads {
  import opened Prelude
  import opened Vault
  import opened VaultLaws
  import opened LocalLedger
  import opened ClientWorld
  import LedgerStore

  datatype Reason =
    | Busy | ConfirmPendingFirst | RefreshRequired | VaultRequired | ReviewRequired | InvalidFields | NoPending
    | OwnerMismatch | VaultMismatch | StorageInvalid | StorageChanged | Unresolved | Overtaken

  datatype Failure = Api(status: int) | Local(reason: Reason) | Transport

  datatype Phase = Loading | NoVaults | Ready | Error | PendingPhase | Stale | Disconnected

  datatype Review = Review(ownerId: string, vaultId: string, expectedRevision: int, generation: int)

  const BAD_GATEWAY := 502
  const UNAUTHORIZED := 401
  const TOO_MANY_REQUESTS := 429

  predicate Identity(s: string) { s == "alice" || s == "bob" }

  predicate ValidView(v: View, owner: string) {
    v.ownerId == owner && ValidId(v.id) && IsSafeInteger(v.revision) && v.revision >= 0
  }

  predicate ValidCommand(c: Command) {
    && ValidId(c.id) && 0 <= c.expectedRevision <= MAX_REVISION && Readable(c.body)
    && match c.body
       case ConfirmWithdrawal(w) => ValidId(w)
       case CancelWithdrawal(w) => ValidId(w)
       case ReserveBuy(o, _) => ValidId(o)
       case CancelOrder(o) => ValidId(o)
       case FillBuy(o) => ValidId(o)
       case _ => true
  }

  predicate ValidRecord(p: Pending) {
    && Identity(p.owner) && ValidId(p.vaultId) && ValidCommand(p.command)
    && (p.rejection.Some? ==> 400 <= p.rejection.value < 500 && p.rejection.value != UNAUTHORIZED)
  }

  /** The owner is an identity, and the expected one if one is. */
  predicate Fits(owner: string, expectedOwner: Option<string>) {
    Identity(owner) && (expectedOwner.None? || expectedOwner.value == owner)
  }

  /** The view a command is answered with is of its vault and past its revision. */
  predicate Passes(p: Pending, v: View) {
    ValidView(v, p.owner) && v.id == p.vaultId && v.revision > p.command.expectedRevision
  }

  /** The statuses that settle the fate of a command: a definitive refusal of the command itself. */
  predicate Definitive(status: int) {
    400 <= status < 500 && status != UNAUTHORIZED && status != TOO_MANY_REQUESTS
  }

  function PhaseAfter(f: Failure): Phase {
    match f
    case Api(status) =>
      if status == CONFLICT then Stale else if status == UNAUTHORIZED || status >= 500 then Disconnected else Error
    case Local(_) => Error
    case Transport => Disconnected
  }

  function FailureOf<T>(r: Fetched<T>): Failure
    requires !r.Got?
  {
    if r.Turned? then Api(r.status) else Transport
  }

  /** The first view with this id, if there is one. */
  function FindView(views: seq<View>, id: string): (v: Option<View>)
    ensures v.Some? ==> v.value in views && v.value.id == id
  {
    if views == [] then None else if views[0].id == id then Some(views[0]) else FindView(views[1..], id)
  }

  function FindRow(rows: seq<Event>, commandId: string): (r: Option<Event>)
    ensures r.Some? ==> r.value in rows && r.value.commandId == commandId
    ensures r.None? ==> forall row :: row in rows ==> row.commandId != commandId
  {
    if rows == [] then None else if rows[0].commandId == commandId then Some(rows[0]) else FindRow(rows[1..], commandId)
  }

  ghost predicate AllSeen(w: World, views: seq<View>) { forall i :: 0 <= i < |views| ==> Seen(w, views[i]) }

  ghost predicate AllRows(w: World, id: string, rows: seq<Event>) {
    forall i :: 0 <= i < |rows| ==> RowSeen(w, id, rows[i])
  }

  /** The views with the first one of this id replaced. */
  function ReplaceView(views: seq<View>, detail: View): (r: seq<View>)
    ensures forall v :: v in r ==> v in views || v == detail
  {
    if views == [] then []
    else if views[0].id == detail.id then [detail] + views[1..]
    else [views[0]] + ReplaceView(views[1..], detail)
  }

  /** What a tab shows. */
  ghost predicate Shown(w: World, views: seq<View>, selected: Option<string>, rows: seq<Event>) {
    AllSeen(w, views) && (rows != [] ==> selected.Some? && AllRows(w, selected.value, rows))
  }

  lemma ShownStays(w: World, x: World, views: seq<View>, selected: Option<string>, rows: seq<Event>)
    requires Sane(w) && Ran(w, x) && Shown(w, views, selected, rows)
    ensures Shown(x, views, selected, rows)
  {
    RanKeeps(w, x);
    hide LedgerStore.Stored, Sane, Ran, Later, Seen, RowSeen;
    forall i | 0 <= i < |views| ensures Seen(x, views[i]) { SeenStays(w, x, views[i]); }
    forall i | 0 <= i < |rows| ensures RowSeen(x, selected.value, rows[i]) { RowSeenStays(w, x, selected.value, rows[i]); }
  }

  // ---- everything the ledger has is shown -----------------------------------

  predicate DistinctIds(views: seq<View>) { forall i, j :: 0 <= i < j < |views| ==> views[i].id != views[j].id }

  /** Every vault the owner has in `w` is among the views, at least at its revision there. */
  ghost predicate CoversAll(w: World, owner: string, views: seq<View>) {
    forall id :: id in w.vaults && w.vaults[id].ownerId == owner ==>
      exists i :: 0 <= i < |views| && views[i].id == id && w.vaults[id].revision <= views[i].revision
  }

  /** The same vaults in the same order, none at an earlier revision. */
  predicate Refreshed(views: seq<View>, shown: seq<View>) {
    |shown| == |views|
    && forall i :: 0 <= i < |views| ==> shown[i].id == views[i].id && views[i].revision <= shown[i].revision
  }

  /** The preferred vault if it is listed, or else the first. */
  function Choice(views: seq<View>, preferred: Option<string>): Option<string> {
    if preferred.Some? && exists i :: 0 <= i < |views| && views[i].id == preferred.value then preferred
    else if views == [] then None
    else Some(views[0].id)
  }

  lemma ListingCovers(w: World, x: World, owner: string, views: seq<View>)
    requires Later(w, x) && Listing(x.vaults, owner, views)
    ensures CoversAll(w, owner, views) && DistinctIds(views)
  {
    forall id | id in w.vaults && w.vaults[id].ownerId == owner
      ensures exists i :: 0 <= i < |views| && views[i].id == id && w.vaults[id].revision <= views[i].revision
    {
      assert id in x.vaults && Grown(w.vaults[id], x.vaults[id]);
      var i :| 0 <= i < |views| && views[i].id == id;
      assert views[i] == ViewOf(x.vaults[id]);
    }
  }

  lemma RefreshedCovers(w: World, owner: string, views: seq<View>, shown: seq<View>)
    requires CoversAll(w, owner, views) && DistinctIds(views) && Refreshed(views, shown)
    ensures CoversAll(w, owner, shown) && DistinctIds(shown)
  {
    forall id | id in w.vaults && w.vaults[id].ownerId == owner
      ensures exists i :: 0 <= i < |shown| && shown[i].id == id && w.vaults[id].revision <= shown[i].revision
    {
      var i :| 0 <= i < |views| && views[i].id == id && w.vaults[id].revision <= views[i].revision;
      assert shown[i].id == id && w.vaults[id].revision <= shown[i].revision;
    }
  }

  lemma RefreshedChoice(views: seq<View>, shown: seq<View>, preferred: Option<string>)
    requires Refreshed(views, shown)
    ensures Choice(shown, preferred) == Choice(views, preferred)
  {
    if preferred.Some? {
      if i :| 0 <= i < |views| && views[i].id == preferred.value { assert shown[i].id == preferred.value; }
      if i :| 0 <= i < |shown| && shown[i].id == preferred.value { assert views[i].id == preferred.value; }
    }
  }

  lemma {:induction false} FoundIsListed(views: seq<View>, id: string)
    ensures FindView(views, id).Some? <==> exists i :: 0 <= i < |views| && views[i].id == id
  {
    if views != [] {
      FoundIsListed(views[1..], id);
      if i :| 0 <= i < |views| && views[i].id == id {
        if i > 0 { assert views[1..][i - 1].id == id; }
      }
      if i :| 0 <= i < |views[1..]| && views[1..][i].id == id { assert views[i + 1].id == id; }
    }
  }

  lemma {:induction false} FoundIsTheOne(views: seq<View>, i: nat)
    requires DistinctIds(views) && i < |views|
    ensures FindView(views, views[i].id) == Some(views[i])
  {
    if i > 0 {
      assert views[0].id != views[i].id && views[1..][i - 1] == views[i];
      assert forall j, k :: 0 <= j < k < |views[1..]| ==> views[1..][j] == views[j + 1] && views[1..][k] == views[k + 1];
      FoundIsTheOne(views[1..], i - 1);
    }
  }

  /** An owner's vault is found among the views that cover the owner. */
  lemma CoveredIsFound(w: World, owner: string, views: seq<View>, id: string)
    requires CoversAll(w, owner, views) && DistinctIds(views) && id in w.vaults && w.vaults[id].ownerId == owner
    ensures FindView(views, id).Some? && w.vaults[id].revision <= FindView(views, id).value.revision
  {
    var i :| 0 <= i < |views| && views[i].id == id && w.vaults[id].revision <= views[i].revision;
    FoundIsTheOne(views, i);
  }

  lemma {:induction false} ReplaceRefreshes(views: seq<View>, detail: View)
    requires FindView(views, detail.id).Some? && FindView(views, detail.id).value.revision <= detail.revision
    ensures Refreshed(views, ReplaceView(views, detail))
    ensures FindView(ReplaceView(views, detail), detail.id) == Some(detail)
  {
    if views[0].id != detail.id {
      ReplaceRefreshes(views[1..], detail);
      var shown := ReplaceView(views, detail);
      assert shown[1..] == ReplaceView(views[1..], detail);
      forall i | 0 <= i < |views| ensures shown[i].id == views[i].id && views[i].revision <= shown[i].revision {
        if i > 0 { assert shown[1..][i - 1] == shown[i] && views[1..][i - 1] == views[i]; }
      }
    }
  }

  /** What the service answers passes the tab's checks. */
  lemma ListingIsValid(w: World, owner: string, views: seq<View>)
    requires Sane(w) && Listing(w.vaults, owner, views)
    ensures forall i :: 0 <= i < |views| ==> ValidView(views[i], owner)
  {
    hide AppliedAreRemembered, ReceiptsAreApplied, OnceEach;
    forall i | 0 <= i < |views| ensures ValidView(views[i], owner) { OwnViewIsValid(w, views[i].id); }
  }

  lemma OwnViewIsValid(w: World, id: string)
    requires Sane(w) && id in w.vaults
    ensures ValidView(ViewOf(w.vaults[id]), w.vaults[id].ownerId) && w.vaults[id].id == id
  {
    hide AppliedAreRemembered, ReceiptsAreApplied, OnceEach, ValidId;
    assert Healthy(w.vaults[id], id);
    ReachableIsBalanced(w.vaults[id]);
  }

  lemma AnswerIsValid(w: World, p: Pending, v: View)
    requires Sane(w) && ValidRecord(p) && exists replayed :: Truthful(w, EnvelopeOf(p), Accepted(v, replayed))
    ensures Passes(p, v) && Ours(w, p.owner, v)
  {
    hide AppliedAreRemembered, ReceiptsAreApplied, OnceEach, ValidId, Readable, Identity;
    OwnViewIsValid(w, v.id);
  }

  lemma RowsAreValid(w: World, id: string, rows: seq<Event>)
    requires Sane(w) && AllRows(w, id, rows)
    ensures forall i :: 0 <= i < |rows| ==> ValidId(rows[i].commandId) && IsSafeInteger(rows[i].revision)
  {
    hide AppliedAreRemembered, ReceiptsAreApplied, OnceEach, ValidId, Check, Tidy;
    forall i | 0 <= i < |rows| ensures ValidId(rows[i].commandId) && IsSafeInteger(rows[i].revision) {
      assert RowSeen(w, id, rows[i]);
      assert Healthy(w.vaults[id], id);
      assert EventTold(w.vaults[id], rows[i].revision - 1);
    }
  }

  /** The view is of the vault as it is in `w`. */
  ghost predicate ViewIn(w: World, v: View) { v.id in w.vaults && v == ViewOf(w.vaults[v.id]) }

  /** The rows are the newest hundred of the vault in `w`. */
  ghost predicate AuditOf(w: World, id: string, rows: seq<Event>) {
    id in w.vaults && NewestHundred(w.vaults[id].events, rows)
  }

  /** The view is one of the owner's. */
  ghost predicate Ours(w: World, owner: string, v: View) { Seen(w, v) && v.ownerId == owner }

  lemma OnwardKeepsOwner(w: World, s: seq<Meanwhile>, x: World, t: seq<Meanwhile>, owner: string, id: string)
    requires Sane(w) && Onward(w, s, x, t, None)
    ensures id in w.vaults && w.vaults[id].ownerId == owner ==> id in x.vaults && x.vaults[id].ownerId == owner
  {
    hide LedgerStore.Stored, Sane, Ran;
    RanKeeps(w, x);
    if id in w.vaults { assert id in x.vaults && Grown(w.vaults[id], x.vaults[id]); }
  }

  lemma FirstView(w: World, s: seq<Meanwhile>, x: World, t: seq<Meanwhile>, v: View)
    requires Waited(w, s, x, t, 1) && v.id in x.vaults && v == ViewOf(x.vaults[v.id])
    ensures ViewIn(WorldAfter(w, s, 1), v)
  {
    hide WorldAfter, ScriptAfter;
  }

  lemma SeenGoesOn(w: World, s: seq<Meanwhile>, x: World, t: seq<Meanwhile>, v: View)
    requires Sane(w) && Onward(w, s, x, t, None) && Seen(w, v)
    ensures Seen(x, v)
  {
    hide LedgerStore.Stored, Sane, Ran;
    RanKeeps(w, x);
    SeenStays(w, x, v);
  }

  /** The detail of a listed vault passes the tab's checks. */
  lemma DetailPasses(w: World, s: seq<Meanwhile>, owner: string, listed: View, view: View)
    requires Sane(w) && Ours(w, owner, listed) && ViewIn(WorldAfter(w, s, 1), view) && view.id == listed.id
    ensures ValidView(view, owner) && view.strategyId == listed.strategyId && listed.revision <= view.revision
  {
    hide LedgerStore.Stored, Sane, Ran, WorldAfter, ValidView, ValidId;
    var x := WorldAfter(w, s, 1);
    WaitsRun(w, s, 1);
    RanKeeps(w, x);
    OwnViewIsValid(x, view.id);
    assert Grown(w.vaults[view.id], x.vaults[view.id]);
  }

  /** The view shown of the vault is its state in `w`. */
  ghost predicate Detailed(w: World, views: seq<View>, id: string) {
    FindView(views, id).Some? && ViewIn(w, FindView(views, id).value)
  }

  ghost predicate AllOurs(w: World, owner: string, views: seq<View>) {
    forall i :: 0 <= i < |views| ==> Ours(w, owner, views[i])
  }

  lemma ListedIsChoice(views: seq<View>, preferred: Option<string>, listed: Option<View>)
    requires var found := if preferred.Some? then FindView(views, preferred.value) else None;
             listed == if found.Some? then found else if views != [] then Some(views[0]) else None
    ensures Choice(views, preferred) == if listed.Some? then Some(listed.value.id) else None
    ensures listed.None? ==> views == [] && Refreshed(views, [])
    ensures listed.Some? ==> listed.value in views && FindView(views, listed.value.id) == listed
  {
    if preferred.Some? { FoundIsListed(views, preferred.value); }
  }

  lemma NothingShown(w: World)
    ensures Shown(w, [], None, [])
  {}

  lemma DetailIsShown(w: World, views: seq<View>, id: string, rows: seq<Event>)
    requires AllSeen(w, views) && AllRows(w, id, rows)
    ensures Shown(w, views, Some(id), rows)
  {}

  /** The results of one read. */
  datatype Reading = Reading(
    owner: string, record: Option<Pending>, views: seq<View>, chosen: Option<string>, rows: seq<Event>)

  /** The record that is the owner's own. */
  function OwnRecord(storage: Stored, owner: string): Option<Pending> {
    if storage.Kept? && storage.pending.owner == owner then Some(storage.pending) else None
  }

  predicate RecordReadable(storage: Stored) { storage.Nothing? || (storage.Kept? && ValidRecord(storage.pending)) }

  /** The vault a read prefers: the one chosen before by the same owner, or else that of the owner's record. */
  function PreferredBy(r: Reading, before: Option<string>, chosen: Option<string>): Option<string> {
    if (before.None? || before.value == r.owner) && chosen.Some? then chosen
    else if r.record.Some? then Some(r.record.value.vaultId) else None
  }

  /**
   Between `w` and `y` the owner's vaults were read, each at least as it was in `w`, and the audit of
   the chosen one as it is in `y`. With nothing listed, the cookie tells whose vaults there are none of.
   */
  ghost predicate Whole(w: World, y: World, session: Option<string>, r: Reading) {
    && DistinctIds(r.views) && (r.views != [] || session == Some(r.owner) ==> CoversAll(w, r.owner, r.views))
    && (r.chosen.Some? ==> AuditOf(y, r.chosen.value, r.rows))
  }

  lemma CalmIsIdle(script: seq<Meanwhile>, session: Option<string>)
    ensures Undisturbed(script, session) ==> TabsIdle(script)
  {}

  lemma ListingIsOurs(w: World, session: Option<string>, owner: string, views: seq<View>)
    requires session.Some? && Listing(w.vaults, session.value, views)
    ensures session.value == owner ==> AllOurs(w, owner, views)
  {}

  lemma ChoiceIsSome(views: seq<View>, preferred: Option<string>)
    ensures Choice(views, preferred).None? <==> views == []
  {}

  lemma DetailedLater(w: World, s: seq<Meanwhile>, x: World, t: seq<Meanwhile>, views: seq<View>, id: string)
    requires Waited(w, s, x, t, 2) && Detailed(WorldAfter(x, t, 1), views, id)
    ensures Detailed(WorldAfter(w, s, 3), views, id)
  {
    WaitsAdd(w, s, 2, 1);
    hide WorldAfter, ScriptAfter, Detailed;
  }

  lemma ListingIsWhole(w: World, s: seq<Meanwhile>, x: World, t: seq<Meanwhile>, y: World, at: Option<string>, owner: string,
                       views: seq<View>, shown: seq<View>, chosen: Option<string>, rows: seq<Event>, session: Option<string>,
                       record: Option<Pending>)
    requires Sane(w) && Onward(w, s, x, t, None) && at.Some? && Listing(x.vaults, at.value, views)
    requires (forall i :: 0 <= i < |views| ==> views[i].ownerId == owner) && Refreshed(views, shown)
    requires (chosen.None? <==> views == []) && (chosen.None? ==> session == at)
    requires chosen.Some? ==> AuditOf(y, chosen.value, rows)
    ensures Whole(w, y, session, Reading(owner, record, shown, chosen, rows))
  {
    hide LedgerStore.Stored, Sane, Ran, AuditOf, CoversAll;
    RanKeeps(w, x);
    ListingCovers(w, x, at.value, views);
    RefreshedCovers(w, at.value, views, shown);
    if views != [] { assert views[0].ownerId == at.value; }
  }

  /** The listing and the detail make up a whole reading. */
  lemma Assembled(w: World, s: seq<Meanwhile>, x: World, t: seq<Meanwhile>, y: World, u: seq<Meanwhile>, at: Option<string>,
                  session: Option<string>, views: seq<View>, preferred: Option<string>, r: Reading)
    requires Sane(w) && Onward(w, s, x, t, None) && Waited(w, s, x, t, 2)
    requires at.Some? && Listing(x.vaults, at.value, views)
    requires (forall i :: 0 <= i < |views| ==> views[i].ownerId == r.owner) && Refreshed(views, r.views)
    requires r.chosen == Choice(views, preferred) && (r.chosen.None? ==> session == at)
    requires r.chosen.Some? ==>
               AuditOf(y, r.chosen.value, r.rows) && Waited(x, t, y, u, 2)
               && Detailed(WorldAfter(x, t, 1), r.views, r.chosen.value)
    ensures Whole(w, y, session, r) && r.chosen == Choice(r.views, preferred)
    ensures r.chosen.Some? ==> Waited(w, s, y, u, 4) && Detailed(WorldAfter(w, s, 3), r.views, r.chosen.value)
  {
    hide Sane, Onward, Waited, Listing, Refreshed, Choice, AuditOf, WorldAfter, Detailed, Whole;
    if r.chosen.Some? {
      WaitedThen(w, s, x, t, 2, y, u, 2);
      DetailedLater(w, s, x, t, r.views, r.chosen.value);
    }
    RefreshedChoice(views, r.views, preferred);
    ChoiceIsSome(views, preferred);
    ListingIsWhole(w, s, x, t, y, at, r.owner, views, r.views, r.chosen, r.rows, session, r.record);
  }

  // ---- what a retry finds ---------------------------------------------------

  /** The audit row is the trace of the envelope, and the vault shown has reached it. */
  predicate Traces(p: Pending, row: Event, vault: Option<View>) {
    && vault.Some? && row.actorId == ActorFor(p.owner, p.command.body).id && row.kind == KindOf(p.command.body)
    && row.revision > p.command.expectedRevision && vault.value.revision >= row.revision
  }

  /** The envelope's identifier is on one of the newest hundred rows of its vault. */
  ghost predicate Audited(w: World, e: Envelope) {
    e.vaultId in w.vaults
    && var events := w.vaults[e.vaultId].events;
       exists k :: 0 <= k < |events| && |events| - 100 <= k && events[k].commandId == e.command.id
  }

  /**
   When the audit is read, after the fourth wait, it tells of the envelope and the vault, read after the
   third, shows it applied too; or the audit does not tell of it, and it is answered with success after
   the fifth.
   */
  ghost predicate Foreseen(w: World, s: seq<Meanwhile>, e: Envelope) {
    if Audited(WorldAfter(w, s, 4), e) then e in WorldAfter(w, s, 3).applied
    else Submitted(WorldAfter(w, s, 5), e).1.Done?
  }

  /** Whatever is applied when the retry begins is foreseen. */
  lemma AppliedIsForeseen(w: World, s: seq<Meanwhile>, e: Envelope)
    requires Sane(w) && e in w.applied
    ensures Foreseen(w, s, e)
  {
    hide Sane, Ran, WorldAfter, Submitted;
    WaitsRun(w, s, 3);
    RanKeeps(w, WorldAfter(w, s, 3));
    LaterApplied(w, WorldAfter(w, s, 3), e);
    WaitsRun(w, s, 5);
    AppliedIsDone(w, WorldAfter(w, s, 5), e);
  }

  /** So is what is not applied by the fourth wait and answered with success after the fifth. */
  lemma AppliedLaterIsForeseen(w: World, s: seq<Meanwhile>, e: Envelope)
    requires Sane(w) && OwnId(WorldAfter(w, s, 4), e) && Owned(w, e)
    requires e !in WorldAfter(w, s, 4).applied && Submitted(WorldAfter(w, s, 5), e).1.Done?
    ensures Foreseen(w, s, e)
  {
    hide Sane, Ran, WorldAfter, Submitted, OwnId;
    var x := WorldAfter(w, s, 4);
    WaitsRun(w, s, 4);
    RanKeeps(w, x);
    assert Grown(w.vaults[e.vaultId], x.vaults[e.vaultId]);
    if Audited(x, e) { AuditedIsApplied(x, e); }
  }

  lemma AuditedIsApplied(w: World, e: Envelope)
    requires Sane(w) && OwnId(w, e) && Owned(w, e) && Audited(w, e)
    ensures e in w.applied
  {
    hide Sane, OwnId, RowSeen, Audited;
    var row := AuditedRow(w, e);
    RowMeansApplied(w, e, row);
  }

  lemma AuditedRow(w: World, e: Envelope) returns (row: Event)
    requires Sane(w) && Audited(w, e)
    ensures RowSeen(w, e.vaultId, row) && row.commandId == e.command.id
  {
    hide Sane;
    HistoryOf(w, e.vaultId);
    var events := w.vaults[e.vaultId].events;
    var k :| 0 <= k < |events| && |events| - 100 <= k && events[k].commandId == e.command.id;
    row := events[k];
  }

  /** When vault and audit are read at one moment, the ledger's answer alone decides. */
  lemma OneMomentSuffices(w: World, s: seq<Meanwhile>, e: Envelope)
    requires Sane(w) && OwnId(WorldAfter(w, s, 4), e) && Owned(w, e) && WorldAfter(w, s, 4) == WorldAfter(w, s, 3)
    ensures Foreseen(w, s, e) <==> Submitted(WorldAfter(w, s, 5), e).1.Done?
  {
    hide Sane, Ran, WorldAfter, ScriptAfter, Submitted, OwnId, Audited;
    var x := WorldAfter(w, s, 4);
    WaitsRun(w, s, 4);
    RanKeeps(w, x);
    assert Grown(w.vaults[e.vaultId], x.vaults[e.vaultId]);
    if Audited(x, e) {
      AuditedIsApplied(x, e);
      WaitsAdd(w, s, 4, 1);
      WaitsRun(x, ScriptAfter(s, 4), 1);
      AppliedIsDone(x, WorldAfter(w, s, 5), e);
    }
  }

  lemma HistoryOf(w: World, id: string)
    requires Sane(w) && id in w.vaults
    ensures forall i :: 0 <= i < |w.vaults[id].events| ==> w.vaults[id].events[i].revision == i + 1
    ensures |w.vaults[id].events| == w.vaults[id].revision
  {
    hide AppliedAreRemembered, ReceiptsAreApplied, OnceEach, Check, Tidy, Told;
    assert Healthy(w.vaults[id], id);
    ReachableIsBalanced(w.vaults[id]);
  }

  /** Under a fresh identifier a row with it tells of the envelope, at a revision the vault had when it was applied. */
  lemma RowTraces(w: World, x: World, p: Pending, row: Event, view: View)
    requires Sane(w) && Ran(w, x) && OwnId(x, EnvelopeOf(p)) && Owned(x, EnvelopeOf(p))
    requires RowSeen(x, p.vaultId, row) && row.commandId == p.command.id && ViewIn(w, view) && view.id == p.vaultId
    requires EnvelopeOf(p) in x.applied ==> EnvelopeOf(p) in w.applied
    ensures Traces(p, row, Some(view))
  {
    var e := EnvelopeOf(p);
    RanKeeps(w, x);
    RowMeansApplied(x, e, row);
    var s, n := w.vaults[p.vaultId], x.vaults[p.vaultId];
    assert Remembers(s, e) && Remembers(n, e) && Healthy(s, p.vaultId) && Healthy(n, p.vaultId) && Grown(s, n);
    ReceiptsAgree(s, n, e, row);
  }

  lemma ReceiptsAgree(s: State, n: State, e: Envelope, row: Event)
    requires Reachable(s) && Reachable(n) && Grown(s, n) && Remembers(s, e) && Remembers(n, e)
    requires 1 <= row.revision <= |n.events| && n.events[row.revision - 1] == row && row.commandId == e.command.id
    ensures row.actorId == ActorFor(e.owner, e.command.body).id && row.kind == KindOf(e.command.body)
    ensures e.command.expectedRevision < row.revision <= s.revision
  {
    hide Check, Tidy, ValidId, ActorFor, PolicyFor, Allowed, Readable;
    ReachableIsBalanced(s);
    ReachableIsBalanced(n);
    ReceiptHasEvent(s, e.command.id);
    assert EventTold(n, row.revision - 1);
  }

  /** A vault that has reached the row's revision has the envelope applied. */
  lemma TracesMeansApplied(w: World, x: World, p: Pending, row: Event, view: View)
    requires Sane(w) && Ran(w, x) && OwnId(x, EnvelopeOf(p)) && Owned(x, EnvelopeOf(p))
    requires RowSeen(x, p.vaultId, row) && row.commandId == p.command.id && ViewIn(w, view) && view.id == p.vaultId
    requires Traces(p, row, Some(view))
    ensures EnvelopeOf(p) in w.applied
  {
    var e := EnvelopeOf(p);
    RanKeeps(w, x);
    RowMeansApplied(x, e, row);
    var s, n := w.vaults[p.vaultId], x.vaults[p.vaultId];
    HistoryOf(w, p.vaultId);
    assert Grown(s, n) && s.events[row.revision - 1] == row && Remembers(n, e);
    assert EventTold(s, row.revision - 1) by { assert Healthy(s, p.vaultId); }
    assert s.receipts[row.commandId] == n.receipts[row.commandId];
  }

  lemma AppliedIsDone(w: World, x: World, e: Envelope)
    requires Sane(w) && Ran(w, x) && e in w.applied
    ensures Submitted(x, e).1.Done?
  {
    hide Sane, Ran, Submitted;
    RanKeeps(w, x);
    LaterApplied(w, x, e);
    AppliedIsRejectedOnlyUnderOtherCookie(x, e, e.owner);
  }

  /** The rows of a retry's audit, against what was foreseen. */
  lemma RecallDecides(w: World, s: seq<Meanwhile>, x: World, t: seq<Meanwhile>, p: Pending, views: seq<View>,
                      rows: seq<Event>)
    requires Sane(w) && Waited(w, s, x, t, 4) && Onward(w, s, x, t, None) && Honest(w.vaults, p)
    requires OwnId(w, EnvelopeOf(p)) && ScriptAgrees(s, EnvelopeOf(p))
    requires Detailed(WorldAfter(w, s, 3), views, p.vaultId) && AllRows(x, p.vaultId, rows) && AuditOf(x, p.vaultId, rows)
    ensures (exists row :: row in rows && row.commandId == p.command.id) <==> Audited(x, EnvelopeOf(p))
    ensures forall row :: row in rows && row.commandId == p.command.id ==>
              (Traces(p, row, FindView(views, p.vaultId)) <==> EnvelopeOf(p) in WorldAfter(w, s, 3).applied)
    ensures WorldAfter(x, t, 1) == WorldAfter(w, s, 5)
  {
    hide Sane, Ran, WorldAfter, ScriptAfter, OwnId, ScriptAgrees, Submitted, RowSeen, Traces, FindView, Happens,
      Audited, AuditOf;
    var e := EnvelopeOf(p);
    var w3 := WorldAfter(w, s, 3);
    WaitsRun(w, s, 3);
    RanKeeps(w, w3);
    WaitsAdd(w, s, 3, 1);
    WaitsRun(w3, ScriptAfter(s, 3), 1);
    WaitsAdd(w, s, 4, 1);
    OnwardKeepsOwner(w, s, x, t, p.owner, p.vaultId);
    AuditedRows(x, e, rows);
    forall row | row in rows && row.commandId == p.command.id
      ensures Traces(p, row, FindView(views, p.vaultId)) <==> e in w3.applied
    {
      if e in w3.applied { RowTraces(w3, x, p, row, FindView(views, p.vaultId).value); }
      if Traces(p, row, FindView(views, p.vaultId)) {
        TracesMeansApplied(w3, x, p, row, FindView(views, p.vaultId).value);
      }
    }
  }

  lemma AuditedRows(w: World, e: Envelope, rows: seq<Event>)
    requires AuditOf(w, e.vaultId, rows)
    ensures (exists row :: row in rows && row.commandId == e.command.id) <==> Audited(w, e)
  {
    var events := w.vaults[e.vaultId].events;
    if Audited(w, e) {
      var k :| 0 <= k < |events| && |events| - 100 <= k && events[k].commandId == e.command.id;
      assert rows[|events| - 1 - k] == events[k];
    }
    if row :| row in rows && row.commandId == e.command.id {
      var j :| 0 <= j < |rows| && rows[j] == row;
      assert events[|events| - 1 - j] == row;
    }
  }

  lemma SelectedRows(w: World, views: seq<View>, selected: Option<string>, rows: seq<Event>, id: string)
    requires Shown(w, views, selected, rows) && selected == Some(id)
    ensures AllRows(w, id, rows)
  {}

  lemma RecallGoesOn(w: World, s: seq<Meanwhile>, x: World, t: seq<Meanwhile>, p: Pending)
    requires Sane(w) && Onward(w, s, x, t, None) && Honest(w.vaults, p)
    ensures Honest(x.vaults, p)
    ensures OwnId(w, EnvelopeOf(p)) && ScriptAgrees(s, EnvelopeOf(p)) ==>
              OwnId(x, EnvelopeOf(p)) && ScriptAgrees(t, EnvelopeOf(p))
  {
    hide Sane, Ran, OwnId, ScriptAgrees, Honest;
    StillHonest(w, x, p);
  }

  lemma WentOn(w: World, s: seq<Meanwhile>, x: World, t: seq<Meanwhile>, sent: Option<Envelope>)
    requires Onward(w, s, x, t, sent)
    ensures Ran(w, x)
  {}

  lemma DrawnIsValid(w: World, views: seq<View>, p: Pending)
    requires Sane(w) && AllSeen(w, views) && Identity(p.owner) && ValidCommand(p.command) && p.rejection.None?
    requires exists v :: v in views && v.id == p.vaultId && v.ownerId == p.owner && v.revision == p.command.expectedRevision
    ensures ValidRecord(p)
  {
    hide AppliedAreRemembered, ReceiptsAreApplied, OnceEach, ValidId, ValidCommand, Identity;
    OwnViewIsValid(w, p.vaultId);
  }

  lemma ReviewIsHonest(w: World, views: seq<View>, p: Pending)
    requires AllSeen(w, views)
    requires exists v :: v in views && v.id == p.vaultId && v.ownerId == p.owner && v.revision == p.command.expectedRevision
    ensures Honest(w.vaults, p)
  {}

  lemma StillHonest(w: World, x: World, p: Pending)
    requires Sane(w) && Ran(w, x) && Honest(w.vaults, p)
    ensures Honest(x.vaults, p)
  {
    RanKeeps(w, x);
    HonestStays(w, x, p);
  }

  lemma DismissedForGood(w: World, p: Pending)
    requires Sane(w) && Founded(w, p)
    ensures p.rejection == Some(CONFLICT) ==> forall hs :: EnvelopeOf(p) !in Happens(w, hs).applied
  {
    hide LedgerStore.Stored, Sane, Stuck, Happens;
    if p.rejection == Some(CONFLICT) {
      forall hs ensures EnvelopeOf(p) !in Happens(w, hs).applied { RefusedForever(w, EnvelopeOf(p), hs); }
    }
  }

  lemma IsOnce(w: World, e: Envelope)
    requires Sane(w) && e in w.applied
    ensures multiset(w.applied)[e] == 1
  {
    OnceIsOne(w.applied, e);
  }

  lemma StillApplied(w: World, x: World, e: Envelope)
    requires Sane(w) && Ran(w, x) && e in w.applied
    ensures e in x.applied
  {
    RanKeeps(w, x);
    LaterApplied(w, x, e);
  }

  lemma Standing(w: World, s: seq<Meanwhile>)
    ensures Onward(w, s, w, s, None)
  {
    RanReflexive(w);
  }

  lemma ListedIsSeen(w: World, views: seq<View>, v: View)
    requires AllSeen(w, views) && v in views
    ensures Seen(w, v)
  {}

  lemma ReplacedIsSeen(w: World, x: World, s: seq<Meanwhile>, t: seq<Meanwhile>, views: seq<View>, detail: View)
    requires Sane(w) && Onward(w, s, x, t, None) && AllSeen(w, views) && Seen(x, detail)
    ensures AllSeen(x, ReplaceView(views, detail))
    ensures forall id :: FindView(ReplaceView(views, detail), id).Some? <==> FindView(views, id).Some?
  {
    ShownStays(w, x, views, None, []);
    hide LedgerStore.Stored, Sane, Ran, Seen;
    forall v | v in ReplaceView(views, detail) ensures Seen(x, v) {}
    forall id ensures FindView(ReplaceView(views, detail), id).Some? <==> FindView(views, id).Some? {
      ReplaceKeepsIds(views, detail, id);
    }
  }

  lemma {:induction false} ReplaceKeepsIds(views: seq<View>, detail: View, id: string)
    ensures FindView(ReplaceView(views, detail), id).Some? <==> FindView(views, id).Some?
  {
    if views != [] && views[0].id != detail.id {
      var r := ReplaceView(views, detail);
      assert r[1..] == ReplaceView(views[1..], detail);
      ReplaceKeepsIds(views[1..], detail, id);
    } else if views != [] {
      assert ReplaceView(views, detail)[1..] == views[1..];
    }
  }

  lemma DetailStays(w: World, x: World, v: View)
    requires Sane(w) && Ran(w, x) && Seen(w, v)
    ensures Seen(x, v)
  {
    RanKeeps(w, x);
    SeenStays(w, x, v);
  }
}
