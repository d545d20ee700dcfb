/**
 The local store: a table of vaults and a table of audit rows, changed together in
 one transaction per command.
 */
module LedgerStore {
  import opened Prelude
  import opened Vault
  import opened VaultLaws
  import opened LocalLedger
  import VaultLedger

  datatype StoreError = VaultNotFound | VaultExists | Ledger(error: VaultError)

  datatype Page = Page(items: seq<Event>, nextCursor: Option<int>)

  /** The audit rows of a vault are its events, each under its revision. */
  ghost predicate RowsMatch(s: State, audit: map<(string, int), Event>) {
    forall r :: 1 <= r <= |s.events| ==> (s.id, r) in audit && audit[(s.id, r)] == s.events[r - 1]
  }

  ghost predicate VaultsStored(vaults: map<string, State>, audit: map<(string, int), Event>) {
    forall id :: id in vaults ==> Healthy(vaults[id], id) && RowsMatch(vaults[id], audit)
  }

  ghost predicate NoOtherRows(vaults: map<string, State>, audit: map<(string, int), Event>) {
    forall id, r :: (id, r) in audit ==> id in vaults && 1 <= r <= |vaults[id].events|
  }

  ghost predicate OnePerStrategy(vaults: map<string, State>) {
    forall i, j :: i in vaults && j in vaults && i != j ==>
      vaults[i].ownerId != vaults[j].ownerId || vaults[i].strategyId != vaults[j].strategyId
  }

  /** Reachable vaults under their own ids, one per owner and strategy, and an audit table that is their events. */
  ghost predicate Stored(vaults: map<string, State>, audit: map<(string, int), Event>) {
    VaultsStored(vaults, audit) && NoOtherRows(vaults, audit) && OnePerStrategy(vaults)
  }

  predicate IsRow(vaults: map<string, State>, s: State) { s.id in vaults && vaults[s.id] == s }

  lemma InsertKeepsStored(vaults: map<string, State>, audit: map<(string, int), Event>, id: string, s: State)
    requires Stored(vaults, audit) && id !in vaults && Healthy(s, id) && s.events == []
    requires !HasVault(vaults, s.ownerId, s.strategyId)
    ensures Stored(vaults[id := s], audit)
  {
    hide Healthy;
  }

  lemma UpdateKeepsRows(vaults: map<string, State>, audit: map<(string, int), Event>, id: string, n: State)
    requires Stored(vaults, audit) && id in vaults && Healthy(n, id)
    requires |n.events| == |vaults[id].events| + 1 && n.events[..|n.events| - 1] == vaults[id].events
    ensures VaultsStored(vaults[id := n], audit[(id, |n.events|) := n.events[|n.events| - 1]])
    ensures NoOtherRows(vaults[id := n], audit[(id, |n.events|) := n.events[|n.events| - 1]])
  {
    hide Healthy, OnePerStrategy;
    var x, a := vaults[id := n], audit[(id, |n.events|) := n.events[|n.events| - 1]];
    assert vaults[id].id == id && n.id == id by { HealthyId(vaults[id], id); HealthyId(n, id); }
    forall k | k in x ensures Healthy(x[k], k) && RowsMatch(x[k], a) {
      HealthyId(x[k], k);
      assert RowsMatch(vaults[k], audit);
    }
  }

  lemma HealthyId(s: State, id: string)
    requires Healthy(s, id)
    ensures s.id == id
  {}

  /** The newest `top` events, newest first. */
  function Newest(events: seq<Event>, top: nat): (es: seq<Event>)
    requires top <= |events|
    ensures |es| == top && forall k :: 0 <= k < top ==> es[k] == events[top - 1 - k]
  {
    seq(top, k requires 0 <= k < top => events[top - 1 - k])
  }

  /** How many of the events come before a cursor. */
  function Before(events: seq<Event>, before: int): nat {
    if before <= 1 then 0 else if before - 1 < |events| then before - 1 else |events|
  }

  function PageOf(events: seq<Event>, before: int, limit: nat): Page {
    var top := Before(events, before);
    if top <= limit then Page(Newest(events, top), None)
    else Page(Newest(events, top)[..limit], Some(top - limit + 1))
  }

  /** Every page in turn, each from the cursor of the one before. */
  function AllPages(events: seq<Event>, before: int, limit: nat): seq<Event>
    requires limit > 0
    decreases Before(events, before)
  {
    var page := PageOf(events, before, limit);
    if page.nextCursor.None? then page.items else page.items + AllPages(events, page.nextCursor.value, limit)
  }

  /** Following the cursors yields every event before the first cursor, newest first, none twice and none missed. */
  lemma {:induction false} PagesCoverAudit(events: seq<Event>, before: int, limit: nat)
    requires limit > 0
    ensures AllPages(events, before, limit) == Newest(events, Before(events, before))
    decreases Before(events, before)
  {
    var page := PageOf(events, before, limit);
    if page.nextCursor.Some? { PagesCoverAudit(events, page.nextCursor.value, limit); }
  }

  class LocalStore {
    var vaults: map<string, State>
    var audit: map<(string, int), Event>

    ghost predicate Valid()
      reads this
    {
      Stored(vaults, audit)
    }

    constructor ()
      ensures Valid() && vaults == map[] && audit == map[]
    {
      vaults, audit := map[], map[];
    }

    method Get(id: string, owner: string) returns (r: Result<State, StoreError>)
      ensures r == if id in vaults && vaults[id].ownerId == owner then Ok(vaults[id]) else Err(VaultNotFound)
    {
      if id !in vaults || vaults[id].ownerId != owner { return Err(VaultNotFound); }
      return Ok(vaults[id]);
    }

    /** Every vault of the owner, once; the order of the table is left open. */
    method List(owner: string) returns (states: seq<State>)
      requires Valid()
      ensures forall i :: 0 <= i < |states| ==> IsRow(vaults, states[i]) && states[i].ownerId == owner
      ensures forall i, j :: 0 <= i < j < |states| ==> states[i].id != states[j].id
      ensures forall id :: id in vaults && vaults[id].ownerId == owner ==> vaults[id] in states
    {
      states := [];
      var rest := vaults.Keys;
      hide RowsMatch, NoOtherRows, OnePerStrategy, Reachable;
      while rest != {}
        invariant rest <= vaults.Keys
        invariant forall i :: 0 <= i < |states| ==>
                    IsRow(vaults, states[i]) && states[i].ownerId == owner && states[i].id !in rest
        invariant forall i, j :: 0 <= i < j < |states| ==> states[i].id != states[j].id
        invariant forall id :: id in vaults && id !in rest && vaults[id].ownerId == owner ==> vaults[id] in states
        decreases |rest|
      {
        var id :| id in rest;
        assert Healthy(vaults[id], id);
        if vaults[id].ownerId == owner { states := states + [vaults[id]]; }
        rest := rest - {id};
      }
    }

    /** The vault of an owner for a strategy, if there is one. */
    method Find(owner: string, strategyId: string) returns (found: Option<string>)
      ensures found.None? <==> !HasVault(vaults, owner, strategyId)
      ensures found.Some? ==> found.value in vaults && vaults[found.value].ownerId == owner
                              && vaults[found.value].strategyId == strategyId
    {
      var rest := vaults.Keys;
      while rest != {}
        invariant rest <= vaults.Keys
        invariant forall id :: id in vaults && id !in rest ==>
                    !(vaults[id].ownerId == owner && vaults[id].strategyId == strategyId)
        decreases |rest|
      {
        var id :| id in rest;
        if vaults[id].ownerId == owner && vaults[id].strategyId == strategyId { return Some(id); }
        rest := rest - {id};
      }
      found := None;
    }

    /** Test passes are granted once per owner and strategy; asking again returns the vault there is. */
    method ObtainTestPasses(owner: string, strategyId: string, id: string) returns (r: Result<State, StoreError>)
      requires Valid()
      modifies this`vaults
      ensures Valid()
      ensures HasVault(old(vaults), owner, strategyId) ==>
                vaults == old(vaults) && r.Ok? && r.value.ownerId == owner && r.value.strategyId == strategyId
      ensures r.Ok? ==> r.value.id in vaults && vaults[r.value.id] == r.value
      ensures r.Err? ==> vaults == old(vaults)
      ensures vaults == WithPasses(old(vaults), owner, strategyId, id)
    {
      hide Stored, HasVault;
      var found := Find(owner, strategyId);
      if found.Some? {
        StoredReads(vaults, audit, found.value);
        return Ok(vaults[found.value]);
      }
      var state := Fresh(id, owner, SIMULATOR, strategyId, PASSES);
      var fault := VaultLedger.AssertInvariant(state);
      FreshIsStorable(id, owner, strategyId);
      hide WithPasses, Healthy;
      if fault.Some? { return Err(Ledger(fault.value)); }
      if id in vaults { return Err(VaultExists); }
      InsertKeepsStored(vaults, audit, id, state);
      WithPassesInserts(vaults, owner, strategyId, id);
      vaults := vaults[id := state];
      r := Ok(state);
    }

    /** One command: the vault and its audit row change together, or nothing does. */
    method Command(owner: string, id: string, actor: Actor, command: Command, policy: Option<Policy>)
      returns (r: Result<(State, bool), StoreError>)
      requires Valid()
      modifies this
      ensures Valid()
      ensures id !in old(vaults) || old(vaults)[id].ownerId != owner ==> r == Err(VaultNotFound)
      ensures id in old(vaults) && old(vaults)[id].ownerId == owner ==>
                match Execute(old(vaults)[id], actor, command, policy)
                case Refused(error) => r == Err(Ledger(error))
                case Replayed => r == Ok((old(vaults)[id], true))
                case Applied(n) =>
                  && r == Ok((n, false)) && vaults == old(vaults)[id := n]
                  && audit == old(audit)[(id, n.revision) := Event(n.revision, command.id, KindOf(command.body), actor.id)]
      ensures r.Err? || r.value.1 ==> vaults == old(vaults) && audit == old(audit)
    {
      hide Execute, Stored;
      var got := Get(id, owner);
      if got.Err? { return Err(got.error); }
      var previous := got.value;
      StoredReads(vaults, audit, id);
      var outcome := VaultLedger.Run(previous, actor, command, policy);
      if outcome.Refused? { return Err(Ledger(outcome.error)); }
      if outcome.Replayed? { return Ok((previous, true)); }
      var state := outcome.state;
      AppliedGrows(previous, actor, command, policy);
      AppliedKeepsStored(vaults, audit, id, actor, command, policy, state);
      vaults := vaults[id := state];
      audit := audit[(id, state.revision) := Event(state.revision, command.id, KindOf(command.body), actor.id)];
      return Ok((state, false));
    }

    /** The rows of a vault below a revision in descending order, up to a number of rows. */
    method Query(id: string, before: int, count: nat) returns (rows: seq<Event>)
      requires Valid() && id in vaults
      ensures var events := vaults[id].events; var top := Before(events, before);
              |rows| == (if top <= count then top else count) && rows == Newest(events, top)[..|rows|]
    {
      hide Stored;
      ghost var events := vaults[id].events;
      ghost var top := Before(events, before);
      StoredRows(vaults, audit, id);
      rows := [];
      var revision := before - 1;
      while revision >= 1 && |rows| < count
        invariant |rows| <= count && |rows| <= top
        invariant if rows == [] then revision >= top || before <= 1 else revision == top - |rows|
        invariant revision <= before - 1 && (before >= 1 ==> revision >= 0)
        invariant forall k :: 0 <= k < |rows| ==> rows[k] == events[top - 1 - k]
      {
        if (id, revision) in audit { rows := rows + [audit[(id, revision)]]; }
        revision := revision - 1;
      }
    }

    /** One page of the audit, newest first, and the cursor of the next. */
    method AuditPage(owner: string, id: string, limit: nat, beforeRevision: Option<int>)
      returns (r: Result<Page, StoreError>)
      requires Valid() && limit > 0
      ensures r == if id in vaults && vaults[id].ownerId == owner
                   then Ok(PageOf(vaults[id].events, if beforeRevision.Some? then beforeRevision.value else 10001, limit))
                   else Err(VaultNotFound)
    {
      var got := Get(id, owner);
      if got.Err? { return Err(got.error); }
      StoredRows(vaults, audit, id);
      hide Stored;
      var before := if beforeRevision.Some? then beforeRevision.value else 10001;
      hide Newest, Before;
      var rows := Query(id, before, limit + 1);
      var items := if |rows| > limit then rows[..limit] else rows;
      PageFromRows(vaults[id].events, before, limit, rows);
      return Ok(Page(items, if |rows| > limit then Some(items[limit - 1].revision) else None));
    }
  }

  lemma PageFromRows(events: seq<Event>, before: int, limit: nat, rows: seq<Event>)
    requires limit > 0 && forall i :: 0 <= i < |events| ==> events[i].revision == i + 1
    requires var top := Before(events, before);
             |rows| == (if top <= limit + 1 then top else limit + 1) && rows == Newest(events, top)[..|rows|]
    ensures PageOf(events, before, limit)
            == Page(if |rows| > limit then rows[..limit] else rows,
                    if |rows| > limit then Some(rows[limit - 1].revision) else None)
  {
    var top := Before(events, before);
    var all := Newest(events, top);
    if |rows| > limit {
      assert rows[limit - 1] == all[limit - 1] == events[top - limit];
      assert rows[..limit] == all[..limit];
    } else {
      assert rows == all;
    }
  }

  lemma FreshIsStorable(id: string, owner: string, strategyId: string)
    ensures var s := Fresh(id, owner, SIMULATOR, strategyId, PASSES);
            VaultLedger.Entries(s) && (Check(s).None? ==> Healthy(s, id))
    ensures forall vaults :: Check(Fresh(id, owner, SIMULATOR, strategyId, PASSES)).Some? ==>
              WithPasses(vaults, owner, strategyId, id) == vaults
  {
    hide Check, HasVault;
  }

  lemma WithPassesInserts(vaults: map<string, State>, owner: string, strategyId: string, id: string)
    requires !HasVault(vaults, owner, strategyId) && id !in vaults
    requires Check(Fresh(id, owner, SIMULATOR, strategyId, PASSES)).None?
    ensures WithPasses(vaults, owner, strategyId, id) == vaults[id := Fresh(id, owner, SIMULATOR, strategyId, PASSES)]
  {
    hide Check, HasVault;
  }

  lemma StoredReads(vaults: map<string, State>, audit: map<(string, int), Event>, id: string)
    requires Stored(vaults, audit) && id in vaults
    ensures Reachable(vaults[id]) && vaults[id].id == id && VaultLedger.Entries(vaults[id])
    ensures |vaults[id].events| == vaults[id].revision
  {
    assert Healthy(vaults[id], id);
    VaultLedger.EntriesAreChecked(vaults[id]);
    ReachableIsBalanced(vaults[id]);
  }

  lemma StoredRows(vaults: map<string, State>, audit: map<(string, int), Event>, id: string)
    requires Stored(vaults, audit) && id in vaults
    ensures forall r :: (id, r) in audit <==> 1 <= r <= |vaults[id].events|
    ensures forall r :: 1 <= r <= |vaults[id].events| ==> audit[(id, r)] == vaults[id].events[r - 1]
    ensures forall i :: 0 <= i < |vaults[id].events| ==> vaults[id].events[i].revision == i + 1
  {
    StoredReads(vaults, audit, id);
    ReachableIsBalanced(vaults[id]);
    hide Healthy, Reachable;
    assert RowsMatch(vaults[id], audit);
  }

  lemma AppliedKeepsStored(vaults: map<string, State>, audit: map<(string, int), Event>, id: string, actor: Actor,
                           command: Command, policy: Option<Policy>, n: State)
    requires Stored(vaults, audit) && id in vaults && Execute(vaults[id], actor, command, policy) == Applied(n)
    ensures Stored(vaults[id := n],
                   audit[(id, n.revision) := Event(n.revision, command.id, KindOf(command.body), actor.id)])
  {
    StoredReads(vaults, audit, id);
    AppliedGrows(vaults[id], actor, command, policy);
    ExecuteKeepsReachable(vaults[id], actor, command, policy);
    assert Healthy(vaults[id], id);
    hide Execute, Reachable;
    UpdateKeepsRows(vaults, audit, id, n);
  }
}
