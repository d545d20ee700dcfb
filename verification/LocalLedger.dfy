/**
 The local ledger behind the demo service: what one delivered command does to the
 stored vaults, and what every sequence of deliveries keeps.
 */
module LocalLedger {
  import opened Prelude
  import opened Vault
  import opened VaultLaws
  import W = VaultWindDown
  import M = VaultMoves
  import Money

  const SIMULATOR := "local-simulator"
  const PASSES := 1000

  /** One request: who sends it, to which vault, and the exact command. */
  datatype Envelope = Envelope(owner: string, vaultId: string, command: Command)

  function ActorFor(owner: string, body: Body): Actor {
    if ForExecutor(body) then Actor(SIMULATOR, Executor) else Actor(owner, Owner)
  }

  function PolicyFor(body: Body): Option<Policy> {
    if body.SettlePosition? then Some(W.Fixture()) else None
  }

  /** The stored vaults and, for reasoning, every envelope that was ever applied, in order. */
  datatype World = World(vaults: map<string, State>, applied: seq<Envelope>)

  datatype Reply = Done(state: State, replayed: bool) | Failed(status: int)

  const BAD_REQUEST := 400
  const NOT_FOUND := 404
  const CONFLICT := 409
  const INTERNAL := 500

  /** The status under which an error of the ledger reaches the client. */
  function StatusOf(e: VaultError): int {
    match e
    case Forbidden => 403
    case UnsupportedScope => INTERNAL
    case InvalidRevision => INTERNAL
    case AmountOverflow => INTERNAL
    case NonCanonicalAmount => INTERNAL
    case EmptyReservation => INTERNAL
    case NegativeActiveEquity => INTERNAL
    case UnfundedFeeLiability => INTERNAL
    case FeeConservation => INTERNAL
    case EquityConservation => INTERNAL
    case HistoryMismatch => INTERNAL
    case _ => CONFLICT
  }

  /** The amounts of the request that the route reads before anything else. */
  predicate Readable(b: Body) {
    && (AmountText(b).Some? ==> Parse(AmountText(b).value).Ok?)
    && (b.MarkPosition? ==> Parse(b.value).Ok?) && (b.SettlePosition? ==> Parse(b.proceeds).Ok?)
  }

  predicate Owned(w: World, e: Envelope) { e.vaultId in w.vaults && w.vaults[e.vaultId].ownerId == e.owner }

  ghost function OutcomeOf(s: State, e: Envelope): Outcome {
    Execute(s, ActorFor(e.owner, e.command.body), e.command, PolicyFor(e.command.body))
  }

  function MarkOf(e: Envelope): Fingerprint {
    PrintOf(ActorFor(e.owner, e.command.body), e.command, PolicyFor(e.command.body))
  }

  /** A delivered request: the world after it, and the reply. */
  ghost function Submitted(w: World, e: Envelope): (World, Reply) {
    if !Readable(e.command.body) then (w, Failed(BAD_REQUEST))
    else if !Owned(w, e) then (w, Failed(NOT_FOUND))
    else
      match OutcomeOf(w.vaults[e.vaultId], e)
      case Refused(error) => (w, Failed(StatusOf(error)))
      case Replayed => (w, Done(w.vaults[e.vaultId], true))
      case Applied(n) => (World(w.vaults[e.vaultId := n], w.applied + [e]), Done(n, false))
  }

  predicate HasVault(vaults: map<string, State>, owner: string, strategyId: string) {
    exists id :: id in vaults && vaults[id].ownerId == owner && vaults[id].strategyId == strategyId
  }

  /** Test passes for a strategy: the vault that exists, or a new one under the given unused identifier. */
  ghost function WithPasses(vaults: map<string, State>, owner: string, strategyId: string, id: string)
    : map<string, State>
  {
    if HasVault(vaults, owner, strategyId) || id in vaults then vaults
    else
      var created := CreateVault(id, owner, SIMULATOR, strategyId, PASSES);
      if created.Ok? then vaults[id := created.value] else vaults
  }

  ghost function Obtained(w: World, owner: string, strategyId: string, id: string): World {
    w.(vaults := WithPasses(w.vaults, owner, strategyId, id))
  }

  /** What can happen at the server: any request of anyone, delivered any number of times and in any order. */
  datatype Happening = Deliver(envelope: Envelope) | Obtain(owner: string, strategyId: string, id: string)

  ghost function Happen(w: World, h: Happening): World {
    match h
    case Deliver(e) => Submitted(w, e).0
    case Obtain(owner, strategyId, id) => Obtained(w, owner, strategyId, id)
  }

  ghost function Happens(w: World, hs: seq<Happening>): World
    decreases |hs|
  {
    if hs == [] then w else Happens(Happen(w, hs[0]), hs[1..])
  }

  // ---- what every world keeps ----------------------------------------------

  /** The vault remembers the envelope. */
  ghost predicate Remembers(s: State, e: Envelope) {
    && s.ownerId == e.owner && e.command.id in s.receipts && s.receipts[e.command.id].fingerprint == MarkOf(e)
    && s.receipts[e.command.id].revision > e.command.expectedRevision
    && ValidId(e.command.id) && Allowed(s, ActorFor(e.owner, e.command.body), e.command.body)
    && Readable(e.command.body)
  }

  /** The receipts are those of the applied envelopes, each under its own identifier. */
  ghost predicate ReceiptsAreApplied(w: World) {
    forall id, c :: id in w.vaults && c in w.vaults[id].receipts ==>
      var mark := w.vaults[id].receipts[c].fingerprint;
      mark.command.id == c && Envelope(w.vaults[id].ownerId, id, mark.command) in w.applied
  }

  ghost predicate Healthy(s: State, id: string) { Reachable(s) && s.id == id && s.executorId == SIMULATOR }

  ghost predicate VaultsAreHealthy(w: World) { forall id :: id in w.vaults ==> Healthy(w.vaults[id], id) }

  ghost predicate AppliedAreRemembered(w: World) {
    forall e :: e in w.applied ==> e.vaultId in w.vaults && Remembers(w.vaults[e.vaultId], e)
  }

  ghost predicate OnceEach(es: seq<Envelope>) { forall i, j :: 0 <= i < j < |es| ==> es[i] != es[j] }

  /** Reachable vaults; the applied envelopes are distinct, and exactly what the receipts remember. */
  ghost predicate Sane(w: World) {
    VaultsAreHealthy(w) && AppliedAreRemembered(w) && OnceEach(w.applied) && ReceiptsAreApplied(w)
  }

  /** A vault's history only grows, and while its revision stays nothing about it changes. */
  ghost predicate Grown(s: State, t: State) {
    && t.ownerId == s.ownerId && t.executorId == s.executorId && t.strategyId == s.strategyId
    && s.revision <= t.revision && (s.revision == t.revision ==> t == s)
    && (forall c :: c in s.receipts ==> c in t.receipts && t.receipts[c] == s.receipts[c])
    && |s.events| <= |t.events| && (forall i :: 0 <= i < |s.events| ==> t.events[i] == s.events[i])
  }

  ghost predicate Later(w: World, x: World) {
    && (forall id :: id in w.vaults ==> id in x.vaults && Grown(w.vaults[id], x.vaults[id]))
    && w.applied <= x.applied
  }

  lemma AppliedGrows(s: State, actor: Actor, command: Command, policy: Option<Policy>)
    requires Execute(s, actor, command, policy).Applied?
    ensures var n := Execute(s, actor, command, policy).state;
            Grown(s, n) && n.revision == s.revision + 1 && n.id == s.id
    ensures var n := Execute(s, actor, command, policy).state;
            n.receipts == s.receipts[command.id := Receipt(PrintOf(actor, command, policy), n.revision)]
            && n.events == s.events + [Event(n.revision, command.id, KindOf(command.body), actor.id)]
    ensures command.id !in s.receipts && command.expectedRevision == s.revision
  {
    var amount := ParsedAmount(command.body).value;
    BranchKeepsRecord(s, command, amount, policy);
    hide Branch, Check, ParsedAmount, PrintOf;
  }

  lemma GrownTransitive(a: State, b: State, c: State)
    requires Grown(a, b) && Grown(b, c)
    ensures Grown(a, c)
  {}

  lemma LaterTransitive(a: World, b: World, c: World)
    requires Later(a, b) && Later(b, c)
    ensures Later(a, c)
  {
    hide Grown;
    forall id | id in a.vaults ensures id in c.vaults && Grown(a.vaults[id], c.vaults[id]) {
      GrownTransitive(a.vaults[id], b.vaults[id], c.vaults[id]);
    }
  }

  lemma LaterReflexive(w: World)
    ensures Later(w, w)
  {}

  lemma RemembersGrows(s: State, t: State, e: Envelope)
    requires Remembers(s, e) && Grown(s, t)
    ensures Remembers(t, e)
  {}

  /** What applying an envelope does to the world. */
  ghost predicate AppliedTo(w: World, e: Envelope, x: World, n: State) {
    && Readable(e.command.body) && Owned(w, e) && OutcomeOf(w.vaults[e.vaultId], e) == Applied(n)
    && x == World(w.vaults[e.vaultId := n], w.applied + [e])
  }

  lemma AppliedIsLater(w: World, e: Envelope, x: World, n: State)
    requires AppliedTo(w, e, x, n)
    ensures Later(w, x)
  {
    AppliedGrows(w.vaults[e.vaultId], ActorFor(e.owner, e.command.body), e.command, PolicyFor(e.command.body));
    hide Execute;
  }

  lemma AppliedIsRemembered(w: World, e: Envelope, x: World, n: State)
    requires Sane(w) && AppliedTo(w, e, x, n)
    ensures Remembers(n, e) && Healthy(n, e.vaultId) && Grown(w.vaults[e.vaultId], n) && e !in w.applied
    ensures n.receipts == w.vaults[e.vaultId].receipts[e.command.id := Receipt(MarkOf(e), n.revision)]
  {
    AppliedGrows(w.vaults[e.vaultId], ActorFor(e.owner, e.command.body), e.command, PolicyFor(e.command.body));
    ExecuteKeepsReachable(w.vaults[e.vaultId], ActorFor(e.owner, e.command.body), e.command, PolicyFor(e.command.body));
    hide Execute, Reachable;
  }

  lemma AppliedKeepsReceipts(w: World, e: Envelope, x: World, n: State)
    requires Sane(w) && AppliedTo(w, e, x, n)
    ensures ReceiptsAreApplied(x)
  {
    AppliedIsRemembered(w, e, x, n);
    hide OutcomeOf, Reachable, Healthy, VaultsAreHealthy, AppliedAreRemembered, OnceEach;
    forall id, c | id in x.vaults && c in x.vaults[id].receipts
      ensures x.vaults[id].receipts[c].fingerprint.command.id == c
              && Envelope(x.vaults[id].ownerId, id, x.vaults[id].receipts[c].fingerprint.command) in x.applied
    {
      if id == e.vaultId && c == e.command.id {
        assert x.applied[|w.applied|] == e;
      } else {
        assert c in w.vaults[id].receipts && w.vaults[id].receipts[c] == x.vaults[id].receipts[c];
      }
    }
  }

  lemma AppliedKeepsRemembered(w: World, e: Envelope, x: World, n: State)
    requires Sane(w) && AppliedTo(w, e, x, n)
    ensures AppliedAreRemembered(x) && OnceEach(x.applied) && VaultsAreHealthy(x)
  {
    hide OutcomeOf, ReceiptsAreApplied, Remembers, Grown, Healthy;
    AppliedIsRemembered(w, e, x, n);
    forall f | f in x.applied ensures f.vaultId in x.vaults && Remembers(x.vaults[f.vaultId], f) {
      if f in w.applied && f.vaultId == e.vaultId { RemembersGrows(w.vaults[e.vaultId], n, f); }
    }
  }

  lemma DeliveryKeeps(w: World, e: Envelope)
    requires Sane(w)
    ensures Sane(Submitted(w, e).0) && Later(w, Submitted(w, e).0)
  {
    LaterReflexive(w);
    hide Later, OutcomeOf, Readable, AppliedAreRemembered, OnceEach, VaultsAreHealthy, ReceiptsAreApplied;
    var x := Submitted(w, e).0;
    if x != w {
      var n := OutcomeOf(w.vaults[e.vaultId], e).state;
      AppliedKeepsRemembered(w, e, x, n);
      AppliedKeepsReceipts(w, e, x, n);
      AppliedIsLater(w, e, x, n);
    }
  }

  lemma NewVaultKeeps(w: World, id: string, s: State, x: World)
    requires Sane(w) && id !in w.vaults && Healthy(s, id) && s.receipts == map[] && x == w.(vaults := w.vaults[id := s])
    ensures Sane(x) && Later(w, x)
  {
    hide Healthy, OnceEach, Remembers;
    forall k | k in w.vaults ensures k in x.vaults && Grown(w.vaults[k], x.vaults[k]) {}
  }

  lemma ObtainKeeps(w: World, owner: string, strategyId: string, id: string)
    requires Sane(w)
    ensures Sane(Obtained(w, owner, strategyId, id)) && Later(w, Obtained(w, owner, strategyId, id))
  {
    LaterReflexive(w);
    var x := Obtained(w, owner, strategyId, id);
    if x != w {
      CreatedIsReachable(id, owner, SIMULATOR, strategyId, PASSES);
      var s := CreateVault(id, owner, SIMULATOR, strategyId, PASSES).value;
      assert s == Fresh(id, owner, SIMULATOR, strategyId, PASSES);
      hide Reachable, Sane, Later, CreateVault;
      NewVaultKeeps(w, id, s, x);
    }
  }

  /** Whatever happens, the world stays sane and histories only grow. */
  lemma {:induction false} HappensKeeps(w: World, hs: seq<Happening>)
    requires Sane(w)
    ensures Sane(Happens(w, hs)) && Later(w, Happens(w, hs))
    decreases |hs|
  {
    LaterReflexive(w);
    hide Sane, Later, Submitted, Obtained;
    if hs != [] {
      match hs[0] {
        case Deliver(e) => DeliveryKeeps(w, e);
        case Obtain(owner, strategyId, id) => ObtainKeeps(w, owner, strategyId, id);
      }
      var x := Happen(w, hs[0]);
      HappensKeeps(x, hs[1..]);
      LaterTransitive(w, x, Happens(w, hs));
    }
  }

  // ---- at most once ---------------------------------------------------------

  /** A remembered envelope is answered from its receipt. */
  lemma RememberedIsReplayed(s: State, e: Envelope)
    requires Reachable(s) && Remembers(s, e)
    ensures OutcomeOf(s, e) == Replayed
  {
    hide Check, Tidy, PrintOf, ActorFor, PolicyFor, Allowed;
  }

  /** Over every run no envelope is applied twice. */
  lemma AppliedAtMostOnce(w: World, hs: seq<Happening>, e: Envelope)
    requires Sane(w)
    ensures multiset(Happens(w, hs).applied)[e] <= 1
    ensures e in w.applied ==> multiset(Happens(w, hs).applied)[e] == 1
  {
    HappensKeeps(w, hs);
    OnceIsOne(Happens(w, hs).applied, e);
  }

  lemma {:induction false} OnceIsOne(es: seq<Envelope>, e: Envelope)
    requires OnceEach(es)
    ensures multiset(es)[e] == if e in es then 1 else 0
    decreases |es|
  {
    if es != [] {
      var k := |es| - 1;
      assert es == es[..k] + [es[k]];
      OnceIsOne(es[..k], e);
    }
  }

  lemma RememberedRevision(s: State, e: Envelope)
    requires Reachable(s) && Remembers(s, e)
    ensures s.revision > e.command.expectedRevision
  {
    ReachableIsBalanced(s);
    ReceiptHasEvent(s, e.command.id);
  }

  lemma ReplayedIsApplied(w: World, e: Envelope)
    requires Sane(w) && Owned(w, e) && OutcomeOf(w.vaults[e.vaultId], e).Replayed?
    ensures e in w.applied
  {
    hide Check, Tidy, Allowed, AppliedAreRemembered, VaultsAreHealthy;
    assert Envelope(w.vaults[e.vaultId].ownerId, e.vaultId, MarkOf(e).command) == e;
  }

  /** A request that is answered with success has been applied, now or before. */
  lemma DoneMeansApplied(w: World, e: Envelope)
    requires Sane(w) && Submitted(w, e).1.Done?
    ensures var x := Submitted(w, e).0; var reply := Submitted(w, e).1;
            && e in x.applied && e.vaultId in x.vaults && reply.state == x.vaults[e.vaultId]
            && reply.state.revision > e.command.expectedRevision
            && reply.state.id == e.vaultId && reply.state.ownerId == e.owner
  {
    var x := Submitted(w, e).0;
    var s := w.vaults[e.vaultId];
    if OutcomeOf(s, e).Applied? {
      AppliedIsRemembered(w, e, x, OutcomeOf(s, e).state);
    } else {
      ReplayedIsApplied(w, e);
      assert Remembers(s, e) && Healthy(s, e.vaultId);
    }
    hide OutcomeOf, Reachable, ReceiptsAreApplied, OnceEach, AppliedAreRemembered, VaultsAreHealthy;
    RememberedRevision(x.vaults[e.vaultId], e);
  }

  /**
   An envelope that was applied is answered with success again, unless it travels under another
   owner's cookie: then, and only then, it is rejected, although it was applied.
   */
  lemma AppliedIsRejectedOnlyUnderOtherCookie(w: World, e: Envelope, session: string)
    requires Sane(w) && e in w.applied
    ensures Submitted(w, Envelope(session, e.vaultId, e.command)).1
            == if session == e.owner then Done(w.vaults[e.vaultId], true) else Failed(NOT_FOUND)
  {
    assert Remembers(w.vaults[e.vaultId], e) && Healthy(w.vaults[e.vaultId], e.vaultId);
    RememberedIsReplayed(w.vaults[e.vaultId], e);
    hide OutcomeOf, Reachable, Readable;
  }

  // ---- when a delivery succeeds ---------------------------------------------

  /** The vault takes the envelope now: it is new, at the present revision, covered, and overflows nothing. */
  ghost predicate Takes(s: State, e: Envelope) {
    && ValidId(e.command.id) && e.command.id !in s.receipts && e.command.expectedRevision == s.revision < MAX_REVISION
    && M.Covered(s, e.command.body, PolicyFor(e.command.body)) && M.NoOverflow(s, e.command.body, PolicyFor(e.command.body))
  }

  lemma OwnersAreEntitled(s: State, e: Envelope)
    requires s.ownerId == e.owner && s.executorId == SIMULATOR
    ensures M.Entitled(s, ActorFor(e.owner, e.command.body), e.command.body)
  {}

  lemma CoveredIsReadable(s: State, body: Body, policy: Option<Policy>)
    requires M.Covered(s, body, policy)
    ensures Readable(body)
  {
    hide M.Numeral, Parse, ActiveNet;
    if AmountText(body).Some? { M.NumeralsAreRead(AmountText(body).value); }
    if body.MarkPosition? { M.NumeralsAreRead(body.value); }
    if body.SettlePosition? { M.NumeralsAreRead(body.proceeds); }
  }

  /**
   A delivered envelope is answered with success if and only if its owner has the vault and it was
   applied before or the vault takes it now; then the vault's accounts and reservations change by the
   command's entries, and by nothing when it was applied before.
   */
  lemma DeliveryDecides(w: World, e: Envelope)
    requires Sane(w)
    ensures Submitted(w, e).1.Done? <==> Owned(w, e) && (e in w.applied || Takes(w.vaults[e.vaultId], e))
    ensures e in w.applied || !Submitted(w, e).1.Done? ==> Submitted(w, e).0 == w
    ensures e !in w.applied && Submitted(w, e).1.Done? ==>
              var x := Submitted(w, e).0;
              && e.vaultId in w.vaults && e.vaultId in x.vaults && x.vaults == w.vaults[e.vaultId := x.vaults[e.vaultId]]
              && x.applied == w.applied + [e]
              && M.Ledgered(w.vaults[e.vaultId], e.command, PolicyFor(e.command.body), x.vaults[e.vaultId])
  {
    if Owned(w, e) {
      var s := w.vaults[e.vaultId];
      assert Healthy(s, e.vaultId);
      OwnersAreEntitled(s, e);
      M.AppliedExactly(s, ActorFor(e.owner, e.command.body), e.command, PolicyFor(e.command.body));
      if Takes(s, e) { CoveredIsReadable(s, e.command.body, PolicyFor(e.command.body)); }
      if e in w.applied { RememberedIsReplayed(s, e); }
      if OutcomeOf(s, e).Replayed? { ReplayedIsApplied(w, e); }
    }
    hide Reachable, Execute, M.Covered, M.NoOverflow, M.Ledgered, M.Remembered, M.Entitled, ReceiptsAreApplied,
      OnceEach, VaultsAreHealthy, ValidId, PolicyFor, ActorFor;
  }

  /**
   A settlement at the local simulator takes no fee, leaves what the allowance covers in the active
   balance and moves the rest to idle.
   */
  lemma SettlementFillsAllowance(w: World, e: Envelope)
    requires Sane(w) && e !in w.applied && Submitted(w, e).1.Done? && e.command.body.SettlePosition?
    ensures var x := Submitted(w, e).0;
            && e.vaultId in w.vaults && e.vaultId in x.vaults
            && var s, n := w.vaults[e.vaultId], x.vaults[e.vaultId];
               var net := s.books.cash + M.Number(e.command.body.proceeds) - s.books.liability;
               && n.books.liability == s.books.liability && n.books.accrued == s.books.accrued
               && n.books.cash - n.books.liability == (if net > Allowance(s) then Allowance(s) else net)
               && n.books.idle - s.books.idle == (if net > Allowance(s) then net - Allowance(s) else 0)
  {
    DeliveryDecides(w, e);
    hide Sane, Submitted;
  }

  /** The errors a reachable vault cannot meet on a readable request, and the one that is no refusal of the command. */
  predicate Inward(e: VaultError) {
    e in {Forbidden, UnsupportedScope, InvalidRevision, NonCanonicalAmount, EmptyReservation, NegativeActiveEquity,
          UnfundedFeeLiability, FeeConservation, EquityConservation, HistoryMismatch}
  }

  lemma BranchFaultsOutward(s: State, e: Envelope, amount: int)
    requires Readable(e.command.body) && Branch(s, e.command, amount, PolicyFor(e.command.body)).Err?
    ensures !Inward(Branch(s, e.command, amount, PolicyFor(e.command.body)).error)
  {
    hide ActiveNet, ValidId;
  }

  /**
   What a refused envelope is answered with: a bad request if it cannot be read, not found if it is
   not its owner's vault, an internal error exactly when an amount overflows, and otherwise a conflict.
   */
  lemma RefusalsAreAnswered(w: World, e: Envelope)
    requires Sane(w) && Submitted(w, e).1.Failed?
    ensures var status := Submitted(w, e).1.status;
            && (status == BAD_REQUEST <==> !Readable(e.command.body))
            && (status == NOT_FOUND <==> Readable(e.command.body) && !Owned(w, e))
            && (status == INTERNAL <==> Readable(e.command.body) && Owned(w, e)
                                        && OutcomeOf(w.vaults[e.vaultId], e) == Refused(AmountOverflow))
            && status in {BAD_REQUEST, NOT_FOUND, INTERNAL, CONFLICT}
  {
    if Readable(e.command.body) && Owned(w, e) {
      var s := w.vaults[e.vaultId];
      assert Healthy(s, e.vaultId);
      RefusalIsOutward(s, e);
    }
    hide Sane, OutcomeOf, Readable;
  }

  lemma RefusalIsOutward(s: State, e: Envelope)
    requires Reachable(s) && s.ownerId == e.owner && s.executorId == SIMULATOR && Readable(e.command.body)
    requires OutcomeOf(s, e).Refused?
    ensures !Inward(OutcomeOf(s, e).error)
  {
    hide Check, Tidy, Told, Branch, ValidId, Readable, Candidate;
    var actor, policy := ActorFor(e.owner, e.command.body), PolicyFor(e.command.body);
    OwnersAreEntitled(s, e);
    M.EntitledIsAllowed(s, actor, e.command.body);
    AmountsAreRead(e.command.body);
    if ParsedAmount(e.command.body).Ok? {
      var amount := ParsedAmount(e.command.body).value;
      if Branch(s, e.command, amount, policy).Err? { BranchFaultsOutward(s, e, amount); }
    }
    if PassesBranch(s, actor, e.command, policy) { ClosingCheckOnlyOverflows(s, actor, e.command, policy); }
  }

  lemma AmountsAreRead(body: Body)
    requires Readable(body)
    ensures ParsedAmount(body).Err? ==> ParsedAmount(body).error == NonPositiveAmount
  {
    hide Parse;
  }

  // ---- a rejection is for good ----------------------------------------------

  /** The ledger refuses the envelope, and its vault has reached the revision it expects. */
  ghost predicate Stuck(w: World, e: Envelope) {
    && Owned(w, e) && OutcomeOf(w.vaults[e.vaultId], e).Refused?
    && e.command.expectedRevision <= w.vaults[e.vaultId].revision
  }

  lemma StuckIsNotApplied(w: World, e: Envelope)
    requires Sane(w) && Stuck(w, e)
    ensures e !in w.applied
  {
    if e in w.applied { RememberedIsReplayed(w.vaults[e.vaultId], e); }
  }

  lemma StuckAfterOther(w: World, e: Envelope, f: Envelope, x: World, n: State)
    requires Sane(w) && Stuck(w, e) && AppliedTo(w, f, x, n) && f.vaultId == e.vaultId
    ensures Stuck(x, e)
  {
    StuckIsNotApplied(w, e);
    AppliedKeepsRemembered(w, f, x, n);
    AppliedKeepsReceipts(w, f, x, n);
    AppliedIsRemembered(w, f, x, n);
    AppliedGrows(w.vaults[e.vaultId], ActorFor(f.owner, f.command.body), f.command, PolicyFor(f.command.body));
    NotAppliedOutOfTurn(n, e);
    if OutcomeOf(n, e).Replayed? { ReplayedIsApplied(x, e); }
  }

  lemma NotAppliedOutOfTurn(s: State, e: Envelope)
    requires e.command.expectedRevision < s.revision
    ensures !OutcomeOf(s, e).Applied?
  {}

  lemma StuckAfterDelivery(w: World, e: Envelope, f: Envelope)
    requires Sane(w) && Stuck(w, e)
    ensures Stuck(Submitted(w, f).0, e)
  {
    hide Sane, OutcomeOf, Readable;
    var x := Submitted(w, f).0;
    if x != w && f.vaultId == e.vaultId {
      StuckAfterOther(w, e, f, x, OutcomeOf(w.vaults[e.vaultId], f).state);
    }
  }

  lemma StuckAfterObtain(w: World, e: Envelope, owner: string, strategyId: string, id: string)
    requires Stuck(w, e)
    ensures Stuck(Obtained(w, owner, strategyId, id), e)
  {
    hide OutcomeOf, CreateVault;
  }

  /**
   Once the ledger has refused an envelope at or past the revision it expects, no run
   ever applies it or takes it for applied.
   */
  lemma {:induction false} RefusedForever(w: World, e: Envelope, hs: seq<Happening>)
    requires Sane(w) && Stuck(w, e)
    ensures e !in Happens(w, hs).applied && Stuck(Happens(w, hs), e)
    decreases |hs|
  {
    StuckIsNotApplied(w, e);
    hide Sane, Stuck, Submitted, Obtained;
    if hs != [] {
      match hs[0] {
        case Deliver(f) =>
          DeliveryKeeps(w, f);
          StuckAfterDelivery(w, e, f);
        case Obtain(owner, strategyId, id) =>
          ObtainKeeps(w, owner, strategyId, id);
          StuckAfterObtain(w, e, owner, strategyId, id);
      }
      RefusedForever(Happen(w, hs[0]), e, hs[1..]);
    }
  }

  /** A deposit of one unit. */
  function UnitDeposit(s: State, id: string, revision: int): Envelope {
    Envelope(s.ownerId, s.id, Command(id, revision, Deposit("1")))
  }

  lemma UnitParses()
    ensures Parse("1") == Ok(1)
  {
    assert Money.ToText(1) == "1";
    Money.UnsignedRoundTrip([], 1);
  }

  lemma UnitDepositBranch(s: State, e: Envelope) returns (r: Request, t: State)
    requires Reachable(s) && e == UnitDeposit(s, e.command.id, s.revision)
    requires s.books.idle < Money.MAX_INTEGER && s.books.deposits < Money.MAX_INTEGER
    ensures W.BranchesTo(s, r, t) && AmountsFit(t) && Allowed(s, r.actor, r.command.body)
    ensures r == Request(ActorFor(e.owner, e.command.body), e.command, PolicyFor(e.command.body))
    ensures t == s.(books := s.books.(idle := s.books.idle + 1, deposits := s.books.deposits + 1))
  {
    UnitParses();
    ReachableIsBalanced(s);
    hide Parse, Balanced, HistoryMatches, Check, Tidy;
    r := Request(ActorFor(e.owner, e.command.body), e.command, PolicyFor(e.command.body));
    t := s.(books := s.books.(idle := s.books.idle + 1, deposits := s.books.deposits + 1));
  }

  lemma UnitDepositApplies(s: State, id: string) returns (n: State)
    requires Reachable(s) && ValidId(id) && id !in s.receipts && s.revision < MAX_REVISION
    requires s.books.idle < Money.MAX_INTEGER && s.books.deposits < Money.MAX_INTEGER
    ensures OutcomeOf(s, UnitDeposit(s, id, s.revision)) == Applied(n) && Reachable(n)
    ensures n.revision == s.revision + 1 && n.receipts.Keys == s.receipts.Keys + {id}
    ensures n.ownerId == s.ownerId && n.id == s.id
    ensures n.books == s.books.(idle := s.books.idle + 1, deposits := s.books.deposits + 1)
  {
    var r, t := UnitDepositBranch(s, UnitDeposit(s, id, s.revision));
    hide Reachable, Execute, AmountsFit, Allowed, W.BranchesTo, W.Cash;
    n := W.FittingBranchIsApplied(s, r, t);
  }

  lemma EarlyDepositIsRefused(s: State, id: string)
    requires Reachable(s) && ValidId(id) && id !in s.receipts
    ensures OutcomeOf(s, UnitDeposit(s, id, s.revision + 1)) == Refused(RevisionConflict)
  {
    hide Check, Tidy;
  }

  lemma TwoDeliveries(w: World, d: Envelope, e: Envelope, n: State, m: State)
    requires Readable(d.command.body) && Readable(e.command.body) && d.vaultId == e.vaultId
    requires Owned(w, d) && OutcomeOf(w.vaults[d.vaultId], d) == Applied(n)
    requires n.ownerId == e.owner && OutcomeOf(n, e) == Applied(m)
    ensures e in Happens(w, [Deliver(d), Deliver(e)]).applied
  {
    hide OutcomeOf, Readable;
    var x := Submitted(w, d).0;
    var y := Submitted(x, e).0;
    assert y.applied == x.applied + [e];
    assert [Deliver(d), Deliver(e)][1..] == [Deliver(e)] && [Deliver(e)][1..] == [];
    assert Happens(y, []) == y;
  }

  /** The condition is needed: an envelope refused before its vault reaches its revision may be applied later. */
  lemma EarlyRefusalMayPass(w: World, id: string, first: string, second: string)
    requires Sane(w) && id in w.vaults && ValidId(first) && ValidId(second) && first != second
    requires first !in w.vaults[id].receipts && second !in w.vaults[id].receipts
    requires w.vaults[id].revision + 1 < MAX_REVISION
    requires w.vaults[id].books.idle + 1 < Money.MAX_INTEGER && w.vaults[id].books.deposits + 1 < Money.MAX_INTEGER
    ensures var s := w.vaults[id];
            var d, e := UnitDeposit(s, first, s.revision), UnitDeposit(s, second, s.revision + 1);
            OutcomeOf(s, e) == Refused(RevisionConflict) && e in Happens(w, [Deliver(d), Deliver(e)]).applied
  {
    var s := w.vaults[id];
    assert Healthy(s, id);
    UnitParses();
    hide Check, Tidy, Sane, OutcomeOf, Parse, ValidId, Happens;
    EarlyDepositIsRefused(s, second);
    var n := UnitDepositApplies(s, first);
    var m := UnitDepositApplies(n, second);
    TwoDeliveries(w, UnitDeposit(s, first, s.revision), UnitDeposit(s, second, s.revision + 1), n, m);
  }
}
