/**
 Execution permits: a signed decision is checked against its grant, its release and
 the account, evaluated, and its nonce consumed, so that it yields one permit at most.
 */
module Permits {
  import opened Prelude
  import R = Risk

  datatype PermitError =
    | InvalidUserSignature | InvalidRuntimeSignature | InvalidTimestamp | InvalidIdentifier | InvalidAmount
    | InvalidGrantWindow | GrantInactive | UnsafePermissions | UnsupportedPolicy | InvalidAllowlist | InvalidInteger
    | InvalidPolicy | InvalidMeasurement | InvalidHash | UntrustedRelease | DecisionGrantMismatch | VenueNotAllowed
    | DecisionFromFuture | StaleDecision | InvalidDecisionWindow | TooManyTargets | AccountUserMismatch
    | AccountVenueNotAllowed | AccountSnapshotFromFuture | StaleAccountSnapshot | TooManyPositions
    | PolicyHashMismatch | ReplayedDecision | Evaluation(error: R.RiskError)

  /** A timestamp text: the instant it names, or none when it is not canonical. */
  type Instant = Option<int>

  datatype Permissions = Permissions(
    readAccount: bool, readMarketData: bool, placeOrders: bool, withdraw: bool, transfer: bool)

  datatype Policy = Policy(
    schemaVersion: int, limits: R.Limits, maxDecisionAgeMs: int, maxAccountSnapshotAgeMs: int, maxClockSkewMs: int,
    executionPermitTtlMs: int)

  datatype Grant = Grant(
    grantId: string, userId: string, strategyFamilyId: string, validFrom: Instant, validUntil: Instant,
    permissions: Permissions, policy: Policy)

  datatype Decision = Decision(
    decisionId: string, nonce: string, grantId: string, strategyFamilyId: string, strategyVersionId: string,
    codeMeasurement: string, policyHash: string, venue: string, targets: seq<R.Target>,
    issuedAt: Instant, expiresAt: Instant)

  datatype Release = Release(
    strategyFamilyId: string, strategyVersionId: string, codeMeasurement: string, signerKeyId: string)

  datatype Snapshot = Snapshot(
    snapshotId: string, userId: string, account: R.Account, capturedAt: Instant)

  /** One call; the two flags say whether the signatures verify, the hash is that of the grant's policy. */
  datatype Input = Input(
    grant: Grant, grantSigned: bool, decision: Decision, decisionSigned: bool, release: Release, snapshot: Snapshot,
    policyHash: string, now: int)

  datatype Permit = Permit(
    grantId: string, userId: string, venue: string, orders: seq<R.Order>, decision: Decision, issuedAt: int,
    expiresAt: int)

  predicate Hex(c: char) { '0' <= c <= '9' || 'a' <= c <= 'f' }

  predicate Hash(s: string) { |s| == 64 && forall c <- s :: Hex(c) }

  predicate Measurement(s: string) { |s| == 71 && s[..7] == "sha256:" && Hash(s[7..]) }

  predicate Bounded(n: int, low: int, high: int) { IsSafeInteger(n) && low <= n <= high }

  /** A list of 1 to `limit` distinct identifiers; the first fault of the first faulty entry. */
  function ListFault(values: seq<string>, n: nat): Option<PermitError>
    requires n <= |values|
  {
    if n == 0 then None
    else if ListFault(values, n - 1).Some? then ListFault(values, n - 1)
    else if !R.Identifier(values[n - 1]) then Some(InvalidIdentifier)
    else if values[n - 1] in values[..n - 1] then Some(InvalidAllowlist)
    else None
  }

  function AllowlistFault(values: seq<string>, limit: nat): Option<PermitError> {
    if values == [] || |values| > limit then Some(InvalidAllowlist) else ListFault(values, |values|)
  }

  function PolicyFault(p: Policy): Option<PermitError> {
    if p.schemaVersion != 1 then Some(UnsupportedPolicy)
    else if AllowlistFault(p.limits.venues, 16).Some? then AllowlistFault(p.limits.venues, 16)
    else if AllowlistFault(p.limits.instruments, 128).Some? then AllowlistFault(p.limits.instruments, 128)
    else if R.ParsePositive(p.limits.maxPosition).Err? || R.ParsePositive(p.limits.maxOrder).Err?
            || R.ParsePositive(p.limits.maxGross).Err? || R.ParsePositive(p.limits.maxDailyLoss).Err? then
      Some(InvalidAmount)
    else if !Bounded(p.limits.maxLeverageBps, 1, 100000) || !Bounded(p.maxDecisionAgeMs, 100, 3600000)
            || !Bounded(p.maxAccountSnapshotAgeMs, 100, 60000) || !Bounded(p.maxClockSkewMs, 0, 60000)
            || !Bounded(p.executionPermitTtlMs, 100, 60000) then
      Some(InvalidInteger)
    else if p.executionPermitTtlMs > p.maxDecisionAgeMs then Some(InvalidPolicy)
    else None
  }

  function GrantFault(g: Grant, now: int): Option<PermitError> {
    if !R.Identifier(g.grantId) || !R.Identifier(g.userId) || !R.Identifier(g.strategyFamilyId) then
      Some(InvalidIdentifier)
    else if g.validFrom.None? || g.validUntil.None? then Some(InvalidTimestamp)
    else if g.validUntil.value <= g.validFrom.value then Some(InvalidGrantWindow)
    else if now < g.validFrom.value || now >= g.validUntil.value then Some(GrantInactive)
    else if g.permissions != Permissions(true, true, true, false, false) then Some(UnsafePermissions)
    else PolicyFault(g.policy)
  }

  function ReleaseFault(d: Decision, r: Release): Option<PermitError> {
    if !R.Identifier(r.strategyFamilyId) || !R.Identifier(r.strategyVersionId) || !R.Identifier(r.signerKeyId) then
      Some(InvalidIdentifier)
    else if !Measurement(r.codeMeasurement) then Some(InvalidMeasurement)
    else if d.strategyFamilyId != r.strategyFamilyId || d.strategyVersionId != r.strategyVersionId
            || d.codeMeasurement != r.codeMeasurement then
      Some(UntrustedRelease)
    else None
  }

  function DecisionFault(d: Decision, g: Grant, now: int): Option<PermitError> {
    if !R.Identifier(d.decisionId) || !R.Identifier(d.nonce) || !R.Identifier(d.grantId)
       || !R.Identifier(d.strategyFamilyId) || !R.Identifier(d.strategyVersionId) then Some(InvalidIdentifier)
    else if !Measurement(d.codeMeasurement) then Some(InvalidMeasurement)
    else if !R.Identifier(d.venue) then Some(InvalidIdentifier)
    else if !Hash(d.policyHash) then Some(InvalidHash)
    else if d.grantId != g.grantId || d.strategyFamilyId != g.strategyFamilyId then Some(DecisionGrantMismatch)
    else if d.venue !in g.policy.limits.venues then Some(VenueNotAllowed)
    else if d.issuedAt.None? || d.expiresAt.None? then Some(InvalidTimestamp)
    else if d.issuedAt.value > now + g.policy.maxClockSkewMs then Some(DecisionFromFuture)
    else if now - d.issuedAt.value > g.policy.maxDecisionAgeMs || d.expiresAt.value <= now then Some(StaleDecision)
    else if d.expiresAt.value <= d.issuedAt.value || d.expiresAt.value - d.issuedAt.value > g.policy.maxDecisionAgeMs then
      Some(InvalidDecisionWindow)
    else if |d.targets| > 128 then Some(TooManyTargets)
    else None
  }

  function SnapshotFault(s: Snapshot, g: Grant, now: int): Option<PermitError> {
    if !R.Identifier(s.snapshotId) || !R.Identifier(s.userId) || !R.Identifier(s.account.venue) then
      Some(InvalidIdentifier)
    else if s.userId != g.userId then Some(AccountUserMismatch)
    else if s.account.venue !in g.policy.limits.venues then Some(AccountVenueNotAllowed)
    else if s.capturedAt.None? then Some(InvalidTimestamp)
    else if s.capturedAt.value > now + g.policy.maxClockSkewMs then Some(AccountSnapshotFromFuture)
    else if now - s.capturedAt.value > g.policy.maxAccountSnapshotAgeMs then Some(StaleAccountSnapshot)
    else if R.ParsePositive(s.account.equity).Err? || R.ParseAmount(s.account.dailyPnl).Err? then Some(InvalidAmount)
    else if |s.account.positions| > 1000 then Some(TooManyPositions)
    else if exists k :: k in s.account.positions && !R.Identifier(k) then Some(InvalidIdentifier)
    else if !R.Readable(s.account.positions) then Some(InvalidAmount)
    else None
  }

  /** Everything checked before the evaluation. */
  function InputFault(i: Input): Option<PermitError> {
    if !i.grantSigned then Some(InvalidUserSignature)
    else if GrantFault(i.grant, i.now).Some? then GrantFault(i.grant, i.now)
    else if !i.decisionSigned then Some(InvalidRuntimeSignature)
    else if ReleaseFault(i.decision, i.release).Some? then ReleaseFault(i.decision, i.release)
    else if DecisionFault(i.decision, i.grant, i.now).Some? then DecisionFault(i.decision, i.grant, i.now)
    else if SnapshotFault(i.snapshot, i.grant, i.now).Some? then SnapshotFault(i.snapshot, i.grant, i.now)
    else if i.decision.policyHash != i.policyHash then Some(PolicyHashMismatch)
    else None
  }

  // ---- the replay store -----------------------------------------------------

  type Seen = map<string, int>

  /** The entries that have not expired. */
  function Purged(seen: Seen, now: int): Seen { map k | k in seen && seen[k] >= now :: seen[k] }

  function KeyOf(scope: string, nonce: string): string { scope + ":" + nonce }

  function ScopeOf(i: Input): string { i.grant.grantId + ":" + i.release.strategyVersionId }

  /** Whether the nonce is fresh, and the entries afterwards. */
  function Consumed(seen: Seen, scope: string, nonce: string, expires: int, now: int): (bool, Seen) {
    var left := Purged(seen, now);
    var key := KeyOf(scope, nonce);
    if key in left then (false, left) else (true, left[key := expires])
  }

  class MemoryReplayStore {
    var seen: Seen

    constructor ()
      ensures seen == map[]
    {
      seen := map[];
    }

    method Consume(scope: string, nonce: string, expiresAt: int, now: int) returns (ok: bool)
      modifies this
      ensures (ok, seen) == Consumed(old(seen), scope, nonce, expiresAt, now)
    {
      var rest := seen.Keys;
      while rest != {}
        invariant rest <= seen.Keys <= old(seen).Keys
        invariant forall k :: k in old(seen) ==> (k in seen <==> k in rest || old(seen)[k] >= now)
        invariant forall k :: k in seen ==> seen[k] == old(seen)[k]
        decreases |rest|
      {
        var k :| k in rest;
        if seen[k] < now { seen := seen - {k}; }
        rest := rest - {k};
      }
      assert seen.Keys == Purged(old(seen), now).Keys;
      assert seen == Purged(old(seen), now);
      var key := KeyOf(scope, nonce);
      if key in seen { return false; }
      seen := seen[key := expiresAt];
      return true;
    }
  }

  // ---- issuing --------------------------------------------------------------

  function Min(a: int, b: int): int { if a < b then a else b }

  /** When the permit of an accepted call ends. */
  function PermitExpiry(i: Input): int
    requires i.decision.expiresAt.Some? && i.grant.validUntil.Some?
  {
    Min(i.decision.expiresAt.value, Min(i.grant.validUntil.value, i.now + i.grant.policy.executionPermitTtlMs))
  }

  /** One call: the permit or the refusal, and what the replay store holds afterwards. */
  ghost function Issued(seen: Seen, i: Input): (Result<Permit, PermitError>, Seen) {
    if InputFault(i).Some? then (Err(InputFault(i).value), seen)
    else
      CheckedInputHasTimes(i);
      var verdict := R.Verdict(i.decision.venue, i.decision.targets, i.snapshot.account, i.grant.policy.limits);
      if verdict.Err? then (Err(Evaluation(verdict.error)), seen)
      else
        var consumed := Consumed(seen, ScopeOf(i), i.decision.nonce, i.decision.expiresAt.value, i.now);
        if !consumed.0 then (Err(ReplayedDecision), consumed.1)
        else
          (Ok(Permit(i.grant.grantId, i.grant.userId, i.decision.venue, verdict.value, i.decision, i.now, PermitExpiry(i))),
           consumed.1)
  }

  lemma CheckedInputHasTimes(i: Input)
    requires InputFault(i).None?
    ensures i.decision.expiresAt.Some? && i.grant.validUntil.Some? && i.now < i.decision.expiresAt.value
  {
    hide PolicyFault, SnapshotFault, ReleaseFault, Hash, Measurement, R.Identifier;
  }

  method IssueExecutionPermit(i: Input, store: MemoryReplayStore) returns (r: Result<Permit, PermitError>)
    modifies store
    ensures r == Issued(old(store.seen), i).0 && store.seen == Issued(old(store.seen), i).1
  {
    if InputFault(i).None? { CheckedInputHasTimes(i); }
    hide InputFault, R.Verdict, Consumed, ScopeOf, R.Readable, R.ParseAmount, R.ParsePositive, Purged, KeyOf,
      PermitExpiry;
    var fault := InputFault(i);
    if fault.Some? { return Err(fault.value); }
    var orders := R.EvaluateRisk(i.decision.venue, i.decision.targets, i.snapshot.account, i.grant.policy.limits);
    if orders.Err? { return Err(Evaluation(orders.error)); }
    var consumed := store.Consume(ScopeOf(i), i.decision.nonce, i.decision.expiresAt.value, i.now);
    if !consumed { return Err(ReplayedDecision); }
    return Ok(Permit(i.grant.grantId, i.grant.userId, i.decision.venue, orders.value, i.decision, i.now, PermitExpiry(i)));
  }

  /** A permit's window is never empty and lies within the decision, the grant and the allowed lifetime. */
  lemma PermitIsWithinWindows(seen: Seen, i: Input)
    requires Issued(seen, i).0.Ok?
    ensures var p := Issued(seen, i).0.value;
            && p.issuedAt == i.now < p.expiresAt
            && i.grant.validFrom.value <= p.issuedAt && p.expiresAt <= i.grant.validUntil.value
            && i.decision.issuedAt.value - i.grant.policy.maxClockSkewMs <= p.issuedAt
            && p.expiresAt <= i.decision.expiresAt.value
            && p.expiresAt - p.issuedAt <= i.grant.policy.executionPermitTtlMs <= i.grant.policy.maxDecisionAgeMs
    ensures i.grant.permissions == Permissions(true, true, true, false, false)
    ensures i.grantSigned && i.decisionSigned && i.decision.policyHash == i.policyHash
  {
    hide AllowlistFault, SnapshotFault, ReleaseFault, Hash, Measurement, R.Verdict, R.ParsePositive, R.Identifier,
      Consumed;
  }

  // ---- at most one permit for a decision -----------------------------------

  /** What the replay store holds after a run of calls. */
  ghost function SeenAfter(seen: Seen, calls: seq<Input>): Seen {
    if calls == [] then seen
    else Issued(SeenAfter(seen, calls[..|calls| - 1]), calls[|calls| - 1]).1
  }

  /** The answer to the call at position `n` of a run. */
  ghost function Answer(seen: Seen, calls: seq<Input>, n: nat): Result<Permit, PermitError>
    requires n < |calls|
  {
    Issued(SeenAfter(seen, calls[..n]), calls[n]).0
  }

  predicate ClockRuns(calls: seq<Input>) { forall i, j :: 0 <= i < j < |calls| ==> calls[i].now <= calls[j].now }

  /** The key a call presents to the store. */
  ghost function KeyFor(i: Input): string { KeyOf(ScopeOf(i), i.decision.nonce) }

  /** A permit consumes the nonce until the decision expires, which is still to come. */
  lemma PermitConsumes(seen: Seen, i: Input)
    requires Issued(seen, i).0.Ok?
    ensures var key := KeyFor(i);
            && i.decision.expiresAt.Some? && i.now < i.decision.expiresAt.value
            && key in Issued(seen, i).1 && Issued(seen, i).1[key] == i.decision.expiresAt.value
            && (key in seen ==> seen[key] < i.now)
    ensures i.decision.grantId == i.grant.grantId && i.decision.strategyVersionId == i.release.strategyVersionId
  {
    hide GrantFault, SnapshotFault, Hash, Measurement, R.Verdict, R.Identifier;
  }

  /** The call passes every check before the replay store and so reaches it. */
  ghost predicate Reaches(i: Input) {
    InputFault(i).None?
    && R.Verdict(i.decision.venue, i.decision.targets, i.snapshot.account, i.grant.policy.limits).Ok?
  }

  /** The call makes the store forget an entry that expires at `expires`. */
  ghost predicate Forgets(i: Input, expires: int) { Reaches(i) && expires < i.now }

  /** What a call does to the store, entry by entry. */
  lemma IssuedStep(seen: Seen, i: Input, key: string)
    ensures !Reaches(i) ==> Issued(seen, i).0.Err? && Issued(seen, i).1 == seen
    ensures Reaches(i) ==> (Issued(seen, i).0.Ok? <==> KeyFor(i) !in seen || seen[KeyFor(i)] < i.now)
    ensures key in Issued(seen, i).1 && !(key == KeyFor(i) && Issued(seen, i).0.Ok?) ==>
              key in seen && Issued(seen, i).1[key] == seen[key] && !Forgets(i, seen[key])
    ensures key in seen && !Forgets(i, seen[key]) ==> key in Issued(seen, i).1 && Issued(seen, i).1[key] == seen[key]
  {
    hide InputFault, R.Verdict, KeyOf, ScopeOf;
  }

  lemma SeenStep(seen: Seen, calls: seq<Input>, n: nat)
    requires n < |calls|
    ensures SeenAfter(seen, calls[..n + 1]) == Issued(SeenAfter(seen, calls[..n]), calls[n]).1
  {
    hide Issued;
    assert calls[..n + 1][..n] == calls[..n] && calls[..n + 1][n] == calls[n];
  }

  ghost predicate Holds(seen: Seen, key: string, expires: int) { key in seen && seen[key] == expires }

  /** An entry stays while no call forgets it. */
  lemma {:induction false} EntryOutlives(seen: Seen, calls: seq<Input>, m: nat, n: nat, key: string, expires: int)
    requires m <= n <= |calls| && forall k :: m <= k < n ==> !Forgets(calls[k], expires)
    requires Holds(SeenAfter(seen, calls[..m]), key, expires)
    ensures Holds(SeenAfter(seen, calls[..n]), key, expires)
    decreases n - m
  {
    if m < n {
      SeenStep(seen, calls, m);
      IssuedStep(SeenAfter(seen, calls[..m]), calls[m], key);
      hide Issued, Forgets, SeenAfter, KeyFor, Reaches;
      EntryOutlives(seen, calls, m + 1, n, key, expires);
    }
  }

  /** While no later call is accepted for its key, an entry still there was never forgotten. */
  lemma {:induction false} EntryWasKept(seen: Seen, calls: seq<Input>, m: nat, n: nat, key: string, expires: int)
    requires m <= n <= |calls| && Holds(SeenAfter(seen, calls[..m]), key, expires)
    requires forall k :: m <= k < n && KeyFor(calls[k]) == key ==> Answer(seen, calls, k).Err?
    ensures key in SeenAfter(seen, calls[..n]) ==>
              Holds(SeenAfter(seen, calls[..n]), key, expires) && forall k :: m <= k < n ==> !Forgets(calls[k], expires)
    decreases n
  {
    hide Issued, Forgets, KeyFor, SeenAfter, Reaches;
    if m < n {
      EntryWasKept(seen, calls, m, n - 1, key, expires);
      SeenStep(seen, calls, n - 1);
      IssuedStep(SeenAfter(seen, calls[..n - 1]), calls[n - 1], key);
    }
  }

  /** After position `i` and up to `j` a permit is issued again under the same key. */
  ghost predicate IssuedAgain(seen: Seen, calls: seq<Input>, i: nat, j: nat)
    requires i < j < |calls|
  {
    exists m :: i < m <= j && KeyFor(calls[m]) == KeyFor(calls[i]) && Answer(seen, calls, m).Ok?
  }

  /** A call after position `i` forgets an entry that expires at `expires`, and it or a later one presents the key. */
  ghost predicate ForgottenThenUsed(calls: seq<Input>, i: nat, j: nat, expires: int)
    requires i < j < |calls|
  {
    exists k, m :: i < k <= m <= j && Forgets(calls[k], expires) && Reaches(calls[m]) && KeyFor(calls[m]) == KeyFor(calls[i])
  }

  /**
   Exactly when a nonce that has been used yields another permit, for any run, any clock and any
   contents of the store: some call that reached the store in between ran after the used decision's
   expiry. A call refused before it reaches the store makes it forget nothing.
   */
  lemma IssuedAgainExactly(seen: Seen, calls: seq<Input>, i: nat, j: nat)
    requires i < j < |calls| && Answer(seen, calls, i).Ok?
    ensures calls[i].decision.expiresAt.Some?
    ensures IssuedAgain(seen, calls, i, j) <==> ForgottenThenUsed(calls, i, j, calls[i].decision.expiresAt.value)
  {
    hide Issued, KeyFor, Reaches, Forgets;
    PermitConsumes(SeenAfter(seen, calls[..i]), calls[i]);
    SeenStep(seen, calls, i);
    var expires := calls[i].decision.expiresAt.value;
    if IssuedAgain(seen, calls, i, j) { AgainIsForgotten(seen, calls, i, j, expires); }
    if ForgottenThenUsed(calls, i, j, expires) { ForgottenIsAgain(seen, calls, i, j, expires); }
  }

  /** The store holds the key of the call at `i`, just used, until `expires`. */
  ghost predicate JustUsed(seen: Seen, calls: seq<Input>, i: nat, expires: int)
    requires i < |calls|
  {
    Holds(SeenAfter(seen, calls[..i + 1]), KeyFor(calls[i]), expires)
  }

  lemma AgainIsForgotten(seen: Seen, calls: seq<Input>, i: nat, j: nat, expires: int)
    requires i < j < |calls| && JustUsed(seen, calls, i, expires) && IssuedAgain(seen, calls, i, j)
    ensures ForgottenThenUsed(calls, i, j, expires)
  {
    hide Issued, KeyFor, Reaches;
    var key := KeyFor(calls[i]);
    var m :| i < m <= j && KeyFor(calls[m]) == key && Answer(seen, calls, m).Ok?;
    IssuedStep(SeenAfter(seen, calls[..m]), calls[m], key);
    if forall k :: i + 1 <= k < m ==> !Forgets(calls[k], expires) {
      EntryOutlives(seen, calls, i + 1, m, key, expires);
      assert Forgets(calls[m], expires);
    }
  }

  lemma ForgottenIsAgain(seen: Seen, calls: seq<Input>, i: nat, j: nat, expires: int)
    requires i < j < |calls| && JustUsed(seen, calls, i, expires) && ForgottenThenUsed(calls, i, j, expires)
    ensures IssuedAgain(seen, calls, i, j)
  {
    hide Issued, KeyFor, Reaches;
    var key := KeyFor(calls[i]);
    var k, m :| i < k <= m <= j && Forgets(calls[k], expires) && Reaches(calls[m]) && KeyFor(calls[m]) == key;
    if !IssuedAgain(seen, calls, i, j) {
      EntryWasKept(seen, calls, i + 1, m, key, expires);
      IssuedStep(SeenAfter(seen, calls[..m]), calls[m], key);
    }
  }

  /**
   Over any run with a clock that never goes back, and from any contents of the store, a signed
   decision yields at most one permit, although the store forgets what has expired.
   */
  lemma AtMostOnePermit(seen: Seen, calls: seq<Input>, i: nat, j: nat)
    requires ClockRuns(calls) && i < j < |calls| && calls[i].decision == calls[j].decision
    requires Answer(seen, calls, i).Ok?
    ensures Answer(seen, calls, j).Err?
  {
    hide Issued, Reaches;
    if Answer(seen, calls, j).Ok? {
      PermitConsumes(SeenAfter(seen, calls[..i]), calls[i]);
      PermitConsumes(SeenAfter(seen, calls[..j]), calls[j]);
      assert IssuedAgain(seen, calls, i, j);
      IssuedAgainExactly(seen, calls, i, j);
    }
  }
}
