/**
 The terms of a permit: exactly which calls get one, and what it then says, in terms of
 who is bound to whom, of the time windows and of the numbers the texts spell.
 */
module PermitTerms {
  import opened Prelude
  import opened Permits
  import N = RiskNumbers
  import R = Risk

  predicate DistinctNames(values: seq<string>, limit: nat) {
    && 1 <= |values| <= limit && (forall v :: v in values ==> R.Identifier(v))
    && forall i, j :: 0 <= i < j < |values| ==> values[i] != values[j]
  }

  ghost predicate SpellsPositive(text: string) { exists n :: 0 < n && N.Spells(text, n) }

  ghost predicate SpellsNumber(text: string) { exists n :: N.Spells(text, n) }

  /** The limits of the grant's policy can be enforced. */
  ghost predicate Enforceable(p: Policy) {
    && p.schemaVersion == 1 && DistinctNames(p.limits.venues, 16) && DistinctNames(p.limits.instruments, 128)
    && SpellsPositive(p.limits.maxPosition) && SpellsPositive(p.limits.maxOrder) && SpellsPositive(p.limits.maxGross)
    && SpellsPositive(p.limits.maxDailyLoss) && 1 <= p.limits.maxLeverageBps <= 100000
    && 100 <= p.maxDecisionAgeMs <= 3600000 && 100 <= p.maxAccountSnapshotAgeMs <= 60000 && 0 <= p.maxClockSkewMs <= 60000
    && 100 <= p.executionPermitTtlMs <= p.maxDecisionAgeMs && p.executionPermitTtlMs <= 60000
  }

  /** Names and digests have their forms. */
  predicate Named(i: Input) {
    && R.Identifier(i.grant.grantId) && R.Identifier(i.grant.userId) && R.Identifier(i.grant.strategyFamilyId)
    && R.Identifier(i.release.strategyVersionId) && R.Identifier(i.release.signerKeyId)
    && R.Identifier(i.decision.decisionId) && R.Identifier(i.decision.nonce) && R.Identifier(i.decision.venue)
    && R.Identifier(i.snapshot.snapshotId) && Measurement(i.release.codeMeasurement) && Hash(i.policyHash)
  }

  /** Both signatures verify; grant, decision, release, policy and account belong together. */
  predicate BoundTogether(i: Input) {
    && i.grantSigned && i.decisionSigned
    && i.grant.permissions == Permissions(true, true, true, false, false)
    && i.decision.grantId == i.grant.grantId
    && i.decision.strategyFamilyId == i.grant.strategyFamilyId == i.release.strategyFamilyId
    && i.decision.strategyVersionId == i.release.strategyVersionId
    && i.decision.codeMeasurement == i.release.codeMeasurement
    && i.decision.policyHash == i.policyHash
    && i.snapshot.userId == i.grant.userId
    && i.decision.venue == i.snapshot.account.venue && i.decision.venue in i.grant.policy.limits.venues
  }

  /** Every instant is named, and now lies in the windows of grant, decision and snapshot. */
  predicate InTime(i: Input) {
    var g, d, s, p := i.grant, i.decision, i.snapshot, i.grant.policy;
    && g.validFrom.Some? && g.validUntil.Some? && d.issuedAt.Some? && d.expiresAt.Some? && s.capturedAt.Some?
    && g.validFrom.value <= i.now < g.validUntil.value
    && d.issuedAt.value - p.maxClockSkewMs <= i.now <= d.issuedAt.value + p.maxDecisionAgeMs
    && i.now < d.expiresAt.value && d.issuedAt.value < d.expiresAt.value <= d.issuedAt.value + p.maxDecisionAgeMs
    && s.capturedAt.value - p.maxClockSkewMs <= i.now <= s.capturedAt.value + p.maxAccountSnapshotAgeMs
  }

  /** Sizes, and texts that spell numbers. */
  ghost predicate Legible(i: Input) {
    && |i.decision.targets| <= 128 && |i.snapshot.account.positions| <= 1000
    && SpellsPositive(i.snapshot.account.equity) && SpellsNumber(i.snapshot.account.dailyPnl)
    && forall k :: k in i.snapshot.account.positions ==>
         R.Identifier(k) && SpellsNumber(i.snapshot.account.positions[k])
  }

  lemma PositiveTexts(text: string)
    ensures R.ParsePositive(text).Ok? <==> SpellsPositive(text)
  {
    hide N.Spells, R.ParseAmount;
    if R.ParsePositive(text).Ok? { N.AmountsAreSpelled(text, R.ParseAmount(text).value); }
    if SpellsPositive(text) {
      var n :| 0 < n && N.Spells(text, n);
      N.AmountsAreSpelled(text, n);
    }
  }

  lemma NumberTexts(text: string)
    ensures R.ParseAmount(text).Ok? <==> SpellsNumber(text)
  {
    hide N.Spells, R.ParseAmount;
    if R.ParseAmount(text).Ok? { N.AmountsAreSpelled(text, R.ParseAmount(text).value); }
    if SpellsNumber(text) {
      var n :| N.Spells(text, n);
      N.AmountsAreSpelled(text, n);
    }
  }

  lemma {:induction false} ListsAreNames(values: seq<string>, n: nat)
    requires n <= |values|
    ensures ListFault(values, n).None? <==>
              (forall i :: 0 <= i < n ==> R.Identifier(values[i])) && forall i, j :: 0 <= i < j < n ==> values[i] != values[j]
  {
    hide R.Identifier;
    if n > 0 {
      ListsAreNames(values, n - 1);
      assert values[n - 1] in values[..n - 1] <==> exists i :: 0 <= i < n - 1 && values[i] == values[n - 1];
    }
  }

  lemma AllowlistsAreNames(values: seq<string>, limit: nat)
    ensures AllowlistFault(values, limit).None? <==> DistinctNames(values, limit)
  {
    hide R.Identifier, ListFault;
    ListsAreNames(values, |values|);
  }

  lemma PoliciesAreEnforceable(p: Policy)
    ensures PolicyFault(p).None? <==> Enforceable(p)
  {
    hide R.ParsePositive, SpellsPositive, AllowlistFault, DistinctNames;
    AllowlistsAreNames(p.limits.venues, 16);
    AllowlistsAreNames(p.limits.instruments, 128);
    PositiveTexts(p.limits.maxPosition);
    PositiveTexts(p.limits.maxOrder);
    PositiveTexts(p.limits.maxGross);
    PositiveTexts(p.limits.maxDailyLoss);
  }

  lemma SnapshotsAreLegible(i: Input)
    ensures SnapshotFault(i.snapshot, i.grant, i.now).None? ==> Legible(i) || |i.decision.targets| > 128
    ensures Legible(i) ==>
              R.ParsePositive(i.snapshot.account.equity).Ok? && R.ParseAmount(i.snapshot.account.dailyPnl).Ok?
              && |i.snapshot.account.positions| <= 1000 && R.Readable(i.snapshot.account.positions)
              && forall k :: k in i.snapshot.account.positions ==> R.Identifier(k)
  {
    hide R.ParsePositive, R.ParseAmount, SpellsPositive, SpellsNumber, R.Identifier;
    PositiveTexts(i.snapshot.account.equity);
    NumberTexts(i.snapshot.account.dailyPnl);
    forall k | k in i.snapshot.account.positions
      ensures R.ParseAmount(i.snapshot.account.positions[k]).Ok? <==> SpellsNumber(i.snapshot.account.positions[k])
    {
      NumberTexts(i.snapshot.account.positions[k]);
    }
  }

  /** What is checked before the evaluation, but for the account's venue, which the evaluation compares. */
  ghost predicate Admitted(i: Input) {
    Enforceable(i.grant.policy) && Named(i) && BoundTogether(i) && InTime(i) && Legible(i)
  }

  lemma ChecksAdmit(i: Input)
    requires i.decision.venue == i.snapshot.account.venue
    ensures InputFault(i).None? <==> Admitted(i)
  {
    hide PolicyFault, Enforceable, R.ParsePositive, R.ParseAmount, R.Identifier, Measurement, Hash, Legible;
    PoliciesAreEnforceable(i.grant.policy);
    SnapshotsAreLegible(i);
    LegibleTargets(i);
    EnforceableBounds(i.grant.policy);
  }

  lemma LegibleTargets(i: Input)
    ensures Legible(i) ==> |i.decision.targets| <= 128
  {}

  lemma EnforceableBounds(p: Policy)
    ensures Enforceable(p) ==> 0 <= p.maxClockSkewMs && 0 <= p.maxDecisionAgeMs && 0 <= p.maxAccountSnapshotAgeMs
  {}

  /** The figures the texts spell, and the evaluation accepts them. */
  ghost predicate Sanctioned(i: Input, f: N.Figures) {
    && N.Spelled(i.decision.targets, i.snapshot.account, i.grant.policy.limits, f)
    && 0 < f.maxPosition && 0 < f.maxOrder && 0 < f.maxGross && 0 < f.equity && 0 < f.maxLoss
    && N.WithinLimits(i.decision.targets, i.grant.policy.limits, f)
    && N.Prudent(R.Filled(f.book, N.Differences(f.book, i.decision.targets, f.amounts)), i.grant.policy.limits, f)
  }

  lemma SanctionedIsAccepted(i: Input, f: N.Figures)
    requires Sanctioned(i, f)
    ensures |f.amounts| == |i.decision.targets|
    ensures var v := R.Verdict(i.decision.venue, i.decision.targets, i.snapshot.account, i.grant.policy.limits);
            (v.Ok? <==> i.decision.venue == i.snapshot.account.venue)
            && (v.Ok? ==> v.value == N.Differences(f.book, i.decision.targets, f.amounts))
  {
    hide N.Spelled, N.WithinLimits, N.Prudent, R.Verdict, R.Filled, N.Differences;
    SpelledAmounts(i, f);
    N.VerdictOnNumbers(i.decision.venue, i.decision.targets, i.snapshot.account, i.grant.policy.limits, f);
  }

  lemma SpelledAmounts(i: Input, f: N.Figures)
    requires N.Spelled(i.decision.targets, i.snapshot.account, i.grant.policy.limits, f)
    ensures |f.amounts| == |i.decision.targets|
  {}

  lemma AcceptedIsSanctioned(i: Input) returns (f: N.Figures)
    requires R.Verdict(i.decision.venue, i.decision.targets, i.snapshot.account, i.grant.policy.limits).Ok?
    ensures Sanctioned(i, f) && i.decision.venue == i.snapshot.account.venue
  {
    hide N.Spelled, N.WithinLimits, N.Prudent, R.Verdict, R.Filled, N.Differences;
    f := N.AcceptedIsSpelled(i.decision.venue, i.decision.targets, i.snapshot.account, i.grant.policy.limits);
    SpelledAmounts(i, f);
    N.VerdictOnNumbers(i.decision.venue, i.decision.targets, i.snapshot.account, i.grant.policy.limits, f);
  }

  /** The permit says who may place which orders, from now until the first of its windows ends. */
  ghost predicate Grants(i: Input, f: N.Figures, p: Permit) {
    && p.grantId == i.grant.grantId && p.userId == i.grant.userId && p.venue == i.decision.venue
    && p.decision == i.decision
    && |f.amounts| == |i.decision.targets| && p.orders == N.Differences(f.book, i.decision.targets, f.amounts)
    && p.issuedAt == i.now
    && i.decision.expiresAt.Some? && i.grant.validUntil.Some?
    && p.expiresAt <= i.decision.expiresAt.value && p.expiresAt <= i.grant.validUntil.value
    && p.expiresAt <= i.now + i.grant.policy.executionPermitTtlMs
    && p.expiresAt in {i.decision.expiresAt.value, i.grant.validUntil.value, i.now + i.grant.policy.executionPermitTtlMs}
  }

  /**
   A permit is issued if and only if everything is well formed, bound together and in time, the
   figures are sanctioned, and the store does not hold the nonce as live; it then grants exactly
   the orders that lead from the positions to the targets.
   */
  lemma PermitIsExact(seen: Seen, i: Input)
    ensures Issued(seen, i).0.Ok? <==>
              Admitted(i) && (exists f :: Sanctioned(i, f)) && (KeyFor(i) in seen ==> seen[KeyFor(i)] < i.now)
    ensures Issued(seen, i).0.Ok? ==> forall f :: Sanctioned(i, f) ==> Grants(i, f, Issued(seen, i).0.value)
  {
    hide Issued, Admitted, Sanctioned, InputFault, KeyFor, Grants;
    IssuedStep(seen, i, []);
    if Reaches(i) { ReachedIsSanctioned(i); }
    if Admitted(i) && exists f :: Sanctioned(i, f) {
      var f :| Sanctioned(i, f);
      SanctionedReaches(i, f);
    }
    if Issued(seen, i).0.Ok? {
      forall f | Sanctioned(i, f) ensures Grants(i, f, Issued(seen, i).0.value) { IssuedGrants(seen, i, f); }
    }
  }

  lemma ReachedIsSanctioned(i: Input)
    requires Reaches(i)
    ensures Admitted(i) && exists f :: Sanctioned(i, f)
  {
    hide Admitted, Sanctioned, InputFault, R.Verdict;
    var f := AcceptedIsSanctioned(i);
    ChecksAdmit(i);
  }

  lemma SanctionedReaches(i: Input, f: N.Figures)
    requires Admitted(i) && Sanctioned(i, f)
    ensures Reaches(i)
  {
    hide Sanctioned, InputFault, R.Verdict, Named, InTime, Legible, Enforceable;
    ChecksAdmit(i);
    SanctionedIsAccepted(i, f);
  }

  lemma IssuedGrants(seen: Seen, i: Input, f: N.Figures)
    requires Issued(seen, i).0.Ok? && Sanctioned(i, f)
    ensures Grants(i, f, Issued(seen, i).0.value)
  {
    hide Sanctioned, InputFault, R.Verdict, Consumed, KeyFor;
    SanctionedIsAccepted(i, f);
    CheckedInputHasTimes(i);
  }
}
