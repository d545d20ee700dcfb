/**
 The fenced lease. A claim shuts out every earlier token for good, and in
 synchronizer runs the demanded target is never forgotten: it only goes away when
 it is met, or when a reorganisation failure is recorded.
 */
module ChainLease {
  import opened Prelude
  import opened ChainTables
  import opened ChainRuns

  ghost function RunCalls(db: Db, calls: seq<Call>): Db
    decreases |calls|
  {
    if calls == [] then db
    else
      var n := |calls| - 1;
      var before := RunCalls(db, calls[..n]);
      var r := Perform(before, calls[n]);
      if r.Ok? then r.value else before
  }

  /** The store before call `i` of the run. */
  ghost function Before(db: Db, calls: seq<Call>, i: nat): Db
    requires i <= |calls|
  {
    RunCalls(db, calls[..i])
  }

  /** The token a writing call presents; None for claims. */
  function Presented(call: Call): Option<Option<Token>> {
    match call
    case Claim(_, _, _) => None
    case MarkUnhealthy(_, _, _, token) => Some(token)
    case MarkHealthy(_, _, token) => Some(token)
    case Release(_, _, owner) => Some(Some(owner))
    case Record(_, _, _, _, token) => Some(token)
    case Rollback(_, _, token) => Some(token)
    case Commit(_, _, _, token) => Some(token)
  }

  lemma WritesNeedTheLease(db: Db, call: Call)
    requires Presented(call).Some? && Perform(db, call).Ok?
    ensures Owns(db, call.c, Presented(call).value)
  {}

  lemma LeaseAfter(db: Db, call: Call, c: Contract)
    requires Perform(db, call).Ok?
    ensures var db' := Perform(db, call).value;
            if call.Claim? && call.c == c then c in db'.leases && db'.leases[c] == LeaseRow(call.owner, call.goal)
            else c in db'.leases ==> c in db.leases && db'.leases[c] == db.leases[c]
  {}

  /** `token` does not hold the lease of `c`. */
  predicate Out(db: Db, c: Contract, token: Token) {
    c in db.leases ==> db.leases[c].owner != token
  }

  lemma StaysOut(db: Db, call: Call, c: Contract, token: Token)
    requires Out(db, c, token) && !(call.Claim? && call.c == c && call.owner == token)
    ensures Perform(db, call).Ok? ==> Out(Perform(db, call).value, c, token)
    ensures call.c == c && Presented(call) == Some(Some(token)) ==> Perform(db, call).Err?
  {
    if Perform(db, call).Ok? {
      LeaseAfter(db, call, c);
      if Presented(call).Some? { WritesNeedTheLease(db, call); }
    }
  }

  /** No token is claimed twice in a run. */
  ghost predicate FreshClaims(calls: seq<Call>) {
    forall i, j :: 0 <= i < j < |calls| && calls[i].Claim? && calls[j].Claim? ==> calls[i].owner != calls[j].owner
  }

  lemma {:induction false} OutAfterClaim(db: Db, calls: seq<Call>, h: nat, i: nat, j: nat)
    requires h < i < j <= |calls| && FreshClaims(calls)
    requires calls[h].Claim? && calls[i].Claim? && calls[h].c == calls[i].c
    requires Perform(Before(db, calls, i), calls[i]).Ok?
    ensures Out(Before(db, calls, j), calls[i].c, calls[h].owner)
    decreases j
  {
    var prev := Before(db, calls, j - 1);
    assert calls[..j][..j - 1] == calls[..j - 1];
    if j == i + 1 {
      LeaseAfter(prev, calls[i], calls[i].c);
    } else {
      OutAfterClaim(db, calls, h, i, j - 1);
      StaysOut(prev, calls[j - 1], calls[i].c, calls[h].owner);
    }
  }

  /**
   Fencing. Once a later claim on a contract has committed, no call that presents
   an earlier claim's token commits any more; and no call without a token commits
   while a lease is held.
   */
  lemma ClaimFencesEarlierTokens(db: Db, calls: seq<Call>, h: nat, i: nat, j: nat)
    requires h < i < j < |calls| && FreshClaims(calls)
    requires calls[h].Claim? && calls[i].Claim? && calls[h].c == calls[i].c == calls[j].c
    requires Perform(Before(db, calls, i), calls[i]).Ok?
    requires Presented(calls[j]) == Some(Some(calls[h].owner))
             || (Presented(calls[j]) == Some(None) && calls[j].c in Before(db, calls, j).leases)
    ensures Perform(Before(db, calls, j), calls[j]).Err?
    ensures Before(db, calls, j + 1) == Before(db, calls, j)
  {
    var now := Before(db, calls, j);
    OutAfterClaim(db, calls, h, i, j);
    if Perform(now, calls[j]).Ok? { WritesNeedTheLease(now, calls[j]); }
    assert calls[..j + 1][..j] == calls[..j];
  }

  /** The call gives the lease back. */
  predicate GivesBack(call: Call) {
    call.MarkHealthy? || call.Release? || (call.MarkUnhealthy? && !call.error.Incomplete?)
  }

  /**
   The converse: the latest claim keeps the lease until a call of its own gives it
   back, whatever other tokens try meanwhile.
   */
  lemma {:induction false} LatestClaimHolds(db: Db, calls: seq<Call>, i: nat, j: nat)
    requires i < j <= |calls| && calls[i].Claim? && Perform(Before(db, calls, i), calls[i]).Ok?
    requires forall k :: i < k < j && calls[k].c == calls[i].c ==>
               !calls[k].Claim? && !(GivesBack(calls[k]) && Presented(calls[k]) == Some(Some(calls[i].owner)))
    ensures Owns(Before(db, calls, j), calls[i].c, Some(calls[i].owner))
    decreases j
  {
    var prev := Before(db, calls, j - 1);
    assert calls[..j][..j - 1] == calls[..j - 1];
    if j == i + 1 {
      LeaseAfter(prev, calls[i], calls[i].c);
    } else {
      LatestClaimHolds(db, calls, i, j - 1);
      HoldsOn(prev, calls[j - 1], calls[i].c, calls[i].owner);
    }
  }

  lemma HoldsOn(db: Db, call: Call, c: Contract, token: Token)
    requires Owns(db, c, Some(token))
    requires call.c == c ==> !call.Claim? && !(GivesBack(call) && Presented(call) == Some(Some(token)))
    ensures Perform(db, call).Ok? ==> Owns(Perform(db, call).value, c, Some(token))
  {
    if Presented(call).Some? && Perform(db, call).Ok? { WritesNeedTheLease(db, call); }
  }

  // ---- synchronizer runs: the demanded target -------------------------------

  datatype Goal = Goal(c: Contract, target: nat)

  /** The call is one a synchronizer makes: under its own token, for the target it claimed. */
  predicate InSession(goals: map<Token, Goal>, call: Call) {
    match call
    case Claim(c, goal, owner) => owner !in goals
    case MarkUnhealthy(c, error, target, token) =>
      !error.Incomplete? && target.None? && token.Some? && token.value in goals && goals[token.value].c == c
    case MarkHealthy(c, completed, token) =>
      token.Some? && token.value in goals && goals[token.value] == Goal(c, completed)
    case Release(c, goal, owner) => owner in goals && goals[owner] == Goal(c, goal)
    case Record(c, block, events, target, token) =>
      token.Some? && token.value in goals && target.Some? && goals[token.value] == Goal(c, target.value)
    case Rollback(c, from, token) => token.Some? && token.value in goals && goals[token.value].c == c
    case Commit(c, at, projections, token) => token.Some? && token.value in goals && goals[token.value].c == c
  }

  function GoalsAfter(goals: map<Token, Goal>, call: Call): map<Token, Goal> {
    if call.Claim? then goals[call.owner := Goal(call.c, call.goal)] else goals
  }

  /** A held lease remembers its session's target, and no checkpoint demands more. */
  ghost predicate LeasesRemember(db: Db, goals: map<Token, Goal>) {
    forall c :: c in db.leases ==> LeaseRemembers(db, goals, c)
  }

  predicate LeaseRemembers(db: Db, goals: map<Token, Goal>, c: Contract)
    requires c in db.leases
  {
    && db.leases[c].owner in goals && goals[db.leases[c].owner] == Goal(c, db.leases[c].target)
    && (c in db.checkpoints && db.checkpoints[c].target.Some? ==>
          db.checkpoints[c].target.value <= db.leases[c].target)
  }

  /** The call met everything that was demanded. */
  predicate Meets(db: Db, call: Call, db': Db) {
    call.MarkHealthy? && call.c in db'.checkpoints && db'.checkpoints[call.c].healthy
    && db'.checkpoints[call.c].projected == Some(db'.checkpoints[call.c].at)
    && Outstanding(db, call.c) <= db'.checkpoints[call.c].at.number
  }

  lemma RecordDemands(db: Db, goals: map<Token, Goal>, call: Call)
    requires LeasesRemember(db, goals) && InSession(goals, call) && call.Record? && Perform(db, call).Ok?
    ensures LeasesRemember(Perform(db, call).value, goals)
    ensures forall d :: Outstanding(Perform(db, call).value, d) == Outstanding(db, d)
  {
    WritesNeedTheLease(db, call);
    var db' := Perform(db, call).value;
    assert db'.leases == db.leases;
    assert call.c in db.leases;
    forall d ensures Outstanding(db', d) == Outstanding(db, d) {}
  }

  lemma LeaseStillRemembers(db: Db, goals: map<Token, Goal>, call: Call, d: Contract)
    requires LeasesRemember(db, goals) && InSession(goals, call) && Perform(db, call).Ok? && !call.Record?
    requires d in Perform(db, call).value.leases
    ensures LeaseRemembers(Perform(db, call).value, GoalsAfter(goals, call), d)
  {
    if d in db.leases { assert LeaseRemembers(db, goals, d); }
    hide LeasesRemember, RollbackFromBlock;
    if call.Rollback? { RollbackKeepsDemand(db, call, d); }
    hide FirstFault, IsCheckpoint;
  }

  /** A rollback moves no lease and no target. */
  lemma RollbackKeepsDemand(db: Db, call: Call, d: Contract)
    requires call.Rollback? && Perform(db, call).Ok?
    ensures var db' := Perform(db, call).value;
            && db'.leases == db.leases
            && (d in db'.checkpoints ==> d in db.checkpoints && db'.checkpoints[d].target == db.checkpoints[d].target)
  {}

  lemma DemandStands(db: Db, goals: map<Token, Goal>, call: Call, d: Contract)
    requires LeasesRemember(db, goals) && InSession(goals, call) && Perform(db, call).Ok? && !call.Record?
    ensures Outstanding(db, d) <= Outstanding(Perform(db, call).value, d)
            || (d == call.c && (Meets(db, call, Perform(db, call).value) || call.MarkUnhealthy?))
  {
    if Presented(call).Some? { WritesNeedTheLease(db, call); }
    if d in db.leases { assert LeaseRemembers(db, goals, d); }
    hide LeasesRemember, FirstFault, IsCheckpoint;
  }

  lemma SessionCalls(db: Db, goals: map<Token, Goal>, call: Call, d: Contract)
    requires LeasesRemember(db, goals) && InSession(goals, call) && Perform(db, call).Ok? && !call.Record?
    ensures LeasesRemember(Perform(db, call).value, GoalsAfter(goals, call))
    ensures Outstanding(db, d) <= Outstanding(Perform(db, call).value, d)
            || (d == call.c && (Meets(db, call, Perform(db, call).value) || call.MarkUnhealthy?))
  {
    DemandStands(db, goals, call, d);
    hide Perform, LeaseRemembers, InSession, GoalsAfter, Meets;
    forall e | e in Perform(db, call).value.leases
      ensures LeaseRemembers(Perform(db, call).value, GoalsAfter(goals, call), e)
    {
      LeaseStillRemembers(db, goals, call, e);
    }
  }

  /** Runs the calls, each made in a session; goals grow with each claim made. */
  ghost predicate Sessions(goals: map<Token, Goal>, calls: seq<Call>)
    decreases |calls|
  {
    calls == [] || (InSession(goals, calls[0]) && Sessions(GoalsAfter(goals, calls[0]), calls[1..]))
  }

  ghost function RunFrom(db: Db, calls: seq<Call>): Db
    decreases |calls|
  {
    if calls == [] then db
    else
      var r := Perform(db, calls[0]);
      RunFrom(if r.Ok? then r.value else db, calls[1..])
  }

  /** No call of the run meets `c`'s demand or records a reorganisation failure. */
  ghost predicate Undischarged(db: Db, calls: seq<Call>, c: Contract)
    decreases |calls|
  {
    calls == [] ||
    (var r := Perform(db, calls[0]);
     (r.Ok? && calls[0].c == c ==> !calls[0].MarkUnhealthy? && !Meets(db, calls[0], r.value))
     && Undischarged(if r.Ok? then r.value else db, calls[1..], c))
  }

  /** Over any synchronizer run that does not discharge it, the demanded target never decreases. */
  lemma {:induction false} DemandIsNeverLost(db: Db, goals: map<Token, Goal>, calls: seq<Call>, c: Contract)
    requires LeasesRemember(db, goals) && Sessions(goals, calls) && Undischarged(db, calls, c)
    ensures Outstanding(db, c) <= Outstanding(RunFrom(db, calls), c)
    decreases |calls|
  {
    if calls != [] {
      var r := Perform(db, calls[0]);
      if r.Ok? {
        if calls[0].Record? {
          RecordDemands(db, goals, calls[0]);
        } else {
          SessionCalls(db, goals, calls[0], c);
        }
        DemandIsNeverLost(r.value, GoalsAfter(goals, calls[0]), calls[1..], c);
      } else {
        GoalsStay(db, goals, calls[0]);
        DemandIsNeverLost(db, GoalsAfter(goals, calls[0]), calls[1..], c);
      }
    }
  }

  lemma GoalsStay(db: Db, goals: map<Token, Goal>, call: Call)
    requires LeasesRemember(db, goals) && InSession(goals, call)
    ensures LeasesRemember(db, GoalsAfter(goals, call))
  {}
}
