/**
 Many synchronizers with overlapping runs over one store: however they interleave,
 supersede each other and fail, a contract's chain always starts at its deployment
 block and each block goes on top of it.
 */
module ChainBase {
  import opened Prelude
  import opened Lifecycle
  import opened ChainTables
  import opened ChainStack
  import opened ChainRuns
  import opened ChainSafety
  import L = ChainLease
  import S = ChainSync

  /** A run in progress: its contract, and the height it records next once it has planned. */
  datatype Session = Session(c: Contract, next: Option<nat>)

  datatype Runs = Runs(db: Db, sessions: map<Token, Session>, stacks: map<Contract, Stack>)

  datatype Move =
    | Open(token: Token, c: Contract, goal: nat)
    | Rewind(token: Token, from: nat)
    | Plan(token: Token)
    | Append(token: Token, block: Block, events: seq<Event>, goal: nat)
    | Undo(token: Token)
    | Other(call: Call)

  function DeploymentOf(deployments: map<Contract, nat>, c: Contract): nat {
    if c in deployments then deployments[c] else 0
  }

  function ChainOf(r: Runs, c: Contract): Stack { if c in r.stacks then r.stacks[c] else NOTHING }

  ghost function Written(r: Runs, call: Call): Runs {
    var result := Perform(r.db, call);
    if result.Err? then r
    else Runs(result.value, r.sessions, StacksAfter(World(r.db, map[], r.stacks, map[]), call))
  }

  function Ended(r: Runs, token: Token): Runs
    requires token in r.sessions
  {
    r.(sessions := r.sessions[token := r.sessions[token].(next := None)])
  }

  /** One move; moves the code would not make at that point change nothing. */
  ghost function Make(r: Runs, deployments: map<Contract, nat>, m: Move): Runs {
    match m
    case Open(token, c, goal) =>
      if token in r.sessions then r
      else Written(r, Claim(c, goal, token)).(sessions := r.sessions[token := Session(c, None)])
    case Rewind(token, from) =>
      if token in r.sessions && r.sessions[token].next.None? then
        Written(r, Rollback(r.sessions[token].c, from, Some(token)))
      else r
    case Plan(token) =>
      if token in r.sessions && r.sessions[token].next.None? then
        var c := r.sessions[token].c;
        var next := if c in r.db.checkpoints then r.db.checkpoints[c].at.number + 1 else DeploymentOf(deployments, c);
        r.(sessions := r.sessions[token := Session(c, Some(next))])
      else r
    case Append(token, block, events, goal) =>
      if token in r.sessions && r.sessions[token].next == Some(block.number) then
        var call := Record(r.sessions[token].c, block, events, Some(goal), Some(token));
        if Perform(r.db, call).Err? then Ended(r, token)
        else Written(r, call).(sessions := r.sessions[token := Session(call.c, Some(block.number + 1))])
      else r
    case Undo(token) =>
      if token in r.sessions && r.sessions[token].next.Some? && 0 < r.sessions[token].next.value then
        Ended(Written(r, Rollback(r.sessions[token].c, r.sessions[token].next.value - 1, Some(token))), token)
      else r
    case Other(call) => if call.Record? || call.Rollback? || call.Claim? then r else Written(r, call)
  }

  ghost predicate Grounded(r: Runs, deployments: map<Contract, nat>, c: Contract) {
    S.Based(r.db, c, DeploymentOf(deployments, c), ChainOf(r, c))
  }

  /** The session that holds the lease plans to continue its chain exactly. */
  ghost predicate PlansContinue(r: Runs, deployments: map<Contract, nat>) {
    forall token :: token in r.sessions && r.sessions[token].next.Some? ==>
      var c := r.sessions[token].c;
      c in r.db.leases && r.db.leases[c].owner == token ==>
        r.sessions[token].next.value == S.Next(ChainOf(r, c), DeploymentOf(deployments, c))
  }

  ghost predicate Sound(r: Runs, deployments: map<Contract, nat>) {
    (forall c :: Grounded(r, deployments, c)) && PlansContinue(r, deployments)
    && (forall c :: c in r.db.leases ==> r.db.leases[c].owner in r.sessions)
  }

  lemma WrittenStacks(r: Runs, call: Call, c: Contract)
    requires forall d :: Represents(r.db, d, ChainOf(r, d))
    ensures Represents(Written(r, call).db, c, ChainOf(Written(r, call), c))
  {
    var w := World(r.db, map[], r.stacks, map[]);
    forall d ensures Represents(w.db, d, StackOf(w, d)) {
      assert Represents(r.db, d, ChainOf(r, d));
    }
    CallsKeepStacks(w, call);
    assert Represents(Stored(w, call).db, c, StackOf(Stored(w, call), c));
  }

  /** What a write does to the chains: only a recording or a rollback of `c` moves `c`'s. */
  lemma WrittenChain(r: Runs, call: Call, c: Contract)
    requires Represents(r.db, call.c, ChainOf(r, call.c))
    ensures Perform(r.db, call).Err? ==> Written(r, call) == r
    ensures Perform(r.db, call).Ok? ==>
              ChainOf(Written(r, call), c) ==
              if c != call.c then ChainOf(r, c)
              else if call.Rollback? then Truncate(ChainOf(r, c), call.from)
              else if call.Record? then
                Recorded(ChainOf(r, c), call.block, call.events, Placement(r.db, c, call.block, call.events).value)
              else ChainOf(r, c)
  {
    if Perform(r.db, call).Ok? && call.Record? {
      RecordIsPush(r.db, call.c, ChainOf(r, call.c), call.block, call.events, call.target, call.token);
    }
  }

  lemma GroundedAfter(r: Runs, deployments: map<Contract, nat>, call: Call, c: Contract)
    requires forall d :: Grounded(r, deployments, d)
    requires call.Record? ==> IsEmpty(ChainOf(r, call.c)) ==> call.block.number == DeploymentOf(deployments, call.c)
    ensures Grounded(Written(r, call), deployments, c)
  {
    assert Grounded(r, deployments, c) && Grounded(r, deployments, call.c);
    forall d ensures Represents(r.db, d, ChainOf(r, d)) { assert Grounded(r, deployments, d); }
    WrittenStacks(r, call, c);
    WrittenChain(r, call, c);
  }

  lemma LeasesAfter(r: Runs, call: Call, c: Contract)
    ensures var r' := Written(r, call);
            c in r'.db.leases && !(call.Claim? && call.c == c) ==> c in r.db.leases && r'.db.leases[c] == r.db.leases[c]
    ensures call.Claim? && call.c == c && Perform(r.db, call).Ok? ==>
              c in Written(r, call).db.leases && Written(r, call).db.leases[c].owner == call.owner
    ensures call.Claim? && call.c == c && Perform(r.db, call).Err? ==> Written(r, call) == r
  {
    if Perform(r.db, call).Ok? { L.LeaseAfter(r.db, call, c); }
  }

  lemma PlanIsNext(r: Runs, deployments: map<Contract, nat>, c: Contract)
    requires Grounded(r, deployments, c)
    ensures (if c in r.db.checkpoints then r.db.checkpoints[c].at.number + 1 else DeploymentOf(deployments, c))
            == S.Next(ChainOf(r, c), DeploymentOf(deployments, c))
  {}

  lemma AppendedChain(r: Runs, deployments: map<Contract, nat>, call: Call)
    requires Grounded(r, deployments, call.c) && call.Record? && Perform(r.db, call).Ok?
    requires call.block.number == S.Next(ChainOf(r, call.c), DeploymentOf(deployments, call.c))
    ensures var s := ChainOf(Written(r, call), call.c);
            !IsEmpty(s) && s.hi == call.block.number + 1
  {
    RecordIsPush(r.db, call.c, ChainOf(r, call.c), call.block, call.events, call.target, call.token);
  }

  /** The plan of one session after a write that is not its own. */
  lemma OthersContinue(r: Runs, deployments: map<Contract, nat>, call: Call, token: Token)
    requires Sound(r, deployments) && token in r.sessions && r.sessions[token].next.Some?
    requires call.Claim? ==> call.owner != token
    requires call.Record? || call.Rollback? ==>
               L.Presented(call).value.Some? && (call.c == r.sessions[token].c ==> L.Presented(call) != Some(Some(token)))
    ensures var r' := Written(r, call);
            var c := r.sessions[token].c;
            c in r'.db.leases && r'.db.leases[c].owner == token ==>
              r.sessions[token].next.value == S.Next(ChainOf(r', c), DeploymentOf(deployments, c))
  {
    var c := r.sessions[token].c;
    assert Grounded(r, deployments, call.c);
    LeasesAfter(r, call, c);
    WrittenChain(r, call, c);
    if Perform(r.db, call).Ok? && L.Presented(call).Some? { L.WritesNeedTheLease(r.db, call); }
  }

  lemma OwnersAfter(r: Runs, deployments: map<Contract, nat>, call: Call, c: Contract)
    requires Sound(r, deployments) && c in Written(r, call).db.leases
    ensures Written(r, call).db.leases[c].owner in r.sessions
            || (call.Claim? && call.c == c && Written(r, call).db.leases[c].owner == call.owner)
  {
    LeasesAfter(r, call, c);
  }

  /** The write a move makes, if any. */
  ghost function CallOf(r: Runs, m: Move): Option<Call> {
    match m
    case Open(token, c, goal) => if token in r.sessions then None else Some(Claim(c, goal, token))
    case Rewind(token, from) =>
      if token in r.sessions && r.sessions[token].next.None? then
        Some(Rollback(r.sessions[token].c, from, Some(token)))
      else None
    case Plan(token) => None
    case Append(token, block, events, goal) =>
      if token in r.sessions && r.sessions[token].next == Some(block.number) then
        Some(Record(r.sessions[token].c, block, events, Some(goal), Some(token)))
      else None
    case Undo(token) =>
      if token in r.sessions && r.sessions[token].next.Some? && 0 < r.sessions[token].next.value then
        Some(Rollback(r.sessions[token].c, r.sessions[token].next.value - 1, Some(token)))
      else None
    case Other(call) => if call.Record? || call.Rollback? || call.Claim? then None else Some(call)
  }

  lemma MadeTables(r: Runs, deployments: map<Contract, nat>, m: Move)
    ensures var r' := Make(r, deployments, m);
            var written := if CallOf(r, m).Some? then Written(r, CallOf(r, m).value) else r;
            r'.db == written.db && r'.stacks == written.stacks && r.sessions.Keys <= r'.sessions.Keys
    ensures m.Open? ==> m.token in Make(r, deployments, m).sessions
  {}

  lemma AppendIsNext(r: Runs, deployments: map<Contract, nat>, m: Move)
    requires Sound(r, deployments) && CallOf(r, m).Some? && CallOf(r, m).value.Record?
    requires Perform(r.db, CallOf(r, m).value).Ok?
    ensures var call := CallOf(r, m).value;
            call.block.number == S.Next(ChainOf(r, call.c), DeploymentOf(deployments, call.c))
  {
    L.WritesNeedTheLease(r.db, CallOf(r, m).value);
  }

  lemma MoveKeepsGround(r: Runs, deployments: map<Contract, nat>, m: Move, c: Contract)
    requires Sound(r, deployments)
    ensures Grounded(Make(r, deployments, m), deployments, c)
  {
    MadeTables(r, deployments, m);
    assert Grounded(r, deployments, c);
    if CallOf(r, m).Some? && Perform(r.db, CallOf(r, m).value).Ok? {
      var call := CallOf(r, m).value;
      if call.Record? { AppendIsNext(r, deployments, m); }
      GroundedAfter(r, deployments, call, c);
      assert Grounded(Written(r, call), deployments, c);
    }
  }

  lemma MoveKeepsPlan(r: Runs, deployments: map<Contract, nat>, m: Move, token: Token)
    requires Sound(r, deployments)
    requires token in Make(r, deployments, m).sessions && Make(r, deployments, m).sessions[token].next.Some?
    ensures var r' := Make(r, deployments, m);
            var c := r'.sessions[token].c;
            c in r'.db.leases && r'.db.leases[c].owner == token ==>
              r'.sessions[token].next.value == S.Next(ChainOf(r', c), DeploymentOf(deployments, c))
  {
    hide Represents, Perform, StacksAfter;
    MadeTables(r, deployments, m);
    var c := Make(r, deployments, m).sessions[token].c;
    assert Grounded(r, deployments, c);
    if m.Plan? {
      PlanIsNext(r, deployments, c);
    } else if m.Append? && m.token == token && CallOf(r, m).Some? {
      if Perform(r.db, CallOf(r, m).value).Ok? {
        AppendIsNext(r, deployments, m);
        AppendedChain(r, deployments, CallOf(r, m).value);
      }
    } else if CallOf(r, m).Some? {
      OthersContinue(r, deployments, CallOf(r, m).value, token);
    }
  }

  lemma MoveKeepsSound(r: Runs, deployments: map<Contract, nat>, m: Move)
    requires Sound(r, deployments)
    ensures Sound(Make(r, deployments, m), deployments)
  {
    var r' := Make(r, deployments, m);
    forall c ensures Grounded(r', deployments, c) { MoveKeepsGround(r, deployments, m, c); }
    MoveKeepsPlans(r, deployments, m);
    forall c | c in r'.db.leases ensures r'.db.leases[c].owner in r'.sessions {
      MadeTables(r, deployments, m);
      if CallOf(r, m).Some? { OwnersAfter(r, deployments, CallOf(r, m).value, c); }
    }
  }

  lemma MoveKeepsPlans(r: Runs, deployments: map<Contract, nat>, m: Move)
    requires Sound(r, deployments)
    ensures PlansContinue(Make(r, deployments, m), deployments)
  {
    var r' := Make(r, deployments, m);
    forall token | token in r'.sessions && r'.sessions[token].next.Some?
      ensures var c := r'.sessions[token].c;
              c in r'.db.leases && r'.db.leases[c].owner == token ==>
                r'.sessions[token].next.value == S.Next(ChainOf(r', c), DeploymentOf(deployments, c))
    {
      MoveKeepsPlan(r, deployments, m, token);
    }
  }

  ghost function MakeAll(r: Runs, deployments: map<Contract, nat>, ms: seq<Move>): Runs
    decreases |ms|
  {
    if ms == [] then r else MakeAll(Make(r, deployments, ms[0]), deployments, ms[1..])
  }

  lemma {:induction false} RunStaysSound(r: Runs, deployments: map<Contract, nat>, ms: seq<Move>)
    requires Sound(r, deployments)
    ensures Sound(MakeAll(r, deployments, ms), deployments)
    decreases |ms|
  {
    if ms != [] {
      MoveKeepsSound(r, deployments, ms[0]);
      RunStaysSound(Make(r, deployments, ms[0]), deployments, ms[1..]);
    }
  }

  /** Over every interleaving of synchronizer runs each chain starts at its deployment block, as a run requires. */
  lemma ChainsStartAtDeployment(deployments: map<Contract, nat>, ms: seq<Move>, c: Contract)
    ensures var r := MakeAll(Runs(EMPTY, map[], map[]), deployments, ms);
            S.Based(r.db, c, DeploymentOf(deployments, c), ChainOf(r, c))
  {
    var r0 := Runs(EMPTY, map[], map[]);
    forall d ensures Grounded(r0, deployments, d) { EmptyRepresents(d); }
    RunStaysSound(r0, deployments, ms);
    assert Grounded(MakeAll(r0, deployments, ms), deployments, c);
  }
}
