/**
 Wallet operations and their eleven-state lifecycle: creation, the transition
 table, and the evidence check every stored row has to pass.
 */
module Lifecycle {
  import opened Prelude

  // Addresses and hashes are hexadecimal texts of a fixed length which the source
  // compares after lower-casing: the numbers they spell.
  type Address = nat
  type Hash = nat

  // A timestamp text either denotes an instant or does not parse.
  datatype Time = Instant(ms: int) | Malformed

  datatype State =
    | AwaitingSignature | Submitted | Mined | Confirming | Confirmed | Rejected
    | Reverted | Replaced | Dropped | Reorged | ReconciliationFailed

  datatype Receipt = Success | Revert

  datatype ErrorCode =
    | WalletRejected | TransactionReverted | TransactionReplaced | TransactionDropped
    | ChainReorg | EventEvidenceMismatch | ContractStateMismatch | RpcUnavailable

  datatype Operation = Operation(
    id: string,
    chainId: nat,
    owner: Address,
    target: Address,
    calldata: Option<string>,
    state: State,
    txHash: Option<Hash>,
    submittedAt: Option<Time>,
    blockNumber: Option<int>,
    blockHash: Option<Hash>,
    transactionIndex: Option<int>,
    receipt: Option<Receipt>,
    confirmations: int,
    replacement: Option<Hash>,
    canonical: bool,
    reconciled: bool,
    confirmedAt: Option<Time>,
    error: Option<ErrorCode>)

  datatype Transition =
    | ToSubmitted(txHash: Hash, at: Time)
    | ToRejected
    | ToMined(blockNumber: int, blockHash: Hash, index: Option<int>)
    | ToReverted(blockNumber: int, blockHash: Hash, index: Option<int>)
    | ToConfirming(confirmations: int, reconciled: Option<bool>)
    | ToConfirmed(confirmations: int, confirmedAt: Time, isReconciled: bool)
    | ToReplaced(newHash: Option<Hash>)
    | ToDropped
    | ToReorged
    | ToReconciliationFailed(stateMismatch: bool)

  datatype LifecycleError =
    | InvalidOperationId | InvalidChainId | InvalidTransition | InvalidSubmittedAt
    | InvalidBlockNumber | InvalidTransactionIndex | InvalidConfirmationCount
    | ReconciliationRequired | InvalidConfirmedAt | ReplacementHashRequired
    | ReplacementHashMustDiffer

  /** The states the transition table allows after `s`. */
  function Successors(s: State): set<State> {
    match s
    case AwaitingSignature => {Submitted, Rejected}
    case Submitted => {Mined, Reverted, Replaced, Dropped}
    case Mined => {Confirming, ReconciliationFailed, Reorged}
    case Confirming => {Confirming, Confirmed, ReconciliationFailed, Reorged}
    case Confirmed => {Reorged}
    case Rejected => {}
    case Reverted => {Reorged}
    case Replaced => {}
    case Dropped => {}
    case Reorged => {Mined, Reverted, Replaced, Dropped}
    case ReconciliationFailed => {Confirming, Reorged}
  }

  function Target(u: Transition): State {
    match u
    case ToSubmitted(_, _) => Submitted
    case ToRejected => Rejected
    case ToMined(_, _, _) => Mined
    case ToReverted(_, _, _) => Reverted
    case ToConfirming(_, _) => Confirming
    case ToConfirmed(_, _, _) => Confirmed
    case ToReplaced(_) => Replaced
    case ToDropped => Dropped
    case ToReorged => Reorged
    case ToReconciliationFailed(_) => ReconciliationFailed
  }

  predicate IdHead(c: char) { 'A' <= c <= 'Z' || 'a' <= c <= 'z' || '0' <= c <= '9' }

  /** A letter or digit followed by up to 127 letters, digits, `_` or `-`. */
  predicate ValidOperationId(id: string) {
    1 <= |id| <= 128 && IdHead(id[0]) && forall c <- id :: IdHead(c) || c == '_' || c == '-'
  }

  function Create(id: string, chainId: nat, owner: Address, target: Address, calldata: Option<string>)
    : Result<Operation, LifecycleError>
  {
    if !ValidOperationId(id) then Err(InvalidOperationId)
    else if !IsSafeInteger(chainId) || chainId == 0 then Err(InvalidChainId)
    else Ok(Fresh(id, chainId, owner, target, calldata))
  }

  function Fresh(id: string, chainId: nat, owner: Address, target: Address, calldata: Option<string>): Operation {
    Operation(id, chainId, owner, target, calldata, AwaitingSignature, None, None, None, None, None, None,
              0, None, false, false, None, None)
  }

  predicate ValidIndex(index: Option<int>) {
    index.Some? ==> 0 <= index.value && IsSafeInteger(index.value)
  }

  function Apply(op: Operation, u: Transition): Result<Operation, LifecycleError> {
    if Target(u) !in Successors(op.state) then Err(InvalidTransition) else
    match u
    case ToSubmitted(tx, at) =>
      if at.Malformed? then Err(InvalidSubmittedAt)
      else Ok(op.(state := Submitted, txHash := Some(tx), submittedAt := Some(at), error := None))
    case ToRejected =>
      Ok(op.(state := Rejected, canonical := false, reconciled := false, confirmedAt := None,
             error := Some(WalletRejected)))
    case ToDropped =>
      Ok(op.(state := Dropped, canonical := false, reconciled := false, confirmedAt := None,
             error := Some(TransactionDropped)))
    case ToMined(n, h, index) =>
      if n < 0 then Err(InvalidBlockNumber)
      else if !ValidIndex(index) then Err(InvalidTransactionIndex)
      else Ok(op.(state := Mined, blockNumber := Some(n), blockHash := Some(h), transactionIndex := index,
                  receipt := Some(Success), confirmations := 0, canonical := true, reconciled := false,
                  confirmedAt := None, error := None))
    case ToReverted(n, h, index) =>
      if n < 0 then Err(InvalidBlockNumber)
      else if !ValidIndex(index) then Err(InvalidTransactionIndex)
      else Ok(op.(state := Reverted, blockNumber := Some(n), blockHash := Some(h), transactionIndex := index,
                  receipt := Some(Revert), confirmations := 0, canonical := true, reconciled := false,
                  confirmedAt := None, error := Some(TransactionReverted)))
    case ToConfirming(count, reconciled) =>
      if !IsSafeInteger(count) || count < op.confirmations then Err(InvalidConfirmationCount)
      else Ok(op.(state := Confirming, confirmations := count,
                  reconciled := if reconciled.Some? then reconciled.value else op.reconciled,
                  confirmedAt := None, error := None))
    case ToConfirmed(count, at, reconciled) =>
      if !reconciled then Err(ReconciliationRequired)
      else if !IsSafeInteger(count) || count < op.confirmations then Err(InvalidConfirmationCount)
      else if at.Malformed? then Err(InvalidConfirmedAt)
      else Ok(op.(state := Confirmed, confirmations := count, reconciled := true, confirmedAt := Some(at),
                  canonical := true, error := None))
    case ToReplaced(newHash) =>
      if newHash.None? then Err(ReplacementHashRequired)
      else if op.txHash == newHash then Err(ReplacementHashMustDiffer)
      else Ok(op.(state := Replaced, replacement := newHash, canonical := false, reconciled := false,
                  confirmedAt := None, error := Some(TransactionReplaced)))
    case ToReorged =>
      Ok(op.(state := Reorged, canonical := false, reconciled := false, confirmedAt := None,
             error := Some(ChainReorg)))
    case ToReconciliationFailed(stateMismatch) =>
      Ok(op.(state := ReconciliationFailed, reconciled := false, confirmedAt := None,
             error := Some(if stateMismatch then ContractStateMismatch else EventEvidenceMismatch)))
  }

  predicate ValidTime(t: Option<Time>) { t.Some? && t.value.Instant? }

  predicate NoBlock(op: Operation) {
    op.blockNumber.None? && op.blockHash.None? && op.transactionIndex.None? && op.receipt.None?
  }

  predicate InBlock(op: Operation, r: Receipt) {
    op.blockNumber.Some? && op.blockHash.Some? && op.receipt == Some(r)
  }

  predicate WasInBlock(op: Operation) {
    op.blockNumber.Some? && op.blockHash.Some? && op.receipt.Some?
  }

  /** The check the store makes before it writes an operation row. */
  predicate ValidEvidence(op: Operation) {
    var submitted := op.txHash.Some? && ValidTime(op.submittedAt);
    var unsubmitted := op.txHash.None? && op.submittedAt.None? && NoBlock(op) && op.confirmations == 0;
    var displaced := (NoBlock(op) && op.confirmations == 0) || WasInBlock(op);
    var pending := op.confirmedAt.None? && !op.canonical && !op.reconciled;
    ValidIndex(op.transactionIndex) &&
    match op.state
    case AwaitingSignature => unsubmitted && op.replacement.None? && pending && op.error.None?
    case Submitted =>
      submitted && NoBlock(op) && op.confirmations == 0 && op.replacement.None? && pending && op.error.None?
    case Mined =>
      submitted && InBlock(op, Success) && op.confirmations == 0 && op.replacement.None? && op.canonical &&
      !op.reconciled && op.confirmedAt.None? && op.error.None?
    case Confirming =>
      submitted && InBlock(op, Success) && op.replacement.None? && op.canonical && op.confirmedAt.None? &&
      op.error.None?
    case Confirmed =>
      submitted && InBlock(op, Success) && op.replacement.None? && op.canonical && op.reconciled &&
      ValidTime(op.confirmedAt) && op.error.None?
    case Rejected => unsubmitted && op.replacement.None? && pending && op.error == Some(WalletRejected)
    case Reverted =>
      submitted && InBlock(op, Revert) && op.replacement.None? && op.canonical && !op.reconciled &&
      op.confirmedAt.None? && op.error == Some(TransactionReverted)
    case Replaced =>
      submitted && displaced && op.replacement.Some? && pending && op.error == Some(TransactionReplaced)
    case Dropped =>
      submitted && displaced && op.replacement.None? && pending && op.error == Some(TransactionDropped)
    case Reorged =>
      submitted && WasInBlock(op) && op.replacement.None? && pending && op.error == Some(ChainReorg)
    case ReconciliationFailed =>
      submitted && InBlock(op, Success) && op.replacement.None? && op.canonical && !op.reconciled &&
      op.confirmedAt.None? && op.error in {Some(EventEvidenceMismatch), Some(ContractStateMismatch)}
  }

  /** Facts every operation has that the evidence check does not ask for. */
  predicate Unchecked(op: Operation) {
    && ValidOperationId(op.id)
    && 0 < op.chainId && IsSafeInteger(op.chainId)
    && 0 <= op.confirmations && IsSafeInteger(op.confirmations)
    && (op.blockNumber.Some? ==> 0 <= op.blockNumber.value)
    && (op.receipt == Some(Revert) ==> op.confirmations == 0)
    && (op.replacement.Some? ==> op.replacement != op.txHash)
  }

  /** Applies a whole run of transitions; the first illegal one is the result. */
  function Run(op: Operation, us: seq<Transition>): Result<Operation, LifecycleError>
    decreases |us|
  {
    if us == [] then Ok(op) else
    match Apply(op, us[0])
    case Err(e) => Err(e)
    case Ok(next) => Run(next, us[1..])
  }

  lemma ApplyKeepsRest(op: Operation, u: Transition)
    requires ValidEvidence(op) && Unchecked(op) && Apply(op, u).Ok?
    ensures var next := Apply(op, u).value;
            Unchecked(next) && next.state == Target(u)
            && next.id == op.id && next.chainId == op.chainId && next.owner == op.owner
            && next.target == op.target && next.calldata == op.calldata
  {
    hide ValidOperationId;
  }

  /** A transition into a block keeps the evidence check. */
  lemma ApplyInBlock(op: Operation, u: Transition)
    requires ValidEvidence(op) && Unchecked(op) && Apply(op, u).Ok?
    requires u.ToMined? || u.ToReverted? || u.ToConfirming? || u.ToConfirmed? || u.ToReconciliationFailed?
    ensures ValidEvidence(Apply(op, u).value) && (op.txHash.Some? ==> Apply(op, u).value.txHash == op.txHash)
  {
    hide ValidOperationId;
  }

  /** So does a transition out of one, or before any. */
  lemma ApplyOutOfBlock(op: Operation, u: Transition)
    requires ValidEvidence(op) && Unchecked(op) && Apply(op, u).Ok?
    requires !(u.ToMined? || u.ToReverted? || u.ToConfirming? || u.ToConfirmed? || u.ToReconciliationFailed?)
    ensures ValidEvidence(Apply(op, u).value) && (op.txHash.Some? ==> Apply(op, u).value.txHash == op.txHash)
  {
    hide ValidOperationId;
  }

  /** Legal transitions keep the evidence check, from any operation that passes it. */
  lemma ApplyKeepsEvidence(op: Operation, u: Transition)
    requires ValidEvidence(op) && Unchecked(op)
    requires Apply(op, u).Ok?
    ensures var next := Apply(op, u).value;
            ValidEvidence(next) && Unchecked(next) && next.state == Target(u)
            && next.id == op.id && next.chainId == op.chainId && next.owner == op.owner
            && next.target == op.target && next.calldata == op.calldata
            && (op.txHash.Some? ==> next.txHash == op.txHash)
  {
    hide *;
    ApplyKeepsRest(op, u);
    if u.ToMined? || u.ToReverted? || u.ToConfirming? || u.ToConfirmed? || u.ToReconciliationFailed? {
      ApplyInBlock(op, u);
    } else {
      ApplyOutOfBlock(op, u);
    }
  }

  /**
   Every operation reachable from creation, over any run of transitions, passes
   the evidence check, so no row the lifecycle produced is ever refused.
   */
  lemma {:induction false} ReachableIsValid(op: Operation, us: seq<Transition>)
    requires ValidEvidence(op) && Unchecked(op)
    requires Run(op, us).Ok?
    ensures ValidEvidence(Run(op, us).value) && Unchecked(Run(op, us).value)
    decreases |us|
  {
    if us != [] {
      ApplyKeepsEvidence(op, us[0]);
      ReachableIsValid(Apply(op, us[0]).value, us[1..]);
    }
  }

  /** A run that reaches `op`'s inclusion in a block, with its confirmations. */
  function Inclusion(op: Operation): seq<Transition>
    requires op.txHash.Some? && op.submittedAt.Some? && WasInBlock(op)
  {
    [ToSubmitted(op.txHash.value, op.submittedAt.value)] +
    if op.receipt.value.Revert? then [ToReverted(op.blockNumber.value, op.blockHash.value, op.transactionIndex)]
    else [ToMined(op.blockNumber.value, op.blockHash.value, op.transactionIndex)]
  }

  /** Counting the confirmations of a successful inclusion. */
  function Counted(op: Operation): seq<Transition> {
    if op.receipt.Some? && op.receipt.value.Success? then [ToConfirming(op.confirmations, Some(op.reconciled))] else []
  }

  /** The transitions after the count (or instead of inclusion) that end in `op.state`. */
  function Tail(op: Operation): seq<Transition>
    requires op.state == Confirmed ==> op.confirmedAt.Some?
  {
    var displaced := if op.receipt.Some? then [ToReorged] else [];
    match op.state
    case Rejected => [ToRejected]
    case Confirmed => [ToConfirmed(op.confirmations, op.confirmedAt.value, true)]
    case Replaced => displaced + [ToReplaced(op.replacement)]
    case Dropped => displaced + [ToDropped]
    case Reorged => displaced
    case ReconciliationFailed => [ToReconciliationFailed(op.error == Some(ContractStateMismatch))]
    case _ => []
  }

  function Ending(op: Operation): seq<Transition>
    requires op.state == Confirmed ==> op.confirmedAt.Some?
  {
    if op.state.Mined? then [] else Counted(op) + Tail(op)
  }

  function Witness(op: Operation): seq<Transition>
    requires ValidEvidence(op)
  {
    if op.txHash.None? then Ending(op)
    else if op.receipt.None? then [ToSubmitted(op.txHash.value, op.submittedAt.value)] + Ending(op)
    else Inclusion(op) + Ending(op)
  }

  lemma {:induction false} RunConcat(op: Operation, us: seq<Transition>, vs: seq<Transition>)
    requires Run(op, us).Ok?
    ensures Run(op, us + vs) == Run(Run(op, us).value, vs)
    decreases |us|
  {
    if us == [] {
      assert us + vs == vs;
    } else {
      assert (us + vs)[0] == us[0] && (us + vs)[1..] == us[1..] + vs;
      RunConcat(Apply(op, us[0]).value, us[1..], vs);
    }
  }

  function Origin(op: Operation): Operation {
    Fresh(op.id, op.chainId, op.owner, op.target, op.calldata)
  }

  lemma RunCons(op: Operation, u: Transition, us: seq<Transition>)
    requires Apply(op, u).Ok?
    ensures Run(op, [u] + us) == Run(Apply(op, u).value, us)
  {
    assert ([u] + us)[1..] == us;
  }

  lemma RunNone(op: Operation)
    ensures Run(op, []) == Ok(op)
  {}

  lemma RunOne(op: Operation, u: Transition)
    requires Apply(op, u).Ok?
    ensures Run(op, [u]) == Apply(op, u)
  {
    RunCons(op, u, []);
    assert [u] + [] == [u];
  }

  lemma InclusionRuns(op: Operation)
    requires ValidEvidence(op) && Unchecked(op) && op.receipt.Some?
    ensures var mid := Run(Origin(op), Inclusion(op));
            mid.Ok? && Run(mid.value, Ending(op)) == Ok(op)
  {
    var s := Origin(op);
    var us := Inclusion(op);
    RunCons(s, us[0], [us[1]]);
    assert us == [us[0]] + [us[1]];
    var one := s.(state := Submitted, txHash := op.txHash, submittedAt := op.submittedAt);
    assert Apply(s, us[0]) == Ok(one);
    RunOne(one, us[1]);
    assert Apply(one, us[1]) == Ok(Included(op));
    EndingRuns(op);
  }

  /** The operation right after its inclusion in a block. */
  function Included(op: Operation): Operation
    requires op.receipt.Some?
  {
    var reverted := op.receipt.value.Revert?;
    op.(state := if reverted then Reverted else Mined, confirmations := 0, replacement := None, canonical := true,
        reconciled := false, confirmedAt := None, error := if reverted then Some(TransactionReverted) else None)
  }

  /** ... and after its confirmations have been counted. */
  function Confirmations(op: Operation): Operation
    requires op.receipt.Some?
  {
    if op.receipt.value.Revert? then Included(op)
    else Included(op).(state := Confirming, confirmations := op.confirmations, reconciled := op.reconciled)
  }

  lemma CountedRuns(op: Operation)
    requires Unchecked(op) && op.receipt.Some?
    ensures Run(Included(op), Counted(op)) == Ok(Confirmations(op))
  {
    if op.receipt.value.Success? {
      RunOne(Included(op), Counted(op)[0]);
    }
  }

  lemma TailRuns(op: Operation)
    requires ValidEvidence(op) && Unchecked(op) && op.receipt.Some? && !op.state.Mined?
    ensures Run(Confirmations(op), Tail(op)) == Ok(op)
  {
    hide Run;
    var us, from := Tail(op), Confirmations(op);
    RunNone(from);
    if us != [] {
      var one := Apply(from, us[0]).value;
      RunCons(from, us[0], us[1..]);
      assert us == [us[0]] + us[1..];
      if |us| > 1 {
        RunOne(one, us[1]);
        assert us[1..] == [us[1]];
      } else {
        assert us[1..] == [];
        RunNone(one);
      }
    }
  }

  lemma EndingRuns(op: Operation)
    requires ValidEvidence(op) && Unchecked(op) && op.receipt.Some?
    ensures Run(Included(op), Ending(op)) == Ok(op)
  {
    if op.state.Mined? {
      assert Included(op) == op;
    } else {
      CountedRuns(op);
      TailRuns(op);
      RunConcat(Included(op), Counted(op), Tail(op));
    }
  }

  lemma WitnessRuns(op: Operation)
    requires ValidEvidence(op) && Unchecked(op)
    ensures Run(Origin(op), Witness(op)) == Ok(op)
  {
    var s := Origin(op);
    if op.receipt.Some? {
      InclusionRuns(op);
      RunConcat(s, Inclusion(op), Ending(op));
    } else {
      var us := Witness(op);
      if us != [] {
        RunCons(s, us[0], us[1..]);
        assert us == [us[0]] + us[1..];
        if |us| > 1 {
          RunOne(Apply(s, us[0]).value, us[1]);
          assert us[1..] == [us[1]];
        }
      }
    }
  }

  /**
   The evidence check is exact: up to the facts it does not look at, it accepts
   precisely the operations some run of legal transitions produces.
   */
  lemma EvidenceIsExact(op: Operation)
    ensures (exists us :: Create(op.id, op.chainId, op.owner, op.target, op.calldata).Ok?
                          && Run(Origin(op), us) == Ok(op))
            <==> ValidEvidence(op) && Unchecked(op)
  {
    if ValidEvidence(op) && Unchecked(op) {
      WitnessRuns(op);
    }
    forall us | Create(op.id, op.chainId, op.owner, op.target, op.calldata).Ok? && Run(Origin(op), us) == Ok(op)
      ensures ValidEvidence(op) && Unchecked(op)
    {
      ReachableIsValid(Origin(op), us);
    }
  }

  /** The states the store's rollback statement selects. */
  predicate RolledBackState(s: State) {
    s in {Mined, Confirming, Confirmed, Reverted, ReconciliationFailed}
  }

  /** The columns that statement writes. */
  function RolledBack(op: Operation): Operation {
    op.(state := Reorged, canonical := false, reconciled := false, confirmedAt := None, error := Some(ChainReorg))
  }

  /** The bulk update is the REORGED transition, on exactly the rows that allow it. */
  lemma RollbackIsTransition(op: Operation)
    ensures RolledBackState(op.state) <==> Apply(op, ToReorged).Ok?
    ensures RolledBackState(op.state) ==> Apply(op, ToReorged) == Ok(RolledBack(op))
    ensures ValidEvidence(op) ==> (RolledBackState(op.state) <==> op.canonical)
  {}
}
