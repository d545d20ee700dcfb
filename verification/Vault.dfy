/**
 The vault ledger: balances and their invariant, and the transition that applies
 one command.
 */
module Vault {
  import opened Prelude
  import Money

  datatype VaultError =
    | InvalidId | UnsupportedScope | InvalidStatus | InvalidRevision | AmountOverflow | NonCanonicalAmount
    | EmptyReservation | NegativeActiveEquity | UnfundedFeeLiability | FeeConservation | EquityConservation
    | HistoryMismatch | Forbidden | IdempotencyConflict | RevisionConflict | HistoryLimit | NonPositiveAmount
    | InsufficientIdle | AllowanceExceeded | InsufficientActiveCash | WithdrawalNotPending | NoActiveFunds
    | NotRunning | DuplicateOrder | OrderNotPending | NoPosition | PendingOrders | PolicyRequired
    | InvalidTestFee | InvalidExcess | ExcessFeePayment

  datatype Role = Owner | Executor
  datatype Actor = Actor(id: string, role: Role)
  datatype Status = Stopped | Running | Stopping

  datatype Body =
    | Deposit(amount: string)
    | Allocate(amount: string)
    | Deallocate(amount: string)
    | RequestWithdrawal(amount: string)
    | ConfirmWithdrawal(withdrawalId: string)
    | CancelWithdrawal(withdrawalId: string)
    | Start
    | Stop
    | ReserveBuy(orderId: string, amount: string)
    | CancelOrder(orderId: string)
    | FillBuy(orderId: string)
    | MarkPosition(value: string)
    | SettlePosition(proceeds: string)
    | PayFees(amount: string)

  /** The name of a command's type, which is all an event keeps of its body. */
  datatype Kind =
    | KDeposit | KAllocate | KDeallocate | KRequestWithdrawal | KConfirmWithdrawal | KCancelWithdrawal | KStart
    | KStop | KReserveBuy | KCancelOrder | KFillBuy | KMarkPosition | KSettlePosition | KPayFees

  function KindOf(b: Body): Kind {
    match b
    case Deposit(_) => KDeposit
    case Allocate(_) => KAllocate
    case Deallocate(_) => KDeallocate
    case RequestWithdrawal(_) => KRequestWithdrawal
    case ConfirmWithdrawal(_) => KConfirmWithdrawal
    case CancelWithdrawal(_) => KCancelWithdrawal
    case Start => KStart
    case Stop => KStop
    case ReserveBuy(_, _) => KReserveBuy
    case CancelOrder(_) => KCancelOrder
    case FillBuy(_) => KFillBuy
    case MarkPosition(_) => KMarkPosition
    case SettlePosition(_) => KSettlePosition
    case PayFees(_) => KPayFees
  }

  datatype Command = Command(id: string, expectedRevision: int, body: Body)

  /** The text under which a command is remembered; two are equal exactly when these parts are. */
  datatype Fingerprint = Fingerprint(actor: Actor, command: Command, policyId: Option<string>)

  datatype Receipt = Receipt(fingerprint: Fingerprint, revision: int)
  datatype Event = Event(revision: int, commandId: string, kind: Kind, actorId: string)

  /** The amounts of the ledger. */
  datatype Books = Books(
    idle: int, cash: int, cost: int, value: int, liability: int, deposits: int, paid: int, pnl: int,
    accrued: int, feesPaid: int)

  datatype State = State(
    id: string, ownerId: string, executorId: string, strategyId: string, passes: int,
    revision: int, status: Status, books: Books,
    orders: map<string, int>, pending: map<string, int>,
    receipts: map<string, Receipt>, events: seq<Event>)

  datatype Quote = Quote(proceeds: int, cost: int, cash: int, liability: int, allowance: int)
  datatype Assessment = Assessment(fee: int, excess: int)
  datatype Policy = Policy(testOnly: bool, id: string, assess: Quote -> Assessment)

  const UNIT := 1000000
  const MAX_REVISION := 10000

  predicate IdHead(c: char) { 'A' <= c <= 'Z' || 'a' <= c <= 'z' || '0' <= c <= '9' }

  predicate ValidId(id: string) {
    1 <= |id| <= 80 && IdHead(id[0]) && forall c <- id :: IdHead(c) || c == '_' || c == '-'
  }

  /** The sum of the amounts of a map. */
  ghost function Sum(m: map<string, int>): int
    decreases |m|
  {
    if m == map[] then 0
    else
      var k :| k in m;
      m[k] + Sum(m - {k})
  }

  lemma {:induction false} SumRemove(m: map<string, int>, k: string)
    requires k in m
    ensures Sum(m) == m[k] + Sum(m - {k})
    decreases |m|
  {
    var j :| j in m && Sum(m) == m[j] + Sum(m - {j});
    if j != k {
      SumRemove(m - {j}, k);
      SumRemove(m - {k}, j);
      assert m - {j} - {k} == m - {k} - {j};
    }
  }

  lemma SumAdd(m: map<string, int>, k: string, x: int)
    requires k !in m
    ensures Sum(m[k := x]) == Sum(m) + x
  {
    SumRemove(m[k := x], k);
    assert m[k := x] - {k} == m;
  }

  lemma {:induction false} SumNonNegative(m: map<string, int>)
    requires forall k :: k in m ==> m[k] >= 0
    ensures Sum(m) >= 0
    decreases |m|
  {
    if m != map[] {
      var k :| k in m;
      SumRemove(m, k);
      SumNonNegative(m - {k});
    }
  }

  // ---- balances -------------------------------------------------------------

  ghost function ActiveNet(s: State): int { s.books.cash + Sum(s.orders) + s.books.value - s.books.liability }

  ghost function Equity(s: State): int { s.books.idle + ActiveNet(s) + Sum(s.pending) }

  function Allowance(s: State): int { s.passes * UNIT }

  // ---- the runtime invariant ------------------------------------------------

  predicate Amount(x: int) { 0 <= x <= Money.MAX_INTEGER }

  /** What reading an amount that does not fit throws. */
  function BadAmount(x: int): VaultError { if x < 0 then NonCanonicalAmount else AmountOverflow }

  predicate NoNegativeAmount(s: State) {
    var b := s.books;
    && s.passes >= 0 && b.idle >= 0 && b.cash >= 0 && b.cost >= 0 && b.value >= 0 && b.liability >= 0
    && b.deposits >= 0 && b.paid >= 0 && b.accrued >= 0 && b.feesPaid >= 0
    && (forall k :: k in s.orders ==> s.orders[k] >= 0) && (forall k :: k in s.pending ==> s.pending[k] >= 0)
  }

  predicate AmountsFit(s: State) {
    var b := s.books;
    && Amount(s.passes) && Amount(b.idle) && Amount(b.cash) && Amount(b.cost) && Amount(b.value)
    && Amount(b.liability) && Amount(b.deposits) && Amount(b.paid) && Amount(b.accrued) && Amount(b.feesPaid)
    && -Money.MAX_INTEGER <= b.pnl <= Money.MAX_INTEGER
    && (forall k :: k in s.orders ==> Amount(s.orders[k]))
    && (forall k :: k in s.pending ==> Amount(s.pending[k]))
    && Amount(Allowance(s))
  }

  predicate Reservations(m: map<string, int>) { forall k :: k in m ==> ValidId(k) && m[k] > 0 }

  predicate IdsValid(s: State) {
    ValidId(s.id) && ValidId(s.ownerId) && ValidId(s.executorId) && ValidId(s.strategyId)
  }

  predicate RevisionFits(s: State) { 0 <= s.revision && IsSafeInteger(s.revision) }

  ghost predicate FeesConserved(b: Books) { b.accrued == b.feesPaid + b.liability }

  ghost predicate EquityConserved(s: State) {
    Equity(s) == s.books.deposits - s.books.paid + s.books.pnl + (s.books.value - s.books.cost) - s.books.accrued
  }

  /** One event and one receipt for each revision, in order. */
  predicate HistoryMatches(s: State) {
    && |s.events| == s.revision && |s.receipts| == s.revision
    && forall i :: 0 <= i < |s.events| ==>
         s.events[i].revision == i + 1 && s.events[i].commandId in s.receipts
         && s.receipts[s.events[i].commandId].revision == i + 1
  }

  /** Everything the runtime check asks for. */
  ghost predicate Consistent(s: State) {
    && IdsValid(s) && RevisionFits(s) && AmountsFit(s) && Reservations(s.orders) && Reservations(s.pending)
    && ActiveNet(s) >= 0 && s.books.liability <= s.books.cash
    && FeesConserved(s.books) && EquityConserved(s) && HistoryMatches(s)
  }

  /** The first amount, in the order of the record, that cannot be read. */
  function FieldFault(s: State): (e: Option<VaultError>)
    ensures e.Some? && NoNegativeAmount(s) ==> e == Some(AmountOverflow)
    ensures AmountsFit(s) ==> e.None?
  {
    var b := s.books;
    if !Amount(s.passes) then Some(BadAmount(s.passes))
    else if !Amount(b.idle) then Some(BadAmount(b.idle))
    else if !Amount(b.cash) then Some(BadAmount(b.cash))
    else if !Amount(b.cost) then Some(BadAmount(b.cost))
    else if !Amount(b.value) then Some(BadAmount(b.value))
    else if !Amount(b.liability) then Some(BadAmount(b.liability))
    else if !Amount(b.deposits) then Some(BadAmount(b.deposits))
    else if !Amount(b.paid) then Some(BadAmount(b.paid))
    else if !Amount(b.accrued) then Some(BadAmount(b.accrued))
    else if !Amount(b.feesPaid) then Some(BadAmount(b.feesPaid))
    else if !(-Money.MAX_INTEGER <= b.pnl <= Money.MAX_INTEGER) then Some(AmountOverflow)
    else None
  }

  /** What is wrong with one entry of a reservation map. */
  function EntryFault(id: string, amount: int): Option<VaultError> {
    if !ValidId(id) then Some(InvalidId)
    else if !Amount(amount) then Some(BadAmount(amount))
    else if amount == 0 then Some(EmptyReservation)
    else None
  }

  predicate Sound(m: map<string, int>) { forall k :: k in m ==> EntryFault(k, m[k]).None? }

  /** The fault of a faulty entry. */
  ghost function MapFault(m: map<string, int>): Option<VaultError> {
    if Sound(m) then None
    else
      var k :| k in m && EntryFault(k, m[k]).Some?;
      EntryFault(k, m[k])
  }

  /** The check around a command: the first thing that does not hold. */
  ghost function Check(s: State): Option<VaultError> {
    if !IdsValid(s) then Some(InvalidId)
    else if !RevisionFits(s) then Some(InvalidRevision)
    else if FieldFault(s).Some? then FieldFault(s)
    else if MapFault(s.orders).Some? then MapFault(s.orders)
    else if MapFault(s.pending).Some? then MapFault(s.pending)
    else if !Amount(Allowance(s)) then Some(BadAmount(Allowance(s)))
    else if ActiveNet(s) < 0 then Some(NegativeActiveEquity)
    else if s.books.liability > s.books.cash then Some(UnfundedFeeLiability)
    else if !FeesConserved(s.books) then Some(FeeConservation)
    else if !EquityConserved(s) then Some(EquityConservation)
    else if !HistoryMatches(s) then Some(HistoryMismatch)
    else None
  }

  function Fresh(id: string, ownerId: string, executorId: string, strategyId: string, passes: int): State {
    State(id, ownerId, executorId, strategyId, passes, 0, Stopped, Books(0, 0, 0, 0, 0, 0, 0, 0, 0, 0),
          map[], map[], map[], [])
  }

  ghost function CreateVault(id: string, ownerId: string, executorId: string, strategyId: string, passes: int)
    : Result<State, VaultError>
  {
    var s := Fresh(id, ownerId, executorId, strategyId, passes);
    if Check(s).Some? then Err(Check(s).value) else Ok(s)
  }

  // ---- commands -------------------------------------------------------------

  predicate ForExecutor(b: Body) {
    b.ReserveBuy? || b.FillBuy? || b.MarkPosition? || b.SettlePosition? || b.ConfirmWithdrawal? || b.PayFees?
  }

  predicate Allowed(s: State, actor: Actor, b: Body) {
    if ForExecutor(b) then actor == Actor(s.executorId, Executor) else actor == Actor(s.ownerId, Owner)
  }

  function AmountText(b: Body): Option<string> {
    match b
    case Deposit(a) => Some(a)
    case Allocate(a) => Some(a)
    case Deallocate(a) => Some(a)
    case RequestWithdrawal(a) => Some(a)
    case ReserveBuy(_, a) => Some(a)
    case PayFees(a) => Some(a)
    case _ => None
  }

  function Parse(text: string): Result<int, VaultError> {
    match Money.Unsigned(text)
    case Ok(n) => Ok(n)
    case Err(e) => Err(if e.AmountOverflow? then AmountOverflow else NonCanonicalAmount)
  }

  function ParsedAmount(b: Body): Result<int, VaultError> {
    if AmountText(b).None? then Ok(0)
    else
      var parsed := Parse(AmountText(b).value);
      if parsed.Ok? && parsed.value == 0 then Err(NonPositiveAmount) else parsed
  }

  function PrintOf(actor: Actor, command: Command, policy: Option<Policy>): Fingerprint {
    Fingerprint(actor, command,
                if command.body.SettlePosition? && policy.Some? then Some(policy.value.id) else None)
  }

  /** The settled books, or why the settlement is refused. */
  function Settled(s: State, text: string, policy: Option<Policy>): Result<State, VaultError> {
    var b := s.books;
    if b.cost <= 0 then Err(NoPosition)
    else if s.orders != map[] then Err(PendingOrders)
    else if policy.None? || !policy.value.testOnly then Err(PolicyRequired)
    else if !ValidId(policy.value.id) then Err(InvalidId)
    else if Parse(text).Err? then Err(Parse(text).error)
    else
      var proceeds := Parse(text).value;
      var a := policy.value.assess(Quote(proceeds, b.cost, b.cash, b.liability, Allowance(s)));
      if !Amount(a.fee) then Err(BadAmount(a.fee))
      else if !Amount(a.excess) then Err(BadAmount(a.excess))
      else if a.fee > (if proceeds > b.cost then proceeds - b.cost else 0) then Err(InvalidTestFee)
      else if a.excess > b.cash + proceeds - (b.liability + a.fee) then Err(InvalidExcess)
      else Ok(s.(books := b.(
        cash := b.cash + proceeds - a.excess, idle := b.idle + a.excess, liability := b.liability + a.fee,
        accrued := b.accrued + a.fee, pnl := b.pnl + proceeds - b.cost, cost := 0, value := 0)))
  }

  /** The branch of the command: the changed ledger, before status, history and check. */
  ghost function Branch(s: State, command: Command, amount: int, policy: Option<Policy>): Result<State, VaultError> {
    var b := s.books;
    var available := b.cash - b.liability;
    match command.body
    case Deposit(_) => Ok(s.(books := b.(idle := b.idle + amount, deposits := b.deposits + amount)))
    case Allocate(_) =>
      if amount > b.idle then Err(InsufficientIdle)
      else if ActiveNet(s) + amount > Allowance(s) then Err(AllowanceExceeded)
      else Ok(s.(books := b.(idle := b.idle - amount, cash := b.cash + amount)))
    case Deallocate(_) =>
      if amount > available then Err(InsufficientActiveCash)
      else Ok(s.(books := b.(cash := b.cash - amount, idle := b.idle + amount)))
    case RequestWithdrawal(_) =>
      if amount > b.idle then Err(InsufficientIdle)
      else Ok(s.(books := b.(idle := b.idle - amount), pending := s.pending[command.id := amount]))
    case ConfirmWithdrawal(w) =>
      if !ValidId(w) then Err(InvalidId)
      else if w !in s.pending then Err(WithdrawalNotPending)
      else Ok(s.(pending := s.pending - {w}, books := b.(paid := b.paid + s.pending[w])))
    case CancelWithdrawal(w) =>
      if !ValidId(w) then Err(InvalidId)
      else if w !in s.pending then Err(WithdrawalNotPending)
      else Ok(s.(pending := s.pending - {w}, books := b.(idle := b.idle + s.pending[w])))
    case Start =>
      if ActiveNet(s) <= 0 then Err(NoActiveFunds)
      else if !s.status.Stopped? then Err(InvalidStatus)
      else Ok(s.(status := Running))
    case Stop => Ok(s.(status := if b.cost > 0 || s.orders != map[] then Stopping else Stopped))
    case ReserveBuy(o, _) =>
      if !ValidId(o) then Err(InvalidId)
      else if !s.status.Running? then Err(NotRunning)
      else if o in s.orders then Err(DuplicateOrder)
      else if amount > available then Err(InsufficientActiveCash)
      else Ok(s.(books := b.(cash := b.cash - amount), orders := s.orders[o := amount]))
    case CancelOrder(o) =>
      if !ValidId(o) then Err(InvalidId)
      else if o !in s.orders then Err(OrderNotPending)
      else Ok(s.(orders := s.orders - {o}, books := b.(cash := b.cash + s.orders[o])))
    case FillBuy(o) =>
      if !ValidId(o) then Err(InvalidId)
      else if o !in s.orders then Err(OrderNotPending)
      else Ok(s.(orders := s.orders - {o}, books := b.(cost := b.cost + s.orders[o], value := b.value + s.orders[o])))
    case MarkPosition(v) =>
      if b.cost <= 0 then Err(NoPosition)
      else if Parse(v).Err? then Err(Parse(v).error)
      else Ok(s.(books := b.(value := Parse(v).value)))
    case SettlePosition(p) => Settled(s, p, policy)
    case PayFees(_) =>
      if amount > b.liability then Err(ExcessFeePayment)
      else Ok(s.(books := b.(liability := b.liability - amount, cash := b.cash - amount, feesPaid := b.feesPaid + amount)))
  }


  /** A vault that was stopping stops when its last order and position are gone. */
  function AutoStop(s: State): State {
    if s.status.Stopping? && s.books.cost == 0 && s.orders == map[] then s.(status := Stopped) else s
  }

  /** The next revision, its receipt and its event. */
  function Recorded(s: State, actor: Actor, command: Command, mark: Fingerprint): State {
    var n := s.revision + 1;
    s.(revision := n, receipts := s.receipts[command.id := Receipt(mark, n)],
       events := s.events + [Event(n, command.id, KindOf(command.body), actor.id)])
  }

  /** The guards every command passes before its branch. */
  ghost function Refusal(s: State, actor: Actor, command: Command): Option<VaultError> {
    if Check(s).Some? then Check(s)
    else if !ValidId(command.id) then Some(InvalidId)
    else if !Allowed(s, actor, command.body) then Some(Forbidden)
    else None
  }

  datatype Outcome = Applied(state: State) | Replayed | Refused(error: VaultError)

  ghost function Execute(s: State, actor: Actor, command: Command, policy: Option<Policy>): Outcome {
    var mark := PrintOf(actor, command, policy);
    if Refusal(s, actor, command).Some? then Refused(Refusal(s, actor, command).value)
    else if command.id in s.receipts then
      if s.receipts[command.id].fingerprint == mark then Replayed else Refused(IdempotencyConflict)
    else if command.expectedRevision != s.revision then Refused(RevisionConflict)
    else if s.revision >= MAX_REVISION then Refused(HistoryLimit)
    else if ParsedAmount(command.body).Err? then Refused(ParsedAmount(command.body).error)
    else
      var branch := Branch(s, command, ParsedAmount(command.body).value, policy);
      if branch.Err? then Refused(branch.error)
      else
        var next := Recorded(AutoStop(branch.value), actor, command, mark);
        if Check(next).Some? then Refused(Check(next).value) else Applied(next)
  }
}
