/**
 The vault as double entry: what each accepted command adds to and takes from each
 account, which reservation it opens or closes, and exactly when it is accepted.
 */
module VaultMoves {
  import opened Prelude
  import opened Vault
  import opened VaultLaws
  import Money

  /** An entry for each account. */
  type Entries = Books

  const NO_ENTRY: Entries := Books(0, 0, 0, 0, 0, 0, 0, 0, 0, 0)

  /** Every account after its entry. */
  function Posted(b: Books, e: Entries): Books {
    Books(b.idle + e.idle, b.cash + e.cash, b.cost + e.cost, b.value + e.value, b.liability + e.liability,
          b.deposits + e.deposits, b.paid + e.paid, b.pnl + e.pnl, b.accrued + e.accrued, b.feesPaid + e.feesPaid)
  }

  /** The text is the decimal numeral of an amount. */
  predicate Numeral(text: string) { Money.Canonical(text) && Money.Value(text) <= Money.MAX_INTEGER }

  /** The number a numeral denotes. */
  function Number(text: string): int { if Numeral(text) then Money.Value(text) else 0 }

  lemma NumeralsAreRead(text: string)
    ensures Parse(text).Ok? <==> Numeral(text)
    ensures Parse(text).Ok? ==> Parse(text).value == Number(text)
  {
    if Numeral(text) {
      Money.UnsignedRoundTrip(text, Money.Value(text));
      Money.CanonicalText(text);
    }
  }

  /** What the policy is asked, and its answer. */
  function Answer(s: State, text: string, policy: Policy): Assessment {
    policy.assess(Quote(Number(text), s.books.cost, s.books.cash, s.books.liability, Allowance(s)))
  }

  /** The reservation a command names. */
  function Named(m: map<string, int>, id: string): int { if id in m then m[id] else 0 }

  /** What a command adds to each account. */
  function Journal(s: State, body: Body, policy: Option<Policy>): Entries {
    match body
    case Deposit(t) => NO_ENTRY.(idle := Number(t), deposits := Number(t))
    case Allocate(t) => NO_ENTRY.(idle := -Number(t), cash := Number(t))
    case Deallocate(t) => NO_ENTRY.(idle := Number(t), cash := -Number(t))
    case RequestWithdrawal(t) => NO_ENTRY.(idle := -Number(t))
    case ConfirmWithdrawal(w) => NO_ENTRY.(paid := Named(s.pending, w))
    case CancelWithdrawal(w) => NO_ENTRY.(idle := Named(s.pending, w))
    case Start => NO_ENTRY
    case Stop => NO_ENTRY
    case ReserveBuy(_, t) => NO_ENTRY.(cash := -Number(t))
    case CancelOrder(o) => NO_ENTRY.(cash := Named(s.orders, o))
    case FillBuy(o) => NO_ENTRY.(cost := Named(s.orders, o), value := Named(s.orders, o))
    case MarkPosition(t) => NO_ENTRY.(value := Number(t) - s.books.value)
    case SettlePosition(t) =>
      if policy.None? then NO_ENTRY
      else
        var a := Answer(s, t, policy.value);
        NO_ENTRY.(cash := Number(t) - a.excess, idle := a.excess, liability := a.fee, accrued := a.fee,
                  pnl := Number(t) - s.books.cost, cost := -s.books.cost, value := -s.books.value)
    case PayFees(t) => NO_ENTRY.(liability := -Number(t), cash := -Number(t), feesPaid := Number(t))
  }

  function OrdersAfter(s: State, body: Body): map<string, int> {
    match body
    case ReserveBuy(o, t) => s.orders[o := Number(t)]
    case CancelOrder(o) => s.orders - {o}
    case FillBuy(o) => s.orders - {o}
    case _ => s.orders
  }

  function PendingAfter(s: State, command: Command): map<string, int> {
    match command.body
    case RequestWithdrawal(t) => s.pending[command.id := Number(t)]
    case ConfirmWithdrawal(w) => s.pending - {w}
    case CancelWithdrawal(w) => s.pending - {w}
    case _ => s.pending
  }

  /** The status asked for, or the present one; a vault with nothing open is not left stopping. */
  predicate StatusFits(s: State, body: Body, n: State) {
    var open := n.books.cost > 0 || n.orders != map[];
    match body
    case Start => n.status == Running
    case Stop => n.status == if open then Stopping else Stopped
    case _ => n.status == if s.status == Stopping && !open then Stopped else s.status
  }

  /** Who may give a command. */
  predicate Entitled(s: State, actor: Actor, body: Body) {
    match body
    case ConfirmWithdrawal(_) => actor == Actor(s.executorId, Executor)
    case ReserveBuy(_, _) => actor == Actor(s.executorId, Executor)
    case FillBuy(_) => actor == Actor(s.executorId, Executor)
    case MarkPosition(_) => actor == Actor(s.executorId, Executor)
    case SettlePosition(_) => actor == Actor(s.executorId, Executor)
    case PayFees(_) => actor == Actor(s.executorId, Executor)
    case _ => actor == Actor(s.ownerId, Owner)
  }

  predicate Between(text: string, most: int) { Numeral(text) && 0 < Number(text) <= most }

  /** What a command asks of the ledger. */
  ghost predicate Covered(s: State, body: Body, policy: Option<Policy>) {
    var free := s.books.cash - s.books.liability;
    match body
    case Deposit(t) => Between(t, Money.MAX_INTEGER)
    case Allocate(t) => Between(t, s.books.idle) && ActiveNet(s) + Number(t) <= Allowance(s)
    case Deallocate(t) => Between(t, free)
    case RequestWithdrawal(t) => Between(t, s.books.idle)
    case ConfirmWithdrawal(w) => w in s.pending
    case CancelWithdrawal(w) => w in s.pending
    case Start => ActiveNet(s) > 0 && s.status == Stopped
    case Stop => true
    case ReserveBuy(o, t) => ValidId(o) && s.status == Running && o !in s.orders && Between(t, free)
    case CancelOrder(o) => o in s.orders
    case FillBuy(o) => o in s.orders
    case MarkPosition(t) => s.books.cost > 0 && Numeral(t)
    case SettlePosition(t) =>
      && s.books.cost > 0 && s.orders == map[] && Numeral(t)
      && policy.Some? && policy.value.testOnly && ValidId(policy.value.id)
      && var a := Answer(s, t, policy.value);
         Amount(a.fee) && Amount(a.excess)
         && (a.fee == 0 || a.fee <= Number(t) - s.books.cost)
         && a.excess <= free + Number(t) - a.fee
    case PayFees(t) => Between(t, s.books.liability)
  }

  /** No account grows past the largest amount. */
  predicate NoOverflow(s: State, body: Body, policy: Option<Policy>) {
    var n := Posted(s.books, Journal(s, body, policy));
    var max := Money.MAX_INTEGER;
    && n.idle <= max && n.cash <= max && n.cost <= max && n.value <= max && n.liability <= max && n.deposits <= max
    && n.paid <= max && -max <= n.pnl <= max && n.accrued <= max && n.feesPaid <= max
  }

  /** The ledger after a command: its entries, its reservation, and nothing else. */
  ghost predicate Ledgered(s: State, command: Command, policy: Option<Policy>, n: State) {
    && n.books == Posted(s.books, Journal(s, command.body, policy))
    && n.orders == OrdersAfter(s, command.body) && n.pending == PendingAfter(s, command)
    && StatusFits(s, command.body, n)
    && n.id == s.id && n.ownerId == s.ownerId && n.executorId == s.executorId && n.strategyId == s.strategyId
    && n.passes == s.passes
  }

  /** The history after a command: one more revision, receipt and event. */
  ghost predicate Remembered(s: State, actor: Actor, command: Command, policy: Option<Policy>, n: State) {
    && n.revision == s.revision + 1
    && n.events == s.events + [Event(n.revision, command.id, KindOf(command.body), actor.id)]
    && n.receipts.Keys == s.receipts.Keys + {command.id}
    && (forall id :: id in s.receipts && id != command.id ==> n.receipts[id] == s.receipts[id])
    && n.receipts[command.id].revision == n.revision
    && var mark := n.receipts[command.id].fingerprint;
       mark.actor == actor && mark.command == command
       && mark.policyId == if command.body.SettlePosition? && policy.Some? then Some(policy.value.id) else None
  }

  // ---- the branch posts its entries -----------------------------------------

  lemma AmountsAreNumbers(body: Body)
    requires AmountText(body).Some?
    ensures ParsedAmount(body).Ok? <==> Numeral(AmountText(body).value) && Number(AmountText(body).value) > 0
    ensures ParsedAmount(body).Ok? ==> ParsedAmount(body).value == Number(AmountText(body).value)
  {
    hide Numeral, Parse;
    NumeralsAreRead(AmountText(body).value);
  }

  /** The branch of a covered command is taken, and no other. */
  ghost predicate Taken(s: State, command: Command, policy: Option<Policy>) {
    ParsedAmount(command.body).Ok? && Branch(s, command, ParsedAmount(command.body).value, policy).Ok?
  }

  ghost function After(s: State, command: Command, policy: Option<Policy>): State
    requires Taken(s, command, policy)
  {
    AutoStop(Branch(s, command, ParsedAmount(command.body).value, policy).value)
  }

  ghost predicate Right(s: State, command: Command, policy: Option<Policy>) {
    && (Taken(s, command, policy) <==> Covered(s, command.body, policy))
    && (Taken(s, command, policy) ==> Ledgered(s, command, policy, After(s, command, policy)))
  }

  lemma DepositBranch(s: State, command: Command, policy: Option<Policy>)
    requires Reachable(s) && command.body.Deposit?
    ensures Right(s, command, policy)
  {
    hide ParsedAmount, Numeral, Check, ActiveNet;
    AmountsAreNumbers(command.body);
    NumberFits(command.body.amount);
    CostIsNotNegative(s);
  }

  lemma ShiftBranch(s: State, command: Command, policy: Option<Policy>)
    requires Reachable(s) && (command.body.Allocate? || command.body.Deallocate?)
    ensures Right(s, command, policy)
  {
    hide ParsedAmount, Numeral, Check, ActiveNet;
    AmountsAreNumbers(command.body);
    CostIsNotNegative(s);
  }

  lemma RequestBranch(s: State, command: Command, policy: Option<Policy>)
    requires Reachable(s) && command.body.RequestWithdrawal?
    ensures Right(s, command, policy)
  {
    hide ParsedAmount, Numeral, Check, ActiveNet;
    AmountsAreNumbers(command.body);
    CostIsNotNegative(s);
  }

  lemma FeesBranch(s: State, command: Command, policy: Option<Policy>)
    requires Reachable(s) && command.body.PayFees?
    ensures Right(s, command, policy)
  {
    hide ParsedAmount, Numeral, Check, ActiveNet;
    AmountsAreNumbers(command.body);
    CostIsNotNegative(s);
  }

  lemma NumberFits(text: string)
    ensures 0 <= Number(text) <= Money.MAX_INTEGER
  {}

  lemma CostIsNotNegative(s: State)
    requires Reachable(s)
    ensures s.books.cost >= 0 && s.books.liability <= s.books.cash
    ensures Reservations(s.orders) && Reservations(s.pending)
  {
    ReachableIsBalanced(s);
  }

  lemma ReserveBranch(s: State, command: Command, policy: Option<Policy>)
    requires Reachable(s) && command.body.ReserveBuy?
    ensures Right(s, command, policy)
  {
    hide ParsedAmount, Numeral, Check, ActiveNet;
    AmountsAreNumbers(command.body);
    CostIsNotNegative(s);
  }

  lemma WithdrawalBranch(s: State, command: Command, policy: Option<Policy>)
    requires Reachable(s) && (command.body.ConfirmWithdrawal? || command.body.CancelWithdrawal?)
    ensures Right(s, command, policy)
  {
    hide Check, ActiveNet, ValidId;
    CostIsNotNegative(s);
  }

  lemma OrderBranch(s: State, command: Command, policy: Option<Policy>)
    requires Reachable(s) && (command.body.CancelOrder? || command.body.FillBuy?)
    ensures Right(s, command, policy)
  {
    hide Check, ActiveNet, ValidId;
    CostIsNotNegative(s);
  }

  lemma StatusBranch(s: State, command: Command, policy: Option<Policy>)
    requires Reachable(s) && (command.body.Start? || command.body.Stop?)
    ensures Right(s, command, policy)
  {
    hide Check, ActiveNet;
    CostIsNotNegative(s);
  }

  lemma MarkBranch(s: State, command: Command, policy: Option<Policy>)
    requires Reachable(s) && command.body.MarkPosition?
    ensures Right(s, command, policy)
  {
    hide Parse, Numeral, Check, ActiveNet;
    NumeralsAreRead(command.body.value);
    CostIsNotNegative(s);
  }

  lemma SettleBranch(s: State, command: Command, policy: Option<Policy>)
    requires Reachable(s) && command.body.SettlePosition?
    ensures Right(s, command, policy)
  {
    hide Parse, Numeral, Check, ActiveNet, ValidId;
    NumeralsAreRead(command.body.proceeds);
    CostIsNotNegative(s);
  }

  lemma BranchIsRight(s: State, command: Command, policy: Option<Policy>)
    requires Reachable(s)
    ensures Right(s, command, policy)
  {
    hide Right, Reachable;
    match command.body
    case ReserveBuy(_, _) => ReserveBranch(s, command, policy);
    case Deposit(_) => DepositBranch(s, command, policy);
    case Allocate(_) => ShiftBranch(s, command, policy);
    case Deallocate(_) => ShiftBranch(s, command, policy);
    case RequestWithdrawal(_) => RequestBranch(s, command, policy);
    case PayFees(_) => FeesBranch(s, command, policy);
    case Start => StatusBranch(s, command, policy);
    case Stop => StatusBranch(s, command, policy);
    case MarkPosition(_) => MarkBranch(s, command, policy);
    case SettlePosition(_) => SettleBranch(s, command, policy);
    case ConfirmWithdrawal(_) => WithdrawalBranch(s, command, policy);
    case CancelWithdrawal(_) => WithdrawalBranch(s, command, policy);
    case CancelOrder(_) => OrderBranch(s, command, policy);
    case FillBuy(_) => OrderBranch(s, command, policy);
  }

  // ---- the transition -------------------------------------------------------

  /** Everything an accepted command needs. */
  ghost predicate Acceptable(s: State, actor: Actor, command: Command, policy: Option<Policy>) {
    && ValidId(command.id) && Entitled(s, actor, command.body)
    && command.id !in s.receipts && command.expectedRevision == s.revision < MAX_REVISION
    && Covered(s, command.body, policy) && NoOverflow(s, command.body, policy)
  }

  lemma EntitledIsAllowed(s: State, actor: Actor, body: Body)
    ensures Entitled(s, actor, body) <==> Allowed(s, actor, body)
  {}

  lemma PassesIsTaken(s: State, actor: Actor, command: Command, policy: Option<Policy>)
    requires Reachable(s)
    ensures PassesBranch(s, actor, command, policy)
            <==> ValidId(command.id) && Entitled(s, actor, command.body) && command.id !in s.receipts
                 && command.expectedRevision == s.revision < MAX_REVISION && Taken(s, command, policy)
  {
    hide Check, Branch, ParsedAmount, ValidId, Allowed, Entitled;
    EntitledIsAllowed(s, actor, command.body);
  }

  lemma OnlyPassingIsApplied(s: State, actor: Actor, command: Command, policy: Option<Policy>)
    requires Execute(s, actor, command, policy).Applied?
    ensures PassesBranch(s, actor, command, policy)
  {
    hide Check, Branch, ParsedAmount, ValidId, Allowed;
  }

  lemma CandidateIs(s: State, actor: Actor, command: Command, policy: Option<Policy>)
    requires Reachable(s) && Taken(s, command, policy) && command.id !in s.receipts
    ensures var n := Candidate(s, actor, command, policy);
            Remembered(s, actor, command, policy, n)
            && (Ledgered(s, command, policy, After(s, command, policy)) ==> Ledgered(s, command, policy, n))
            && n.books == After(s, command, policy).books
  {
    hide Branch, ParsedAmount, Journal, OrdersAfter, PendingAfter, Check, Tidy, ValidId, StatusFits;
    BranchKeepsRecord(s, command, ParsedAmount(command.body).value, policy);
    var t := After(s, command, policy);
    RecordingRemembers(t, actor, command, policy);
    StatusFitsBooks(s, command.body, t, Recorded(t, actor, command, PrintOf(actor, command, policy)));
  }

  lemma RecordingRemembers(t: State, actor: Actor, command: Command, policy: Option<Policy>)
    requires command.id !in t.receipts
    ensures Remembered(t, actor, command, policy, Recorded(t, actor, command, PrintOf(actor, command, policy)))
  {}

  lemma StatusFitsBooks(s: State, body: Body, t: State, n: State)
    requires n.books == t.books && n.orders == t.orders && n.status == t.status
    ensures StatusFits(s, body, t) <==> StatusFits(s, body, n)
  {}

  lemma LedgeredFits(s: State, command: Command, policy: Option<Policy>, n: State)
    requires Reachable(s) && Covered(s, command.body, policy) && Ledgered(s, command, policy, n) && NoNegativeAmount(n)
    ensures AmountsFit(n) <==> NoOverflow(s, command.body, policy)
  {
    hide Reachable, Check, Journal, EquityConserved, NoNegativeAmount, Numeral, Covered;
    ReachableFits(s);
    NewEntriesFit(s, command, policy, n);
    SignsOf(n);
  }

  lemma ReachableFits(s: State)
    requires Reachable(s)
    ensures AmountsFit(s)
  {
    ReachableIsBalanced(s);
  }

  lemma SignsOf(n: State)
    requires NoNegativeAmount(n)
    ensures var b := n.books;
            b.idle >= 0 && b.cash >= 0 && b.cost >= 0 && b.value >= 0 && b.liability >= 0 && b.deposits >= 0
            && b.paid >= 0 && b.accrued >= 0 && b.feesPaid >= 0
  {}

  /** The amounts of the reservation maps stay in range. */
  lemma NewEntriesFit(s: State, command: Command, policy: Option<Policy>, n: State)
    requires AmountsFit(s) && Covered(s, command.body, policy) && Ledgered(s, command, policy, n)
    ensures forall k :: k in n.orders ==> Amount(n.orders[k])
    ensures forall k :: k in n.pending ==> Amount(n.pending[k])
  {
    hide Numeral, ActiveNet, Journal, StatusFits;
  }

  /**
   The transition, exactly. From a reachable vault a command is applied if and only if its actor is
   entitled, it is new, at the present revision, covered by the ledger and overflows no account; then
   every account changes by its entry alone, every reservation but the named one stays, and the
   history grows by one.
   */
  lemma AppliedExactly(s: State, actor: Actor, command: Command, policy: Option<Policy>)
    requires Reachable(s)
    ensures Execute(s, actor, command, policy).Applied? <==> Acceptable(s, actor, command, policy)
    ensures Execute(s, actor, command, policy).Applied? ==>
              var n := Execute(s, actor, command, policy).state;
              Ledgered(s, command, policy, n) && Remembered(s, actor, command, policy, n)
  {
    BranchIsRight(s, command, policy);
    PassesIsTaken(s, actor, command, policy);
    hide Reachable, Execute, PassesBranch, Covered, Ledgered, Remembered, NoOverflow, Entitled, AmountsFit, Branch,
      ParsedAmount;
    if Execute(s, actor, command, policy).Applied? { OnlyPassingIsApplied(s, actor, command, policy); }
    if PassesBranch(s, actor, command, policy) {
      ClosingCheckOnlyOverflows(s, actor, command, policy);
      CandidateIs(s, actor, command, policy);
      GuardsSuffice(s, actor, command, policy);
      CandidateNonNegative(Candidate(s, actor, command, policy));
      LedgeredFits(s, command, policy, Candidate(s, actor, command, policy));
    }
  }

  lemma CandidateNonNegative(n: State)
    requires Balanced(n)
    ensures NoNegativeAmount(n)
  {}

  /** What entries mean for the totals: an allocation ends within the allowance, and stays funded. */
  lemma AllocationStaysWithinAllowance(s: State, actor: Actor, command: Command, policy: Option<Policy>)
    requires Reachable(s) && Execute(s, actor, command, policy).Applied? && command.body.Allocate?
    ensures var n := Execute(s, actor, command, policy).state;
            ActiveNet(n) == ActiveNet(s) + Number(command.body.amount) <= Allowance(n) == Allowance(s)
  {
    AppliedExactly(s, actor, command, policy);
    hide Reachable, Execute, Acceptable;
    assert Covered(s, command.body, policy) by { AcceptableIsCovered(s, actor, command, policy); }
  }

  lemma AcceptableIsCovered(s: State, actor: Actor, command: Command, policy: Option<Policy>)
    requires Acceptable(s, actor, command, policy)
    ensures Covered(s, command.body, policy)
  {}

  // ---- the refusals that do not depend on the ledger ------------------------

  /** The receipt remembers this very request. */
  predicate SameRequest(s: State, actor: Actor, command: Command, policy: Option<Policy>)
    requires command.id in s.receipts
  {
    var mark := s.receipts[command.id].fingerprint;
    mark.actor == actor && mark.command == command
    && mark.policyId == if command.body.SettlePosition? && policy.Some? then Some(policy.value.id) else None
  }

  lemma BranchFaults(s: State, command: Command, amount: int, policy: Option<Policy>)
    requires Branch(s, command, amount, policy).Err?
    ensures Branch(s, command, amount, policy).error !in {Forbidden, IdempotencyConflict, RevisionConflict, HistoryLimit}
  {
    hide ActiveNet, Numeral, ValidId;
  }

  /**
   Why a request is not applied, as far as its answer depends on it: a repeated request is replayed,
   another one under its identifier conflicts, and so does a request at another revision.
   */
  lemma RefusalsAreExplained(s: State, actor: Actor, command: Command, policy: Option<Policy>)
    requires Reachable(s)
    ensures var o := Execute(s, actor, command, policy);
            var may := ValidId(command.id) && Entitled(s, actor, command.body);
            var known := may && command.id in s.receipts;
            && (o == Refused(Forbidden) <==> ValidId(command.id) && !Entitled(s, actor, command.body))
            && (o == Replayed <==> known && SameRequest(s, actor, command, policy))
            && (o == Refused(IdempotencyConflict) <==> known && !SameRequest(s, actor, command, policy))
            && (o == Refused(RevisionConflict) <==> may && !known && command.expectedRevision != s.revision)
            && (o == Refused(HistoryLimit) <==>
                  may && !known && command.expectedRevision == s.revision && MAX_REVISION <= s.revision)
  {
    hide Check, Branch, ParsedAmount, ValidId, Allowed, Entitled, Candidate;
    EntitledIsAllowed(s, actor, command.body);
    AmountFaults(command.body);
    if ParsedAmount(command.body).Ok? {
      var amount := ParsedAmount(command.body).value;
      if Branch(s, command, amount, policy).Err? { BranchFaults(s, command, amount, policy); }
    }
    if PassesBranch(s, actor, command, policy) { ClosingCheckOnlyOverflows(s, actor, command, policy); }
  }

  lemma AmountFaults(body: Body)
    ensures ParsedAmount(body).Err? ==> ParsedAmount(body).error in {NonPositiveAmount, AmountOverflow, NonCanonicalAmount}
  {}
}
