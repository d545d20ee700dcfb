/**
 The ledger's own code: sums and the runtime check as loops over the record, and
 the transition that edits a copy of the state step by step.
 */
module VaultLedger {
  import opened Prelude
  import opened Vault
  import opened VaultLaws
  import Money

  method SumOf(m: map<string, int>) returns (total: int)
    ensures total == Sum(m)
  {
    total := 0;
    var rest := m;
    while rest != map[]
      invariant total + Sum(rest) == Sum(m)
      decreases |rest|
    {
      var k :| k in rest;
      SumRemove(rest, k);
      total := total + rest[k];
      rest := rest - {k};
    }
  }

  /** A fault of some entry of the map; which one of several is found first is left open. */
  method FaultOf(m: map<string, int>) returns (fault: Option<VaultError>)
    ensures fault.None? <==> Sound(m)
  {
    var rest := m;
    while rest != map[]
      invariant rest.Keys <= m.Keys && forall k :: k in rest ==> rest[k] == m[k]
      invariant forall k :: k in m && k !in rest ==> EntryFault(k, m[k]).None?
      decreases |rest|
    {
      var k :| k in rest;
      if EntryFault(k, rest[k]).Some? { return EntryFault(k, rest[k]); }
      rest := rest - {k};
    }
    fault := None;
  }

  method HistoryOf(s: State) returns (ok: bool)
    ensures ok == HistoryMatches(s)
  {
    if |s.events| != s.revision || |s.receipts| != s.revision { return false; }
    for i := 0 to |s.events|
      invariant forall j :: 0 <= j < i ==>
                  s.events[j].revision == j + 1 && s.events[j].commandId in s.receipts
                  && s.receipts[s.events[j].commandId].revision == j + 1
    {
      var e := s.events[i];
      if e.revision != i + 1 || e.commandId !in s.receipts || s.receipts[e.commandId].revision != e.revision {
        return false;
      }
    }
    ok := true;
  }

  method NetOf(s: State) returns (net: int)
    ensures net == ActiveNet(s)
  {
    var reserved := SumOf(s.orders);
    net := s.books.cash + reserved + s.books.value - s.books.liability;
  }

  /** Every reservation of the state can be read. */
  predicate Entries(s: State) { Sound(s.orders) && Sound(s.pending) }

  method AssertInvariant(s: State) returns (fault: Option<VaultError>)
    ensures fault.Some? <==> Check(s).Some?
    ensures Entries(s) ==> fault == Check(s)
  {
    if !IdsValid(s) { return Some(InvalidId); }
    if !RevisionFits(s) { return Some(InvalidRevision); }
    if FieldFault(s).Some? { return FieldFault(s); }
    fault := FaultOf(s.orders);
    if fault.Some? { return; }
    fault := FaultOf(s.pending);
    if fault.Some? { return; }
    var pending := SumOf(s.pending);
    var net := NetOf(s);
    var b := s.books;
    var equity := b.idle + net + pending;
    if !Amount(Allowance(s)) { return Some(BadAmount(Allowance(s))); }
    if net < 0 { return Some(NegativeActiveEquity); }
    if b.liability > b.cash { return Some(UnfundedFeeLiability); }
    if b.accrued != b.feesPaid + b.liability { return Some(FeeConservation); }
    if equity != b.deposits - b.paid + b.pnl + (b.value - b.cost) - b.accrued { return Some(EquityConservation); }
    var history := HistoryOf(s);
    if !history { return Some(HistoryMismatch); }
    return None;
  }

  /** The settlement, with its policy's answer checked before anything is edited. */
  method Settle(state: State, text: string, policy: Option<Policy>) returns (r: Result<State, VaultError>)
    ensures r == Settled(state, text, policy)
  {
    var books := state.books;
    if books.cost <= 0 { return Err(NoPosition); }
    if state.orders != map[] { return Err(PendingOrders); }
    if policy.None? || !policy.value.testOnly { return Err(PolicyRequired); }
    if !ValidId(policy.value.id) { return Err(InvalidId); }
    var parsed := Parse(text);
    if parsed.Err? { return Err(parsed.error); }
    var proceeds, cost, cash := parsed.value, books.cost, books.cash;
    var answer := policy.value.assess(Quote(proceeds, cost, cash, books.liability, Allowance(state)));
    if !Amount(answer.fee) { return Err(BadAmount(answer.fee)); }
    if !Amount(answer.excess) { return Err(BadAmount(answer.excess)); }
    if answer.fee > (if proceeds > cost then proceeds - cost else 0) { return Err(InvalidTestFee); }
    var cashAfter, liabilityAfter := cash + proceeds, books.liability + answer.fee;
    if answer.excess > cashAfter - liabilityAfter { return Err(InvalidExcess); }
    books := books.(cash := cashAfter - answer.excess);
    books := books.(idle := books.idle + answer.excess);
    books := books.(liability := liabilityAfter);
    books := books.(accrued := books.accrued + answer.fee);
    books := books.(pnl := books.pnl + proceeds - cost);
    books := books.(cost := 0, value := 0);
    return Ok(state.(books := books));
  }

  /** Commands that only move amounts between balances. */
  method EditBalances(state: State, command: Command, amount: int, policy: Option<Policy>)
    returns (r: Result<State, VaultError>)
    requires command.body.Deposit? || command.body.Allocate? || command.body.Deallocate? || command.body.PayFees?
             || command.body.MarkPosition? || command.body.SettlePosition?
    ensures r == Branch(state, command, amount, policy)
  {
    var next := state.books;
    var net := NetOf(state);
    var available := next.cash - next.liability;
    match command.body {
      case Deposit(_) =>
        next := next.(idle := next.idle + amount);
        next := next.(deposits := next.deposits + amount);
      case Allocate(_) =>
        if amount > next.idle { return Err(InsufficientIdle); }
        if net + amount > Allowance(state) { return Err(AllowanceExceeded); }
        next := next.(idle := next.idle - amount);
        next := next.(cash := next.cash + amount);
      case Deallocate(_) =>
        if amount > available { return Err(InsufficientActiveCash); }
        next := next.(cash := next.cash - amount);
        next := next.(idle := next.idle + amount);
      case PayFees(_) =>
        if amount > next.liability { return Err(ExcessFeePayment); }
        next := next.(liability := next.liability - amount);
        next := next.(cash := next.cash - amount);
        next := next.(feesPaid := next.feesPaid + amount);
      case MarkPosition(v) =>
        if next.cost <= 0 { return Err(NoPosition); }
        var value := Parse(v);
        if value.Err? { return Err(value.error); }
        next := next.(value := value.value);
      case SettlePosition(p) =>
        r := Settle(state, p, policy);
        return;
    }
    return Ok(state.(books := next));
  }

  /** Commands that change a reservation map. */
  method EditReservations(state: State, command: Command, amount: int, policy: Option<Policy>)
    returns (r: Result<State, VaultError>)
    requires command.body.RequestWithdrawal? || command.body.ConfirmWithdrawal? || command.body.CancelWithdrawal?
             || command.body.ReserveBuy? || command.body.CancelOrder? || command.body.FillBuy?
    ensures r == Branch(state, command, amount, policy)
  {
    var next := state;
    var available := next.books.cash - next.books.liability;
    match command.body {
      case RequestWithdrawal(_) =>
        if amount > next.books.idle { return Err(InsufficientIdle); }
        next := next.(books := next.books.(idle := next.books.idle - amount));
        next := next.(pending := next.pending[command.id := amount]);
      case ConfirmWithdrawal(w) =>
        if !ValidId(w) { return Err(InvalidId); }
        if w !in next.pending { return Err(WithdrawalNotPending); }
        var owed := next.pending[w];
        next := next.(pending := next.pending - {w});
        next := next.(books := next.books.(paid := next.books.paid + owed));
      case CancelWithdrawal(w) =>
        if !ValidId(w) { return Err(InvalidId); }
        if w !in next.pending { return Err(WithdrawalNotPending); }
        var owed := next.pending[w];
        next := next.(pending := next.pending - {w});
        next := next.(books := next.books.(idle := next.books.idle + owed));
      case ReserveBuy(o, _) =>
        if !ValidId(o) { return Err(InvalidId); }
        if !next.status.Running? { return Err(NotRunning); }
        if o in next.orders { return Err(DuplicateOrder); }
        if amount > available { return Err(InsufficientActiveCash); }
        next := next.(books := next.books.(cash := next.books.cash - amount));
        next := next.(orders := next.orders[o := amount]);
      case CancelOrder(o) =>
        if !ValidId(o) { return Err(InvalidId); }
        if o !in next.orders { return Err(OrderNotPending); }
        var reserved := next.orders[o];
        next := next.(orders := next.orders - {o});
        next := next.(books := next.books.(cash := next.books.cash + reserved));
      case FillBuy(o) =>
        if !ValidId(o) { return Err(InvalidId); }
        if o !in next.orders { return Err(OrderNotPending); }
        var reserved := next.orders[o];
        next := next.(orders := next.orders - {o});
        next := next.(books := next.books.(cost := next.books.cost + reserved));
        next := next.(books := next.books.(value := next.books.value + reserved));
    }
    return Ok(next);
  }

  /** The switch over the command. */
  method Edit(state: State, command: Command, amount: int, policy: Option<Policy>) returns (r: Result<State, VaultError>)
    ensures r == Branch(state, command, amount, policy)
  {
    match command.body {
      case Start =>
        var net := NetOf(state);
        if net <= 0 { return Err(NoActiveFunds); }
        if !state.status.Stopped? { return Err(InvalidStatus); }
        return Ok(state.(status := Running));
      case Stop =>
        return Ok(state.(status := if state.books.cost > 0 || state.orders != map[] then Stopping else Stopped));
      case Deposit(_) => r := EditBalances(state, command, amount, policy);
      case Allocate(_) => r := EditBalances(state, command, amount, policy);
      case Deallocate(_) => r := EditBalances(state, command, amount, policy);
      case PayFees(_) => r := EditBalances(state, command, amount, policy);
      case MarkPosition(_) => r := EditBalances(state, command, amount, policy);
      case SettlePosition(_) => r := EditBalances(state, command, amount, policy);
      case _ => r := EditReservations(state, command, amount, policy);
    }
  }

  /** No command puts an unreadable entry into a reservation map. */
  lemma EditKeepsEntries(s: State, command: Command, amount: int, policy: Option<Policy>)
    requires Entries(s) && ValidId(command.id) && Branch(s, command, amount, policy).Ok?
    requires AmountText(command.body).Some? ==> Amount(amount) && amount > 0
    ensures Entries(Branch(s, command, amount, policy).value)
  {
    hide ActiveNet, Parse, Allowance;
  }

  lemma ParsedFits(b: Body)
    requires ParsedAmount(b).Ok? && AmountText(b).Some?
    ensures Amount(ParsedAmount(b).value) && ParsedAmount(b).value > 0
  {}

  /** The transition as the ledger runs it: guards, replay, a copy edited in place, and the closing check. */
  method Run(state: State, actor: Actor, command: Command, policy: Option<Policy>) returns (r: Outcome)
    ensures Entries(state) ==> r == Execute(state, actor, command, policy)
    ensures !Entries(state) ==> r.Refused? && Execute(state, actor, command, policy).Refused?
  {
    hide Branch, Check, Entries, ValidId, ParsedAmount;
    var opening := AssertInvariant(state);
    EntriesAreChecked(state);
    if opening.Some? { return Refused(opening.value); }
    if !ValidId(command.id) { return Refused(InvalidId); }
    if !Allowed(state, actor, command.body) { return Refused(Forbidden); }
    var fingerprint := PrintOf(actor, command, policy);
    if command.id in state.receipts {
      return if state.receipts[command.id].fingerprint == fingerprint then Replayed else Refused(IdempotencyConflict);
    }
    if command.expectedRevision != state.revision { return Refused(RevisionConflict); }
    if state.revision >= MAX_REVISION { return Refused(HistoryLimit); }
    var amount := ParsedAmount(command.body);
    if amount.Err? { return Refused(amount.error); }
    var edited := Edit(state, command, amount.value, policy);
    if edited.Err? { return Refused(edited.error); }
    if AmountText(command.body).Some? { ParsedFits(command.body); }
    EditKeepsEntries(state, command, amount.value, policy);
    var next := edited.value;
    if next.status.Stopping? && next.books.cost == 0 && next.orders == map[] { next := next.(status := Stopped); }
    next := next.(revision := state.revision + 1);
    next := next.(receipts := next.receipts[command.id := Receipt(fingerprint, next.revision)]);
    next := next.(events := next.events + [Event(next.revision, command.id, KindOf(command.body), actor.id)]);
    BranchKeepsRecord(state, command, amount.value, policy);
    assert next == Recorded(AutoStop(edited.value), actor, command, fingerprint);
    EntriesAfterRecording(edited.value, actor, command, fingerprint);
    var closing := AssertInvariant(next);
    r := if closing.Some? then Refused(closing.value) else Applied(next);
  }

  lemma EntriesAreChecked(s: State)
    ensures !Entries(s) ==> Check(s).Some?
  {}

  lemma EntriesAfterRecording(s: State, actor: Actor, command: Command, mark: Fingerprint)
    requires Entries(s)
    ensures Entries(Recorded(AutoStop(s), actor, command, mark))
  {}
}
