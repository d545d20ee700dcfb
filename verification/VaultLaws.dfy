/**
 What every reachable vault keeps. The runtime check alone is not inductive; with
 the facts of `Reachable` each branch's own guards re-establish conservation, so
 the closing check can only ever refuse a command because an amount overflows.
 */
module VaultLaws {
  import opened Prelude
  import opened Vault
  import Money

  /** What holds of every reachable vault besides the runtime check. */
  ghost predicate Tidy(s: State) {
    && s.pending.Keys <= s.receipts.Keys
    && (s.books.cost == 0 ==> s.books.value == 0)
    && (s.status.Stopped? ==> s.books.cost == 0 && s.orders == map[])
    && (s.status.Stopping? ==> s.books.cost > 0 || s.orders != map[])
  }

  /** The event at `i` tells of the request its receipt remembers. */
  ghost predicate EventTold(s: State, i: nat) {
    i < |s.events| ==>
      var id := s.events[i].commandId;
      && ValidId(id) && id in s.receipts
      && var mark := s.receipts[id].fingerprint;
         && mark.command.id == id && KindOf(mark.command.body) == s.events[i].kind
         && mark.actor.id == s.events[i].actorId && mark.command.expectedRevision == i
  }

  ghost predicate Told(s: State) { |s.events| <= MAX_REVISION && forall i: nat :: EventTold(s, i) }

  ghost predicate Reachable(s: State) { Check(s).None? && Tidy(s) && Told(s) }

  /** The runtime check but for the size of the amounts. */
  ghost predicate Balanced(s: State) {
    && IdsValid(s) && RevisionFits(s) && NoNegativeAmount(s) && Reservations(s.orders) && Reservations(s.pending)
    && ActiveNet(s) >= 0 && s.books.liability <= s.books.cash && FeesConserved(s.books) && EquityConserved(s)
  }

  lemma ReachableIsBalanced(s: State)
    requires Check(s).None?
    ensures Balanced(s) && AmountsFit(s) && HistoryMatches(s)
  {}

  lemma ParsedIsPositive(b: Body)
    requires ParsedAmount(b).Ok?
    ensures ParsedAmount(b).value >= 0 && (AmountText(b).Some? ==> ParsedAmount(b).value > 0)
  {}

  /** The branch's money part, by what it changes. */
  ghost predicate Moved(s: State, t: State) {
    && t == s.(books := t.books, orders := t.orders, pending := t.pending, status := t.status)
    && NoNegativeAmount(t) && Reservations(t.orders) && Reservations(t.pending)
    && t.books.liability <= t.books.cash && FeesConserved(t.books) && EquityConserved(t)
  }

  lemma BooksOnly(s: State, t: State)
    requires Balanced(s) && t == s.(books := t.books)
    requires Sum(s.orders) == Sum(t.orders) && Sum(s.pending) == Sum(t.pending)
    requires t.books.idle >= 0 && t.books.cash >= 0 && t.books.cost >= 0 && t.books.value >= 0
             && t.books.liability >= 0 && t.books.deposits >= 0 && t.books.paid >= 0 && t.books.accrued >= 0
             && t.books.feesPaid >= 0 && t.books.liability <= t.books.cash && FeesConserved(t.books)
    requires t.books.idle + t.books.cash - t.books.liability - t.books.deposits + t.books.paid - t.books.pnl
             + t.books.cost + t.books.accrued
             == s.books.idle + s.books.cash - s.books.liability - s.books.deposits + s.books.paid - s.books.pnl
             + s.books.cost + s.books.accrued
    ensures Moved(s, t)
  {}

  lemma SimpleBranch(s: State, command: Command, policy: Option<Policy>)
    requires Balanced(s) && ParsedAmount(command.body).Ok?
    requires Branch(s, command, ParsedAmount(command.body).value, policy).Ok?
    requires command.body.Deposit? || command.body.Allocate? || command.body.Deallocate? || command.body.PayFees?
             || command.body.MarkPosition? || command.body.SettlePosition? || command.body.Start? || command.body.Stop?
    ensures Moved(s, Branch(s, command, ParsedAmount(command.body).value, policy).value)
  {
    var t := Branch(s, command, ParsedAmount(command.body).value, policy).value;
    ParsedIsPositive(command.body);
    if !command.body.Start? && !command.body.Stop? { BooksOnly(s, t); }
  }

  lemma RequestBranch(s: State, command: Command, amount: int, policy: Option<Policy>)
    requires Balanced(s) && Tidy(s) && command.body.RequestWithdrawal? && amount > 0
    requires ValidId(command.id) && command.id !in s.receipts
    requires Branch(s, command, amount, policy).Ok?
    ensures Moved(s, Branch(s, command, amount, policy).value)
  {
    SumAdd(s.pending, command.id, amount);
  }

  lemma PendingBranch(s: State, command: Command, amount: int, policy: Option<Policy>)
    requires Balanced(s) && (command.body.ConfirmWithdrawal? || command.body.CancelWithdrawal?)
    requires Branch(s, command, amount, policy).Ok?
    ensures Moved(s, Branch(s, command, amount, policy).value)
  {
    SumRemove(s.pending, command.body.withdrawalId);
  }

  lemma ReserveBranch(s: State, command: Command, amount: int, policy: Option<Policy>)
    requires Balanced(s) && command.body.ReserveBuy? && amount > 0
    requires Branch(s, command, amount, policy).Ok?
    ensures Moved(s, Branch(s, command, amount, policy).value)
  {
    SumAdd(s.orders, command.body.orderId, amount);
  }

  lemma OrderBranch(s: State, command: Command, amount: int, policy: Option<Policy>)
    requires Balanced(s) && (command.body.CancelOrder? || command.body.FillBuy?)
    requires Branch(s, command, amount, policy).Ok?
    ensures Moved(s, Branch(s, command, amount, policy).value)
  {
    SumRemove(s.orders, command.body.orderId);
  }

  /** Every branch moves money without creating or losing any. */
  lemma BranchConserves(s: State, command: Command, policy: Option<Policy>)
    requires Balanced(s) && Tidy(s) && ValidId(command.id) && command.id !in s.receipts
    requires ParsedAmount(command.body).Ok?
    requires Branch(s, command, ParsedAmount(command.body).value, policy).Ok?
    ensures Moved(s, Branch(s, command, ParsedAmount(command.body).value, policy).value)
  {
    var amount := ParsedAmount(command.body).value;
    ParsedIsPositive(command.body);
    hide Branch, Balanced, Moved, Tidy, ParsedAmount;
    match command.body
    case RequestWithdrawal(_) => RequestBranch(s, command, amount, policy);
    case ConfirmWithdrawal(_) => PendingBranch(s, command, amount, policy);
    case CancelWithdrawal(_) => PendingBranch(s, command, amount, policy);
    case ReserveBuy(_, _) => ReserveBranch(s, command, amount, policy);
    case CancelOrder(_) => OrderBranch(s, command, amount, policy);
    case FillBuy(_) => OrderBranch(s, command, amount, policy);
    case _ => SimpleBranch(s, command, policy);
  }

  /** The facts of `Tidy` once the command's own id counts as a receipt. */
  ghost predicate TidyWith(s: State, t: State, id: string) {
    && t.pending.Keys <= s.receipts.Keys + {id}
    && (t.books.cost == 0 ==> t.books.value == 0)
    && (t.status.Stopped? ==> t.books.cost == 0 && t.orders == map[])
    && (t.status.Stopping? ==> t.books.cost > 0 || t.orders != map[])
  }

  lemma OrdersTidy(s: State, command: Command, amount: int, policy: Option<Policy>)
    requires Tidy(s) && NoNegativeAmount(s) && Reservations(s.orders) && Branch(s, command, amount, policy).Ok?
    requires command.body.ReserveBuy? || command.body.CancelOrder? || command.body.FillBuy?
    ensures TidyWith(s, AutoStop(Branch(s, command, amount, policy).value), command.id)
  {
    var t := Branch(s, command, amount, policy).value;
    assert command.body.ReserveBuy? ==> command.body.orderId in t.orders;
  }

  lemma PendingTidy(s: State, command: Command, amount: int, policy: Option<Policy>)
    requires Tidy(s) && NoNegativeAmount(s) && Branch(s, command, amount, policy).Ok?
    requires command.body.RequestWithdrawal? || command.body.ConfirmWithdrawal? || command.body.CancelWithdrawal?
    ensures TidyWith(s, AutoStop(Branch(s, command, amount, policy).value), command.id)
  {}

  lemma StatusTidy(s: State, command: Command, amount: int, policy: Option<Policy>)
    requires Tidy(s) && NoNegativeAmount(s) && Branch(s, command, amount, policy).Ok?
    requires command.body.Start? || command.body.Stop?
    ensures TidyWith(s, AutoStop(Branch(s, command, amount, policy).value), command.id)
  {}

  lemma SettleTidy(s: State, command: Command, amount: int, policy: Option<Policy>)
    requires Tidy(s) && Branch(s, command, amount, policy).Ok? && command.body.SettlePosition?
    ensures TidyWith(s, AutoStop(Branch(s, command, amount, policy).value), command.id)
  {}

  lemma MoneyTidy(s: State, command: Command, amount: int, policy: Option<Policy>)
    requires Tidy(s) && NoNegativeAmount(s) && Branch(s, command, amount, policy).Ok?
    requires command.body.Deposit? || command.body.Allocate? || command.body.Deallocate? || command.body.PayFees?
             || command.body.MarkPosition?
    ensures TidyWith(s, AutoStop(Branch(s, command, amount, policy).value), command.id)
  {}

  /** Status and position stay in step through the branch and the automatic stop. */
  lemma BranchIsTidy(s: State, command: Command, amount: int, policy: Option<Policy>)
    requires Tidy(s) && NoNegativeAmount(s) && Reservations(s.orders) && Branch(s, command, amount, policy).Ok?
    ensures TidyWith(s, AutoStop(Branch(s, command, amount, policy).value), command.id)
  {
    hide Tidy, TidyWith, Branch, NoNegativeAmount;
    match command.body
    case ReserveBuy(_, _) => OrdersTidy(s, command, amount, policy);
    case CancelOrder(_) => OrdersTidy(s, command, amount, policy);
    case FillBuy(_) => OrdersTidy(s, command, amount, policy);
    case RequestWithdrawal(_) => PendingTidy(s, command, amount, policy);
    case ConfirmWithdrawal(_) => PendingTidy(s, command, amount, policy);
    case CancelWithdrawal(_) => PendingTidy(s, command, amount, policy);
    case Start => StatusTidy(s, command, amount, policy);
    case Stop => StatusTidy(s, command, amount, policy);
    case SettlePosition(_) => SettleTidy(s, command, amount, policy);
    case _ => MoneyTidy(s, command, amount, policy);
  }

  /** A branch never touches who the vault belongs to, its passes or its history. */
  lemma BranchKeepsRecord(s: State, command: Command, amount: int, policy: Option<Policy>)
    requires Branch(s, command, amount, policy).Ok?
    ensures var t := Branch(s, command, amount, policy).value;
            && t.id == s.id && t.ownerId == s.ownerId && t.executorId == s.executorId
            && t.strategyId == s.strategyId && t.passes == s.passes
            && t.revision == s.revision && t.receipts == s.receipts && t.events == s.events
  {
    hide ValidId, ActiveNet, Parse, Allowance, AmountText, Equity;
    match command.body
    case Deposit(_) =>
    case Allocate(_) =>
    case Deallocate(_) =>
    case RequestWithdrawal(_) =>
    case ConfirmWithdrawal(_) =>
    case CancelWithdrawal(_) =>
    case Start =>
    case Stop =>
    case ReserveBuy(_, _) =>
    case CancelOrder(_) =>
    case FillBuy(_) =>
    case MarkPosition(_) =>
    case SettlePosition(p) =>
    case PayFees(_) =>
  }

  lemma RecordingKeepsHistory(s: State, t: State, actor: Actor, command: Command, mark: Fingerprint)
    requires HistoryMatches(s) && command.id !in s.receipts
    requires t.receipts == s.receipts && t.events == s.events && t.revision == s.revision
    ensures HistoryMatches(Recorded(t, actor, command, mark))
  {
    var n := Recorded(t, actor, command, mark);
    forall i | 0 <= i < |n.events|
      ensures n.events[i].revision == i + 1 && n.events[i].commandId in n.receipts
              && n.receipts[n.events[i].commandId].revision == i + 1
    {
      if i < |s.events| { assert n.events[i] == s.events[i]; }
    }
  }

  lemma RecordingTells(s: State, t: State, actor: Actor, command: Command, policy: Option<Policy>)
    requires HistoryMatches(s) && Told(s) && command.id !in s.receipts && ValidId(command.id)
    requires command.expectedRevision == s.revision < MAX_REVISION
    requires t.receipts == s.receipts && t.events == s.events && t.revision == s.revision
    ensures Told(Recorded(t, actor, command, PrintOf(actor, command, policy)))
  {
    hide ValidId;
    var n := Recorded(t, actor, command, PrintOf(actor, command, policy));
    forall i: nat ensures EventTold(n, i) {
      assert EventTold(s, i);
      if i < |s.events| { assert n.events[i] == s.events[i]; }
    }
  }

  ghost function EventIds(s: State, n: nat): set<string>
    requires n <= |s.events|
  {
    set i | 0 <= i < n :: s.events[i].commandId
  }

  lemma {:induction false} EventIdsAreDistinct(s: State, n: nat)
    requires HistoryMatches(s) && n <= |s.events|
    ensures |EventIds(s, n)| == n && EventIds(s, n) <= s.receipts.Keys
  {
    if n > 0 {
      EventIdsAreDistinct(s, n - 1);
      var id := s.events[n - 1].commandId;
      assert s.receipts[id].revision == n;
      assert id !in EventIds(s, n - 1);
      assert EventIds(s, n) == EventIds(s, n - 1) + {id};
    }
  }

  /** Receipts and events are in bijection: each receipt is that of the event its revision names. */
  lemma ReceiptHasEvent(s: State, id: string)
    requires HistoryMatches(s) && id in s.receipts
    ensures 1 <= s.receipts[id].revision <= s.revision && s.events[s.receipts[id].revision - 1].commandId == id
  {
    EventIdsAreDistinct(s, |s.events|);
    SubsetOfSameSize(EventIds(s, |s.events|), s.receipts.Keys);
    assert id in EventIds(s, |s.events|);
    var i :| 0 <= i < |s.events| && s.events[i].commandId == id;
    assert s.receipts[id].revision == i + 1;
  }

  /** The state a command that passes its branch would produce. */
  ghost function Candidate(s: State, actor: Actor, command: Command, policy: Option<Policy>): State
    requires ParsedAmount(command.body).Ok?
    requires Branch(s, command, ParsedAmount(command.body).value, policy).Ok?
  {
    Recorded(AutoStop(Branch(s, command, ParsedAmount(command.body).value, policy).value), actor, command,
             PrintOf(actor, command, policy))
  }

  ghost predicate PassesBranch(s: State, actor: Actor, command: Command, policy: Option<Policy>) {
    && Refusal(s, actor, command).None? && command.id !in s.receipts && command.expectedRevision == s.revision
    && s.revision < MAX_REVISION && ParsedAmount(command.body).Ok?
    && Branch(s, command, ParsedAmount(command.body).value, policy).Ok?
  }

  lemma MovedIsBalanced(s: State, t: State)
    requires Balanced(s) && Moved(s, t)
    ensures Balanced(AutoStop(t)) && Moved(s, AutoStop(t))
  {
    SumNonNegative(t.orders);
  }

  lemma RecordedIsBalanced(t: State, actor: Actor, command: Command, mark: Fingerprint)
    requires Balanced(t) && t.revision < MAX_REVISION
    ensures Balanced(Recorded(t, actor, command, mark))
  {}

  /** Once a command passes its guards and its branch, everything but the size of the amounts is re-established. */
  lemma GuardsSuffice(s: State, actor: Actor, command: Command, policy: Option<Policy>)
    requires Reachable(s) && PassesBranch(s, actor, command, policy)
    ensures var n := Candidate(s, actor, command, policy);
            Balanced(n) && HistoryMatches(n) && Tidy(n) && Told(n)
  {
    var amount := ParsedAmount(command.body).value;
    var branch := Branch(s, command, amount, policy).value;
    var mark := PrintOf(actor, command, policy);
    ReachableIsBalanced(s);
    ParsedIsPositive(command.body);
    BranchIsTidy(s, command, amount, policy);
    assert ValidId(command.id);
    hide Branch, Balanced, Moved, HistoryMatches, Check, Told;
    BranchConserves(s, command, policy);
    MovedIsBalanced(s, branch);
    MovedOnlyBooks(s, AutoStop(branch));
    RecordedIsBalanced(AutoStop(branch), actor, command, mark);
    RecordingKeepsHistory(s, AutoStop(branch), actor, command, mark);
    RecordingTells(s, AutoStop(branch), actor, command, policy);
  }

  lemma MovedOnlyBooks(s: State, t: State)
    requires Moved(s, t)
    ensures t.receipts == s.receipts && t.events == s.events && t.revision == s.revision
  {}

  lemma BalancedFailsOnlyBySize(n: State)
    requires Balanced(n) && HistoryMatches(n)
    ensures Check(n) == if AmountsFit(n) then None else Some(AmountOverflow)
  {}

  /** From a reachable vault the closing check can only report an overflow. */
  lemma ClosingCheckOnlyOverflows(s: State, actor: Actor, command: Command, policy: Option<Policy>)
    requires Reachable(s) && PassesBranch(s, actor, command, policy)
    ensures var n := Candidate(s, actor, command, policy);
            Execute(s, actor, command, policy) == if AmountsFit(n) then Applied(n) else Refused(AmountOverflow)
  {
    GuardsSuffice(s, actor, command, policy);
    BalancedFailsOnlyBySize(Candidate(s, actor, command, policy));
  }

  /** Every accepted command leads to a reachable vault again. */
  lemma ExecuteKeepsReachable(s: State, actor: Actor, command: Command, policy: Option<Policy>)
    requires Reachable(s) && Execute(s, actor, command, policy).Applied?
    ensures Reachable(Execute(s, actor, command, policy).state)
  {
    assert PassesBranch(s, actor, command, policy);
    GuardsSuffice(s, actor, command, policy);
  }

  lemma CreatedIsReachable(id: string, ownerId: string, executorId: string, strategyId: string, passes: int)
    requires CreateVault(id, ownerId, executorId, strategyId, passes).Ok?
    ensures Reachable(CreateVault(id, ownerId, executorId, strategyId, passes).value)
  {}

  datatype Request = Request(actor: Actor, command: Command, policy: Option<Policy>)

  /** The vault after a run of requests; refused ones leave it as it is. */
  ghost function RunAll(s: State, rs: seq<Request>): State
    decreases |rs|
  {
    if rs == [] then s
    else
      var o := Execute(s, rs[0].actor, rs[0].command, rs[0].policy);
      RunAll(if o.Applied? then o.state else s, rs[1..])
  }

  /** Over every run: money is conserved, fees are funded and history has one event and receipt per revision. */
  lemma {:induction false} RunStaysReachable(s: State, rs: seq<Request>)
    requires Reachable(s)
    ensures Reachable(RunAll(s, rs)) && Balanced(RunAll(s, rs)) && HistoryMatches(RunAll(s, rs))
    decreases |rs|
  {
    if rs == [] {
      ReachableIsBalanced(s);
    } else {
      var o := Execute(s, rs[0].actor, rs[0].command, rs[0].policy);
      if o.Applied? { ExecuteKeepsReachable(s, rs[0].actor, rs[0].command, rs[0].policy); }
      RunStaysReachable(if o.Applied? then o.state else s, rs[1..]);
    }
  }

  /** The runtime check finds nothing exactly when everything it asks for holds. */
  lemma CheckIsExact(s: State)
    ensures Check(s).None? <==> Consistent(s)
  {}

  lemma OverwriteBreaksEquity(s: State, t: State, w: string, amount: int)
    requires EquityConserved(s) && w in s.pending && s.pending[w] > 0
    requires t == s.(books := s.books.(idle := s.books.idle - amount), pending := s.pending[w := amount])
    ensures !EquityConserved(t) && ActiveNet(t) == ActiveNet(s)
  {
    SumRemove(s.pending, w);
    SumRemove(t.pending, w);
    assert t.pending - {w} == s.pending - {w};
  }

  lemma ExecuteChecksCandidate(s: State, actor: Actor, command: Command, policy: Option<Policy>)
    requires PassesBranch(s, actor, command, policy) && Check(Candidate(s, actor, command, policy)).Some?
    ensures Execute(s, actor, command, policy) == Refused(Check(Candidate(s, actor, command, policy)).value)
  {
    hide Check, Refusal, ParsedAmount, Branch, AutoStop, PrintOf;
  }

  lemma OverwriteBranch(s: State, actor: Actor, command: Command, policy: Option<Policy>)
    requires PassesBranch(s, actor, command, policy) && command.body.RequestWithdrawal?
    ensures var amount := ParsedAmount(command.body).value;
            && 0 < amount <= s.books.idle
            && Branch(s, command, amount, policy).value
               == s.(books := s.books.(idle := s.books.idle - amount), pending := s.pending[command.id := amount])
  {
    hide ParsedAmount, Refusal;
    ParsedIsPositive(command.body);
  }

  lemma OverwrittenCandidate(s: State, actor: Actor, command: Command, policy: Option<Policy>)
    requires Check(s).None? && PassesBranch(s, actor, command, policy)
    requires command.body.RequestWithdrawal? && command.id in s.pending
    ensures Check(Candidate(s, actor, command, policy)) == Some(EquityConservation)
  {
    hide HistoryMatches, EquityConserved, ActiveNet, ParsedAmount, ValidId, Refusal, Branch;
    var amount := ParsedAmount(command.body).value;
    var t := Branch(s, command, amount, policy).value;
    OverwriteBranch(s, actor, command, policy);
    ReachableIsBalanced(s);
    assert Amount(s.pending[command.id]) && EntryFault(command.id, s.pending[command.id]).None?;
    OverwriteBreaksEquity(s, t, command.id, amount);
    RecordingKeepsAmounts(t, actor, command, PrintOf(actor, command, policy));
  }

  /** A request under the identifier of a pending withdrawal would lose that withdrawal's amount. */
  lemma OverwriteIsRefused(s: State, actor: Actor, command: Command, policy: Option<Policy>)
    requires Check(s).None? && PassesBranch(s, actor, command, policy)
    requires command.body.RequestWithdrawal? && command.id in s.pending
    ensures Execute(s, actor, command, policy) == Refused(EquityConservation)
  {
    OverwrittenCandidate(s, actor, command, policy);
    ExecuteChecksCandidate(s, actor, command, policy);
  }

  lemma RecordingKeepsAmounts(t: State, actor: Actor, command: Command, mark: Fingerprint)
    ensures var n := Recorded(AutoStop(t), actor, command, mark);
            n.books == t.books && n.orders == t.orders && n.pending == t.pending && n.passes == t.passes
            && EquityConserved(n) == EquityConserved(t) && ActiveNet(n) == ActiveNet(t)
  {}

  /** Ten units deposited, five of them idle and five in a withdrawal no receipt remembers. */
  function UnknownWithdrawal(id: string): State {
    Fresh(id, id, id, id, 1).(books := Books(5, 0, 0, 0, 0, 10, 0, 0, 0, 0), pending := map[id := 5])
  }

  lemma OnePendingSum(m: map<string, int>, id: string, x: int)
    requires m == map[id := x]
    ensures Sum(m) == x
  {
    SumRemove(m, id);
    assert m - {id} == map[];
  }

  lemma UnknownWithdrawalReads(id: string, s: State)
    requires ValidId(id) && s == UnknownWithdrawal(id)
    ensures IdsValid(s) && RevisionFits(s) && AmountsFit(s) && Reservations(s.orders) && Reservations(s.pending)
    ensures HistoryMatches(s)
  {}

  /** The runtime check passes such a vault. */
  lemma CheckAdmitsUnknownWithdrawal(id: string, s: State)
    requires ValidId(id) && s == UnknownWithdrawal(id)
    ensures Check(s).None? && id in s.pending && id !in s.receipts
  {
    UnknownWithdrawalReads(id, s);
    OnePendingSum(s.pending, id, 5);
    assert Sum(s.orders) == 0;
    hide ValidId, IdsValid, RevisionFits, AmountsFit, Reservations, HistoryMatches, Check, Sum;
    CheckIsExact(s);
  }
}
