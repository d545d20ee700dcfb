/**
 Winding a vault down: from every reachable vault, cancelling every order, settling
 with the fixture policy, paying the fees, deallocating, requesting and confirming
 is accepted command by command and leaves nothing in the vault.
 */
module VaultWindDown {
  import opened Prelude
  import opened Vault
  import opened VaultLaws
  import Money

  /** The fixture: no fee, and whatever the allowance does not cover goes to the idle balance. */
  function FixtureAssess(q: Quote): Assessment {
    var netCash := q.cash + q.proceeds - q.liability;
    Assessment(0, if netCash > q.allowance then netCash - q.allowance else 0)
  }

  const FIXTURE_ID := "fixture-full-settlement-zero-fee-v1"

  function Fixture(): Policy { Policy(true, FIXTURE_ID, FixtureAssess) }

  function AsOwner(s: State): Actor { Actor(s.ownerId, Owner) }

  function AsExecutor(s: State): Actor { Actor(s.executorId, Executor) }

  /** All the money that is or ever was in cash; only deposits and trading change it. */
  ghost function Cash(s: State): int {
    s.books.idle + s.books.cash + Sum(s.orders) + Sum(s.pending) + s.books.paid + s.books.feesPaid
  }

  lemma PartOfSum(m: map<string, int>, k: string)
    requires k in m && forall j :: j in m ==> m[j] >= 0
    ensures 0 <= m[k] <= Sum(m)
  {
    SumRemove(m, k);
    SumNonNegative(m - {k});
  }

  /** Amounts fit when the cash total does and the amounts a wind-down leaves alone do. */
  lemma CashBoundsAmounts(n: State)
    requires Balanced(n) && Cash(n) <= Money.MAX_INTEGER
    requires Amount(n.books.cost) && Amount(n.books.value) && Amount(n.books.deposits) && Amount(n.passes)
    requires Amount(Allowance(n)) && -Money.MAX_INTEGER <= n.books.pnl <= Money.MAX_INTEGER
    ensures AmountsFit(n)
  {
    SumNonNegative(n.orders);
    SumNonNegative(n.pending);
    forall k | k in n.orders ensures Amount(n.orders[k]) { PartOfSum(n.orders, k); }
    forall k | k in n.pending ensures Amount(n.pending[k]) { PartOfSum(n.pending, k); }
  }

  /** The amounts a wind-down step never touches keep their size; settling clears the position. */
  ghost predicate Carries(s: State, n: State) {
    && n.passes == s.passes && n.books.deposits == s.books.deposits
    && ((n.books.cost == s.books.cost && n.books.value == s.books.value && n.books.pnl == s.books.pnl)
        || (n.books.cost == 0 && n.books.value == 0))
  }

  lemma CarriedFits(s: State, n: State)
    requires AmountsFit(s) && Balanced(n) && Carries(s, n) && Cash(n) <= Money.MAX_INTEGER
    ensures AmountsFit(n)
  {
    if n.books.cost == 0 && n.books.value == 0 {
      SumNonNegative(n.orders);
      SumNonNegative(n.pending);
      assert n.books.pnl == Cash(n) - n.books.deposits;
    }
    CashBoundsAmounts(n);
  }

  // ---- one command at a time ------------------------------------------------

  ghost predicate FreshId(s: State, id: string) { ValidId(id) && id !in s.receipts && s.revision < MAX_REVISION }

  /** What every accepted command does to the history and leaves alone. */
  ghost predicate Follows(s: State, n: State, id: string) {
    && Reachable(n) && n.revision == s.revision + 1 && n.receipts.Keys == s.receipts.Keys + {id}
    && n.id == s.id && n.ownerId == s.ownerId && n.executorId == s.executorId && n.passes == s.passes
  }

  ghost function Applies(s: State, r: Request): Outcome { Execute(s, r.actor, r.command, r.policy) }

  /** The request's branch yields `t`. */
  ghost predicate BranchesTo(s: State, r: Request, t: State) {
    && ParsedAmount(r.command.body).Ok?
    && Branch(s, r.command, ParsedAmount(r.command.body).value, r.policy) == Ok(t)
  }

  lemma RecordedFollows(s: State, t: State, r: Request, n: State)
    requires Moved(s, t) && s.revision < MAX_REVISION
    requires n == Recorded(AutoStop(t), r.actor, r.command, PrintOf(r.actor, r.command, r.policy))
    ensures n.revision == s.revision + 1 && n.receipts.Keys == s.receipts.Keys + {r.command.id}
    ensures n.id == s.id && n.ownerId == s.ownerId && n.executorId == s.executorId && n.passes == s.passes
    ensures n.books == t.books && n.orders == t.orders && n.pending == t.pending
  {
    hide Balanced, NoNegativeAmount, Reservations, EquityConserved, FeesConserved, PrintOf;
  }

  lemma SameAmounts(s: State, t: State)
    requires s.books == t.books && s.orders == t.orders && s.pending == t.pending && s.passes == t.passes
    ensures AmountsFit(s) == AmountsFit(t) && Cash(s) == Cash(t)
  {}

  /** A command whose branch yields amounts that fit is applied. */
  lemma FittingBranchIsApplied(s: State, r: Request, t: State) returns (n: State)
    requires Reachable(s) && FreshId(s, r.command.id) && Allowed(s, r.actor, r.command.body)
    requires r.command.expectedRevision == s.revision && BranchesTo(s, r, t) && AmountsFit(t)
    ensures Applies(s, r) == Applied(n) && Follows(s, n, r.command.id)
    ensures n.books == t.books && n.orders == t.orders && n.pending == t.pending && Cash(n) == Cash(t)
  {
    n := Candidate(s, r.actor, r.command, r.policy);
    BranchKeepsRecord(s, r.command, ParsedAmount(r.command.body).value, r.policy);
    hide Branch, ParsedAmount, PrintOf, Check, Balanced, HistoryMatches, Tidy, AmountsFit, Moved, Recorded, AutoStop;
    hide Execute, Allowed, Cash;
    ReachableIsBalanced(s);
    assert PassesBranch(s, r.actor, r.command, r.policy);
    BranchConserves(s, r.command, r.policy);
    RecordedFollows(s, t, r, n);
    SameAmounts(t, n);
    ClosingCheckOnlyOverflows(s, r.actor, r.command, r.policy);
    ExecuteKeepsReachable(s, r.actor, r.command, r.policy);
  }

  /** A command whose branch keeps the cash total in bounds is applied. */
  lemma BranchIsApplied(s: State, r: Request, t: State) returns (n: State)
    requires Reachable(s) && FreshId(s, r.command.id) && Allowed(s, r.actor, r.command.body)
    requires r.command.expectedRevision == s.revision && BranchesTo(s, r, t)
    requires Carries(s, t) && Cash(t) <= Money.MAX_INTEGER
    ensures Applies(s, r) == Applied(n) && Follows(s, n, r.command.id)
    ensures n.books == t.books && n.orders == t.orders && n.pending == t.pending && Cash(n) == Cash(t)
  {
    var stopped := AutoStop(t);
    hide Branch, ParsedAmount, Check, Balanced, HistoryMatches, Tidy, AmountsFit, Moved, Execute, Allowed, Cash,
      Follows;
    ReachableIsBalanced(s);
    BranchConserves(s, r.command, r.policy);
    MovedIsBalanced(s, t);
    SameAmounts(t, stopped);
    CarriedFits(s, stopped);
    n := FittingBranchIsApplied(s, r, t);
  }

  lemma CancelStep(s: State, id: string, o: string) returns (r: Request, n: State)
    requires Reachable(s) && FreshId(s, id) && o in s.orders && Cash(s) <= Money.MAX_INTEGER
    ensures r.command.id == id && Applies(s, r) == Applied(n) && Follows(s, n, id)
    ensures n.orders == s.orders - {o} && n.pending == s.pending && Cash(n) == Cash(s)
    ensures n.books.cost == s.books.cost
  {
    hide Balanced, Execute, Follows, HistoryMatches, IdsValid, AmountsFit;
    r := Request(AsOwner(s), Command(id, s.revision, CancelOrder(o)), None);
    var t := s.(orders := s.orders - {o}, books := s.books.(cash := s.books.cash + s.orders[o]));
    assert BranchesTo(s, r, t);
    SumRemove(s.orders, o);
    n := BranchIsApplied(s, r, t);
  }

  lemma FixtureIdIsValid()
    ensures ValidId(FIXTURE_ID)
  {
    assert |FIXTURE_ID| == 35;
    assert forall i :: 0 <= i < 35 ==> IdHead(FIXTURE_ID[i]) || FIXTURE_ID[i] == '-';
  }

  lemma SettledBooks(s: State, proceeds: string) returns (t: State)
    requires s.orders == map[] && s.books.cost > 0 && 0 <= s.books.liability <= s.books.cash && Allowance(s) >= 0
    requires Parse(proceeds).Ok? && Amount(Parse(proceeds).value)
    requires s.books.cash + Parse(proceeds).value <= Money.MAX_INTEGER
    ensures Settled(s, proceeds, Some(Fixture())) == Ok(t) && t == s.(books := t.books)
    ensures t.books.cost == 0 && t.books.value == 0 && t.books.deposits == s.books.deposits
    ensures t.books.cash + t.books.idle == s.books.cash + s.books.idle + Parse(proceeds).value
    ensures t.books.paid == s.books.paid && t.books.feesPaid == s.books.feesPaid
  {
    FixtureIdIsValid();
    hide Parse, ValidId, Allowance;
    var b, p := s.books, Parse(proceeds).value;
    var a := FixtureAssess(Quote(p, b.cost, b.cash, b.liability, Allowance(s)));
    assert a.fee == 0 && Amount(a.excess) && a.excess <= b.cash + p - b.liability;
    t := s.(books := b.(cash := b.cash + p - a.excess, idle := b.idle + a.excess, pnl := b.pnl + p - b.cost,
                        cost := 0, value := 0));
  }

  lemma ParsedIsAmount(text: string)
    ensures Parse(text).Ok? ==> Amount(Parse(text).value)
  {}

  lemma SettleStep(s: State, id: string, proceeds: string) returns (r: Request, n: State)
    requires Reachable(s) && FreshId(s, id) && s.orders == map[] && s.books.cost > 0
    requires Parse(proceeds).Ok? && Cash(s) + Parse(proceeds).value <= Money.MAX_INTEGER
    ensures r.command.id == id && Applies(s, r) == Applied(n) && Follows(s, n, id)
    ensures n.orders == map[] && n.pending == s.pending && Cash(n) == Cash(s) + Parse(proceeds).value
    ensures n.books.cost == 0
  {
    ParsedIsAmount(proceeds);
    hide Execute, Follows, HistoryMatches, IdsValid, AmountsFit, Parse, Settled;
    r := Request(AsExecutor(s), Command(id, s.revision, SettlePosition(proceeds)), Some(Fixture()));
    SumNonNegative(s.pending);
    var t := SettledBooks(s, proceeds);
    assert BranchesTo(s, r, t);
    n := BranchIsApplied(s, r, t);
  }

  lemma PayStep(s: State, id: string) returns (r: Request, n: State)
    requires Reachable(s) && FreshId(s, id) && s.books.liability > 0 && Cash(s) <= Money.MAX_INTEGER
    ensures r.command.id == id && Applies(s, r) == Applied(n) && Follows(s, n, id)
    ensures n.orders == s.orders && n.pending == s.pending && Cash(n) == Cash(s)
    ensures n.books.cost == s.books.cost && n.books.liability == 0
  {
    hide Balanced, Execute, Follows, HistoryMatches, IdsValid, BranchesTo;
    var amount := s.books.liability;
    r := Request(AsExecutor(s), Command(id, s.revision, PayFees(Money.ToText(amount))), None);
    var t := s.(books := s.books.(liability := 0, cash := s.books.cash - amount, feesPaid := s.books.feesPaid + amount));
    TextBranch(s, r, amount, t);
    n := BranchIsApplied(s, r, t);
  }

  /** The text of an amount is read back as that amount. */
  lemma TextBranch(s: State, r: Request, amount: nat, t: State)
    requires 0 < amount <= Money.MAX_INTEGER && AmountText(r.command.body) == Some(Money.ToText(amount))
    requires Branch(s, r.command, amount, r.policy) == Ok(t)
    ensures BranchesTo(s, r, t)
  {
    hide Branch;
    Money.UnsignedRoundTrip([], amount);
  }

  lemma DeallocateStep(s: State, id: string) returns (r: Request, n: State)
    requires Reachable(s) && FreshId(s, id) && s.books.liability == 0 && s.books.cash > 0
    requires Cash(s) <= Money.MAX_INTEGER
    ensures r.command.id == id && Applies(s, r) == Applied(n) && Follows(s, n, id)
    ensures n.orders == s.orders && n.pending == s.pending && Cash(n) == Cash(s)
    ensures n.books.cost == s.books.cost && n.books.liability == 0 && n.books.cash == 0
  {
    hide Balanced, Execute, Follows, HistoryMatches, IdsValid, BranchesTo;
    var amount := s.books.cash;
    r := Request(AsOwner(s), Command(id, s.revision, Deallocate(Money.ToText(amount))), None);
    var t := s.(books := s.books.(cash := 0, idle := s.books.idle + amount));
    TextBranch(s, r, amount, t);
    n := BranchIsApplied(s, r, t);
  }

  lemma RequestStep(s: State, id: string) returns (r: Request, n: State)
    requires Reachable(s) && FreshId(s, id) && s.books.idle > 0 && Cash(s) <= Money.MAX_INTEGER
    ensures r.command.id == id && Applies(s, r) == Applied(n) && Follows(s, n, id)
    ensures n.orders == s.orders && n.pending.Keys == s.pending.Keys + {id} && Cash(n) == Cash(s)
    ensures n.books == s.books.(idle := 0)
  {
    hide Balanced, Execute, Follows, HistoryMatches, IdsValid, BranchesTo;
    var amount := s.books.idle;
    r := Request(AsOwner(s), Command(id, s.revision, RequestWithdrawal(Money.ToText(amount))), None);
    var t := s.(books := s.books.(idle := 0), pending := s.pending[id := amount]);
    SumAdd(s.pending, id, amount);
    TextBranch(s, r, amount, t);
    n := BranchIsApplied(s, r, t);
  }

  lemma ConfirmStep(s: State, id: string, w: string) returns (r: Request, n: State)
    requires Reachable(s) && FreshId(s, id) && w in s.pending && Cash(s) <= Money.MAX_INTEGER
    ensures r.command.id == id && Applies(s, r) == Applied(n) && Follows(s, n, id)
    ensures n.orders == s.orders && n.pending == s.pending - {w} && Cash(n) == Cash(s)
    ensures n.books == s.books.(paid := n.books.paid)
  {
    hide Balanced, Execute, Follows, HistoryMatches, IdsValid, AmountsFit;
    r := Request(AsExecutor(s), Command(id, s.revision, ConfirmWithdrawal(w)), None);
    var t := s.(pending := s.pending - {w}, books := s.books.(paid := s.books.paid + s.pending[w]));
    assert BranchesTo(s, r, t);
    SumRemove(s.pending, w);
    n := BranchIsApplied(s, r, t);
  }

  // ---- the loop -------------------------------------------------------------

  /** Every request of `rs` is applied in turn, from `s` to `t`. */
  ghost predicate Accepts(s: State, rs: seq<Request>, t: State)
    decreases |rs|
  {
    if rs == [] then s == t else Applies(s, rs[0]).Applied? && Accepts(Applies(s, rs[0]).state, rs[1..], t)
  }

  lemma AcceptsNone(s: State)
    ensures Accepts(s, [], s)
  {}

  lemma {:induction false} AcceptsOneMore(s: State, rs: seq<Request>, t: State, r: Request, n: State)
    requires Accepts(s, rs, t) && Applies(t, r) == Applied(n)
    ensures Accepts(s, rs + [r], n)
    decreases |rs|
  {
    hide Applies;
    if rs == [] {
      assert (rs + [r])[1..] == [];
    } else {
      assert (rs + [r])[1..] == rs[1..] + [r];
      AcceptsOneMore(Applies(s, rs[0]).state, rs[1..], t, r, n);
    }
  }

  /** Accepted requests are the run of those requests. */
  lemma {:induction false} AcceptedIsRun(s: State, rs: seq<Request>, t: State)
    requires Accepts(s, rs, t)
    ensures RunAll(s, rs) == t
    decreases |rs|
  {
    hide Execute;
    if rs != [] { AcceptedIsRun(Applies(s, rs[0]).state, rs[1..], t); }
  }

  /** Identifiers for the commands to come: valid, distinct and not used yet. */
  ghost predicate FreshIds(s: State, ids: seq<string>) {
    && s.revision + |ids| <= MAX_REVISION
    && (forall i :: 0 <= i < |ids| ==> ValidId(ids[i]) && ids[i] !in s.receipts)
    && (forall i, j :: 0 <= i < j < |ids| ==> ids[i] != ids[j])
  }

  lemma OneIdLess(s: State, ids: seq<string>, n: State)
    requires ids != [] && FreshIds(s, ids) && Follows(s, n, ids[0])
    ensures Reachable(n) && FreshIds(n, ids[1..])
  {
    hide Reachable, ValidId;
  }

  lemma CancelAll(s: State, ids: seq<string>) returns (rs: seq<Request>, t: State)
    requires Reachable(s) && FreshIds(s, ids) && |ids| >= |s.orders| && Cash(s) <= Money.MAX_INTEGER
    ensures Accepts(s, rs, t) && Reachable(t) && |rs| == |s.orders| && FreshIds(t, ids[|rs|..])
    ensures t.orders == map[] && t.pending == s.pending && Cash(t) == Cash(s) && t.books.cost == s.books.cost
  {
    AcceptsNone(s);
    hide *;
    rs, t := [], s;
    while t.orders != map[]
      invariant Accepts(s, rs, t) && Reachable(t) && |rs| + |t.orders| == |s.orders|
      invariant FreshIds(t, ids[|rs|..])
      invariant t.pending == s.pending && Cash(t) == Cash(s) && t.books.cost == s.books.cost
      decreases |t.orders|
    {
      var o :| o in t.orders;
      var left := ids[|rs|..];
      IdIsFresh(t, left);
      var r, n := CancelStep(t, left[0], o);
      OneIdLess(t, left, n);
      AcceptsOneMore(s, rs, t, r, n);
      assert left[1..] == ids[|rs| + 1..];
      rs, t := rs + [r], n;
    }
  }

  lemma IdIsFresh(s: State, ids: seq<string>)
    requires FreshIds(s, ids) && ids != []
    ensures FreshId(s, ids[0])
  {}

  lemma ConfirmAll(s: State, ids: seq<string>) returns (rs: seq<Request>, t: State)
    requires Reachable(s) && FreshIds(s, ids) && |ids| >= |s.pending| && Cash(s) <= Money.MAX_INTEGER
    ensures Accepts(s, rs, t) && Reachable(t) && |rs| == |s.pending|
    ensures t.orders == s.orders && t.pending == map[] && Cash(t) == Cash(s) && t.books == s.books.(paid := t.books.paid)
  {
    AcceptsNone(s);
    hide *;
    rs, t := [], s;
    while t.pending != map[]
      invariant Accepts(s, rs, t) && Reachable(t) && |rs| + |t.pending| == |s.pending|
      invariant FreshIds(t, ids[|rs|..])
      invariant t.orders == s.orders && Cash(t) == Cash(s) && t.books == s.books.(paid := t.books.paid)
      decreases |t.pending|
    {
      var w :| w in t.pending;
      var left := ids[|rs|..];
      IdIsFresh(t, left);
      var r, n := ConfirmStep(t, left[0], w);
      OneIdLess(t, left, n);
      AcceptsOneMore(s, rs, t, r, n);
      assert left[1..] == ids[|rs| + 1..];
      rs, t := rs + [r], n;
    }
  }

  lemma {:induction false} AcceptsThen(s: State, xs: seq<Request>, m: State, ys: seq<Request>, t: State)
    requires Accepts(s, xs, m) && Accepts(m, ys, t)
    ensures Accepts(s, xs + ys, t)
    decreases |xs|
  {
    hide Applies;
    if xs == [] {
      assert xs + ys == ys;
    } else {
      assert (xs + ys)[1..] == xs[1..] + ys;
      AcceptsThen(Applies(s, xs[0]).state, xs[1..], m, ys, t);
    }
  }

  /** Settles the position, if there is one. */
  lemma SettleIfOpen(s: State, ids: seq<string>, proceeds: string) returns (rs: seq<Request>, t: State)
    requires Reachable(s) && FreshIds(s, ids) && |ids| >= 1 && s.orders == map[] && Parse(proceeds).Ok?
    requires Cash(s) + Proceeds(s, proceeds) <= Money.MAX_INTEGER
    ensures Accepts(s, rs, t) && Reachable(t) && |rs| <= 1 && FreshIds(t, ids[|rs|..])
    ensures t.orders == map[] && t.pending == s.pending && t.books.cost == 0
    ensures Cash(t) == Cash(s) + Proceeds(s, proceeds)
  {
    rs, t := [], s;
    CostNonNegative(s);
    hide Reachable, FreshIds, Cash, Applies, Parse;
    if s.books.cost > 0 {
      IdIsFresh(s, ids);
      var r, n := SettleStep(s, ids[0], proceeds);
      OneIdLess(s, ids, n);
      AcceptsOneMore(s, [], s, r, n);
      rs, t := [r], n;
      assert [] + [r] == rs;
    } else {
      assert ids[0..] == ids;
    }
  }

  lemma CostNonNegative(s: State)
    requires Reachable(s)
    ensures s.books.cost >= 0 && s.books.liability >= 0 && s.books.cash >= 0 && s.books.idle >= 0
    ensures s.books.cost == 0 ==> s.books.value == 0
  {}

  /** What settling at these proceeds brings in. */
  ghost function Proceeds(s: State, proceeds: string): int
    requires Parse(proceeds).Ok?
  {
    if s.books.cost > 0 then Parse(proceeds).value else 0
  }

  /** Pays the fees, if any are owed. */
  lemma PayIfOwed(s: State, ids: seq<string>) returns (rs: seq<Request>, t: State)
    requires Reachable(s) && FreshIds(s, ids) && |ids| >= 1 && s.orders == map[] && Cash(s) <= Money.MAX_INTEGER
    ensures Accepts(s, rs, t) && Reachable(t) && |rs| <= 1 && FreshIds(t, ids[|rs|..])
    ensures t.orders == map[] && t.pending == s.pending && t.books.cost == s.books.cost
    ensures Cash(t) == Cash(s) && t.books.liability == 0
  {
    rs, t := [], s;
    CostNonNegative(s);
    hide Reachable, FreshIds, Cash, Applies;
    if s.books.liability > 0 {
      IdIsFresh(s, ids);
      var r, n := PayStep(s, ids[0]);
      OneIdLess(s, ids, n);
      AcceptsOneMore(s, [], s, r, n);
      rs, t := [r], n;
      assert [] + [r] == rs;
    } else {
      assert ids[0..] == ids;
    }
  }

  /** Moves what is left of the active balance to the idle balance. */
  lemma DeallocateIfAny(s: State, ids: seq<string>) returns (rs: seq<Request>, t: State)
    requires Reachable(s) && FreshIds(s, ids) && |ids| >= 1 && s.orders == map[] && Cash(s) <= Money.MAX_INTEGER
    requires s.books.liability == 0
    ensures Accepts(s, rs, t) && Reachable(t) && |rs| <= 1 && FreshIds(t, ids[|rs|..])
    ensures t.orders == map[] && t.pending == s.pending && t.books.cost == s.books.cost
    ensures Cash(t) == Cash(s) && t.books.liability == 0 && t.books.cash == 0
  {
    rs, t := [], s;
    CostNonNegative(s);
    hide Reachable, FreshIds, Cash, Applies;
    if s.books.cash > 0 {
      IdIsFresh(s, ids);
      var r, n := DeallocateStep(s, ids[0]);
      OneIdLess(s, ids, n);
      AcceptsOneMore(s, [], s, r, n);
      rs, t := [r], n;
      assert [] + [r] == rs;
    } else {
      assert ids[0..] == ids;
    }
  }

  /** Asks for the whole idle balance, if there is any. */
  lemma RequestIdle(s: State, ids: seq<string>) returns (rs: seq<Request>, t: State)
    requires Reachable(s) && FreshIds(s, ids) && |ids| >= 1 && Cash(s) <= Money.MAX_INTEGER
    ensures Accepts(s, rs, t) && Reachable(t) && |rs| <= 1 && FreshIds(t, ids[|rs|..])
    ensures t.orders == s.orders && Cash(t) == Cash(s) && t.books == s.books.(idle := 0)
    ensures |t.pending| <= |s.pending| + |rs|
  {
    rs, t := [], s;
    CostNonNegative(s);
    hide Reachable, FreshIds, Cash, Applies;
    if s.books.idle > 0 {
      IdIsFresh(s, ids);
      var r, n := RequestStep(s, ids[0]);
      OneIdLess(s, ids, n);
      AcceptsOneMore(s, [], s, r, n);
      rs, t := [r], n;
      assert [] + [r] == rs;
      assert |n.pending.Keys| <= |s.pending.Keys| + 1;
    } else {
      assert ids[0..] == ids;
    }
  }

  /** Nothing is left: no cash, no order, no position, nothing owed and nothing pending. */
  ghost predicate Empty(s: State) {
    && s.orders == map[] && s.pending == map[]
    && s.books.idle == 0 && s.books.cash == 0 && s.books.cost == 0 && s.books.value == 0 && s.books.liability == 0
  }

  /** The commands before the withdrawals are confirmed. */
  lemma CloseOut(s: State, ids: seq<string>, proceeds: string) returns (rs: seq<Request>, t: State)
    requires Reachable(s) && FreshIds(s, ids) && |ids| >= |s.orders| + 4 && Parse(proceeds).Ok?
    requires Cash(s) + Proceeds(s, proceeds) <= Money.MAX_INTEGER
    ensures Accepts(s, rs, t) && Reachable(t) && |rs| <= |s.orders| + 4 && FreshIds(t, ids[|rs|..])
    ensures |rs| + |t.pending| <= |s.orders| + |s.pending| + 5 && |t.pending| <= |s.pending| + 1
    ensures t.orders == map[] && t.books.cost == 0 && t.books.idle == 0 && t.books.cash == 0 && t.books.liability == 0
    ensures Cash(t) == Cash(s) + Proceeds(s, proceeds)
  {
    ParsedIsAmount(proceeds);
    hide Reachable, FreshIds, Cash, Applies, Parse, Accepts;
    var xs, a := CancelAll(s, ids);
    var left := ids[|xs|..];
    var ys, b := SettleIfOpen(a, left, proceeds);
    AcceptsThen(s, xs, a, ys, b);
    left := left[|ys|..];
    var zs, c := PayIfOwed(b, left);
    AcceptsThen(s, xs + ys, b, zs, c);
    left := left[|zs|..];
    var vs, e := DeallocateIfAny(c, left);
    AcceptsThen(s, xs + ys + zs, c, vs, e);
    left := left[|vs|..];
    var us, d := RequestIdle(e, left);
    AcceptsThen(s, xs + ys + zs + vs, e, us, d);
    rs, t := xs + ys + zs + vs + us, d;
    assert left[|us|..] == ids[|rs|..];
  }

  /**
   Every reachable vault can be wound down. Given enough unused identifiers and
   revisions, and cash that stays in bounds once the position is settled, every
   command of the sequence is accepted, the vault ends empty, and all its cash and
   the proceeds have been paid out or paid in fees.
   */
  lemma WindDown(s: State, ids: seq<string>, proceeds: string) returns (rs: seq<Request>, t: State)
    requires Reachable(s) && FreshIds(s, ids) && |ids| >= |s.orders| + |s.pending| + 5 && Parse(proceeds).Ok?
    requires Cash(s) + Proceeds(s, proceeds) <= Money.MAX_INTEGER
    ensures Accepts(s, rs, t) && RunAll(s, rs) == t && |rs| <= |s.orders| + |s.pending| + 5
    ensures Reachable(t) && Empty(t)
    ensures t.books.paid + t.books.feesPaid == Cash(s) + Proceeds(s, proceeds)
  {
    hide Reachable, FreshIds, Applies, Parse, Accepts;
    var xs, a := CloseOut(s, ids, proceeds);
    CashIsNoMore(s, proceeds);
    var ys, b := ConfirmAll(a, ids[|xs|..]);
    AcceptsThen(s, xs, a, ys, b);
    rs, t := xs + ys, b;
    AcceptedIsRun(s, rs, t);
    CostNonNegative(t);
  }

  lemma CashIsNoMore(s: State, proceeds: string)
    requires Parse(proceeds).Ok?
    ensures Proceeds(s, proceeds) >= 0
  {
    ParsedIsAmount(proceeds);
  }
}
