/**
 The risk evaluation: a strategy's target positions against the account's current
 ones, turned into orders or refused.
 */
module Risk {
  import opened Prelude
  import Money
  import V = Vault

  datatype RiskError =
    | VenueMismatch | InvalidAmount | InvalidIdentifier | DuplicateTarget | InstrumentNotAllowed
    | PositionLimitExceeded | OrderLimitExceeded | GrossLimitExceeded | LeverageLimitExceeded | DailyLossKillSwitch

  datatype Target = Target(instrument: string, amount: string)

  datatype Order = Order(instrument: string, delta: int)

  datatype Limits = Limits(
    venues: seq<string>, instruments: seq<string>, maxPosition: string, maxOrder: string, maxGross: string,
    maxLeverageBps: int, maxDailyLoss: string)

  datatype Account = Account(venue: string, equity: string, dailyPnl: string, positions: map<string, string>)

  type Book = map<string, int>

  predicate IdentifierChar(c: char) {
    'A' <= c <= 'Z' || 'a' <= c <= 'z' || '0' <= c <= '9' || c == ':' || c == '.' || c == '_' || c == '/' || c == '-'
  }

  predicate Identifier(s: string) {
    1 <= |s| <= 128 && V.IdHead(s[0]) && forall c <- s :: IdentifierChar(c)
  }

  /** A canonical integer text, with an optional minus sign. */
  function ParseAmount(s: string): (r: Result<int, RiskError>)
    ensures r.Err? ==> r.error == InvalidAmount
  {
    var negative := s != [] && s[0] == '-';
    var digits := if negative then s[1..] else s;
    if !Money.Canonical(digits) then Err(InvalidAmount)
    else Ok(if negative then 0 - Money.Value(digits) else Money.Value(digits))
  }

  function ParsePositive(s: string): Result<int, RiskError> {
    var parsed := ParseAmount(s);
    if parsed.Ok? && parsed.value <= 0 then Err(InvalidAmount) else parsed
  }

  function Abs(x: int): nat { if x < 0 then -x else x }

  /** The position in an instrument; none counts as zero. */
  function At(b: Book, k: string): int { if k in b then b[k] else 0 }

  /** The gross notional: the sum of the absolute positions. */
  ghost function Gross(b: Book): int { V.Sum(Sizes(b)) }

  function Sizes(b: Book): Book { map k | k in b :: Abs(b[k]) }

  // ---- what the evaluation decides -----------------------------------------

  predicate Readable(positions: map<string, string>) { forall k :: k in positions ==> ParseAmount(positions[k]).Ok? }

  function Current(positions: map<string, string>): Book
    requires Readable(positions)
  {
    map k | k in positions :: ParseAmount(positions[k]).value
  }

  /** What is wrong with the last of the targets, given the ones before it. */
  function TargetFault(current: Book, earlier: seq<Target>, t: Target, limits: Limits, maxPosition: int, maxOrder: int)
    : Option<RiskError>
  {
    if !Identifier(t.instrument) then Some(InvalidIdentifier)
    else if exists i :: 0 <= i < |earlier| && earlier[i].instrument == t.instrument then Some(DuplicateTarget)
    else if t.instrument !in limits.instruments then Some(InstrumentNotAllowed)
    else if ParseAmount(t.amount).Err? then Some(InvalidAmount)
    else if Abs(ParseAmount(t.amount).value) > maxPosition then Some(PositionLimitExceeded)
    else if Abs(ParseAmount(t.amount).value - At(current, t.instrument)) > maxOrder then Some(OrderLimitExceeded)
    else None
  }

  predicate FaultFree(current: Book, targets: seq<Target>, limits: Limits, maxPosition: int, maxOrder: int) {
    forall i :: 0 <= i < |targets| ==>
      TargetFault(current, targets[..i], targets[i], limits, maxPosition, maxOrder).None?
  }

  predicate Parsed(targets: seq<Target>) { forall i :: 0 <= i < |targets| ==> ParseAmount(targets[i].amount).Ok? }

  /** The book with every target put in place. */
  function Resulting(current: Book, targets: seq<Target>): Book
    requires Parsed(targets)
  {
    if targets == [] then current
    else
      var t := targets[|targets| - 1];
      Resulting(current, targets[..|targets| - 1])[t.instrument := ParseAmount(t.amount).value]
  }

  /** One order for each target that differs from the current position. */
  function OrdersFor(current: Book, targets: seq<Target>): seq<Order>
    requires Parsed(targets)
  {
    if targets == [] then []
    else
      var t := targets[|targets| - 1];
      var delta := ParseAmount(t.amount).value - At(current, t.instrument);
      OrdersFor(current, targets[..|targets| - 1]) + (if delta != 0 then [Order(t.instrument, delta)] else [])
  }

  predicate Reduces(before: int, after: int) {
    Abs(after) <= Abs(before) && (after == 0 || (before != 0 && (after > 0) == (before > 0)))
  }

  predicate ReductionOnly(current: Book, targets: seq<Target>)
    requires Parsed(targets)
  {
    forall i :: 0 <= i < |targets| ==> Reduces(At(current, targets[i].instrument), ParseAmount(targets[i].amount).value)
  }

  /** The checks on the whole portfolio, in their order. */
  ghost function PortfolioFault(current: Book, targets: seq<Target>, account: Account, limits: Limits): Option<RiskError>
    requires Parsed(targets)
  {
    var before, after := Gross(current), Gross(Resulting(current, targets));
    var maxGross, equity := ParsePositive(limits.maxGross), ParsePositive(account.equity);
    var pnl, maxLoss := ParseAmount(account.dailyPnl), ParsePositive(limits.maxDailyLoss);
    if maxGross.Err? then Some(maxGross.error)
    else if after > maxGross.value then Some(GrossLimitExceeded)
    else if equity.Err? then Some(equity.error)
    else if after * 10000 > equity.value * limits.maxLeverageBps then Some(LeverageLimitExceeded)
    else if pnl.Err? then Some(pnl.error)
    else if maxLoss.Err? then Some(maxLoss.error)
    else if pnl.value <= -maxLoss.value && (after >= before || !ReductionOnly(current, targets)) then
      Some(DailyLossKillSwitch)
    else None
  }

  /** The whole evaluation: the orders, or the first thing that refuses the decision. */
  ghost function Verdict(venue: string, targets: seq<Target>, account: Account, limits: Limits)
    : Result<seq<Order>, RiskError>
  {
    var maxPosition, maxOrder := ParsePositive(limits.maxPosition), ParsePositive(limits.maxOrder);
    if venue != account.venue then Err(VenueMismatch)
    else if !Readable(account.positions) then Err(InvalidAmount)
    else if maxPosition.Err? then Err(maxPosition.error)
    else if maxOrder.Err? then Err(maxOrder.error)
    else
      var current := Current(account.positions);
      var fault := FirstFault(current, targets, |targets|, limits, maxPosition.value, maxOrder.value);
      if fault.Some? then Err(fault.value)
      else
        FaultFreeIsParsed(current, targets, limits, maxPosition.value, maxOrder.value);
        var portfolio := PortfolioFault(current, targets, account, limits);
        if portfolio.Some? then Err(portfolio.value) else Ok(OrdersFor(current, targets))
  }

  /** The fault of the first faulty one of the first `n` targets. */
  function FirstFault(current: Book, targets: seq<Target>, n: nat, limits: Limits, maxPosition: int, maxOrder: int)
    : (f: Option<RiskError>)
    requires n <= |targets|
    ensures f.None? <==> FaultFree(current, targets[..n], limits, maxPosition, maxOrder)
  {
    if n == 0 then None
    else
      var first := FirstFault(current, targets, n - 1, limits, maxPosition, maxOrder);
      PrefixFaults(current, targets, n, limits, maxPosition, maxOrder);
      if first.Some? then first
      else TargetFault(current, targets[..n - 1], targets[n - 1], limits, maxPosition, maxOrder)
  }

  lemma PrefixFaults(current: Book, targets: seq<Target>, n: nat, limits: Limits, maxPosition: int, maxOrder: int)
    requires 0 < n <= |targets|
    ensures FaultFree(current, targets[..n], limits, maxPosition, maxOrder) <==>
              FaultFree(current, targets[..n - 1], limits, maxPosition, maxOrder)
              && TargetFault(current, targets[..n - 1], targets[n - 1], limits, maxPosition, maxOrder).None?
  {
    hide TargetFault;
    assert forall i :: 0 <= i < n ==> targets[..n][i] == targets[i];
    assert forall i :: 0 <= i < n ==> targets[..n][..i] == targets[..i];
    assert forall i :: 0 <= i < n - 1 ==> targets[..n - 1][..i] == targets[..i];
    assert targets[..n][n - 1] == targets[n - 1] && targets[..n][..n - 1] == targets[..n - 1];
  }

  lemma FaultFreeIsParsed(current: Book, targets: seq<Target>, limits: Limits, maxPosition: int, maxOrder: int)
    requires FaultFree(current, targets[..|targets|], limits, maxPosition, maxOrder)
    ensures Parsed(targets)
  {
    assert targets[..|targets|] == targets;
  }

  // ---- the evaluation itself ------------------------------------------------

  method GrossNotional(b: Book) returns (total: int)
    ensures total == Gross(b)
  {
    total := 0;
    var rest := b;
    while rest != map[]
      invariant total + Gross(rest) == Gross(b)
      decreases |rest|
    {
      var k :| k in rest;
      V.SumRemove(Sizes(rest), k);
      assert Sizes(rest - {k}) == Sizes(rest) - {k};
      total := total + Abs(rest[k]);
      rest := rest - {k};
    }
  }

  method ReadPositions(positions: map<string, string>) returns (r: Result<Book, RiskError>)
    ensures r == if Readable(positions) then Ok(Current(positions)) else Err(InvalidAmount)
  {
    hide ParseAmount;
    var book: Book := map[];
    var rest := positions.Keys;
    while rest != {}
      invariant rest <= positions.Keys && book.Keys == positions.Keys - rest
      invariant forall k :: k in book ==> ParseAmount(positions[k]) == Ok(book[k])
      decreases |rest|
    {
      var k :| k in rest;
      var amount := ParseAmount(positions[k]);
      if amount.Err? { return Err(InvalidAmount); }
      book, rest := book[k := amount.value], rest - {k};
    }
    assert book.Keys == positions.Keys;
    assert Readable(positions) && book == Current(positions);
    return Ok(book);
  }

  method IsReductionOnly(targets: seq<Target>, current: Book) returns (ok: bool)
    requires Parsed(targets)
    ensures ok == ReductionOnly(current, targets)
  {
    for i := 0 to |targets|
      invariant forall j :: 0 <= j < i ==> Reduces(At(current, targets[j].instrument), ParseAmount(targets[j].amount).value)
    {
      var before, after := At(current, targets[i].instrument), ParseAmount(targets[i].amount).value;
      if Abs(after) > Abs(before) { return false; }
      if after != 0 && !(before != 0 && (after > 0) == (before > 0)) { return false; }
    }
    return true;
  }

  /** The evaluation as it runs: one pass over the targets with the books it updates, then the portfolio checks. */
  method EvaluateRisk(venue: string, targets: seq<Target>, account: Account, limits: Limits)
    returns (r: Result<seq<Order>, RiskError>)
    ensures r == Verdict(venue, targets, account, limits)
  {
    hide ParseAmount, TargetFault, PortfolioFault, Gross;
    if venue != account.venue { return Err(VenueMismatch); }
    var read := ReadPositions(account.positions);
    if read.Err? { return Err(read.error); }
    var current := read.value;
    var maxPosition := ParsePositive(limits.maxPosition);
    if maxPosition.Err? { return Err(maxPosition.error); }
    var maxOrder := ParsePositive(limits.maxOrder);
    if maxOrder.Err? { return Err(maxOrder.error); }
    var placed := PlaceTargets(current, targets, limits, maxPosition.value, maxOrder.value);
    if placed.Err? { return Err(placed.error); }
    var fault := CheckPortfolio(current, targets, placed.value.0, account, limits);
    return if fault.Some? then Err(fault.value) else Ok(placed.value.1);
  }

  /** The checks on one target, against the instruments already seen. */
  method CheckTarget(current: Book, t: Target, seen: set<string>, limits: Limits, maxPosition: int, maxOrder: int,
                     ghost earlier: seq<Target>)
    returns (r: Result<int, RiskError>)
    requires t.instrument in seen <==> exists j :: 0 <= j < |earlier| && earlier[j].instrument == t.instrument
    ensures match TargetFault(current, earlier, t, limits, maxPosition, maxOrder)
            case Some(e) => r == Err(e)
            case None => r == ParseAmount(t.amount) && r.Ok?
  {
    hide ParseAmount, Identifier;
    if !Identifier(t.instrument) { return Err(InvalidIdentifier); }
    if t.instrument in seen { return Err(DuplicateTarget); }
    if t.instrument !in limits.instruments { return Err(InstrumentNotAllowed); }
    r := ParseAmount(t.amount);
    if r.Err? { return; }
    if Abs(r.value) > maxPosition { return Err(PositionLimitExceeded); }
    if Abs(r.value - At(current, t.instrument)) > maxOrder { return Err(OrderLimitExceeded); }
  }

  /** The pass over the targets. */
  method PlaceTargets(current: Book, targets: seq<Target>, limits: Limits, maxPosition: int, maxOrder: int)
    returns (r: Result<(Book, seq<Order>), RiskError>)
    ensures var fault := FirstFault(current, targets, |targets|, limits, maxPosition, maxOrder);
            match r
            case Err(e) => fault == Some(e)
            case Ok((book, orders)) =>
              fault.None? && Parsed(targets) && book == Resulting(current, targets) && orders == OrdersFor(current, targets)
  {
    var resulting := current;
    var seen: set<string> := {};
    var orders: seq<Order> := [];
    hide ParseAmount, FaultFree, TargetFault;
    for i := 0 to |targets|
      invariant FirstFault(current, targets, i, limits, maxPosition, maxOrder).None? && Parsed(targets[..i])
      invariant forall k :: k in seen <==> exists j :: 0 <= j < i && targets[j].instrument == k
      invariant resulting == Resulting(current, targets[..i]) && orders == OrdersFor(current, targets[..i])
    {
      var t := targets[i];
      SeenIsEarlier(targets, i, seen);
      var amount := CheckTarget(current, t, seen, limits, maxPosition, maxOrder, targets[..i]);
      if amount.Err? {
        FaultsFirst(current, targets, i, |targets|, limits, maxPosition, maxOrder);
        return Err(amount.error);
      }
      seen := seen + {t.instrument};
      var delta := amount.value - At(current, t.instrument);
      resulting := resulting[t.instrument := amount.value];
      if delta != 0 { orders := orders + [Order(t.instrument, delta)]; }
      OneMoreTarget(current, targets, i);
    }
    assert targets[..|targets|] == targets;
    return Ok((resulting, orders));
  }

  lemma SeenIsEarlier(targets: seq<Target>, i: nat, seen: set<string>)
    requires i < |targets| && forall k :: k in seen <==> exists j :: 0 <= j < i && targets[j].instrument == k
    ensures targets[i].instrument in seen <==> exists j :: 0 <= j < |targets[..i]| && targets[..i][j].instrument == targets[i].instrument
  {
    assert forall j :: 0 <= j < i ==> targets[..i][j] == targets[j];
  }

  lemma {:induction false} FaultsFirst(current: Book, targets: seq<Target>, i: nat, n: nat, limits: Limits,
                                       maxPosition: int, maxOrder: int)
    requires i < n <= |targets| && FirstFault(current, targets, i, limits, maxPosition, maxOrder).None?
    requires TargetFault(current, targets[..i], targets[i], limits, maxPosition, maxOrder).Some?
    ensures FirstFault(current, targets, n, limits, maxPosition, maxOrder)
            == TargetFault(current, targets[..i], targets[i], limits, maxPosition, maxOrder)
  {
    hide TargetFault, FaultFree;
    if n > i + 1 { FaultsFirst(current, targets, i, n - 1, limits, maxPosition, maxOrder); }
  }

  lemma OneMoreTarget(current: Book, targets: seq<Target>, i: nat)
    requires i < |targets| && Parsed(targets[..i]) && ParseAmount(targets[i].amount).Ok?
    ensures Parsed(targets[..i + 1])
    ensures var amount := ParseAmount(targets[i].amount).value;
            var delta := amount - At(current, targets[i].instrument);
            && Resulting(current, targets[..i + 1])
               == Resulting(current, targets[..i])[targets[i].instrument := amount]
            && OrdersFor(current, targets[..i + 1])
               == OrdersFor(current, targets[..i]) + (if delta != 0 then [Order(targets[i].instrument, delta)] else [])
  {
    hide ParseAmount;
    assert targets[..i + 1][..i] == targets[..i] && targets[..i + 1][i] == targets[i];
    assert forall j :: 0 <= j < i ==> targets[..i + 1][j] == targets[..i][j];
  }

  method CheckPortfolio(current: Book, targets: seq<Target>, resulting: Book, account: Account, limits: Limits)
    returns (fault: Option<RiskError>)
    requires Parsed(targets) && resulting == Resulting(current, targets)
    ensures fault == PortfolioFault(current, targets, account, limits)
  {
    hide ParseAmount, Gross;
    var before := GrossNotional(current);
    var after := GrossNotional(resulting);
    var maxGross := ParsePositive(limits.maxGross);
    if maxGross.Err? { return Some(maxGross.error); }
    if after > maxGross.value { return Some(GrossLimitExceeded); }
    var equity := ParsePositive(account.equity);
    if equity.Err? { return Some(equity.error); }
    if after * 10000 > equity.value * limits.maxLeverageBps { return Some(LeverageLimitExceeded); }
    var pnl := ParseAmount(account.dailyPnl);
    if pnl.Err? { return Some(pnl.error); }
    var maxLoss := ParsePositive(limits.maxDailyLoss);
    if maxLoss.Err? { return Some(maxLoss.error); }
    if pnl.value <= -maxLoss.value {
      if after >= before { return Some(DailyLossKillSwitch); }
      var reduction := IsReductionOnly(targets, current);
      if !reduction { return Some(DailyLossKillSwitch); }
    }
    return None;
  }

  // ---- what acceptance means ------------------------------------------------

  /** The book after every order has been filled. */
  function Filled(b: Book, orders: seq<Order>): Book {
    if orders == [] then b
    else
      var o := orders[|orders| - 1];
      var earlier := Filled(b, orders[..|orders| - 1]);
      earlier[o.instrument := At(earlier, o.instrument) + o.delta]
  }

  predicate Distinct(targets: seq<Target>) {
    forall i, j :: 0 <= i < j < |targets| ==> targets[i].instrument != targets[j].instrument
  }

  predicate Targeted(targets: seq<Target>, k: string) { exists i :: 0 <= i < |targets| && targets[i].instrument == k }

  /** Targets name distinct instruments, so each ends where its own target says and nothing else moves. */
  lemma {:induction false} ResultingPlacesTargets(current: Book, targets: seq<Target>, k: string)
    requires Parsed(targets) && Distinct(targets)
    ensures forall i :: 0 <= i < |targets| && targets[i].instrument == k ==>
              At(Resulting(current, targets), k) == ParseAmount(targets[i].amount).value
    ensures !Targeted(targets, k) ==>
              At(Resulting(current, targets), k) == At(current, k) && (k in Resulting(current, targets) <==> k in current)
    decreases |targets|
  {
    hide ParseAmount;
    if targets != [] {
      var n := |targets| - 1;
      ResultingPlacesTargets(current, targets[..n], k);
      assert forall i :: 0 <= i < n ==> targets[..n][i] == targets[i];
      assert Targeted(targets[..n], k) ==> Targeted(targets, k);
    }
  }

  /** Filling the orders moves every position where its target says. */
  lemma {:induction false} FillingReachesTargets(current: Book, targets: seq<Target>, k: string)
    requires Parsed(targets) && Distinct(targets)
    ensures At(Filled(current, OrdersFor(current, targets)), k) == At(Resulting(current, targets), k)
    ensures !Targeted(targets, k) ==> (k in Filled(current, OrdersFor(current, targets)) <==> k in current)
    decreases |targets|
  {
    if targets == [] {
      assert OrdersFor(current, targets) == [] && Filled(current, []) == current;
    } else {
      var n := |targets| - 1;
      var earlier := targets[..n];
      assert forall i :: 0 <= i < n ==> earlier[i] == targets[i];
      assert !Targeted(earlier, targets[n].instrument) && (Targeted(earlier, k) ==> Targeted(targets, k));
      FillingReachesTargets(current, earlier, k);
      ResultingPlacesTargets(current, earlier, targets[n].instrument);
      LastTarget(current, targets, k);
    }
  }

  lemma LastTarget(current: Book, targets: seq<Target>, k: string)
    requires Parsed(targets) && targets != []
    requires var earlier := targets[..|targets| - 1]; var instrument := targets[|targets| - 1].instrument;
             && At(Resulting(current, earlier), instrument) == At(current, instrument)
             && At(Filled(current, OrdersFor(current, earlier)), k) == At(Resulting(current, earlier), k)
    ensures At(Filled(current, OrdersFor(current, targets)), k) == At(Resulting(current, targets), k)
    ensures k != targets[|targets| - 1].instrument ==>
              (k in Filled(current, OrdersFor(current, targets))
               <==> k in Filled(current, OrdersFor(current, targets[..|targets| - 1])))
  {
    hide OrdersFor, Resulting, Filled, ParseAmount;
    var n := |targets| - 1;
    var t, earlier := targets[n], targets[..n];
    assert targets[..n + 1] == targets;
    OneMoreTarget(current, targets, n);
    var amount := ParseAmount(t.amount).value;
    var orders := OrdersFor(current, earlier);
    OneMoreFill(current, orders, Order(t.instrument, amount - At(current, t.instrument)));
    assert orders + [] == orders;
    LastFill(current, Filled(current, orders), Resulting(current, earlier), t.instrument, amount, k);
  }

  /** The order of the last target lands on a position no earlier order has touched. */
  lemma LastFill(current: Book, filled: Book, resulting: Book, instrument: string, amount: int, k: string)
    requires At(filled, k) == At(resulting, k) && At(resulting, instrument) == At(current, instrument)
    ensures var delta := amount - At(current, instrument);
            var after := if delta != 0 then filled[instrument := At(filled, instrument) + delta] else filled;
            At(after, k) == At(resulting[instrument := amount], k) && (k != instrument ==> (k in after <==> k in filled))
  {}

  lemma OneMoreFill(b: Book, orders: seq<Order>, o: Order)
    ensures Filled(b, orders + [o]) == Filled(b, orders)[o.instrument := At(Filled(b, orders), o.instrument) + o.delta]
  {
    assert (orders + [o])[..|orders|] == orders;
  }

  // ---- the gross notional depends on positions alone -----------------------

  function NonZero(b: Book): Book { map k | k in b && b[k] != 0 :: b[k] }

  lemma {:induction false} ZerosDoNotCount(m: Book)
    ensures V.Sum(m) == V.Sum(NonZero(m))
    decreases |m|
  {
    hide V.Sum;
    if m != map[] {
      var k :| k in m;
      V.SumRemove(m, k);
      ZerosDoNotCount(m - {k});
      if m[k] == 0 {
        assert NonZero(m - {k}) == NonZero(m);
      } else {
        V.SumRemove(NonZero(m), k);
        assert NonZero(m) - {k} == NonZero(m - {k});
      }
    } else {
      assert NonZero(m) == m;
    }
  }

  lemma GrossByPosition(a: Book, b: Book)
    requires forall k :: At(a, k) == At(b, k)
    ensures Gross(a) == Gross(b)
  {
    ZerosDoNotCount(Sizes(a));
    ZerosDoNotCount(Sizes(b));
    forall k ensures k in NonZero(Sizes(a)) <==> k in NonZero(Sizes(b)) { assert At(a, k) == At(b, k); }
    forall k | k in NonZero(Sizes(a)) ensures NonZero(Sizes(a))[k] == NonZero(Sizes(b))[k] { assert At(a, k) == At(b, k); }
    assert NonZero(Sizes(a)) == NonZero(Sizes(b));
  }

  // ---- the verdict, in terms of the book the orders lead to ----------------

  /** Each target on its own: known, distinct and within the limits of one position and one order. */
  ghost predicate TargetsAllowed(current: Book, targets: seq<Target>, limits: Limits, maxPosition: int, maxOrder: int) {
    && Parsed(targets) && Distinct(targets)
    && forall i :: 0 <= i < |targets| ==>
         var t := targets[i]; var amount := ParseAmount(t.amount).value;
         && Identifier(t.instrument) && t.instrument in limits.instruments
         && Abs(amount) <= maxPosition && Abs(amount - At(current, t.instrument)) <= maxOrder
  }

  /** Nothing grows or changes sides, and exposure strictly falls. */
  ghost predicate Unwinds(before: Book, after: Book) {
    Gross(after) < Gross(before) && forall k :: Reduces(At(before, k), At(after, k))
  }

  /** The portfolio after the orders keeps within the account's limits. */
  ghost predicate BookAllowed(before: Book, after: Book, account: Account, limits: Limits) {
    && ParsePositive(limits.maxGross).Ok? && Gross(after) <= ParsePositive(limits.maxGross).value
    && ParsePositive(account.equity).Ok?
    && Gross(after) * 10000 <= ParsePositive(account.equity).value * limits.maxLeverageBps
    && ParseAmount(account.dailyPnl).Ok? && ParsePositive(limits.maxDailyLoss).Ok?
    && (ParseAmount(account.dailyPnl).value <= -ParsePositive(limits.maxDailyLoss).value ==> Unwinds(before, after))
  }

  lemma FaultFreeIsAllowed(current: Book, targets: seq<Target>, limits: Limits, maxPosition: int, maxOrder: int)
    ensures FaultFree(current, targets, limits, maxPosition, maxOrder) <==>
              TargetsAllowed(current, targets, limits, maxPosition, maxOrder)
  {
    hide ParseAmount, Identifier;
    assert forall i, j :: 0 <= j < i < |targets| ==> targets[..i][j] == targets[j];
    if FaultFree(current, targets, limits, maxPosition, maxOrder) {
      forall i, j | 0 <= i < j < |targets| ensures targets[i].instrument != targets[j].instrument {
        assert TargetFault(current, targets[..j], targets[j], limits, maxPosition, maxOrder).None?;
        assert targets[..j][i].instrument != targets[j].instrument;
      }
      forall i | 0 <= i < |targets| ensures TargetFault(current, targets[..i], targets[i], limits, maxPosition, maxOrder).None? {}
    }
  }

  lemma FillingResults(current: Book, targets: seq<Target>)
    requires Parsed(targets) && Distinct(targets)
    ensures forall k :: At(Filled(current, OrdersFor(current, targets)), k) == At(Resulting(current, targets), k)
    ensures Gross(Filled(current, OrdersFor(current, targets))) == Gross(Resulting(current, targets))
  {
    forall k ensures At(Filled(current, OrdersFor(current, targets)), k) == At(Resulting(current, targets), k) {
      FillingReachesTargets(current, targets, k);
    }
    hide Filled, OrdersFor, Resulting, Parsed, Distinct;
    GrossByPosition(Filled(current, OrdersFor(current, targets)), Resulting(current, targets));
  }

  /** Reducing every target is reducing every position of the account. */
  lemma ReductionIsEverywhere(current: Book, targets: seq<Target>)
    requires Parsed(targets) && Distinct(targets)
    ensures ReductionOnly(current, targets) <==>
              forall k :: Reduces(At(current, k), At(Filled(current, OrdersFor(current, targets)), k))
  {
    var after := Filled(current, OrdersFor(current, targets));
    FillingResults(current, targets);
    hide ParseAmount, Filled, OrdersFor, Distinct;
    forall k ensures !Targeted(targets, k) ==> At(after, k) == At(current, k) {
      ResultingPlacesTargets(current, targets, k);
    }
    forall i | 0 <= i < |targets| ensures At(after, targets[i].instrument) == ParseAmount(targets[i].amount).value {
      ResultingPlacesTargets(current, targets, targets[i].instrument);
    }
    hide Resulting;
    if ReductionOnly(current, targets) {
      forall k ensures Reduces(At(current, k), At(after, k)) {
        if Targeted(targets, k) {
          var i :| 0 <= i < |targets| && targets[i].instrument == k;
        }
      }
    }
  }

  lemma PortfolioIsAllowed(current: Book, targets: seq<Target>, account: Account, limits: Limits)
    requires Parsed(targets) && Distinct(targets)
    ensures PortfolioFault(current, targets, account, limits).None? <==>
              BookAllowed(current, Filled(current, OrdersFor(current, targets)), account, limits)
  {
    FillingResults(current, targets);
    ReductionIsEverywhere(current, targets);
    hide ParseAmount, Gross, Filled, OrdersFor, Resulting, ReductionOnly, Reduces;
  }

  /**
   The evaluation accepts exactly the decisions whose orders lead to an allowed book: then every
   targeted instrument ends at its target and every other one is untouched.
   */
  lemma VerdictIsExact(venue: string, targets: seq<Target>, account: Account, limits: Limits)
    ensures Verdict(venue, targets, account, limits).Ok? <==>
              && venue == account.venue && Readable(account.positions)
              && ParsePositive(limits.maxPosition).Ok? && ParsePositive(limits.maxOrder).Ok?
              && var current := Current(account.positions);
              && TargetsAllowed(current, targets, limits, ParsePositive(limits.maxPosition).value, ParsePositive(limits.maxOrder).value)
              && BookAllowed(current, Filled(current, OrdersFor(current, targets)), account, limits)
    ensures Verdict(venue, targets, account, limits).Ok? ==>
              var current := Current(account.positions);
              var orders := Verdict(venue, targets, account, limits).value;
              && (forall i :: 0 <= i < |targets| ==>
                    At(Filled(current, orders), targets[i].instrument) == ParseAmount(targets[i].amount).value)
              && (forall k :: !Targeted(targets, k) ==>
                    At(Filled(current, orders), k) == At(current, k) && (k in Filled(current, orders) <==> k in current))
  {
    if venue == account.venue && Readable(account.positions)
       && ParsePositive(limits.maxPosition).Ok? && ParsePositive(limits.maxOrder).Ok?
    {
      var current := Current(account.positions);
      assert targets[..|targets|] == targets;
      FaultFreeIsAllowed(current, targets, limits, ParsePositive(limits.maxPosition).value, ParsePositive(limits.maxOrder).value);
      if Parsed(targets) && Distinct(targets) {
        PortfolioIsAllowed(current, targets, account, limits);
        OrdersReachTargets(current, targets);
      }
    }
    hide ParseAmount, ParsePositive, FirstFault, FaultFree, PortfolioFault, BookAllowed, Filled, OrdersFor, Targeted,
      Distinct, Current;
  }

  lemma OrdersReachTargets(current: Book, targets: seq<Target>)
    requires Parsed(targets) && Distinct(targets)
    ensures forall i :: 0 <= i < |targets| ==>
              At(Filled(current, OrdersFor(current, targets)), targets[i].instrument) == ParseAmount(targets[i].amount).value
    ensures forall k :: !Targeted(targets, k) ==>
              At(Filled(current, OrdersFor(current, targets)), k) == At(current, k)
              && (k in Filled(current, OrdersFor(current, targets)) <==> k in current)
  {
    var after := Filled(current, OrdersFor(current, targets));
    hide ParseAmount, Distinct, Filled, OrdersFor, Resulting;
    forall i | 0 <= i < |targets| ensures At(after, targets[i].instrument) == ParseAmount(targets[i].amount).value {
      FillingReachesTargets(current, targets, targets[i].instrument);
      ResultingPlacesTargets(current, targets, targets[i].instrument);
    }
    forall k | !Targeted(targets, k) ensures At(after, k) == At(current, k) && (k in after <==> k in current) {
      FillingReachesTargets(current, targets, k);
      ResultingPlacesTargets(current, targets, k);
    }
  }
}
