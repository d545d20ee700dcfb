/**
 The risk verdict on the numbers its texts denote: which integers the amounts are,
 when the decision is accepted in terms of them, and which orders it makes.
 */
module RiskNumbers {
  import opened Prelude
  import opened Risk
  import Money
  import V = Vault

  /** The text spells the number: its decimal numeral, or a minus sign before a zero. */
  predicate Spells(text: string, n: int) { text == Money.SignedText(n) || (text == "-0" && n == 0) }

  /** An amount is read if and only if it is a spelling, and then as the number it spells. */
  lemma AmountsAreSpelled(text: string, n: int)
    ensures ParseAmount(text) == Ok(n) <==> Spells(text, n)
  {
    if Spells(text, n) { SpellingIsRead(text, n); }
    if ParseAmount(text) == Ok(n) { ReadIsSpelling(text); }
  }

  lemma SpellingIsRead(text: string, n: int)
    requires Spells(text, n)
    ensures ParseAmount(text) == Ok(n)
  {
    var m: nat := if n < 0 then -n else n;
    Money.TextOfValue(m);
    hide Money.ToText;
    if text == "-0" {
      assert text[1..] == "0" && "0"[..0] == [];
    } else if n < 0 {
      assert text[1..] == Money.ToText(m);
    } else {
      assert Money.IsDigit(Money.ToText(m)[0]);
    }
  }

  lemma ReadIsSpelling(text: string)
    requires ParseAmount(text).Ok?
    ensures Spells(text, ParseAmount(text).value)
  {
    var negative := text[0] == '-';
    var digits := if negative then text[1..] else text;
    Money.CanonicalText(digits);
    if negative && digits[0] == '0' {
      assert digits == [digits[0]] && text == "-0" && digits[..0] == [];
    } else if negative {
      Money.NonZero(digits);
      assert text == "-" + digits;
    }
  }

  // ---- the numbers of a decision --------------------------------------------

  datatype Figures = Figures(
    amounts: seq<int>, book: Book, maxPosition: int, maxOrder: int, maxGross: int, equity: int, pnl: int, maxLoss: int)

  /** The figures are what the texts of the decision, the account and the limits spell. */
  ghost predicate Spelled(targets: seq<Target>, account: Account, limits: Limits, f: Figures) {
    && |f.amounts| == |targets| && (forall i :: 0 <= i < |targets| ==> Spells(targets[i].amount, f.amounts[i]))
    && f.book.Keys == account.positions.Keys && (forall k :: k in f.book ==> Spells(account.positions[k], f.book[k]))
    && Spells(limits.maxPosition, f.maxPosition) && Spells(limits.maxOrder, f.maxOrder)
    && Spells(limits.maxGross, f.maxGross) && Spells(limits.maxDailyLoss, f.maxLoss)
    && Spells(account.equity, f.equity) && Spells(account.dailyPnl, f.pnl)
  }

  /** One order for each target that differs from the position: the difference. */
  function Differences(book: Book, targets: seq<Target>, amounts: seq<int>): seq<Order>
    requires |amounts| == |targets|
  {
    if targets == [] then []
    else
      var n := |targets| - 1;
      var held := if targets[n].instrument in book then book[targets[n].instrument] else 0;
      Differences(book, targets[..n], amounts[..n])
      + if amounts[n] == held then [] else [Order(targets[n].instrument, amounts[n] - held)]
  }

  /** The sum of the magnitudes. */
  ghost function Total(b: Book): int { V.Sum(map k | k in b :: if b[k] < 0 then -b[k] else b[k]) }

  /** From `x` to `y` is a step towards zero. */
  predicate Toward(x: int, y: int) { 0 <= y <= x || x <= y <= 0 }

  ghost predicate WithinLimits(targets: seq<Target>, limits: Limits, f: Figures)
    requires |f.amounts| == |targets|
  {
    Distinct(targets)
    && forall i :: 0 <= i < |targets| ==>
         && Identifier(targets[i].instrument) && targets[i].instrument in limits.instruments
         && -f.maxPosition <= f.amounts[i] <= f.maxPosition
         && -f.maxOrder <= f.amounts[i] - At(f.book, targets[i].instrument) <= f.maxOrder
  }

  /** The book the orders lead to is within the limits; past the daily loss it only unwinds. */
  ghost predicate Prudent(after: Book, limits: Limits, f: Figures) {
    && Total(after) <= f.maxGross && Total(after) * 10000 <= f.equity * limits.maxLeverageBps
    && (f.pnl <= -f.maxLoss ==> Total(after) < Total(f.book) && forall k :: Toward(At(f.book, k), At(after, k)))
  }

  lemma TowardIsReducing(x: int, y: int)
    ensures Toward(x, y) <==> Reduces(x, y)
  {}

  lemma TotalIsGross(b: Book)
    ensures Total(b) == Gross(b)
  {
    assert (map k | k in b :: if b[k] < 0 then -b[k] else b[k]) == Sizes(b);
  }

  lemma SpelledReads(targets: seq<Target>, account: Account, limits: Limits, f: Figures)
    requires Spelled(targets, account, limits, f)
    ensures Parsed(targets) && forall i :: 0 <= i < |targets| ==> ParseAmount(targets[i].amount) == Ok(f.amounts[i])
    ensures Readable(account.positions) && Current(account.positions) == f.book
  {
    hide ParseAmount, Spells;
    forall i | 0 <= i < |targets| ensures ParseAmount(targets[i].amount) == Ok(f.amounts[i]) {
      AmountsAreSpelled(targets[i].amount, f.amounts[i]);
    }
    forall k | k in account.positions ensures ParseAmount(account.positions[k]) == Ok(f.book[k]) {
      AmountsAreSpelled(account.positions[k], f.book[k]);
    }
  }

  lemma PositiveReads(text: string, n: int)
    requires Spells(text, n)
    ensures ParsePositive(text).Ok? <==> 0 < n
    ensures 0 < n ==> ParsePositive(text).value == n
  {
    hide ParseAmount, Spells;
    AmountsAreSpelled(text, n);
  }

  lemma {:induction false} OrdersAreDifferences(book: Book, targets: seq<Target>, amounts: seq<int>)
    requires Parsed(targets) && |amounts| == |targets|
    requires forall i :: 0 <= i < |targets| ==> ParseAmount(targets[i].amount) == Ok(amounts[i])
    ensures OrdersFor(book, targets) == Differences(book, targets, amounts)
  {
    hide ParseAmount;
    if targets != [] {
      var n := |targets| - 1;
      assert forall i :: 0 <= i < n ==> targets[..n][i] == targets[i];
      OrdersAreDifferences(book, targets[..n], amounts[..n]);
    }
  }

  lemma TargetsOnNumbers(targets: seq<Target>, limits: Limits, f: Figures)
    requires Parsed(targets) && |f.amounts| == |targets|
    requires forall i :: 0 <= i < |targets| ==> ParseAmount(targets[i].amount) == Ok(f.amounts[i])
    ensures TargetsAllowed(f.book, targets, limits, f.maxPosition, f.maxOrder) <==> WithinLimits(targets, limits, f)
  {
    hide ParseAmount, Identifier, Distinct, At;
  }

  lemma BookOnNumbers(targets: seq<Target>, account: Account, limits: Limits, f: Figures, after: Book)
    requires Spelled(targets, account, limits, f)
    ensures BookAllowed(f.book, after, account, limits) <==> 0 < f.maxGross && 0 < f.equity && 0 < f.maxLoss && Prudent(after, limits, f)
  {
    hide ParseAmount, ParsePositive, Spells, Total, Gross, Reduces, Toward;
    PositiveReads(limits.maxGross, f.maxGross);
    PositiveReads(account.equity, f.equity);
    PositiveReads(limits.maxDailyLoss, f.maxLoss);
    AmountsAreSpelled(account.dailyPnl, f.pnl);
    TotalIsGross(f.book);
    TotalIsGross(after);
    forall k ensures Toward(At(f.book, k), At(after, k)) <==> Reduces(At(f.book, k), At(after, k)) {
      TowardIsReducing(At(f.book, k), At(after, k));
    }
  }

  /**
   On the numbers its texts spell, a decision is accepted if and only if every target and every order
   is within its limit, and the book after the orders is prudent; the orders are the differences
   between the targets and the positions.
   */
  lemma VerdictOnNumbers(venue: string, targets: seq<Target>, account: Account, limits: Limits, f: Figures)
    requires Spelled(targets, account, limits, f)
    ensures Verdict(venue, targets, account, limits).Ok? <==>
              && venue == account.venue && 0 < f.maxPosition && 0 < f.maxOrder && 0 < f.maxGross && 0 < f.equity && 0 < f.maxLoss
              && WithinLimits(targets, limits, f)
              && Prudent(Filled(f.book, Differences(f.book, targets, f.amounts)), limits, f)
    ensures Verdict(venue, targets, account, limits).Ok? ==>
              Verdict(venue, targets, account, limits).value == Differences(f.book, targets, f.amounts)
  {
    hide ParseAmount, ParsePositive, Spells, BookAllowed, Prudent, TargetsAllowed, WithinLimits, Differences, Filled,
      Verdict, Current, Readable;
    SpelledReads(targets, account, limits, f);
    PositiveReads(limits.maxPosition, f.maxPosition);
    PositiveReads(limits.maxOrder, f.maxOrder);
    VerdictIsExact(venue, targets, account, limits);
    OrdersAreDifferences(f.book, targets, f.amounts);
    TargetsOnNumbers(targets, limits, f);
    BookOnNumbers(targets, account, limits, f, Filled(f.book, Differences(f.book, targets, f.amounts)));
    if Verdict(venue, targets, account, limits).Ok? { VerdictIsOrders(venue, targets, account, limits); }
  }

  lemma VerdictIsOrders(venue: string, targets: seq<Target>, account: Account, limits: Limits)
    requires Verdict(venue, targets, account, limits).Ok? && Readable(account.positions) && Parsed(targets)
    ensures Verdict(venue, targets, account, limits).value == OrdersFor(Current(account.positions), targets)
  {}

  /** Nothing is accepted unless every text spells a number. */
  lemma AcceptedIsSpelled(venue: string, targets: seq<Target>, account: Account, limits: Limits) returns (f: Figures)
    requires Verdict(venue, targets, account, limits).Ok?
    ensures Spelled(targets, account, limits, f)
  {
    VerdictIsExact(venue, targets, account, limits);
    hide ParseAmount, Spells, Verdict, Gross, Filled, OrdersFor, Resulting;
    f := Figures(
      seq(|targets|, i requires 0 <= i < |targets| => ParseAmount(targets[i].amount).value), Current(account.positions),
      ParseAmount(limits.maxPosition).value, ParseAmount(limits.maxOrder).value, ParseAmount(limits.maxGross).value,
      ParseAmount(account.equity).value, ParseAmount(account.dailyPnl).value, ParseAmount(limits.maxDailyLoss).value);
    forall i | 0 <= i < |targets| ensures Spells(targets[i].amount, f.amounts[i]) {
      AmountsAreSpelled(targets[i].amount, f.amounts[i]);
    }
    forall k | k in f.book ensures Spells(account.positions[k], f.book[k]) {
      AmountsAreSpelled(account.positions[k], f.book[k]);
    }
    AmountsAreSpelled(limits.maxPosition, f.maxPosition);
    AmountsAreSpelled(limits.maxOrder, f.maxOrder);
    AmountsAreSpelled(limits.maxGross, f.maxGross);
    AmountsAreSpelled(account.equity, f.equity);
    AmountsAreSpelled(account.dailyPnl, f.pnl);
    AmountsAreSpelled(limits.maxDailyLoss, f.maxLoss);
  }
}
