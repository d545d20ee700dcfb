/**
 Which operations get a tracking attempt: the wrap-around cursor query, and why no
 operation that stays trackable waits for more than a bounded number of rounds.
 */
module Tracking {
  import opened Prelude

  // ---- the order of operation ids -------------------------------------------

  /** Text order, character by character; a proper prefix comes first. */
  predicate Less(a: string, b: string) {
    b != [] && (a == [] || a[0] < b[0] || (a[0] == b[0] && Less(a[1..], b[1..])))
  }

  lemma {:induction false} LessTotal(a: string, b: string)
    ensures a == b || Less(a, b) || Less(b, a)
    ensures !(Less(a, b) && Less(b, a)) && !Less(a, a)
  {
    if a != [] && b != [] && a[0] == b[0] {
      LessTotal(a[1..], b[1..]);
      assert a == [a[0]] + a[1..] && b == [b[0]] + b[1..];
    }
    if a != [] { LessTotal(a[1..], a[1..]); }
  }

  lemma {:induction false} LessTransitive(a: string, b: string, c: string)
    requires Less(a, b) && Less(b, c)
    ensures Less(a, c)
  {
    if a != [] && a[0] == b[0] == c[0] {
      LessTransitive(a[1..], b[1..], c[1..]);
    }
  }

  /** Everything the order says about three ids. */
  lemma Compare(a: string, b: string, c: string)
    ensures a == b || Less(a, b) || Less(b, a)
    ensures !(Less(a, b) && Less(b, a)) && !Less(a, a)
    ensures Less(a, b) && Less(b, c) ==> Less(a, c)
  {
    LessTotal(a, b);
    LessTotal(a, a);
    if Less(a, b) && Less(b, c) { LessTransitive(a, b, c); }
  }

  ghost predicate Increasing(q: seq<string>) {
    forall i, j :: 0 <= i < j < |q| ==> Less(q[i], q[j])
  }

  ghost predicate IsLeast(s: set<string>, m: string) {
    m in s && forall x :: x in s && x != m ==> Less(m, x)
  }

  lemma {:induction false} LeastExists(s: set<string>)
    requires s != {}
    ensures exists m :: IsLeast(s, m)
  {
    var m :| m in s;
    if s == {m} {
      assert IsLeast(s, m);
    } else {
      LeastExists(s - {m});
      var k :| IsLeast(s - {m}, k);
      LessTotal(m, k);
      if Less(k, m) {
        assert IsLeast(s, k);
      } else {
        forall x | x in s && x != m ensures Less(m, x) {
          if x != k { LessTransitive(m, k, x); }
        }
        assert IsLeast(s, m);
      }
    }
  }

  /** The ids in order. */
  ghost function Ascending(s: set<string>): seq<string> {
    if s == {} then []
    else
      var m := Least(s);
      [m] + Ascending(s - {m})
  }

  ghost function Least(s: set<string>): (m: string)
    requires s != {}
    ensures IsLeast(s, m)
  {
    LeastExists(s);
    var k :| IsLeast(s, k);
    k
  }

  function Members(q: seq<string>): set<string> { set x | x in q }

  lemma LeastInFront(m: string, rest: seq<string>)
    requires Increasing(rest) && forall x :: x in Members(rest) ==> Less(m, x)
    ensures Increasing([m] + rest) && Members([m] + rest) == {m} + Members(rest)
  {
    forall i | 0 <= i < |rest| ensures Less(m, rest[i]) {
      assert rest[i] in Members(rest);
    }
  }

  lemma {:induction false} AscendingLists(s: set<string>)
    ensures Members(Ascending(s)) == s && |Ascending(s)| == |s| && Increasing(Ascending(s))
  {
    if s != {} {
      var m := Least(s);
      hide Increasing, Members;
      AscendingLists(s - {m});
      LeastInFront(m, Ascending(s - {m}));
    } else {
      assert Members([]) == {};
    }
  }

  // ---- the query ------------------------------------------------------------

  function Take(q: seq<string>, n: nat): seq<string> { if |q| <= n then q else q[..n] }

  predicate After(cursor: Option<string>, x: string) { cursor.None? || Less(cursor.value, x) }

  function Above(s: set<string>, cursor: Option<string>): set<string> { set x | x in s && After(cursor, x) }

  function UpTo(s: set<string>, cursor: Option<string>): set<string> { set x | x in s && !After(cursor, x) }

  /** All ids, starting after the cursor and wrapping around. */
  ghost function Rotation(s: set<string>, cursor: Option<string>): seq<string> {
    Ascending(Above(s, cursor)) + Ascending(UpTo(s, cursor))
  }

  /** The ids the store answers with: those after the cursor, then, if there is room, the others. */
  ghost function Query(s: set<string>, limit: nat, cursor: Option<string>): seq<string> {
    var rows := Take(Ascending(Above(s, cursor)), limit);
    if |rows| < limit then rows + Take(Ascending(UpTo(s, cursor)), limit - |rows|) else rows
  }

  lemma QueryIsRotation(s: set<string>, limit: nat, cursor: Option<string>)
    ensures Query(s, limit, cursor) == Take(Rotation(s, cursor), limit)
  {}

  /** `y` comes before `x` when going round from the cursor. */
  predicate Sooner(cursor: Option<string>, y: string, x: string) {
    if After(cursor, y) == After(cursor, x) then Less(y, x) else After(cursor, y)
  }

  lemma RotationLists(s: set<string>, cursor: Option<string>)
    ensures var q := Rotation(s, cursor);
            Members(q) == s && |q| == |s| && forall i, j :: 0 <= i < j < |q| ==> Sooner(cursor, q[i], q[j])
  {
    var high, low := Above(s, cursor), UpTo(s, cursor);
    AscendingLists(high);
    AscendingLists(low);
    assert high + low == s && high !! low;
    JoinedLists(cursor, Ascending(high), Ascending(low));
  }

  /** Increasing ids after the cursor, then increasing ids up to it. */
  lemma JoinedLists(cursor: Option<string>, p: seq<string>, q: seq<string>)
    requires Increasing(p) && Increasing(q)
    requires forall x :: x in Members(p) ==> After(cursor, x)
    requires forall x :: x in Members(q) ==> !After(cursor, x)
    ensures Members(p + q) == Members(p) + Members(q)
    ensures forall i, j :: 0 <= i < j < |p + q| ==> Sooner(cursor, (p + q)[i], (p + q)[j])
  {
    hide Less;
    forall x | x in p ensures After(cursor, x) { assert x in Members(p); }
    forall x | x in q ensures !After(cursor, x) { assert x in Members(q); }
    hide After, Members;
  }

  lemma SoonerIsStrict(cursor: Option<string>, y: string, x: string)
    ensures !(Sooner(cursor, y, x) && Sooner(cursor, x, y)) && !Sooner(cursor, x, x)
  {
    LessTotal(y, x);
    LessTotal(x, x);
  }

  // ---- rounds ---------------------------------------------------------------

  /** The ids that come before `x` when going round from the cursor. */
  ghost function Ahead(s: set<string>, cursor: Option<string>, x: string): set<string> {
    set y | y in s && Sooner(cursor, y, x)
  }

  /** `x` is at the place given by the number of ids ahead of it. */
  lemma PlaceOf(s: set<string>, cursor: Option<string>, x: string)
    requires x in s
    ensures |Ahead(s, cursor, x)| < |Rotation(s, cursor)| == |s| && Rotation(s, cursor)[|Ahead(s, cursor, x)|] == x
    ensures Members(Rotation(s, cursor)[..|Ahead(s, cursor, x)|]) == Ahead(s, cursor, x)
  {
    var q := Rotation(s, cursor);
    RotationLists(s, cursor);
    assert x in Members(q);
    var i :| 0 <= i < |q| && q[i] == x;
    forall y ensures y in Members(q[..i]) <==> y in Ahead(s, cursor, x) {
      if y in Members(q[..i]) {
        var j :| 0 <= j < i && q[..i][j] == y;
        assert q[j] in Members(q);
      }
      if y in Ahead(s, cursor, x) {
        assert y in Members(q);
        var j :| 0 <= j < |q| && q[j] == y;
        SoonerIsStrict(cursor, y, x);
        assert j < i;
        assert q[..i][j] == y;
      }
    }
    assert Members(q[..i]) == Ahead(s, cursor, x);
    PrefixSize(q, cursor, i);
  }

  lemma {:induction false} PrefixSize(q: seq<string>, cursor: Option<string>, i: nat)
    requires i <= |q| && forall j, k :: 0 <= j < k < |q| ==> Sooner(cursor, q[j], q[k])
    ensures |Members(q[..i])| == i
  {
    if i > 0 {
      PrefixSize(q, cursor, i - 1);
      assert q[..i] == q[..i - 1] + [q[i - 1]];
      assert Members(q[..i]) == Members(q[..i - 1]) + {q[i - 1]};
      SoonerIsStrict(cursor, q[i - 1], q[i - 1]);
      assert q[i - 1] !in q[..i - 1];
    }
  }

  /** Moving the cursor to an id `z` that comes before `x` keeps only ids strictly between. */
  lemma MovedCursor(cursor: Option<string>, z: string, y: string, x: string)
    requires Sooner(cursor, z, x) && Sooner(Some(z), y, x)
    ensures Sooner(cursor, z, y) && Sooner(cursor, y, x)
  {
    Compare(z, y, x); Compare(y, x, z); Compare(x, z, y); Compare(z, x, y); Compare(y, z, x); Compare(x, y, z);
    if cursor.Some? {
      var c := cursor.value;
      Compare(c, z, y); Compare(c, y, x); Compare(c, z, x); Compare(c, x, z); Compare(c, y, z); Compare(c, x, y);
      Compare(z, c, y); Compare(y, c, x); Compare(x, c, z); Compare(z, c, x); Compare(y, c, z); Compare(x, c, y);
    }
  }

  /** One completed round: the trackable ids and how many of the rotation were attempted. */
  datatype Round = Round(ids: set<string>, taken: nat)

  const SHARE := 50

  predicate FairRound(r: Round) {
    r.taken <= |r.ids| && (r.taken == |r.ids| || SHARE <= r.taken)
  }

  ghost function Attempted(cursor: Option<string>, r: Round): seq<string> {
    Take(Rotation(r.ids, cursor), r.taken)
  }

  /** The last id attempted, if any, is the next cursor. */
  ghost function CursorAfter(cursor: Option<string>, r: Round): Option<string> {
    var q := Attempted(cursor, r);
    if q == [] then cursor else Some(q[|q| - 1])
  }

  /** No round attempts an id twice. */
  lemma NoRepeats(cursor: Option<string>, r: Round, i: nat, j: nat)
    requires FairRound(r) && i < j < |Attempted(cursor, r)|
    ensures Attempted(cursor, r)[i] != Attempted(cursor, r)[j]
  {
    RotationLists(r.ids, cursor);
    SoonerIsStrict(cursor, Attempted(cursor, r)[i], Attempted(cursor, r)[i]);
  }

  /** A round attempts `x`, or at least SHARE of the ids ahead of it are behind it afterwards. */
  lemma RoundAdvances(cursor: Option<string>, r: Round, later: set<string>, x: string)
    requires FairRound(r) && x in r.ids && later <= r.ids && x !in Attempted(cursor, r)
    ensures |Ahead(later, CursorAfter(cursor, r), x)| + SHARE <= |Ahead(r.ids, cursor, x)|
  {
    var q, place := Rotation(r.ids, cursor), |Ahead(r.ids, cursor, x)|;
    PlaceOf(r.ids, cursor, x);
    RotationLists(r.ids, cursor);
    NotTaken(q, r.taken, place, x);
    RoundCounts(q, cursor, r.ids, r.taken, place, later, x);
  }

  lemma NotTaken(q: seq<string>, n: nat, place: nat, x: string)
    requires n <= |q| && place < |q| && q[place] == x && x !in Take(q, n)
    ensures n <= place
  {
    assert forall i :: 0 <= i < |Take(q, n)| ==> Take(q, n)[i] == q[i];
  }

  lemma RoundCounts(q: seq<string>, cursor: Option<string>, ids: set<string>, n: nat, place: nat, later: set<string>,
                    x: string)
    requires 0 < n <= place < |q| && q[place] == x && later <= ids
    requires forall j, k :: 0 <= j < k < |q| ==> Sooner(cursor, q[j], q[k])
    requires Members(q[..place]) == Ahead(ids, cursor, x)
    ensures |Ahead(later, Some(q[n - 1]), x)| + n <= |Ahead(ids, cursor, x)|
  {
    hide Sooner, Members, Ahead;
    DoneWereAhead(q, n, place);
    LeftWereAhead(q, ids, cursor, n, place, later, x);
    PrefixSize(q, cursor, n);
    CountDown(Ahead(later, Some(q[n - 1]), x), Ahead(ids, cursor, x), Members(q[..n]));
  }

  lemma CountDown(left: set<string>, all: set<string>, done: set<string>)
    requires done <= all && left <= all - done
    ensures |left| + |done| <= |all|
  {
    SubsetSize(left, all - done);
    assert |all - done| == |all| - |done|;
  }

  lemma DoneWereAhead(q: seq<string>, n: nat, place: nat)
    requires n <= place <= |q|
    ensures Members(q[..n]) <= Members(q[..place])
  {
    forall y | y in Members(q[..n]) ensures y in Members(q[..place]) {
      var j :| 0 <= j < n && q[..n][j] == y;
      assert q[..place][j] == y;
    }
  }

  lemma LeftWereAhead(q: seq<string>, ids: set<string>, cursor: Option<string>, n: nat, place: nat, later: set<string>,
                      x: string)
    requires 0 < n <= place < |q| && q[place] == x && later <= ids
    requires forall j, k :: 0 <= j < k < |q| ==> Sooner(cursor, q[j], q[k])
    ensures Ahead(later, Some(q[n - 1]), x) <= Ahead(ids, cursor, x) - Members(q[..n])
  {
    hide Sooner, Members;
    forall y | y in Ahead(later, Some(q[n - 1]), x) ensures y in Ahead(ids, cursor, x) - Members(q[..n]) {
      MovedCursor(cursor, q[n - 1], y, x);
      NotDone(q, cursor, n, y);
    }
  }

  lemma NotDone(q: seq<string>, cursor: Option<string>, n: nat, y: string)
    requires 0 < n <= |q| && forall j, k :: 0 <= j < k < |q| ==> Sooner(cursor, q[j], q[k])
    requires Sooner(cursor, q[n - 1], y)
    ensures y !in Members(q[..n])
  {
    if y in Members(q[..n]) {
      var j :| 0 <= j < n && q[..n][j] == y;
      SoonerIsStrict(cursor, q[n - 1], y);
    }
  }

  /** The rounds are fair, insert no ids, and `x` stays trackable throughout. */
  ghost predicate Waiting(rounds: seq<Round>, x: string) {
    && (forall i :: 0 <= i < |rounds| ==> FairRound(rounds[i]) && x in rounds[i].ids)
    && (forall i, j :: 0 <= i < j < |rounds| && j == i + 1 ==> rounds[j].ids <= rounds[i].ids)
  }

  ghost predicate EverAttempted(cursor: Option<string>, rounds: seq<Round>, x: string)
    decreases |rounds|
  {
    rounds != [] &&
    (x in Attempted(cursor, rounds[0]) || EverAttempted(CursorAfter(cursor, rounds[0]), rounds[1..], x))
  }

  lemma {:induction false} WaitIsBounded(cursor: Option<string>, rounds: seq<Round>, x: string)
    requires Waiting(rounds, x) && rounds != []
    requires |Ahead(rounds[0].ids, cursor, x)| < SHARE * |rounds|
    ensures EverAttempted(cursor, rounds, x)
    decreases |rounds|
  {
    var r := rounds[0];
    if x !in Attempted(cursor, r) {
      if |rounds| == 1 {
        RoundAdvances(cursor, r, r.ids, x);
      } else {
        RoundAdvances(cursor, r, rounds[1].ids, x);
        assert rounds[1..][0] == rounds[1];
        WaitIsBounded(CursorAfter(cursor, r), rounds[1..], x);
      }
    }
  }

  /**
   No starvation: with N trackable ids at the start and none inserted, an id that
   stays trackable is attempted within ceil(N / 50) rounds, whatever the cursor.
   */
  lemma NoStarvation(cursor: Option<string>, rounds: seq<Round>, x: string)
    requires rounds != [] && Waiting(rounds, x)
    requires |rounds[0].ids| <= SHARE * |rounds|
    ensures EverAttempted(cursor, rounds, x)
  {
    PlaceOf(rounds[0].ids, cursor, x);
    WaitIsBounded(cursor, rounds, x);
  }
}
