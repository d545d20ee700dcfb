/**
 The ordered event query: whatever sequence of all canonical events the database
 returns sorted by block, transaction and log index is the concatenation, from
 the bottom of the stack to its top, of each block's own events in order.
 */
module ChainEventOrder {
  import opened Lifecycle
  import opened ChainTables
  import opened ChainStack

  predicate NotAfter(a: Event, b: Event) {
    a.number < b.number
    || (a.number == b.number && (a.txIndex < b.txIndex || (a.txIndex == b.txIndex && a.logIndex <= b.logIndex)))
  }

  /** ORDER BY block_number, transaction_index, log_index. */
  ghost predicate Ordered(q: seq<Event>) {
    forall i, j :: 0 <= i < j < |q| ==> NotAfter(q[i], q[j])
  }

  /** `q` has exactly the members of `es`, each once. */
  ghost predicate Lists(q: seq<Event>, es: set<Event>) {
    SetOf(q) == es && forall i, j :: 0 <= i < j < |q| ==> q[i] != q[j]
  }

  ghost function Concatenation(parts: seq<seq<Event>>): seq<Event> {
    if parts == [] then [] else Concatenation(parts[..|parts| - 1]) + parts[|parts| - 1]
  }

  /** One part for each height of the stack, listing that block's events in order. */
  ghost predicate PartsOf(parts: seq<seq<Event>>, s: Stack) {
    |parts| == s.hi - s.lo
    && forall n :: n in s.at ==> s.lo <= n < s.hi && Ordered(parts[n - s.lo]) && Lists(parts[n - s.lo], s.at[n].events)
  }

  ghost function StackEvents(s: Stack): set<Event> {
    set n, e | n in s.at && e in s.at[n].events :: e
  }

  /** The height of an event is the height of its entry. */
  ghost predicate EventsAtHeight(s: Stack) {
    forall n, e :: n in s.at && e in s.at[n].events ==> e.number == n
  }

  /** Where the events at or above height `n` begin. */
  lemma Cut(q: seq<Event>, n: nat) returns (m: nat)
    requires Ordered(q)
    ensures m <= |q|
    ensures forall i :: 0 <= i < m ==> q[i].number < n
    ensures forall i :: m <= i < |q| ==> n <= q[i].number
  {
    m := |q|;
    while 0 < m && n <= q[m - 1].number
      invariant m <= |q|
      invariant forall i :: m <= i < |q| ==> n <= q[i].number
    {
      m := m - 1;
    }
    if 0 < m {
      forall i | 0 <= i < m ensures q[i].number < n {
        assert i < m - 1 ==> NotAfter(q[i], q[m - 1]);
      }
    }
  }

  lemma TopPart(q: seq<Event>, s: Stack, m: nat)
    requires Linked(s) && s.lo < s.hi && EventsAtHeight(s) && Lists(q, StackEvents(s)) && Ordered(q) && m <= |q|
    requires forall i :: 0 <= i < m ==> q[i].number < s.hi - 1
    requires forall i :: m <= i < |q| ==> s.hi - 1 <= q[i].number
    ensures Lists(q[m..], s.at[s.hi - 1].events) && Ordered(q[m..])
  {
    forall e | e in s.at[s.hi - 1].events ensures e in q[m..] {
      assert e in StackEvents(s);
      assert e in SetOf(q);
      var i :| 0 <= i < |q| && q[i] == e;
      assert q[m..][i - m] == e;
    }
    forall e | e in q[m..] ensures e in s.at[s.hi - 1].events {
      assert e in SetOf(q);
      assert e in StackEvents(s);
      var n :| n in s.at && e in s.at[n].events;
    }
  }

  lemma LowerPart(q: seq<Event>, s: Stack, m: nat)
    requires Linked(s) && s.lo < s.hi && EventsAtHeight(s) && Lists(q, StackEvents(s)) && Ordered(q) && m <= |q|
    requires forall i :: 0 <= i < m ==> q[i].number < s.hi - 1
    requires forall i :: m <= i < |q| ==> s.hi - 1 <= q[i].number
    ensures Lists(q[..m], StackEvents(Truncate(s, s.hi - 1))) && Ordered(q[..m])
  {
    var t := Truncate(s, s.hi - 1);
    forall e | e in StackEvents(t) ensures e in q[..m] {
      var n :| n in t.at && e in t.at[n].events;
      assert n in s.at && e in s.at[n].events;
      assert e in StackEvents(s);
      assert e in SetOf(q);
      var i :| 0 <= i < |q| && q[i] == e;
      assert q[..m][i] == e;
    }
    forall e | e in q[..m] ensures e in StackEvents(t) {
      assert e in SetOf(q);
      assert e in StackEvents(s);
      var n :| n in s.at && e in s.at[n].events;
      assert n in t.at && e in t.at[n].events;
    }
  }

  lemma EmptySetOf(q: seq<Event>)
    ensures SetOf(q) == {} <==> q == []
  {
    if q != [] {
      assert q[0] in SetOf(q);
    }
  }

  lemma {:induction false} SplitByHeight(q: seq<Event>, s: Stack) returns (parts: seq<seq<Event>>)
    requires Linked(s) && EventsAtHeight(s) && Lists(q, StackEvents(s)) && Ordered(q)
    ensures PartsOf(parts, s) && Concatenation(parts) == q
    decreases s.hi - s.lo
  {
    if s.lo == s.hi {
      parts := [];
      EmptySetOf(q);
    } else {
      var t := Truncate(s, s.hi - 1);
      var m := Cut(q, s.hi - 1);
      TopPart(q, s, m);
      LowerPart(q, s, m);
      var lower := SplitByHeight(q[..m], t);
      parts := lower + [q[m..]];
      JoinParts(q, s, m, lower);
    }
  }

  lemma JoinParts(q: seq<Event>, s: Stack, m: nat, lower: seq<seq<Event>>)
    requires Linked(s) && s.lo < s.hi && m <= |q|
    requires PartsOf(lower, Truncate(s, s.hi - 1)) && Concatenation(lower) == q[..m]
    requires Lists(q[m..], s.at[s.hi - 1].events) && Ordered(q[m..])
    ensures PartsOf(lower + [q[m..]], s) && Concatenation(lower + [q[m..]]) == q
  {
    var parts := lower + [q[m..]];
    assert parts[..|parts| - 1] == lower;
    assert Concatenation(parts) == q[..m] + q[m..];
    forall n | n in s.at
      ensures s.lo <= n < s.hi && Ordered(parts[n - s.lo]) && Lists(parts[n - s.lo], s.at[n].events)
    {
      if n < s.hi - 1 {
        assert n in Truncate(s, s.hi - 1).at;
      }
    }
  }

  lemma CanonicalEventsAre(db: Db, c: Contract, s: Stack)
    requires Represents(db, c, s)
    ensures CanonicalEvents(db, c) == StackEvents(s) && EventsAtHeight(s)
  {
    forall e | e in CanonicalEvents(db, c) ensures e in StackEvents(s) {
      assert e.number in s.at && e in s.at[e.number].events;
    }
    forall e | e in StackEvents(s) ensures e in CanonicalEvents(db, c) {
      assert KeyOf(e) in db.events;
    }
    forall n, e | n in s.at && e in s.at[n].events ensures e.number == n {
      assert KeyOf(e) in db.events;
    }
  }

  lemma QueryIsConcatenation(db: Db, c: Contract, s: Stack, q: seq<Event>)
    requires Represents(db, c, s)
    requires Ordered(q) && Lists(q, CanonicalEvents(db, c))
    ensures exists parts :: PartsOf(parts, s) && Concatenation(parts) == q
  {
    CanonicalEventsAre(db, c, s);
    var parts := SplitByHeight(q, s);
  }

  /** Each block's stored log count is its number of canonical events. */
  lemma LogCountsAreExact(db: Db, c: Contract, s: Stack, k: BlockKey)
    requires Represents(db, c, s)
    requires k in db.blocks && k.contract == c && db.blocks[k].canonical
    ensures db.blocks[k].logCount == |EventsAt(db, c, k.number)|
    ensures forall e :: e in EventsAt(db, c, k.number) ==> e.hash == k.hash
  {
    EventsAtIs(db, c, s, k.number);
  }
}
