/** Timed MIDI events and the order Python's `sorted` puts them in: tuples
    `(time, message)` compare by time first and then by the message, a list
    of ints compared lexicographically (a proper prefix comes first). */
module Ordering {
  import opened Midi

  datatype Event = Event(time: real, msg: Message)

  /** Python's `a <= b` on two lists of ints. */
  predicate MsgLe(a: Message, b: Message)
    decreases |a|
  {
    a == [] || (b != [] && (a[0] < b[0] || (a[0] == b[0] && MsgLe(a[1..], b[1..]))))
  }

  lemma {:induction false} MsgLeReflexive(a: Message)
    ensures MsgLe(a, a)
    decreases |a|
  {
    if a != [] {
      MsgLeReflexive(a[1..]);
    }
  }

  lemma {:induction false} MsgLeTotal(a: Message, b: Message)
    ensures MsgLe(a, b) || MsgLe(b, a)
    decreases |a|
  {
    if a != [] && b != [] && a[0] == b[0] {
      MsgLeTotal(a[1..], b[1..]);
    }
  }

  lemma {:induction false} MsgLeTransitive(a: Message, b: Message, c: Message)
    requires MsgLe(a, b) && MsgLe(b, c)
    ensures MsgLe(a, c)
    decreases |a|
  {
    if a != [] && a[0] == b[0] && b[0] == c[0] {
      MsgLeTransitive(a[1..], b[1..], c[1..]);
    }
  }

  lemma {:induction false} MsgLeAntisymmetric(a: Message, b: Message)
    requires MsgLe(a, b) && MsgLe(b, a)
    ensures a == b
    decreases |a|
  {
    if a != [] {
      MsgLeAntisymmetric(a[1..], b[1..]);
      assert a == [a[0]] + a[1..] && b == [b[0]] + b[1..];
    }
  }

  /** Python's `(t1, m1) <= (t2, m2)`. */
  predicate EventLe(x: Event, y: Event) {
    x.time < y.time || (x.time == y.time && MsgLe(x.msg, y.msg))
  }

  /** EventLe is a total order on events. */
  lemma {:induction false} EventLeTotalOrder(x: Event, y: Event, z: Event)
    ensures EventLe(x, x)
    ensures EventLe(x, y) || EventLe(y, x)
    ensures EventLe(x, y) && EventLe(y, x) ==> x == y
    ensures EventLe(x, y) && EventLe(y, z) ==> EventLe(x, z)
  {
    MsgLeReflexive(x.msg);
    MsgLeTotal(x.msg, y.msg);
    if EventLe(x, y) && EventLe(y, x) {
      MsgLeAntisymmetric(x.msg, y.msg);
    }
    if EventLe(x, y) && EventLe(y, z) && x.time == y.time == z.time {
      MsgLeTransitive(x.msg, y.msg, z.msg);
    }
  }

  predicate Sorted(s: seq<Event>) {
    forall i, j :: 0 <= i < j < |s| ==> EventLe(s[i], s[j])
  }

  /** Every event of a is ordered before every event of b. */
  predicate AllBefore(a: seq<Event>, b: seq<Event>) {
    forall x, y :: x in a && y in b ==> EventLe(x, y)
  }

  lemma {:induction false} SortedConcat(a: seq<Event>, b: seq<Event>)
    requires Sorted(a) && Sorted(b) && AllBefore(a, b)
    ensures Sorted(a + b)
  {
    forall i, j | 0 <= i < j < |a + b|
      ensures EventLe((a + b)[i], (a + b)[j])
    {
      if i < |a| && j >= |a| {
        assert (a + b)[i] == a[i] && (a + b)[j] == b[j - |a|];
      }
    }
  }

  /** `x` inserted into a sorted list, after the elements that precede it. */
  function Insert(x: Event, s: seq<Event>): (r: seq<Event>)
    requires Sorted(s)
    ensures Sorted(r)
    ensures multiset(r) == multiset(s) + multiset{x}
  {
    if s == [] then [x]
    else if EventLe(x, s[0]) then
      InsertFront(x, s);
      [x] + s
    else
      var rest := Insert(x, s[1..]);
      InsertBehind(x, s, rest);
      [s[0]] + rest
  }

  lemma {:induction false} InsertFront(x: Event, s: seq<Event>)
    requires Sorted(s) && s != [] && EventLe(x, s[0])
    ensures Sorted([x] + s)
  {
    forall i, j | 0 <= i < j < |[x] + s|
      ensures EventLe(([x] + s)[i], ([x] + s)[j])
    {
      if i == 0 {
        EventLeTotalOrder(x, s[0], s[j - 1]);
      } else {
        assert ([x] + s)[i] == s[i - 1] && ([x] + s)[j] == s[j - 1];
      }
    }
  }

  lemma {:induction false} InsertBehind(x: Event, s: seq<Event>, rest: seq<Event>)
    requires Sorted(s) && s != [] && !EventLe(x, s[0])
    requires Sorted(rest) && multiset(rest) == multiset(s[1..]) + multiset{x}
    ensures Sorted([s[0]] + rest)
    ensures multiset([s[0]] + rest) == multiset(s) + multiset{x}
  {
    assert s == [s[0]] + s[1..];
    forall j | 0 <= j < |rest|
      ensures EventLe(s[0], rest[j])
    {
      assert rest[j] in multiset(rest);
      if rest[j] == x {
        EventLeTotalOrder(x, s[0], x);
      } else {
        assert rest[j] in multiset(s[1..]);
        var k :| 0 <= k < |s[1..]| && s[1..][k] == rest[j];
        assert s[k + 1] == rest[j];
      }
    }
  }

  /** Python's `sorted` on a list of events. */
  function SortEvents(s: seq<Event>): (r: seq<Event>)
    ensures Sorted(r)
    ensures multiset(r) == multiset(s)
    ensures |r| == |s|
  {
    if s == [] then []
    else
      assert s == [s[0]] + s[1..];
      Insert(s[0], SortEvents(s[1..]))
  }

  /** The head of a sorted list precedes each of its elements. */
  lemma {:induction false} HeadFirst(s: seq<Event>, x: Event)
    requires Sorted(s) && x in multiset(s)
    ensures EventLe(s[0], x)
  {
    var k :| 0 <= k < |s| && s[k] == x;
    if k == 0 {
      EventLeTotalOrder(x, x, x);
    }
  }

  lemma {:induction false} TailOf(s: seq<Event>)
    requires Sorted(s) && s != []
    ensures Sorted(s[1..])
    ensures multiset(s[1..]) == multiset(s) - multiset{s[0]}
  {
    assert s == [s[0]] + s[1..];
  }

  /** A list has exactly one sorted arrangement: any sort of the same events
      returns the list SortEvents returns. */
  lemma {:induction false} SortedUnique(a: seq<Event>, b: seq<Event>)
    requires Sorted(a) && Sorted(b) && multiset(a) == multiset(b)
    ensures a == b
    decreases |a|
  {
    assert |a| == |multiset(a)| == |multiset(b)| == |b|;
    if a != [] {
      HeadFirst(a, b[0]);
      HeadFirst(b, a[0]);
      EventLeTotalOrder(a[0], b[0], a[0]);
      TailOf(a);
      TailOf(b);
      SortedUnique(a[1..], b[1..]);
      assert a == [a[0]] + a[1..] && b == [b[0]] + b[1..];
    }
  }

  /** In a sorted list, at equal times every note-off comes before every
      note-on: a note-off status byte (0x80..0x8F) is below every note-on
      status byte (0x90..0x9F). */
  lemma {:induction false} NoteOffFirst(s: seq<Event>, i: int, j: int)
    requires Sorted(s) && 0 <= i < |s| && 0 <= j < |s|
    requires s[i].time == s[j].time && IsNoteOff(s[i].msg) && IsNoteOn(s[j].msg)
    ensures i < j
  {
    assert s[i].msg[0] < s[j].msg[0];
    assert !EventLe(s[j], s[i]);
  }

  /** Every event of `evs` is at or before `t`, and those at `t` are
      note-offs. */
  predicate EndsBy(evs: seq<Event>, t: real) {
    forall x :: x in evs ==> x.time <= t && (x.time == t ==> IsNoteOff(x.msg))
  }

  /** Every event of `evs` is at or after `t`, and those at `t` are
      note-ons. */
  predicate StartsFrom(evs: seq<Event>, t: real) {
    forall y :: y in evs ==> t <= y.time && (y.time == t ==> IsNoteOn(y.msg))
  }

  /** A list that ends by `t` precedes a list that starts from `t`. */
  lemma {:induction false} Boundary(a: seq<Event>, b: seq<Event>, t: real)
    requires EndsBy(a, t) && StartsFrom(b, t)
    ensures AllBefore(a, b)
  {
    forall x, y | x in a && y in b
      ensures EventLe(x, y)
    {
      if x.time == y.time {
        assert x.msg[0] < y.msg[0];
      }
    }
  }
}
