/**
 * The date order of the combined event list (public/server.js, the
 * comparator `new Date(a.date || '1970-01-01') - new Date(b.date || '1970-01-01')`
 * handed to `Array.prototype.sort`, which ECMAScript 2019 requires to be stable).
 *
 * The stable sort is specified by a functional insertion sort, `SortByDate`;
 * the lemmas show it is a sorted permutation that keeps, for every date, the
 * events of that date in their original order, and that it is the only
 * sequence with these properties, so any stable sort yields it. `SortInPlace`
 * sorts an array in place into exactly that sequence.
 */
module EventSort {
  import opened Wrappers
  import opened Events

  /** What `new Date('1970-01-01')` denotes: a date-only text is read as UTC midnight. */
  const EpochSentinel: int := 0

  /**
   * An event the comparator can order: its date is absent or valid. An
   * Invalid Date (unparseable text, or text naming an instant beyond the
   * range a Date can hold) makes the comparator return NaN, which leaves the
   * order implementation-defined; such events are excluded.
   */
  predicate Sortable(e: Event)
  {
    e.date.None? || e.date.value.Valid?
  }

  type SortableEvent = e: Event | Sortable(e)
    witness Event(None, None, None, None, None, None, None, None, None, Google)

  /** The instant the comparator reads from an event. */
  function DateKey(e: SortableEvent): (k: int)
    ensures e.date.None? ==> k == EpochSentinel
    ensures e.date.Some? ==> e.date.value.Valid? && e.date.value.ms == k
    ensures -MaxTimeMs <= k <= MaxTimeMs
  {
    if e.date.None? then EpochSentinel else e.date.value.ms
  }

  predicate SortedByDate(s: seq<SortableEvent>)
  {
    forall i, j :: 0 <= i < j < |s| ==> DateKey(s[i]) <= DateKey(s[j])
  }

  /** The events of `s` dated `k`, in their order in `s`. */
  function WithDate(s: seq<SortableEvent>, k: int): seq<SortableEvent>
    decreases |s|
  {
    if s == [] then []
    else WithDate(s[..|s| - 1], k) + (if DateKey(s[|s| - 1]) == k then [s[|s| - 1]] else [])
  }

  /** `s` with `x` placed after every event dated no later than `x`. */
  function Insert(s: seq<SortableEvent>, x: SortableEvent): (r: seq<SortableEvent>)
    ensures |r| == |s| + 1
    decreases |s|
  {
    if s == [] then [x]
    else if DateKey(s[|s| - 1]) > DateKey(x) then
      assert s == s[..|s| - 1] + [s[|s| - 1]];
      Insert(s[..|s| - 1], x) + [s[|s| - 1]]
    else s + [x]
  }

  /** The stable sort of `s` by date, as insertion sort computes it. */
  function SortByDate(s: seq<SortableEvent>): (r: seq<SortableEvent>)
    ensures |r| == |s|
    decreases |s|
  {
    if s == [] then []
    else
      Insert(SortByDate(s[..|s| - 1]), s[|s| - 1])
  }

  // ----------------------------------------------------------------- WithDate

  lemma {:induction false} WithDateAppend(a: seq<SortableEvent>, b: seq<SortableEvent>, k: int)
    ensures WithDate(a + b, k) == WithDate(a, k) + WithDate(b, k)
    decreases |b|
  {
    if b == [] {
      assert a + b == a;
    } else {
      var ab := a + b;
      assert ab[..|ab| - 1] == a + b[..|b| - 1];
      assert ab[|ab| - 1] == b[|b| - 1];
      WithDateAppend(a, b[..|b| - 1], k);
    }
  }

  lemma WithDateSingleton(x: SortableEvent, k: int)
    ensures WithDate([x], k) == if DateKey(x) == k then [x] else []
  {
    assert [x][..0] == [];
  }

  // -------------------------------------------------------------------- Insert

  lemma {:induction false} InsertPermutation(s: seq<SortableEvent>, x: SortableEvent)
    ensures multiset(Insert(s, x)) == multiset(s) + multiset{x}
    decreases |s|
  {
    if s != [] && DateKey(s[|s| - 1]) > DateKey(x) {
      assert s == s[..|s| - 1] + [s[|s| - 1]];
      InsertPermutation(s[..|s| - 1], x);
    }
  }

  lemma {:induction false} InsertSorted(s: seq<SortableEvent>, x: SortableEvent)
    requires SortedByDate(s)
    ensures SortedByDate(Insert(s, x))
    decreases |s|
  {
    if s != [] && DateKey(s[|s| - 1]) > DateKey(x) {
      var init, last := s[..|s| - 1], s[|s| - 1];
      var r := Insert(init, x);
      InsertSorted(init, x);
      assert AllUpTo(r, DateKey(last)) by {
        InsertPermutation(init, x);
        forall e | e in r ensures DateKey(e) <= DateKey(last) {
          assert e in multiset(r);
          if e != x {
            assert e in multiset(init);
            var i :| 0 <= i < |init| && init[i] == e;
            assert s[i] == e;
          }
        }
      }
      SortedSnoc(r, last);
    }
  }

  predicate AllUpTo(s: seq<SortableEvent>, k: int)
  {
    forall e :: e in s ==> DateKey(e) <= k
  }

  lemma SortedSnoc(r: seq<SortableEvent>, last: SortableEvent)
    requires SortedByDate(r) && AllUpTo(r, DateKey(last))
    ensures SortedByDate(r + [last])
  {
    var t := r + [last];
    forall i, j | 0 <= i < j < |t| ensures DateKey(t[i]) <= DateKey(t[j]) {
      if j == |t| - 1 {
        assert t[i] in r;
      }
    }
  }

  lemma {:induction false} InsertWithDate(s: seq<SortableEvent>, x: SortableEvent, k: int)
    ensures WithDate(Insert(s, x), k) == WithDate(s, k) + WithDate([x], k)
    decreases |s|
  {
    if s == [] {
      assert Insert(s, x) == [x];
      assert WithDate(s, k) == [];
    } else if DateKey(s[|s| - 1]) > DateKey(x) {
      var init, last := s[..|s| - 1], s[|s| - 1];
      assert s == init + [last];
      InsertWithDate(init, x, k);
      InsertWithDateShift(init, last, x, k);
    } else {
      assert Insert(s, x) == s + [x];
      WithDateAppend(s, [x], k);
    }
  }

  lemma WithDateSnoc(init: seq<SortableEvent>, last: SortableEvent, k: int)
    ensures WithDate(init + [last], k) == WithDate(init, k) + WithDate([last], k)
  {
    var s := init + [last];
    assert s[..|s| - 1] == init;
    WithDateSingleton(last, k);
  }

  lemma InsertWithDateShift(init: seq<SortableEvent>, last: SortableEvent, x: SortableEvent, k: int)
    requires DateKey(last) > DateKey(x)
    requires WithDate(Insert(init, x), k) == WithDate(init, k) + WithDate([x], k)
    ensures WithDate(Insert(init + [last], x), k) == WithDate(init + [last], k) + WithDate([x], k)
  {
    var s := init + [last];
    assert s[..|s| - 1] == init;
    assert Insert(s, x) == Insert(init, x) + [last];
    WithDateSnoc(Insert(init, x), last, k);
    WithDateSnoc(init, last, k);
    WithDateSingleton(last, k);
    WithDateSingleton(x, k);
    var wi, wx, wl := WithDate(init, k), WithDate([x], k), WithDate([last], k);
    if wx == [] {
      assert wi + wx + wl == wi + wl == wi + wl + wx;
    } else {
      assert wl == [];
      assert wi + wx + wl == wi + wx == wi + wl + wx;
    }
  }

  // ---------------------------------------------------------------- SortByDate

  /** The sort orders events by date, missing dates counting as the epoch. */
  lemma {:induction false} SortByDateSorted(s: seq<SortableEvent>)
    ensures SortedByDate(SortByDate(s))
    decreases |s|
  {
    if s != [] {
      SortByDateSorted(s[..|s| - 1]);
      InsertSorted(SortByDate(s[..|s| - 1]), s[|s| - 1]);
    }
  }

  /** The sort neither loses nor adds events. */
  lemma {:induction false} SortByDatePermutation(s: seq<SortableEvent>)
    ensures multiset(SortByDate(s)) == multiset(s)
    decreases |s|
  {
    if s != [] {
      assert s == s[..|s| - 1] + [s[|s| - 1]];
      SortByDatePermutation(s[..|s| - 1]);
      InsertPermutation(SortByDate(s[..|s| - 1]), s[|s| - 1]);
    }
  }

  /** Stability: the events of any one date keep their relative order. */
  lemma {:induction false} SortByDateStable(s: seq<SortableEvent>, k: int)
    ensures WithDate(SortByDate(s), k) == WithDate(s, k)
    decreases |s|
  {
    if s != [] {
      var init, last := s[..|s| - 1], s[|s| - 1];
      SortByDateStable(init, k);
      InsertWithDate(SortByDate(init), last, k);
    }
  }

  // ----------------------------------------------------------------- uniqueness

  lemma SortedPrefix(s: seq<SortableEvent>)
    requires SortedByDate(s) && s != []
    ensures SortedByDate(s[..|s| - 1])
    ensures forall e :: e in s ==> DateKey(e) <= DateKey(s[|s| - 1])
  {
  }

  lemma {:induction false} WithDateMembers(s: seq<SortableEvent>, k: int)
    ensures forall e :: e in WithDate(s, k) <==> e in s && DateKey(e) == k
    decreases |s|
  {
    if s != [] {
      WithDateMembers(s[..|s| - 1], k);
      assert s == s[..|s| - 1] + [s[|s| - 1]];
    }
  }

  /** In a sorted sequence, the last event is the last of those sharing its date. */
  lemma SortedLastDate(s: seq<SortableEvent>)
    requires SortedByDate(s) && s != []
    ensures var k := DateKey(s[|s| - 1]);
      WithDate(s, k) == WithDate(s[..|s| - 1], k) + [s[|s| - 1]]
  {
  }

  /** A non-empty sequence has events of the date of its first event. */
  lemma NonEmptyHasDate(c: seq<SortableEvent>)
    requires c != []
    ensures WithDate(c, DateKey(c[0])) != []
  {
    WithDateMembers(c, DateKey(c[0]));
    assert c[0] in WithDate(c, DateKey(c[0]));
  }

  /** Sorted sequences that agree date by date end in the same event. */
  lemma SortedSameLast(a: seq<SortableEvent>, b: seq<SortableEvent>)
    requires SortedByDate(a) && SortedByDate(b) && a != [] && b != []
    requires forall k :: WithDate(a, k) == WithDate(b, k)
    ensures a[|a| - 1] == b[|b| - 1]
  {
    var x, y := a[|a| - 1], b[|b| - 1];
    LastDateBound(a, b);
    LastDateBound(b, a);
    var w := WithDate(a, DateKey(x));
    assert w[|w| - 1] == x by {
      SortedLastDate(a);
    }
    assert w[|w| - 1] == y by {
      assert w == WithDate(b, DateKey(y));
      SortedLastDate(b);
    }
  }

  /** The last event of `a` is no later than the last of `b`, when the two agree date by date. */
  lemma LastDateBound(a: seq<SortableEvent>, b: seq<SortableEvent>)
    requires SortedByDate(b) && a != [] && b != []
    requires forall k :: WithDate(a, k) == WithDate(b, k)
    ensures DateKey(a[|a| - 1]) <= DateKey(b[|b| - 1])
  {
    var x := a[|a| - 1];
    var k := DateKey(x);
    WithDateMembers(a, k);
    WithDateMembers(b, k);
    assert x in WithDate(a, k);
    assert x in WithDate(b, k);
    LastIsLatest(b, x);
  }

  lemma LastIsLatest(s: seq<SortableEvent>, e: SortableEvent)
    requires SortedByDate(s) && e in s
    ensures DateKey(e) <= DateKey(s[|s| - 1])
  {
    var i :| 0 <= i < |s| && s[i] == e;
    if i < |s| - 1 {
      assert DateKey(s[i]) <= DateKey(s[|s| - 1]);
    }
  }

  lemma SnocCancel(p: seq<SortableEvent>, q: seq<SortableEvent>, x: SortableEvent)
    requires p + [x] == q + [x]
    ensures p == q
  {
    assert p == (p + [x])[..|p|];
    assert q == (q + [x])[..|q|];
  }

  /** Dropping the same last event keeps two sequences in date-by-date agreement. */
  lemma DropLastAgree(a: seq<SortableEvent>, b: seq<SortableEvent>, x: SortableEvent)
    requires forall k :: WithDate(a + [x], k) == WithDate(b + [x], k)
    ensures forall k :: WithDate(a, k) == WithDate(b, k)
  {
    forall k ensures WithDate(a, k) == WithDate(b, k) {
      WithDateSnoc(a, x, k);
      WithDateSnoc(b, x, k);
      WithDateSingleton(x, k);
      var wa, wb, wx := WithDate(a, k), WithDate(b, k), WithDate([x], k);
      assert wa + wx == wb + wx by {
        assert WithDate(a + [x], k) == WithDate(b + [x], k);
      }
      if DateKey(x) == k {
        SnocCancel(wa, wb, x);
      } else {
        assert wa + wx == wa && wb + wx == wb;
      }
    }
  }

  /**
   * Two sorted sequences that agree, date by date, on the events of that date
   * and their order are the same sequence.
   */
  lemma {:induction false} SortedStableUnique(a: seq<SortableEvent>, b: seq<SortableEvent>)
    requires SortedByDate(a) && SortedByDate(b)
    requires forall k :: WithDate(a, k) == WithDate(b, k)
    ensures a == b
    decreases |a| + |b|
  {
    if a == [] || b == [] {
      if a != [] {
        NonEmptyHasDate(a);
      } else if b != [] {
        NonEmptyHasDate(b);
      }
    } else {
      SortedSameLast(a, b);
      var x := a[|a| - 1];
      var a', b' := a[..|a| - 1], b[..|b| - 1];
      assert a == a' + [x] && b == b' + [x];
      SortedPrefix(a);
      SortedPrefix(b);
      DropLastAgree(a', b', x);
      SortedStableUnique(a', b');
    }
  }

  /** Every stable sort of `s` by date equals `SortByDate(s)`. */
  lemma StableSortIsSortByDate(s: seq<SortableEvent>, r: seq<SortableEvent>)
    requires SortedByDate(r)
    requires forall k :: WithDate(r, k) == WithDate(s, k)
    ensures r == SortByDate(s)
  {
    SortByDateSorted(s);
    forall k ensures WithDate(r, k) == WithDate(SortByDate(s), k) {
      SortByDateStable(s, k);
    }
    SortedStableUnique(r, SortByDate(s));
  }

  // ------------------------------------------------------------------ in place

  /**
   * Where `Insert` puts `x`: after position `j` when every event from `j` on
   * is dated later than `x` and the one before `j`, if any, is not.
   */
  lemma {:induction false} InsertAt(s: seq<SortableEvent>, j: nat, x: SortableEvent)
    requires j <= |s|
    requires j == 0 || DateKey(s[j - 1]) <= DateKey(x)
    requires forall m :: j <= m < |s| ==> DateKey(s[m]) > DateKey(x)
    ensures Insert(s, x) == s[..j] + [x] + s[j..]
    decreases |s|
  {
    if |s| > j {
      var init := s[..|s| - 1];
      assert init[..j] == s[..j];
      InsertAt(init, j, x);
      assert s[j..] == init[j..] + [s[|s| - 1]];
    } else {
      assert s[..j] == s;
    }
  }

  /** Moves `a[i]` left past the events of `a[..i]` dated later than it. */
  method InsertInPlace(a: array<SortableEvent>, i: nat)
    requires i < a.Length
    modifies a
    ensures a[..i + 1] == Insert(old(a[..i]), old(a[i]))
    ensures a[i + 1..] == old(a[i + 1..])
  {
    var x := a[i];
    ghost var done := a[..i];
    var j := i;
    while j > 0 && DateKey(a[j - 1]) > DateKey(x)
      invariant 0 <= j <= i
      invariant forall m :: 0 <= m < j ==> a[m] == done[m]
      invariant forall m :: j < m <= i ==> a[m] == done[m - 1]
      invariant forall m :: i < m < a.Length ==> a[m] == old(a[m])
      invariant a[i + 1..] == old(a[i + 1..])
      invariant forall m :: j <= m < i ==> DateKey(done[m]) > DateKey(x)
    {
      a[j] := a[j - 1];
      j := j - 1;
    }
    a[j] := x;
    InsertAt(done, j, x);
    assert a[..i + 1] == done[..j] + [x] + done[j..];
  }

  /** `Array.prototype.sort` with the date comparator: a stable sort in place. */
  method SortInPlace(a: array<SortableEvent>)
    modifies a
    ensures a[..] == SortByDate(old(a[..]))
  {
    ghost var input := a[..];
    var i := 0;
    while i < a.Length
      invariant 0 <= i <= a.Length
      invariant a[..i] == SortByDate(input[..i])
      invariant a[i..] == input[i..]
    {
      assert input[..i + 1][..i] == input[..i];
      assert a[i] == input[i];
      InsertInPlace(a, i);
      i := i + 1;
    }
    assert input[..a.Length] == input;
  }
}
