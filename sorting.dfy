/** Python's `list.sort(key=...)` and `sorted(..., key=...)`: a stable sort
    by a key.  The sort itself is the library's; it is modelled by an
    insertion sort that, like the library's, keeps elements with equal keys
    in their original order.  The comparison of keys is passed in as `le`,
    which must be a total preorder. */
module Sorting {

  ghost predicate TotalPreorder<T(!new)>(le: (T, T) -> bool) {
    && (forall a, b :: le(a, b) || le(b, a))
    && (forall a, b, c :: le(a, b) && le(b, c) ==> le(a, c))
  }

  predicate Sorted<T>(s: seq<T>, le: (T, T) -> bool) {
    forall i, j :: 0 <= i < j < |s| ==> le(s[i], s[j])
  }

  /** Places `x` after every element that is not greater than it. */
  function Insert<T>(x: T, s: seq<T>, le: (T, T) -> bool): (r: seq<T>)
    ensures multiset(r) == multiset(s) + multiset{x}
    ensures |r| == |s| + 1
  {
    if s == [] then [x]
    else if le(s[0], x) then
      assert s == [s[0]] + s[1..];
      [s[0]] + Insert(x, s[1..], le)
    else [x] + s
  }

  lemma {:induction false} InsertSorted<T(!new)>(x: T, s: seq<T>, le: (T, T) -> bool)
    requires TotalPreorder(le) && Sorted(s, le)
    ensures Sorted(Insert(x, s, le), le)
  {
    if s != [] {
      if le(s[0], x) {
        InsertSorted(x, s[1..], le);
        var r := Insert(x, s[1..], le);
        forall e | e in r ensures le(s[0], e) {
          assert e in multiset(r);
          if e != x {
            assert e in multiset(s[1..]);
            var k :| 0 <= k < |s[1..]| && s[1..][k] == e;
            assert s[k + 1] == e;
          }
        }
        assert Insert(x, s, le) == [s[0]] + r;
      } else {
        assert le(x, s[0]);
        assert Insert(x, s, le) == [x] + s;
      }
    }
  }

  /** `sorted(s, key=...)`: the elements of `s`, rearranged in ascending
      order. */
  function SortBy<T(!new)>(s: seq<T>, le: (T, T) -> bool): (r: seq<T>)
    requires TotalPreorder(le)
    ensures Sorted(r, le)
    ensures multiset(r) == multiset(s)
    ensures |r| == |s|
  {
    if s == [] then []
    else
      var init := s[..|s| - 1];
      assert s == init + [s[|s| - 1]];
      InsertSorted(s[|s| - 1], SortBy(init, le), le);
      Insert(s[|s| - 1], SortBy(init, le), le)
  }

  /** Sorting an already sorted list changes nothing. */
  lemma {:induction false} SortSorted<T(!new)>(s: seq<T>, le: (T, T) -> bool)
    requires TotalPreorder(le) && Sorted(s, le)
    ensures SortBy(s, le) == s
  {
    if s != [] {
      var init := s[..|s| - 1];
      assert s == init + [s[|s| - 1]];
      SortSorted(init, le);
      InsertLast(s[|s| - 1], init, le);
    }
  }

  /** Whether `a` and `b` have equal keys: neither sorts before the other. */
  predicate Equivalent<T>(a: T, b: T, le: (T, T) -> bool) {
    le(a, b) && le(b, a)
  }

  /** The elements of `s` whose key equals `x`'s, in their order in `s`. */
  function Matching<T>(s: seq<T>, x: T, le: (T, T) -> bool): (r: seq<T>)
    ensures |r| <= |s|
  {
    if s == [] then []
    else if Equivalent(s[0], x, le) then [s[0]] + Matching(s[1..], x, le)
    else Matching(s[1..], x, le)
  }

  /** Matching keeps exactly the elements with `x`'s key. */
  lemma {:induction false} MatchingKeys<T>(s: seq<T>, x: T, le: (T, T) -> bool)
    ensures forall e :: e in Matching(s, x, le) <==> e in s && Equivalent(e, x, le)
  {
    if s != [] {
      MatchingKeys(s[1..], x, le);
      assert s == [s[0]] + s[1..];
    }
  }

  lemma {:induction false} MatchingAppend<T>(a: seq<T>, b: seq<T>, x: T, le: (T, T) -> bool)
    ensures Matching(a + b, x, le) == Matching(a, x, le) + Matching(b, x, le)
  {
    if a == [] {
      assert a + b == b;
    } else {
      MatchingAppend(a[1..], b, x, le);
      assert (a + b)[0] == a[0] && (a + b)[1..] == a[1..] + b;
      if Equivalent(a[0], x, le) {
        assert [a[0]] + (Matching(a[1..], x, le) + Matching(b, x, le))
            == ([a[0]] + Matching(a[1..], x, le)) + Matching(b, x, le);
      }
    }
  }

  /** None of `t` has the key of `x` when every element of `t` sorts after it. */
  lemma {:induction false} MatchingNone<T>(t: seq<T>, x: T, le: (T, T) -> bool)
    requires forall i :: 0 <= i < |t| ==> !le(t[i], x)
    ensures Matching(t, x, le) == []
  {
    if t != [] {
      MatchingNone(t[1..], x, le);
    }
  }

  /** Inserting `y` into a sorted list puts it after every element with the
      same key. */
  lemma {:induction false} InsertStable<T(!new)>(y: T, t: seq<T>, x: T, le: (T, T) -> bool)
    requires TotalPreorder(le) && Sorted(t, le)
    ensures Matching(Insert(y, t, le), x, le) == Matching(t, x, le) + Matching([y], x, le)
  {
    if t == [] {
    } else if le(t[0], y) {
      InsertStable(y, t[1..], x, le);
      InsertPast(y, t, x, le);
    } else {
      InsertFront(y, t, x, le);
    }
  }

  /** `y` goes past the head `t[0]`: the head's match comes first. */
  lemma InsertPast<T>(y: T, t: seq<T>, x: T, le: (T, T) -> bool)
    requires t != [] && le(t[0], y)
    requires Matching(Insert(y, t[1..], le), x, le) == Matching(t[1..], x, le) + Matching([y], x, le)
    ensures Matching(Insert(y, t, le), x, le) == Matching(t, x, le) + Matching([y], x, le)
  {
    var r := Insert(y, t[1..], le);
    InsertHead(y, t, le);
    MatchingAppend([t[0]], r, x, le);
    MatchingAppend([t[0]], t[1..], x, le);
    assert [t[0]] + t[1..] == t;
    var m0, m1, my := Matching([t[0]], x, le), Matching(t[1..], x, le), Matching([y], x, le);
    assert m0 + (m1 + my) == (m0 + m1) + my;
  }

  lemma InsertHead<T>(y: T, t: seq<T>, le: (T, T) -> bool)
    requires t != [] && le(t[0], y)
    ensures Insert(y, t, le) == [t[0]] + Insert(y, t[1..], le)
  {
  }

  /** `y` goes before a sorted `t` that starts with a greater key: only one
      of them can have `x`'s key. */
  lemma InsertFront<T(!new)>(y: T, t: seq<T>, x: T, le: (T, T) -> bool)
    requires TotalPreorder(le) && Sorted(t, le) && t != [] && !le(t[0], y)
    ensures Matching(Insert(y, t, le), x, le) == Matching(t, x, le) + Matching([y], x, le)
  {
    assert Insert(y, t, le) == [y] + t;
    MatchingAppend([y], t, x, le);
    if Equivalent(y, x, le) {
      AllAfter(y, t, x, le);
      MatchingNone(t, x, le);
    } else {
      assert Matching([y], x, le) == [];
    }
  }

  /** Every element of a sorted `t` sorts after `x` when its head sorts
      after `y` and `y` has `x`'s key. */
  lemma AllAfter<T(!new)>(y: T, t: seq<T>, x: T, le: (T, T) -> bool)
    requires TotalPreorder(le) && Sorted(t, le) && t != [] && !le(t[0], y) && Equivalent(y, x, le)
    ensures forall i :: 0 <= i < |t| ==> !le(t[i], x)
  {
    forall i | 0 <= i < |t| ensures !le(t[i], x) {
      if i > 0 { assert le(t[0], t[i]); }
    }
  }

  /** The sort is stable: the elements with any one key keep their
      original order. */
  lemma {:induction false} SortStable<T(!new)>(s: seq<T>, x: T, le: (T, T) -> bool)
    requires TotalPreorder(le)
    ensures Matching(SortBy(s, le), x, le) == Matching(s, x, le)
  {
    if s != [] {
      var init := s[..|s| - 1];
      assert s == init + [s[|s| - 1]];
      SortStable(init, x, le);
      InsertStable(s[|s| - 1], SortBy(init, le), x, le);
      MatchingAppend(init, [s[|s| - 1]], x, le);
    }
  }

  lemma {:induction false} InsertLast<T>(x: T, s: seq<T>, le: (T, T) -> bool)
    requires forall i :: 0 <= i < |s| ==> le(s[i], x)
    ensures Insert(x, s, le) == s + [x]
  {
    if s != [] {
      InsertLast(x, s[1..], le);
      assert s == [s[0]] + s[1..];
    }
  }
}
