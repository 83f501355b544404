/** Python's ordering of strings: lexicographic by character, a proper
    prefix before its extensions.  `max()` over string keys and `sorted()`
    by a string field use it.  For dates written `YYYY-MM-DD` this order is
    the calendar order, which is why the scripts may compare dates as
    strings. */
module Lex {
  import opened Py

  /** `a <= b` on Python strings. */
  predicate Le(a: string, b: string)
    decreases |a|
  {
    a == [] || (b != [] && (a[0] < b[0] || (a[0] == b[0] && Le(a[1..], b[1..]))))
  }

  lemma {:induction false} LeRefl(a: string)
    ensures Le(a, a)
  {
    if a != [] { LeRefl(a[1..]); }
  }

  lemma {:induction false} LeTotal(a: string, b: string)
    ensures Le(a, b) || Le(b, a)
  {
    if a != [] && b != [] && a[0] == b[0] { LeTotal(a[1..], b[1..]); }
  }

  lemma {:induction false} LeTrans(a: string, b: string, c: string)
    requires Le(a, b) && Le(b, c)
    ensures Le(a, c)
  {
    if a != [] && b != [] && c != [] && a[0] == b[0] == c[0] {
      LeTrans(a[1..], b[1..], c[1..]);
    }
  }

  lemma {:induction false} LeAntisym(a: string, b: string)
    requires Le(a, b) && Le(b, a)
    ensures a == b
  {
    if a != [] && b != [] {
      LeAntisym(a[1..], b[1..]);
      assert a == [a[0]] + a[1..] && b == [b[0]] + b[1..];
    }
  }

  /** Comparing `x + y` with `x' + y'` where `x` and `x'` have the same length
      compares `x` with `x'` first and only then `y` with `y'`. */
  lemma {:induction false} LeConcat(x: string, y: string, x': string, y': string)
    requires |x| == |x'|
    ensures Le(x + y, x' + y') <==> (x == x' && Le(y, y')) || (x != x' && Le(x, x'))
  {
    if x != [] {
      assert (x + y)[0] == x[0] && (x' + y')[0] == x'[0];
      assert (x + y)[1..] == x[1..] + y && (x' + y')[1..] == x'[1..] + y';
      LeConcat(x[1..], y, x'[1..], y');
      if x[0] == x'[0] {
        assert x == x' <==> x[1..] == x'[1..] by {
          assert x == [x[0]] + x[1..] && x' == [x'[0]] + x'[1..];
        }
      }
    } else {
      assert x + y == y && x' + y' == y';
    }
  }

  /** For two strings of decimal digits of the same length, the Python order
      of the strings is the order of the numbers they spell. */
  lemma {:induction false} DigitsOrder(a: string, b: string)
    requires |a| == |b| && AllDigits(a) && AllDigits(b)
    ensures Le(a, b) <==> DigitsValue(a) <= DigitsValue(b)
  {
    if Le(a, b) {
      DigitsMonotone(a, b);
    } else {
      LeTotal(a, b);
      DigitsMonotone(b, a);
    }
  }

  lemma {:induction false} DigitsMonotone(a: string, b: string)
    requires |a| == |b| && AllDigits(a) && AllDigits(b) && Le(a, b)
    ensures DigitsValue(a) <= DigitsValue(b)
    ensures a != b ==> DigitsValue(a) < DigitsValue(b)
  {
    var n := |a|;
    if n > 0 {
      var a', b' := a[..n - 1], b[..n - 1];
      assert a == a' + [a[n - 1]] && b == b' + [b[n - 1]];
      LeConcat(a', [a[n - 1]], b', [b[n - 1]]);
      if a' == b' {
        assert a[n - 1] <= b[n - 1];
      } else {
        DigitsMonotone(a', b');
        assert DigitsValue(a) <= 10 * DigitsValue(a') + 9;
      }
    }
  }

  // ---------------------------------------------------------------------------
  // Dates written YYYY-MM-DD (what strftime('%Y-%m-%d') produces)

  /** dateutil's `parser.parse(s).strftime('%Y-%m-%d')`: the date `s`
      names, written as a date key, or None where parsing raises
      ValueError. */
  type DateNormaliser = string -> Option<string>

  predicate IsDateKey(s: string) {
    && |s| == 10 && s[4] == '-' && s[7] == '-'
    && AllDigits(s[..4]) && AllDigits(s[5..7]) && AllDigits(s[8..])
  }

  /** The year, month and day a date key spells. */
  function DateOf(s: string): (r: (nat, nat, nat))
    requires IsDateKey(s)
  {
    (DigitsValue(s[..4]), DigitsValue(s[5..7]), DigitsValue(s[8..]))
  }

  /** Calendar order: by year, then month, then day. */
  predicate Earlier(d: (nat, nat, nat), e: (nat, nat, nat)) {
    d.0 < e.0 || (d.0 == e.0 && (d.1 < e.1 || (d.1 == e.1 && d.2 <= e.2)))
  }

  /** For date keys the string order is the calendar order, so the greatest
      key is the latest date. */
  lemma DateKeyOrder(a: string, b: string)
    requires IsDateKey(a) && IsDateKey(b)
    ensures Le(a, b) <==> Earlier(DateOf(a), DateOf(b))
  {
    var ya, ma, da := a[..4], a[5..7], a[8..];
    var yb, mb, db := b[..4], b[5..7], b[8..];
    assert a == ya + (['-'] + (ma + (['-'] + da)));
    assert b == yb + (['-'] + (mb + (['-'] + db)));
    LeConcat(ya, ['-'] + (ma + (['-'] + da)), yb, ['-'] + (mb + (['-'] + db)));
    LeConcat(['-'], ma + (['-'] + da), ['-'], mb + (['-'] + db));
    LeConcat(ma, ['-'] + da, mb, ['-'] + db);
    LeConcat(['-'], da, ['-'], db);
    DigitsOrder(ya, yb);
    DigitsOrder(ma, mb);
    DigitsOrder(da, db);
    DigitsInjective(ya, yb);
    DigitsInjective(ma, mb);
  }

  /** Equal-length digit strings with equal values are equal. */
  lemma DigitsInjective(a: string, b: string)
    requires |a| == |b| && AllDigits(a) && AllDigits(b)
    ensures a == b <==> DigitsValue(a) == DigitsValue(b)
  {
    if a != b {
      LeTotal(a, b);
      if Le(a, b) { DigitsMonotone(a, b); } else { DigitsMonotone(b, a); }
    }
  }
}
