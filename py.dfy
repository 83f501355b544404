/** The few pieces of the Python runtime that the modelled scripts lean on:
    optional values, the exceptions they raise or catch, `str.lower`,
    `str.split`, `int(str)` and `str(int)`.  Characters are modelled over
    ASCII: letters outside A-Z are not case-mapped and only ASCII digits
    and ASCII white space are recognised. */
module Py {

  datatype Option<+T> = None | Some(value: T) {
    function GetOr(default: T): T {
      match this
      case Some(v) => v
      case None => default
    }
  }

  /** The built-in exceptions that the scripts raise, catch or let escape. */
  datatype Error =
    | EOFError           // input() at the end of standard input
    | KeyError           // a missing dict key
    | ValueError         // int() or a date parser refusing its argument
    | IndexError         // a list index past the end
    | TypeError          // a list indexed by a string
    | FileNotFoundError  // open() or copy2() on a missing file
    | SystemExit         // argparse refusing the command line
    | AttributeError     // an object without the attribute looked up

  /** How a call ended: it returned, or it raised an exception. */
  datatype Outcome = Normal | Raised(error: Error)

  /** A value, or the exception raised instead of producing it. */
  datatype Result<+T> = Ok(value: T) | Err(error: Error)

  // ---------------------------------------------------------------------------
  // str.lower()

  function LowerChar(c: char): char {
    if 'A' <= c <= 'Z' then (c as int + 32) as char else c
  }

  predicate IsUpper(c: char) { 'A' <= c <= 'Z' }

  function Lower(s: string): (r: string)
    ensures |r| == |s|
  {
    if s == [] then [] else [LowerChar(s[0])] + Lower(s[1..])
  }

  /** `s.lower()` has no upper-case letter and leaves every other character
      as it was. */
  lemma {:induction false} LowerSpec(s: string)
    ensures forall i :: 0 <= i < |s| ==> !IsUpper(Lower(s)[i])
    ensures forall i :: 0 <= i < |s| && !IsUpper(s[i]) ==> Lower(s)[i] == s[i]
  {
    if s != [] {
      LowerSpec(s[1..]);
      assert forall i :: 1 <= i < |s| ==> Lower(s)[i] == Lower(s[1..])[i - 1];
    }
  }

  /** `s.lower()` lowers each character on its own. */
  lemma {:induction false} LowerAt(s: string)
    ensures forall i :: 0 <= i < |s| ==> Lower(s)[i] == LowerChar(s[i])
  {
    if s != [] {
      LowerAt(s[1..]);
      assert forall i :: 1 <= i < |s| ==> Lower(s)[i] == Lower(s[1..])[i - 1];
    }
  }

  /** Lowering twice is lowering once. */
  lemma {:induction false} LowerIdempotent(s: string)
    ensures Lower(Lower(s)) == Lower(s)
  {
    if s != [] {
      LowerIdempotent(s[1..]);
      assert Lower(s) == [LowerChar(s[0])] + Lower(s[1..]);
    }
  }

  /** A lower-case letter occurs in `s.lower()` exactly when it or its
      upper-case form occurs in `s`: the answers "y" and "Y" both confirm. */
  lemma {:induction false} InLower(s: string, c: char)
    requires 'a' <= c <= 'z'
    ensures c in Lower(s) <==> c in s || (c as int - 32) as char in s
  {
    if s != [] {
      InLower(s[1..], c);
      assert Lower(s) == [LowerChar(s[0])] + Lower(s[1..]);
      assert s == [s[0]] + s[1..];
    }
  }

  // ---------------------------------------------------------------------------
  // str.split(sep) for a one-character separator

  function Split(s: string, sep: char): (parts: seq<string>)
    ensures |parts| >= 1
    ensures forall i :: 0 <= i < |parts| ==> sep !in parts[i]
    decreases |s|
  {
    if sep !in s then [s]
    else
      var i := IndexOf(s, sep);
      [s[..i]] + Split(s[i + 1..], sep)
  }

  /** The position of the first occurrence of `c` in `s`. */
  function IndexOf(s: string, c: char): (i: nat)
    requires c in s
    ensures i < |s| && s[i] == c && c !in s[..i]
  {
    if s[0] == c then 0 else 1 + IndexOf(s[1..], c)
  }

  /** Splitting `a + sep + b` where `a` has no separator yields `a` first. */
  lemma SplitHead(a: string, sep: char, b: string)
    requires sep !in a
    ensures Split(a + [sep] + b, sep) == [a] + Split(b, sep)
  {
    var s := a + [sep] + b;
    assert s[|a|] == sep;
    assert forall j :: 0 <= j < |a| ==> s[j] == a[j];
    var i := IndexOf(s, sep);
    assert i == |a|;
    assert s[..i] == a;
    assert s[i + 1..] == b;
  }

  // ---------------------------------------------------------------------------
  // int(str) and str(int)

  /** White space as Python's int() strips it, restricted to ASCII. */
  predicate IsSpace(c: char) {
    c == ' ' || 9 <= c as int <= 13 || 28 <= c as int <= 31
  }

  predicate IsDigit(c: char) { '0' <= c <= '9' }

  predicate AllDigits(s: string) { forall i :: 0 <= i < |s| ==> IsDigit(s[i]) }

  function StripLeft(s: string): (r: string)
    ensures |r| <= |s| && r == s[|s| - |r|..]
    ensures r == [] || !IsSpace(r[0])
  {
    if s != [] && IsSpace(s[0]) then StripLeft(s[1..]) else s
  }

  function StripRight(s: string): (r: string)
    ensures |r| <= |s| && r == s[..|r|]
    ensures r == [] || !IsSpace(r[|r| - 1])
  {
    if s != [] && IsSpace(s[|s| - 1]) then StripRight(s[..|s| - 1]) else s
  }

  /** `s.strip()` over ASCII white space. */
  function Strip(s: string): string { StripRight(StripLeft(s)) }

  /** The value of a string of decimal digits. */
  function DigitsValue(ds: string): (n: nat)
    requires AllDigits(ds)
  {
    if ds == [] then 0
    else 10 * DigitsValue(ds[..|ds| - 1]) + (ds[|ds| - 1] as int - '0' as int)
  }

  /** Python's `int(s)` for a string: surrounding white space is ignored, an
      optional sign may lead, and at least one digit must follow; anything
      else is a ValueError (here: None). */
  function ParseInt(s: string): (r: Option<int>)
    ensures r.Some? ==> Strip(s) != []
  {
    var t := Strip(s);
    if t == [] then None
    else
      var neg := t[0] == '-';
      var body := if t[0] == '-' || t[0] == '+' then t[1..] else t;
      if body == [] || !AllDigits(body) then None
      else
        var v: int := DigitsValue(body);
        Some(if neg then -v else v)
  }

  function DigitChar(d: nat): (c: char)
    requires d < 10
    ensures IsDigit(c) && c as int - '0' as int == d
  {
    ('0' as int + d) as char
  }

  /** `str(n)` for a natural number. */
  function NatToString(n: nat): (s: string)
    ensures s != [] && AllDigits(s)
    ensures DigitsValue(s) == n
    decreases n
  {
    if n < 10 then [DigitChar(n)]
    else
      var s := NatToString(n / 10) + [DigitChar(n % 10)];
      assert s[..|s| - 1] == NatToString(n / 10);
      s
  }

  /** `str(n)` for any integer. */
  function IntToString(n: int): (s: string)
    ensures s != [] && (s[0] == '-' || IsDigit(s[0])) && IsDigit(s[|s| - 1])
  {
    if n < 0 then "-" + NatToString(-n) else NatToString(n)
  }

  lemma StripNoSpace(s: string)
    requires s != [] && !IsSpace(s[0]) && !IsSpace(s[|s| - 1])
    ensures Strip(s) == s
  {
  }

  /** `int(str(n)) == n`, also when a line terminator or other trailing white
      space follows the number, as when a line read from a file is parsed. */
  lemma ParseIntToString(n: int, tail: string)
    requires forall i :: 0 <= i < |tail| ==> IsSpace(tail[i])
    ensures ParseInt(IntToString(n) + tail) == Some(n)
  {
    var s := IntToString(n);
    assert Strip(s + tail) == s by {
      StripTrailing(s, tail);
      StripNoSpace(s);
    }
    ParseIntStripped(s + tail, n);
  }

  lemma ParseIntStripped(x: string, n: int)
    requires Strip(x) == IntToString(n)
    ensures ParseInt(x) == Some(n)
  {
    var s := IntToString(n);
    var ds := NatToString(if n < 0 then -n else n);
    var v: int := DigitsValue(ds);
    if n < 0 {
      assert s == "-" + ds && s[1..] == ds;
    } else {
      assert s == ds && s[0] != '-' && s[0] != '+';
    }
  }

  lemma {:induction false} StripTrailing(s: string, tail: string)
    requires s != [] && !IsSpace(s[0]) && !IsSpace(s[|s| - 1])
    requires forall i :: 0 <= i < |tail| ==> IsSpace(tail[i])
    ensures Strip(s + tail) == Strip(s)
  {
    assert (s + tail)[0] == s[0];
    assert StripLeft(s + tail) == s + tail;
    assert StripLeft(s) == s;
    StripRightSpaces(s, tail);
  }

  lemma {:induction false} StripRightSpaces(s: string, tail: string)
    requires s != [] && !IsSpace(s[|s| - 1])
    requires forall i :: 0 <= i < |tail| ==> IsSpace(tail[i])
    ensures StripRight(s + tail) == s
    decreases |tail|
  {
    if tail == [] {
      assert s + tail == s;
    } else {
      var shorter := tail[..|tail| - 1];
      assert (s + tail)[..|s + tail| - 1] == s + shorter;
      StripRightSpaces(s, shorter);
    }
  }
}
