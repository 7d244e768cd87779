/** String helpers behind the source's uses of `str.startswith`,
    `str.rstrip("/")`, `str.lstrip("/")`, `int(...)` on decimal text,
    `str.ljust` and `"sep".join(...)`. */
module Strings {
  import opened Wrappers

  predicate IsDigit(c: char) {
    '0' <= c <= '9'
  }

  function DigitValue(c: char): nat
    requires IsDigit(c)
  {
    c as int - '0' as int
  }

  function DigitChar(d: nat): (c: char)
    requires d < 10
    ensures IsDigit(c) && DigitValue(c) == d
  {
    ('0' as int + d) as char
  }

  predicate AllDigits(s: string) {
    forall i :: 0 <= i < |s| ==> IsDigit(s[i])
  }

  /** `int(s)` restricted to plain decimal text: a non-empty run of the
      digits 0-9 (leading zeros allowed) has its value; anything else is
      `None`, where Python would raise ValueError. */
  function DecimalValue(s: string): (r: Option<nat>)
    ensures r.Some? <==> s != [] && AllDigits(s)
    decreases |s|
  {
    if s == [] || !IsDigit(s[|s| - 1]) then None
    else if |s| == 1 then Some(DigitValue(s[0]))
    else
      match DecimalValue(s[..|s| - 1])
      case None => None
      case Some(v) => Some(10 * v + DigitValue(s[|s| - 1]))
  }

  /** The decimal text of `n`, as Python's `str(n)` writes it. */
  function DecimalString(n: nat): (s: string)
    ensures s != [] && AllDigits(s)
  {
    if n < 10 then [DigitChar(n)] else DecimalString(n / 10) + [DigitChar(n % 10)]
  }

  lemma {:induction false} DecimalRoundTrip(n: nat)
    ensures DecimalValue(DecimalString(n)) == Some(n)
  {
    if n >= 10 {
      var s := DecimalString(n);
      DecimalRoundTrip(n / 10);
      assert s[..|s| - 1] == DecimalString(n / 10);
    }
  }

  /** Leading zeros do not change the value. */
  lemma {:induction false} DecimalLeadingZeros(k: nat, s: string)
    requires s != [] && AllDigits(s)
    ensures DecimalValue(Repeat('0', k) + s) == DecimalValue(s)
    decreases |s|
  {
    var z := Repeat('0', k);
    var t := z + s;
    if |s| == 1 {
      if k > 0 {
        assert t[..|t| - 1] == z;
        ZerosValue(k);
      } else {
        assert t == s;
      }
    } else {
      var init := s[..|s| - 1];
      assert t[..|t| - 1] == z + init;
      assert t[|t| - 1] == s[|s| - 1];
      DecimalLeadingZeros(k, init);
    }
  }

  lemma {:induction false} ZerosValue(k: nat)
    requires k > 0
    ensures DecimalValue(Repeat('0', k)) == Some(0)
    decreases k
  {
    if k > 1 {
      var z := Repeat('0', k);
      assert z[..k - 1] == Repeat('0', k - 1);
      ZerosValue(k - 1);
    }
  }

  /** `int` of zero-padded decimal text, such as `"07"`. */
  lemma PaddedDecimalValue(k: nat, n: nat)
    ensures DecimalValue(Repeat('0', k) + DecimalString(n)) == Some(n)
  {
    DecimalLeadingZeros(k, DecimalString(n));
    DecimalRoundTrip(n);
  }

  /** Every digit string is some number of zeros followed by the decimal
      text of a number, so with `PaddedDecimalValue` its value is pinned. */
  lemma {:induction false} DigitsDecompose(s: string)
    requires s != [] && AllDigits(s)
    ensures exists k: nat, n: nat :: s == Repeat('0', k) + DecimalString(n)
    decreases |s|
  {
    if s[0] == '0' && |s| > 1 {
      DigitsDecompose(s[1..]);
      var k: nat, n: nat :| s[1..] == Repeat('0', k) + DecimalString(n);
      assert s == Repeat('0', k + 1) + DecimalString(n) by {
        assert Repeat('0', k + 1) == ['0'] + Repeat('0', k);
        assert s == [s[0]] + s[1..];
      }
    } else {
      CanonicalDigits(s);
      assert s == Repeat('0', 0) + DecimalString(DecimalValue(s).value);
    }
  }

  /** Digit text without a leading zero is the decimal text of its value. */
  lemma {:induction false} CanonicalDigits(s: string)
    requires s != [] && AllDigits(s)
    requires s[0] != '0' || |s| == 1
    ensures DecimalValue(s).Some? && DecimalString(DecimalValue(s).value) == s
    ensures s[0] != '0' ==> DecimalValue(s).value >= 1
    decreases |s|
  {
    if |s| > 1 {
      var init := s[..|s| - 1];
      assert init[0] == s[0];
      CanonicalDigits(init);
      var v := DecimalValue(init).value;
      var d := DigitValue(s[|s| - 1]);
      var n := 10 * v + d;
      assert DecimalValue(s) == Some(n);
      assert n / 10 == v && n % 10 == d;
      assert DigitChar(d) == s[|s| - 1];
      assert s == init + [s[|s| - 1]];
    } else {
      assert DigitChar(DigitValue(s[0])) == s[0];
    }
  }

  /** `s.rstrip("/")`: drop every trailing slash. */
  function RStripSlash(s: string): (r: string)
    ensures r <= s
    ensures r == [] || r[|r| - 1] != '/'
    ensures forall i :: |r| <= i < |s| ==> s[i] == '/'
    decreases |s|
  {
    if s != [] && s[|s| - 1] == '/' then RStripSlash(s[..|s| - 1]) else s
  }

  /** `s.lstrip("/")`: drop every leading slash. */
  function LStripSlash(s: string): (r: string)
    ensures |r| <= |s| && r == s[|s| - |r|..]
    ensures r == [] || r[0] != '/'
    ensures forall i :: 0 <= i < |s| - |r| ==> s[i] == '/'
    decreases |s|
  {
    if s != [] && s[0] == '/' then LStripSlash(s[1..]) else s
  }

  function Repeat(c: char, n: nat): (r: string)
    ensures |r| == n
    ensures forall i :: 0 <= i < n ==> r[i] == c
  {
    if n == 0 then [] else [c] + Repeat(c, n - 1)
  }

  /** `s.ljust(w)`: pad on the right with spaces up to width `w`; a string
      already at least that wide is returned unchanged. */
  function LJust(s: string, w: int): (r: string)
    ensures |r| == if |s| < w then w else |s|
    ensures s <= r
    ensures forall i :: |s| <= i < |r| ==> r[i] == ' '
  {
    if |s| < w then s + Repeat(' ', w - |s|) else s
  }

  /** `sep.join(parts)`. */
  function Join(sep: string, parts: seq<string>): (r: string)
    ensures parts == [] ==> r == []
    ensures |parts| == 1 ==> r == parts[0]
  {
    if parts == [] then []
    else if |parts| == 1 then parts[0]
    else parts[0] + sep + Join(sep, parts[1..])
  }

  /** Where part `i` starts in `Join(sep, parts)`: after every earlier part,
      each followed by one separator. */
  function JoinOffset(sep: string, parts: seq<string>, i: nat): nat
    requires i <= |parts|
  {
    if i == 0 then 0 else |parts[0]| + |sep| + JoinOffset(sep, parts[1..], i - 1)
  }

  /** `t` occurs in `s` starting at offset `o`. */
  predicate OccursAt(s: string, o: nat, t: string) {
    o + |t| <= |s| && s[o..o + |t|] == t
  }

  lemma OccursAtShift(a: string, b: string, o: nat, t: string)
    requires OccursAt(b, o, t)
    ensures OccursAt(a + b, |a| + o, t)
  {
    assert (a + b)[|a| + o..|a| + o + |t|] == b[o..o + |t|];
  }

  lemma OccursAtPrefix(s: string, o: nat, t: string, u: string)
    requires OccursAt(s, o, t) && u <= t
    ensures OccursAt(s, o, u)
  {
    assert s[o..o + |u|] == s[o..o + |t|][..|u|];
  }

  /** Each part appears, unchanged, at its offset in the joined text, and
      every part but the last is followed by the separator. */
  lemma {:induction false} JoinPlacesParts(sep: string, parts: seq<string>, i: nat)
    requires i < |parts|
    ensures OccursAt(Join(sep, parts), JoinOffset(sep, parts, i), parts[i])
    ensures i + 1 < |parts| ==> OccursAt(Join(sep, parts), JoinOffset(sep, parts, i) + |parts[i]|, sep)
  {
    if |parts| > 1 {
      if i == 0 {
        JoinFirst(sep, parts);
      } else {
        JoinPlacesParts(sep, parts[1..], i - 1);
        assert parts[1..][i - 1] == parts[i];
        JoinLater(sep, parts, i);
      }
    }
  }

  /** The joined text ends right after the last part. */
  lemma {:induction false} JoinEnds(sep: string, parts: seq<string>)
    requires parts != []
    ensures |Join(sep, parts)| == JoinOffset(sep, parts, |parts| - 1) + |parts[|parts| - 1]|
  {
    if |parts| > 1 {
      JoinEnds(sep, parts[1..]);
      assert parts[1..][|parts| - 2] == parts[|parts| - 1];
    }
  }

  lemma JoinFirst(sep: string, parts: seq<string>)
    requires |parts| > 1
    ensures OccursAt(Join(sep, parts), 0, parts[0])
    ensures OccursAt(Join(sep, parts), |parts[0]|, sep)
  {
    var rest := Join(sep, parts[1..]);
    assert Join(sep, parts) == parts[0] + (sep + rest);
    OccursAtShift([], parts[0] + (sep + rest), 0, parts[0]);
    OccursAtShift(parts[0], sep + rest, 0, sep);
  }

  /** Part `i` sits after the first part and its separator, at its offset in
      the rest. */
  lemma JoinLater(sep: string, parts: seq<string>, i: nat)
    requires 0 < i < |parts|
    requires OccursAt(Join(sep, parts[1..]), JoinOffset(sep, parts[1..], i - 1), parts[i])
    requires i + 1 < |parts| ==>
      OccursAt(Join(sep, parts[1..]), JoinOffset(sep, parts[1..], i - 1) + |parts[i]|, sep)
    ensures OccursAt(Join(sep, parts), JoinOffset(sep, parts, i), parts[i])
    ensures i + 1 < |parts| ==> OccursAt(Join(sep, parts), JoinOffset(sep, parts, i) + |parts[i]|, sep)
  {
    var head := parts[0] + sep;
    var rest := Join(sep, parts[1..]);
    var o := JoinOffset(sep, parts[1..], i - 1);
    assert Join(sep, parts) == head + rest;
    assert JoinOffset(sep, parts, i) == |head| + o;
    OccursAtShift(head, rest, o, parts[i]);
    if i + 1 < |parts| {
      OccursAtShift(head, rest, o + |parts[i]|, sep);
    }
  }
}
