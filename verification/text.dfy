/** The string operations the dashboard relies on: `includes`, `toLowerCase`,
  * `split('/').pop()`, `String(n)` and `parseInt`. */
module Text {
  import opened Common

  // ---------------------------------------------------------------------------
  // Substring search (`String.prototype.includes`)
  // ---------------------------------------------------------------------------

  predicate StartsWith(s: string, p: string) {
    |p| <= |s| && s[..|p|] == p
  }

  /** `s.includes(p)`: `p` occurs in `s` at some position. */
  predicate Contains(s: string, p: string)
    decreases |s|
  {
    StartsWith(s, p) || (|s| > 0 && Contains(s[1..], p))
  }

  lemma {:induction false} ContainsAt(s: string, p: string, i: nat)
    requires i <= |s| && StartsWith(s[i..], p)
    ensures Contains(s, p)
    decreases i
  {
    if i > 0 {
      assert s[1..][i - 1..] == s[i..];
      ContainsAt(s[1..], p, i - 1);
    }
  }

  /** A word found in `a` is still found once something is appended to `a`. */
  lemma {:induction false} ContainsAppendRight(a: string, b: string, p: string)
    requires Contains(a, p)
    ensures Contains(a + b, p)
    decreases |a|
  {
    if StartsWith(a, p) {
      assert (a + b)[..|p|] == a[..|p|];
    } else {
      assert (a + b)[1..] == a[1..] + b;
      ContainsAppendRight(a[1..], b, p);
    }
  }

  /** A word found in `b` is still found once something is prepended to `b`. */
  lemma {:induction false} ContainsAppendLeft(a: string, b: string, p: string)
    requires Contains(b, p)
    ensures Contains(a + b, p)
    decreases |a|
  {
    if a == [] {
      assert a + b == b;
    } else {
      assert (a + b)[1..] == a[1..] + b;
      ContainsAppendLeft(a[1..], b, p);
    }
  }

  /** If `w` occurs in `s` and `v` occurs in `w`, then `v` occurs in `s`. */
  lemma {:induction false} ContainsTransitive(s: string, w: string, v: string)
    requires Contains(s, w) && Contains(w, v)
    ensures Contains(s, v)
    decreases |s|
  {
    if StartsWith(s, w) {
      assert s == w + s[|w|..];
      ContainsAppendRight(w, s[|w|..], v);
    } else {
      ContainsTransitive(s[1..], w, v);
    }
  }

  /** A word without a space that occurs in `a + " " + b` occurs in `a` or
    * in `b`: no occurrence can straddle the space. */
  lemma {:induction false} ContainsAcrossSpace(a: string, b: string, p: string)
    requires Contains(a + " " + b, p) && ' ' !in p
    ensures Contains(a, p) || Contains(b, p)
    decreases |a|
  {
    var s := a + " " + b;
    if StartsWith(s, p) {
      if |p| <= |a| {
        assert a[..|p|] == s[..|p|];
      } else {
        SpaceInside(a, b, p);
        assert false;
      }
    } else if a == [] {
      assert s[1..] == b;
    } else {
      assert s[1..] == a[1..] + " " + b;
      ContainsAcrossSpace(a[1..], b, p);
    }
  }

  /** A word at the head of `a + " " + b` that is longer than `a` has the
    * space at position `|a|`. */
  lemma SpaceInside(a: string, b: string, p: string)
    requires StartsWith(a + " " + b, p) && |p| > |a|
    ensures p[|a|] == ' '
  {
    assert (a + " " + b)[|a|] == ' ';
  }

  /** Every character of a word found in `s` is a character of `s`. */
  lemma {:induction false} ContainsChars(s: string, p: string, c: char)
    requires Contains(s, p) && c in p
    ensures c in s
    decreases |s|
  {
    if StartsWith(s, p) {
      assert c in s[..|p|];
    } else {
      ContainsChars(s[1..], p, c);
    }
  }

  /** Some word of `words` occurs in `s`. */
  predicate ContainsAny(s: string, words: seq<string>) {
    exists w :: w in words && Contains(s, w)
  }

  // ---------------------------------------------------------------------------
  // Case folding (`String.prototype.toLowerCase`, ASCII letters only)
  // ---------------------------------------------------------------------------

  function LowerChar(c: char): char {
    if 'A' <= c <= 'Z' then (c as int + 32) as char else c
  }

  function Lower(s: string): string {
    seq(|s|, i requires 0 <= i < |s| => LowerChar(s[i]))
  }

  /** A lower-case letter of `Lower(s)` comes from that letter or its
    * upper-case form in `s`. */
  lemma LowerHas(s: string, c: char)
    requires 'a' <= c <= 'z' && c in Lower(s)
    ensures c in s || (c as int - 32) as char in s
  {
    var i :| 0 <= i < |s| && Lower(s)[i] == c;
    assert s[i] in s;
  }

  lemma LowerAppend(a: string, b: string)
    ensures Lower(a + b) == Lower(a) + Lower(b)
  {
  }

  // ---------------------------------------------------------------------------
  // Last path segment (`path.split('/').pop()`)
  // ---------------------------------------------------------------------------

  /** The text after the last '/', or all of `s` when it has no '/':
    * the longest suffix of `s` free of '/'. */
  function LastSegment(s: string): (r: string)
    ensures '/' !in r
    ensures |r| <= |s| && r == s[|s| - |r|..]
    ensures |r| == |s| || s[|s| - |r| - 1] == '/'
    decreases |s|
  {
    if s == [] then []
    else if s[|s| - 1] == '/' then []
    else LastSegment(s[..|s| - 1]) + [s[|s| - 1]]
  }

  // ---------------------------------------------------------------------------
  // Decimal numerals (`String(n)` and `parseInt(s)`)
  // ---------------------------------------------------------------------------

  predicate IsDigit(c: char) { '0' <= c <= '9' }

  function DigitChar(d: int): char
    requires 0 <= d < 10
  {
    ('0' as int + d) as char
  }

  /** The decimal numeral of `n`, without leading zeros. */
  function Digits(n: nat): string
    decreases n
  {
    if n < 10 then [DigitChar(n)] else Digits(n / 10) + [DigitChar(n % 10)]
  }

  /** `String(i)` for an integer `i`. */
  function IntString(i: int): string {
    if i < 0 then "-" + Digits(-i) else Digits(i)
  }

  /** The number of leading decimal digits of `s`. */
  function DigitPrefixLength(s: string): (k: nat)
    ensures k <= |s|
    ensures forall i :: 0 <= i < k ==> IsDigit(s[i])
    ensures k == |s| || !IsDigit(s[k])
    decreases |s|
  {
    if |s| == 0 || !IsDigit(s[0]) then 0 else 1 + DigitPrefixLength(s[1..])
  }

  /** The value of a string made only of decimal digits. */
  function DigitsValue(s: string): nat
    requires forall i :: 0 <= i < |s| ==> IsDigit(s[i])
    decreases |s|
  {
    if s == [] then 0
    else
      assert IsDigit(s[|s| - 1]);
      DigitsValue(s[..|s| - 1]) * 10 + (s[|s| - 1] as int - '0' as int)
  }

  /** `parseInt(s)`: an optional sign followed by the longest run of decimal
    * digits; `None` stands for `NaN` (no digit after the sign). */
  function ParseInt(s: string): Option<int> {
    var negative := |s| > 0 && s[0] == '-';
    var rest := if |s| > 0 && (s[0] == '-' || s[0] == '+') then s[1..] else s;
    var k := DigitPrefixLength(rest);
    if k == 0 then None
    else if negative then Some(-(DigitsValue(rest[..k]) as int))
    else Some(DigitsValue(rest[..k]))
  }

  lemma {:induction false} DigitsAreDigits(n: nat)
    ensures |Digits(n)| > 0
    ensures forall i :: 0 <= i < |Digits(n)| ==> IsDigit(Digits(n)[i])
    decreases n
  {
    if n >= 10 {
      DigitsAreDigits(n / 10);
    }
  }

  lemma {:induction false} DigitsValueOfDigits(n: nat)
    ensures forall i :: 0 <= i < |Digits(n)| ==> IsDigit(Digits(n)[i])
    ensures DigitsValue(Digits(n)) == n
    decreases n
  {
    DigitsAreDigits(n);
    if n >= 10 {
      DigitsValueOfDigits(n / 10);
      var s := Digits(n);
      assert s[..|s| - 1] == Digits(n / 10);
    }
  }

  /** `parseInt(String(i)) === i`: parsing undoes printing, so an id obtained
    * from the user-info query always passes the `isNaN` guard. */
  lemma ParseIntString(i: int)
    ensures ParseInt(IntString(i)) == Some(i)
  {
    var n: nat := if i < 0 then -i else i;
    DigitsValueOfDigits(n);
    DigitsAreDigits(n);
    var d := Digits(n);
    assert d[0] != '-' && d[0] != '+' by { assert IsDigit(d[0]); }
    if i < 0 {
      var s := IntString(i);
      assert s[1..] == d;
    }
    assert DigitPrefixLength(d) == |d|;
    assert d[..|d|] == d;
  }
}
