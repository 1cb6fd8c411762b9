/**
 * The parts of Python's string semantics that the worker and the tab rely on:
 * `str.split(sep)`, `sep.join(parts)`, `str.replace(old, '')`, `'%d'` and
 * `'%02d'` formatting of naturals, `int(s)` on digit strings, and the
 * code-point lexicographic order used to compare strings.
 */
module Text {
  import opened Wrappers

  /** `sep` occurs in `t` starting at index `j`. */
  predicate OccursAt(t: string, sep: string, j: nat) {
    j + |sep| <= |t| && t[j..j + |sep|] == sep
  }

  ghost predicate Contains(t: string, sep: string) {
    exists j: nat :: OccursAt(t, sep, j)
  }

  /** Python's `sep.join(parts)`. */
  function Join(parts: seq<string>, sep: string): string
  {
    if |parts| == 0 then ""
    else if |parts| == 1 then parts[0]
    else parts[0] + sep + Join(parts[1..], sep)
  }

  /**
   * The scan behind Python's `s.split(sep)`: `cur` is the part collected so
   * far; at each position the separator is tried first, and a match closes
   * the current part. The precondition says no separator starts inside `cur`,
   * which the scan guarantees because it tried every earlier position.
   */
  function SplitFrom(cur: string, s: string, sep: string): (parts: seq<string>)
    requires |sep| > 0
    requires forall j: nat :: j < |cur| ==> !OccursAt(cur + s, sep, j)
    ensures |parts| >= 1
    ensures Join(parts, sep) == cur + s
    ensures forall k :: 0 <= k < |parts| ==> !Contains(parts[k], sep)
    decreases |s|
  {
    if |s| < |sep| then
      [cur + s]
    else if s[..|sep|] == sep then
      var rest := SplitFrom("", s[|sep|..], sep);
      assert !Contains(cur, sep) by {
        forall j: nat | OccursAt(cur, sep, j) ensures false {
          assert (cur + s)[j..j + |sep|] == cur[j..j + |sep|];
          assert OccursAt(cur + s, sep, j);
        }
      }
      var parts := [cur] + rest;
      assert parts[1..] == rest;
      assert Join(parts, sep) == cur + sep + s[|sep|..];
      assert sep + s[|sep|..] == s;
      parts
    else
      var cur' := cur + [s[0]];
      assert cur' + s[1..] == cur + s;
      assert !OccursAt(cur + s, sep, |cur|) by {
        assert (cur + s)[|cur|..|cur| + |sep|] == s[..|sep|];
      }
      SplitFrom(cur', s[1..], sep)
  }

  /** Python's `s.split(sep)` for a non-empty separator. */
  function Split(s: string, sep: string): (parts: seq<string>)
    requires |sep| > 0
    ensures |parts| >= 1
    ensures Join(parts, sep) == s
    ensures forall k :: 0 <= k < |parts| ==> !Contains(parts[k], sep)
  {
    SplitFrom("", s, sep)
  }

  /** Python's `s.replace(target, replacement)`, which equals `replacement.join(s.split(target))`. */
  function Replace(s: string, target: string, replacement: string): string
    requires |target| > 0
  {
    Join(Split(s, target), replacement)
  }

  /** Splitting a text in which the separator's first character never appears yields that text alone. */
  lemma {:induction false} SplitFromNoMatch(cur: string, s: string, sep: string)
    requires |sep| > 0 && sep[0] !in s
    requires forall j: nat :: j < |cur| ==> !OccursAt(cur + s, sep, j)
    ensures SplitFrom(cur, s, sep) == [cur + s]
    decreases |s|
  {
    if |s| >= |sep| {
      assert s[..|sep|][0] == s[0];
      assert s[..|sep|] != sep;
      var cur' := cur + [s[0]];
      assert cur' + s[1..] == cur + s;
      assert !OccursAt(cur + s, sep, |cur|) by {
        assert (cur + s)[|cur|..|cur| + |sep|] == s[..|sep|];
      }
      assert forall c :: c in s[1..] ==> c in s;
      SplitFromNoMatch(cur', s[1..], sep);
    }
  }

  /** Removing a leading `prefix` from `prefix + s` where the prefix's first character is absent from `s`. */
  lemma ReplaceLeadingPrefix(prefix: string, s: string)
    requires |prefix| > 0 && prefix[0] !in s
    ensures Replace(prefix + s, prefix, "") == s
  {
    var t := prefix + s;
    assert t[..|prefix|] == prefix;
    assert t[|prefix|..] == s;
    SplitFromNoMatch("", s, prefix);
    assert "" + s == s;
    assert Split(t, prefix) == [""] + SplitFrom("", s, prefix);
    assert Split(t, prefix) == ["", s];
    assert ["", s][1..] == [s];
    assert Join(["", s], "") == "" + "" + s;
  }

  // ---------------------------------------------------------------- decimals

  predicate IsDigit(c: char) {
    '0' <= c <= '9'
  }

  predicate AllDigits(s: string) {
    forall i :: 0 <= i < |s| ==> IsDigit(s[i])
  }

  function DigitChar(d: nat): (c: char)
    requires d < 10
    ensures IsDigit(c)
  {
    ('0' as int + d) as char
  }

  function DigitValue(c: char): nat
    requires IsDigit(c)
  {
    c as int - '0' as int
  }

  /** The number a string of decimal digits denotes, most significant digit first. */
  function ParseDecimal(s: string): nat
    requires AllDigits(s)
    decreases |s|
  {
    if s == [] then 0 else ParseDecimal(s[..|s| - 1]) * 10 + DigitValue(s[|s| - 1])
  }

  /** Python's `'%d' % n` for a natural `n`: its shortest decimal numeral. */
  function NatToString(n: nat): (s: string)
    ensures |s| >= 1 && AllDigits(s)
    ensures ParseDecimal(s) == n
    ensures s[0] == '0' ==> n == 0
  {
    if n < 10 then [DigitChar(n)]
    else
      var s := NatToString(n / 10) + [DigitChar(n % 10)];
      assert s[..|s| - 1] == NatToString(n / 10);
      s
  }

  /** Python's `'%02d' % n` for a natural `n`: at least two digits, zero-padded on the left. */
  function Format02(n: nat): (s: string)
    ensures |s| >= 2 && AllDigits(s)
    ensures ParseDecimal(s) == n
    ensures s[0] == '0' ==> n < 10
  {
    if n < 10 then
      var s := ['0', DigitChar(n)];
      assert s[..1] == ['0'];
      assert ParseDecimal(['0']) == 0 by { assert ['0'][..0] == []; }
      s
    else NatToString(n)
  }

  /** Python's `int(s)`, for strings of ASCII digits; anything else raises ValueError (None). */
  function ParseInt(s: string): (r: Option<nat>)
    ensures r.Some? <==> |s| > 0 && AllDigits(s)
  {
    if |s| > 0 && AllDigits(s) then Some(ParseDecimal(s)) else None
  }

  /** Python's `a < b` on strings: lexicographic by code point, a proper prefix first. */
  predicate LexLess(a: string, b: string)
    decreases |a|
  {
    if a == [] then b != []
    else b != [] && (a[0] < b[0] || (a[0] == b[0] && LexLess(a[1..], b[1..])))
  }

  /** Below one hundred, `'%02d'` gives exactly two digits: the tens and the units. */
  lemma Format02TwoDigits(n: nat)
    requires n < 100
    ensures Format02(n) == [DigitChar(n / 10), DigitChar(n % 10)]
  {
    if n >= 10 {
      assert NatToString(n / 10) == [DigitChar(n / 10)];
    }
  }

  /** Below one hundred, comparing `'%02d'` keys as strings is comparing the numbers. */
  lemma Format02OrderMatches(a: nat, b: nat)
    requires a < 100 && b < 100
    ensures LexLess(Format02(a), Format02(b)) <==> a < b
  {
    Format02TwoDigits(a);
    Format02TwoDigits(b);
    var x, y := Format02(a), Format02(b);
    assert x[1..] == [DigitChar(a % 10)] && y[1..] == [DigitChar(b % 10)];
    assert x[1..][1..] == [] && y[1..][1..] == [];
    assert LexLess(x[1..], y[1..]) <==> a % 10 < b % 10;
    assert LexLess(x, y) <==> a / 10 < b / 10 || (a / 10 == b / 10 && a % 10 < b % 10);
    assert a == 10 * (a / 10) + a % 10 && b == 10 * (b / 10) + b % 10;
  }

  /** From one hundred on, the zero-padded keys no longer sort numerically: "100" precedes "99". */
  lemma Format02OrderBreaksAt100()
    ensures LexLess(Format02(100), Format02(99)) && !(100 < 99)
  {
    assert NatToString(1) == ['1'];
    assert NatToString(10) == ['1', '0'];
    assert NatToString(100) == ['1', '0', '0'];
    assert NatToString(9) == ['9'];
    assert NatToString(99) == ['9', '9'];
  }
}
