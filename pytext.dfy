/**
 * The Python string operations the chat server relies on: `str.strip()`,
 * `str.split(sep)`, `str.split('\n', 1)`, `str.startswith` and the decimal
 * rendering of a non-negative int.
 */
module PyText {
  import opened Wrappers

  /** `c.isspace()` in Python: the whitespace that `str.strip()` removes. */
  predicate IsSpace(c: char) {
    var n := c as int;
    (9 <= n <= 13) || (28 <= n <= 32) || n == 0x85 || n == 0xA0 || n == 0x1680
    || (0x2000 <= n <= 0x200A) || n == 0x2028 || n == 0x2029 || n == 0x202F
    || n == 0x205F || n == 0x3000
  }

  predicate AllSpace(s: string) {
    forall i :: 0 <= i < |s| ==> IsSpace(s[i])
  }

  /**
   * Where `lstrip()` cuts: the index of the first character at or after
   * `i` that is not whitespace, or `|s|` when there is none.
   */
  function SkipSpace(s: string, i: nat): (n: nat)
    requires i <= |s|
    ensures i <= n <= |s|
    decreases |s| - i
  {
    if i < |s| && IsSpace(s[i]) then SkipSpace(s, i + 1) else i
  }

  /** `SkipSpace` passes over whitespace only, and stops at the first non-space. */
  lemma {:induction false} SkipSpaceSpec(s: string, i: nat)
    requires i <= |s|
    ensures forall m :: i <= m < SkipSpace(s, i) ==> IsSpace(s[m])
    ensures SkipSpace(s, i) == |s| || !IsSpace(s[SkipSpace(s, i)])
    decreases |s| - i
  {
    if i < |s| && IsSpace(s[i]) {
      SkipSpaceSpec(s, i + 1);
    }
  }

  /**
   * Where `rstrip()` cuts within `s[lo..j]`: the end of that range once
   * its trailing whitespace is dropped.
   */
  function BackSpace(s: string, lo: nat, j: nat): (n: nat)
    requires lo <= j <= |s|
    ensures lo <= n <= j
    decreases j
  {
    if lo < j && IsSpace(s[j - 1]) then BackSpace(s, lo, j - 1) else j
  }

  /** `BackSpace` passes over whitespace only, and stops after a non-space or at `lo`. */
  lemma {:induction false} BackSpaceSpec(s: string, lo: nat, j: nat)
    requires lo <= j <= |s|
    ensures forall m :: BackSpace(s, lo, j) <= m < j ==> IsSpace(s[m])
    ensures BackSpace(s, lo, j) == lo || !IsSpace(s[BackSpace(s, lo, j) - 1])
    decreases j
  {
    if lo < j && IsSpace(s[j - 1]) {
      BackSpaceSpec(s, lo, j - 1);
    }
  }

  /** `s.strip()`: `s` without its leading and its trailing whitespace. */
  function Strip(s: string): string {
    var start := SkipSpace(s, 0);
    s[start..BackSpace(s, start, |s|)]
  }

  /**
   * What `strip()` returns: the part of `s` between its leading and its
   * trailing whitespace, which neither starts nor ends with whitespace.
   */
  lemma StripSpec(s: string)
    ensures var r := Strip(s);
            r == [] || (!IsSpace(r[0]) && !IsSpace(r[|r| - 1]))
    ensures var r := Strip(s);
            exists k :: 0 <= k <= |s| - |r| && s[k..k + |r|] == r
                        && AllSpace(s[..k]) && AllSpace(s[k + |r|..])
  {
    var k := SkipSpace(s, 0);
    var e := BackSpace(s, k, |s|);
    SkipSpaceSpec(s, 0);
    BackSpaceSpec(s, k, |s|);
    assert Strip(s) == s[k..e];
    assert AllSpace(s[..k]);
    assert AllSpace(s[e..]);
  }

  /** A string without whitespace at either end is its own `strip()`. */
  lemma StripTrimmed(s: string)
    requires s == [] || (!IsSpace(s[0]) && !IsSpace(s[|s| - 1]))
    ensures Strip(s) == s
  {
    assert SkipSpace(s, 0) == 0;
    assert BackSpace(s, 0, |s|) == |s|;
    assert s[0..|s|] == s;
  }

  /** Leading whitespace does not change `strip()`. */
  lemma StripSkipsLeadingSpace(w: string, s: string)
    requires AllSpace(w)
    ensures Strip(w + s) == Strip(s)
  {
    var k := SkipSpace(s, 0);
    var e := BackSpace(s, k, |s|);
    SkipSpacePrefix(w, s, 0);
    BackSpaceShift(w, s, k, |s|);
    SliceAfterPrefix(w, s, k, e);
    assert |w + s| == |w| + |s|;
    StripCuts(w + s, |w| + k, |w| + e);
    StripCuts(s, k, e);
  }

  lemma StripCuts(s: string, k: nat, e: nat)
    requires k == SkipSpace(s, 0) && e == BackSpace(s, k, |s|)
    ensures Strip(s) == s[k..e]
  {
  }

  lemma SliceAfterPrefix(w: string, s: string, a: nat, b: nat)
    requires a <= b <= |s|
    ensures (w + s)[|w| + a..|w| + b] == s[a..b]
  {
  }

  lemma {:induction false} SkipSpacePrefix(w: string, s: string, i: nat)
    requires AllSpace(w) && i <= |w|
    ensures SkipSpace(w + s, i) == |w| + SkipSpace(s, 0)
    decreases |w| - i
  {
    if i < |w| {
      assert (w + s)[i] == w[i];
      SkipSpacePrefix(w, s, i + 1);
    } else {
      SkipSpaceShift(w, s, 0);
    }
  }

  lemma {:induction false} SkipSpaceShift(w: string, s: string, m: nat)
    requires m <= |s|
    ensures SkipSpace(w + s, |w| + m) == |w| + SkipSpace(s, m)
    decreases |s| - m
  {
    if m < |s| {
      assert (w + s)[|w| + m] == s[m];
      SkipSpaceShift(w, s, m + 1);
    }
  }

  lemma {:induction false} BackSpaceShift(w: string, s: string, lo: nat, j: nat)
    requires lo <= j <= |s|
    ensures BackSpace(w + s, |w| + lo, |w| + j) == |w| + BackSpace(s, lo, j)
    decreases j
  {
    if lo < j {
      assert (w + s)[|w| + j - 1] == s[j - 1];
      BackSpaceShift(w, s, lo, j - 1);
    }
  }

  predicate StartsWith(s: string, prefix: string) {
    |prefix| <= |s| && s[..|prefix|] == prefix
  }

  /**
   * `buffer.split('\n', 1)` when `buffer` holds a newline: the text before
   * the first newline and everything after it; None when there is none.
   */
  function TakeLine(buffer: string): (r: (Option<string>, string))
    ensures r.0.None? <==> '\n' !in buffer
    ensures r.0.None? ==> r.1 == buffer
    ensures r.0.Some? ==> buffer == r.0.value + "\n" + r.1 && '\n' !in r.0.value
  {
    if buffer == [] then (None, buffer)
    else if buffer[0] == '\n' then (Some(""), buffer[1..])
    else
      var (line, rest) := TakeLine(buffer[1..]);
      if line.None? then (None, buffer)
      else (Some([buffer[0]] + line.value), rest)
  }

  /** The two-character separator of HTTP header lines. */
  const Crlf := "\r\n"

  predicate CrlfAt(s: string, i: int) {
    0 <= i && i + 2 <= |s| && s[i] == '\r' && s[i + 1] == '\n'
  }

  predicate HasCrlf(s: string) {
    exists i | 0 <= i < |s| :: CrlfAt(s, i)
  }

  /** `s.split('\r\n')`: the pieces between the separators, at least one. */
  function SplitCrlf(s: string): (lines: seq<string>)
    ensures |lines| >= 1
    ensures forall k :: 0 <= k < |lines| ==> !HasCrlf(lines[k])
    ensures JoinCrlf(lines) == s
    decreases |s|
  {
    if |s| < 2 then
      assert forall i :: !CrlfAt(s, i);
      [s]
    else if s[0] == '\r' && s[1] == '\n' then
      var rest := SplitCrlf(s[2..]);
      assert !HasCrlf("");
      assert s == "" + Crlf + JoinCrlf(rest);
      [""] + rest
    else
      var rest := SplitCrlf(s[1..]);
      var first := [s[0]] + rest[0];
      JoinStartsWithFirst(rest);
      assert rest[0] != [] ==> rest[0][0] == s[1];
      assert !CrlfAt(first, 0);
      assert forall i :: CrlfAt(first, i) && i >= 1 ==> CrlfAt(rest[0], i - 1);
      assert !HasCrlf(first);
      JoinConsFirst(s[0], rest);
      [first] + rest[1..]
  }

  /** `'\r\n'.join(lines)`. */
  function JoinCrlf(lines: seq<string>): string
    requires |lines| >= 1
  {
    if |lines| == 1 then lines[0] else lines[0] + Crlf + JoinCrlf(lines[1..])
  }

  lemma {:induction false} JoinStartsWithFirst(lines: seq<string>)
    requires |lines| >= 1
    ensures StartsWith(JoinCrlf(lines), lines[0])
    ensures |lines[0]| == 0 && |lines| > 1 ==> JoinCrlf(lines)[0] == '\r'
  {
  }

  lemma {:induction false} JoinConsFirst(c: char, lines: seq<string>)
    requires |lines| >= 1
    ensures JoinCrlf([[c] + lines[0]] + lines[1..]) == [c] + JoinCrlf(lines)
  {
    var l2 := [[c] + lines[0]] + lines[1..];
    assert |l2| == |lines| && l2[0] == [c] + lines[0];
    if |lines| > 1 {
      assert l2[1..] == lines[1..];
      calc {
        JoinCrlf(l2);
        l2[0] + Crlf + JoinCrlf(l2[1..]);
        ([c] + lines[0]) + Crlf + JoinCrlf(lines[1..]);
        [c] + (lines[0] + Crlf + JoinCrlf(lines[1..]));
      }
    }
  }

  /** The decimal digit for `d`. */
  function DigitChar(d: nat): char
    requires d < 10
  {
    ['0', '1', '2', '3', '4', '5', '6', '7', '8', '9'][d]
  }

  predicate IsDigit(c: char) {
    '0' <= c <= '9'
  }

  function DigitValue(c: char): nat
    requires IsDigit(c)
  {
    (c as int - '0' as int) as nat
  }

  /**
   * `str(n)` for a non-negative int: its decimal digits, most significant
   * first, without leading zeros.
   */
  function NatToString(n: nat): (s: string)
    ensures |s| >= 1 && forall k :: 0 <= k < |s| ==> IsDigit(s[k])
    ensures ParseDecimal(s) == n
    ensures |s| > 1 ==> s[0] != '0'
  {
    if n < 10 then [DigitChar(n)]
    else
      var init := NatToString(n / 10);
      var s := init + [DigitChar(n % 10)];
      assert s[..|s| - 1] == init;
      s
  }

  /** `int(s)` for a string of decimal digits. */
  function ParseDecimal(s: string): nat
    requires forall k :: 0 <= k < |s| ==> IsDigit(s[k])
  {
    if s == [] then 0 else ParseDecimal(s[..|s| - 1]) * 10 + DigitValue(s[|s| - 1])
  }
}
