/**
 * The string operations the terminal script relies on, written out as JavaScript defines
 * them: `trim`, `split(" ")`, lower-casing of command names, the decimal rendering of a
 * non-negative integer (`String(n)`) and `padStart`.
 */
module Text {

  /** The WhiteSpace and LineTerminator code points of ECMAScript: what `trim` removes. */
  predicate IsSpace(c: char) {
    c == ' ' || c == '\t' || c == '\n' || c == '\r' || c == '\U{000B}' || c == '\U{000C}'
    || c == '\U{00A0}' || c == '\U{1680}' || ('\U{2000}' <= c <= '\U{200A}')
    || c == '\U{2028}' || c == '\U{2029}' || c == '\U{202F}' || c == '\U{205F}'
    || c == '\U{3000}' || c == '\U{FEFF}'
  }

  predicate AllSpace(s: string) {
    forall i :: 0 <= i < |s| ==> IsSpace(s[i])
  }

  /** How many white-space characters `s` starts with. */
  function LeadingSpaces(s: string): (n: nat)
    ensures n <= |s|
    ensures forall k :: 0 <= k < n ==> IsSpace(s[k])
    ensures n == |s| || !IsSpace(s[n])
  {
    if |s| > 0 && IsSpace(s[0]) then
      var n := 1 + LeadingSpaces(s[1..]);
      assert forall k :: 1 <= k < n ==> s[k] == s[1..][k - 1];
      n
    else
      0
  }

  /** How many white-space characters `s` ends with. */
  function TrailingSpaces(s: string): (n: nat)
    ensures n <= |s|
    ensures forall k :: |s| - n <= k < |s| ==> IsSpace(s[k])
    ensures n == |s| || !IsSpace(s[|s| - n - 1])
  {
    if |s| > 0 && IsSpace(s[|s| - 1]) then
      var n := 1 + TrailingSpaces(s[..|s| - 1]);
      assert forall k :: |s| - n <= k < |s| - 1 ==> s[k] == s[..|s| - 1][k];
      n
    else
      0
  }

  /**
   * JavaScript's `s.trim()`: the slice of `s` between its leading and its trailing run of
   * white space. Neither end of it is white space, and it is empty exactly when `s` is all
   * white space.
   */
  function Trim(s: string): (r: string)
    ensures LeadingSpaces(s) + |r| <= |s| && r == s[LeadingSpaces(s)..LeadingSpaces(s) + |r|]
    ensures forall k :: LeadingSpaces(s) + |r| <= k < |s| ==> IsSpace(s[k])
    ensures r == [] || (!IsSpace(r[0]) && !IsSpace(r[|r| - 1]))
    ensures r == [] <==> AllSpace(s)
  {
    var i := LeadingSpaces(s);
    var j := TrailingSpaces(s);
    CutSpaces(s, i, j);
    if i == |s| then [] else s[i..|s| - j]
  }

  /** The facts behind `Trim`, stated for any leading and trailing run of white space. */
  lemma CutSpaces(s: string, i: nat, j: nat)
    requires i <= |s| && (forall k :: 0 <= k < i ==> IsSpace(s[k])) && (i == |s| || !IsSpace(s[i]))
    requires j <= |s| && (forall k :: |s| - j <= k < |s| ==> IsSpace(s[k]))
    requires j == |s| || !IsSpace(s[|s| - j - 1])
    ensures i < |s| ==> i < |s| - j
    ensures i == |s| <==> AllSpace(s)
    ensures i < |s| ==> !IsSpace(s[i]) && !IsSpace(s[|s| - j - 1])
  {
    if i < |s| {
      assert !IsSpace(s[i]);
      assert !AllSpace(s);
    }
  }

  /** Trimming twice is trimming once. */
  lemma TrimIdempotent(s: string)
    ensures Trim(Trim(s)) == Trim(s)
  {
    var r := Trim(s);
    if r != [] {
      assert LeadingSpaces(r) == 0;
      assert TrailingSpaces(r) == 0;
      assert r[0..|r|] == r;
    }
  }

  /** `parts` glued back together with `sep` between neighbours. */
  function Join(parts: seq<string>, sep: char): string {
    if |parts| == 0 then []
    else if |parts| == 1 then parts[0]
    else parts[0] + [sep] + Join(parts[1..], sep)
  }

  /**
   * JavaScript's `s.split(sep)` for a one-character separator: at least one part, no part
   * holds the separator, and joining the parts with it gives `s` back.
   */
  function SplitOn(s: string, sep: char): (parts: seq<string>)
    ensures |parts| >= 1
    ensures forall i :: 0 <= i < |parts| ==> sep !in parts[i]
    ensures Join(parts, sep) == s
  {
    if s == [] then [[]]
    else
      var rest := SplitOn(s[1..], sep);
      if s[0] == sep then
        var parts := [[]] + rest;
        assert parts[1..] == rest;
        parts
      else
        var parts := [[s[0]] + rest[0]] + rest[1..];
        assert parts[1..] == rest[1..];
        assert |rest| > 1 ==> Join(rest, sep) == rest[0] + [sep] + Join(rest[1..], sep);
        parts
  }

  /** A join starts with its first part, followed by the separator when more parts follow. */
  lemma JoinHead(parts: seq<string>, sep: char)
    requires |parts| >= 1
    ensures |parts| == 1 ==> Join(parts, sep) == parts[0]
    ensures |parts| > 1 ==> Join(parts, sep) == parts[0] + [sep] + Join(parts[1..], sep)
  {
  }

  /** Splitting a text that starts with a separator-free run `a` puts `a` at the head of the first part. */
  lemma {:induction false} SplitOnPrefix(a: string, t: string, sep: char)
    requires sep !in a
    ensures SplitOn(a + t, sep) == [a + SplitOn(t, sep)[0]] + SplitOn(t, sep)[1..]
  {
    var p := SplitOn(t, sep);
    if a != [] {
      assert (a + t)[1..] == a[1..] + t;
      assert (a + t)[0] == a[0] && a[0] != sep;
      SplitOnPrefix(a[1..], t, sep);
      var rest := SplitOn(a[1..] + t, sep);
      assert SplitOn(a + t, sep) == [[a[0]] + rest[0]] + rest[1..];
      assert rest[0] == a[1..] + p[0] && rest[1..] == p[1..];
      assert [a[0]] + (a[1..] + p[0]) == a + p[0];
    } else {
      assert a + t == t;
      assert a + p[0] == p[0];
      assert [p[0]] + p[1..] == p;
    }
  }

  /** Splitting inverts joining, when no part holds the separator. */
  lemma {:induction false} SplitOnJoin(parts: seq<string>, sep: char)
    requires |parts| >= 1
    requires forall i :: 0 <= i < |parts| ==> sep !in parts[i]
    ensures SplitOn(Join(parts, sep), sep) == parts
  {
    if |parts| == 1 {
      JoinHead(parts, sep);
      SplitOnPrefix(parts[0], [], sep);
      assert parts[0] + [] == parts[0];
      assert SplitOn([], sep) == [[]];
      assert [parts[0]] == parts;
    } else {
      var rest := Join(parts[1..], sep);
      JoinHead(parts, sep);
      SplitOnJoin(parts[1..], sep);
      assert parts[0] + [sep] + rest == parts[0] + ([sep] + rest);
      SplitOnPrefix(parts[0], [sep] + rest, sep);
      assert ([sep] + rest)[1..] == rest;
      assert SplitOn([sep] + rest, sep) == [[]] + parts[1..];
      assert parts[0] + [] == parts[0];
      assert [parts[0]] + parts[1..] == parts;
    }
  }

  /** Three separator-free fields joined by the separator split back into those fields. */
  lemma SplitThree(a: string, b: string, d: string, sep: char)
    requires sep !in a && sep !in b && sep !in d
    ensures SplitOn(a + [sep] + b + [sep] + d, sep) == [a, b, d]
  {
    var parts := [a, b, d];
    assert parts[1..] == [b, d] && parts[1..][1..] == [d];
    assert Join([d], sep) == d;
    assert Join([b, d], sep) == b + [sep] + d;
    assert Join(parts, sep) == a + [sep] + b + [sep] + d;
    SplitOnJoin(parts, sep);
  }

  /**
   * The first element of `s.split(" ")`: the longest prefix of `s` without a space, which
   * runs to the end of `s` or stops right before a space.
   */
  function FirstToken(s: string): (r: string)
    ensures |r| <= |s| && r == s[..|r|]
    ensures ' ' !in r
    ensures |r| == |s| || s[|r|] == ' '
  {
    var parts := SplitOn(s, ' ');
    JoinHead(parts, ' ');
    parts[0]
  }

  /** Lower-casing of one character; only the ASCII letters are mapped. */
  function LowerChar(c: char): char {
    if 'A' <= c <= 'Z' then (c as int + 32) as char else c
  }

  /**
   * `toLowerCase` on ASCII: same length, no capital ASCII letter left, each capital replaced
   * by its small letter and every other character kept.
   */
  function ToLower(s: string): (r: string)
    ensures |r| == |s|
    ensures forall i :: 0 <= i < |r| ==> !('A' <= r[i] <= 'Z')
    ensures forall i :: 0 <= i < |s| ==>
      if 'A' <= s[i] <= 'Z' then r[i] as int == s[i] as int + 32 else r[i] == s[i]
  {
    seq(|s|, i requires 0 <= i < |s| => LowerChar(s[i]))
  }

  predicate IsDigit(c: char) {
    '0' <= c <= '9'
  }

  predicate AllDigits(s: string) {
    forall i :: 0 <= i < |s| ==> IsDigit(s[i])
  }

  function DigitChar(d: nat): char
    requires d < 10
  {
    "0123456789"[d]
  }

  /** The number a string of decimal digits denotes (leading zeros allowed). */
  function DecimalValue(s: string): nat
    requires AllDigits(s)
  {
    if s == [] then 0 else 10 * DecimalValue(s[..|s| - 1]) + (s[|s| - 1] as int - '0' as int)
  }

  /**
   * `String(n)` for a non-negative integer: at least one digit, no leading zero, and it
   * denotes `n`.
   */
  function NatToDecimal(n: nat): (r: string)
    ensures |r| >= 1 && AllDigits(r)
    ensures |r| > 1 ==> r[0] != '0'
    ensures DecimalValue(r) == n
  {
    if n < 10 then
      [DigitChar(n)]
    else
      var p := NatToDecimal(n / 10);
      var r := p + [DigitChar(n % 10)];
      assert r[..|r| - 1] == p;
      r
  }

  /** `k` copies of `c`. */
  function Repeat(c: char, k: nat): (r: string)
    ensures |r| == k && forall i :: 0 <= i < k ==> r[i] == c
  {
    if k == 0 then [] else [c] + Repeat(c, k - 1)
  }

  /**
   * `s.padStart(width, fill)` for a one-character fill: `s` kept whole at the end, preceded
   * by as many fill characters as bring it up to `width`.
   */
  function PadStart(s: string, width: nat, fill: char): (r: string)
    ensures |r| == if |s| < width then width else |s|
    ensures r[|r| - |s|..] == s
    ensures forall i :: 0 <= i < |r| - |s| ==> r[i] == fill
  {
    if |s| < width then Repeat(fill, width - |s|) + s else s
  }

  /** Leading zeros do not change the value of a decimal numeral. */
  lemma {:induction false} LeadingZeros(k: nat, s: string)
    requires AllDigits(s)
    ensures AllDigits(Repeat('0', k) + s)
    ensures DecimalValue(Repeat('0', k) + s) == DecimalValue(s)
    decreases k, |s|
  {
    var z := Repeat('0', k);
    if s == [] {
      assert z + s == z;
      if k > 0 {
        assert z[..k - 1] == Repeat('0', k - 1) + [];
        LeadingZeros(k - 1, []);
      }
    } else {
      var init := s[..|s| - 1];
      LeadingZeros(k, init);
      assert (z + s)[..|z + s| - 1] == z + init;
    }
  }
}
