/**
 * String helpers standing for the JavaScript built-ins the program uses:
 * the regular-expression classes `\s` and `\d`, `toLowerCase`, `includes`,
 * `split`, `join`, `trim`, the `replace(/[^\d]/g, '')` digit filter and
 * the decimal rendering of a non-negative integer.
 */
module Text {

  /** The characters of JavaScript's `\s` class; `trim` removes exactly these. */
  predicate IsSpace(c: char) {
    || c == ' ' || c == '\t' || c == '\n' || c == '\r' || c == '\U{0B}' || c == '\U{0C}'
    || c == '\U{A0}' || c == '\U{1680}' || ('\U{2000}' <= c <= '\U{200A}')
    || c == '\U{2028}' || c == '\U{2029}' || c == '\U{202F}' || c == '\U{205F}'
    || c == '\U{3000}' || c == '\U{FEFF}'
  }

  /** JavaScript's `\d`: the ASCII decimal digits only. */
  predicate IsDigit(c: char) {
    '0' <= c <= '9'
  }

  predicate IsAsciiLetter(c: char) {
    ('a' <= c <= 'z') || ('A' <= c <= 'Z')
  }

  predicate AllDigits(s: string) {
    forall i :: 0 <= i < |s| ==> IsDigit(s[i])
  }

  /** `toLowerCase` on one character, for the ASCII and Latin-1 capitals. */
  function LowerChar(c: char): char {
    if ('A' <= c <= 'Z') || ('\U{C0}' <= c <= '\U{DE}' && c != '\U{D7}') then
      (c as int + 32) as char
    else
      c
  }

  function Lower(s: string): string {
    seq(|s|, i requires 0 <= i < |s| => LowerChar(s[i]))
  }

  /** Lowercasing twice is lowercasing once. */
  lemma LowerIdempotent(s: string)
    ensures Lower(Lower(s)) == Lower(s)
  {
  }

  /** `k` occurs in `s` at index `i`. */
  predicate OccursAt(s: string, k: string, i: int) {
    0 <= i && i + |k| <= |s| && s[i..i + |k|] == k
  }

  /** `s.includes(k)`. */
  predicate Contains(s: string, k: string) {
    exists i :: 0 <= i <= |s| && OccursAt(s, k, i)
  }

  /** `ks.some(k => s.includes(k))`. */
  predicate ContainsAny(s: string, ks: seq<string>) {
    exists j :: 0 <= j < |ks| && Contains(s, ks[j])
  }

  lemma ContainsMiddle(a: string, k: string, b: string)
    ensures Contains(a + k + b, k)
  {
    assert OccursAt(a + k + b, k, |a|);
  }

  /** A string holding `k + rest` holds `k`. */
  lemma ContainsPrefixOf(s: string, k: string, rest: string)
    requires Contains(s, k + rest)
    ensures Contains(s, k)
  {
    var i :| 0 <= i <= |s| && OccursAt(s, k + rest, i);
    assert s[i..i + |k|] == (k + rest)[..|k|];
    assert OccursAt(s, k, i);
  }

  /**
   * The length of the longest run of characters satisfying `p` that starts
   * at `i`: what a greedy `[...]*` consumes.
   */
  function Span(s: string, i: nat, p: char -> bool): (n: nat)
    requires i <= |s|
    ensures i + n <= |s|
    ensures forall k :: i <= k < i + n ==> p(s[k])
    ensures i + n == |s| || !p(s[i + n])
    decreases |s| - i
  {
    if i < |s| && p(s[i]) then 1 + Span(s, i + 1, p) else 0
  }

  /** `s.replace(/[^\d]/g, '')`. */
  function DigitsOnly(s: string): (r: string)
    ensures |r| <= |s|
    ensures AllDigits(r)
  {
    if s == [] then [] else (if IsDigit(s[0]) then [s[0]] else []) + DigitsOnly(s[1..])
  }

  lemma {:induction false} DigitsOnlyAppend(a: string, b: string)
    ensures DigitsOnly(a + b) == DigitsOnly(a) + DigitsOnly(b)
    decreases |a|
  {
    if a == [] {
      assert a + b == b;
    } else {
      var head := if IsDigit(a[0]) then [a[0]] else [];
      assert (a + b)[0] == a[0] && (a + b)[1..] == a[1..] + b;
      assert DigitsOnly(a + b) == head + DigitsOnly(a[1..] + b);
      DigitsOnlyAppend(a[1..], b);
      assert DigitsOnly(a) == head + DigitsOnly(a[1..]);
    }
  }

  /** The filter leaves a string that is all digits as it is. */
  lemma {:induction false} DigitsOnlyOfDigits(s: string)
    requires AllDigits(s)
    ensures DigitsOnly(s) == s
    decreases |s|
  {
    if s != [] {
      DigitsOnlyOfDigits(s[1..]);
    }
  }

  function DigitChar(d: nat): (c: char)
    requires d < 10
    ensures IsDigit(c)
  {
    ('0' as int + d) as char
  }

  function DigitValue(c: char): (d: nat)
    requires IsDigit(c)
    ensures d < 10 && DigitChar(d) == c
  {
    c as int - '0' as int
  }

  /** `String(n)` for a non-negative integer: decimal, no leading zeros. */
  function NatToString(n: nat): (r: string)
    ensures 1 <= |r|
    ensures AllDigits(r)
    ensures |r| > 1 ==> r[0] != '0'
    decreases n
  {
    if n < 10 then [DigitChar(n)] else NatToString(n / 10) + [DigitChar(n % 10)]
  }

  /** Reads a run of decimal digits back as a number. */
  function ParseNat(s: string): nat
    requires AllDigits(s)
    decreases |s|
  {
    if s == [] then 0 else 10 * ParseNat(s[..|s| - 1]) + DigitValue(s[|s| - 1])
  }

  lemma {:induction false} ParseNatToString(n: nat)
    ensures ParseNat(NatToString(n)) == n
    decreases n
  {
    var r := NatToString(n);
    if n >= 10 {
      ParseNatToString(n / 10);
      assert r[..|r| - 1] == NatToString(n / 10);
    }
  }

  /** `ps.join(sep)`. */
  function Join(ps: seq<string>, sep: string): string
    decreases |ps|
  {
    if |ps| == 0 then "" else if |ps| == 1 then ps[0] else ps[0] + sep + Join(ps[1..], sep)
  }

  lemma JoinFirst(ps: seq<string>, sep: string)
    requires |ps| > 1
    ensures Join(ps, sep) == ps[0] + sep + Join(ps[1..], sep)
  {
  }

  /** Every piece occurs in the joined string. */
  lemma {:induction false} JoinContains(ps: seq<string>, sep: string, j: nat)
    requires j < |ps|
    ensures Contains(Join(ps, sep), ps[j])
    decreases |ps|
  {
    if |ps| == 1 {
      assert OccursAt(Join(ps, sep), ps[0], 0);
    } else if j == 0 {
      assert OccursAt(Join(ps, sep), ps[0], 0);
    } else {
      JoinContains(ps[1..], sep, j - 1);
      var i :| 0 <= i <= |Join(ps[1..], sep)| && OccursAt(Join(ps[1..], sep), ps[j], i);
      var pre := ps[0] + sep;
      assert Join(ps, sep) == pre + Join(ps[1..], sep);
      assert (pre + Join(ps[1..], sep))[|pre| + i..|pre| + i + |ps[j]|] == Join(ps[1..], sep)[i..i + |ps[j]|];
      assert OccursAt(Join(ps, sep), ps[j], |pre| + i);
    }
  }

  /** Containment is transitive. */
  lemma ContainsTrans(a: string, b: string, c: string)
    requires Contains(a, b) && Contains(b, c)
    ensures Contains(a, c)
  {
    var i :| 0 <= i <= |a| && OccursAt(a, b, i);
    var j :| 0 <= j <= |b| && OccursAt(b, c, j);
    forall k | 0 <= k < |c|
      ensures a[i + j + k] == c[k]
    {
      assert c[k] == b[j + k] == a[i + j + k];
    }
    assert OccursAt(a, c, i + j);
  }

  /** The number of occurrences of `d` in `s`. */
  function Count(s: string, d: char): nat
    decreases |s|
  {
    if s == [] then 0 else (if s[0] == d then 1 else 0) + Count(s[1..], d)
  }

  /** `s.split(d)` for a one-character separator. */
  function Split(s: string, d: char): (r: seq<string>)
    ensures |r| >= 1
    ensures forall i :: 0 <= i < |r| ==> d !in r[i]
    decreases |s|
  {
    if s == [] then [""]
    else
      var rest := Split(s[1..], d);
      if s[0] == d then [""] + rest else [[s[0]] + rest[0]] + rest[1..]
  }

  /** A prefix without the separator lands at the front of the first piece. */
  lemma {:induction false} SplitPrefix(w: string, s: string, d: char)
    requires d !in w
    ensures Split(w + s, d) == [w + Split(s, d)[0]] + Split(s, d)[1..]
    decreases |w|
  {
    var ps := Split(s, d);
    if w == [] {
      assert w + s == s && w + ps[0] == ps[0];
      assert [ps[0]] + ps[1..] == ps;
    } else {
      var t := w[1..] + s;
      assert (w + s)[0] == w[0] && (w + s)[1..] == t;
      assert w[0] != d && d !in w[1..];
      SplitPrefix(w[1..], s, d);
      var rest := Split(t, d);
      assert Split(w + s, d) == [[w[0]] + rest[0]] + rest[1..];
      assert rest[0] == w[1..] + ps[0] && rest[1..] == ps[1..];
      assert [w[0]] + (w[1..] + ps[0]) == w + ps[0];
    }
  }

  /** `split` yields one more piece than there are separators. */
  lemma {:induction false} SplitCount(s: string, d: char)
    ensures |Split(s, d)| == Count(s, d) + 1
    decreases |s|
  {
    if s != [] {
      SplitCount(s[1..], d);
    }
  }

  /** Joining the pieces with the separator gives back the string. */
  lemma {:induction false} JoinSplit(s: string, d: char)
    ensures Join(Split(s, d), [d]) == s
    decreases |s|
  {
    if s != [] {
      var rest := Split(s[1..], d);
      JoinSplit(s[1..], d);
      if s[0] == d {
        assert Split(s, d)[1..] == rest;
        if |rest| == 1 {
          assert rest[0] == s[1..];
        }
      } else {
        var r := Split(s, d);
        assert r[1..] == rest[1..];
        if |rest| > 1 {
          assert Join(rest, [d]) == rest[0] + [d] + Join(rest[1..], [d]);
        }
      }
    }
  }

  function TrimEnd(s: string): (r: string)
    decreases |s|
  {
    if s != [] && IsSpace(s[|s| - 1]) then TrimEnd(s[..|s| - 1]) else s
  }

  predicate IsTrimmed(s: string) {
    s == [] || (!IsSpace(s[0]) && !IsSpace(s[|s| - 1]))
  }

  /** `s.trim()`: `s` without its leading and trailing whitespace. */
  function Trim(s: string): (r: string)
    ensures IsTrimmed(r)
    decreases |s|
  {
    if s != [] && IsSpace(s[0]) then Trim(s[1..])
    else
      TrimEndTrims(s);
      TrimEnd(s)
  }

  lemma {:induction false} TrimEndTrims(s: string)
    requires s == [] || !IsSpace(s[0])
    ensures IsTrimmed(TrimEnd(s))
    ensures |TrimEnd(s)| <= |s| && TrimEnd(s) == s[..|TrimEnd(s)|]
    decreases |s|
  {
    if s != [] && IsSpace(s[|s| - 1]) {
      TrimEndTrims(s[..|s| - 1]);
    }
  }

  /** The trimmed string is a piece of the original. */
  lemma {:induction false} TrimContained(s: string)
    ensures Contains(s, Trim(s))
    decreases |s|
  {
    if s != [] && IsSpace(s[0]) {
      TrimContained(s[1..]);
      assert OccursAt(s, s[1..], 1);
      ContainsTrans(s, s[1..], Trim(s[1..]));
    } else {
      TrimEndTrims(s);
      assert OccursAt(s, Trim(s), 0);
    }
  }

  /** Leading whitespace does not survive trimming. */
  lemma {:induction false} TrimSpacePrefix(w: string, s: string)
    requires forall i :: 0 <= i < |w| ==> IsSpace(w[i])
    ensures Trim(w + s) == Trim(s)
    decreases |w|
  {
    if w != [] {
      assert (w + s)[0] == w[0] && (w + s)[1..] == w[1..] + s;
      TrimSpacePrefix(w[1..], s);
    } else {
      assert w + s == s;
    }
  }

  /** Trimming leaves a trimmed string as it is. */
  lemma TrimOfTrimmed(s: string)
    requires IsTrimmed(s)
    ensures Trim(s) == s
  {
  }
}
