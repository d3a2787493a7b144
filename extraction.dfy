/**
 * `extractData` (vendedor-ia-mejorado.js): the first e-mail address and the
 * first phone number in a transcript line, found with the leftmost-first,
 * greedy-with-backtracking semantics of JavaScript's `String.prototype.match`.
 */
module Extraction {
  import opened Wrappers
  import opened Text

  /** `[a-zA-Z0-9._%+-]` */
  predicate IsLocalChar(c: char) {
    IsAsciiLetter(c) || IsDigit(c) || c == '.' || c == '_' || c == '%' || c == '+' || c == '-'
  }

  /** `[a-zA-Z0-9.-]` */
  predicate IsDomainChar(c: char) {
    IsAsciiLetter(c) || IsDigit(c) || c == '.' || c == '-'
  }

  /** `[\s.-]` */
  predicate IsSeparator(c: char) {
    IsSpace(c) || c == '.' || c == '-'
  }

  // ---------------------------------------------------------------------
  // /[a-zA-Z0-9._%+-]+@[a-zA-Z0-9.-]+\.[a-zA-Z]{2,}/
  // ---------------------------------------------------------------------

  /**
   * What an e-mail match looks like: local characters, one `@` at `at`,
   * domain characters after it, ending in a dot and at least two letters.
   */
  predicate EmailShaped(e: string, at: nat) {
    && 1 <= at < |e| - 3
    && e[at] == '@'
    && (forall i :: 0 <= i < at ==> IsLocalChar(e[i]))
    && (forall i :: at < i < |e| ==> IsDomainChar(e[i]))
    && IsAsciiLetter(e[|e| - 1]) && IsAsciiLetter(e[|e| - 2])
    && HasTopLevel(e, at + 1)
  }

  /** Some dot after position `from` is followed only by letters, at least two of them. */
  predicate HasTopLevel(e: string, from: nat) {
    exists d :: from < d < |e| - 2 && e[d] == '.' && forall i :: d < i < |e| ==> IsAsciiLetter(e[i])
  }

  /**
   * The greedy domain part backs off from `k` characters towards one until
   * a dot followed by at least two letters comes next; the result is where
   * the (greedy) letters end.
   */
  function TopLevelEnd(s: string, a: nat, k: nat): (r: Option<nat>)
    requires a + k <= |s|
    requires forall i :: a <= i < a + k ==> IsDomainChar(s[i])
    ensures r.Some? ==> a + 3 < r.value <= |s|
    ensures r.Some? ==> forall i :: a <= i < r.value ==> IsDomainChar(s[i])
    ensures r.Some? ==> IsAsciiLetter(s[r.value - 1]) && IsAsciiLetter(s[r.value - 2])
    decreases k
  {
    if k == 0 then None
    else if a + k < |s| && s[a + k] == '.' && Span(s, a + k + 1, IsAsciiLetter) >= 2 then
      Some(a + k + 1 + Span(s, a + k + 1, IsAsciiLetter))
    else TopLevelEnd(s, a, k - 1)
  }

  /** Where the domain part backs off to, a dot and only letters follow. */
  lemma {:induction false} TopLevelEndDot(s: string, a: nat, k: nat)
    requires a + k <= |s|
    requires forall i :: a <= i < a + k ==> IsDomainChar(s[i])
    ensures var r := TopLevelEnd(s, a, k);
      r.Some? ==> HasTopLevel(s[..r.value], a)
    decreases k
  {
    if k == 0 {
    } else if a + k < |s| && s[a + k] == '.' && Span(s, a + k + 1, IsAsciiLetter) >= 2 {
      var end := a + k + 1 + Span(s, a + k + 1, IsAsciiLetter);
      var e := s[..end];
      assert e[a + k] == '.';
      forall i | a + k < i < end
        ensures IsAsciiLetter(e[i])
      {
        assert e[i] == s[i];
      }
    } else {
      TopLevelEndDot(s, a, k - 1);
    }
  }

  /** The e-mail pattern tried at position `p`: where the match ends, if it matches. */
  function EmailAt(s: string, p: nat): (r: Option<nat>)
    requires p <= |s|
    ensures r.Some? ==> p < r.value <= |s|
  {
    var l := Span(s, p, IsLocalChar);
    if l >= 1 && p + l < |s| && s[p + l] == '@' then DomainFrom(s, p + l + 1) else None
  }

  /** The `[a-zA-Z0-9.-]+\.[a-zA-Z]{2,}` part from `a`: where it ends, if it matches. */
  function DomainFrom(s: string, a: nat): (r: Option<nat>)
    requires a <= |s|
    ensures r.Some? ==> a < r.value <= |s|
  {
    TopLevelEnd(s, a, Span(s, a, IsDomainChar))
  }

  /** What the pattern matches at `p` is an address whose `@` follows the local characters. */
  lemma EmailAtShape(s: string, p: nat)
    requires p <= |s|
    ensures var r := EmailAt(s, p);
      r.Some? ==> EmailShaped(s[p..r.value], Span(s, p, IsLocalChar))
  {
    var l := Span(s, p, IsLocalChar);
    if l >= 1 && p + l < |s| && s[p + l] == '@' {
      TopLevelShape(s, p, l);
    }
  }

  /** After `l` local characters and the `@`, the domain part the pattern takes completes an address. */
  lemma TopLevelShape(s: string, p: nat, l: nat)
    requires 1 <= l && p + l < |s| && s[p + l] == '@'
    requires forall i :: p <= i < p + l ==> IsLocalChar(s[i])
    ensures var r := DomainFrom(s, p + l + 1);
      r.Some? ==> EmailShaped(s[p..r.value], l)
  {
    var k := Span(s, p + l + 1, IsDomainChar);
    var t := TopLevelEnd(s, p + l + 1, k);
    if t.Some? {
      TopLevelEndDot(s, p + l + 1, k);
      EmailShapedSlice(s, p, l, t.value);
    }
  }

  /** The characters between `p` and `end` that the pattern accepted make an address. */
  lemma EmailShapedSlice(s: string, p: nat, l: nat, end: nat)
    requires 1 <= l && p + l + 4 < end <= |s| && s[p + l] == '@'
    requires forall i :: p <= i < p + l ==> IsLocalChar(s[i])
    requires forall i :: p + l < i < end ==> IsDomainChar(s[i])
    requires IsAsciiLetter(s[end - 1]) && IsAsciiLetter(s[end - 2])
    requires HasTopLevel(s[..end], p + l + 1)
    ensures EmailShaped(s[p..end], l)
  {
    var e := s[p..end];
    var d :| p + l + 1 < d < end - 2 && s[..end][d] == '.' && forall i :: d < i < end ==> IsAsciiLetter(s[..end][i]);
    assert e[d - p] == '.';
    forall i | d - p < i < |e|
      ensures IsAsciiLetter(e[i])
    {
      assert e[i] == s[..end][p + i];
    }
    forall i | 0 <= i < l
      ensures IsLocalChar(e[i])
    {
      assert e[i] == s[p + i];
    }
    forall i | l < i < |e|
      ensures IsDomainChar(e[i])
    {
      assert e[i] == s[p + i];
    }
  }

  /** The leftmost e-mail match at `p` or later, as start and end. */
  function FindEmail(s: string, p: nat): (r: Option<(nat, nat)>)
    requires p <= |s|
    ensures r.Some? ==> p <= r.value.0 <= |s| && EmailAt(s, r.value.0) == Some(r.value.1)
    ensures r.Some? ==> forall i :: p <= i < r.value.0 ==> EmailAt(s, i).None?
    ensures r.None? ==> forall i :: p <= i <= |s| ==> EmailAt(s, i).None?
    decreases |s| - p
  {
    match EmailAt(s, p)
    case Some(e) => Some((p, e))
    case None =>
      if p == |s| then None
      else
        var r := FindEmail(s, p + 1);
        assert forall i :: p <= i < p + 1 ==> EmailAt(s, i).None?;
        r
  }

  /** `text.match(emailPattern)?.[0]`. */
  function EmailMatch(text: string): Option<string> {
    match FindEmail(text, 0)
    case None => None
    case Some((b, e)) => Some(text[b..e])
  }

  /** A captured address is a piece of the line, shaped like an address. */
  lemma EmailMatchShape(text: string)
    requires EmailMatch(text).Some?
    ensures var e := EmailMatch(text).value;
      Contains(text, e) && exists at :: 0 <= at < |e| && EmailShaped(e, at)
  {
    var b := FindEmail(text, 0).value.0;
    var e := EmailMatch(text).value;
    assert OccursAt(text, e, b);
    EmailAtShape(text, b);
    assert EmailShaped(e, Span(text, b, IsLocalChar));
  }

  // ---------------------------------------------------------------------
  // /(?:\+?52\s*)?(?:\d[\s.-]*){10,}/
  // ---------------------------------------------------------------------

  /**
   * The greedy `(?:\d[\s.-]*)*` from `q`: where it stops and how many
   * digits (iterations) it took.
   */
  function Chain(s: string, q: nat): (r: (nat, nat))
    requires q <= |s|
    ensures q <= r.0 <= |s|
    decreases |s| - q
  {
    if q < |s| && IsDigit(s[q]) then
      var next := q + 1 + Span(s, q + 1, IsSeparator);
      var rest := Chain(s, next);
      (rest.0, rest.1 + 1)
    else (q, 0)
  }

  lemma {:induction false} DigitsOnlyOfNonDigits(t: string)
    requires forall i :: 0 <= i < |t| ==> !IsDigit(t[i])
    ensures DigitsOnly(t) == []
    decreases |t|
  {
    if t != [] {
      DigitsOnlyOfNonDigits(t[1..]);
    }
  }

  /** The chain holds exactly as many digits as it has iterations. */
  lemma {:induction false} ChainDigits(s: string, q: nat)
    requires q <= |s|
    ensures |DigitsOnly(s[q..Chain(s, q).0])| == Chain(s, q).1
    decreases |s| - q
  {
    if q < |s| && IsDigit(s[q]) {
      var next := q + 1 + Span(s, q + 1, IsSeparator);
      var e := Chain(s, next).0;
      assert Chain(s, q) == (e, Chain(s, next).1 + 1);
      ChainDigits(s, next);
      ChainDigitsStep(s, q, next, e);
    } else {
      assert s[q..q] == [];
    }
  }

  /** A digit at `q` and separators up to `next` add one digit to what follows. */
  lemma ChainDigitsStep(s: string, q: nat, next: nat, e: nat)
    requires q < next <= e <= |s| && IsDigit(s[q])
    requires forall k :: q + 1 <= k < next ==> IsSeparator(s[k])
    ensures |DigitsOnly(s[q..e])| == |DigitsOnly(s[next..e])| + 1
  {
    var gap, tail := s[q + 1..next], s[next..e];
    assert s[q..e] == [s[q]] + gap + tail;
    forall i | 0 <= i < |gap|
      ensures IsSeparator(gap[i])
    {
      assert gap[i] == s[q + 1 + i];
    }
    OneMoreDigit(s[q], gap, tail);
  }

  /** A digit and separators in front of a chain add one digit to it. */
  lemma OneMoreDigit(d: char, gap: string, tail: string)
    requires IsDigit(d)
    requires forall i :: 0 <= i < |gap| ==> IsSeparator(gap[i])
    ensures |DigitsOnly([d] + gap + tail)| == |DigitsOnly(tail)| + 1
  {
    assert DigitsOnly(gap) == [] by {
      DigitsOnlyOfNonDigits(gap);
    }
    assert DigitsOnly([d]) == [d];
    DigitsOnlyAppend([d], gap);
    DigitsOnlyAppend([d] + gap, tail);
  }

  /** Where the optional `\+?52` prefix ends when it matches at `p`. */
  function PrefixEnd(s: string, p: nat): (r: Option<nat>)
    requires p <= |s|
    ensures r.Some? ==> p < r.value <= |s|
  {
    if OccursAt(s, "+52", p) then Some(p + 3)
    else if OccursAt(s, "52", p) then Some(p + 2)
    else None
  }

  /**
   * The phone pattern tried at `p`: first with the `52` prefix and its
   * spaces, then, backtracking, without it. The match holds at least ten
   * digits.
   */
  function PhoneAt(s: string, p: nat): (r: Option<nat>)
    requires p <= |s|
    ensures r.Some? ==> p <= r.value <= |s| && |DigitsOnly(s[p..r.value])| >= 10
  {
    var viaPrefix :=
      match PrefixEnd(s, p)
      case None => None
      case Some(q) =>
        var g := q + Span(s, q, IsSpace);
        var c := Chain(s, g);
        if c.1 >= 10 then
          ChainDigits(s, g);
          assert s[p..c.0] == s[p..g] + s[g..c.0];
          DigitsOnlyAppend(s[p..g], s[g..c.0]);
          Some(c.0)
        else None;
    if viaPrefix.Some? then viaPrefix
    else if Chain(s, p).1 >= 10 then
      ChainDigits(s, p);
      Some(Chain(s, p).0)
    else None
  }

  /** The leftmost phone match at `p` or later, as start and end. */
  function FindPhone(s: string, p: nat): (r: Option<(nat, nat)>)
    requires p <= |s|
    ensures r.Some? ==> p <= r.value.0 <= |s| && PhoneAt(s, r.value.0) == Some(r.value.1)
    ensures r.None? ==> forall i :: p <= i <= |s| ==> PhoneAt(s, i).None?
    decreases |s| - p
  {
    match PhoneAt(s, p)
    case Some(e) => Some((p, e))
    case None => if p == |s| then None else FindPhone(s, p + 1)
  }

  /** `text.match(phonePattern)?.[0].replace(/[^\d]/g, '')`. */
  function PhoneMatch(text: string): Option<string> {
    match FindPhone(text, 0)
    case None => None
    case Some((b, e)) => Some(DigitsOnly(text[b..e]))
  }

  predicate IsPhoneNumber(ph: string) {
    AllDigits(ph) && |ph| >= 10
  }

  /** A captured phone number is all digits, at least ten of them. */
  lemma PhoneMatchIsPhoneNumber(text: string)
    requires PhoneMatch(text).Some?
    ensures IsPhoneNumber(PhoneMatch(text).value)
  {
  }

  /** Ten digits in a row are always captured. */
  lemma {:induction false} PhoneFoundWhenTenDigits(text: string, i: nat)
    requires i + 10 <= |text|
    requires forall k :: i <= k < i + 10 ==> IsDigit(text[k])
    ensures PhoneMatch(text).Some?
  {
    ChainAtLeast(text, i, 10);
    assert PhoneAt(text, i).Some?;
  }

  lemma {:induction false} ChainAtLeast(s: string, q: nat, n: nat)
    requires q + n <= |s|
    requires forall k :: q <= k < q + n ==> IsDigit(s[k])
    ensures Chain(s, q).1 >= n
    decreases n
  {
    if n > 0 {
      var sp := Span(s, q + 1, IsSeparator);
      if n > 1 {
        assert sp == 0 by {
          assert IsDigit(s[q + 1]);
        }
      }
      ChainAtLeast(s, q + 1 + sp, n - 1);
    }
  }

  // ---------------------------------------------------------------------
  // capturedData
  // ---------------------------------------------------------------------

  datatype CapturedData = CapturedData(email: Option<string>, phone: Option<string>)

  const NoData := CapturedData(None, None)

  /** `capturedData` after `extractData(text)`: a field the line matches is replaced. */
  function Extracted(c: CapturedData, text: string): CapturedData {
    CapturedData(
      if EmailMatch(text).Some? then EmailMatch(text) else c.email,
      if PhoneMatch(text).Some? then PhoneMatch(text) else c.phone)
  }

  /** What every captured field looks like. */
  predicate WellFormed(c: CapturedData) {
    && (c.phone.Some? ==> IsPhoneNumber(c.phone.value))
    && (c.email.Some? ==> exists at :: 0 <= at < |c.email.value| && EmailShaped(c.email.value, at))
  }

  /** Extraction keeps the captured fields well formed. */
  lemma ExtractedWellFormed(c: CapturedData, text: string)
    requires WellFormed(c)
    ensures WellFormed(Extracted(c, text))
  {
    if EmailMatch(text).Some? {
      EmailMatchShape(text);
    }
    if PhoneMatch(text).Some? {
      PhoneMatchIsPhoneNumber(text);
    }
  }
}
