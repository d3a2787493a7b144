/**
 * The new-client form (screens/ClientConfigScreen.js): the required-field
 * check of `handleSave` and the record it posts, with the `client_id` slug
 * and the comma-separated product list split, trimmed and filtered.
 */
module ClientConfig {
  import opened Wrappers
  import opened Text

  // ---------------------------------------------------------------------
  // The client id
  // ---------------------------------------------------------------------

  /** `s.replace(/\s+/g, '_')`: every maximal run of whitespace becomes one underscore. */
  function Underscored(s: string): (r: string)
    ensures forall i :: 0 <= i < |r| ==> !IsSpace(r[i])
    decreases |s|
  {
    if s == [] then []
    else if IsSpace(s[0]) then "_" + Underscored(s[Span(s, 0, IsSpace)..])
    else [s[0]] + Underscored(s[1..])
  }

  /** `companyName.toLowerCase().replace(/\s+/g, '_')`. */
  function Slug(companyName: string): (r: string)
    ensures forall i :: 0 <= i < |r| ==> !IsSpace(r[i])
  {
    Underscored(Lower(companyName))
  }

  /** The slug, an underscore and the clock reading in milliseconds. */
  function ClientId(companyName: string, now: nat): string {
    Slug(companyName) + "_" + NatToString(now)
  }

  predicate NoSpace(s: string) {
    forall i :: 0 <= i < |s| ==> !IsSpace(s[i])
  }

  predicate AllSpace(s: string) {
    forall i :: 0 <= i < |s| ==> IsSpace(s[i])
  }

  /** A string without whitespace is left as it is, so replacing again changes nothing. */
  lemma {:induction false} UnderscoredOfNoSpace(s: string)
    requires NoSpace(s)
    ensures Underscored(s) == s
    decreases |s|
  {
    if s != [] {
      UnderscoredOfNoSpace(s[1..]);
    }
  }

  /** A whitespace run from `i` up to a non-space (or the end) at `j` is what `Span` measures. */
  lemma {:induction false} SpanOfRun(s: string, i: nat, j: nat)
    requires i <= j <= |s|
    requires forall k :: i <= k < j ==> IsSpace(s[k])
    requires j == |s| || !IsSpace(s[j])
    ensures Span(s, i, IsSpace) == j - i
    decreases j - i
  {
    if i < j {
      SpanOfRun(s, i + 1, j);
    }
  }

  /**
   * A whitespace run between two non-space characters (or the ends) turns
   * into exactly one underscore, and the text on either side is replaced
   * independently.
   */
  lemma {:induction false} RunBecomesOneUnderscore(a: string, w: string, b: string)
    requires w != [] && AllSpace(w)
    requires a == [] || !IsSpace(a[|a| - 1])
    requires b == [] || !IsSpace(b[0])
    ensures Underscored(a + w + b) == Underscored(a) + "_" + Underscored(b)
    decreases |a|
  {
    if a == [] {
      RunAtStart(w, b);
      assert a + w + b == w + b;
    } else if IsSpace(a[0]) {
      var k := Span(a, 0, IsSpace);
      assert !IsSpace(a[|a| - 1]);
      RunBecomesOneUnderscore(a[k..], w, b);
      SpaceHeadCase(a, w, b, k);
    } else {
      RunBecomesOneUnderscore(a[1..], w, b);
      NonSpaceHeadCase(a, w, b);
    }
  }

  lemma SpaceHeadCase(a: string, w: string, b: string, k: nat)
    requires a != [] && IsSpace(a[0])
    requires k == Span(a, 0, IsSpace) && k < |a|
    requires Underscored(a[k..] + w + b) == Underscored(a[k..]) + "_" + Underscored(b)
    ensures Underscored(a + w + b) == Underscored(a) + "_" + Underscored(b)
  {
    LeadingRunOfPrefix(a, w + b, k);
    Regroup(a, w, b, k);
  }

  lemma NonSpaceHeadCase(a: string, w: string, b: string)
    requires a != [] && !IsSpace(a[0])
    requires Underscored(a[1..] + w + b) == Underscored(a[1..]) + "_" + Underscored(b)
    ensures Underscored(a + w + b) == Underscored(a) + "_" + Underscored(b)
  {
    NonSpaceHead(a, w + b);
    Regroup(a, w, b, 1);
  }

  lemma Regroup(a: string, w: string, b: string, k: nat)
    requires k <= |a|
    ensures a + w + b == a + (w + b)
    ensures a[k..] + w + b == a[k..] + (w + b)
  {
  }

  lemma RunAtStart(w: string, b: string)
    requires w != [] && AllSpace(w)
    requires b == [] || !IsSpace(b[0])
    ensures Underscored(w + b) == "_" + Underscored(b)
  {
    SpanOfRun(w + b, 0, |w|);
    assert (w + b)[|w|..] == b;
  }

  /** A non-space first character is copied the same way in `a + c`. */
  lemma NonSpaceHead(a: string, c: string)
    requires a != [] && !IsSpace(a[0])
    ensures Underscored(a + c) == [a[0]] + Underscored(a[1..] + c)
  {
    assert (a + c)[1..] == a[1..] + c;
  }

  /** A leading run that ends inside `a` is jumped over the same way in `a + c`. */
  lemma LeadingRunOfPrefix(a: string, c: string, k: nat)
    requires a != [] && IsSpace(a[0])
    requires k == Span(a, 0, IsSpace) && k < |a|
    ensures Underscored(a + c) == "_" + Underscored(a[k..] + c)
    ensures Underscored(a) == "_" + Underscored(a[k..])
  {
    var s := a + c;
    SpanOfRun(s, 0, k);
    assert s[k..] == a[k..] + c;
  }

  /** The last index of `c` in `s`, if any. */
  function LastIndexOf(s: string, c: char): (r: Option<nat>)
    ensures r.Some? ==> r.value < |s| && s[r.value] == c
    ensures r.None? <==> c !in s
    decreases |s|
  {
    if s == [] then None
    else if s[|s| - 1] == c then Some(|s| - 1)
    else
      var r := LastIndexOf(s[..|s| - 1], c);
      assert c in s <==> c in s[..|s| - 1] by {
        assert s == s[..|s| - 1] + [s[|s| - 1]];
      }
      r
  }

  lemma {:induction false} LastIndexOfSuffix(a: string, c: char, b: string)
    requires c !in b
    ensures LastIndexOf(a + [c] + b, c) == Some(|a|)
    decreases |b|
  {
    if b != [] {
      var s := a + [c] + b;
      assert s[..|s| - 1] == a + [c] + b[..|b| - 1];
      LastIndexOfSuffix(a, c, b[..|b| - 1]);
    }
  }

  /**
   * The client id splits at its last underscore into the slug and the
   * decimal clock reading, which parses back to the reading.
   */
  lemma ClientIdSplits(companyName: string, now: nat)
    ensures var id := ClientId(companyName, now);
      var k := |Slug(companyName)|;
      && LastIndexOf(id, '_') == Some(k)
      && id[..k] == Slug(companyName)
      && AllDigits(id[k + 1..])
      && ParseNat(id[k + 1..]) == now
  {
    var digits := NatToString(now);
    assert forall i :: 0 <= i < |digits| ==> digits[i] != '_';
    LastIndexOfSuffix(Slug(companyName), '_', digits);
    var id := ClientId(companyName, now);
    assert id[|Slug(companyName)| + 1..] == digits;
    ParseNatToString(now);
  }

  // ---------------------------------------------------------------------
  // The product list
  // ---------------------------------------------------------------------

  /** `ps.map(p => p.trim())`. */
  function TrimAll(ps: seq<string>): (r: seq<string>)
    ensures |r| == |ps|
    decreases |ps|
  {
    if ps == [] then [] else [Trim(ps[0])] + TrimAll(ps[1..])
  }

  /** Each piece is trimmed where it stands. */
  lemma {:induction false} TrimAllAt(ps: seq<string>, i: nat)
    requires i < |ps|
    ensures TrimAll(ps)[i] == Trim(ps[i])
    decreases |ps|
  {
    assert TrimAll(ps) == [Trim(ps[0])] + TrimAll(ps[1..]);
    if i > 0 {
      TrimAllAt(ps[1..], i - 1);
      assert ps[1..][i - 1] == ps[i];
    }
  }

  lemma {:induction false} TrimAllAppend(ps: seq<string>, qs: seq<string>)
    ensures TrimAll(ps + qs) == TrimAll(ps) + TrimAll(qs)
    decreases |ps|
  {
    if ps == [] {
      assert ps + qs == qs;
    } else {
      assert (ps + qs)[1..] == ps[1..] + qs;
      TrimAllAppend(ps[1..], qs);
    }
  }

  /** `ps.filter(p => p)`: the non-empty strings, in order. */
  function NonEmpty(ps: seq<string>): (r: seq<string>)
    ensures |r| <= |ps|
    decreases |ps|
  {
    if ps == [] then []
    else (if ps[0] != [] then [ps[0]] else []) + NonEmpty(ps[1..])
  }

  /** What the filter keeps is non-empty and was in its input. */
  lemma {:induction false} NonEmptyKept(ps: seq<string>, i: nat)
    requires i < |NonEmpty(ps)|
    ensures NonEmpty(ps)[i] != [] && NonEmpty(ps)[i] in ps
    decreases |ps|
  {
    var head := if ps[0] != [] then [ps[0]] else [];
    if i >= |head| {
      NonEmptyKept(ps[1..], i - |head|);
      assert NonEmpty(ps)[i] == NonEmpty(ps[1..])[i - |head|];
    }
  }

  /** `products.split(',').map(p => p.trim()).filter(p => p)`. */
  function NormalizeProducts(products: string): seq<string> {
    NonEmpty(TrimAll(Split(products, ',')))
  }

  /** Every saved product is non-empty, trimmed and comma-free, and there are at most commas+1 of them. */
  lemma NormalizeProductsShape(products: string)
    ensures var r := NormalizeProducts(products);
      && |r| <= Count(products, ',') + 1
      && forall i :: 0 <= i < |r| ==> r[i] != [] && IsTrimmed(r[i]) && ',' !in r[i]
  {
    var pieces := Split(products, ',');
    var r := NormalizeProducts(products);
    SplitCount(products, ',');
    forall i | 0 <= i < |r|
      ensures r[i] != [] && IsTrimmed(r[i]) && ',' !in r[i]
    {
      NonEmptyKept(TrimAll(pieces), i);
      var j :| 0 <= j < |pieces| && TrimAll(pieces)[j] == r[i];
      TrimAllAt(pieces, j);
      TrimContained(pieces[j]);
      NotInContained(pieces[j], r[i], ',');
    }
  }

  lemma NotInContained(s: string, t: string, c: char)
    requires Contains(s, t) && c !in s
    ensures c !in t
  {
    var i :| 0 <= i <= |s| && OccursAt(s, t, i);
    forall k | 0 <= k < |t|
      ensures t[k] != c
    {
      assert s[i + k] == t[k];
    }
  }

  lemma {:induction false} SplitAppend(a: string, d: char, b: string)
    ensures Split(a + [d] + b, d) == Split(a, d) + Split(b, d)
    decreases |a|
  {
    if a == [] {
      assert a + [d] + b == [d] + b;
      assert ([d] + b)[1..] == b;
    } else {
      assert (a + [d] + b)[1..] == a[1..] + [d] + b;
      SplitAppend(a[1..], d, b);
    }
  }

  lemma {:induction false} NonEmptyAppend(a: seq<string>, b: seq<string>)
    ensures NonEmpty(a + b) == NonEmpty(a) + NonEmpty(b)
    decreases |a|
  {
    if a == [] {
      assert a + b == b;
    } else {
      assert (a + b)[1..] == a[1..] + b;
      NonEmptyAppend(a[1..], b);
    }
  }

  /**
   * The products on either side of a comma are normalised independently
   * and stay in their left-to-right order.
   */
  lemma NormalizeAppend(a: string, b: string)
    ensures NormalizeProducts(a + "," + b) == NormalizeProducts(a) + NormalizeProducts(b)
  {
    var pa, pb := Split(a, ','), Split(b, ',');
    assert NormalizeProducts(a + "," + b) == NonEmpty(TrimAll(pa + pb)) by {
      SplitAppend(a, ',', b);
    }
    TrimAllAppend(pa, pb);
    NonEmptyAppend(TrimAll(pa), TrimAll(pb));
  }

  /** A piece without the separator splits to itself. */
  lemma {:induction false} SplitWithout(s: string, d: char)
    requires d !in s
    ensures Split(s, d) == [s]
    decreases |s|
  {
    if s != [] {
      assert d !in s[1..] && s[0] != d;
      SplitWithout(s[1..], d);
      assert [s[0]] + s[1..] == s;
    }
  }

  /** Leading whitespace before the first comma does not change the products. */
  lemma NormalizeLeadingSpace(w: string, s: string)
    requires AllSpace(w)
    ensures NormalizeProducts(w + s) == NormalizeProducts(s)
  {
    var ps := Split(s, ',');
    assert ',' !in w by {
      forall i | 0 <= i < |w|
        ensures w[i] != ','
      {
        assert IsSpace(w[i]);
      }
    }
    SplitPrefix(w, s, ',');
    TrimAllSpacePrefix(w, Split(w + s, ','), ps);
  }

  /** Pieces that differ only by leading whitespace on the first trim alike. */
  lemma TrimAllSpacePrefix(w: string, qs: seq<string>, ps: seq<string>)
    requires AllSpace(w) && |ps| >= 1
    requires qs == [w + ps[0]] + ps[1..]
    ensures TrimAll(qs) == TrimAll(ps)
  {
    TrimSpacePrefix(w, ps[0]);
    assert qs[1..] == ps[1..];
  }

  /**
   * A list of trimmed, non-empty, comma-free products joined with a comma
   * and any run of spaces normalises back to the same list: the list the
   * form saves survives being printed as `products.join(', ')`.
   */
  lemma {:induction false} NormalizeJoin(ps: seq<string>, w: string)
    requires AllSpace(w)
    requires forall i :: 0 <= i < |ps| ==> ps[i] != [] && IsTrimmed(ps[i]) && ',' !in ps[i]
    ensures NormalizeProducts(Join(ps, "," + w)) == ps
    decreases |ps|
  {
    if |ps| == 1 {
      NormalizeSingle(ps[0]);
    } else if |ps| > 1 {
      NormalizeSingle(ps[0]);
      NormalizeJoin(ps[1..], w);
      NormalizeJoinCons(ps, w);
    }
  }

  /** A single trimmed, non-empty, comma-free product normalises to itself. */
  lemma NormalizeSingle(p: string)
    requires p != [] && IsTrimmed(p) && ',' !in p
    ensures NormalizeProducts(p) == [p]
  {
    SplitWithout(p, ',');
    TrimOfTrimmed(p);
  }

  lemma NormalizeJoinCons(ps: seq<string>, w: string)
    requires |ps| > 1 && AllSpace(w)
    requires NormalizeProducts(ps[0]) == [ps[0]]
    requires NormalizeProducts(Join(ps[1..], "," + w)) == ps[1..]
    ensures NormalizeProducts(Join(ps, "," + w)) == ps
  {
    JoinFirst(ps, "," + w);
    NormalizeConsStep(Join(ps, "," + w), ps[0], w, Join(ps[1..], "," + w), ps[1..]);
    assert [ps[0]] + ps[1..] == ps;
  }

  /** One more product in front of a comma and spaces is one more product in front of the list. */
  lemma NormalizeConsStep(joined: string, a: string, w: string, rest: string, tail: seq<string>)
    requires AllSpace(w)
    requires joined == a + ("," + w) + rest
    requires NormalizeProducts(a) == [a]
    requires NormalizeProducts(rest) == tail
    ensures NormalizeProducts(joined) == [a] + tail
  {
    var spaced := w + rest;
    Regroup4(a, ",", w, rest);
    assert NormalizeProducts(a + "," + spaced) == [a] + tail by {
      NormalizeAppend(a, spaced);
      NormalizeLeadingSpace(w, rest);
    }
  }

  lemma Regroup4(a: string, b: string, c: string, d: string)
    ensures a + (b + c) + d == a + b + (c + d)
  {
  }

  // ---------------------------------------------------------------------
  // Saving
  // ---------------------------------------------------------------------

  /** The record `handleSave` posts (without `created_at`). */
  datatype ClientData = ClientData(
    clientId: string,
    companyName: string,
    industry: string,
    agentName: string,
    products: seq<string>)

  /** `!companyName || !industry || !agentName`: one of the required fields is empty. */
  predicate RequiredMissing(companyName: string, industry: string, agentName: string) {
    companyName == "" || industry == "" || agentName == ""
  }

  class ClientConfigScreen {
    var companyName: string
    var industry: string
    var agentName: string
    var products: string
    var loading: bool

    constructor()
      ensures companyName == "" && industry == "" && agentName == "" && products == ""
      ensures !loading
    {
      companyName := "";
      industry := "";
      agentName := "";
      products := "";
      loading := false;
    }

    /**
     * The synchronous part of `handleSave`: with a required field empty,
     * nothing is built and the screen stays as it was; otherwise the screen
     * starts loading and the record to post is returned.
     */
    method HandleSave(now: nat) returns (request: Option<ClientData>)
      modifies this`loading
      ensures request.None? <==> RequiredMissing(companyName, industry, agentName)
      ensures request.None? ==> loading == old(loading)
      ensures request.Some? ==>
        && loading
        && request.value.clientId == ClientId(companyName, now)
        && request.value.companyName == companyName
        && request.value.industry == industry
        && request.value.agentName == agentName
        && request.value.products == NormalizeProducts(products)
    {
      if companyName == "" || industry == "" || agentName == "" {
        return None;
      }
      loading := true;
      request := Some(ClientData(
        ClientId(companyName, now), companyName, industry, agentName, NormalizeProducts(products)));
    }

    /** The `finally` of `handleSave`, once the post has answered or failed. */
    method FinishSave()
      modifies this`loading
      ensures !loading
    {
      loading := false;
    }
  }
}
