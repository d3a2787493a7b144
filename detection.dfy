/**
 * The line classifiers of the call bridge (vendedor-ia-mejorado.js):
 * voicemail and greeting keywords, the phone-menu ("IVR") digit chooser,
 * and the in-band command tags the speech model is told to emit.
 */
module Detection {
  import opened Wrappers
  import opened Text

  const VoicemailKeywords: seq<string> :=
    ["buzón", "buzon", "mensaje", "señal", "tono", "beep",
     "voicemail", "mailbox", "leave a message", "not available"]

  const HumanKeywords: seq<string> := ["bueno", "hola", "diga"]

  const ComprasKeywords: seq<string> := ["compra", "compras", "purchasing", "procurement"]
  const VentasKeywords: seq<string> := ["venta", "ventas", "sales", "comercial"]
  const OperadoraKeywords: seq<string> := ["operadora", "operator", "recepción", "reception"]

  /** The alternatives of `(?:marque|presione|press)`, in the order the regex tries them. */
  const InstructionWords: seq<string> := ["marque", "presione", "press"]

  /** The in-band commands the agent's transcript may carry. */
  const VoicemailTag := "[VOICEMAIL_DETECTED]"
  const DtmfOpen := "[DTMF:"
  const HumanTag := "[HUMAN_DETECTED]"

  /** `detectVoicemail`'s test: the lowercased line holds a voicemail phrase. */
  predicate IsVoicemail(text: string) {
    ContainsAny(Lower(text), VoicemailKeywords)
  }

  /** `detectHuman`'s test: the lowercased line holds a greeting. */
  predicate IsHumanGreeting(text: string) {
    ContainsAny(Lower(text), HumanKeywords)
  }

  lemma LowerAppend(a: string, b: string)
    ensures Lower(a + b) == Lower(a) + Lower(b)
  {
  }

  lemma ContainsExtend(a: string, s: string, b: string, k: string)
    requires Contains(s, k)
    ensures Contains(a + s + b, k)
  {
    var i :| 0 <= i <= |s| && OccursAt(s, k, i);
    assert (a + s + b)[|a| + i..|a| + i + |k|] == s[i..i + |k|];
    assert OccursAt(a + s + b, k, |a| + i);
  }

  /**
   * A keyword classifier looks only for its phrase: surrounding the line
   * with more speech never loses a detection.
   */
  lemma KeywordDetectionIsLocal(a: string, text: string, b: string)
    ensures IsVoicemail(text) ==> IsVoicemail(a + text + b)
    ensures IsHumanGreeting(text) ==> IsHumanGreeting(a + text + b)
  {
    LowerAppend(a + text, b);
    LowerAppend(a, text);
    if IsVoicemail(text) {
      var j :| 0 <= j < |VoicemailKeywords| && Contains(Lower(text), VoicemailKeywords[j]);
      ContainsExtend(Lower(a), Lower(text), Lower(b), VoicemailKeywords[j]);
    }
    if IsHumanGreeting(text) {
      var j :| 0 <= j < |HumanKeywords| && Contains(Lower(text), HumanKeywords[j]);
      ContainsExtend(Lower(a), Lower(text), Lower(b), HumanKeywords[j]);
    }
  }

  /** The classifiers ignore letter case. */
  lemma KeywordDetectionIgnoresCase(text: string)
    ensures IsVoicemail(Lower(text)) == IsVoicemail(text)
    ensures IsHumanGreeting(Lower(text)) == IsHumanGreeting(text)
  {
    LowerIdempotent(text);
  }

  // ---------------------------------------------------------------------
  // The phone-menu scanner: /(?:marque|presione|press)\s*(\d+)/gi
  // ---------------------------------------------------------------------

  datatype Category = Compras | Ventas | Operadora

  function Priority(c: Category): nat {
    match c
    case Compras => 1
    case Ventas => 2
    case Operadora => 3
  }

  lemma ContainsAnyAppend(s: string, xs: seq<string>, ys: seq<string>)
    ensures ContainsAny(s, xs + ys) <==> ContainsAny(s, xs) || ContainsAny(s, ys)
  {
    if ContainsAny(s, xs + ys) {
      var j :| 0 <= j < |xs + ys| && Contains(s, (xs + ys)[j]);
      if j >= |xs| {
        assert ys[j - |xs|] == (xs + ys)[j];
      }
    }
    if ContainsAny(s, xs) {
      var j :| 0 <= j < |xs| && Contains(s, xs[j]);
      assert (xs + ys)[j] == xs[j];
    }
    if ContainsAny(s, ys) {
      var j :| 0 <= j < |ys| && Contains(s, ys[j]);
      assert (xs + ys)[|xs| + j] == ys[j];
    }
  }

  /**
   * The category of the text before an instruction: the first of compras,
   * ventas, operadora whose keyword it holds. It has one exactly when it
   * holds any category keyword, and each category wins over the later ones.
   */
  function CategoryOf(before: string): (r: Option<Category>)
    ensures r.Some? <==> ContainsAny(before, ComprasKeywords + VentasKeywords + OperadoraKeywords)
    ensures r == Some(Compras) <==> ContainsAny(before, ComprasKeywords)
    ensures r == Some(Ventas) <==> !ContainsAny(before, ComprasKeywords) && ContainsAny(before, VentasKeywords)
    ensures r == Some(Operadora) <==>
      !ContainsAny(before, ComprasKeywords + VentasKeywords) && ContainsAny(before, OperadoraKeywords)
  {
    ContainsAnyAppend(before, ComprasKeywords + VentasKeywords, OperadoraKeywords);
    ContainsAnyAppend(before, ComprasKeywords, VentasKeywords);
    if ContainsAny(before, ComprasKeywords) then Some(Compras)
    else if ContainsAny(before, VentasKeywords) then Some(Ventas)
    else if ContainsAny(before, OperadoraKeywords) then Some(Operadora)
    else None
  }

  /** One match of the scanner: where it starts, the captured digits, where it ends. */
  datatype Instruction = Instruction(index: nat, digits: string, end: nat)

  /** Instruction word `w` sits at `i` and only `\s` characters follow it up to `e`. */
  predicate WordThenSpaces(s: string, w: string, i: nat, e: nat) {
    && OccursAt(s, w, i)
    && i + |w| <= e <= |s|
    && forall k :: i + |w| <= k < e ==> IsSpace(s[k])
  }

  /** `m` is word `w`, optional spaces and a maximal run of digits, as the pattern reads them. */
  predicate WordMatch(s: string, w: string, m: Instruction) {
    && m.index < m.end <= |s|
    && 1 <= |m.digits| <= m.end - m.index
    && AllDigits(m.digits)
    && s[m.end - |m.digits|..m.end] == m.digits
    && (m.end == |s| || !IsDigit(s[m.end]))
    && WordThenSpaces(s, w, m.index, m.end - |m.digits|)
  }

  /** `m` is a genuine match of the scanner's pattern in `s`. */
  predicate ValidMatch(s: string, m: Instruction) {
    exists j :: 0 <= j < |InstructionWords| && WordMatch(s, InstructionWords[j], m)
  }

  /** One alternative of the pattern, word `w`, tried at position `p`. */
  function MatchWord(s: string, p: nat, w: string): Option<Instruction>
    requires p <= |s|
  {
    if OccursAt(s, w, p) then DigitsFrom(s, p, p + |w| + Span(s, p + |w|, IsSpace))
    else None
  }

  /** The `(\d+)` group of a match starting at `p`, read from `b` on: at least one digit, as many as there are. */
  function DigitsFrom(s: string, p: nat, b: nat): Option<Instruction>
    requires b <= |s|
  {
    var e := b + Span(s, b, IsDigit);
    if e > b then Some(Instruction(p, s[b..e], e)) else None
  }

  /** What one alternative matches starts at `p` and reads as that alternative. */
  lemma MatchWordSound(s: string, p: nat, w: string)
    requires p <= |s|
    ensures var r := MatchWord(s, p, w);
      r.Some? ==> r.value.index == p && WordMatch(s, w, r.value)
  {
    if OccursAt(s, w, p) {
      DigitsFromSound(s, w, p, p + |w| + Span(s, p + |w|, IsSpace));
    }
  }

  /** After the word and its spaces, the digit group completes a match of that alternative. */
  lemma DigitsFromSound(s: string, w: string, p: nat, b: nat)
    requires OccursAt(s, w, p) && p + |w| <= b <= |s|
    requires forall k :: p + |w| <= k < b ==> IsSpace(s[k])
    ensures var r := DigitsFrom(s, p, b);
      r.Some? ==> r.value.index == p && WordMatch(s, w, r.value)
  {
    var e := b + Span(s, b, IsDigit);
    if e > b {
      SpannedWordMatch(s, w, p, b, e);
    }
  }

  /** The word, its spaces and its maximal run of digits make a match of that alternative. */
  lemma SpannedWordMatch(s: string, w: string, p: nat, b: nat, e: nat)
    requires OccursAt(s, w, p) && p + |w| <= b < e <= |s|
    requires forall k :: p + |w| <= k < b ==> IsSpace(s[k])
    requires forall k :: b <= k < e ==> IsDigit(s[k])
    requires e == |s| || !IsDigit(s[e])
    ensures WordMatch(s, w, Instruction(p, s[b..e], e))
  {
    var digits := s[b..e];
    forall k | 0 <= k < |digits|
      ensures IsDigit(digits[k])
    {
      assert digits[k] == s[b + k];
    }
  }

  /** The regex tried at position `p`, alternatives from the `j`-th on. */
  function MatchAlternatives(s: string, p: nat, j: nat): (r: Option<Instruction>)
    requires p <= |s| && j <= |InstructionWords|
    ensures r.Some? ==> r.value.index == p && ValidMatch(s, r.value)
    decreases |InstructionWords| - j
  {
    if j == |InstructionWords| then None
    else
      MatchWordSound(s, p, InstructionWords[j]);
      match MatchWord(s, p, InstructionWords[j])
      case Some(m) => Some(m)
      case None => MatchAlternatives(s, p, j + 1)
  }

  function MatchAt(s: string, p: nat): (r: Option<Instruction>)
    requires p <= |s|
  {
    MatchAlternatives(s, p, 0)
  }

  /** `exec` with `lastIndex == p`: the leftmost match starting at `p` or later. */
  function FindFrom(s: string, p: nat): (r: Option<Instruction>)
    requires p <= |s|
    ensures r.Some? ==> p <= r.value.index && ValidMatch(s, r.value)
    ensures r.Some? ==> r == MatchAt(s, r.value.index)
    ensures r.Some? ==> forall i :: p <= i < r.value.index ==> MatchAt(s, i).None?
    ensures r.None? ==> forall i :: p <= i <= |s| ==> MatchAt(s, i).None?
    decreases |s| - p
  {
    var m := MatchAt(s, p);
    if m.Some? then m
    else if p == |s| then None
    else
      var r := FindFrom(s, p + 1);
      assert m.None?;
      r
  }

  /** Every match the `while (exec)` loop visits from `lastIndex == p`, in order. */
  function InstructionsFrom(s: string, p: nat): (r: seq<Instruction>)
    requires p <= |s|
    ensures forall i :: 0 <= i < |r| ==> ValidMatch(s, r[i]) && p <= r[i].index
    decreases |s| - p
  {
    match FindFrom(s, p)
    case None => []
    case Some(m) => [m] + InstructionsFrom(s, m.end)
  }

  function Instructions(lower: string): seq<Instruction> {
    InstructionsFrom(lower, 0)
  }

  /** `lower.substring(Math.max(0, index - 50), index)`. */
  function Window(s: string, index: nat): string
    requires index <= |s|
  {
    s[if index >= 50 then index - 50 else 0..index]
  }

  datatype IvrOption = IvrOption(number: string, priority: nat, category: Category)

  /** The option one instruction contributes: one if its window is categorized, none otherwise. */
  function OptionOf(s: string, m: Instruction): (r: seq<IvrOption>)
    requires m.index <= |s|
    ensures |r| <= 1
    ensures r == [] <==> CategoryOf(Window(s, m.index)).None?
  {
    match CategoryOf(Window(s, m.index))
    case None => []
    case Some(c) => [IvrOption(m.digits, Priority(c), c)]
  }

  /** The options the loop pushes for the matches `ms`: the categorized ones, in order. */
  function CollectOptions(s: string, ms: seq<Instruction>): (r: seq<IvrOption>)
    requires forall i :: 0 <= i < |ms| ==> ms[i].index <= |s|
    ensures |r| <= |ms|
    ensures r == [] <==> forall i :: 0 <= i < |ms| ==> CategoryOf(Window(s, ms[i].index)).None?
    decreases |ms|
  {
    if ms == [] then []
    else OptionOf(s, ms[0]) + CollectOptions(s, ms[1..])
  }

  /** An option collected from the matches `ms` carries the digits and category of the `i`-th of them. */
  lemma {:induction false} CollectedFromMatch(s: string, ms: seq<Instruction>, k: nat) returns (i: nat)
    requires forall j :: 0 <= j < |ms| ==> ms[j].index <= |s|
    requires k < |CollectOptions(s, ms)|
    ensures i < |ms|
    ensures CollectOptions(s, ms)[k].number == ms[i].digits
    ensures CategoryOf(Window(s, ms[i].index)) == Some(CollectOptions(s, ms)[k].category)
    ensures CollectOptions(s, ms)[k].priority == Priority(CollectOptions(s, ms)[k].category)
    decreases |ms|
  {
    var x := OptionOf(s, ms[0]);
    var rest := ms[1..];
    assert CollectOptions(s, ms) == x + CollectOptions(s, rest);
    if k < |x| {
      i := 0;
    } else {
      var j := CollectedFromMatch(s, rest, k - |x|);
      assert rest[j] == ms[j + 1];
      i := j + 1;
    }
  }

  function Options(lower: string): seq<IvrOption> {
    CollectOptions(lower, Instructions(lower))
  }

  /** The options of the matches the loop visits from `lastIndex == p` on. */
  function OptionsFrom(s: string, p: nat): seq<IvrOption>
    requires p <= |s|
  {
    CollectOptions(s, InstructionsFrom(s, p))
  }

  /** One turn of the scanning loop: the first match's option, then the options of the rest. */
  lemma OptionsFromStep(s: string, p: nat)
    requires p <= |s|
    ensures FindFrom(s, p).None? ==> OptionsFrom(s, p) == []
    ensures FindFrom(s, p).Some? ==>
      OptionsFrom(s, p) == OptionOf(s, FindFrom(s, p).value) + OptionsFrom(s, FindFrom(s, p).value.end)
  {
    if FindFrom(s, p).Some? {
      var ms := InstructionsFrom(s, p);
      assert ms[1..] == InstructionsFrom(s, FindFrom(s, p).value.end);
    }
  }

  lemma AppendAssoc<T>(a: seq<T>, b: seq<T>, c: seq<T>)
    ensures a + (b + c) == (a + b) + c
  {
  }

  /**
   * The loop invariant `Options == before + OptionsFrom(p)` survives pushing
   * the option of the match at `p` and moving past it.
   */
  lemma ScanStep(s: string, p: nat, before: seq<IvrOption>, after: seq<IvrOption>)
    requires p <= |s| && FindFrom(s, p).Some?
    requires Options(s) == before + OptionsFrom(s, p)
    requires after == before + OptionOf(s, FindFrom(s, p).value)
    ensures Options(s) == after + OptionsFrom(s, FindFrom(s, p).value.end)
  {
    var m := FindFrom(s, p).value;
    var x, y := OptionOf(s, m), OptionsFrom(s, m.end);
    assert OptionsFrom(s, p) == x + y by {
      OptionsFromStep(s, p);
    }
    AppendAssoc(before, x, y);
  }


  // ---------------------------------------------------------------------
  // options.sort((a, b) => a.priority - b.priority): a stable sort
  // ---------------------------------------------------------------------

  predicate SortedByPriority(os: seq<IvrOption>) {
    forall i, j :: 0 <= i < j < |os| ==> os[i].priority <= os[j].priority
  }

  /** Places `o` before the first element whose priority is not smaller. */
  function Insert(o: IvrOption, sorted: seq<IvrOption>): (r: seq<IvrOption>)
    ensures |r| == |sorted| + 1
    ensures multiset(r) == multiset(sorted) + multiset{o}
    ensures forall x :: x in r ==> x == o || x in sorted
    ensures r[0] == (if sorted == [] || o.priority <= sorted[0].priority then o else sorted[0])
    decreases |sorted|
  {
    if sorted == [] || o.priority <= sorted[0].priority then [o] + sorted
    else
      var tail := Insert(o, sorted[1..]);
      assert sorted == [sorted[0]] + sorted[1..];
      assert multiset(sorted) == multiset{sorted[0]} + multiset(sorted[1..]);
      [sorted[0]] + tail
  }

  lemma {:induction false} InsertSorted(o: IvrOption, sorted: seq<IvrOption>)
    requires SortedByPriority(sorted)
    ensures SortedByPriority(Insert(o, sorted))
    decreases |sorted|
  {
    if !(sorted == [] || o.priority <= sorted[0].priority) {
      var tail := Insert(o, sorted[1..]);
      InsertSorted(o, sorted[1..]);
      forall x | x in tail
        ensures sorted[0].priority <= x.priority
      {
        if x != o {
          var j :| 0 <= j < |sorted[1..]| && sorted[1..][j] == x;
          assert sorted[j + 1] == x;
        }
      }
    }
  }

  /** A stable sort by priority: a sorted permutation of its input. */
  function SortByPriority(os: seq<IvrOption>): (r: seq<IvrOption>)
    ensures multiset(r) == multiset(os)
    ensures |r| == |os|
    ensures SortedByPriority(r)
    decreases |os|
  {
    if os == [] then []
    else
      assert os == [os[0]] + os[1..];
      InsertSorted(os[0], SortByPriority(os[1..]));
      Insert(os[0], SortByPriority(os[1..]))
  }

  /** The position of the first option of least priority. */
  function FirstBest(os: seq<IvrOption>): (k: nat)
    requires |os| > 0
    ensures k < |os|
    ensures forall j :: 0 <= j < |os| ==> os[k].priority <= os[j].priority
    ensures forall j :: 0 <= j < k ==> os[j].priority > os[k].priority
    decreases |os|
  {
    if |os| == 1 then 0
    else
      var k := FirstBest(os[1..]);
      if os[0].priority <= os[k + 1].priority then 0 else k + 1
  }

  /**
   * The head of the stably sorted options is the earliest option of least
   * priority: what `options[0]` after the sort picks.
   */
  lemma {:induction false} SortHeadIsFirstBest(os: seq<IvrOption>)
    requires |os| > 0
    ensures SortByPriority(os)[0] == os[FirstBest(os)]
    decreases |os|
  {
    if |os| > 1 {
      SortHeadIsFirstBest(os[1..]);
    }
  }

  /** The digit string `detectIvrOption` returns for a line, or none. */
  function IvrChoice(text: string): Option<string> {
    var os := Options(Lower(text));
    if os == [] then None else Some(os[FirstBest(os)].number)
  }

  /** Sorting the options and taking the head's digits gives the choice. */
  lemma SortedChoice(text: string)
    ensures var sorted := SortByPriority(Options(Lower(text)));
      && (sorted == [] <==> IvrChoice(text).None?)
      && (sorted != [] ==> IvrChoice(text) == Some(sorted[0].number))
  {
    var os := Options(Lower(text));
    if os != [] {
      SortHeadIsFirstBest(os);
    }
  }

  /**
   * No digit is chosen exactly when no instruction has a category keyword
   * in the 50 characters before it: uncategorized digits are never chosen.
   */
  lemma IvrChoiceNoneIff(text: string)
    ensures var lower := Lower(text);
      IvrChoice(text).None? <==>
        forall i :: 0 <= i < |Instructions(lower)| ==>
          CategoryOf(Window(lower, Instructions(lower)[i].index)).None?
  {
  }

  /**
   * A chosen digit string is the non-empty run of decimal digits that an
   * instruction word and optional spaces introduce in the line, and that
   * instruction has a category.
   */
  lemma IvrChoiceIsInstructionDigits(text: string)
    requires IvrChoice(text).Some?
    ensures var lower, d := Lower(text), IvrChoice(text).value;
      && d != [] && AllDigits(d)
      && exists i :: 0 <= i < |Instructions(lower)|
           && Instructions(lower)[i].digits == d
           && ValidMatch(lower, Instructions(lower)[i])
           && CategoryOf(Window(lower, Instructions(lower)[i].index)).Some?
  {
    var lower := Lower(text);
    var os := Options(lower);
    var k := FirstBest(os);
    var ms := Instructions(lower);
    var i := CollectedFromMatch(lower, ms, k);
    assert ValidMatch(lower, ms[i]);
    var j :| 0 <= j < |InstructionWords| && WordMatch(lower, InstructionWords[j], ms[i]);
  }

  /**
   * A chosen digit string belongs to an option of least priority, and no
   * earlier option has that priority.
   */
  lemma IvrChoiceIsBest(text: string)
    requires IvrChoice(text).Some?
    ensures var os := Options(Lower(text));
      exists k :: 0 <= k < |os| && os[k].number == IvrChoice(text).value
        && (forall j :: 0 <= j < |os| ==> os[k].priority <= os[j].priority)
        && (forall j :: 0 <= j < k ==> os[j].priority > os[k].priority)
  {
    var os := Options(Lower(text));
    assert os[FirstBest(os)].number == IvrChoice(text).value;
  }

  // ---------------------------------------------------------------------
  // The agent's DTMF command: text.match(/\[DTMF:(\d+)\]/)
  // ---------------------------------------------------------------------

  /** The command tag with digits `d` at position `p`, greedy digits then `]`. */
  function DtmfAt(s: string, p: nat): (r: Option<string>)
    requires p <= |s|
    ensures r.Some? ==> r.value != [] && AllDigits(r.value)
    ensures r.Some? ==> OccursAt(s, DtmfOpen + r.value + "]", p)
  {
    if OccursAt(s, DtmfOpen, p) then
      var n := Span(s, p + |DtmfOpen|, IsDigit);
      var e := p + |DtmfOpen| + n;
      if n > 0 && e < |s| && s[e] == ']' then
        var d := s[p + |DtmfOpen|..e];
        assert s[p..e + 1] == s[p..p + |DtmfOpen|] + d + [s[e]];
        Some(d)
      else None
    else None
  }

  /** The leftmost command tag at `p` or later. */
  function FindDtmf(s: string, p: nat): (r: Option<string>)
    requires p <= |s|
    ensures r.Some? ==> exists i :: p <= i <= |s| && DtmfAt(s, i) == r
    ensures r.None? ==> forall i :: p <= i <= |s| ==> DtmfAt(s, i).None?
    decreases |s| - p
  {
    var m := DtmfAt(s, p);
    if m.Some? then m else if p == |s| then None else FindDtmf(s, p + 1)
  }

  function DtmfCommand(text: string): Option<string> {
    FindDtmf(text, 0)
  }

  /** A recognised command carries a non-empty digit string that the line spells out. */
  lemma DtmfCommandSound(text: string)
    requires DtmfCommand(text).Some?
    ensures var d := DtmfCommand(text).value;
      d != [] && AllDigits(d) && Contains(text, DtmfOpen + d + "]")
  {
    var i :| 0 <= i <= |text| && DtmfAt(text, i) == DtmfCommand(text);
  }

  lemma ThreeParts(a: string, b: string, c: string)
    ensures var t := a + b + c;
      t[..|a|] == a && t[|a|..|a| + |b|] == b && t[|a| + |b|..] == c
  {
  }

  lemma DtmfAtTag(text: string, i: nat, d: string)
    requires d != [] && AllDigits(d)
    requires OccursAt(text, DtmfOpen + d + "]", i)
    ensures DtmfAt(text, i) == Some(d)
  {
    var o := |DtmfOpen|;
    var t := DtmfOpen + d + "]";
    ThreeParts(DtmfOpen, d, "]");
    assert text[i..i + |t|] == t;
    assert OccursAt(text, DtmfOpen, i) by {
      assert text[i..i + o] == t[..o];
    }
    assert text[i + o..i + o + |d|] == d by {
      assert text[i + o..i + o + |d|] == t[o..o + |d|];
    }
    assert text[i + o + |d|] == ']' by {
      assert text[i + o + |d|] == t[o + |d|];
    }
    assert forall k :: i + o <= k < i + o + |d| ==> IsDigit(text[k]) by {
      forall k | i + o <= k < i + o + |d|
        ensures IsDigit(text[k])
      {
        assert text[k] == d[k - i - o];
      }
    }
    var n := Span(text, i + o, IsDigit);
    assert n == |d|;
  }

  /** Any well-formed command tag in the line is recognised. */
  lemma DtmfCommandComplete(text: string, d: string)
    requires d != [] && AllDigits(d)
    requires Contains(text, DtmfOpen + d + "]")
    ensures DtmfCommand(text).Some?
  {
    var i :| 0 <= i <= |text| && OccursAt(text, DtmfOpen + d + "]", i);
    DtmfAtTag(text, i, d);
  }
}
