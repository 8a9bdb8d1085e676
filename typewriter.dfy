/**
 * The typewriter that reveals a page (components/Typewriter.tsx): the
 * splitting of the shown text at `<<…>>` highlight markers, and the reveal
 * effect that resumes after a previously shown prefix, adds one character
 * per tick and reports once when the whole text is shown.
 */
module Typewriter {
  import opened Wrappers
  import opened Text

  // ---------------------------------------------------------------------------
  // Highlight markers
  // ---------------------------------------------------------------------------

  /** The characters the regular-expression dot does not match. */
  predicate IsLineTerminator(c: char)
  {
    c == '\n' || c == '\r' || c == '\U{2028}' || c == '\U{2029}'
  }

  /**
   * The lazy `.*?>>` searched from `k`: the end of the first `>>` at or after
   * `k`, provided no line terminator comes before it.
   */
  function CloseFrom(text: string, k: nat): (e: Option<nat>)
    ensures e.Some? ==> k + 2 <= e.value <= |text| && OccursAt(text, ">>", e.value - 2)
    ensures e.Some? ==> forall j :: k <= j < e.value - 2 ==> !OccursAt(text, ">>", j) && !IsLineTerminator(text[j])
    decreases |text| - k
  {
    if |text| < k + 2 then None
    else if OccursAt(text, ">>", k) then Some(k + 2)
    else if IsLineTerminator(text[k]) then None
    else CloseFrom(text, k + 1)
  }

  /** The end of the match of `<<.*?>>` that starts at `q`, if there is one. */
  function MarkerAt(text: string, q: nat): (e: Option<nat>)
    ensures e.Some? ==> q + 4 <= e.value <= |text|
  {
    if OccursAt(text, "<<", q) then CloseFrom(text, q + 2) else None
  }

  /**
   * `text.split(/(<<.*?>>)/g)` once the text before `p` has been split off
   * and no match starts between `p` and `q`: the text between matches
   * alternates with the matches themselves.
   */
  function SplitFrom(text: string, p: nat, q: nat): (parts: seq<string>)
    requires p <= q <= |text|
    ensures |parts| % 2 == 1
    decreases |text| - q
  {
    if q == |text| then [text[p..]]
    else
      match MarkerAt(text, q)
      case None => SplitFrom(text, p, q + 1)
      case Some(e) => [text[p..q], text[q..e]] + SplitFrom(text, e, e)
  }

  function Split(text: string): seq<string>
  {
    SplitFrom(text, 0, 0)
  }

  /** A highlight marker: `<<`, text without line terminator that is closed by its first `>>`, and `>>`. */
  predicate IsMarker(m: string)
  {
    && StartsWith(m, "<<") && EndsWith(m, ">>") && |m| >= 4
    && (forall j :: 2 <= j < |m| - 2 ==> !IsLineTerminator(m[j]))
    && (forall j :: 2 <= j < |m| - 2 ==> !OccursAt(m, ">>", j))
  }

  /** The close is found whenever a `>>` comes before any line terminator. */
  lemma {:induction false} CloseFound(text: string, k: nat, j: nat)
    requires k <= j && OccursAt(text, ">>", j)
    requires forall t :: k <= t < j ==> !IsLineTerminator(text[t])
    ensures CloseFrom(text, k).Some? && CloseFrom(text, k).value <= j + 2
    decreases j - k
  {
    if !OccursAt(text, ">>", k) {
      CloseFound(text, k + 1, j);
    }
  }

  /** An occurrence inside a slice is an occurrence in the whole text. */
  lemma OccursInSlice(text: string, q: nat, e: nat, p: string, j: nat)
    requires q <= e <= |text| && OccursAt(text[q..e], p, j)
    ensures OccursAt(text, p, q + j)
  {
    var m := text[q..e];
    assert j + |p| <= e - q;
    forall i | 0 <= i < |p| ensures text[q + j..q + j + |p|][i] == p[i] {
      assert m[j..j + |p|][i] == m[j + i] == text[q + j + i];
    }
  }

  /** A match is a marker. */
  lemma MatchIsMarker(text: string, q: nat, e: nat)
    requires MarkerAt(text, q) == Some(e)
    ensures IsMarker(text[q..e])
  {
    var m := text[q..e];
    assert StartsWith(m, "<<") by {
      assert m[..2] == text[q..q + 2];
    }
    assert EndsWith(m, ">>") by {
      assert m[|m| - 2..] == text[e - 2..e];
    }
    forall j | 2 <= j < |m| - 2 ensures !IsLineTerminator(m[j]) {
      assert m[j] == text[q + j];
    }
    forall j | 2 <= j < |m| - 2 ensures !OccursAt(m, ">>", j) {
      if OccursAt(m, ">>", j) {
        OccursInSlice(text, q, e, ">>", j);
      }
    }
  }

  /** The parts of a split: an odd number, with a marker at every odd index. */
  predicate Alternating(parts: seq<string>)
  {
    && |parts| % 2 == 1
    && forall i :: 0 <= i < |parts| && i % 2 == 1 ==> IsMarker(parts[i])
  }

  lemma {:induction false} SplitAlternates(text: string, p: nat, q: nat)
    requires p <= q <= |text|
    ensures Alternating(SplitFrom(text, p, q))
    decreases |text| - q
  {
    if q < |text| {
      match MarkerAt(text, q)
      case None =>
        SplitAlternates(text, p, q + 1);
      case Some(e) =>
        SplitAlternates(text, e, e);
        MatchIsMarker(text, q, e);
        AlternatingCons(text[p..q], text[q..e], SplitFrom(text, e, e));
    }
  }

  /** A plain part and a marker in front of alternating parts keep them alternating. */
  lemma AlternatingCons(plain: string, marker: string, rest: seq<string>)
    requires IsMarker(marker) && Alternating(rest)
    ensures Alternating([plain, marker] + rest)
  {
    var parts := [plain, marker] + rest;
    forall i | 0 <= i < |parts| && i % 2 == 1 ensures IsMarker(parts[i]) {
      if i > 1 {
        assert parts[i] == rest[i - 2];
      }
    }
  }

  /** Gluing the parts back together gives the text: the split keeps its delimiters. */
  lemma {:induction false} SplitRoundTrip(text: string, p: nat, q: nat)
    requires p <= q <= |text|
    ensures Join(SplitFrom(text, p, q), "") == text[p..]
    decreases |text| - q
  {
    if q == |text| {
      assert SplitFrom(text, p, q) == [text[p..]];
    } else {
      match MarkerAt(text, q)
      case None =>
        SplitRoundTrip(text, p, q + 1);
      case Some(e) =>
        var rest := SplitFrom(text, e, e);
        assert SplitFrom(text, p, q) == [text[p..q], text[q..e]] + rest;
        SplitRoundTrip(text, e, e);
        JoinCons(text[p..q], text[q..e], rest);
        SliceThree(text, p, q, e);
    }
  }

  lemma SliceThree(text: string, p: nat, q: nat, e: nat)
    requires p <= q <= e <= |text|
    ensures text[p..] == text[p..q] + text[q..e] + text[e..]
  {
  }

  /** Joining two parts in front of at least one more. */
  lemma JoinCons(a: string, b: string, rest: seq<string>)
    requires |rest| > 0
    ensures Join([a, b] + rest, "") == a + b + Join(rest, "")
  {
    JoinConsSep(a, b, rest, "");
    EmptyRight(a);
    EmptyRight(b);
  }

  lemma JoinConsSep(a: string, b: string, rest: seq<string>, sep: string)
    requires |rest| > 0
    ensures Join([a, b] + rest, sep) == a + sep + (b + sep + Join(rest, sep))
  {
    var parts := [a, b] + rest;
    assert parts[1..] == [b] + rest;
    assert ([b] + rest)[1..] == rest;
  }

  lemma EmptyRight(a: string)
    ensures a + "" == a
  {
  }

  /** The first part is the text before the leftmost match, and the second part is that match. */
  lemma {:induction false} SplitLeftmost(text: string, p: nat, q: nat, e: nat)
    requires p <= q < |text| && MarkerAt(text, q) == Some(e)
    requires forall r :: p <= r < q ==> MarkerAt(text, r).None?
    ensures SplitFrom(text, p, p) == [text[p..q], text[q..e]] + SplitFrom(text, e, e)
  {
    SplitPassesOver(text, p, p, q);
    SplitAtMatch(text, p, q, e);
  }

  /** Positions where no match starts are passed over one by one. */
  lemma {:induction false} SplitPassesOver(text: string, p: nat, r: nat, q: nat)
    requires p <= r <= q <= |text|
    requires forall k :: r <= k < q ==> MarkerAt(text, k).None?
    ensures SplitFrom(text, p, r) == SplitFrom(text, p, q)
    decreases q - r
  {
    if r < q {
      SplitSkips(text, p, r);
      SplitPassesOver(text, p, r + 1, q);
    }
  }

  /** A position where no match starts is passed over. */
  lemma SplitSkips(text: string, p: nat, r: nat)
    requires p <= r < |text| && MarkerAt(text, r).None?
    ensures SplitFrom(text, p, r) == SplitFrom(text, p, r + 1)
  {
  }

  /** At a match, the text before it and the match become the next two parts. */
  lemma SplitAtMatch(text: string, p: nat, q: nat, e: nat)
    requires p <= q < |text| && MarkerAt(text, q) == Some(e)
    ensures SplitFrom(text, p, q) == [text[p..q], text[q..e]] + SplitFrom(text, e, e)
  {
  }

  /** A text where no match starts is a single part. */
  lemma SplitWithoutMarkers(text: string)
    requires forall r :: 0 <= r < |text| ==> MarkerAt(text, r).None?
    ensures Split(text) == [text]
  {
    SplitPassesOver(text, 0, 0, |text|);
    assert SplitFrom(text, 0, |text|) == [text[0..]];
    assert text[0..] == text;
  }

  /** A displayed part: plain text, or highlighted text shown without its marks. */
  datatype Part = Plain(text: string) | Emphasis(text: string)

  /** The part as written in the source text. */
  function Unparsed(part: Part): string
  {
    match part
    case Plain(s) => s
    case Emphasis(s) => "<<" + s + ">>"
  }

  /** The mapping of one part: highlighted exactly when it starts with `<<` and ends with `>>`. */
  function ParsePart(piece: string): (r: Part)
    ensures r.Emphasis? <==> StartsWith(piece, "<<") && EndsWith(piece, ">>")
    ensures Unparsed(r) == piece
  {
    if StartsWith(piece, "<<") && EndsWith(piece, ">>") then
      assert piece[1] == '<' && piece[|piece| - 2] == '>' by {
        assert piece[..2][1] == piece[1] && piece[|piece| - 2..][0] == piece[|piece| - 2];
      }
      var r := Emphasis(piece[2..|piece| - 2]);
      assert piece == piece[..2] + r.text + piece[|piece| - 2..];
      r
    else Plain(piece)
  }

  /** `parseText`. */
  function ParseText(text: string): (parts: seq<Part>)
    ensures |parts| == |Split(text)|
    ensures forall i :: 0 <= i < |parts| ==> Unparsed(parts[i]) == Split(text)[i]
  {
    var pieces := Split(text);
    seq(|pieces|, i requires 0 <= i < |pieces| => ParsePart(pieces[i]))
  }

  function UnparsedAll(parts: seq<Part>): (pieces: seq<string>)
    ensures |pieces| == |parts| && forall i :: 0 <= i < |parts| ==> pieces[i] == Unparsed(parts[i])
  {
    seq(|parts|, i requires 0 <= i < |parts| => Unparsed(parts[i]))
  }

  /** Writing the parts back, markers included, gives the text that was parsed. */
  lemma ParseRoundTrip(text: string)
    ensures Join(UnparsedAll(ParseText(text)), "") == text
  {
    assert UnparsedAll(ParseText(text)) == Split(text);
    SplitRoundTrip(text, 0, 0);
  }

  /**
   * Every match of the pattern is highlighted, and its shown text has no
   * line terminator and no `>>`.
   */
  lemma MatchesHighlighted(text: string, i: nat)
    requires i < |ParseText(text)| && i % 2 == 1
    ensures ParseText(text)[i].Emphasis?
    ensures var shown := ParseText(text)[i].text;
      && (forall j :: 0 <= j < |shown| ==> !IsLineTerminator(shown[j]))
      && (forall j: nat :: !OccursAt(shown, ">>", j))
  {
    SplitAlternates(text, 0, 0);
    var m := Split(text)[i];
    assert IsMarker(m);
    var shown := ParseText(text)[i].text;
    assert shown == m[2..|m| - 2];
    forall j | 0 <= j < |shown| ensures !IsLineTerminator(shown[j]) {
      assert shown[j] == m[j + 2];
    }
    forall j: nat | OccursAt(shown, ">>", j) ensures false {
      OccursInSlice(m, 2, |m| - 2, ">>", j);
    }
  }

  /**
   * The mapping looks at the part, not at whether it was a match: text
   * between `<<` and `>>` that spans a line break is not a match, yet it is
   * highlighted.
   */
  lemma SpanningMarkerHighlighted()
    ensures ParseText("<<a\nb>>") == [Emphasis("a\nb")]
  {
    var text := "<<a\nb>>";
    SpanningNotMatched(text);
    SpanningPartHighlighted(text);
    assert ParseText(text)[0] == ParsePart(text);
  }

  /** No match starts in `<<a\nb>>`: the line break stops the search for `>>`. */
  lemma SpanningNotMatched(text: string)
    requires text == "<<a\nb>>"
    ensures Split(text) == [text]
  {
    assert text[2] == 'a' && text[3] == '\n' && text[4] == 'b';
    assert !OccursAt(text, ">>", 3) by {
      assert text[3..5][0] == text[3];
    }
    assert !OccursAt(text, ">>", 2) by {
      assert text[2..4][0] == text[2];
    }
    assert CloseFrom(text, 3) == None;
    assert CloseFrom(text, 2) == None;
    forall r | 0 <= r < |text| ensures MarkerAt(text, r).None? {
      if 0 < r && r + 2 <= |text| {
        assert text[r..r + 2][1] == text[r + 1];
      }
    }
    SplitWithoutMarkers(text);
  }

  /** The whole of `<<a\nb>>` is one part, and it is highlighted. */
  lemma SpanningPartHighlighted(text: string)
    requires text == "<<a\nb>>"
    ensures ParsePart(text) == Emphasis("a\nb")
  {
    assert text[..2] == "<<" && text[|text| - 2..] == ">>";
    assert text[2..|text| - 2] == "a\nb";
  }

  // ---------------------------------------------------------------------------
  // The reveal effect
  // ---------------------------------------------------------------------------

  /**
   * The typewriter's props and state: `displayedText`, the remembered
   * previous text, the interval's counter, whether an interval is
   * scheduled, and how many times `onFinished` has been called.
   */
  datatype TypewriterState = TypewriterState(
    fullText: string,
    isTyping: bool,
    displayedText: string,
    prevFullText: string,
    position: nat,
    ticking: bool,
    finishes: nat)

  /** What is shown is always a prefix of the text, and a running interval has more to reveal. */
  predicate Consistent(s: TypewriterState)
  {
    && StartsWith(s.fullText, s.displayedText)
    && (s.ticking ==> s.isTyping && s.position < |s.fullText| && |s.displayedText| == s.position)
  }

  /** Where the reveal starts: after the previous text when the new one extends it, else at 0. */
  function ResumePoint(fullText: string, prevFullText: string): (start: nat)
    ensures start <= |fullText|
    ensures start == |prevFullText| <==> StartsWith(fullText, prevFullText)
    ensures !StartsWith(fullText, prevFullText) ==> start == 0
  {
    if StartsWith(fullText, prevFullText) then |prevFullText| else 0
  }

  /** The first effect: start revealing, finish at once, or show everything when not typing. */
  function Typed(s: TypewriterState): TypewriterState
  {
    if s.isTyping then
      var initialText := if StartsWith(s.fullText, s.prevFullText) then s.prevFullText else "";
      var startPos := ResumePoint(s.fullText, s.prevFullText);
      if startPos >= |s.fullText| then s.(displayedText := initialText, ticking := false, finishes := s.finishes + 1)
      else s.(displayedText := initialText, position := startPos, ticking := true)
    else s.(displayedText := s.fullText, ticking := false)
  }

  /** One interval tick. */
  function Ticked(s: TypewriterState): TypewriterState
    requires Consistent(s) && s.ticking
  {
    var i := s.position + 1;
    if i >= |s.fullText| then s.(position := i, displayedText := s.fullText[..i], ticking := false,
                                 finishes := s.finishes + 1)
    else s.(position := i, displayedText := s.fullText[..i])
  }

  /** The second effect: the text is remembered once it is no longer being typed. */
  function Remembered(s: TypewriterState): TypewriterState
  {
    if !s.isTyping then s.(prevFullText := s.fullText) else s
  }

  /** New props: when either changed, the running interval is cleared and both effects run again. */
  function Updated(s: TypewriterState, fullText: string, isTyping: bool): TypewriterState
  {
    if fullText == s.fullText && isTyping == s.isTyping then s
    else Remembered(Typed(s.(fullText := fullText, isTyping := isTyping)))
  }

  /** The first render: nothing shown, nothing remembered, then both effects. */
  function Mounted(fullText: string, isTyping: bool): TypewriterState
  {
    Remembered(Typed(TypewriterState(fullText, isTyping, "", "", 0, false, 0)))
  }

  /**
   * Typing starts from the resume point: the text shown first is the text
   * up to it, and either an interval runs from there or, with nothing left
   * to reveal, `onFinished` is called once.
   */
  lemma TypingStartsAtResumePoint(s: TypewriterState)
    requires s.isTyping
    ensures var r := Typed(s); var start := ResumePoint(s.fullText, s.prevFullText);
      && r.displayedText == s.fullText[..start]
      && (start < |s.fullText| ==> r.ticking && r.position == start && r.finishes == s.finishes)
      && (start >= |s.fullText| ==> !r.ticking && r.finishes == s.finishes + 1 && r.displayedText == s.fullText)
  {
  }

  /** Nothing is left to reveal exactly when the text is the remembered one, or empty. */
  lemma AlreadyCompleteIff(s: TypewriterState)
    requires s.isTyping
    ensures !Typed(s).ticking <==> s.fullText == s.prevFullText || s.fullText == []
  {
    if StartsWith(s.fullText, s.prevFullText) && |s.prevFullText| >= |s.fullText| {
      assert s.fullText == s.fullText[..|s.prevFullText|];
    }
  }

  /** When not typing, the whole text is shown and remembered. */
  lemma SkipShowsAll(s: TypewriterState, fullText: string)
    requires s.isTyping || fullText != s.fullText
    ensures var r := Updated(s, fullText, false);
      r.displayedText == fullText && r.prevFullText == fullText && !r.ticking && r.finishes == s.finishes
  {
  }

  /** The remembered text changes only while not typing. */
  lemma RememberedOnlyWhenIdle(s: TypewriterState, fullText: string, isTyping: bool)
    ensures var r := Updated(s, fullText, isTyping);
      r.prevFullText == if r == s || isTyping then s.prevFullText else fullText
  {
  }

  lemma TypedConsistent(s: TypewriterState)
    ensures Consistent(Typed(s))
  {
    var r := Typed(s);
    if s.isTyping && StartsWith(s.fullText, s.prevFullText) {
      assert r.displayedText == s.prevFullText;
    }
    assert StartsWith(r.fullText, r.displayedText) by {
      if r.displayedText == [] {
        assert r.fullText[..0] == [];
      }
    }
  }

  lemma TickedConsistent(s: TypewriterState)
    requires Consistent(s) && s.ticking
    ensures Consistent(Ticked(s))
  {
  }

  lemma UpdatedConsistent(s: TypewriterState, fullText: string, isTyping: bool)
    requires Consistent(s)
    ensures Consistent(Updated(s, fullText, isTyping))
  {
    TypedConsistent(s.(fullText := fullText, isTyping := isTyping));
  }

  /** `n` ticks of a running interval, stopping when it is cleared. */
  function Ticks(s: TypewriterState, n: nat): TypewriterState
    requires Consistent(s)
    decreases n
  {
    if n == 0 || !s.ticking then s
    else
      TickedConsistent(s);
      Ticks(Ticked(s), n - 1)
  }

  /**
   * Each tick reveals one more character: after `k` ticks the first
   * `position + k` characters are shown; the interval stops at the end of
   * the text with exactly one call of `onFinished`, and not before.
   */
  lemma {:induction false} RevealOneByOne(s: TypewriterState, k: nat)
    requires Consistent(s) && s.ticking
    requires k <= |s.fullText| - s.position
    ensures var r := Ticks(s, k);
      && r.displayedText == s.fullText[..s.position + k]
      && (r.ticking <==> s.position + k < |s.fullText|)
      && r.finishes == s.finishes + (if s.position + k == |s.fullText| then 1 else 0)
    decreases k
  {
    if k > 0 {
      TickedConsistent(s);
      var t := Ticked(s);
      if t.ticking {
        RevealOneByOne(t, k - 1);
      } else {
        assert k == 1;
      }
    }
  }

  /** An interval that has finished does nothing more: `onFinished` is never called twice. */
  lemma FinishedOnce(s: TypewriterState, n: nat)
    requires Consistent(s) && s.ticking
    ensures Ticks(s, |s.fullText| - s.position + n) == Ticks(s, |s.fullText| - s.position)
  {
    RevealOneByOne(s, |s.fullText| - s.position);
    TicksStop(s, |s.fullText| - s.position, n);
  }

  lemma {:induction false} TicksStop(s: TypewriterState, k: nat, n: nat)
    requires Consistent(s)
    requires !Ticks(s, k).ticking
    ensures Ticks(s, k + n) == Ticks(s, k)
    decreases k
  {
    if k > 0 && s.ticking {
      TickedConsistent(s);
      TicksStop(Ticked(s), k - 1, n);
    }
  }

  /**
   * Dialogue added to a page that was fully shown is revealed from where
   * the old text ended.
   */
  lemma ExtensionResumes(s: TypewriterState, more: string)
    requires !s.isTyping && s.prevFullText == s.fullText && |more| > 0
    ensures var r := Updated(s, s.fullText + more, true);
      r.displayedText == s.fullText && r.ticking && r.position == |s.fullText|
  {
    assert StartsWith(s.fullText + more, s.fullText) by {
      assert (s.fullText + more)[..|s.fullText|] == s.fullText;
    }
  }

  /**
   * The typewriter component. The interval and the effects are methods;
   * each is proved to perform the transition of the same name on `State()`.
   */
  class Typewriter {
    var fullText: string
    var isTyping: bool
    var displayedText: string
    var prevFullText: string
    var position: nat
    var ticking: bool
    var finishes: nat

    function State(): TypewriterState
      reads this
    {
      TypewriterState(fullText, isTyping, displayedText, prevFullText, position, ticking, finishes)
    }

    predicate Valid()
      reads this
    {
      Consistent(State())
    }

    constructor (fullText: string, isTyping: bool)
      ensures State() == Mounted(fullText, isTyping) && Valid()
    {
      this.fullText := fullText;
      this.isTyping := isTyping;
      displayedText := "";
      prevFullText := "";
      position := 0;
      ticking := false;
      finishes := 0;
      new;
      TypingEffect();
      RememberEffect();
      TypedConsistent(TypewriterState(fullText, isTyping, "", "", 0, false, 0));
    }

    /** The reveal effect, after the previous run's interval has been cleared. */
    method TypingEffect()
      modifies this
      ensures State() == Typed(old(State()))
    {
      if isTyping {
        var startPos := 0;
        var initialText := "";
        if StartsWith(fullText, prevFullText) {
          initialText := prevFullText;
          startPos := |prevFullText|;
        }
        displayedText := initialText;
        if startPos >= |fullText| {
          ticking := false;
          finishes := finishes + 1;
          return;
        }
        position := startPos;
        ticking := true;
      } else {
        displayedText := fullText;
        ticking := false;
      }
    }

    /** One run of the interval's callback. */
    method Tick()
      requires Valid() && ticking
      modifies this
      ensures State() == Ticked(old(State())) && Valid()
    {
      position := position + 1;
      displayedText := fullText[..position];
      if position >= |fullText| {
        ticking := false;
        finishes := finishes + 1;
      }
      TickedConsistent(old(State()));
    }

    /** The effect that remembers the text once typing is over. */
    method RememberEffect()
      modifies this
      ensures State() == Remembered(old(State()))
    {
      if !isTyping {
        prevFullText := fullText;
      }
    }

    /** A render with new props. */
    method Update(fullText: string, isTyping: bool)
      requires Valid()
      modifies this
      ensures State() == Updated(old(State()), fullText, isTyping) && Valid()
    {
      UpdatedConsistent(State(), fullText, isTyping);
      if fullText == this.fullText && isTyping == this.isTyping {
        return;
      }
      this.fullText := fullText;
      this.isTyping := isTyping;
      TypingEffect();
      RememberEffect();
    }
  }
}
