/**
 * The story log offered for download when the game ends (`handleDownloadLog`
 * in App.tsx): one line per transcript turn that reads as story text, a
 * model turn's dialogue or the player's action or choice, joined by line
 * breaks. `JSON.parse` is a parameter: `dialogueOf(text)` is the dialogue
 * array of a model turn whose text parses as an object with one, `None`
 * otherwise. The regular expressions are written out as searches.
 */
module StoryLog {
  import opened Wrappers
  import opened Text
  import opened Types
  import I18n
  import Prompts
  import GameEngine

  /** The prefix that marks a user turn as a skill check. */
  const AttemptMarker := "(The player attempted:"
  /** The opening of the quoted attempt. */
  const AttemptOpen := AttemptMarker + " \""
  /** The text before the roll's digits. */
  const Rolled := ". The player rolled "
  const RolledAnd := " and "
  /** The opening of the quoted choice of an ordinary turn. */
  const ChoiceOpen := "My choice is: \""
  const ActionLabel := "\n[ACTION] > "
  const ChoiceLabel := "\n[CHOICE] > "

  /** The outcome words the log recognises. */
  const OutcomeWords: set<string> := {"succeeded", "failed", "성공", "실패"}

  // ---------------------------------------------------------------------------
  // Marker removal
  // ---------------------------------------------------------------------------

  /** No angle bracket at all. */
  predicate Plain(s: string)
  {
    forall i :: 0 <= i < |s| ==> s[i] != '<' && s[i] != '>'
  }

  /** `replace(/<<|>>/g, '')`: one left-to-right pass that drops every `<<` and `>>` it meets. */
  function StripMarkers(s: string): (r: string)
    ensures |r| <= |s|
  {
    if |s| < 2 then s
    else if s[0] == s[1] && (s[0] == '<' || s[0] == '>') then StripMarkers(s[2..])
    else [s[0]] + StripMarkers(s[1..])
  }

  /** Text without angle brackets passes through, and the pass resumes after it unchanged. */
  lemma {:induction false} StripPlainPrefix(a: string, t: string)
    requires Plain(a)
    ensures StripMarkers(a + t) == a + StripMarkers(t)
  {
    if |a| > 0 {
      assert a[0] != '<' && a[0] != '>';
      StripOrdinaryFirst(a, t);
      PlainTail(a);
      StripPlainPrefix(a[1..], t);
      assert [a[0]] + (a[1..] + StripMarkers(t)) == a + StripMarkers(t);
    } else {
      assert a + t == t;
    }
  }

  /** A first character that is not an angle bracket is kept, and the pass goes on after it. */
  lemma StripOrdinaryFirst(a: string, t: string)
    requires |a| > 0 && a[0] != '<' && a[0] != '>'
    ensures StripMarkers(a + t) == [a[0]] + StripMarkers(a[1..] + t)
  {
    var s := a + t;
    assert s[0] == a[0] && s[1..] == a[1..] + t;
    if |s| < 2 {
      assert s == [a[0]] && a[1..] + t == [];
    }
  }

  lemma PlainTail(a: string)
    requires Plain(a) && |a| > 0
    ensures Plain(a[1..])
  {
    forall i | 0 <= i < |a| - 1 ensures a[1..][i] != '<' && a[1..][i] != '>' {
      assert a[1..][i] == a[i + 1];
    }
  }

  lemma PlainUnchanged(s: string)
    requires Plain(s)
    ensures StripMarkers(s) == s
  {
    StripPlainPrefix(s, "");
    assert s + "" == s;
  }

  /** A `<<` or `>>` at the front is dropped and the pass goes on after it. */
  lemma StripLeadingMarker(marker: string, rest: string)
    requires marker == "<<" || marker == ">>"
    ensures StripMarkers(marker + rest) == StripMarkers(rest)
  {
    var s := marker + rest;
    assert s[..2] == marker && s[2..] == rest;
  }

  /** Highlighted names lose their markers: plain text around `<<name>>` keeps only the name. */
  lemma StripHighlight(before: string, name: string, after: string)
    requires Plain(before) && Plain(name) && Plain(after)
    ensures StripMarkers(before + "<<" + name + ">>" + after) == before + name + after
  {
    var tail := ">>" + after;
    var rest := name + tail;
    var whole := before + ("<<" + rest);
    Nest(before, "<<", name, ">>", after);
    StripPlainPrefix(before, "<<" + rest);
    StripLeadingMarker("<<", rest);
    assert StripMarkers(whole) == before + StripMarkers(rest);
    StripPlainPrefix(name, tail);
    StripLeadingMarker(">>", after);
    PlainUnchanged(after);
    assert StripMarkers(rest) == name + after;
  }

  /** Regrouping a concatenation of five pieces from the right. */
  lemma Nest(a: string, b: string, c: string, d: string, e: string)
    ensures a + b + c + d + e == a + (b + (c + (d + e)))
  {
  }

  /** The pass is not repeated, so a marker can survive in the log: `<>><` becomes `<<`. */
  lemma SinglePassLeavesMarker()
    ensures StripMarkers("<>><") == "<<"
  {
    var s := "<>><";
    assert s[..2] == "<>" && s[1..] == ">><";
    assert s[1..][..2] == ">>" && s[1..][2..] == "<";
  }

  // ---------------------------------------------------------------------------
  // The matches the log looks for
  // ---------------------------------------------------------------------------

  /**
   * The capture of the pattern `open([^"]*)"` at its leftmost match at or
   * after `from`: the text between `open` and the next double quote.
   */
  function QuotedAfter(text: string, open: string, from: nat): Option<string>
    decreases |text| + 1 - from
  {
    if from > |text| then None
    else
      match IndexOfFrom(text, open, from)
      case None => None
      case Some(i) =>
        match IndexOfFrom(text, "\"", i + |open|)
        case Some(j) => Some(text[i + |open|..j])
        case None => QuotedAfter(text, open, i + 1)
  }

  /** The end of the run of digits that starts at `k`. */
  function DigitsEnd(text: string, k: nat): (e: nat)
    requires k <= |text|
    ensures k <= e <= |text|
    ensures forall m :: k <= m < e ==> IsDigit(text[m])
    ensures e == |text| || !IsDigit(text[e])
    decreases |text| - k
  {
    if k < |text| && IsDigit(text[k]) then DigitsEnd(text, k + 1) else k
  }

  /** The alternatives `(succeeded|failed|성공|실패)\.` tried in order at `w`. */
  function OutcomeWordAt(text: string, w: nat): Option<string>
  {
    if OccursAt(text, "succeeded.", w) then Some("succeeded")
    else if OccursAt(text, "failed.", w) then Some("failed")
    else if OccursAt(text, "성공.", w) then Some("성공")
    else if OccursAt(text, "실패.", w) then Some("실패")
    else None
  }

  /**
   * The capture of `\. The player rolled \d+ and (succeeded|failed|성공|실패)\.`
   * when a match starts at `i`. The greedy digits give the only candidate for
   * " and ": a shorter run is followed by a digit.
   */
  function OutcomeAt(text: string, i: nat): Option<string>
  {
    if OccursAt(text, Rolled, i) then
      var d := i + |Rolled|;
      var e := DigitsEnd(text, d);
      if e > d && OccursAt(text, RolledAnd, e) then OutcomeWordAt(text, e + |RolledAnd|)
      else None
    else None
  }

  /** The outcome of the leftmost match at or after `from`. */
  function OutcomeFrom(text: string, from: nat): Option<string>
    decreases |text| + 1 - from
  {
    if from > |text| then None
    else if OutcomeAt(text, from).Some? then OutcomeAt(text, from)
    else OutcomeFrom(text, from + 1)
  }

  // ---------------------------------------------------------------------------
  // One line per turn
  // ---------------------------------------------------------------------------

  function OutcomeSuffix(outcome: Option<string>): string
  {
    match outcome
    case None => ""
    case Some(word) => " (" + word + ")"
  }

  /** The line a turn contributes to the log, if any. */
  function LogEntry(turn: Content, dialogueOf: string -> Option<seq<string>>): Option<string>
  {
    match turn.role
    case Model =>
      (match dialogueOf(turn.text)
       case Some(dialogue) => Some(StripMarkers(Join(dialogue, "\n\n")))
       case None => None)
    case User =>
      if StartsWith(turn.text, AttemptMarker) then
        (match QuotedAfter(turn.text, AttemptOpen, 0)
         case Some(attempt) => Some(ActionLabel + attempt + OutcomeSuffix(OutcomeFrom(turn.text, 0)) + "\n")
         case None => None)
      else
        (match QuotedAfter(turn.text, ChoiceOpen, 0)
         case Some(choice) => if choice != "" then Some(ChoiceLabel + choice + "\n") else None
         case None => None)
  }

  /** The turn's line as a sequence of at most one line. */
  function EntryLines(turn: Content, dialogueOf: string -> Option<seq<string>>): seq<string>
  {
    match LogEntry(turn, dialogueOf)
    case Some(line) => [line]
    case None => []
  }

  /** The lines the turns contribute, in transcript order. */
  function Collected(history: seq<Content>, entry: Content -> seq<string>): seq<string>
  {
    if |history| == 0 then []
    else Collected(history[..|history| - 1], entry) + entry(history[|history| - 1])
  }

  /** The log's lines. */
  function LogLines(history: seq<Content>, dialogueOf: string -> Option<seq<string>>): seq<string>
  {
    Collected(history, turn => EntryLines(turn, dialogueOf))
  }

  /** The text of the downloaded file. */
  function StoryText(history: seq<Content>, dialogueOf: string -> Option<seq<string>>): string
  {
    Join(LogLines(history, dialogueOf), "\n")
  }

  /** `handleDownloadLog` up to the download itself: the lines are collected turn by turn and joined. */
  method DownloadLog(storyHistory: seq<Content>, dialogueOf: string -> Option<seq<string>>)
    returns (storyText: string)
    ensures storyText == StoryText(storyHistory, dialogueOf)
  {
    var logLines: seq<string> := [];
    for n := 0 to |storyHistory|
      invariant logLines == LogLines(storyHistory[..n], dialogueOf)
    {
      assert storyHistory[..n + 1][..n] == storyHistory[..n];
      var content := storyHistory[n];
      var line := LogEntry(content, dialogueOf);
      if line.Some? {
        logLines := logLines + [line.value];
      }
    }
    assert storyHistory[..|storyHistory|] == storyHistory;
    storyText := Join(logLines, "\n");
  }

  lemma {:induction false} CollectedAppend(h1: seq<Content>, h2: seq<Content>, entry: Content -> seq<string>)
    ensures Collected(h1 + h2, entry) == Collected(h1, entry) + Collected(h2, entry)
    decreases |h2|
  {
    if |h2| > 0 {
      var h := h1 + h2;
      var front := h2[..|h2| - 1];
      assert h[..|h| - 1] == h1 + front && h[|h| - 1] == h2[|h2| - 1];
      CollectedAppend(h1, front, entry);
    } else {
      assert h1 + h2 == h1;
    }
  }

  /** The log of a longer transcript extends the log of its beginning, in order. */
  lemma LogLinesAppend(h1: seq<Content>, h2: seq<Content>, dialogueOf: string -> Option<seq<string>>)
    ensures LogLines(h1 + h2, dialogueOf) == LogLines(h1, dialogueOf) + LogLines(h2, dialogueOf)
  {
    CollectedAppend(h1, h2, turn => EntryLines(turn, dialogueOf));
  }

  /** A model turn that does not parse with a dialogue array, such as an acknowledgement, adds no line. */
  lemma UnparsedModelTurnSkipped(history: seq<Content>, text: string, dialogueOf: string -> Option<seq<string>>)
    requires dialogueOf(text).None?
    ensures LogLines(history + [Content(Model, text)], dialogueOf) == LogLines(history, dialogueOf)
  {
    assert (history + [Content(Model, text)])[..|history|] == history;
  }

  // ---------------------------------------------------------------------------
  // What the log makes of the prompts the engine sends
  // ---------------------------------------------------------------------------

  /**
   * The placeholder model turn injected after a game-master note parses
   * with the dialogue `["..."]`, so it shows in the log as a line "...".
   */
  lemma PlaceholderTurnLogged(dialogueOf: string -> Option<seq<string>>)
    requires dialogueOf(Prompts.PlaceholderReply) == Some(["..."])
    ensures LogEntry(Content(Model, Prompts.PlaceholderReply), dialogueOf) == Some("...")
  {
    PlainUnchanged("...");
  }

  /** No double quote. */
  predicate Unquoted(s: string)
  {
    '"' !in s
  }

  /** The search for a double quote from `from` stops at the first one. */
  lemma {:induction false} FirstQuote(text: string, from: nat, q: nat)
    requires from <= q < |text| && text[q] == '"'
    requires forall k :: from <= k < q ==> text[k] != '"'
    ensures IndexOfFrom(text, "\"", from) == Some(q)
    decreases q - from
  {
    assert text[from..from + 1] == [text[from]];
    if from < q {
      FirstQuote(text, from + 1, q);
    }
  }

  /** The capture of a quoted pattern that sits at the start, closed by the quote after `body`. */
  lemma QuotedAtStart(open: string, body: string, rest: string)
    requires |open| > 0 && Unquoted(body) && |rest| > 0 && rest[0] == '"'
    ensures QuotedAfter(open + body + rest, open, 0) == Some(body)
  {
    var text := open + body + rest;
    assert text[..|open|] == open;
    assert IndexOfFrom(text, open, 0) == Some(0);
    var q := |open| + |body|;
    assert text[q] == '"';
    forall k | |open| <= k < q ensures text[k] != '"' {
      assert text[k] == body[k - |open|];
    }
    FirstQuote(text, |open|, q);
    assert text[|open|..q] == body;
  }

  /**
   * An ordinary choice whose text has no double quote is logged as a
   * "[CHOICE]" line with exactly that text, and not at all when the text is
   * empty.
   */
  lemma OrdinaryChoiceLogged(c: Choice, dialogueOf: string -> Option<seq<string>>)
    requires Unquoted(c.text)
    ensures LogEntry(Content(User, Prompts.OrdinaryPrompt(c)), dialogueOf)
            == if c.text != "" then Some(ChoiceLabel + c.text + "\n") else None
  {
    var description := if c.description.Some? && c.description.value != "" then c.description.value else "N/A";
    var prompt := Prompts.OrdinaryPrompt(c);
    var rest := Prompts.ChoiceIntent + description + Prompts.ChoiceTail;
    assert prompt == ChoiceOpen + c.text + rest;
    assert rest[0] == Prompts.ChoiceIntent[0] == '"';
    QuotedAtStart(ChoiceOpen, c.text, rest);
    assert prompt[0] == 'M' && AttemptMarker[0] == '(';
  }

  /** A match starts with the pattern's first character. */
  lemma FirstChar(text: string, p: string, w: nat)
    requires |p| > 0 && OccursAt(text, p, w)
    ensures text[w] == p[0]
  {
    assert text[w..w + |p|][0] == text[w];
  }

  /** An outcome word followed by a full stop is recognised as itself. */
  lemma OutcomeWordFound(text: string, w: nat, word: string)
    requires word in OutcomeWords && OccursAt(text, word + ".", w)
    ensures OutcomeWordAt(text, w) == Some(word)
  {
    FirstChar(text, word + ".", w);
    var c := text[w];
    if OccursAt(text, "succeeded.", w) { FirstChar(text, "succeeded.", w); }
    if OccursAt(text, "failed.", w) { FirstChar(text, "failed.", w); }
    if OccursAt(text, "성공.", w) { FirstChar(text, "성공.", w); }
  }

  /** A word starting with none of their first characters is not recognised. */
  lemma ForeignWordIgnored(text: string, w: nat, word: string)
    requires |word| > 0 && word[0] !in {'s', 'f', '성', '실'} && OccursAt(text, word, w)
    ensures OutcomeWordAt(text, w) == None
  {
    FirstChar(text, word, w);
    if OccursAt(text, "succeeded.", w) { FirstChar(text, "succeeded.", w); }
    if OccursAt(text, "failed.", w) { FirstChar(text, "failed.", w); }
    if OccursAt(text, "성공.", w) { FirstChar(text, "성공.", w); }
    if OccursAt(text, "실패.", w) { FirstChar(text, "실패.", w); }
  }

  /** Positions where the outcome pattern does not match are passed over. */
  lemma {:induction false} OutcomeSkips(text: string, from: nat, p: nat)
    requires from <= p
    requires forall i :: from <= i < p ==> OutcomeAt(text, i).None?
    ensures OutcomeFrom(text, from) == OutcomeFrom(text, p)
    decreases p - from
  {
    if from < p {
      OutcomeSkips(text, from + 1, p);
    }
  }

  /** The run of digits after `d` ends where the digits of `n` end, if a non-digit follows them. */
  lemma DigitsOfNumber(text: string, d: nat, n: nat)
    requires OccursAt(text, NatToString(n), d)
    requires d + |NatToString(n)| < |text| && !IsDigit(text[d + |NatToString(n)|])
    ensures DigitsEnd(text, d) == d + |NatToString(n)|
  {
    var digits := NatToString(n);
    var e := DigitsEnd(text, d);
    forall m | d <= m < d + |digits| ensures IsDigit(text[m]) {
      assert text[m] == text[d..d + |digits|][m - d] == digits[m - d];
    }
  }

  /** Everything of a skill-check prompt before the reported roll. */
  function SkillCheckHead(text: string, skill: string, statText: string, successChance: int): string
  {
    Prompts.SkillHead + text + AttemptClose(skill, statText, successChance)
  }

  /** What follows the attempt in a skill-check prompt, up to the roll report. */
  function AttemptClose(skill: string, statText: string, successChance: int): string
  {
    Prompts.SkillAttemptClose + skill + "' (Player's Stat: " + statText + ") with a " + IntToString(successChance)
    + "% chance"
  }

  /** A roll report at `p`: the outcome pattern reads the word after the digits and " and ". */
  lemma RollReport(text: string, p: nat, roll: nat)
    requires OccursAt(text, Rolled, p)
    requires OccursAt(text, NatToString(roll), p + |Rolled|)
    requires OccursAt(text, RolledAnd, p + |Rolled| + |NatToString(roll)|)
    ensures OutcomeAt(text, p) == OutcomeWordAt(text, p + |Rolled| + |NatToString(roll)| + |RolledAnd|)
  {
    var d := p + |Rolled|;
    FirstChar(text, RolledAnd, d + |NatToString(roll)|);
    DigitsOfNumber(text, d, roll);
  }

  /** The pieces of a roll report written after `head`. */
  lemma RollReportPieces(prompt: string, head: string, digits: string, rest: string)
    requires prompt == head + Rolled + digits + RolledAnd + rest
    ensures OccursAt(prompt, Rolled, |head|)
    ensures OccursAt(prompt, digits, |head| + |Rolled|)
    ensures OccursAt(prompt, RolledAnd, |head| + |Rolled| + |digits|)
    ensures prompt[|head| + |Rolled| + |digits| + |RolledAnd|..] == rest
  {
    assert prompt == head + Rolled + (digits + RolledAnd + rest);
    OccursInMiddle(head, Rolled, digits + RolledAnd + rest);
    assert prompt == head + Rolled + digits + (RolledAnd + rest);
    OccursInMiddle(head + Rolled, digits, RolledAnd + rest);
    OccursInMiddle(head + Rolled + digits, RolledAnd, rest);
    assert prompt == (head + Rolled + digits + RolledAnd) + rest;
  }

  /**
   * With the engine's roll report the only one, the log's outcome is the
   * word after it when recognised, and none otherwise.
   */
  lemma OnlyRollReport(prompt: string, p: nat)
    requires p <= |prompt|
    requires forall i :: OccursAt(prompt, Rolled, i) ==> i == p
    ensures OutcomeFrom(prompt, 0) == OutcomeAt(prompt, p)
  {
    OutcomeSkips(prompt, 0, p);
    if OutcomeAt(prompt, p).None? {
      OutcomeSkips(prompt, p, |prompt| + 1);
    }
  }

  lemma SkillHeadMarks(rest: string)
    ensures StartsWith(Prompts.SkillHead + rest, AttemptMarker)
  {
    assert Prompts.SkillHead + rest == AttemptMarker + (" \"" + rest);
  }

  /** The log's opening pattern is exactly the head of a skill-check prompt. */
  lemma AttemptOpenIsHead()
    ensures AttemptOpen == Prompts.SkillHead
  {
  }

  /** An attempt text without quotes, closed by a quote, is what the log captures. */
  lemma AttemptCaptured(text: string, close: string)
    requires Unquoted(text) && |close| > 0 && close[0] == '"'
    ensures StartsWith(Prompts.SkillHead + text + close, AttemptMarker)
    ensures QuotedAfter(Prompts.SkillHead + text + close, AttemptOpen, 0) == Some(text)
  {
    AttemptMarked(text, close);
    AttemptQuoted(text, close);
  }

  lemma AttemptMarked(text: string, close: string)
    ensures StartsWith(Prompts.SkillHead + text + close, AttemptMarker)
  {
    SkillHeadMarks(text + close);
    assert Prompts.SkillHead + text + close == Prompts.SkillHead + (text + close);
  }

  lemma AttemptQuoted(text: string, close: string)
    requires Unquoted(text) && |close| > 0 && close[0] == '"'
    ensures QuotedAfter(Prompts.SkillHead + text + close, AttemptOpen, 0) == Some(text)
  {
    AttemptOpenIsHead();
    QuotedAtStart(AttemptOpen, text, close);
  }

  /** The text of a skill-check prompt after the attempt. */
  function AfterAttempt(skill: string, statText: string, successChance: int, roll: nat, outcome: string): string
  {
    AttemptClose(skill, statText, successChance) + Rolled + NatToString(roll) + RolledAnd + SkillCheckRest(outcome)
  }

  /** Regrouping a concatenation around its second piece. */
  lemma Regroup(h: string, x: string, c: string, r: string, n: string, a: string, rest: string)
    ensures (h + x + c) + r + n + a + rest == h + x + (c + r + n + a + rest)
  {
  }

  lemma AttemptShape(text: string, skill: string, statText: string, successChance: int, roll: nat,
                     outcome: string)
    ensures Prompts.SkillCheckPrompt(text, skill, statText, successChance, roll, outcome)
      == Prompts.SkillHead + text + AfterAttempt(skill, statText, successChance, roll, outcome)
  {
    SkillCheckShape(text, skill, statText, successChance, roll, outcome);
    Regroup(Prompts.SkillHead, text, AttemptClose(skill, statText, successChance), Rolled, NatToString(roll),
            RolledAnd, SkillCheckRest(outcome));
  }

  /** The attempt of a skill-check prompt, when unquoted, is the log's capture. */
  lemma SkillCheckAttempt(text: string, skill: string, statText: string, successChance: int, roll: nat,
                          outcome: string)
    requires Unquoted(text)
    ensures var prompt := Prompts.SkillCheckPrompt(text, skill, statText, successChance, roll, outcome);
      StartsWith(prompt, AttemptMarker) && QuotedAfter(prompt, AttemptOpen, 0) == Some(text)
  {
    var close := AfterAttempt(skill, statText, successChance, roll, outcome);
    AttemptShape(text, skill, statText, successChance, roll, outcome);
    assert close[0] == Prompts.SkillAttemptClose[0] == '"';
    AttemptCaptured(text, close);
  }

  /** What the outcome translations are. */
  lemma OutcomeTranslations(succeeded: bool, lang: Language)
    ensures var outcome := I18n.Translate(if succeeded then "succeeded" else "failed", lang, None);
      && (lang != Jp ==> outcome in OutcomeWords)
      && (lang == Jp ==> outcome in {"成功", "失敗"} && |outcome| > 0 && outcome[0] !in {'s', 'f', '성', '실'})
  {
  }

  /** The text after the roll's digits and " and " in a skill-check prompt. */
  function SkillCheckRest(outcome: string): string
  {
    outcome + "." + Prompts.SkillTail[1..] + outcome + " attempt and continue the story."
  }

  lemma SkillCheckShape(text: string, skill: string, statText: string, successChance: int, roll: nat,
                        outcome: string)
    ensures Prompts.SkillCheckPrompt(text, skill, statText, successChance, roll, outcome)
      == SkillCheckHead(text, skill, statText, successChance) + Rolled + NatToString(roll) + RolledAnd
         + SkillCheckRest(outcome)
  {
    SkillTailSplits();
    SkillRegroup(Prompts.SkillHead, text, Prompts.SkillAttemptClose, skill, "' (Player's Stat: ", statText,
                 ") with a ", IntToString(successChance), "% chance", Prompts.SkillMiddle, NatToString(roll),
                 " and ", outcome, ".", Prompts.SkillTail[1..], " attempt and continue the story.");
  }

  lemma SkillTailSplits()
    ensures Prompts.SkillTail == "." + Prompts.SkillTail[1..]
  {
  }

  /** Regrouping the pieces of a skill-check prompt into head, roll report and rest. */
  lemma SkillRegroup(h: string, x: string, c1: string, sk: string, c2: string, st: string, c3: string,
                     ic: string, c4: string, mid: string, rn: string, a: string, o: string, dot: string,
                     t1: string, e: string)
    ensures h + x + c1 + sk + c2 + st + c3 + ic + c4 + mid + rn + a + o + (dot + t1) + o + e
         == (h + x + (c1 + sk + c2 + st + c3 + ic + c4)) + mid + rn + a + (o + dot + t1 + o + e)
  {
  }

  /** The word read after the roll report: the outcome when recognised, nothing for other words. */
  lemma RestOutcome(prompt: string, w: nat, outcome: string)
    requires |outcome| > 0 && w + |SkillCheckRest(outcome)| == |prompt|
    requires prompt[w..] == SkillCheckRest(outcome)
    ensures outcome in OutcomeWords ==> OutcomeWordAt(prompt, w) == Some(outcome)
    ensures outcome[0] !in {'s', 'f', '성', '실'} ==> OutcomeWordAt(prompt, w) == None
  {
    RestOpensWithOutcome(prompt, w, outcome);
    if outcome in OutcomeWords {
      OutcomeWordFound(prompt, w, outcome);
    }
    if outcome[0] !in {'s', 'f', '성', '실'} {
      ForeignWordIgnored(prompt, w, outcome);
    }
  }

  /** The rest of a skill-check prompt opens with the outcome and a full stop. */
  lemma RestOpensWithOutcome(prompt: string, w: nat, outcome: string)
    requires w + |SkillCheckRest(outcome)| == |prompt| && prompt[w..] == SkillCheckRest(outcome)
    ensures OccursAt(prompt, outcome + ".", w) && OccursAt(prompt, outcome, w)
  {
    var rest := SkillCheckRest(outcome);
    assert prompt == prompt[..w] + rest;
    var after := Prompts.SkillTail[1..] + outcome + " attempt and continue the story.";
    assert rest == (outcome + ".") + after;
    OccursInMiddle(prompt[..w], outcome + ".", after);
    assert prompt[w..w + |outcome|] == (outcome + ".")[..|outcome|] == outcome;
  }

  /** The outcome the log reads from a skill-check prompt. */
  lemma LoggedOutcome(text: string, skill: string, statText: string, successChance: int, roll: nat,
                          outcome: string)
    requires |outcome| > 0
    requires var prompt := Prompts.SkillCheckPrompt(text, skill, statText, successChance, roll, outcome);
      forall i :: OccursAt(prompt, Rolled, i) ==> i == |SkillCheckHead(text, skill, statText, successChance)|
    ensures var prompt := Prompts.SkillCheckPrompt(text, skill, statText, successChance, roll, outcome);
      && (outcome in OutcomeWords ==> OutcomeFrom(prompt, 0) == Some(outcome))
      && (outcome[0] !in {'s', 'f', '성', '실'} ==> OutcomeFrom(prompt, 0) == None)
  {
    SkillCheckReport(text, skill, statText, successChance, roll, outcome);
    LoggedOutcomeAt(Prompts.SkillCheckPrompt(text, skill, statText, successChance, roll, outcome),
                    |SkillCheckHead(text, skill, statText, successChance)|, roll, outcome);
  }

  /** With the roll report at `p` the only one, the log's outcome is the word the report ends with. */
  lemma LoggedOutcomeAt(prompt: string, p: nat, roll: nat, outcome: string)
    requires |outcome| > 0 && ReportAt(prompt, p, roll, outcome)
    requires forall i :: OccursAt(prompt, Rolled, i) ==> i == p
    ensures outcome in OutcomeWords ==> OutcomeFrom(prompt, 0) == Some(outcome)
    ensures outcome[0] !in {'s', 'f', '성', '실'} ==> OutcomeFrom(prompt, 0) == None
  {
    var w := p + |Rolled| + |NatToString(roll)| + |RolledAnd|;
    ReportedOutcome(prompt, p, roll, outcome, w);
    RestOutcome(prompt, w, outcome);
    SameOutcome(OutcomeFrom(prompt, 0), OutcomeWordAt(prompt, w), outcome);
  }

  /** What holds of the word read also holds of the log's outcome when the two agree. */
  lemma SameOutcome(logged: Option<string>, word: Option<string>, outcome: string)
    requires |outcome| > 0 && logged == word
    requires outcome in OutcomeWords ==> word == Some(outcome)
    requires outcome[0] !in {'s', 'f', '성', '실'} ==> word == None
    ensures outcome in OutcomeWords ==> logged == Some(outcome)
    ensures outcome[0] !in {'s', 'f', '성', '실'} ==> logged == None
  {
  }

  /** Where the roll report of a skill-check prompt is, and what follows it. */
  lemma SkillCheckReport(text: string, skill: string, statText: string, successChance: int, roll: nat,
                         outcome: string)
    ensures ReportAt(Prompts.SkillCheckPrompt(text, skill, statText, successChance, roll, outcome),
                     |SkillCheckHead(text, skill, statText, successChance)|, roll, outcome)
  {
    SkillCheckShape(text, skill, statText, successChance, roll, outcome);
    RollReportPieces(Prompts.SkillCheckPrompt(text, skill, statText, successChance, roll, outcome),
                     SkillCheckHead(text, skill, statText, successChance), NatToString(roll),
                     SkillCheckRest(outcome));
  }

  /** The engine's roll report at `p`: the roll, " and ", then the outcome and the rest of the prompt. */
  predicate ReportAt(prompt: string, p: nat, roll: nat, outcome: string)
  {
    && OccursAt(prompt, Rolled, p) && OccursAt(prompt, NatToString(roll), p + |Rolled|)
    && OccursAt(prompt, RolledAnd, p + |Rolled| + |NatToString(roll)|)
    && p + |Rolled| + |NatToString(roll)| + |RolledAnd| <= |prompt|
    && prompt[p + |Rolled| + |NatToString(roll)| + |RolledAnd|..] == SkillCheckRest(outcome)
  }

  /** With the roll report at `p` the only one, the log reads the word after it. */
  lemma ReportedOutcome(prompt: string, p: nat, roll: nat, outcome: string, w: nat)
    requires ReportAt(prompt, p, roll, outcome) && w == p + |Rolled| + |NatToString(roll)| + |RolledAnd|
    requires forall i :: OccursAt(prompt, Rolled, i) ==> i == p
    ensures OutcomeFrom(prompt, 0) == OutcomeWordAt(prompt, w)
  {
    RollReport(prompt, p, roll);
    OnlyRollReport(prompt, p);
  }

  /**
   * A skill-check prompt whose attempt text has no double quote is logged as
   * an "[ACTION]" line with that text and, in Korean and English, the
   * outcome in parentheses. The Japanese outcome words are not among those
   * the log looks for, so a Japanese game's log shows no outcome. The roll
   * report the engine writes must be the only text of its form in the prompt.
   */
  lemma SkillCheckLogged(text: string, skill: string, statText: string, successChance: int, roll: nat,
                         succeeded: bool, lang: Language, dialogueOf: string -> Option<seq<string>>)
    requires Unquoted(text)
    requires var outcome := I18n.Translate(if succeeded then "succeeded" else "failed", lang, None);
      var prompt := Prompts.SkillCheckPrompt(text, skill, statText, successChance, roll, outcome);
      forall i :: OccursAt(prompt, Rolled, i) ==> i == |SkillCheckHead(text, skill, statText, successChance)|
    ensures var outcome := I18n.Translate(if succeeded then "succeeded" else "failed", lang, None);
      LogEntry(Content(User, Prompts.SkillCheckPrompt(text, skill, statText, successChance, roll, outcome)),
               dialogueOf)
        == Some(ActionLabel + text + (if lang == Jp then "" else " (" + outcome + ")") + "\n")
  {
    var outcome := I18n.Translate(if succeeded then "succeeded" else "failed", lang, None);
    OutcomeTranslations(succeeded, lang);
    SkillCheckAttempt(text, skill, statText, successChance, roll, outcome);
    LoggedOutcome(text, skill, statText, successChance, roll, outcome);
  }

  /**
   * A skill-check choice, worded as `handleChoice` words it, is logged as an
   * "[ACTION]" line with the choice's text and, in Korean and English, the
   * outcome of the roll: success exactly when the roll is at most the
   * choice's chance. The choice's text must hold no double quote, and the
   * roll report must be the only text of its form in the prompt.
   */
  lemma SkillCheckChoiceLogged(s: GameEngine.EngineState, choice: Choice, roll: nat, showNumber: real -> string,
                               dialogueOf: string -> Option<seq<string>>)
    requires choice.isSkillCheck && choice.successChance.Some? && Unquoted(choice.text)
    requires var prompt := GameEngine.ChoicePrompt(s, choice, roll, showNumber);
      forall i, j :: OccursAt(prompt, Rolled, i) && OccursAt(prompt, Rolled, j) ==> i == j
    ensures var succeeded := roll <= choice.successChance.value;
      var outcome := I18n.Translate(if succeeded then "succeeded" else "failed", s.lang, None);
      LogEntry(Content(User, GameEngine.ChoicePrompt(s, choice, roll, showNumber)), dialogueOf)
        == Some(ActionLabel + choice.text + (if s.lang == Jp then "" else " (" + outcome + ")") + "\n")
  {
    var chance := choice.successChance.value;
    var succeeded := roll <= chance;
    var outcome := I18n.Translate(if succeeded then "succeeded" else "failed", s.lang, None);
    var skill, statText := GameEngine.SkillCheckPromptShape(s, choice, roll, showNumber);
    UniqueReport(choice.text, skill, statText, chance, roll, outcome);
    SkillCheckLogged(choice.text, skill, statText, chance, roll, succeeded, s.lang, dialogueOf);
  }

  /** In English the logged outcome is the word "succeeded" or "failed". */
  lemma SkillCheckChoiceLoggedInEnglish(s: GameEngine.EngineState, choice: Choice, roll: nat,
                                        showNumber: real -> string, dialogueOf: string -> Option<seq<string>>)
    requires s.lang == En
    requires choice.isSkillCheck && choice.successChance.Some? && Unquoted(choice.text)
    requires var prompt := GameEngine.ChoicePrompt(s, choice, roll, showNumber);
      forall i, j :: OccursAt(prompt, Rolled, i) && OccursAt(prompt, Rolled, j) ==> i == j
    ensures LogEntry(Content(User, GameEngine.ChoicePrompt(s, choice, roll, showNumber)), dialogueOf)
      == Some(ActionLabel + choice.text
              + (" (" + (if roll <= choice.successChance.value then "succeeded" else "failed") + ")") + "\n")
  {
    SkillCheckChoiceLogged(s, choice, roll, showNumber, dialogueOf);
    EnglishOutcome(roll <= choice.successChance.value);
  }

  /** The English outcome word of a roll. */
  lemma EnglishOutcome(succeeded: bool)
    ensures I18n.Translate(if succeeded then "succeeded" else "failed", En, None)
      == if succeeded then "succeeded" else "failed"
  {
    EnglishOutcomes();
  }

  /** A roll report that occurs only once in a skill-check prompt is the one the engine wrote. */
  lemma UniqueReport(text: string, skill: string, statText: string, successChance: int, roll: nat, outcome: string)
    requires var prompt := Prompts.SkillCheckPrompt(text, skill, statText, successChance, roll, outcome);
      forall i, j :: OccursAt(prompt, Rolled, i) && OccursAt(prompt, Rolled, j) ==> i == j
    ensures var prompt := Prompts.SkillCheckPrompt(text, skill, statText, successChance, roll, outcome);
      forall i :: OccursAt(prompt, Rolled, i) ==> i == |SkillCheckHead(text, skill, statText, successChance)|
  {
    SkillCheckReport(text, skill, statText, successChance, roll, outcome);
  }

  /** The English outcome words. */
  lemma EnglishOutcomes()
    ensures I18n.Translate("succeeded", En, None) == "succeeded"
    ensures I18n.Translate("failed", En, None) == "failed"
  {
  }
}
