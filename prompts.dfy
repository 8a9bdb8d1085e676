/**
 * The prompt texts and the transcript bookkeeping of the session controller
 * (hooks/useGameEngine.ts): game-master notes, their injection before the
 * player's turn, compaction above ten turns, and the search for the latest
 * summary.
 */
module Prompts {
  import opened Wrappers
  import opened Text
  import opened Types
  import I18n

  const HistoryLimit := 10

  const SummaryPrefix := "This is a summary of the story so far:"

  const SummaryFailed := "Failed to generate summary."

  // Fixed fragments of the prompts, kept as constants so that proofs about
  // the prompts do not have to look inside them. A fragment whose first
  // character matters to a proof starts with a separate one-character piece.
  const Quote := "\""
  const InitialHead := "Start a new story with the following detailed setup:\n- Genre: "
  const InitialPersona := "\n- Player Persona: "
  const InitialBackground := "\n- Background Setting: "
  const InitialCharacters := "\n- Main Characters (in addition to the player):\n"
  const InitialIntro := "\n- Story Introduction: "
  const InitialTail := "\n\nGenerate the very first scene of the story in the designated language. "
    + "The player state should reflect the persona and starting situation."
  const SetupNoteHead := "The story's core parameters have been updated. "
    + "Please adhere to these new settings from this point forward.\n- Genre: "
  const DirectionHead := "The player has provided a specific direction for the next scene: \""
  const DirectionTail := "\". Please incorporate this direction into the story's continuation."
  const GameMasterHead := "(Game Master Note: The following instructions are critical. "
    + "Apply them silently to the story's continuation. "
    + "Do NOT output any conversational filler, acknowledgements, or confirmation messages like \"Understood.\" "
    + "Your response must begin directly with the valid JSON object based on the player's last choice.)\n\n"
  const SkillHead := "(The player attempted:" + " " + Quote
  const SkillMiddle := ". The player rolled "
  const SkillAttemptClose := Quote + ". This was a skill check using '"
  const SkillTail := "." + ")\n\nDescribe the narrative outcome of this "
  const ChoiceHead := "My choice is: \""
  const ChoiceIntent := Quote + "\n\nAlso consider this optional description of my intent: \""
  const CustomHeading := "\n\n**Custom User Instructions (CRITICAL):**\n"
  const ChoiceTail := Quote + "\n\nContinue the story."

  /** The model turn injected after a game-master note. */
  const PlaceholderReply := "{\"dialogue\": [\"...\"], \"playerState\": {}, \"choices\": [], \"isEnding\": false}"

  /** `characterDescriptions[i]` in a template literal: a missing entry prints as "undefined". */
  function DescriptionAt(descriptions: seq<string>, i: nat): string
  {
    if i < |descriptions| then descriptions[i] else "undefined"
  }

  /** The character lines of the first prompt, one "- name: description" per line. */
  function CharacterDetails(names: seq<string>, descriptions: seq<string>): string
  {
    Join(seq(|names|, i requires 0 <= i < |names| => "- " + names[i] + ": " + DescriptionAt(descriptions, i)), "\n")
  }

  /**
   * The system instruction: the language-specific rules text, followed by the
   * player's own instruction under a heading when there is one.
   */
  function SystemInstruction(baseInstruction: string, customInstruction: Option<string>): (r: string)
    ensures customInstruction.None? || customInstruction.value == "" ==> r == baseInstruction
    ensures customInstruction.Some? && customInstruction.value != "" ==>
      StartsWith(r, baseInstruction) && EndsWith(r, customInstruction.value)
  {
    if customInstruction.Some? && customInstruction.value != "" then
      var r := baseInstruction + CustomHeading + customInstruction.value;
      assert r[..|baseInstruction|] == baseInstruction;
      assert r[|r| - |customInstruction.value|..] == customInstruction.value;
      r
    else baseInstruction
  }

  /** The prompt of the first scene. */
  function InitialPrompt(setup: GameSetup): string
  {
    InitialHead + setup.genre + InitialPersona + setup.persona + InitialBackground + setup.background
    + InitialCharacters + CharacterDetails(setup.characterNames, setup.characterDescriptions)
    + InitialIntro + setup.intro + InitialTail
  }

  /** The first prompt carries the genre, persona, background and introduction verbatim. */
  lemma InitialPromptCarriesSetup(setup: GameSetup)
    ensures Contains(InitialPrompt(setup), setup.genre)
    ensures Contains(InitialPrompt(setup), setup.persona)
    ensures Contains(InitialPrompt(setup), setup.background)
    ensures Contains(InitialPrompt(setup), setup.intro)
  {
    var x := InitialHead;
    ContainsEnd(x, setup.genre);
    x := x + setup.genre;
    ContainsExtend(x, InitialPersona);
    x := x + InitialPersona;
    ContainsExtend(x, setup.persona);
    ContainsEnd(x, setup.persona);
    x := x + setup.persona;
    ContainsExtend(x, InitialBackground);
    x := x + InitialBackground;
    ContainsExtend(x, setup.background);
    ContainsEnd(x, setup.background);
    x := x + setup.background;
    ContainsExtend(x, InitialCharacters);
    x := x + InitialCharacters;
    var details := CharacterDetails(setup.characterNames, setup.characterDescriptions);
    ContainsExtend(x, details);
    x := x + details;
    ContainsExtend(x, InitialIntro);
    x := x + InitialIntro;
    ContainsExtend(x, setup.intro);
    ContainsEnd(x, setup.intro);
    x := x + setup.intro;
    ContainsExtend(x, InitialTail);
  }

  /** The note injected for a staged change of the story settings. */
  function SetupNote(u: GameSetup): string
  {
    var characters := seq(|u.characterNames|, i requires 0 <= i < |u.characterNames| =>
      u.characterNames[i] + " (" + DescriptionAt(u.characterDescriptions, i) + ")");
    var custom := if u.customSystemInstruction.Some? && u.customSystemInstruction.value != ""
                  then u.customSystemInstruction.value else "N/A";
    SetupNoteHead + u.genre + "\n- Player Persona: " + u.persona + "\n- Background: " + u.background
    + "\n- Characters: " + Join(characters, ", ") + "\n- Custom Instruction: " + custom
  }

  /** The note injected for a story direction the player gave. */
  function DirectionNote(direction: string): string
  {
    DirectionHead + direction + DirectionTail
  }

  /** The game-master notes owed for a pending settings change and a pending direction, in that order. */
  function Notes(pending: Option<GameSetup>, direction: string): (notes: seq<string>)
    ensures |notes| == (if pending.Some? then 1 else 0) + (if direction != "" then 1 else 0)
  {
    (if pending.Some? then [SetupNote(pending.value)] else [])
    + (if direction != "" then [DirectionNote(direction)] else [])
  }

  /** The user turn that carries the notes. */
  function GameMasterLog(notes: seq<string>): string
  {
    GameMasterHead + Join(notes, "\n\n")
  }

  /** The model's acknowledgement of a summary. */
  function Acknowledgement(lang: Language): string
  {
    if lang == Ko then "알겠습니다." else "Understood."
  }

  function SummaryTurn(summary: string): Content
  {
    Content(User, SummaryPrefix + "\n" + summary)
  }

  /** What the summarisation call yields: its text, or a placeholder when the call failed. */
  function SummaryText(result: Option<string>): string
  {
    result.GetOr(SummaryFailed)
  }

  /** `fullHistory`: the transcript, the note turns when there are notes, then the player's turn. */
  function Assemble(current: seq<Content>, notes: seq<string>, prompt: string): seq<Content>
  {
    current + Injected(notes, prompt)
  }

  /** The turns appended to the transcript for one choice. */
  function Injected(notes: seq<string>, prompt: string): seq<Content>
  {
    if |notes| > 0 then [Content(User, GameMasterLog(notes)), Content(Model, PlaceholderReply), Content(User, prompt)]
    else [Content(User, prompt)]
  }

  /**
   * The transcript stored (and sent) after a choice. Above the limit it is
   * replaced by a summary of `current` (the transcript before any note was
   * injected), the acknowledgement and the last turn of the assembled one.
   */
  function NextHistory(current: seq<Content>, notes: seq<string>, prompt: string,
                       summarize: seq<Content> -> Option<string>, lang: Language): seq<Content>
  {
    var full := Assemble(current, notes, prompt);
    if |full| > HistoryLimit then
      [SummaryTurn(SummaryText(summarize(current))), Content(Model, Acknowledgement(lang)), full[|full| - 1]]
    else full
  }

  /**
   * Note injection: with notes, exactly one note turn and one placeholder
   * model turn come between the transcript and the player's turn; without,
   * only the player's turn is added.
   */
  lemma InjectionShape(current: seq<Content>, notes: seq<string>, prompt: string)
    ensures var full := Assemble(current, notes, prompt);
      && full[..|current|] == current
      && full[|full| - 1] == Content(User, prompt)
      && (|notes| > 0 ==>
            |full| == |current| + 3
            && full[|current|] == Content(User, GameMasterLog(notes))
            && full[|current| + 1] == Content(Model, PlaceholderReply))
      && (|notes| == 0 ==> |full| == |current| + 1)
  {
  }

  /**
   * Compaction: above ten turns the result is exactly summary, acknowledgement,
   * player's turn, so the note turns are gone; otherwise the assembled
   * transcript is kept whole. Either way the player's turn is last and at most
   * ten turns remain.
   */
  lemma Compaction(current: seq<Content>, notes: seq<string>, prompt: string,
                   summarize: seq<Content> -> Option<string>, lang: Language)
    ensures var full := Assemble(current, notes, prompt);
      var next := NextHistory(current, notes, prompt, summarize, lang);
      && (|full| > HistoryLimit ==> next == [SummaryTurn(SummaryText(summarize(current))),
                                             Content(Model, Acknowledgement(lang)), Content(User, prompt)])
      && (|full| <= HistoryLimit ==> next == full)
      && 1 <= |next| <= HistoryLimit && next[|next| - 1] == Content(User, prompt)
  {
    InjectionShape(current, notes, prompt);
  }

  /** Compaction fires whenever the transcript already holds ten turns, whatever the notes. */
  lemma CompactsFromTen(current: seq<Content>, notes: seq<string>, prompt: string,
                        summarize: seq<Content> -> Option<string>, lang: Language)
    requires |current| >= HistoryLimit
    ensures |NextHistory(current, notes, prompt, summarize, lang)| == 3
  {
  }

  /** No two neighbouring turns share a role. */
  predicate Alternates(h: seq<Content>)
  {
    forall i :: 0 <= i < |h| - 1 ==> h[i].role != h[i + 1].role
  }

  /** Appending a turn whose role differs from the last one keeps the alternation. */
  lemma AppendAlternates(h: seq<Content>, c: Content)
    requires Alternates(h)
    requires |h| == 0 || h[|h| - 1].role != c.role
    ensures Alternates(h + [c])
  {
    var g := h + [c];
    forall i | 0 <= i < |g| - 1 ensures g[i].role != g[i + 1].role {
      assert g[i] == h[i];
      if i + 1 < |h| {
        assert g[i + 1] == h[i + 1];
      }
    }
  }

  /** Injecting turns after a transcript that alternates and ends with a model turn keeps the alternation. */
  lemma AssembleAlternates(current: seq<Content>, notes: seq<string>, prompt: string)
    requires Alternates(current)
    requires |current| == 0 || current[|current| - 1].role == Model
    ensures Alternates(Assemble(current, notes, prompt))
  {
    var promptTurn := Content(User, prompt);
    if |notes| > 0 {
      var noteTurn := Content(User, GameMasterLog(notes));
      var reply := Content(Model, PlaceholderReply);
      AppendAlternates(current, noteTurn);
      AppendAlternates(current + [noteTurn], reply);
      AppendAlternates(current + [noteTurn] + [reply], promptTurn);
      assert Assemble(current, notes, prompt) == current + [noteTurn] + [reply] + [promptTurn];
    } else {
      AppendAlternates(current, promptTurn);
    }
  }

  /** A transcript that alternates and does not end with a user turn keeps alternating after a choice. */
  lemma NextHistoryAlternates(current: seq<Content>, notes: seq<string>, prompt: string,
                              summarize: seq<Content> -> Option<string>, lang: Language)
    requires Alternates(current)
    requires |current| == 0 || current[|current| - 1].role == Model
    ensures Alternates(NextHistory(current, notes, prompt, summarize, lang))
  {
    AssembleAlternates(current, notes, prompt);
  }

  /**
   * After a transcript that ends with a user turn (left so by a malformed
   * reply), a choice that does not trigger compaction produces two
   * neighbouring user turns.
   */
  lemma UserAfterUserBreaksAlternation(current: seq<Content>, notes: seq<string>, prompt: string,
                                       summarize: seq<Content> -> Option<string>, lang: Language)
    requires |current| > 0 && current[|current| - 1].role == User
    requires |Assemble(current, notes, prompt)| <= HistoryLimit
    ensures !Alternates(NextHistory(current, notes, prompt, summarize, lang))
  {
    var full := Assemble(current, notes, prompt);
    InjectionShape(current, notes, prompt);
    assert full[|current| - 1] == current[|current| - 1];
    assert full[|current|].role == User;
  }

  predicate IsSummaryTurn(c: Content)
  {
    c.role == User && StartsWith(c.text, SummaryPrefix)
  }

  /** `text.replace(prefix + "\n", "")`: the first occurrence of the prefix line is removed. */
  function StripSummary(text: string): string
  {
    ReplaceFirst(text, SummaryPrefix + "\n", "")
  }

  /** What `getCurrentSummary` returns for a transcript: the latest summary turn, or the no-summary text. */
  function LatestSummary(h: seq<Content>, lang: Language): string
  {
    if |h| == 0 then I18n.Translate("noSummary", lang, None)
    else if IsSummaryTurn(h[|h| - 1]) then StripSummary(h[|h| - 1].text)
    else LatestSummary(h[..|h| - 1], lang)
  }

  /** The summary found is the one in the last summary turn; with none, the no-summary text. */
  lemma {:induction false} LatestSummaryIsLast(h: seq<Content>, lang: Language, j: int)
    requires -1 <= j < |h|
    requires j >= 0 ==> IsSummaryTurn(h[j])
    requires forall k :: j < k < |h| ==> !IsSummaryTurn(h[k])
    ensures LatestSummary(h, lang) ==
      if j >= 0 then StripSummary(h[j].text) else I18n.Translate("noSummary", lang, None)
  {
    if |h| > 0 && j < |h| - 1 {
      var h' := h[..|h| - 1];
      assert forall k :: j < k < |h'| ==> h'[k] == h[k];
      LatestSummaryIsLast(h', lang, j);
    }
  }

  /** A summary turn the controller builds gives back exactly the summary text. */
  lemma StripSummaryTurn(summary: string)
    ensures StripSummary(SummaryTurn(summary).text) == summary
  {
    var p := SummaryPrefix + "\n";
    var t := p + summary;
    assert OccursAt(t, p, 0);
    ReplaceFirstAt(t, p, "", 0);
    assert t[|p|..] == summary;
  }

  /** After compaction the summary lookup returns the summary that was stored. */
  lemma CompactedSummary(summary: string, lang: Language, prompt: string)
    requires !StartsWith(prompt, SummaryPrefix)
    ensures LatestSummary([SummaryTurn(summary), Content(Model, Acknowledgement(lang)), Content(User, prompt)], lang)
      == summary
  {
    var h := [SummaryTurn(summary), Content(Model, Acknowledgement(lang)), Content(User, prompt)];
    assert StartsWith(h[0].text, SummaryPrefix) by {
      assert h[0].text[..|SummaryPrefix|] == SummaryPrefix;
    }
    LatestSummaryIsLast(h, lang, 0);
    StripSummaryTurn(summary);
  }

  /** The outcome of a skill check: the roll succeeds when it does not exceed the chance. */
  predicate SkillCheckSucceeds(roll: int, successChance: int)
  {
    roll <= successChance
  }

  /** A chance of 100 or more always succeeds and one of 0 or less always fails, for every roll 1..100. */
  lemma SkillCheckExtremes(roll: int, successChance: int)
    requires 1 <= roll <= 100
    ensures successChance >= 100 ==> SkillCheckSucceeds(roll, successChance)
    ensures successChance <= 0 ==> !SkillCheckSucceeds(roll, successChance)
  {
  }

  /** How many of the rolls 1..n succeed. */
  function SuccessfulRolls(successChance: int, n: nat): nat
  {
    if n == 0 then 0
    else SuccessfulRolls(successChance, n - 1) + (if SkillCheckSucceeds(n, successChance) then 1 else 0)
  }

  /** Of the hundred equally likely rolls, exactly the chance (clamped to 0..100) succeed. */
  lemma {:induction false} SuccessfulRollsMatchChance(successChance: int, n: nat)
    ensures SuccessfulRolls(successChance, n) ==
      if successChance <= 0 then 0 else if successChance >= n then n else successChance
  {
    if n > 0 {
      SuccessfulRollsMatchChance(successChance, n - 1);
    }
  }

  /** The prompt of a skill-check attempt: the roll and its outcome stated as fact. */
  function SkillCheckPrompt(text: string, skill: string, statText: string, successChance: int,
                            roll: nat, outcome: string): string
  {
    SkillHead + text + SkillAttemptClose + skill + "' (Player's Stat: " + statText
    + ") with a " + IntToString(successChance) + "% chance" + SkillMiddle + NatToString(roll) + " and " + outcome
    + SkillTail + outcome + " attempt and continue the story."
  }

  /** The prompt of an ordinary choice. */
  function OrdinaryPrompt(c: Choice): string
  {
    var description := if c.description.Some? && c.description.value != "" then c.description.value else "N/A";
    ChoiceHead + c.text + ChoiceIntent + description + ChoiceTail
  }

  /** Neither kind of choice prompt looks like a summary turn. */
  lemma PromptsAreNotSummaries(c: Choice, text: string, skill: string, statText: string,
                               successChance: int, roll: nat, outcome: string)
    ensures !StartsWith(OrdinaryPrompt(c), SummaryPrefix)
    ensures !StartsWith(SkillCheckPrompt(text, skill, statText, successChance, roll, outcome), SummaryPrefix)
  {
    var o := OrdinaryPrompt(c);
    var s := SkillCheckPrompt(text, skill, statText, successChance, roll, outcome);
    assert o[0] == ChoiceHead[0] == 'M';
    assert s[0] == SkillHead[0] == '(';
    assert SummaryPrefix[0] == 'T';
  }
}
