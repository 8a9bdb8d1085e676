/**
 * The session controller (hooks/useGameEngine.ts): the game's state and the
 * handlers that move it — starting a game, choosing, receiving the model's
 * reply, paging, saving and loading.
 *
 * Each handler is given twice: as a transition on `EngineState` values,
 * about which the lemmas below are proved, and as a method of `Engine` that
 * updates the fields one by one and is proved to perform that transition.
 * The model call is split in two: the handler that starts it leaves the
 * engine navigating, and `ReceiveReply` delivers its outcome.
 */
module GameEngine {
  import opened Wrappers
  import opened Text
  import opened Types
  import I18n
  import opened Prompts
  import opened Responses

  const RetryText := "Retry"

  const ParseErrorLine := "Fatal Error: Could not process AI response. The format may be incorrect."

  const ConnectErrorLine := "Fatal Error: Failed to connect to AI. Please verify your API key is valid, "
    + "check your internet connection, and try again later."

  /** The single choice offered after a failure. */
  function RetryChoice(): Choice
  {
    PlainChoice(RetryText)
  }

  /** What the browser's save slot holds: a readable snapshot, or text that does not parse. */
  datatype SaveSlot =
    | Unreadable
    | Snapshot(
        gameState: GameState,
        playerState: Option<PlayerState>,
        currentChoices: seq<Choice>,
        dialogueHistory: seq<string>,
        storyHistory: seq<Content>,
        currentPage: int,
        gameSetup: Option<GameSetup>,
        model: ModelId,
        lang: Language)

  /**
   * The controller's state. `hasClient` stands for the model client being
   * configured; `storage` is the save slot; `alerts` records the messages
   * shown with `alert`, oldest first.
   */
  datatype EngineState = EngineState(
    gameState: GameState,
    playerState: Option<PlayerState>,
    currentChoices: seq<Choice>,
    dialogueHistory: seq<string>,
    storyHistory: seq<Content>,
    currentPage: int,
    isTyping: bool,
    isNavigating: bool,
    gameSetup: Option<GameSetup>,
    model: ModelId,
    lastRequest: Option<seq<Content>>,
    pendingSetupUpdate: Option<GameSetup>,
    storyDirection: string,
    lang: Language,
    hasClient: bool,
    storage: Option<SaveSlot>,
    alerts: seq<string>)

  /** The reply to a model call: the call failed, or it returned text that `JSON.parse` may read. */
  datatype Reply = TransportFailure | Delivered(text: string, parsed: Option<Envelope>)

  /** The state when the page loads, with whatever the save slot already holds. */
  function Initial(storage: Option<SaveSlot>): EngineState
  {
    EngineState(Setup, None, [], [], [], 0, false, false, None, Flash, None, None, "", Ko, false, storage, [])
  }

  // ---------------------------------------------------------------------------
  // Pages and choice visibility

  /** One page per dialogue block, and a single empty page before the first block. */
  function Pages(dialogueHistory: seq<string>): (pages: seq<seq<string>>)
    ensures |pages| == if |dialogueHistory| == 0 then 1 else |dialogueHistory|
    ensures |dialogueHistory| == 0 ==> pages == [[""]]
    ensures forall i :: 0 <= i < |dialogueHistory| ==> pages[i] == [dialogueHistory[i]]
  {
    if |dialogueHistory| == 0 then [[""]]
    else seq(|dialogueHistory|, i requires 0 <= i < |dialogueHistory| => [dialogueHistory[i]])
  }

  predicate PageInRange(s: EngineState)
  {
    0 <= s.currentPage < |Pages(s.dialogueHistory)|
  }

  predicate OnLastPage(s: EngineState)
  {
    |Pages(s.dialogueHistory)| == 0 || s.currentPage == |Pages(s.dialogueHistory)| - 1
  }

  /** Choices are offered only when the last page is fully shown and no call is in flight. */
  predicate ShowChoices(s: EngineState)
  {
    !s.isTyping && !s.isNavigating && |s.currentChoices| > 0 && OnLastPage(s)
  }

  /** The choices the screen receives. */
  function VisibleChoices(s: EngineState): (choices: seq<Choice>)
    ensures |choices| > 0 <==> ShowChoices(s)
    ensures |choices| > 0 ==> choices == s.currentChoices
  {
    if ShowChoices(s) then s.currentChoices else []
  }

  /** `customSetCurrentPage`: moving to another page restarts the typewriter. */
  function PageSet(s: EngineState, page: int): EngineState
  {
    s.(currentPage := page, isTyping := if page != s.currentPage then true else s.isTyping)
  }

  /** Turning to a different page hides the choices until it has been typed out. */
  lemma PageTurnHidesChoices(s: EngineState, page: int)
    requires page != s.currentPage
    ensures VisibleChoices(PageSet(s, page)) == []
    ensures PageSet(s, page).currentPage == page
  {
  }

  // ---------------------------------------------------------------------------
  // Model calls and replies

  /** `callAI` once a client exists: the request is remembered and the choices cleared. */
  function Called(s: EngineState, history: seq<Content>): EngineState
  {
    s.(isNavigating := true, currentChoices := [], lastRequest := Some(history))
  }

  /** The failure branch of `processAIResponse`. */
  function ResponseFailed(s: EngineState): EngineState
  {
    s.(dialogueHistory := s.dialogueHistory + [ParseErrorLine], currentChoices := [RetryChoice()])
  }

  /**
   * `processAIResponse`. The remembered request is dropped first. A reply
   * that does not parse, or has no player state, fails before anything else
   * changes; a reply whose dialogue is missing fails only after the player
   * state and choices were already stored.
   */
  /** The converted player state and the reply's choices are stored. */
  function Converted(s: EngineState, raw: RawPlayerState, choices: seq<Choice>,
                     parseFloat: string -> Option<real>): EngineState
  {
    s.(playerState := Some(Normalize(raw, parseFloat)), currentChoices := choices)
  }

  /** A reply's scene: its paragraphs become one page, shown at once, and the raw text joins the transcript. */
  function Scene(s: EngineState, text: string, dialogue: seq<string>, isEnding: bool): EngineState
  {
    s.(dialogueHistory := s.dialogueHistory + [Join(dialogue, "\n\n")],
       currentPage := |s.dialogueHistory|,
       isTyping := true,
       gameState := if isEnding then Ended else s.gameState,
       storage := if isEnding then None else s.storage,
       storyHistory := s.storyHistory + [Content(Model, text)])
  }

  function Responded(s: EngineState, text: string, parsed: Option<Envelope>,
                     parseFloat: string -> Option<real>): EngineState
  {
    var s1 := s.(lastRequest := None);
    if parsed.None? || parsed.value.playerState.None? then ResponseFailed(s1)
    else
      var env := parsed.value;
      var s2 := Converted(s1, env.playerState.value, env.choices, parseFloat);
      if env.dialogue.None? then ResponseFailed(s2)
      else Scene(s2, text, env.dialogue.value, env.isEnding)
  }

  /** The continuation of `callAI`: the outcome of the call, then navigation ends. */
  function Received(s: EngineState, reply: Reply, parseFloat: string -> Option<real>): EngineState
  {
    match reply
    case TransportFailure =>
      s.(dialogueHistory := s.dialogueHistory + [ConnectErrorLine],
         currentChoices := [RetryChoice()], isNavigating := false)
    case Delivered(text, parsed) => Responded(s, text, parsed, parseFloat).(isNavigating := false)
  }

  /**
   * A well-formed reply adds exactly one dialogue block (its paragraphs
   * joined by a blank line) and turns to it, starts typing, stores the
   * converted player state and the new choices, appends exactly one model
   * turn with the raw text, and ends the game when the reply says so.
   */
  lemma WellFormedReply(s: EngineState, text: string, env: Envelope, parseFloat: string -> Option<real>)
    requires env.dialogue.Some? && env.playerState.Some?
    ensures var r := Responded(s, text, Some(env), parseFloat);
      && r.dialogueHistory == s.dialogueHistory + [Join(env.dialogue.value, "\n\n")]
      && r.currentPage == |s.dialogueHistory| && PageInRange(r) && OnLastPage(r)
      && r.isTyping && VisibleChoices(r) == []
      && r.storyHistory == s.storyHistory + [Content(Model, text)]
      && r.playerState == Some(Normalize(env.playerState.value, parseFloat))
      && r.currentChoices == env.choices
      && r.lastRequest == None
      && (r.gameState == Ended <==> env.isEnding || s.gameState == Ended)
      && (env.isEnding ==> r.storage == None)
  {
  }

  /**
   * A reply that does not parse, or carries no player state, leaves the
   * player state and the transcript as they were, appends one error line and
   * offers only "Retry"; the remembered request is gone.
   */
  lemma MalformedReply(s: EngineState, text: string, parsed: Option<Envelope>, parseFloat: string -> Option<real>)
    requires parsed.None? || parsed.value.playerState.None?
    ensures var r := Responded(s, text, parsed, parseFloat);
      && r.playerState == s.playerState && r.storyHistory == s.storyHistory
      && r.dialogueHistory == s.dialogueHistory + [ParseErrorLine]
      && r.currentChoices == [RetryChoice()] && r.lastRequest == None
      && r.currentPage == s.currentPage && r.isTyping == s.isTyping && r.gameState == s.gameState
  {
  }

  /**
   * A reply with a player state but no dialogue still replaces the player
   * state before failing; the transcript is unchanged.
   */
  lemma ReplyWithoutDialogue(s: EngineState, text: string, env: Envelope, parseFloat: string -> Option<real>)
    requires env.dialogue.None? && env.playerState.Some?
    ensures var r := Responded(s, text, Some(env), parseFloat);
      && r.playerState == Some(Normalize(env.playerState.value, parseFloat))
      && r.storyHistory == s.storyHistory
      && r.dialogueHistory == s.dialogueHistory + [ParseErrorLine]
      && r.currentChoices == [RetryChoice()] && r.lastRequest == None
  {
  }

  /** Whatever the reply, a page index that was in range stays in range. */
  lemma ReceivedKeepsPageInRange(s: EngineState, reply: Reply, parseFloat: string -> Option<real>)
    requires PageInRange(s)
    ensures PageInRange(Received(s, reply, parseFloat))
    ensures !Received(s, reply, parseFloat).isNavigating
  {
  }

  /** A failed call keeps the request, so that "Retry" can send it again. */
  lemma TransportFailureKeepsRequest(s: EngineState, parseFloat: string -> Option<real>)
    ensures var r := Received(s, TransportFailure, parseFloat);
      && r.lastRequest == s.lastRequest && r.storyHistory == s.storyHistory
      && r.currentChoices == [RetryChoice()] && r.dialogueHistory == s.dialogueHistory + [ConnectErrorLine]
  {
  }

  // ---------------------------------------------------------------------------
  // Starting, choosing

  /** `setup.apiKey || process.env.API_KEY`. */
  function ApiKey(setupKey: Option<string>, envApiKey: string): string
  {
    if setupKey.Some? && setupKey.value != "" then setupKey.value else envApiKey
  }

  /** `startGame` (outside debug mode). The save slot is cleared even when no key is found. */
  function Started(s: EngineState, setup: GameSetup, envApiKey: string): EngineState
  {
    var s1 := s.(storage := None);
    if ApiKey(setup.apiKey, envApiKey) == "" then
      s1.(alerts := s.alerts + [I18n.Translate("apiKeyNotSet", setup.lang, None)])
    else
      var initial := [Content(User, InitialPrompt(setup))];
      Called(s1.(gameSetup := Some(setup), model := setup.model, lang := setup.lang, hasClient := true,
                 gameState := Playing, dialogueHistory := [], storyHistory := initial, currentPage := 0),
             initial)
  }

  /**
   * Without a key only the save slot is cleared and an alert shown. With one,
   * the game is playing on an empty first page, and the request sent is
   * exactly the stored transcript: the single first-scene prompt.
   */
  lemma StartGameOutcome(s: EngineState, setup: GameSetup, envApiKey: string)
    ensures var r := Started(s, setup, envApiKey);
      && r.storage == None
      && (ApiKey(setup.apiKey, envApiKey) == "" ==>
            r == s.(storage := None, alerts := s.alerts + [I18n.Translate("apiKeyNotSet", setup.lang, None)]))
      && (ApiKey(setup.apiKey, envApiKey) != "" ==>
            r.gameState == Playing && r.hasClient && r.isNavigating
            && r.storyHistory == [Content(User, InitialPrompt(setup))]
            && r.lastRequest == Some(r.storyHistory) && Alternates(r.storyHistory)
            && r.dialogueHistory == [] && PageInRange(r) && VisibleChoices(r) == [])
  {
  }

  /** How a stat value prints in a template literal; numbers are printed by `showNumber`. */
  function ShowStat(v: StatValue, showNumber: real -> string): string
  {
    match v
    case Num(n) => showNumber(n)
    case Text(t) => t
  }

  /** The prompt `handleChoice` builds for a choice and a roll. */
  function ChoicePrompt(s: EngineState, choice: Choice, roll: nat, showNumber: real -> string): string
  {
    if choice.isSkillCheck && choice.successChance.Some? then
      var chance := choice.successChance.value;
      var outcome := if SkillCheckSucceeds(roll, chance) then I18n.Translate("succeeded", s.lang, None)
                     else I18n.Translate("failed", s.lang, None);
      var skill := if choice.skill.Some? && choice.skill.value != "" then choice.skill.value
                   else I18n.Translate("unspecifiedSkill", s.lang, None);
      var statText := if s.playerState.Some? && skill in s.playerState.value.stats
                      then ShowStat(s.playerState.value.stats[skill], showNumber)
                      else I18n.Translate("n/a", s.lang, None);
      SkillCheckPrompt(choice.text, skill, statText, chance, roll, outcome)
    else OrdinaryPrompt(choice)
  }

  /**
   * `executeChoice`: the pending settings change and direction become notes
   * and are cleared, the staged settings take effect, the next transcript is
   * stored and sent.
   */
  function Chose(s: EngineState, prompt: string, summarize: seq<Content> -> Option<string>): EngineState
  {
    var notes := Notes(s.pendingSetupUpdate, s.storyDirection);
    var next := NextHistory(s.storyHistory, notes, prompt, summarize, s.lang);
    Called(s.(gameSetup := if s.pendingSetupUpdate.Some? then s.pendingSetupUpdate else s.gameSetup,
              pendingSetupUpdate := None, storyDirection := "", storyHistory := next),
           next)
  }

  /** `handleChoice` outside debug mode; `roll` is the die roll of 1 to 100. */
  function Handled(s: EngineState, choice: Choice, roll: nat, summarize: seq<Content> -> Option<string>,
                   showNumber: real -> string): EngineState
  {
    if s.isTyping || !s.hasClient || s.isNavigating then s
    else
      var s1 := s.(isTyping := false);
      if choice.text == RetryText && s.lastRequest.Some? then Called(s1, s.lastRequest.value)
      else Chose(s1, ChoicePrompt(s, choice, roll, showNumber), summarize)
  }

  /** While typing, while a call is in flight, or without a client, a choice changes nothing. */
  lemma ChoiceIgnoredWhileBusy(s: EngineState, choice: Choice, roll: nat,
                               summarize: seq<Content> -> Option<string>, showNumber: real -> string)
    requires s.isTyping || !s.hasClient || s.isNavigating
    ensures Handled(s, choice, roll, summarize, showNumber) == s
  {
  }

  /** "Retry" with a remembered request sends that very request again and leaves the transcript alone. */
  lemma RetryResends(s: EngineState, choice: Choice, roll: nat,
                     summarize: seq<Content> -> Option<string>, showNumber: real -> string)
    requires !s.isTyping && s.hasClient && !s.isNavigating
    requires choice.text == RetryText && s.lastRequest.Some?
    ensures var r := Handled(s, choice, roll, summarize, showNumber);
      && r.lastRequest == s.lastRequest && r.isNavigating
      && r.storyHistory == s.storyHistory && r.dialogueHistory == s.dialogueHistory
      && r.pendingSetupUpdate == s.pendingSetupUpdate && r.storyDirection == s.storyDirection
  {
  }

  /**
   * Any other accepted choice clears the pending settings change and
   * direction, applies the staged settings, and sends exactly the stored
   * transcript, which holds at most ten turns and ends with the player's
   * prompt.
   */
  lemma ChoiceSendsStoredHistory(s: EngineState, choice: Choice, roll: nat,
                                 summarize: seq<Content> -> Option<string>, showNumber: real -> string)
    requires !s.isTyping && s.hasClient && !s.isNavigating
    requires !(choice.text == RetryText && s.lastRequest.Some?)
    ensures var r := Handled(s, choice, roll, summarize, showNumber);
      var prompt := ChoicePrompt(s, choice, roll, showNumber);
      && r.pendingSetupUpdate == None && r.storyDirection == ""
      && r.gameSetup == (if s.pendingSetupUpdate.Some? then s.pendingSetupUpdate else s.gameSetup)
      && r.lastRequest == Some(r.storyHistory)
      && r.storyHistory == NextHistory(s.storyHistory, Notes(s.pendingSetupUpdate, s.storyDirection),
                                       prompt, summarize, s.lang)
      && 1 <= |r.storyHistory| <= HistoryLimit
      && r.storyHistory[|r.storyHistory| - 1] == Content(User, prompt)
      && r.isNavigating && VisibleChoices(r) == []
  {
    Compaction(s.storyHistory, Notes(s.pendingSetupUpdate, s.storyDirection),
               ChoicePrompt(s, choice, roll, showNumber), summarize, s.lang);
  }

  /**
   * After a reply that does not parse, "Retry" finds no remembered request
   * and is sent as an ordinary choice named "Retry". When no compaction
   * happens the transcript then holds two user turns in a row, so user and
   * model turns no longer alternate.
   */
  lemma RetryAfterMalformedReply(s: EngineState, text: string, roll: nat,
                                 summarize: seq<Content> -> Option<string>, showNumber: real -> string,
                                 parseFloat: string -> Option<real>)
    requires s.hasClient && !s.isTyping && s.isNavigating
    requires |s.storyHistory| > 0 && s.storyHistory[|s.storyHistory| - 1].role == User
    requires |Assemble(s.storyHistory, Notes(s.pendingSetupUpdate, s.storyDirection),
                       OrdinaryPrompt(RetryChoice()))| <= HistoryLimit
    ensures var failed := Received(s, Delivered(text, None), parseFloat);
      var r := Handled(failed, RetryChoice(), roll, summarize, showNumber);
      && failed.currentChoices == [RetryChoice()] && failed.lastRequest == None
      && r.storyHistory[|r.storyHistory| - 1] == Content(User, OrdinaryPrompt(RetryChoice()))
      && !Alternates(r.storyHistory)
  {
    var failed := Received(s, Delivered(text, None), parseFloat);
    assert failed == ResponseFailed(s.(lastRequest := None)).(isNavigating := false);
    var prompt := OrdinaryPrompt(RetryChoice());
    assert ChoicePrompt(failed, RetryChoice(), roll, showNumber) == prompt;
    var r := Handled(failed, RetryChoice(), roll, summarize, showNumber);
    assert r == Chose(failed.(isTyping := false), prompt, summarize);
    var notes := Notes(s.pendingSetupUpdate, s.storyDirection);
    assert r.storyHistory == NextHistory(s.storyHistory, notes, prompt, summarize, s.lang);
    Compaction(s.storyHistory, notes, prompt, summarize, s.lang);
    UserAfterUserBreaksAlternation(s.storyHistory, notes, prompt, summarize, s.lang);
  }

  /**
   * The prompt of a skill check is the skill-check template for the choice's
   * text, its chance and the roll, whose outcome word is the success word
   * exactly when the roll is at most the chance.
   */
  lemma SkillCheckPromptShape(s: EngineState, choice: Choice, roll: nat, showNumber: real -> string)
      returns (skill: string, statText: string)
    requires choice.isSkillCheck && choice.successChance.Some?
    ensures ChoicePrompt(s, choice, roll, showNumber)
        == SkillCheckPrompt(choice.text, skill, statText, choice.successChance.value, roll,
                            I18n.Translate(if roll <= choice.successChance.value then "succeeded" else "failed",
                                           s.lang, None))
  {
    skill := if choice.skill.Some? && choice.skill.value != "" then choice.skill.value
             else I18n.Translate("unspecifiedSkill", s.lang, None);
    statText := if s.playerState.Some? && skill in s.playerState.value.stats
                then ShowStat(s.playerState.value.stats[skill], showNumber)
                else I18n.Translate("n/a", s.lang, None);
    assert ChoicePrompt(s, choice, roll, showNumber)
        == SkillCheckPrompt(choice.text, skill, statText, choice.successChance.value, roll,
                            I18n.Translate(if roll <= choice.successChance.value then "succeeded" else "failed",
                                           s.lang, None));
  }

  // ---------------------------------------------------------------------------
  // Settings, saving, loading

  /** `changeModel`: the model changes now and in the staged settings. */
  function ModelChanged(s: EngineState, m: ModelId): EngineState
    requires s.pendingSetupUpdate.Some?
  {
    s.(model := m, pendingSetupUpdate := Some(s.pendingSetupUpdate.value.(model := m)))
  }

  function SnapshotOf(s: EngineState): SaveSlot
  {
    Snapshot(s.gameState, s.playerState, s.currentChoices, s.dialogueHistory, s.storyHistory,
             s.currentPage, s.gameSetup, s.model, s.lang)
  }

  /**
   * `saveGame`: refused (no result) unless playing and idle; otherwise the
   * snapshot is written when storage accepts it (`true`), else an alert
   * (`false`).
   */
  function Saved(s: EngineState, storageOk: bool): (EngineState, Option<bool>)
  {
    if s.gameState != Playing || s.isNavigating then
      (s.(alerts := s.alerts + [I18n.Translate("saveOnlyDuringPlay", s.lang, None)]), None)
    else if storageOk then (s.(storage := Some(SnapshotOf(s))), Some(true))
    else (s.(alerts := s.alerts + [I18n.Translate("saveFailed", s.lang, None)]), Some(false))
  }

  /** Outside play, or while a call is in flight, nothing is saved. */
  lemma SaveOnlyDuringPlay(s: EngineState, storageOk: bool)
    ensures Saved(s, storageOk).0.storage != s.storage ==>
      s.gameState == Playing && !s.isNavigating && storageOk
    ensures Saved(s, storageOk).1.None? <==> s.gameState != Playing || s.isNavigating
  {
  }

  /** `loadGame`; a snapshot without settings fails like unreadable text. */
  function Loaded(s: EngineState, envApiKey: string): EngineState
  {
    match s.storage
    case None => s.(alerts := s.alerts + [I18n.Translate("noSaveFile", s.lang, None)])
    case Some(slot) =>
      if slot.Unreadable? || slot.gameSetup.None? then
        s.(alerts := s.alerts + [I18n.Translate("loadFailedCorrupt", s.lang, None)], storage := None)
      else if ApiKey(slot.gameSetup.value.apiKey, envApiKey) == "" then
        s.(alerts := s.alerts + [I18n.Translate("loadFailedNoApiKey", slot.lang, None)])
      else
        s.(hasClient := true, gameState := slot.gameState, playerState := slot.playerState,
           currentChoices := slot.currentChoices, dialogueHistory := slot.dialogueHistory,
           storyHistory := slot.storyHistory, currentPage := slot.currentPage,
           gameSetup := slot.gameSetup, model := slot.model, lang := slot.lang, isTyping := true)
  }

  /**
   * Loading what was just saved restores every saved field, in a state whose
   * settings carry a key (or with a key in the environment); typing restarts.
   */
  lemma SaveLoadRoundTrip(s: EngineState, envApiKey: string)
    requires s.gameState == Playing && !s.isNavigating
    requires s.gameSetup.Some? && ApiKey(s.gameSetup.value.apiKey, envApiKey) != ""
    ensures var r := Loaded(Saved(s, true).0, envApiKey);
      && r.gameState == s.gameState && r.playerState == s.playerState
      && r.currentChoices == s.currentChoices && r.dialogueHistory == s.dialogueHistory
      && r.storyHistory == s.storyHistory && r.currentPage == s.currentPage
      && r.gameSetup == s.gameSetup && r.model == s.model && r.lang == s.lang
      && r.hasClient && r.isTyping && r.alerts == s.alerts
  {
  }

  /** A game state saved while the page was in range loads with the page in range. */
  lemma LoadKeepsPageInRange(s: EngineState, envApiKey: string)
    requires PageInRange(s)
    requires s.storage.Some? && s.storage.value.Snapshot? ==>
      0 <= s.storage.value.currentPage < |Pages(s.storage.value.dialogueHistory)|
    ensures PageInRange(Loaded(s, envApiKey))
  {
  }

  // ---------------------------------------------------------------------------
  // The controller with its fields updated in place

  /**
   * The controller as the page holds it: one field per piece of React state.
   * Every change goes through the setter of one field, as in the hook, and
   * each handler is proved to perform its transition on `State()`.
   */
  class Engine {
    var gameState: GameState
    var playerState: Option<PlayerState>
    var currentChoices: seq<Choice>
    var dialogueHistory: seq<string>
    var storyHistory: seq<Content>
    var currentPage: int
    var isTyping: bool
    var isNavigating: bool
    var gameSetup: Option<GameSetup>
    var model: ModelId
    var lastRequest: Option<seq<Content>>
    var pendingSetupUpdate: Option<GameSetup>
    var storyDirection: string
    var lang: Language
    var hasClient: bool
    var storage: Option<SaveSlot>
    var alerts: seq<string>

    function State(): EngineState
      reads this
    {
      EngineState(gameState, playerState, currentChoices, dialogueHistory, storyHistory, currentPage,
                  isTyping, isNavigating, gameSetup, model, lastRequest, pendingSetupUpdate,
                  storyDirection, lang, hasClient, storage, alerts)
    }

    constructor (storage: Option<SaveSlot>)
      ensures State() == Initial(storage)
    {
      gameState := Setup;
      playerState := None;
      currentChoices := [];
      dialogueHistory := [];
      storyHistory := [];
      currentPage := 0;
      isTyping := false;
      isNavigating := false;
      gameSetup := None;
      model := Flash;
      lastRequest := None;
      pendingSetupUpdate := None;
      storyDirection := "";
      lang := Ko;
      hasClient := false;
      this.storage := storage;
      alerts := [];
    }

    /** The choices handed to the screen. */
    function Choices(): seq<Choice>
      reads this
    {
      VisibleChoices(State())
    }

    // The state setters.

    method SetGameState(v: GameState)
      modifies this
      ensures State() == old(State()).(gameState := v)
    {
      gameState := v;
    }

    method SetPlayerState(v: Option<PlayerState>)
      modifies this
      ensures State() == old(State()).(playerState := v)
    {
      playerState := v;
    }

    method SetCurrentChoices(v: seq<Choice>)
      modifies this
      ensures State() == old(State()).(currentChoices := v)
    {
      currentChoices := v;
    }

    method SetDialogueHistory(v: seq<string>)
      modifies this
      ensures State() == old(State()).(dialogueHistory := v)
    {
      dialogueHistory := v;
    }

    method SetStoryHistory(v: seq<Content>)
      modifies this
      ensures State() == old(State()).(storyHistory := v)
    {
      storyHistory := v;
    }

    method SetCurrentPage(v: int)
      modifies this
      ensures State() == old(State()).(currentPage := v)
    {
      currentPage := v;
    }

    method SetIsTyping(v: bool)
      modifies this
      ensures State() == old(State()).(isTyping := v)
    {
      isTyping := v;
    }

    method SetIsNavigating(v: bool)
      modifies this
      ensures State() == old(State()).(isNavigating := v)
    {
      isNavigating := v;
    }

    method SetGameSetup(v: Option<GameSetup>)
      modifies this
      ensures State() == old(State()).(gameSetup := v)
    {
      gameSetup := v;
    }

    method SetModel(v: ModelId)
      modifies this
      ensures State() == old(State()).(model := v)
    {
      model := v;
    }

    method SetLastRequest(v: Option<seq<Content>>)
      modifies this
      ensures State() == old(State()).(lastRequest := v)
    {
      lastRequest := v;
    }

    method SetPendingSetupUpdate(v: Option<GameSetup>)
      modifies this
      ensures State() == old(State()).(pendingSetupUpdate := v)
    {
      pendingSetupUpdate := v;
    }

    method SetStoryDirection(v: string)
      modifies this
      ensures State() == old(State()).(storyDirection := v)
    {
      storyDirection := v;
    }

    method SetLang(v: Language)
      modifies this
      ensures State() == old(State()).(lang := v)
    {
      lang := v;
    }

    /** `setAi` with a new client. */
    method SetClient()
      modifies this
      ensures State() == old(State()).(hasClient := true)
    {
      hasClient := true;
    }

    /** Writing or removing the save slot. */
    method SetStorage(v: Option<SaveSlot>)
      modifies this
      ensures State() == old(State()).(storage := v)
    {
      storage := v;
    }

    method Alert(message: string)
      modifies this
      ensures State() == old(State()).(alerts := old(alerts) + [message])
    {
      alerts := alerts + [message];
    }

    // The handlers.

    /** `customSetCurrentPage`, handed to the screen as `setCurrentPage`. */
    method CustomSetCurrentPage(page: int)
      modifies this
      ensures State() == PageSet(old(State()), page)
    {
      if page != currentPage {
        SetIsTyping(true);
      }
      SetCurrentPage(page);
    }

    method UpdateGameSetup(setup: GameSetup)
      modifies this
      ensures State() == old(State()).(pendingSetupUpdate := Some(setup))
    {
      SetPendingSetupUpdate(Some(setup));
    }

    method ChangeModel(m: ModelId)
      requires pendingSetupUpdate.Some?
      modifies this
      ensures State() == ModelChanged(old(State()), m)
    {
      SetModel(m);
      SetPendingSetupUpdate(Some(pendingSetupUpdate.value.(model := m)));
    }

    /**
     * The save button of the settings dialog: the edited settings are staged,
     * the model switches to theirs at once, and the direction is stored.
     * Staging first is what gives `changeModel` its pending settings.
     */
    method SaveSettings(setup: GameSetup, direction: string)
      modifies this
      ensures State() == old(State()).(pendingSetupUpdate := Some(setup), model := setup.model,
                                       storyDirection := direction)
    {
      UpdateGameSetup(setup);
      ChangeModel(setup.model);
      SetStoryDirection(direction);
    }

    /** The start of `callAI`, with a client at hand. */
    method CallAI(history: seq<Content>)
      modifies this
      ensures State() == Called(old(State()), history)
    {
      SetIsNavigating(true);
      SetCurrentChoices([]);
      SetLastRequest(Some(history));
    }

    /** The failure branch of `processAIResponse`. */
    method FailResponse()
      modifies this
      ensures State() == ResponseFailed(old(State()))
    {
      SetDialogueHistory(dialogueHistory + [ParseErrorLine]);
      SetCurrentChoices([RetryChoice()]);
    }

    method ApplyPlayerState(raw: RawPlayerState, choices: seq<Choice>, parseFloat: string -> Option<real>)
      modifies this
      ensures State() == Converted(old(State()), raw, choices, parseFloat)
    {
      var stats := ConvertStats(raw.stats, parseFloat);
      var items := ConvertItems(raw.itemDescriptions);
      SetPlayerState(Some(PlayerState(stats, raw.inventory, items, raw.currentLocation, raw.day, raw.timeOfDay)));
      SetCurrentChoices(choices);
    }

    method ShowScene(text: string, dialogue: seq<string>, isEnding: bool)
      modifies this
      ensures State() == Scene(old(State()), text, dialogue, isEnding)
    {
      var previous := dialogueHistory;
      SetDialogueHistory(previous + [Join(dialogue, "\n\n")]);
      SetCurrentPage(|previous|);
      SetIsTyping(true);
      if isEnding {
        SetGameState(Ended);
        SetStorage(None);
      }
      SetStoryHistory(storyHistory + [Content(Model, text)]);
    }

    method ProcessAIResponse(text: string, parsed: Option<Envelope>, parseFloat: string -> Option<real>)
      modifies this
      ensures State() == Responded(old(State()), text, parsed, parseFloat)
    {
      SetLastRequest(None);
      if parsed.None? || parsed.value.playerState.None? {
        FailResponse();
        return;
      }
      var env := parsed.value;
      ApplyPlayerState(env.playerState.value, env.choices, parseFloat);
      if env.dialogue.None? {
        FailResponse();
        return;
      }
      ShowScene(text, env.dialogue.value, env.isEnding);
    }

    /** The end of `callAI`: the reply (or the failure) is handled, then navigation stops. */
    method ReceiveReply(reply: Reply, parseFloat: string -> Option<real>)
      modifies this
      ensures State() == Received(old(State()), reply, parseFloat)
    {
      match reply {
        case TransportFailure =>
          SetDialogueHistory(dialogueHistory + [ConnectErrorLine]);
          SetCurrentChoices([RetryChoice()]);
        case Delivered(text, parsed) =>
          ProcessAIResponse(text, parsed, parseFloat);
      }
      SetIsNavigating(false);
    }

    method StartGame(setup: GameSetup, envApiKey: string)
      modifies this
      ensures State() == Started(old(State()), setup, envApiKey)
    {
      SetStorage(None);
      if ApiKey(setup.apiKey, envApiKey) == "" {
        Alert(I18n.Translate("apiKeyNotSet", setup.lang, None));
        return;
      }
      SetGameSetup(Some(setup));
      SetModel(setup.model);
      SetLang(setup.lang);
      SetClient();
      SetGameState(Playing);
      SetDialogueHistory([]);
      SetStoryHistory([]);
      SetCurrentPage(0);
      var initialHistory := [Content(User, InitialPrompt(setup))];
      SetStoryHistory(initialHistory);
      CallAI(initialHistory);
    }

    /** The pending settings change and direction are turned into notes and cleared. */
    method TakeNotes() returns (notes: seq<string>)
      modifies this
      ensures notes == Notes(old(pendingSetupUpdate), old(storyDirection))
      ensures State() == old(State()).(gameSetup := if old(pendingSetupUpdate).Some? then old(pendingSetupUpdate)
        else old(gameSetup), pendingSetupUpdate := None, storyDirection := "")
    {
      notes := [];
      if pendingSetupUpdate.Some? {
        notes := notes + [SetupNote(pendingSetupUpdate.value)];
        SetGameSetup(pendingSetupUpdate);
        SetPendingSetupUpdate(None);
      }
      if storyDirection != "" {
        notes := notes + [DirectionNote(storyDirection)];
        SetStoryDirection("");
      }
    }

    /** The transcript sent for a choice: notes and prompt injected, then compacted above the limit. */
    method HistoryForApi(currentStoryHistory: seq<Content>, gameMasterNotes: seq<string>, prompt: string,
                         summarize: seq<Content> -> Option<string>) returns (historyForApi: seq<Content>)
      ensures historyForApi == NextHistory(currentStoryHistory, gameMasterNotes, prompt, summarize, lang)
    {
      var fullHistory := currentStoryHistory;
      if |gameMasterNotes| > 0 {
        fullHistory := fullHistory + [Content(User, GameMasterLog(gameMasterNotes))];
        fullHistory := fullHistory + [Content(Model, PlaceholderReply)];
      }
      fullHistory := fullHistory + [Content(User, prompt)];
      assert fullHistory == Assemble(currentStoryHistory, gameMasterNotes, prompt);
      historyForApi := fullHistory;
      if |fullHistory| > HistoryLimit {
        var summary := SummaryText(summarize(currentStoryHistory));
        historyForApi := [SummaryTurn(summary), Content(Model, Acknowledgement(lang)), fullHistory[|fullHistory| - 1]];
      }
    }

    method ExecuteChoice(prompt: string, currentStoryHistory: seq<Content>,
                         summarize: seq<Content> -> Option<string>)
      requires currentStoryHistory == storyHistory
      modifies this
      ensures State() == Chose(old(State()), prompt, summarize)
    {
      var gameMasterNotes := TakeNotes();
      var historyForApi := HistoryForApi(currentStoryHistory, gameMasterNotes, prompt, summarize);
      SetStoryHistory(historyForApi);
      CallAI(historyForApi);
    }

    method HandleChoice(choice: Choice, roll: nat, summarize: seq<Content> -> Option<string>,
                        showNumber: real -> string)
      modifies this
      ensures State() == Handled(old(State()), choice, roll, summarize, showNumber)
    {
      if isTyping || !hasClient || isNavigating {
        return;
      }
      var prompt := ChoicePrompt(State(), choice, roll, showNumber);
      SetIsTyping(false);
      if choice.text == RetryText && lastRequest.Some? {
        CallAI(lastRequest.value);
        return;
      }
      ExecuteChoice(prompt, storyHistory, summarize);
    }

    /** The latest summary in the transcript, searched from the end. */
    method GetCurrentSummary() returns (summary: string)
      ensures summary == LatestSummary(storyHistory, lang)
    {
      var i := |storyHistory|;
      assert storyHistory[..i] == storyHistory;
      while i > 0
        invariant 0 <= i <= |storyHistory|
        invariant LatestSummary(storyHistory, lang) == LatestSummary(storyHistory[..i], lang)
      {
        var content := storyHistory[i - 1];
        assert storyHistory[..i][..i - 1] == storyHistory[..i - 1];
        if content.role == User && StartsWith(content.text, SummaryPrefix) {
          return ReplaceFirst(content.text, SummaryPrefix + "\n", "");
        }
        i := i - 1;
      }
      return I18n.Translate("noSummary", lang, None);
    }

    method SaveGame(storageOk: bool) returns (result: Option<bool>)
      modifies this
      ensures (State(), result) == Saved(old(State()), storageOk)
    {
      if gameState != Playing || isNavigating {
        Alert(I18n.Translate("saveOnlyDuringPlay", lang, None));
        return None;
      }
      if storageOk {
        SetStorage(Some(SnapshotOf(State())));
        return Some(true);
      }
      Alert(I18n.Translate("saveFailed", lang, None));
      return Some(false);
    }

    method LoadGame(envApiKey: string)
      modifies this
      ensures State() == Loaded(old(State()), envApiKey)
    {
      if storage.None? {
        Alert(I18n.Translate("noSaveFile", lang, None));
        return;
      }
      var saved := storage.value;
      if saved.Unreadable? || saved.gameSetup.None? {
        Alert(I18n.Translate("loadFailedCorrupt", lang, None));
        SetStorage(None);
        return;
      }
      if ApiKey(saved.gameSetup.value.apiKey, envApiKey) == "" {
        Alert(I18n.Translate("loadFailedNoApiKey", saved.lang, None));
        return;
      }
      SetClient();
      SetGameState(saved.gameState);
      SetPlayerState(saved.playerState);
      SetCurrentChoices(saved.currentChoices);
      SetDialogueHistory(saved.dialogueHistory);
      SetStoryHistory(saved.storyHistory);
      SetCurrentPage(saved.currentPage);
      SetGameSetup(saved.gameSetup);
      SetModel(saved.model);
      SetLang(saved.lang);
      SetIsTyping(true);
    }
  }
}
