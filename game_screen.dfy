/**
 * The game screen (components/GameScreen.tsx): the last-page test, the
 * screen click and the page arrows that step the engine's current page,
 * when the choices are shown, and the send button of the custom-choice
 * box. The screen's props come from the engine: its pages, its current
 * page, the choices it hands out, and its typing and navigating flags.
 */
module GameScreen {
  import opened Wrappers
  import opened Text
  import opened Types
  import opened GameEngine

  /** `isLastPageOfAllContent`. */
  predicate IsLastPageOfAllContent(pages: seq<seq<string>>, currentPage: int)
  {
    |pages| == 0 || currentPage == |pages| - 1
  }

  /** The last-page test on the engine's own pages. */
  predicate LastPage(s: EngineState)
  {
    IsLastPageOfAllContent(Pages(s.dialogueHistory), s.currentPage)
  }

  /** On a page in range, the last page is the one without a next page. */
  lemma LastPageIff(s: EngineState)
    requires PageInRange(s)
    ensures LastPage(s) <==> s.currentPage + 1 == |Pages(s.dialogueHistory)|
    ensures LastPage(s) <==> OnLastPage(s)
  {
  }

  /** `showChoices`, over the props. */
  predicate ScreenShowsChoices(choices: seq<Choice>, pages: seq<seq<string>>, currentPage: int,
                               isTyping: bool, isNavigating: bool)
  {
    |choices| > 0 && IsLastPageOfAllContent(pages, currentPage) && !isTyping && !isNavigating
  }

  /** The screen shows choices exactly when the engine offers them. */
  lemma ScreenAgreesWithEngine(s: EngineState)
    ensures ScreenShowsChoices(VisibleChoices(s), Pages(s.dialogueHistory), s.currentPage, s.isTyping,
                               s.isNavigating)
            <==> ShowChoices(s)
  {
  }

  /** `handleScreenClick`: finish typing, or turn to the next page unless on the last one. */
  function Clicked(s: EngineState): EngineState
  {
    if s.isTyping then s.(isTyping := false)
    else if |VisibleChoices(s)| > 0 && LastPage(s) then s
    else if LastPage(s) then s
    else PageSet(s, s.currentPage + 1)
  }

  /** `handlePrevPage`. */
  function PrevPaged(s: EngineState): EngineState
  {
    if s.currentPage > 0 then PageSet(s, s.currentPage - 1) else s
  }

  /** `handleNextPage`. */
  function NextPaged(s: EngineState): EngineState
  {
    if !LastPage(s) then PageSet(s, s.currentPage + 1) else s
  }

  /**
   * A click while the page is being typed only completes the typing: the
   * page and everything else stay as they were.
   */
  lemma ClickWhileTypingFinishes(s: EngineState)
    requires s.isTyping
    ensures var r := Clicked(s);
      !r.isTyping && r.currentPage == s.currentPage && r.(isTyping := true) == s
  {
  }

  /**
   * Otherwise a click on the last page, where any choices are, does
   * nothing, and on any other page turns exactly one page forward and
   * starts typing it.
   */
  lemma ClickTurnsOnePage(s: EngineState)
    requires !s.isTyping
    ensures LastPage(s) ==> Clicked(s) == s
    ensures |VisibleChoices(s)| > 0 ==> Clicked(s) == s
    ensures !LastPage(s) ==> Clicked(s) == s.(currentPage := s.currentPage + 1, isTyping := true)
  {
  }

  /** A click, the previous arrow and the next arrow keep the current page in range. */
  lemma NavigationKeepsPageInRange(s: EngineState)
    requires PageInRange(s)
    ensures PageInRange(Clicked(s)) && PageInRange(PrevPaged(s)) && PageInRange(NextPaged(s))
  {
  }

  /** The arrows move one page at a time, and the previous arrow undoes the next arrow. */
  lemma ArrowsAreInverse(s: EngineState)
    requires PageInRange(s)
    ensures NextPaged(s).currentPage == if LastPage(s) then s.currentPage else s.currentPage + 1
    ensures PrevPaged(s).currentPage == if s.currentPage > 0 then s.currentPage - 1 else s.currentPage
    ensures !LastPage(s) ==> PrevPaged(NextPaged(s)).currentPage == s.currentPage
    ensures s.currentPage > 0 ==> NextPaged(PrevPaged(s)).currentPage == s.currentPage
  {
    if s.currentPage > 0 {
      LastPageIff(PrevPaged(s));
    }
  }

  /** The choice sent by the custom-choice box: its trimmed text, when that is not empty. */
  function CustomChoice(text: string): (choice: Option<Choice>)
    ensures choice.Some? <==> !IsBlank(text)
  {
    if Trim(text) != "" then Some(PlainChoice(Trim(text))) else None
  }

  /** Trimming text that has already been trimmed changes nothing. */
  lemma TrimIdempotent(s: string)
    ensures Trim(Trim(s)) == Trim(s)
  {
    var r := Trim(s);
    assert TrimStart(r) == r;
    assert TrimEnd(r) == r;
  }

  /**
   * A custom choice carries only its trimmed text: no whitespace at either
   * end, no description and no skill check, and sending it again as it
   * stands gives the same choice.
   */
  lemma CustomChoiceTrimmed(text: string)
    requires !IsBlank(text)
    ensures var c := CustomChoice(text).value;
      && c.text != [] && !IsWhitespace(c.text[0]) && !IsWhitespace(c.text[|c.text| - 1])
      && c.description == None && !c.isSkillCheck && c.skill == None
      && CustomChoice(c.text) == Some(c)
  {
    TrimIdempotent(text);
  }

  /** A custom choice that reads "Retry" once trimmed is the retry choice itself. */
  lemma CustomRetryIsRetry(text: string)
    ensures CustomChoice(text) == Some(RetryChoice()) <==> Trim(text) == RetryText
  {
  }

  /**
   * The screen's own state, whether the custom-choice box is open, with the
   * engine whose state its props show.
   */
  class Screen {
    const engine: Engine
    var isWritingCustom: bool

    constructor (engine: Engine)
      ensures this.engine == engine && !isWritingCustom
    {
      this.engine := engine;
      isWritingCustom := false;
    }

    /** `onTypingFinished`, as the page passes it. */
    method TypingFinished()
      modifies engine
      ensures engine.State() == old(engine.State()).(isTyping := false)
    {
      engine.SetIsTyping(false);
    }

    method HandleScreenClick()
      modifies engine
      ensures engine.State() == Clicked(old(engine.State()))
    {
      if engine.isTyping {
        TypingFinished();
        return;
      }
      var pages := Pages(engine.dialogueHistory);
      var isLastPageOfAllContent := IsLastPageOfAllContent(pages, engine.currentPage);
      if |engine.Choices()| > 0 && isLastPageOfAllContent {
        return;
      }
      if !isLastPageOfAllContent {
        engine.CustomSetCurrentPage(engine.currentPage + 1);
      }
    }

    method HandlePrevPage()
      modifies engine
      ensures engine.State() == PrevPaged(old(engine.State()))
    {
      if engine.currentPage > 0 {
        engine.CustomSetCurrentPage(engine.currentPage - 1);
      }
    }

    method HandleNextPage()
      modifies engine
      ensures engine.State() == NextPaged(old(engine.State()))
    {
      if !IsLastPageOfAllContent(Pages(engine.dialogueHistory), engine.currentPage) {
        engine.CustomSetCurrentPage(engine.currentPage + 1);
      }
    }

    /** The button that opens the custom-choice box, and its cancel button. */
    method SetWritingCustom(v: bool)
      modifies this
      ensures isWritingCustom == v
    {
      isWritingCustom := v;
    }

    /**
     * The send button: a text that is blank once trimmed is not sent; any
     * other is handed to `handleChoice` as the custom choice, and the box
     * closes.
     */
    method SendCustomChoice(text: string, roll: nat, summarize: seq<Content> -> Option<string>,
                            showNumber: real -> string)
      modifies this, engine
      ensures CustomChoice(text).None? ==> engine.State() == old(engine.State())
                                           && isWritingCustom == old(isWritingCustom)
      ensures CustomChoice(text).Some? ==>
                engine.State() == Handled(old(engine.State()), CustomChoice(text).value, roll, summarize, showNumber)
                && !isWritingCustom
    {
      var trimmed := Trim(text);
      if trimmed != "" {
        engine.HandleChoice(PlainChoice(trimmed), roll, summarize, showNumber);
        SetWritingCustom(false);
      }
    }
  }
}
