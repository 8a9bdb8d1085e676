# AI adventure: a Dafny model of the game core

AI adventure is a browser text adventure. A language model writes each scene
as a JSON reply, and the player answers with one of the offered choices or
with a custom one. This project models the core of that loop and proves
properties of the model.

- **The session controller** (`useGameEngine`). The game's state is the class
  `GameEngine.Engine`, with one field per piece of React state and one setter
  per field. Each handler is a method proved to perform a transition written
  as a function on `EngineState`:
  - starting a game, choosing, and receiving the model's reply;
  - turning pages, staging settings, saving and loading.

  The lemmas are proved about those functions.
- **The transcript bookkeeping** (`Prompts`). This covers the prompt texts and
  the game-master notes injected before the player's turn. It also covers
  compaction above ten turns and the lookup of the latest summary.
- **Normalising the model's player state** (`Responses`). Key/value lists become
  maps, and numeric stat texts become numbers.
- **The translation lookup `t`** (`I18n`). A key falls back to itself, and
  `{name}` placeholders are substituted.
- **The setup form** (`SetupScreen.SetupForm`). It keeps the character lists
  and has the check that gates starting a story.
- **The application shell** (`App`). It chooses the music track for a genre,
  picks the stat shown as health and draws the health bar.
- **The story log offered for download** (`StoryLog`).
- **The typewriter** (`Typewriter`). It splits the text at `<<…>>` highlight
  markers and reveals it one character per tick, resuming after text that was
  already shown.
- **The game screen** (`GameScreen`). This covers the last-page test, the
  screen click, the page arrows, when the choices are shown, and the
  custom-choice send button.

The model takes the outside world as parameters:
- the language-model call: its reply is a `Reply` value, and the summary call is
  a function `summarize`;
- `JSON.parse` of a reply: the `parsed` envelope, or a function `dialogueOf` for
  the log;
- `parseFloat`: a function returning `None` for NaN;
- printing a number: a function `showNumber`;
- `Math.random`: the `roll` parameter;
- the save slot in `localStorage`: the field `storage`;
- whether writing to storage succeeds: `storageOk`;
- the `API_KEY` environment variable: `envApiKey`.

An alert is recorded by appending its message to `alerts`.

Strings are sequences of characters. Each JavaScript string function used is
written out in `Text`: `indexOf`, `replace` with a string pattern and its `$`
replacement patterns, `trim`, `toLowerCase` and `join`.

## Model

| member | source | states |
|---|---|---|
| Text.IndexOfFrom | lib/i18n.ts:110 | `indexOf` finds the first occurrence at or after the start, and none comes before it |
| Text.Trim | components/GameScreen.tsx:24-25 | `trim` leaves no whitespace at either end; the result is empty exactly when the text is all whitespace |
| Text.TrimSlice | components/GameScreen.tsx:24-25 | the trimmed text is a slice of the text with only whitespace before and after it |
| Text.SubstitutionPlain | lib/i18n.ts:110 | a replacement without `$` is inserted as it is |
| Text.SubstitutionPatterns | lib/i18n.ts:110 | `$&` inserts the matched text, `$$` a single `$`, and `` $` `` and `$'` the text before and after the match |
| Text.ReplaceFirstAt | lib/i18n.ts:110 | `replace` with a string pattern changes only the first occurrence, by the replacement with its `$` patterns expanded |
| Text.ToLower | App.tsx:181 | lower-casing keeps the length and maps each character |
| I18n.T | lib/i18n.ts:106-114 | the loop of `t` computes `Translate`: the lookup with fallback to the key, then each option substituted in turn |
| I18n.TableComplete | lib/i18n.ts:3-104 | every one of the table's 82 rows has a non-empty string for each of the three languages |
| I18n.KnownKey | lib/i18n.ts:107 | a known key is translated to its row's string for the language |
| I18n.UnknownKey | lib/i18n.ts:107 | an unknown key comes back as it is |
| I18n.SubstituteOne | lib/i18n.ts:109-111 | a single option is one first-occurrence replacement of `{name}` |
| I18n.SubstituteFirstOnly | lib/i18n.ts:110 | only the first occurrence of a placeholder is replaced, by the value with `replace`'s `$` patterns expanded; text before and after is kept; a value without `$` goes in as it is |
| I18n.AbsentPlaceholder | lib/i18n.ts:110 | an option whose placeholder does not occur changes nothing |
| I18n.SubstituteInTemplate | lib/i18n.ts:110 | with no `{` before it, the placeholder is replaced by the rendered value, its `$` patterns expanded |
| I18n.NumberHasNoDollar | lib/i18n.ts:110 | a number's rendering holds no `$`, so it is inserted as it is |
| I18n.MatchedTextPattern | lib/i18n.ts:110 | a string value `$&` puts back the placeholder it replaces |
| I18n.CharacterLabel | lib/i18n.ts:40 | the English label of character n is "Character n Name" |
| SetupScreen.ResizedContents | components/SetupScreen.tsx:60-61 | resizing keeps the first entries and pads with empty strings |
| SetupScreen.CanStartIff | components/SetupScreen.tsx:78-85 | a story can start exactly when every field, name and description has a non-space character and both lists have `numCharacters` entries |
| SetupScreen.SetupForm.constructor | components/SetupScreen.tsx:47-56 | the form starts empty, with one character |
| SetupScreen.SetupForm.ChangeLanguage | components/SetupScreen.tsx:112-113 | choosing a language changes only the language: every typed field, the character count and both lists stay as they were |
| SetupScreen.SetupForm.HandleNumCharactersChange | components/SetupScreen.tsx:58-64 | the count changes; both lists are resized to it; nothing else changes |
| SetupScreen.SetupForm.HandleCharacterNameChange | components/SetupScreen.tsx:66-70 | only the name at the index changes |
| SetupScreen.SetupForm.HandleCharacterDescriptionChange | components/SetupScreen.tsx:72-76 | only the description at the index changes |
| SetupScreen.SetupForm.HandleStart | components/SetupScreen.tsx:87-93 | starts with the form's settings exactly when `canStart`, else the fill-all-fields alert |
| Responses.StatValueOf | hooks/useGameEngine.ts:152-153 | a stat becomes a number exactly when it parses, and otherwise keeps its text |
| Responses.StatsDomain | hooks/useGameEngine.ts:149-156 | a key is among the stats exactly when some entry with a non-empty key and a defined value has it |
| Responses.StatsLastWins | hooks/useGameEngine.ts:153 | the last kept entry for a key gives its value |
| Responses.ItemsDomain | hooks/useGameEngine.ts:159-165 | a key is among the items exactly when an entry with non-empty key and value has it |
| Responses.ItemsLastWins | hooks/useGameEngine.ts:162 | the last kept entry for a key gives its description |
| Responses.ConvertStats | hooks/useGameEngine.ts:148-156 | the loop builds the stats map; no array gives an empty map |
| Responses.ConvertItems | hooks/useGameEngine.ts:158-165 | the loop builds the items map; no array gives an empty map |
| Prompts.SystemInstruction | hooks/useGameEngine.ts:30-35 | a custom instruction is appended under its heading when non-empty; otherwise the base text is unchanged |
| Prompts.InitialPromptCarriesSetup | hooks/useGameEngine.ts:277-284 | the first prompt contains the genre, persona, background and introduction |
| Prompts.Notes | hooks/useGameEngine.ts:301-310 | one note for a pending settings change and one for a non-empty direction |
| Prompts.InjectionShape | hooks/useGameEngine.ts:312-319 | with notes, exactly a note turn and a placeholder model turn come before the player's turn; without, only the player's turn is added |
| Prompts.Compaction | hooks/useGameEngine.ts:321-341 | above ten turns the transcript is exactly summary, acknowledgement, player's turn; otherwise it is the assembled one; the player's turn is last and at most ten remain |
| Prompts.CompactsFromTen | hooks/useGameEngine.ts:323-324 | a transcript of ten turns or more is always compacted to three |
| Prompts.AppendAlternates | hooks/useGameEngine.ts:314-319 | appending a turn of the other role keeps user and model turns alternating |
| Prompts.AssembleAlternates | hooks/useGameEngine.ts:312-319 | injection after a model turn keeps the alternation |
| Prompts.NextHistoryAlternates | hooks/useGameEngine.ts:297-341 | a choice after a model turn leaves an alternating transcript |
| Prompts.UserAfterUserBreaksAlternation | hooks/useGameEngine.ts:297-341 | after a trailing user turn, a choice without compaction leaves two user turns in a row |
| Prompts.LatestSummaryIsLast | hooks/useGameEngine.ts:414-423 | the summary found is that of the last summary turn; with none, the no-summary text |
| Prompts.StripSummaryTurn | hooks/useGameEngine.ts:414-423 | a stored summary turn gives back exactly its summary |
| Prompts.CompactedSummary | hooks/useGameEngine.ts:329-338 | after compaction the lookup returns the stored summary |
| Prompts.SkillCheckExtremes | hooks/useGameEngine.ts:358-359 | a chance of 100 or more always succeeds; 0 or less always fails |
| Prompts.SuccessfulRollsMatchChance | hooks/useGameEngine.ts:358-359 | of the rolls 1..100, exactly the clamped chance succeed |
| Prompts.PromptsAreNotSummaries | hooks/useGameEngine.ts:364-366 | no choice prompt starts with the summary prefix |
| GameEngine.Pages | hooks/useGameEngine.ts:137-140 | one page per dialogue block, or a single empty page |
| GameEngine.VisibleChoices | hooks/useGameEngine.ts:486-494 | choices are handed out exactly when not typing, not navigating, some exist and the last page shows |
| GameEngine.PageTurnHidesChoices | hooks/useGameEngine.ts:425-430 | moving to another page restarts typing and hides the choices |
| GameEngine.WellFormedReply | hooks/useGameEngine.ts:142-188 | a full reply adds one dialogue block and turns to it, stores the normalised player state and choices, appends one model turn, and ends the game when told |
| GameEngine.MalformedReply | hooks/useGameEngine.ts:142-195 | a reply that does not parse leaves player state and transcript, adds one error line, offers only Retry, and drops the request |
| GameEngine.ReplyWithoutDialogue | hooks/useGameEngine.ts:142-195 | without dialogue the player state is still replaced before the failure |
| GameEngine.ReceivedKeepsPageInRange | hooks/useGameEngine.ts:142-196 | any reply keeps the page in range and ends navigation |
| GameEngine.TransportFailureKeepsRequest | hooks/useGameEngine.ts:242-246 | a failed call keeps the request for Retry and adds the connection error line |
| GameEngine.StartGameOutcome | hooks/useGameEngine.ts:252-295 | without a key, only the save is cleared and an alert shown; with one, playing starts with the first prompt as transcript and request |
| GameEngine.ChoiceIgnoredWhileBusy | hooks/useGameEngine.ts:347 | typing, navigating or no client: a choice changes nothing |
| GameEngine.RetryResends | hooks/useGameEngine.ts:350-353 | Retry with a remembered request resends it and leaves the transcript |
| GameEngine.ChoiceSendsStoredHistory | hooks/useGameEngine.ts:297-374 | any other choice clears the pending items, applies the staged settings, and sends exactly the stored transcript of at most ten turns ending in the prompt |
| GameEngine.RetryAfterMalformedReply | hooks/useGameEngine.ts:142-195 | after a malformed reply, Retry is sent as an ordinary choice and breaks the alternation |
| StoryLog.SkillCheckChoiceLogged | hooks/useGameEngine.ts:357-364 | the prompt `handleChoice` writes for a skill-check choice is logged as an "[ACTION]" line with the choice's text and, in Korean and English, the translated "succeeded" exactly when the roll is at most the chance and "failed" otherwise (the choice's text holding no double quote and the roll report occurring once) |
| StoryLog.SkillCheckChoiceLoggedInEnglish | hooks/useGameEngine.ts:357-364 | in English that line ends in "(succeeded)" exactly when the roll is at most the chance, and "(failed)" otherwise |
| GameEngine.SaveOnlyDuringPlay | hooks/useGameEngine.ts:432-449 | nothing is saved unless playing and idle; no result exactly then |
| GameEngine.SaveLoadRoundTrip | hooks/useGameEngine.ts:436-478 | loading what was just saved restores every saved field and restarts typing |
| GameEngine.LoadKeepsPageInRange | hooks/useGameEngine.ts:451-484 | loading a snapshot whose page was in range keeps the page in range |
| GameEngine.Engine.constructor | hooks/useGameEngine.ts:114-134 | the initial state |
| GameEngine.Engine.CustomSetCurrentPage | hooks/useGameEngine.ts:425-430 | performs `PageSet` |
| GameEngine.Engine.UpdateGameSetup | hooks/useGameEngine.ts:410-412 | stages the settings; nothing else changes |
| GameEngine.Engine.ChangeModel | hooks/useGameEngine.ts:405-408 | the model changes now and in the staged settings |
| GameEngine.Engine.SaveSettings | components/SettingsModal.tsx:69-74 | staged settings, their model and the direction are stored; nothing else changes |
| GameEngine.Engine.CallAI | hooks/useGameEngine.ts:226-228 | navigating, no choices, the request remembered |
| GameEngine.Engine.FailResponse | hooks/useGameEngine.ts:190-195 | one error line and the Retry choice |
| GameEngine.Engine.ApplyPlayerState | hooks/useGameEngine.ts:148-174 | stores the normalised player state and the choices |
| GameEngine.Engine.ShowScene | hooks/useGameEngine.ts:176-188 | appends and shows the dialogue block, ends the game when told, appends the model turn |
| GameEngine.Engine.ProcessAIResponse | hooks/useGameEngine.ts:142-196 | performs `Responded` |
| GameEngine.Engine.ReceiveReply | hooks/useGameEngine.ts:241-249 | performs `Received` |
| GameEngine.Engine.StartGame | hooks/useGameEngine.ts:252-295 | performs `Started` |
| GameEngine.Engine.TakeNotes | hooks/useGameEngine.ts:301-310 | returns the notes and clears what they came from |
| GameEngine.Engine.HistoryForApi | hooks/useGameEngine.ts:298-341 | the loop-free assembly and compaction compute `NextHistory` |
| GameEngine.Engine.ExecuteChoice | hooks/useGameEngine.ts:297-344 | performs `Chose` |
| GameEngine.Engine.HandleChoice | hooks/useGameEngine.ts:346-376 | performs `Handled` |
| GameEngine.Engine.GetCurrentSummary | hooks/useGameEngine.ts:414-423 | the backward search returns `LatestSummary` |
| GameEngine.Engine.SaveGame | hooks/useGameEngine.ts:432-449 | performs `Saved` and returns its result |
| GameEngine.Engine.LoadGame | hooks/useGameEngine.ts:451-484 | performs `Loaded` |
| App.ToLowerIdempotent | App.tsx:181 | lower-casing twice is lower-casing once |
| App.ToLowerConcat | App.tsx:181 | lower-casing distributes over concatenation |
| App.GenreIgnoresCase | App.tsx:180-186 | the track does not depend on letter case |
| App.FantasyComesFirst | App.tsx:182 | a genre mentioning fantasy in any case plays the fantasy track |
| App.ScienceFictionBeforeHorror | App.tsx:183 | without fantasy, a science-fiction keyword beats horror |
| App.DefaultTrackIff | App.tsx:180-186 | the default track plays exactly when none of the six keywords occurs |
| App.FirstTruthyIsFirst | App.tsx:69 | the header health is the first truthy candidate stat, else 0 |
| App.HealthBarFillsPrefix | App.tsx:24-27 | a health in (k-1, k] fills exactly the first k segments |
| App.TextHealthShowsEmptyBar | App.tsx:18-69 | a text health stat wins the header and shows an empty bar |
| StoryLog.StripMarkers | App.tsx:221 | the marker removal never lengthens the text |
| StoryLog.StripPlainPrefix | App.tsx:221 | text without angle brackets passes through the removal |
| StoryLog.PlainUnchanged | App.tsx:221 | text without angle brackets is unchanged |
| StoryLog.StripHighlight | App.tsx:221 | `<<name>>` in plain text is reduced to the name |
| StoryLog.SinglePassLeavesMarker | App.tsx:221 | one pass: `<>><` becomes `<<` |
| StoryLog.DigitsEnd | App.tsx:230 | `\d+` ends at the first non-digit |
| StoryLog.DownloadLog | App.tsx:213-246 | the loop over the transcript computes `StoryText` |
| StoryLog.LogLinesAppend | App.tsx:216-243 | the log of a longer transcript extends the log of its beginning |
| StoryLog.UnparsedModelTurnSkipped | App.tsx:218-226 | a model turn that does not parse adds no line |
| StoryLog.PlaceholderTurnLogged | App.tsx:218-222 | the placeholder reply after a game-master note shows as a "..." line |
| StoryLog.QuotedAtStart | App.tsx:231-238 | the capture `([^"]*)"` right after the opening is the text up to the next quote |
| StoryLog.OrdinaryChoiceLogged | App.tsx:237-241 | an ordinary choice is logged as a [CHOICE] line with its text, not at all when the text is empty |
| StoryLog.OutcomeWordFound | App.tsx:230 | each of the four outcome words followed by a full stop is recognised |
| StoryLog.ForeignWordIgnored | App.tsx:230 | a word starting otherwise is not recognised |
| StoryLog.OutcomeSkips | App.tsx:230 | positions without a match are passed over |
| StoryLog.RollReport | App.tsx:230 | at a roll report, the match reads the word after the digits |
| StoryLog.OnlyRollReport | App.tsx:230 | with one roll report, the leftmost match is there |
| StoryLog.SkillCheckAttempt | App.tsx:228-231 | a skill-check prompt is recognised and its unquoted attempt is captured |
| StoryLog.OutcomeTranslations | lib/i18n.ts:11-12 | Korean and English outcomes are among the recognised words; Japanese ones are not |
| StoryLog.LoggedOutcome | App.tsx:230-233 | the outcome read from a skill-check prompt is the engine's outcome when recognised, none otherwise |
| StoryLog.SkillCheckLogged | App.tsx:228-235 | a skill-check prompt is logged as an [ACTION] line with the attempt and, except in Japanese, the outcome |
| Typewriter.CloseFrom | components/Typewriter.tsx:12 | the lazy `.*?>>` ends at the first `>>` with no line terminator before it |
| Typewriter.CloseFound | components/Typewriter.tsx:12 | a `>>` before any line terminator is always found |
| Typewriter.MatchIsMarker | components/Typewriter.tsx:12 | every match starts with `<<`, ends at its first `>>`, and spans no line terminator |
| Typewriter.SplitAlternates | components/Typewriter.tsx:12 | the split gives an odd number of parts with a marker at every odd index |
| Typewriter.SplitRoundTrip | components/Typewriter.tsx:12 | the parts concatenate back to the text |
| Typewriter.SplitLeftmost | components/Typewriter.tsx:12 | the first parts are the text before the leftmost match and that match |
| Typewriter.SplitWithoutMarkers | components/Typewriter.tsx:12 | a text without a match is one part |
| Typewriter.ParsePart | components/Typewriter.tsx:13-17 | a part is highlighted exactly when it starts with `<<` and ends with `>>`, and is shown without them |
| Typewriter.ParseRoundTrip | components/Typewriter.tsx:10-19 | the parsed parts, written back, give the text |
| Typewriter.MatchesHighlighted | components/Typewriter.tsx:12-15 | every match is highlighted, its shown text free of line terminators and `>>` |
| Typewriter.SpanningMarkerHighlighted | components/Typewriter.tsx:12-15 | `<<a\nb>>` is not a match but is highlighted all the same |
| Typewriter.ResumePoint | components/Typewriter.tsx:33-36 | the start is the previous text's length exactly when the text extends it, and 0 otherwise |
| Typewriter.TypingStartsAtResumePoint | components/Typewriter.tsx:27-46 | typing shows the text up to the resume point, then ticks from there or finishes at once |
| Typewriter.AlreadyCompleteIff | components/Typewriter.tsx:41-44 | no ticking happens exactly when the text is the remembered one or empty |
| Typewriter.SkipShowsAll | components/Typewriter.tsx:57-67 | when not typing, the whole text is shown and remembered |
| Typewriter.RememberedOnlyWhenIdle | components/Typewriter.tsx:64-68 | the remembered text changes only when not typing |
| Typewriter.TypedConsistent | components/Typewriter.tsx:27-60 | after the effect, what is shown is a prefix of the text |
| Typewriter.TickedConsistent | components/Typewriter.tsx:47-54 | a tick keeps what is shown a prefix |
| Typewriter.UpdatedConsistent | components/Typewriter.tsx:26-68 | new props keep what is shown a prefix |
| Typewriter.RevealOneByOne | components/Typewriter.tsx:46-54 | after k ticks the first start+k characters show; the interval stops at the end with exactly one finish |
| Typewriter.FinishedOnce | components/Typewriter.tsx:50-53 | more ticks after the end change nothing, so the finish is never repeated |
| Typewriter.ExtensionResumes | components/Typewriter.tsx:31-36 | dialogue added to a fully shown page is revealed from the old end |
| Typewriter.Typewriter.constructor | components/Typewriter.tsx:22-68 | the first render runs both effects |
| Typewriter.Typewriter.TypingEffect | components/Typewriter.tsx:26-61 | performs `Typed` |
| Typewriter.Typewriter.Tick | components/Typewriter.tsx:47-54 | performs `Ticked` and keeps the invariant |
| Typewriter.Typewriter.RememberEffect | components/Typewriter.tsx:64-68 | performs `Remembered` |
| Typewriter.Typewriter.Update | components/Typewriter.tsx:26-68 | performs `Updated` and keeps the invariant |
| GameScreen.LastPageIff | components/GameScreen.tsx:66 | in range, the last page is the one with no next page, as the engine's own test says |
| GameScreen.ScreenAgreesWithEngine | components/GameScreen.tsx:106 | the screen shows choices exactly when the engine offers them |
| GameScreen.ClickWhileTypingFinishes | components/GameScreen.tsx:69-72 | a click while typing only finishes typing |
| GameScreen.ClickTurnsOnePage | components/GameScreen.tsx:74-83 | on the last page, or with choices shown, a click does nothing; otherwise it turns exactly one page and starts typing |
| GameScreen.NavigationKeepsPageInRange | components/GameScreen.tsx:68-98 | clicks and arrows keep the page in range |
| GameScreen.ArrowsAreInverse | components/GameScreen.tsx:86-98 | the arrows move one page within bounds and undo each other |
| GameScreen.CustomChoice | components/GameScreen.tsx:23-27 | a custom choice is sent exactly when the text is not blank |
| GameScreen.TrimIdempotent | components/GameScreen.tsx:24-25 | trimming twice is trimming once |
| GameScreen.CustomChoiceTrimmed | components/GameScreen.tsx:23-27 | the choice carries only the trimmed text; sending it again gives the same choice |
| GameScreen.CustomRetryIsRetry | components/GameScreen.tsx:100-101 | a custom choice reading Retry once trimmed is the Retry choice |
| GameScreen.Screen.TypingFinished | App.tsx:158-160 | `onTypingFinished` stops typing; nothing else changes |
| GameScreen.Screen.HandleScreenClick | components/GameScreen.tsx:68-84 | performs `Clicked` |
| GameScreen.Screen.HandlePrevPage | components/GameScreen.tsx:86-91 | performs `PrevPaged` |
| GameScreen.Screen.HandleNextPage | components/GameScreen.tsx:93-98 | performs `NextPaged` |
| GameScreen.Screen.SendCustomChoice | components/GameScreen.tsx:100-103 | a blank text changes nothing; any other is handled as the custom choice and the box closes |

## Left out

- Debug mode is left out: `isDebugMode`, `debugPrompt`, `confirmSendPrompt` and `cancelDebug`. It is a developer tool that only holds a prompt for editing. The model follows the branches taken outside debug mode.
- The language-model calls, the client object, the response schema, the temperature and the text of the system instruction are not modelled. Replies and summaries are parameters. Only the appending of a custom instruction is modelled.
- The `!aiInstance` branch of `callAI` is not modelled. Every call site passes a client, so that branch cannot run.
- The summarisation prompt is not modelled. `summarize` returns a summary or fails, and a failure becomes "Failed to generate summary.".
- JSON (de)serialisation, `localStorage`, the download blob and the audio player are not modelled. They are browser I/O. A save slot is a snapshot, or text that does not parse.
- Stale closures are not modelled. Handlers read the latest state, and the model treats each handler as running to completion before the next event. The reply to a call is delivered by a separate `ReceiveReply`, so no handler runs in the middle of another.
- The `speed` prop and the interval timing are not modelled. Only the order of ticks is. `onFinished` is the engine's `setIsTyping(false)`, which is stable across renders (App.tsx:158-160), so the effect re-runs only when the text or the typing flag changes.
- The rendering of highlighted parts (CSS classes) is not modelled; only the parts are.
- Strings are sequences of Unicode characters, not UTF-16 code units. `toLowerCase` is modelled for ASCII letters only.
- Numbers in stats and template literals are not modelled as floating point. `parseFloat` and the printing of numbers are parameters, and NaN is not a stat value.
- GameEngine.Engine.ChangeModel requires a staged settings change. In the source it spreads `prev!`, and its only caller, `SaveSettings` (components/SettingsModal.tsx:69-74), stages one just before. Without one, JavaScript would stage a settings object holding only the model.
- StoryLog.SkillCheckLogged requires that the roll report is the only text of the form ". The player rolled " in the prompt. An attempt text, skill or stat that itself contains that phrase is not covered.
- StoryLog.OrdinaryChoiceLogged and StoryLog.SkillCheckLogged require a choice text without a double quote. With one, the log cuts the text at the quote.
- The transcript keeps only the first text part of each turn. That is the only part the source reads.

Where the code and its description differ, the model follows the code:
- The remembered request is dropped before the reply is parsed. After a malformed reply, "Retry" is therefore sent as an ordinary choice, and the transcript gets two user turns in a row (`GameEngine.RetryAfterMalformedReply`).
- Compaction summarises the transcript from before the notes were injected, and it drops the notes (`Prompts.Compaction`).
- A reply without dialogue stores its player state and choices before it fails (`GameEngine.ReplyWithoutDialogue`).
- `startGame` removes the save before it checks for a key (`GameEngine.StartGameOutcome`). It does not reset the player state, the pending settings or the direction.
- The log does not recognise the Japanese outcome words (`StoryLog.OutcomeTranslations`).
- The marker removal is a single pass (`StoryLog.SinglePassLeavesMarker`).
- The screen remounts the typewriter on every page turn (`key={currentPage}`). The remembered text therefore carries over only while the page stays the same.
