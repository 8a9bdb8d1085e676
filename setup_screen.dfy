/**
 * The setup form (components/SetupScreen.tsx): the parallel lists of
 * character names and descriptions, their resizing and editing, and the
 * check that gates starting a story.
 */
module SetupScreen {
  import opened Wrappers
  import opened Text
  import opened Types
  import I18n

  /** `Array.from({ length: n }, (_, i) => s[i] || '')`: keep what fits, fill the rest with "". */
  function Resized(s: seq<string>, n: nat): seq<string>
  {
    seq(n, i requires 0 <= i < n => if i < |s| then s[i] else "")
  }

  /** Resizing gives exactly `n` entries, keeps those below both lengths and fills new ones with "". */
  lemma ResizedContents(s: seq<string>, n: nat)
    ensures |Resized(s, n)| == n
    ensures n <= |s| ==> Resized(s, n) == s[..n]
    ensures |s| <= n ==> Resized(s, n) == s + seq(n - |s|, _ => "")
  {
  }

  /** The truthiness test of `canStart`, on the form's values. */
  predicate CanStartWith(persona: string, genre: string, intro: string, background: string,
                         numCharacters: int, names: seq<string>, descriptions: seq<string>)
  {
    && Trim(persona) != "" && Trim(genre) != "" && Trim(intro) != "" && Trim(background) != ""
    && |names| == numCharacters && (forall i :: 0 <= i < |names| ==> Trim(names[i]) != "")
    && |descriptions| == numCharacters && (forall i :: 0 <= i < |descriptions| ==> Trim(descriptions[i]) != "")
  }

  /**
   * A story can start exactly when the four text fields and every name and
   * description contain a non-whitespace character and both lists have
   * `numCharacters` entries.
   */
  lemma CanStartIff(persona: string, genre: string, intro: string, background: string,
                    numCharacters: int, names: seq<string>, descriptions: seq<string>)
    ensures CanStartWith(persona, genre, intro, background, numCharacters, names, descriptions) <==>
      && !IsBlank(persona) && !IsBlank(genre) && !IsBlank(intro) && !IsBlank(background)
      && |names| == numCharacters && |descriptions| == numCharacters
      && (forall i :: 0 <= i < numCharacters ==> !IsBlank(names[i]) && !IsBlank(descriptions[i]))
  {
    EveryFilled(names);
    EveryFilled(descriptions);
  }

  /** Every entry has a non-empty trim exactly when no entry is blank. */
  lemma EveryFilled(entries: seq<string>)
    ensures (forall i :: 0 <= i < |entries| ==> Trim(entries[i]) != "") <==>
            (forall i :: 0 <= i < |entries| ==> !IsBlank(entries[i]))
  {
    forall i | 0 <= i < |entries| ensures Trim(entries[i]) != "" <==> !IsBlank(entries[i]) {
    }
  }

  /** What pressing the start button does. */
  datatype StartOutcome = Start(setup: GameSetup) | Alert(message: string)

  /**
   * The form's state slots, and the language the enclosing application
   * passes in, which the language selector changes without resetting them.
   */
  class SetupForm {
    var lang: Language
    var apiKey: string
    var model: ModelId
    var persona: string
    var genre: string
    var intro: string
    var background: string
    var numCharacters: int
    var characterNames: seq<string>
    var characterDescriptions: seq<string>
    var customSystemInstruction: string

    /** Both lists always hold one entry per character. */
    ghost predicate Valid()
      reads this
    {
      |characterNames| == numCharacters && |characterDescriptions| == numCharacters
    }

    constructor (lang: Language)
      ensures Valid() && this.lang == lang
      ensures apiKey == "" && model == Flash && customSystemInstruction == ""
      ensures persona == "" && genre == "" && intro == "" && background == ""
      ensures numCharacters == 1 && characterNames == [""] && characterDescriptions == [""]
    {
      this.lang := lang;
      apiKey, model, customSystemInstruction := "", Flash, "";
      persona, genre, intro, background := "", "", "", "";
      numCharacters, characterNames, characterDescriptions := 1, [""], [""];
    }

    /** The language selector: only the language changes; what was typed stays. */
    method ChangeLanguage(l: Language)
      modifies this
      ensures lang == l
      ensures Valid() <==> old(Valid())
      ensures numCharacters == old(numCharacters)
      ensures characterNames == old(characterNames) && characterDescriptions == old(characterDescriptions)
      ensures apiKey == old(apiKey) && model == old(model) && customSystemInstruction == old(customSystemInstruction)
      ensures persona == old(persona) && genre == old(genre) && intro == old(intro) && background == old(background)
    {
      lang := l;
    }

    /** `handleNumCharactersChange` (the buttons pass 1, 2 or 3). */
    method HandleNumCharactersChange(num: nat)
      modifies this
      ensures Valid() && numCharacters == num
      ensures characterNames == Resized(old(characterNames), num)
      ensures characterDescriptions == Resized(old(characterDescriptions), num)
      ensures apiKey == old(apiKey) && model == old(model) && customSystemInstruction == old(customSystemInstruction)
      ensures persona == old(persona) && genre == old(genre) && intro == old(intro) && background == old(background)
    {
      numCharacters := num;
      characterNames := Resized(characterNames, num);
      characterDescriptions := Resized(characterDescriptions, num);
    }

    /** `handleCharacterNameChange`: the inputs are rendered for the existing indices only. */
    method HandleCharacterNameChange(index: nat, name: string)
      requires Valid() && index < numCharacters
      modifies this
      ensures Valid() && numCharacters == old(numCharacters)
      ensures characterNames == old(characterNames)[index := name]
      ensures characterDescriptions == old(characterDescriptions)
      ensures apiKey == old(apiKey) && model == old(model) && customSystemInstruction == old(customSystemInstruction)
      ensures persona == old(persona) && genre == old(genre) && intro == old(intro) && background == old(background)
    {
      var newNames := characterNames;
      newNames := newNames[index := name];
      characterNames := newNames;
    }

    /** `handleCharacterDescriptionChange`. */
    method HandleCharacterDescriptionChange(index: nat, desc: string)
      requires Valid() && index < numCharacters
      modifies this
      ensures Valid() && numCharacters == old(numCharacters)
      ensures characterDescriptions == old(characterDescriptions)[index := desc]
      ensures characterNames == old(characterNames)
      ensures apiKey == old(apiKey) && model == old(model) && customSystemInstruction == old(customSystemInstruction)
      ensures persona == old(persona) && genre == old(genre) && intro == old(intro) && background == old(background)
    {
      var newDescriptions := characterDescriptions;
      newDescriptions := newDescriptions[index := desc];
      characterDescriptions := newDescriptions;
    }

    /** `canStart`. */
    predicate CanStart()
      reads this
    {
      CanStartWith(persona, genre, intro, background, numCharacters, characterNames, characterDescriptions)
    }

    /** `handleStart`: hand the setup over when the form is complete, otherwise alert. */
    method HandleStart() returns (outcome: StartOutcome)
      ensures outcome.Start? <==> CanStart()
      ensures outcome.Start? ==> outcome.setup == GameSetup(persona, genre, intro, background, numCharacters,
        characterNames, characterDescriptions, model, Some(apiKey), lang, Some(customSystemInstruction))
      ensures outcome.Alert? ==> outcome.message == I18n.Translate("fillAllFieldsError", lang, None)
    {
      if CanStart() {
        outcome := Start(GameSetup(persona, genre, intro, background, numCharacters,
          characterNames, characterDescriptions, model, Some(apiKey), lang, Some(customSystemInstruction)));
      } else {
        outcome := Alert(I18n.Translate("fillAllFieldsError", lang, None));
      }
    }
  }
}
