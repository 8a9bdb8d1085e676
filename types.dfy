/** The game's records (types.ts). */
module Types {
  import opened Wrappers

  /** `Paused` is declared by the game but never entered by any operation. */
  datatype GameState = Setup | Playing | Paused | Ended

  datatype Language = Ko | En | Jp

  datatype ModelId = Flash | Pro

  /** A stat is a number when the model's text parsed as one, otherwise the text itself. */
  datatype StatValue = Num(n: real) | Text(s: string)

  /**
   * The player-visible state. `inventory`, `currentLocation`, `day` and
   * `timeOfDay` are whatever the model sent (the inventory may be absent).
   */
  datatype PlayerState = PlayerState(
    stats: map<string, StatValue>,
    inventory: Option<seq<string>>,
    itemDescriptions: map<string, string>,
    currentLocation: string,
    day: int,
    timeOfDay: string)

  /**
   * A choice offered to the player. An absent `isSkillCheck` is `false`;
   * `description` and `skill` are absent as `None`.
   */
  datatype Choice = Choice(
    text: string,
    description: Option<string>,
    isSkillCheck: bool,
    skill: Option<string>,
    successChance: Option<int>)

  /** A choice that carries only its text (the "Retry" choice, a custom choice). */
  function PlainChoice(text: string): Choice
  {
    Choice(text, None, false, None, None)
  }

  datatype Role = User | Model

  /** One turn of the conversation sent to the model (a `Content` with a single text part). */
  datatype Content = Content(role: Role, text: string)

  datatype GameSetup = GameSetup(
    persona: string,
    genre: string,
    intro: string,
    background: string,
    numCharacters: int,
    characterNames: seq<string>,
    characterDescriptions: seq<string>,
    model: ModelId,
    apiKey: Option<string>,
    lang: Language,
    customSystemInstruction: Option<string>)
}
