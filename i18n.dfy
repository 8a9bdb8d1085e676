/**
 * The translation lookup `t` (lib/i18n.ts): a table of display strings per
 * language, a fallback to the key itself, and `{name}` placeholder
 * substitution.
 */
module I18n {
  import opened Wrappers
  import opened Text
  import opened Types

  /** One table row: the string for each of the three languages. */
  datatype Entry = Entry(ko: string, en: string, jp: string)
  {
    function In(lang: Language): string
    {
      match lang
      case Ko => ko
      case En => en
      case Jp => jp
    }
  }

  /** A row with a non-empty string for each of the three languages. */
  predicate Complete(e: Entry)
  {
    e.ko != "" && e.en != "" && e.jp != ""
  }

  /**
   * The translation table: the row of each key, looked up group by group in
   * the order of lib/i18n.ts. No key has a row in two groups.
   */
  function Row(key: string): (row: Option<Entry>)
    ensures row.Some? ==> Complete(row.value)
  {
    if CommonRow(key).Some? then CommonRow(key)
    else if HeaderRow(key).Some? then HeaderRow(key)
    else if SetupStartRow(key).Some? then SetupStartRow(key)
    else if SetupStoryRow(key).Some? then SetupStoryRow(key)
    else if SetupCharacterRow(key).Some? then SetupCharacterRow(key)
    else if GameScreenRow(key).Some? then GameScreenRow(key)
    else if StatPanelRow(key).Some? then StatPanelRow(key)
    else if EndScreenRow(key).Some? then EndScreenRow(key)
    else if SettingsGameRow(key).Some? then SettingsGameRow(key)
    else if SettingsStoryRow(key).Some? then SettingsStoryRow(key)
    else if DebugRow(key).Some? then DebugRow(key)
    else AlertRow(key)
  }

  /** Common. */
  function CommonRow(key: string): (row: Option<Entry>)
    ensures row.Some? ==> Complete(row.value)
  {
    match key
    case "close" => Some(Entry("닫기", "Close", "閉じる"))
    case "saveChanges" => Some(Entry("변경사항 저장", "Save Changes", "変更を保存"))
    case "cancel" => Some(Entry("취소", "Cancel", "キャンセル"))
    case "send" => Some(Entry("전송", "Send", "送信"))
    case "retry" => Some(Entry("재시도", "Retry", "再試行"))
    case "day" => Some(Entry("일차", "Day", "日目"))
    case "succeeded" => Some(Entry("성공", "succeeded", "成功"))
    case "failed" => Some(Entry("실패", "failed", "失敗"))
    case "unspecifiedSkill" => Some(Entry("미지정 기술", "Unspecified Skill", "未指定のスキル"))
    case "n/a" => Some(Entry("해당 없음", "N/A", "該当なし"))
    case _ => None
  }

  /** App header. */
  function HeaderRow(key: string): (row: Option<Entry>)
    ensures row.Some? ==> Complete(row.value)
  {
    match key
    case "appTitle" => Some(Entry("AI 어드벤처", "AI Adventure", "AI アドベンチャー"))
    case "viewStatus" => Some(Entry("상태 보기", "View Status", "ステータス表示"))
    case "status" => Some(Entry("상태", "Status", "ステータス"))
    case _ => None
  }

  /** Setup screen: starting, the API key and the model. */
  function SetupStartRow(key: string): (row: Option<Entry>)
    ensures row.Some? ==> Complete(row.value)
  {
    match key
    case "startStory" => Some(Entry("이야기 시작하기", "Start Story", "物語を始める"))
    case "setupIntro" => Some(Entry(
      "당신만의 세계를 설정하고 AI와 " +
      "함께 모험을 떠나보세요.",
      "Create your own " +
      "world and embark on " +
      "an adventure with " +
      "AI.",
      "自分だけの世界を設定し、AIと共に冒険に" +
      "出かけましょう。"))
    case "continueAdventure" => Some(Entry("모험 계속하기", "Continue Adventure", "冒険を続ける"))
    case "startNewAdventure" => Some(Entry("새로운 모험 시작", "Start New Adventure", "新しい冒険を始める"))
    case "geminiApiKeyOptional" => Some(Entry(
      "Gemini API 키 (선택 사항)",
      "Gemini API Key " +
      "(Optional)",
      "Gemini APIキー（任意）"))
    case "geminiApiKeyDesc" => Some(Entry(
      "환경 변수에 키가 없는 경우 여기에 " +
      "입력하세요. 개인적인 용도로만 " +
      "사용됩니다.",
      "If you don't have a " +
      "key in your " +
      "environment " +
      "variables, enter it " +
      "here. Used for " +
      "personal purposes " +
      "only.",
      "環境変数にキーがない場合は、ここに入力し" +
      "てください。個人利用のみを目的としていま" +
      "す。"))
    case "geminiApiKeyPlaceholder" => Some(Entry(
      "API 키를 여기에 붙여넣으세요",
      "Paste your API key " +
      "here",
      "APIキーをここに貼り付けてください"))
    case "chooseModel" => Some(Entry("AI 모델 선택", "Choose AI Model", "AIモデルを選択"))
    case "modelDesc" => Some(Entry(
      "Pro는 더 강력하지만 비용이 더 " +
      "많이 듭니다.",
      "Pro is more " +
      "powerful, but costs " +
      "more.",
      "Proはより強力ですが、コストがかかりま" +
      "す。"))
    case _ => None
  }

  /** Setup screen: the story fields. */
  function SetupStoryRow(key: string): (row: Option<Entry>)
    ensures row.Some? ==> Complete(row.value)
  {
    match key
    case "storyGenre" => Some(Entry("이야기 장르", "Story Genre", "物語のジャンル"))
    case "genrePlaceholder" => Some(Entry(
      "예: SF, 판타지, 좀비 아포칼립스",
      "e.g., Sci-Fi, " +
      "Fantasy, Zombie " +
      "Apocalypse",
      "例：SF、ファンタジー、ゾンビアポカリプ" +
      "ス"))
    case "playerPersona" => Some(Entry(
      "플레이어 설정 (페르소나)",
      "Player Setup " +
      "(Persona)",
      "プレイヤー設定（ペルソナ）"))
    case "personaPlaceholder" => Some(Entry(
      "예: 기억을 잃은 전직 특수요원",
      "e.g., An amnesiac " +
      "former special agent",
      "例：記憶を失った元特殊工作員"))
    case "worldBackground" => Some(Entry(
      "이야기의 배경 정보 (세계관)",
      "Story Background " +
      "(Worldview)",
      "物語の背景情報（世界観）"))
    case "backgroundPlaceholder" => Some(Entry(
      "예: 2077년, 거대 기업이 " +
      "지배하는 디스토피아",
      "e.g., The year " +
      "2077, a dystopia " +
      "ruled by " +
      "mega-corporations",
      "例：2077年、巨大企業が支配するディス" +
      "トピア"))
    case "storyIntro" => Some(Entry("이야기의 시작 (인트로)", "Story Start (Intro)", "物語の始まり（イントロ）"))
    case "introPlaceholder" => Some(Entry(
      "예: 낯선 행성에서 눈을 뜬다",
      "e.g., Waking up on " +
      "a strange planet",
      "例：見知らぬ惑星で目を覚ます"))
    case _ => None
  }

  /** Setup screen: the characters, the language and the custom system prompt. */
  function SetupCharacterRow(key: string): (row: Option<Entry>)
    ensures row.Some? ==> Complete(row.value)
  {
    match key
    case "numChars" => Some(Entry(
      "주요 등장인물 수 (플레이어 제외)",
      "Number of Main " +
      "Characters " +
      "(excluding player)",
      "主な登場人物の数（プレイヤーを除く）"))
    case "charNameLabel" => Some(Entry(
      "등장인물 {index} 이름",
      "Character {index} " +
      "Name",
      "登場人物{index}の名前"))
    case "charNamePlaceholder" => Some(Entry("예: 제이크, 엘라라", "e.g., Jake, Elara", "例：ジェイク、エララ"))
    case "charDescLabel" => Some(Entry(
      "등장인물 {index} 설정",
      "Character {index} " +
      "Setup",
      "登場人物{index}の設定"))
    case "charDescPlaceholder" => Some(Entry(
      "예: 냉소적이지만 실력 있는 용병. " +
      "과거에 플레이어와 악연이 있다.",
      "e.g., A cynical but " +
      "skilled mercenary. " +
      "Has a bad history " +
      "with the player.",
      "例：冷笑的だが腕利きの傭兵。過去にプレイ" +
      "ヤーと因縁がある。"))
    case "startAdventure" => Some(Entry("모험 시작", "Start Adventure", "冒険を開始"))
    case "fillAllFieldsError" => Some(Entry(
      "모든 항목을 입력해주세요.",
      "Please fill in all " +
      "fields.",
      "すべての項目を入力してください。"))
    case "language" => Some(Entry("언어", "Language", "言語"))
    case "customSystemPrompt" => Some(Entry("커스텀 시스템 프롬프트", "Custom System Prompt", "カスタムシステムプロンプト"))
    case "customSystemPromptPlaceholder" => Some(Entry(
      "AI의 행동을 제어하기 위한 특별 " +
      "지침을 여기에 입력하세요...",
      "Enter special " +
      "instructions to " +
      "control AI behavior " +
      "here...",
      "AIの行動を制御するための特別な指示をこ" +
      "こに入力してください..."))
    case _ => None
  }

  /** Game screen. */
  function GameScreenRow(key: string): (row: Option<Entry>)
    ensures row.Some? ==> Complete(row.value)
  {
    match key
    case "generatingStory" => Some(Entry("이야기를 생성하는 중...", "Generating story...", "物語を生成中..."))
    case "customChoicePlaceholder" => Some(Entry(
      "원하는 행동을 직접 입력하세요...",
      "Enter your custom " +
      "action...",
      "希望の行動を直接入力してください..."))
    case "writeChoice" => Some(Entry(
      "직접 선택지를 작성...",
      "Write a custom " +
      "choice...",
      "選択肢を直接作成..."))
    case "prevPage" => Some(Entry("← 이전", "← Prev", "← 前へ"))
    case "nextPage" => Some(Entry("다음 →", "Next →", "次へ →"))
    case "typing" => Some(Entry("진행 중...", "Typing...", "進行中..."))
    case "storyEnd" => Some(Entry("이야기 끝", "Story End", "物語の終わり"))
    case "clickForNext" => Some(Entry(
      "다음 페이지로...",
      "Click for next " +
      "page...",
      "次のページへ..."))
    case _ => None
  }

  /** Stat panel. */
  function StatPanelRow(key: string): (row: Option<Entry>)
    ensures row.Some? ==> Complete(row.value)
  {
    match key
    case "playerStatus" => Some(Entry("플레이어 상태", "Player Status", "プレイヤーステータス"))
    case "stats" => Some(Entry("능력치", "Stats", "能力値"))
    case "inventory" => Some(Entry("소지품", "Inventory", "所持品"))
    case "viewDescription" => Some(Entry("설명 보기", "View description", "説明を見る"))
    case "emptyInventory" => Some(Entry(
      "주머니가 비어있습니다.",
      "Your pockets are " +
      "empty.",
      "ポケットは空です。"))
    case _ => None
  }

  /** End screen. */
  function EndScreenRow(key: string): (row: Option<Entry>)
    ensures row.Some? ==> Complete(row.value)
  {
    match key
    case "theEnd" => Some(Entry("The End", "The End", "終"))
    case "downloadLog" => Some(Entry("이야기 로그 다운로드", "Download Story Log", "物語ログをダウンロード"))
    case "startNewStory" => Some(Entry("새로운 이야기 시작하기", "Start a New Story", "新しい物語を始める"))
    case _ => None
  }

  /** Settings dialog: saving, debug mode and the model. */
  function SettingsGameRow(key: string): (row: Option<Entry>)
    ensures row.Some? ==> Complete(row.value)
  {
    match key
    case "settings" => Some(Entry("설정", "Settings", "設定"))
    case "gameManagement" => Some(Entry("게임 관리", "Game Management", "ゲーム管理"))
    case "saveStory" => Some(Entry("이야기 저장하기", "Save Story", "物語を保存"))
    case "gameSaved" => Some(Entry(
      "게임이 현재 상태로 브라우저에 " +
      "저장되었습니다. 앱을 닫았다가 다시 " +
      "열면 \"모험 계속하기\"로 이어서 할 " +
      "수 있습니다.",
      "Game saved to " +
      "browser. You can " +
      "continue from this " +
      "point by clicking " +
      "\"Continue " +
      "Adventure\" after " +
      "reopening the app.",
      "ゲームがブラウザに保存されました。アプリ" +
      "を再起動後、「冒険を続ける」で続きからプ" +
      "レイできます。"))
    case "debug" => Some(Entry("디버그", "Debug", "デバッグ"))
    case "debugMode" => Some(Entry("디버그 모드 활성화", "Enable Debug Mode", "デバッグモードを有効化"))
    case "enabled" => Some(Entry("활성화됨", "Enabled", "有効"))
    case "disabled" => Some(Entry("비활성화됨", "Disabled", "無効"))
    case "aiModel" => Some(Entry("AI 모델", "AI Model", "AIモデル"))
    case _ => None
  }

  /** Settings dialog: story control. */
  function SettingsStoryRow(key: string): (row: Option<Entry>)
    ensures row.Some? ==> Complete(row.value)
  {
    match key
    case "storyControl" => Some(Entry("이야기 제어", "Story Control", "物語の制御"))
    case "viewCurrentSummary" => Some(Entry("현재 요약 보기", "View Current Summary", "現在の要約を表示"))
    case "noSummary" => Some(Entry(
      "아직 생성된 요약이 없습니다. " +
      "이야기가 충분히 길어지면 자동으로 " +
      "생성됩니다.",
      "No summary has been " +
      "generated yet. It " +
      "will be created " +
      "automatically once " +
      "the story is long " +
      "enough.",
      "まだ要約は生成されていません。物語が十分" +
      "に長くなると自動的に生成されます。"))
    case "nextStoryDirection" => Some(Entry("다음 이야기 방향성", "Next Story Direction", "次の物語の方向性"))
    case "directionPlaceholder" => Some(Entry(
      "AI에게 다음 장면에 대한 구체적인 " +
      "지시를 내릴 수 있습니다.",
      "You can give the AI " +
      "specific " +
      "instructions for " +
      "the next scene.",
      "AIに次のシーンに関する具体的な指示を与" +
      "えることができます。"))
    case "storySettings" => Some(Entry("이야기 설정", "Story Settings", "物語の設定"))
    case "saveAndApply" => Some(Entry(
      "변경사항 저장 및 적용",
      "Save and Apply " +
      "Changes",
      "変更を保存して適用"))
    case _ => None
  }

  /** Debug dialog. */
  function DebugRow(key: string): (row: Option<Entry>)
    ensures row.Some? ==> Complete(row.value)
  {
    match key
    case "debugPrompt" => Some(Entry("Debug Prompt", "Debug Prompt", "デバッグプロンプト"))
    case "contextReadOnly" => Some(Entry("Context (Read-only)", "Context (Read-only)", "コンテキスト（読み取り専用）"))
    case "finalPromptEditable" => Some(Entry(
      "Final User Prompt " +
      "(Editable)",
      "Final User Prompt " +
      "(Editable)",
      "最終ユーザープロンプト（編集可能）"))
    case "fullPromptEditable" => Some(Entry(
      "전체 프롬프트 (편집 가능)",
      "Full Prompt " +
      "(Editable)",
      "完全なプロンプト（編集可能）"))
    case _ => None
  }

  /** Alerts and errors of the engine. */
  function AlertRow(key: string): (row: Option<Entry>)
    ensures row.Some? ==> Complete(row.value)
  {
    match key
    case "saveOnlyDuringPlay" => Some(Entry(
      "게임 중에만 저장할 수 있습니다.",
      "You can only save " +
      "while playing.",
      "ゲーム中にのみ保存できます。"))
    case "saveFailed" => Some(Entry("게임 저장에 실패했습니다.", "Failed to save game.", "ゲームの保存に失敗しました。"))
    case "noSaveFile" => Some(Entry("저장된 게임이 없습니다.", "No saved game found.", "保存されたゲームがありません。"))
    case "loadFailedNoApiKey" => Some(Entry(
      "API 키를 찾을 수 없어 게임을 " +
      "로드할 수 없습니다.",
      "Cannot load game " +
      "because the API key " +
      "was not found.",
      "APIキーが見つからないため、ゲームをロ" +
      "ードできません。"))
    case "loadFailedCorrupt" => Some(Entry(
      "게임 로딩에 실패했습니다. 저장 " +
      "파일이 손상되었을 수 있습니다.",
      "Failed to load " +
      "game. The save file " +
      "may be corrupted.",
      "ゲームの読み込みに失敗しました。セーブフ" +
      "ァイルが破損している可能性があります。"))
    case "apiKeyNotSet" => Some(Entry(
      "Gemini API 키가 설정되지 " +
      "않았습니다. UI에 입력하거나 환경 " +
      "변수를 설정해주세요.",
      "Gemini API key is " +
      "not set. Please " +
      "enter it in the UI " +
      "or set the " +
      "environment " +
      "variable.",
      "Gemini " +
      "APIキーが設定されていません。UIで入" +
      "力するか、環境変数を設定してください。"))
    case _ => None
  }

  /** A placeholder value: a string, or a number printed in decimal. */
  datatype OptionValue = Str(s: string) | Number(i: int)

  function Render(v: OptionValue): string
  {
    match v
    case Str(s) => s
    case Number(i) => IntToString(i)
  }

  /** `translations[key]?.[lang] || key`: an empty or missing entry falls back to the key. */
  function LookupText(key: string, lang: Language): string
  {
    match Row(key)
    case Some(entry) => if entry.In(lang) != "" then entry.In(lang) else key
    case None => key
  }

  function Placeholder(name: string): string
  {
    "{" + name + "}"
  }

  /** Applies the options in order, each to the text left by the previous ones. */
  function SubstituteAll(text: string, options: seq<(string, OptionValue)>): string
  {
    if |options| == 0 then text
    else
      var last := options[|options| - 1];
      ReplaceFirst(SubstituteAll(text, options[..|options| - 1]), Placeholder(last.0), Render(last.1))
  }

  /** What `t(key, lang, options)` returns; `options` lists the option keys in enumeration order. */
  function Translate(key: string, lang: Language, options: Option<seq<(string, OptionValue)>>): string
  {
    match options
    case None => LookupText(key, lang)
    case Some(opts) => SubstituteAll(LookupText(key, lang), opts)
  }

  /** `t`: look the key up, then substitute each option's placeholder in turn. */
  method T(key: string, lang: Language, options: Option<seq<(string, OptionValue)>>) returns (text: string)
    ensures text == Translate(key, lang, options)
  {
    text := LookupText(key, lang);
    if options.Some? {
      var opts := options.value;
      var k := 0;
      while k < |opts|
        invariant 0 <= k <= |opts|
        invariant text == SubstituteAll(LookupText(key, lang), opts[..k])
      {
        assert opts[..k + 1][..k] == opts[..k];
        text := ReplaceFirst(text, Placeholder(opts[k].0), Render(opts[k].1));
        k := k + 1;
      }
      assert opts[..k] == opts;
    }
  }

  /** Every row of the table has a non-empty string for each of the three languages. */
  lemma TableComplete(key: string, lang: Language)
    requires Row(key).Some?
    ensures Row(key).value.In(lang) != ""
  {
  }

  /** A key of the table is translated to its row's entry for the requested language. */
  lemma KnownKey(key: string, lang: Language)
    requires Row(key).Some?
    ensures Translate(key, lang, None) == Row(key).value.In(lang)
  {
    TableComplete(key, lang);
  }

  /** A key outside the table is returned as it is, with or without an empty option list. */
  lemma UnknownKey(key: string, lang: Language)
    requires Row(key).None?
    ensures Translate(key, lang, None) == key
    ensures Translate(key, lang, Some([])) == key
  {
  }

  /**
   * An option replaces only the first occurrence of its placeholder, by its
   * value with `replace`'s `$` patterns expanded; a value without `$` goes in
   * as it is.
   */
  lemma SubstituteFirstOnly(text: string, name: string, v: OptionValue, i: nat)
    requires OccursAt(text, Placeholder(name), i)
    requires forall j: nat :: j < i ==> !OccursAt(text, Placeholder(name), j)
    ensures var before, after := text[..i], text[i + |Placeholder(name)|..];
      SubstituteAll(text, [(name, v)]) == before + Substitution(Render(v), Placeholder(name), before, after) + after
    ensures NoDollar(Render(v)) ==>
      SubstituteAll(text, [(name, v)]) == text[..i] + Render(v) + text[i + |Placeholder(name)|..]
  {
    SubstituteOne(text, name, v);
    ReplaceFirstAt(text, Placeholder(name), Render(v), i);
  }

  /** A number has no `$` in its decimal rendering, so it is inserted as it is. */
  lemma NumberHasNoDollar(i: int)
    ensures NoDollar(Render(Number(i)))
  {
    var r := IntToString(i);
    if i < 0 {
      assert forall j :: 0 < j < |r| ==> r[j] == NatToString(-i)[j - 1];
    }
  }

  /** A string value `$&` puts back the placeholder it replaces. */
  lemma MatchedTextPattern(before: string, name: string, after: string)
    requires forall j :: 0 <= j < |before| ==> before[j] != '{'
    ensures SubstituteAll(before + Placeholder(name) + after, [(name, Str("$&"))])
            == before + Placeholder(name) + after
  {
    SubstituteInTemplate(before, name, after, Str("$&"));
    SubstitutionPatterns(Placeholder(name), before, after);
  }

  /** An option whose placeholder does not occur leaves the text unchanged. */
  lemma AbsentPlaceholder(text: string, options: seq<(string, OptionValue)>, name: string, v: OptionValue)
    requires forall i: nat :: !OccursAt(SubstituteAll(text, options), Placeholder(name), i)
    ensures SubstituteAll(text, options + [(name, v)]) == SubstituteAll(text, options)
  {
    assert (options + [(name, v)])[..|options|] == options;
    ReplaceAbsent(SubstituteAll(text, options), Placeholder(name), Render(v));
  }

  /** A single option is one first-occurrence replacement. */
  lemma SubstituteOne(text: string, name: string, v: OptionValue)
    ensures SubstituteAll(text, [(name, v)]) == ReplaceFirst(text, Placeholder(name), Render(v))
  {
    assert [(name, v)][..0] == [];
  }

  /** When no `{` precedes the placeholder, an option replaces exactly that occurrence. */
  lemma {:induction false} SubstituteInTemplate(before: string, name: string, after: string, v: OptionValue)
    requires forall j :: 0 <= j < |before| ==> before[j] != '{'
    ensures SubstituteAll(before + Placeholder(name) + after, [(name, v)])
            == before + Substitution(Render(v), Placeholder(name), before, after) + after
    ensures NoDollar(Render(v)) ==>
      SubstituteAll(before + Placeholder(name) + after, [(name, v)]) == before + Render(v) + after
  {
    var p := Placeholder(name);
    var s := before + p + after;
    SubstituteOne(s, name, v);
    OccursInMiddle(before, p, after);
    forall j: nat | j < |before| ensures !OccursAt(s, p, j) {
      assert s[j] == before[j] && s[j..j + |p|][0] == s[j];
    }
    ReplaceFirstAt(s, p, Render(v), |before|);
    assert s[..|before|] == before && s[|before| + |p|..] == after;
  }

  /** The English label of character `n` in the setup form. */
  lemma CharacterLabel(n: nat)
    ensures Translate("charNameLabel", En, Some([("index", Number(n))])) == "Character " + IntToString(n) + " Name"
  {
    CharNameTemplate();
    NumberHasNoDollar(n);
    SubstituteInTemplate("Character ", "index", " Name", Number(n));
  }

  /** The English template of the character-name label. */
  lemma CharNameTemplate()
    ensures LookupText("charNameLabel", En) == "Character " + Placeholder("index") + " Name"
  {
    var key := "charNameLabel";
    assert CommonRow(key).None? && HeaderRow(key).None?;
    assert SetupStartRow(key).None? && SetupStoryRow(key).None?;
    assert LookupText(key, En) == "Character {index} " + "Name";
    PlaceholderIndex();
  }

  lemma PlaceholderIndex()
    ensures "Character {index} " + "Name" == "Character " + Placeholder("index") + " Name"
  {
  }
}
