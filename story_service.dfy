/**
 * Story text and title generation (api/services/story_service.py).
 *
 * The language model is a foreign service: its reply (status code and
 * content, or a raised error) is an input. The prompt is modelled by its
 * ingredients rather than its fixed wording. `random.choice` is an index
 * chosen by the caller.
 */
module StoryService {
  import opened Wrappers
  import opened Text
  import Config
  import Models
  import Arith

  // ---------------------------------------------------------------- tables

  datatype LanguageConfig = LanguageConfig(name: string, promptPrefix: string, iso: string)

  const LanguageConfigs: map<string, LanguageConfig> := map[
    "english" := LanguageConfig("English", "Create an enchanting", "en"),
    "indonesian" := LanguageConfig("Indonesian", "Buatkan cerita pengantar tidur yang menenangkan", "id"),
    "japanese" := LanguageConfig("Japanese", "心温まる子守唄のようなお話を作成してください", "ja"),
    "french" := LanguageConfig("French", "Créez une histoire apaisante", "fr")]

  /** `words` is the target word count, `timeSeconds` the reading time it stands for. */
  datatype DurationConfig = DurationConfig(words: nat, timeSeconds: nat, description: string)

  const DurationConfigs: map<string, DurationConfig> := map[
    "short" := DurationConfig(Config.DurationShortWords, 60, "approximately 1 minute when read aloud"),
    "medium" := DurationConfig(Config.DurationMediumWords, 180, "approximately 3 minutes when read aloud"),
    "long" := DurationConfig(Config.DurationLongWords, 300, "approximately 5 minutes when read aloud")]

  const ThemeDescriptions: map<string, string> := map[
    "adventure" := "exciting journey with discovery and wonder",
    "fantasy" := "magical realm with enchanted elements",
    "bedtime" := "calming narrative designed for peaceful sleep",
    "educational" := "entertaining story with valuable lessons",
    "customized" := "unique narrative tailored to the provided images"]

  const DefaultThemeDescription: string := "a magical adventure"

  const DefaultCharacterNames: seq<string> := ["the child", "the little one", "the dreamer"]

  /** Language configuration lookup: an unknown language gets the english entry. */
  function LanguageConfigFor(language: string): (c: LanguageConfig)
    ensures language in LanguageConfigs ==> c == LanguageConfigs[language]
    ensures language !in LanguageConfigs ==> c == LanguageConfigs["english"]
    ensures c.iso == Config.LanguageMap[if language in LanguageConfigs then language else "english"]
  {
    if language in LanguageConfigs then LanguageConfigs[language] else LanguageConfigs["english"]
  }

  /** Duration configuration lookup: an unknown duration gets the medium entry. */
  function DurationConfigFor(duration: string): (c: DurationConfig)
    ensures duration in DurationConfigs ==> c == DurationConfigs[duration]
    ensures duration !in DurationConfigs ==> c == DurationConfigs["medium"]
    ensures c.words > 0
  {
    if duration in DurationConfigs then DurationConfigs[duration] else DurationConfigs["medium"]
  }

  function ThemeDescriptionFor(theme: string): (d: string)
    ensures theme in ThemeDescriptions ==> d == ThemeDescriptions[theme]
    ensures theme !in ThemeDescriptions ==> d == DefaultThemeDescription
  {
    if theme in ThemeDescriptions then ThemeDescriptions[theme] else DefaultThemeDescription
  }

  /** The tables are keyed by exactly the values a validated request can carry. */
  lemma TablesMatchEnums()
    ensures ThemeDescriptions.Keys == Models.ThemeValues
    ensures DurationConfigs.Keys == Models.DurationValues
    ensures LanguageConfigs.Keys == Models.LanguageValues
    ensures LanguageConfigs.Keys == Config.LanguageMap.Keys
  {
  }

  /** A validated request never reaches a fallback entry. */
  lemma {:induction false} ValidatedRequestsHitTheTables(t: Models.Theme, d: Models.Duration, l: Models.Language)
    ensures ThemeDescriptionFor(t.Value()) == ThemeDescriptions[t.Value()]
    ensures DurationConfigFor(d.Value()) == DurationConfigs[d.Value()]
    ensures LanguageConfigFor(l.Value()) == LanguageConfigs[l.Value()]
  {
    TablesMatchEnums();
  }

  // ---------------------------------------------------------------- names and scenes

  /** The non-empty character names, in request order. */
  function NonEmptyNames(characters: seq<Models.Character>): (names: seq<string>)
    ensures |names| <= |characters|
    ensures forall i | 0 <= i < |names| :: names[i] != ""
    ensures forall i | 0 <= i < |names| :: exists k :: 0 <= k < |characters| && characters[k].name == names[i]
  {
    if characters == [] then []
    else
      var rest := NonEmptyNames(characters[1..]);
      assert forall i | 0 <= i < |rest| :: exists k :: 0 <= k < |characters| && characters[k].name == rest[i] by {
        forall i | 0 <= i < |rest|
          ensures exists k :: 0 <= k < |characters| && characters[k].name == rest[i]
        {
          var k :| 0 <= k < |characters[1..]| && characters[1..][k].name == rest[i];
          assert characters[k + 1].name == rest[i];
        }
      }
      (if characters[0].name != "" then [characters[0].name] else []) + rest
  }

  /** Filtering names distributes over concatenation: no name is reordered or invented. */
  lemma {:induction false} NonEmptyNamesAppend(a: seq<Models.Character>, b: seq<Models.Character>)
    ensures NonEmptyNames(a + b) == NonEmptyNames(a) + NonEmptyNames(b)
    decreases |a|
  {
    if a == [] {
      assert a + b == b;
    } else {
      assert (a + b)[1..] == a[1..] + b;
      NonEmptyNamesAppend(a[1..], b);
    }
  }

  /** The names a story is written about: the request's non-empty names, else the three defaults. */
  function CharacterNames(characters: seq<Models.Character>): (names: seq<string>)
    ensures names != []
    ensures NonEmptyNames(characters) != [] ==> names == NonEmptyNames(characters)
    ensures NonEmptyNames(characters) == [] ==> names == DefaultCharacterNames
  {
    var given := NonEmptyNames(characters);
    if given != [] then given else DefaultCharacterNames
  }

  /** One scene line: "Scene {i+1} with {name}: {scenario}". */
  function SceneLine(i: nat, name: string, scenario: string): (line: string)
    ensures StartsWith(line, "Scene ") && EndsWith(line, scenario)
  {
    var head := "Scene " + NatToString(i + 1) + " with " + name + ": ";
    assert (head + scenario)[..|"Scene "|] == "Scene ";
    assert (head + scenario)[|head + scenario| - |scenario|..] == scenario;
    head + scenario
  }

  /** The scene lines of the prompt: scenario i is paired with name i modulo the name count. */
  function SceneLines(scenarios: seq<string>, names: seq<string>): seq<string>
    requires names != []
  {
    seq(|scenarios|, i requires 0 <= i < |scenarios| => SceneLine(i, names[i % |names|], scenarios[i]))
  }

  /** Builds the scene lines one scenario at a time, as the prompt loop does. */
  method ScenePrompts(scenarios: seq<string>, names: seq<string>) returns (prompts: seq<string>)
    requires names != []
    ensures prompts == SceneLines(scenarios, names)
    ensures |prompts| == |scenarios|
    ensures forall i | 0 <= i < |prompts| :: EndsWith(prompts[i], scenarios[i])
  {
    prompts := [];
    var i := 0;
    while i < |scenarios|
      invariant 0 <= i <= |scenarios|
      invariant prompts == SceneLines(scenarios[..i], names)
    {
      var name := names[i % |names|];
      prompts := prompts + [SceneLine(i, name, scenarios[i])];
      i := i + 1;
    }
    assert scenarios[..i] == scenarios;
  }

  // ---------------------------------------------------------------- duration

  /**
   * `int(time_seconds * word_count / target_words)`; all values are
   * non-negative, so truncation is the floor.
   */
  function EstimateDuration(timeSeconds: nat, wordCount: nat, targetWords: nat): (seconds: nat)
    requires targetWords > 0
    ensures seconds * targetWords <= timeSeconds * wordCount < (seconds + 1) * targetWords
  {
    timeSeconds * wordCount / targetWords
  }

  /** Hitting the target word count exactly estimates the configured reading time. */
  lemma {:induction false} EstimateAtTarget(c: DurationConfig)
    requires c.words > 0
    ensures EstimateDuration(c.timeSeconds, c.words, c.words) == c.timeSeconds
  {
    var e := EstimateDuration(c.timeSeconds, c.words, c.words);
    assert (c.timeSeconds + 1) * c.words == c.timeSeconds * c.words + c.words;
    Arith.MulCancelLess(e, c.timeSeconds + 1, c.words);
    Arith.MulCancelLess(c.timeSeconds, e + 1, c.words);
  }

  /** A longer story never gets a shorter estimate. */
  lemma {:induction false} EstimateMonotone(timeSeconds: nat, w1: nat, w2: nat, target: nat)
    requires target > 0 && w1 <= w2
    ensures EstimateDuration(timeSeconds, w1, target) <= EstimateDuration(timeSeconds, w2, target)
  {
    var e1 := EstimateDuration(timeSeconds, w1, target);
    var e2 := EstimateDuration(timeSeconds, w2, target);
    Arith.MulMono(w1, w2, timeSeconds);
    assert timeSeconds * w1 <= timeSeconds * w2;
    Arith.MulCancelLess(e1, e2 + 1, target);
  }

  /** A short story (60 s for 150 words) of 300 words is estimated at 120 seconds. */
  lemma ShortStoryExample()
    ensures EstimateDuration(DurationConfigFor("short").timeSeconds, 300, DurationConfigFor("short").words) == 120
  {
  }

  // ---------------------------------------------------------------- story

  /** What the chat-completion call gave back. */
  datatype ChatReply =
    | Reply(status: int, content: string, body: string)
    | Raised(message: string)

  /** The inputs the story prompt is assembled from (its fixed wording is not modelled). */
  datatype StoryPrompt = StoryPrompt(
    prefix: string,
    characterNames: seq<string>,
    scenes: seq<string>,
    themeDescription: string,
    lengthDescription: string,
    targetWords: nat,
    languageName: string)

  datatype Story = Story(text: string, durationSeconds: nat)

  /** The prompt for a request, as a specification. */
  function PromptFor(scenarios: seq<string>, characters: seq<Models.Character>, theme: string,
                     duration: string, language: string): StoryPrompt
  {
    var names := CharacterNames(characters);
    var lang := LanguageConfigFor(language);
    var dur := DurationConfigFor(duration);
    StoryPrompt(lang.promptPrefix, names, SceneLines(scenarios, names), ThemeDescriptionFor(theme),
                dur.description, dur.words, lang.name)
  }

  /** The outcome of a story reply under a duration setting: 200 gives the text, anything else raises. */
  function StoryOutcome(duration: string, reply: ChatReply): Result<Story>
  {
    match reply
    case Raised(m) => Err(m)
    case Reply(status, content, body) =>
      if status == 200 then
        var text := Strip(content);
        var dur := DurationConfigFor(duration);
        Ok(Story(text, EstimateDuration(dur.timeSeconds, |Words(text)|, dur.words)))
      else Err("Failed to generate story: " + body)
  }

  /**
   * generate_story_from_scenarios: assembles the prompt and interprets the
   * reply. There is no fallback story: every failure comes back as `Err`.
   */
  method GenerateStory(scenarios: seq<string>, characters: seq<Models.Character>, theme: string,
                       duration: string, language: string, reply: ChatReply)
    returns (prompt: StoryPrompt, r: Result<Story>)
    ensures prompt == PromptFor(scenarios, characters, theme, duration, language)
    ensures |prompt.scenes| == |scenarios| && prompt.characterNames != []
    ensures r == StoryOutcome(duration, reply)
    ensures r.Ok? <==> reply.Reply? && reply.status == 200
    ensures r.Ok? ==> r.value.text == Strip(reply.content)
    ensures reply.Reply? && reply.status != 200 ==> r == Err("Failed to generate story: " + reply.body)
  {
    var names := CharacterNames(characters);
    var scenes := ScenePrompts(scenarios, names);
    var lang := LanguageConfigFor(language);
    var dur := DurationConfigFor(duration);
    prompt := StoryPrompt(lang.promptPrefix, names, scenes, ThemeDescriptionFor(theme),
                          dur.description, dur.words, lang.name);
    match reply {
      case Raised(m) =>
        r := Err(m);
      case Reply(status, content, body) =>
        if status == 200 {
          var text := Strip(content);
          var wordCount := |Words(text)|;
          r := Ok(Story(text, EstimateDuration(dur.timeSeconds, wordCount, dur.words)));
        } else {
          r := Err("Failed to generate story: " + body);
        }
    }
  }

  // ---------------------------------------------------------------- titles

  const Adjectives: map<string, seq<string>> := map[
    "english" := ["Magical", "Dreamy", "Wonderful", "Enchanted", "Sleepy", "Cozy", "Starry"],
    "french" := ["Magique", "Rêveur", "Merveilleux", "Enchanté", "Somnolent", "Confortable", "Étoilé"],
    "japanese" := ["魔法の", "夢見る", "素晴らしい", "魅惑的な", "眠たい", "居心地の良い", "星空の"],
    "indonesian" := ["Ajaib", "Bermimpi", "Indah", "Mempesona", "Mengantuk", "Nyaman", "Berbintang"]]

  const Nouns: map<string, seq<string>> := map[
    "english" := ["Adventure", "Journey", "Dreams", "Night", "Forest", "Friends", "Story"],
    "french" := ["Aventure", "Voyage", "Rêves", "Nuit", "Forêt", "Amis", "Histoire"],
    "japanese" := ["冒険", "旅", "夢", "夜", "森", "友達", "物語"],
    "indonesian" := ["Petualangan", "Perjalanan", "Mimpi", "Malam", "Hutan", "Teman", "Cerita"]]

  /** The word lists a fallback title is drawn from: the language's own, else english. */
  function TitleLanguage(language: string): (lang: string)
    ensures lang in Adjectives && lang in Nouns
    ensures |Adjectives[lang]| == 7 && |Nouns[lang]| == 7
    ensures language in Adjectives ==> lang == language
    ensures language !in Adjectives ==> lang == "english"
  {
    if language in Adjectives then language else "english"
  }

  /**
   * generate_fallback_title: "adjective noun", both from the same language's
   * lists; `adjectivePick` and `nounPick` stand for the two random choices.
   */
  function FallbackTitle(language: string, adjectivePick: nat, nounPick: nat): (title: string)
    ensures exists i, j ::
              0 <= i < 7 && 0 <= j < 7 &&
              title == Adjectives[TitleLanguage(language)][i] + " " + Nouns[TitleLanguage(language)][j]
  {
    var lang := TitleLanguage(language);
    var i := adjectivePick % 7;
    var j := nounPick % 7;
    Adjectives[lang][i] + " " + Nouns[lang][j]
  }

  /**
   * generate_title: on status 200 the reply's content stripped of whitespace
   * and then of surrounding double quotes; on any other status or a raised
   * error, the fallback title. It never fails.
   */
  function GenerateTitle(language: string, reply: ChatReply, adjectivePick: nat, nounPick: nat): (title: string)
    ensures reply.Reply? && reply.status == 200 ==>
      title == StripOf(Strip(reply.content), {'"'}) &&
      (title == [] || (title[0] != '"' && title[|title| - 1] != '"'))
    ensures !(reply.Reply? && reply.status == 200) ==> title == FallbackTitle(language, adjectivePick, nounPick)
  {
    if reply.Reply? && reply.status == 200 then StripOf(Strip(reply.content), {'"'})
    else FallbackTitle(language, adjectivePick, nounPick)
  }
}
