/**
 * Request and response records of the API (api/models/story.py): the four
 * string enumerations a request is validated against and the records built
 * from them.
 */
module Models {
  import opened Wrappers
  import Config

  // ---------------------------------------------------------------- enums

  datatype Theme = Adventure | Fantasy | Bedtime | Educational | Customized {
    /** The string the enumeration member stands for. */
    function Value(): string {
      match this
      case Adventure => "adventure"
      case Fantasy => "fantasy"
      case Bedtime => "bedtime"
      case Educational => "educational"
      case Customized => "customized"
    }
  }

  datatype Duration = Short | Medium | Long {
    function Value(): string {
      match this
      case Short => "short"
      case Medium => "medium"
      case Long => "long"
    }
  }

  datatype Language = English | French | Japanese | Indonesian {
    function Value(): string {
      match this
      case English => "english"
      case French => "french"
      case Japanese => "japanese"
      case Indonesian => "indonesian"
    }
  }

  datatype Music = Calming | Soft | Peaceful | Soothing | Magical {
    function Value(): string {
      match this
      case Calming => "calming"
      case Soft => "soft"
      case Peaceful => "peaceful"
      case Soothing => "soothing"
      case Magical => "magical"
    }
  }

  const ThemeValues: set<string> := {"adventure", "fantasy", "bedtime", "educational", "customized"}
  const DurationValues: set<string> := {"short", "medium", "long"}
  const LanguageValues: set<string> := {"english", "french", "japanese", "indonesian"}
  const MusicValues: set<string> := {"calming", "soft", "peaceful", "soothing", "magical"}

  /** Request validation of a theme string: accepted exactly when it is a member's value. */
  function ParseTheme(s: string): (r: Option<Theme>)
    ensures r.Some? <==> s in ThemeValues
    ensures r.Some? ==> r.value.Value() == s
  {
    if s == "adventure" then Some(Adventure)
    else if s == "fantasy" then Some(Fantasy)
    else if s == "bedtime" then Some(Bedtime)
    else if s == "educational" then Some(Educational)
    else if s == "customized" then Some(Customized)
    else None
  }

  function ParseDuration(s: string): (r: Option<Duration>)
    ensures r.Some? <==> s in DurationValues
    ensures r.Some? ==> r.value.Value() == s
  {
    if s == "short" then Some(Short)
    else if s == "medium" then Some(Medium)
    else if s == "long" then Some(Long)
    else None
  }

  function ParseLanguage(s: string): (r: Option<Language>)
    ensures r.Some? <==> s in LanguageValues
    ensures r.Some? ==> r.value.Value() == s
  {
    if s == "english" then Some(English)
    else if s == "french" then Some(French)
    else if s == "japanese" then Some(Japanese)
    else if s == "indonesian" then Some(Indonesian)
    else None
  }

  function ParseMusic(s: string): (r: Option<Music>)
    ensures r.Some? <==> s in MusicValues
    ensures r.Some? ==> r.value.Value() == s
  {
    if s == "calming" then Some(Calming)
    else if s == "soft" then Some(Soft)
    else if s == "peaceful" then Some(Peaceful)
    else if s == "soothing" then Some(Soothing)
    else if s == "magical" then Some(Magical)
    else None
  }

  /** Every member's value parses back to that member. */
  lemma EnumRoundTrips(t: Theme, d: Duration, l: Language, m: Music)
    ensures ParseTheme(t.Value()) == Some(t)
    ensures ParseDuration(d.Value()) == Some(d)
    ensures ParseLanguage(l.Value()) == Some(l)
    ensures ParseMusic(m.Value()) == Some(m)
  {
  }

  /** The language enumeration names exactly the keys of the ISO-code table. */
  lemma LanguageValuesAreLanguageMapKeys()
    ensures LanguageValues == Config.LanguageMap.Keys
  {
  }

  /** The music enumeration names exactly the keys of the track table. */
  lemma MusicValuesAreMusicPathKeys()
    ensures MusicValues == Config.MusicPaths.Keys
  {
  }

  // ---------------------------------------------------------------- records

  /** A character of the story; the description may be absent. */
  datatype Character = Character(name: string, description: Option<string>)

  /** The synchronous generation request; `userId` is mandatory. */
  datatype StoryGenerationRequest = StoryGenerationRequest(
    images: seq<string>,
    characters: seq<Character>,
    theme: Theme,
    duration: Duration,
    language: Language,
    backgroundMusic: Option<Music>,
    voice: Option<string>,
    userId: string)

  /** The asynchronous request: no user id, and an optional callback URL. */
  datatype WebhookGenerationRequest = WebhookGenerationRequest(
    images: seq<string>,
    characters: seq<Character>,
    theme: Theme,
    duration: Duration,
    language: Language,
    backgroundMusic: Option<Music>,
    voice: Option<string>,
    callbackUrl: Option<string>)

  datatype StoryGenerationResponse = StoryGenerationResponse(
    success: bool,
    storyId: Option<string>,
    title: Option<string>,
    textContent: Option<string>,
    audioUrl: Option<string>,
    duration: Option<int>,
    error: Option<string>)

  /** A response built from `success` alone: every other field keeps its default None. */
  function BareResponse(success: bool): (r: StoryGenerationResponse)
    ensures r.success == success
    ensures r.storyId.None? && r.title.None? && r.textContent.None?
    ensures r.audioUrl.None? && r.duration.None? && r.error.None?
  {
    StoryGenerationResponse(success, None, None, None, None, None, None)
  }

  /** A failure response: success false and the error text, nothing else set. */
  function FailureResponse(error: string): (r: StoryGenerationResponse)
    ensures !r.success && r.error == Some(error)
    ensures r.storyId.None? && r.audioUrl.None? && r.duration.None?
  {
    BareResponse(false).(error := Some(error))
  }
}
