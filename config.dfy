/**
 * Settings of the API (api/config.py): the word targets per duration, the
 * language, music and voice tables, the CORS origin list and the DEBUG flag.
 */
module Config {
  import opened Text

  const DurationShortWords: nat := 150
  const DurationMediumWords: nat := 400
  const DurationLongWords: nat := 700

  /** Language name to the ISO code used for speech. */
  const LanguageMap: map<string, string> :=
    map["english" := "en", "french" := "fr", "japanese" := "ja", "indonesian" := "id"]

  /** Music type to the stored background track. */
  const MusicPaths: map<string, string> :=
    map["calming" := "background-music/gentle-lullaby.mp3",
        "soft" := "background-music/dreamy-night.mp3",
        "peaceful" := "background-music/ocean-waves.mp3",
        "soothing" := "background-music/rainfall.mp3",
        "magical" := "background-music/starlight-dreams.mp3"]

  /** Built-in voice names to speech-provider voice ids. */
  const DefaultVoices: map<string, string> :=
    map["ai-1" := "21m00Tcm4TlvDq8ikWAM",
        "ai-2" := "AZnzlk1XvdvUeBnXmlld",
        "ai-3" := "MF3mGyEYCl7XYWbV9V6O",
        "ai-4" := "TxGEqnHWrfWFTfGW9XjX"]

  /** The value CORS_ORIGINS takes when the variable is unset. */
  const DefaultCorsOrigins: string := "*"

  /** A usable origin entry: non-empty, with no whitespace at either end. */
  predicate Origin(o: string) {
    o != "" && !IsSpace(o[0]) && !IsSpace(o[|o| - 1])
  }

  /** The stripped, non-empty pieces of `pieces`, in order. */
  function KeepStripped(pieces: seq<string>): (r: seq<string>)
    ensures |r| <= |pieces|
    ensures forall i | 0 <= i < |r| :: Origin(r[i])
  {
    if pieces == [] then []
    else
      var head := Strip(pieces[0]);
      (if head == "" then [] else [head]) + KeepStripped(pieces[1..])
  }

  /** The CORS_ORIGINS property: "*" alone, or the comma-separated origins. */
  function CorsOrigins(setting: string): (r: seq<string>)
    ensures setting == "*" ==> r == ["*"]
    ensures forall i | 0 <= i < |r| :: Origin(r[i])
  {
    if setting == "*" then ["*"] else KeepStripped(SplitOn(setting, ','))
  }

  /** Keeping stripped pieces distributes over concatenation, so the order of origins is kept. */
  lemma {:induction false} KeepStrippedAppend(a: seq<string>, b: seq<string>)
    ensures KeepStripped(a + b) == KeepStripped(a) + KeepStripped(b)
    decreases |a|
  {
    if a == [] {
      assert a + b == b;
    } else {
      assert (a + b)[1..] == a[1..] + b;
      KeepStrippedAppend(a[1..], b);
    }
  }

  /** Splitting at a comma: the first piece's origin (if any) precedes the rest's. */
  lemma {:induction false} CorsOriginsCons(first: string, rest: string)
    requires ',' !in first
    requires first + "," + rest != "*"
    ensures CorsOrigins(first + "," + rest) ==
      (if Strip(first) == "" then [] else [Strip(first)]) + KeepStripped(SplitOn(rest, ','))
  {
    SplitOnCons(first, rest, ',');
    var tail := SplitOn(rest, ',');
    assert ([first] + tail)[1..] == tail;
  }

  /** A setting without commas names a single origin, or none when it is blank. */
  lemma {:induction false} CorsOriginsSingle(setting: string)
    requires ',' !in setting && setting != "*"
    ensures CorsOrigins(setting) == if Strip(setting) == "" then [] else [Strip(setting)]
  {
    SplitOnNoSep(setting, ',');
    assert [setting][1..] == [];
  }

  /** The DEBUG flag is set iff ENVIRONMENT is exactly "development". */
  function Debug(environment: string): (debug: bool)
    ensures debug <==> environment == "development"
  {
    environment == "development"
  }

}
