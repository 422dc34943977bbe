/**
 * The stand-alone lullaby script (app.py): input validation, the
 * multi-scene story prompt, fitting the background music to the narration,
 * the end-to-end control flow and the lazily loaded speech model. The file
 * system is the set of existing paths; captioning, the language model,
 * speech synthesis and audio decoding are foreign, and what they did is an
 * input.
 */
module LullabyApp {
  import opened Wrappers
  import opened Text
  import MusicService

  // ---------------------------------------------------------------- validation

  const ImageExtensions: seq<string> := [".jpg", ".jpeg", ".png", ".JPG", ".JPEG", ".PNG"]
  const AudioExtensions: seq<string> := [".wav", ".mp3", ".m4a", ".WAV", ".MP3", ".M4A"]

  /** `any(path.endswith(ext) for ext in extensions)`: the comparison is case-sensitive. */
  predicate HasExtension(path: string, extensions: seq<string>) {
    exists e | e in extensions :: EndsWith(path, e)
  }

  /** A validator's answer: whether the input is acceptable, and the message. */
  type Verdict = (bool, string)

  /**
   * validate_image_file: a path that does not exist is reported first;
   * then the path must end with one of the six listed extensions.
   */
  function ValidateImageFile(path: string, files: set<string>): (r: Verdict)
    ensures path !in files ==> r == (false, "Image file not found: " + path)
    ensures path in files ==> (r.0 <==> HasExtension(path, ImageExtensions))
    ensures path in files && !r.0 ==> r.1 == "Unsupported image format. Please use: " + Join(ImageExtensions, ", ")
    ensures r.0 ==> r.1 == "Image file is valid"
  {
    if path !in files then (false, "Image file not found: " + path)
    else if !HasExtension(path, ImageExtensions) then
      (false, "Unsupported image format. Please use: " + Join(ImageExtensions, ", "))
    else (true, "Image file is valid")
  }

  /** What `os.path.exists(None)` raises, as the validator's catch-all reports it. */
  const NonePathError: string := "stat: path should be string, bytes, os.PathLike or integer, not NoneType"

  /**
   * validate_audio_file: the same checks with the audio extensions. A
   * missing path (None) makes the existence test raise, which is reported
   * as a validation error.
   */
  function ValidateAudioFile(path: Option<string>, files: set<string>): (r: Verdict)
    ensures path.None? ==> r == (false, "Error validating audio file: " + NonePathError)
    ensures path.Some? && path.value !in files ==> r == (false, "Audio file not found: " + path.value)
    ensures path.Some? && path.value in files ==> (r.0 <==> HasExtension(path.value, AudioExtensions))
    ensures path.Some? && path.value in files && !r.0 ==> r.1 == "Unsupported audio format. Please use: " + Join(AudioExtensions, ", ")
    ensures r.0 ==> r.1 == "Audio file is valid"
  {
    if path.None? then (false, "Error validating audio file: " + NonePathError)
    else if path.value !in files then (false, "Audio file not found: " + path.value)
    else if !HasExtension(path.value, AudioExtensions) then
      (false, "Unsupported audio format. Please use: " + Join(AudioExtensions, ", "))
    else (true, "Audio file is valid")
  }

  /** Only the six spellings are accepted: a mixed-case ".Jpg" file is refused. */
  lemma {:induction false} MixedCaseImageRefused(stem: string, files: set<string>)
    requires stem + ".Jpg" in files
    ensures !ValidateImageFile(stem + ".Jpg", files).0
  {
    var p := stem + ".Jpg";
    assert p[|p| - 4..] == ".Jpg";
    forall e | e in ImageExtensions
      ensures !EndsWith(p, e)
    {
      if |e| == 5 && |p| >= 5 {
        assert p[|p| - 5..][1] == p[|p| - 4] == '.';
      }
    }
  }

  /** Each listed extension is accepted on an existing file, and so is its audio counterpart. */
  lemma {:induction false} ListedExtensionsAccepted(stem: string, i: nat, files: set<string>)
    requires i < |ImageExtensions| && i < |AudioExtensions|
    requires stem + ImageExtensions[i] in files && stem + AudioExtensions[i] in files
    ensures ValidateImageFile(stem + ImageExtensions[i], files) == (true, "Image file is valid")
    ensures ValidateAudioFile(Some(stem + AudioExtensions[i]), files) == (true, "Audio file is valid")
  {
    var image, audio := stem + ImageExtensions[i], stem + AudioExtensions[i];
    assert image[|image| - |ImageExtensions[i]|..] == ImageExtensions[i];
    assert audio[|audio| - |AudioExtensions[i]|..] == AudioExtensions[i];
    assert EndsWith(image, ImageExtensions[i]) && ImageExtensions[i] in ImageExtensions;
    assert EndsWith(audio, AudioExtensions[i]) && AudioExtensions[i] in AudioExtensions;
  }

  /** SUPPORTED_LANGUAGES: code, name and prompt prefix, in declaration order. */
  const SupportedLanguages: seq<(string, string, string)> := [
    ("en", "English", "Create an enchanting"),
    ("id", "Indonesian", "Buatkan cerita pengantar tidur yang menenangkan"),
    ("ja", "Japanese", "心温まる子守唄のようなお話を作成してください"),
    ("fr", "French", "Créez une histoire apaisante")
  ]

  /** The language codes, in declaration order. */
  function LanguageCodes(): (codes: seq<string>)
    ensures |codes| == |SupportedLanguages|
    ensures forall i | 0 <= i < |codes| :: codes[i] == SupportedLanguages[i].0
  {
    seq(|SupportedLanguages|, i requires 0 <= i < |SupportedLanguages| => SupportedLanguages[i].0)
  }

  /** validate_language: only the four codes are supported. */
  function ValidateLanguage(language: string): (r: Verdict)
    ensures r.0 <==> language in {"en", "id", "ja", "fr"}
    ensures r.0 ==> r.1 == "Language is supported"
    ensures !r.0 ==>
      r.1 == "Language '" + language + "' not supported. Supported languages: " + Join(LanguageCodes(), ", ")
  {
    if language !in LanguageCodes() then
      (false, "Language '" + language + "' not supported. Supported languages: " + Join(LanguageCodes(), ", "))
    else (true, "Language is supported")
  }

  /** The prompt prefix of a language; an unknown code falls back to English. */
  function PromptPrefix(language: string): (p: string)
    ensures forall i | 0 <= i < |SupportedLanguages| ::
      language == SupportedLanguages[i].0 ==> p == SupportedLanguages[i].2
    ensures !ValidateLanguage(language).0 ==> p == SupportedLanguages[0].2
  {
    if language == "id" then SupportedLanguages[1].2
    else if language == "ja" then SupportedLanguages[2].2
    else if language == "fr" then SupportedLanguages[3].2
    else SupportedLanguages[0].2
  }

  // ---------------------------------------------------------------- the story prompt

  const DefaultActors: seq<string> := ["the little one", "the gentle friend", "the kind guardian"]

  /** The actors of the story: the given names, or the three defaults for none or an empty list. */
  function ActorsOrDefault(actorNames: Option<seq<string>>): (actors: seq<string>)
    ensures |actors| > 0
    ensures actorNames.Some? && actorNames.value != [] ==> actors == actorNames.value
    ensures actorNames.None? || actorNames.value == [] ==> actors == DefaultActors
  {
    if actorNames.Some? && actorNames.value != [] then actorNames.value else DefaultActors
  }

  /** TRANSITIONS: each kind of transition with its phrases. */
  const Transitions: seq<(string, seq<string>)> := [
    ("time", ["As the sun began to set...", "Later that evening...", "Just then...", "A few moments later...",
              "As time gently passed...", "While the stars began to twinkle..."]),
    ("movement", ["Walking along the path...", "Floating gently through the air...", "Dancing through the scene...",
                  "Drifting peacefully...", "Gliding softly forward..."]),
    ("magic", ["In a sparkle of stardust...", "With a wave of gentle magic...", "Like a dream shifting softly...",
               "As if by magical whispers...", "Through a shimmer of moonlight..."]),
    ("emotion", ["Feeling peaceful and calm...", "With growing wonder...", "Wrapped in warmth and comfort...",
                 "Sharing a gentle smile...", "With hearts full of joy..."])
  ]

  /** "- {kind}: {first two phrases}" */
  function TransitionLine(kind: (string, seq<string>)): string {
    "- " + kind.0 + ": " + Join(kind.1[..if |kind.1| < 2 then |kind.1| else 2], ", ")
  }

  /** The block offered between two scenes. */
  function TransitionsBlock(): string {
    "\nPossible transitions to next scene:\n" +
    Join(seq(|Transitions|, k requires 0 <= k < |Transitions| => TransitionLine(Transitions[k])), "\n") + "\n"
  }

  /** "Scene {i+1} with {actor}: {scenario}" */
  function SceneLine(i: nat, actor: string, scenario: string): string {
    "Scene " + NatToString(i + 1) + " with " + actor + ": " + scenario
  }

  /** The scene prompts: each scene's line, with a transitions block before every scene but the first. */
  function ScenePrompts(scenarios: seq<string>, actors: seq<string>): seq<string>
    requires |actors| > 0
  {
    if scenarios == [] then []
    else
      var n := |scenarios| - 1;
      ScenePrompts(scenarios[..n], actors) + (if n > 0 then [TransitionsBlock()] else []) +
      [SceneLine(n, actors[n % |actors|], scenarios[n])]
  }

  /** Part j of the scene prompts: a transitions block at odd j, otherwise scene j / 2 with its actor. */
  function ScenePart(scenarios: seq<string>, actors: seq<string>, j: nat): string
    requires |actors| > 0 && j / 2 < |scenarios|
  {
    if j % 2 == 1 then TransitionsBlock() else SceneLine(j / 2, actors[(j / 2) % |actors|], scenarios[j / 2])
  }

  /**
   * n scenes give 2n - 1 prompt parts: scene i sits at position 2i and is
   * played by actor i mod (number of actors); every odd position holds the
   * transitions block.
   */
  lemma {:induction false} ScenePromptsShape(scenarios: seq<string>, actors: seq<string>)
    requires |actors| > 0
    ensures |ScenePrompts(scenarios, actors)| == if scenarios == [] then 0 else 2 * |scenarios| - 1
    ensures forall j | 0 <= j < |ScenePrompts(scenarios, actors)| ::
      ScenePrompts(scenarios, actors)[j] == ScenePart(scenarios, actors, j)
    decreases |scenarios|
  {
    if scenarios != [] {
      var n := |scenarios| - 1;
      var init := scenarios[..n];
      ScenePromptsShape(init, actors);
      var prev := ScenePrompts(init, actors);
      var mid := if n > 0 then [TransitionsBlock()] else [];
      var last := SceneLine(n, actors[n % |actors|], scenarios[n]);
      var all := ScenePrompts(scenarios, actors);
      assert all == prev + mid + [last];
      forall j | 0 <= j < |all|
        ensures all[j] == ScenePart(scenarios, actors, j)
      {
        if j < |prev| {
          assert all[j] == prev[j];
          assert prev[j] == ScenePart(init, actors, j);
          assert j / 2 < n;
          assert init[j / 2] == scenarios[j / 2];
        } else if n > 0 && j == |prev| {
          assert j == 2 * n - 1 && j % 2 == 1;
          assert all[j] == TransitionsBlock();
        } else {
          assert j == 2 * n && j % 2 == 0 && j / 2 == n;
          assert all[j] == last;
        }
      }
    }
  }

  /** The fixed part of the prompt after the scenes, line by line. */
  const GuidelineLines: seq<string> := [
    "Story Requirements:",
    "- Theme: Magical and soothing adventure flowing naturally between scenes",
    "- Length: Approximately 1 minutes when read aloud",
    "- Structure: Create a flowing narrative with gentle transitions between scenes",
    "- Characters: Use the provided character names naturally in the story",
    "",
    "Scene Connection Guidelines:",
    "1. Feature the named characters prominently in their scenes",
    "2. Use natural transitions between scenes",
    "3. Create meaningful interactions between characters",
    "4. Maintain continuity in mood and atmosphere",
    "5. Include peaceful pauses between scene transitions",
    "",
    "Elements to Include:",
    "- Each character's unique personality",
    "- Gentle interactions between characters",
    "- Soft sounds and sensory details",
    "- Calming actions and movements",
    "- Soothing repetitive elements",
    "- Relaxing breathing moments",
    "- Gradual transition to sleepiness",
    "",
    "Make the story progressively more calming, leading to a peaceful conclusion."
  ]

  /** The prompt sent to the language model. */
  function Prompt(prefix: string, actors: seq<string>, scenes: seq<string>): string {
    prefix + " bedtime story for children featuring these characters: " + Join(actors, ", ") +
    "\n\nScenes to connect:\n" + Join(scenes, "\n") + "\n\n" + Join(GuidelineLines, "\n")
  }

  /**
   * generate_combined_story: builds the scene prompts one scenario at a
   * time and asks the model; `reply` is the model's text, or the text of
   * the exception the call raised.
   */
  method GenerateCombinedStory(scenarios: seq<string>, actorNames: Option<seq<string>>, language: string,
                               reply: Result<string>)
    returns (prompt: string, story: Result<string>)
    ensures var actors := ActorsOrDefault(actorNames);
      prompt == Prompt(PromptPrefix(language), actors, ScenePrompts(scenarios, actors))
    ensures story == reply
  {
    var actors := ActorsOrDefault(actorNames);
    var prefix := PromptPrefix(language);
    var scenes := BuildScenes(scenarios, actors);
    prompt := Prompt(prefix, actors, scenes);
    story := reply;
  }

  /** The scene loop of generate_combined_story. */
  method BuildScenes(scenarios: seq<string>, actors: seq<string>) returns (scenes: seq<string>)
    requires |actors| > 0
    ensures scenes == ScenePrompts(scenarios, actors)
  {
    scenes := [];
    var i := 0;
    while i < |scenarios|
      invariant 0 <= i <= |scenarios|
      invariant scenes == ScenePrompts(scenarios[..i], actors)
      decreases |scenarios| - i
    {
      var actor := actors[i % |actors|];
      if i > 0 {
        scenes := scenes + [TransitionsBlock()];
      }
      scenes := scenes + [SceneLine(i, actor, scenarios[i])];
      assert scenarios[..i + 1][..i] == scenarios[..i];
      i := i + 1;
    }
    assert scenarios[..i] == scenarios;
  }

  // ---------------------------------------------------------------- speech and music

  /** What synthesising the narration did. */
  datatype SpeechOutcome = FileWritten | FileMissing | SpeechRaised(message: string)

  /**
   * POSIX `os.path.join(a, b)`: an absolute `b` replaces `a`; otherwise `b`
   * is appended, with a "/" in between unless `a` is empty or already ends
   * with one.
   */
  function PathJoin(a: string, b: string): (r: string)
    ensures EndsWith(r, b)
    ensures StartsWith(b, "/") ==> r == b
    ensures !StartsWith(b, "/") ==> |a| <= |r| - |b| <= |a| + 1 && r[..|a|] == a
    ensures !StartsWith(b, "/") && |r| - |b| == |a| + 1 ==> r[|a|] == '/' && a != [] && !EndsWith(a, "/")
    ensures !StartsWith(b, "/") && (a == [] || EndsWith(a, "/")) ==> r == a + b
  {
    if StartsWith(b, "/") then b
    else if a == [] || EndsWith(a, "/") then a + b
    else a + "/" + b
  }

  /** Where text_to_speech writes: `os.path.join(os.path.join(cwd, "output"), output_path)`. */
  function OutputFile(cwd: string, outputPath: string): (p: string)
    ensures StartsWith(outputPath, "/") ==> p == outputPath
    ensures EndsWith(p, outputPath)
  {
    PathJoin(PathJoin(cwd, "output"), outputPath)
  }

  /** The usual case: a working directory without a trailing "/" and a relative file name. */
  lemma {:induction false} OutputFileUsual(cwd: string, outputPath: string)
    requires cwd != [] && !EndsWith(cwd, "/") && !StartsWith(outputPath, "/")
    ensures OutputFile(cwd, outputPath) == cwd + "/output/" + outputPath
  {
    assert !StartsWith("output", "/");
    assert PathJoin(cwd, "output") == cwd + "/output";
    var d := cwd + "/output";
    assert d[|d| - 1] == 't';
    assert (cwd + "/output") + "/" + outputPath == cwd + "/output/" + outputPath;
  }

  /** At the file-system root the join adds no second "/". */
  lemma {:induction false} OutputFileAtRoot(outputPath: string)
    requires !StartsWith(outputPath, "/")
    ensures OutputFile("/", outputPath) == "/output/" + outputPath
  {
    assert "output"[..1] == "o";
    assert EndsWith("/", "/");
    assert PathJoin("/", "output") == "/output";
    var d := "/output";
    assert d[|d| - 1] == 't';
  }

  /**
   * text_to_speech: (True, full output path) when the file exists after
   * synthesis, otherwise False and the reason; it catches its own exceptions.
   */
  function TextToSpeech(cwd: string, outputPath: string, outcome: SpeechOutcome): (r: Verdict)
    ensures r.0 <==> outcome.FileWritten?
    ensures r.0 ==> r.1 == OutputFile(cwd, outputPath)
    ensures outcome.FileMissing? ==> r.1 == "File was not created"
    ensures outcome.SpeechRaised? ==> r.1 == "Error generating speech: " + outcome.message
  {
    match outcome
    case FileWritten => (true, OutputFile(cwd, outputPath))
    case FileMissing => (false, "File was not created")
    case SpeechRaised(message) => (false, "Error generating speech: " + message)
  }

  /**
   * add_background_music: (True, output path) when both tracks load, the
   * background can be fitted to the narration and the mix is written;
   * (False, None) otherwise. `voice` and `background` are the decoded
   * tracks (None: loading raised); the fitted background is returned.
   */
  method AddBackgroundMusic<S>(voice: Option<seq<S>>, background: Option<seq<S>>, exported: bool, outputPath: string)
    returns (success: bool, path: Option<string>, fitted: Option<seq<S>>)
    ensures success <==> voice.Some? && background.Some? &&
                         MusicService.Fitted(|voice.value|, background.value).Ok? && exported
    ensures success ==> path == Some(outputPath)
    ensures !success ==> path.None?
    ensures voice.Some? && background.Some? && MusicService.Fitted(|voice.value|, background.value).Ok? ==>
      fitted == Some(MusicService.Fitted(|voice.value|, background.value).value) && |fitted.value| == |voice.value|
  {
    fitted := None;
    if voice.None? || background.None? {
      return false, None, None;
    }
    var track := MusicService.FitBackground(|voice.value|, background.value);
    if track.Err? {
      return false, None, None;
    }
    fitted := Some(track.value);
    if !exported {
      return false, None, fitted;
    }
    success, path := true, Some(outputPath);
  }

  // ---------------------------------------------------------------- the whole run

  /** The first invalid image's message, if any image is invalid. */
  function FirstImageError(paths: seq<string>, files: set<string>): (e: Option<string>)
    ensures e.None? <==> forall i | 0 <= i < |paths| :: ValidateImageFile(paths[i], files).0
  {
    if paths == [] then None
    else if !ValidateImageFile(paths[0], files).0 then Some(ValidateImageFile(paths[0], files).1)
    else
      assert forall i | 1 <= i < |paths| :: paths[i] == paths[1..][i - 1];
      FirstImageError(paths[1..], files)
  }

  /** When image k is the first that fails, the reported error is its message. */
  lemma {:induction false} FirstImageErrorAt(paths: seq<string>, files: set<string>, k: nat)
    requires k < |paths| && !ValidateImageFile(paths[k], files).0
    requires forall j | 0 <= j < k :: ValidateImageFile(paths[j], files).0
    ensures FirstImageError(paths, files) == Some(ValidateImageFile(paths[k], files).1)
    decreases k
  {
    if k > 0 {
      var rest := paths[1..];
      assert rest[k - 1] == paths[k];
      assert forall j | 0 <= j < k - 1 :: rest[j] == paths[j + 1];
      FirstImageErrorAt(rest, files, k - 1);
    }
  }

  /** The first input error, in the order images, reference voice, background music (when given). */
  function ValidationError(imagePaths: seq<string>, voicePath: Option<string>, musicPath: Option<string>,
                           files: set<string>): Option<string>
  {
    if FirstImageError(imagePaths, files).Some? then FirstImageError(imagePaths, files)
    else if !ValidateAudioFile(voicePath, files).0 then Some(ValidateAudioFile(voicePath, files).1)
    else if Truthy(musicPath) && !ValidateAudioFile(musicPath, files).0 then Some(ValidateAudioFile(musicPath, files).1)
    else None
  }

  /** Generation starts exactly when every image, the voice and any given music pass validation. */
  lemma {:induction false} ValidationPasses(imagePaths: seq<string>, voicePath: Option<string>,
                                            musicPath: Option<string>, files: set<string>)
    ensures ValidationError(imagePaths, voicePath, musicPath, files).None? <==>
      && (forall i | 0 <= i < |imagePaths| :: ValidateImageFile(imagePaths[i], files).0)
      && ValidateAudioFile(voicePath, files).0
      && (Truthy(musicPath) ==> ValidateAudioFile(musicPath, files).0)
    ensures ValidationError(imagePaths, voicePath, musicPath, files).Some? &&
            (exists i | 0 <= i < |imagePaths| :: !ValidateImageFile(imagePaths[i], files).0) ==>
      ValidationError(imagePaths, voicePath, musicPath, files) == FirstImageError(imagePaths, files)
  {
  }

  /** The validation loop of generate_multi_image_lullaby: images in order, then the voice, then the music. */
  method ValidateInputs(imagePaths: seq<string>, voicePath: Option<string>, musicPath: Option<string>,
                        files: set<string>)
    returns (error: Option<string>)
    ensures error == ValidationError(imagePaths, voicePath, musicPath, files)
  {
    var i := 0;
    while i < |imagePaths|
      invariant 0 <= i <= |imagePaths|
      invariant forall j | 0 <= j < i :: ValidateImageFile(imagePaths[j], files).0
      decreases |imagePaths| - i
    {
      var (valid, msg) := ValidateImageFile(imagePaths[i], files);
      if !valid {
        FirstImageErrorAt(imagePaths, files, i);
        return Some(msg);
      }
      i := i + 1;
    }
    var (voiceValid, voiceMsg) := ValidateAudioFile(voicePath, files);
    if !voiceValid {
      return Some(voiceMsg);
    }
    if Truthy(musicPath) {
      var (musicValid, musicMsg) := ValidateAudioFile(musicPath, files);
      if !musicValid {
        return Some(musicMsg);
      }
    }
    error := None;
  }

  /** What the foreign stages of one run did. */
  datatype RunOutcomes<S> = RunOutcomes(
    scenarios: Result<seq<string>>,  // analyze_multiple_images, or the text of what it raised
    storyReply: Result<string>,      // the language model's story, or the text of what it raised
    speech: SpeechOutcome,
    voice: Option<seq<S>>,           // the narration as decoded for mixing
    music: Option<seq<S>>,           // the background track as decoded for mixing
    exported: bool)

  /**
   * generate_multi_image_lullaby: (None, first validation error) before any
   * generation; (None, error text) when analysis or story generation
   * raises; otherwise the story with the mixed file's path, or with the
   * speech message when speech or mixing failed.
   */
  method GenerateMultiImageLullaby<S>(imagePaths: seq<string>, actorNames: Option<seq<string>>,
                                      referenceVoicePath: Option<string>, language: string,
                                      backgroundMusicPath: Option<string>, files: set<string>,
                                      cwd: string, timestamp: string, out: RunOutcomes<S>)
    returns (story: Option<string>, detail: string, prompt: Option<string>)
    ensures var invalid := ValidationError(imagePaths, referenceVoicePath, backgroundMusicPath, files);
      invalid.Some? ==> story.None? && detail == invalid.value && prompt.None?
    ensures ValidationError(imagePaths, referenceVoicePath, backgroundMusicPath, files).None? ==>
      && (out.scenarios.Err? ==> story.None? && detail == out.scenarios.error && prompt.None?)
      && (out.scenarios.Ok? ==>
            var actors := ActorsOrDefault(actorNames);
            prompt == Some(Prompt(PromptPrefix(language), actors, ScenePrompts(out.scenarios.value, actors))))
      && (out.scenarios.Ok? && out.storyReply.Err? ==> story.None? && detail == out.storyReply.error)
      && (out.scenarios.Ok? && out.storyReply.Ok? ==>
            && story == Some(out.storyReply.value)
            && var speech := TextToSpeech(cwd, "combined_story_" + timestamp + ".wav", out.speech);
               var mixed := speech.0 && out.voice.Some? && out.music.Some? && Truthy(backgroundMusicPath) &&
                            MusicService.Fitted(|out.voice.value|, out.music.value).Ok? && out.exported;
               detail == if mixed then "output/final_mix_" + timestamp + ".wav" else speech.1)
  {
    prompt := None;
    var invalid := ValidateInputs(imagePaths, referenceVoicePath, backgroundMusicPath, files);
    if invalid.Some? {
      return None, invalid.value, None;
    }

    if out.scenarios.Err? {
      return None, out.scenarios.error, None;
    }
    var p, generated := GenerateCombinedStory(out.scenarios.value, actorNames, language, out.storyReply);
    prompt := Some(p);
    if generated.Err? {
      return None, generated.error, prompt;
    }
    story := Some(generated.value);
    detail := NarrateAndMix(backgroundMusicPath, cwd, timestamp, out);
  }

  /** The speech and mixing steps of generate_multi_image_lullaby: the mixed file's path, or the speech message. */
  method NarrateAndMix<S>(backgroundMusicPath: Option<string>, cwd: string, timestamp: string, out: RunOutcomes<S>)
    returns (detail: string)
    ensures var speech := TextToSpeech(cwd, "combined_story_" + timestamp + ".wav", out.speech);
      var mixed := speech.0 && out.voice.Some? && out.music.Some? && Truthy(backgroundMusicPath) &&
                   MusicService.Fitted(|out.voice.value|, out.music.value).Ok? && out.exported;
      detail == if mixed then "output/final_mix_" + timestamp + ".wav" else speech.1
  {
    var speechOutput := "combined_story_" + timestamp + ".wav";
    var (success, message) := TextToSpeech(cwd, speechOutput, out.speech);
    detail := message;
    if success {
      var finalOutput := "output/final_mix_" + timestamp + ".wav";
      var music := if Truthy(backgroundMusicPath) then out.music else None;
      var mixSuccess, finalPath, _ := AddBackgroundMusic(out.voice, music, out.exported, finalOutput);
      if mixSuccess {
        detail := finalPath.value;
      }
    }
  }

  // ---------------------------------------------------------------- the speech model cache

  /** The speech model the cache loads: XTTS v2 on the CPU, with a progress bar. */
  datatype TtsModel = TtsModel(name: string, progressBar: bool, gpu: bool)

  const XttsV2: TtsModel := TtsModel("tts_models/multilingual/multi-dataset/xtts_v2", true, false)

  /** TTSModelCache: one instance holding the model once it has been loaded. */
  class TtsModelCache {
    var model: Option<TtsModel>
    /** How many times the model has been constructed. */
    ghost var loads: nat

    ghost predicate Valid()
      reads this
    {
      && loads == (if model.Some? then 1 else 0)
      && (model.Some? ==> model.value == XttsV2)
    }

    constructor()
      ensures Valid() && model.None?
    {
      model := None;
      loads := 0;
    }

    /** get_model: loads the model on the first call and returns the same one afterwards. */
    method GetModel() returns (m: TtsModel)
      requires Valid()
      modifies this
      ensures Valid()
      ensures m == XttsV2 && model == Some(m)
      ensures loads <= 1
      ensures old(model).Some? ==> loads == old(loads)
    {
      if model.None? {
        model := Some(XttsV2);
        loads := loads + 1;
      }
      m := model.value;
    }
  }

  /** The class object, holding the shared instance once created. */
  class TtsModelCacheClass {
    var instance: TtsModelCache?

    constructor()
      ensures instance == null
    {
      instance := null;
    }

    /** get_instance: creates the instance on the first call and returns that same instance ever after. */
    method GetInstance() returns (c: TtsModelCache)
      modifies this
      ensures instance == c
      ensures old(instance) != null ==> c == old(instance)
      ensures old(instance) == null ==> fresh(c) && c.Valid() && c.model.None?
    {
      if instance == null {
        instance := new TtsModelCache();
      }
      c := instance;
    }
  }
}
