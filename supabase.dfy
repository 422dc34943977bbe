/**
 * The storage and table helpers of the database client (api/db/supabase.py):
 * public URLs of stored objects, the upload failure value, story, character
 * and image rows, ordered inserts in batches of ten, and the background
 * music lookup. The database itself is foreign; replies are inputs.
 * The profile functions of this file are modelled with the profile table in
 * the UserRepository module, which applies the same rules.
 */
module Supabase {
  import opened Wrappers
  import opened Text
  import Config

  // ---------------------------------------------------------------- storage

  const PublicObjectInfix: string := "/storage/v1/object/public/"

  /** The public URL of a stored object: SUPABASE_URL + "/storage/v1/object/public/" + path. */
  function PublicUrl(supabaseUrl: string, path: string): (url: string)
    ensures StartsWith(url, supabaseUrl) && EndsWith(url, path)
    ensures |url| == |supabaseUrl| + |PublicObjectInfix| + |path|
  {
    var url := supabaseUrl + PublicObjectInfix + path;
    assert url[..|supabaseUrl|] == supabaseUrl;
    assert url[|url| - |path|..] == path;
    url
  }

  /** The stored path can be read back from its public URL, so distinct paths get distinct URLs. */
  lemma {:induction false} PublicUrlInjective(supabaseUrl: string, p: string, q: string)
    requires PublicUrl(supabaseUrl, p) == PublicUrl(supabaseUrl, q)
    ensures p == q
  {
    var k := |supabaseUrl| + |PublicObjectInfix|;
    assert PublicUrl(supabaseUrl, p)[k..] == p;
    assert PublicUrl(supabaseUrl, q)[k..] == q;
  }

  /** A stored object's path: "{folder}/{user}/{user}_{id}{ext}". */
  function StoragePath(folder: string, userId: string, fileId: string, ext: string): (path: string)
    ensures StartsWith(path, folder + "/" + userId + "/") && EndsWith(path, ext)
  {
    var dir := folder + "/" + userId + "/";
    var path := dir + userId + "_" + fileId + ext;
    assert path[..|dir|] == dir;
    assert path[|path| - |ext|..] == ext;
    path
  }

  /** Where generated speech and mixed audio are stored: "generated-stories/{user}/{user}_{id}.mp3". */
  function GeneratedAudioPath(userId: string, fileId: string): (path: string)
    ensures StartsWith(path, "generated-stories/" + userId + "/") && EndsWith(path, ".mp3")
  {
    StoragePath("generated-stories", userId, fileId, ".mp3")
  }

  /** What the storage service did with an upload. */
  datatype UploadReply = Uploaded(publicUrl: string) | UploadRaised(message: string)

  /** upload_file_to_storage: the public URL, or None when the upload raised. */
  function UploadFileToStorage(reply: UploadReply): (url: Option<string>)
    ensures url.None? <==> reply.UploadRaised?
    ensures reply.Uploaded? ==> url == Some(reply.publicUrl)
  {
    match reply
    case Uploaded(u) => Some(u)
    case UploadRaised(_) => None
  }

  // ---------------------------------------------------------------- rows

  /** LANGUAGE_MAP.get(language, "en"): the ISO code stored with a story. */
  function LanguageCode(language: string): (code: string)
    ensures language in Config.LanguageMap ==> code == Config.LanguageMap[language]
    ensures language !in Config.LanguageMap ==> code == "en"
    ensures code in Config.LanguageMap.Values
  {
    assert Config.LanguageMap["english"] == "en";
    if language in Config.LanguageMap then Config.LanguageMap[language] else "en"
  }

  /** The story columns both story inserts write. */
  datatype StoryRow = StoryRow(
    userId: string,
    title: string,
    textContent: string,
    language: string,
    theme: string,
    duration: int,
    audioUrl: string,
    storagePath: Option<string>,
    backgroundMusicId: Option<string>)

  /** insert_story's row: the language name is stored as its ISO code. */
  function InsertStoryRow(userId: string, title: string, textContent: string, language: string, theme: string,
                          duration: int, audioUrl: string, storagePath: Option<string>,
                          backgroundMusicId: Option<string>): (row: StoryRow)
    ensures row.language == LanguageCode(language)
    ensures row.userId == userId && row.title == title && row.textContent == textContent
    ensures row.theme == theme && row.duration == duration && row.audioUrl == audioUrl
    ensures row.storagePath == storagePath && row.backgroundMusicId == backgroundMusicId
  {
    StoryRow(userId, title, textContent, LanguageCode(language), theme, duration, audioUrl,
             storagePath, backgroundMusicId)
  }

  /** A "description" entry of a character dict: missing, None, or text. */
  datatype Field = Absent | Null | Text(text: string)

  /** A character as the endpoints pass it on: a dict with a name and maybe a description. */
  datatype CharacterDict = CharacterDict(name: string, description: Field)

  /** `character.get("description", "")`: only a missing key becomes ""; a None value stays None. */
  function DescriptionOf(f: Field): (d: Option<string>)
    ensures f.Absent? ==> d == Some("")
    ensures f.Null? ==> d.None?
    ensures f.Text? ==> d == Some(f.text)
  {
    match f
    case Absent => Some("")
    case Null => None
    case Text(s) => Some(s)
  }

  datatype CharacterRow = CharacterRow(storyId: string, name: string, description: Option<string>)

  datatype ImageRow = ImageRow(storyId: string, userId: string, storagePath: string, sequenceIndex: nat)

  /** One character row per character, in order. */
  function CharacterRows(storyId: string, characters: seq<CharacterDict>): (rows: seq<CharacterRow>)
    ensures |rows| == |characters|
    ensures forall i | 0 <= i < |rows| ::
      rows[i] == CharacterRow(storyId, characters[i].name, DescriptionOf(characters[i].description))
  {
    seq(|characters|, i requires 0 <= i < |characters| =>
      CharacterRow(storyId, characters[i].name, DescriptionOf(characters[i].description)))
  }

  /** One image row per path, in order; each row's sequence index is its position. */
  function ImageRows(storyId: string, userId: string, paths: seq<string>): (rows: seq<ImageRow>)
    ensures |rows| == |paths|
    ensures forall i | 0 <= i < |rows| :: rows[i].sequenceIndex == i && rows[i].storagePath == paths[i]
    ensures forall i | 0 <= i < |rows| :: rows[i].storyId == storyId && rows[i].userId == userId
  {
    seq(|paths|, i requires 0 <= i < |paths| => ImageRow(storyId, userId, paths[i], i))
  }

  // ---------------------------------------------------------------- batches

  const BatchSize: nat := 10

  function Flatten<T>(batches: seq<seq<T>>): seq<T>
  {
    if batches == [] then [] else Flatten(batches[..|batches| - 1]) + batches[|batches| - 1]
  }

  /**
   * `for i in range(0, len(rows), 10): insert(rows[i:i+10])`: the batches sent,
   * in order. Every batch holds one to ten rows, only the last may be short,
   * and together they are exactly the rows.
   */
  method InsertInBatches<T>(rows: seq<T>) returns (batches: seq<seq<T>>)
    ensures Flatten(batches) == rows
    ensures forall b | 0 <= b < |batches| :: 0 < |batches[b]| <= BatchSize
    ensures forall b | 0 <= b < |batches| - 1 :: |batches[b]| == BatchSize
    ensures |batches| == (|rows| + BatchSize - 1) / BatchSize
  {
    batches := [];
    var i := 0;
    while i < |rows|
      invariant 0 <= i <= |rows|
      invariant Flatten(batches) == rows[..i]
      invariant forall b | 0 <= b < |batches| :: 0 < |batches[b]| <= BatchSize
      invariant i < |rows| ==> i == BatchSize * |batches|
      invariant i < |rows| ==> forall b | 0 <= b < |batches| :: |batches[b]| == BatchSize
      invariant i == |rows| ==> |batches| == (|rows| + BatchSize - 1) / BatchSize
      invariant i == |rows| ==> forall b | 0 <= b < |batches| - 1 :: |batches[b]| == BatchSize
      decreases |rows| - i
    {
      var end := if i + BatchSize <= |rows| then i + BatchSize else |rows|;
      var batch := rows[i..end];
      assert rows[..end] == rows[..i] + batch;
      assert (batches + [batch])[..|batches|] == batches;
      batches := batches + [batch];
      i := end;
    }
    assert rows[..i] == rows;
  }

  // ---------------------------------------------------------------- music

  /** A background_music row; `storagePath` may be missing. */
  datatype MusicRow = MusicRow(id: Option<string>, category: string, storagePath: Option<string>)

  /** Index of the first row of the category, if there is one. */
  function FirstOfCategory(rows: seq<MusicRow>, category: string): (k: Option<nat>)
    ensures k.Some? ==> k.value < |rows| && rows[k.value].category == category &&
                        forall j | 0 <= j < k.value :: rows[j].category != category
    ensures k.None? ==> forall j | 0 <= j < |rows| :: rows[j].category != category
  {
    if rows == [] then None
    else if rows[0].category == category then Some(0)
    else
      match FirstOfCategory(rows[1..], category)
      case Some(k) => Some(k + 1)
      case None => None
  }

  /**
   * get_background_music: the first row of the requested category, else the
   * first row of the table, else None.
   */
  function GetBackgroundMusic(rows: seq<MusicRow>, musicType: string): (r: Option<MusicRow>)
    ensures r.None? <==> rows == []
    ensures r.Some? ==> r.value in rows
    ensures FirstOfCategory(rows, musicType).Some? ==> r == Some(rows[FirstOfCategory(rows, musicType).value])
    ensures (exists j :: 0 <= j < |rows| && rows[j].category == musicType) ==> r.Some? && r.value.category == musicType
    ensures (forall j | 0 <= j < |rows| :: rows[j].category != musicType) && rows != [] ==> r == Some(rows[0])
  {
    match FirstOfCategory(rows, musicType)
    case Some(k) => Some(rows[k])
    case None => if rows != [] then Some(rows[0]) else None
  }
}
