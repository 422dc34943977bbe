/**
 * Image handling (api/services/image_service.py): classifying an image
 * source, reading a data-URL header, the captioning fallbacks and storing
 * uploaded images. Downloading, base64 decoding, the captioning model and
 * the storage upload are foreign; what they did is an input per source,
 * and `fileIds` stand for the fresh uuids.
 */
module ImageService {
  import opened Wrappers
  import opened Text
  import Supabase

  /** is_url */
  predicate IsUrl(text: string) {
    StartsWith(text, "http://") || StartsWith(text, "https://")
  }

  /** How a source is read: URLs first, then inline base64 data, else a storage or file path. */
  datatype SourceKind = Url | Base64 | Path

  function Classify(source: string): (k: SourceKind)
    ensures k == Url <==> IsUrl(source)
    ensures k == Base64 <==> !IsUrl(source) && (StartsWith(source, "data:image") || Contains(source, "base64"))
  {
    if IsUrl(source) then Url
    else if StartsWith(source, "data:image") || Contains(source, "base64") then Base64
    else Path
  }

  /** A data URL is never mistaken for a web address. */
  lemma {:induction false} DataUrlIsBase64(payload: string)
    ensures Classify("data:image" + payload) == Base64
  {
    var s := "data:image" + payload;
    assert s[..|"data:image"|] == "data:image";
    assert s[0] == 'd';
  }

  const DefaultContentType: string := "image/jpeg"

  /**
   * process_base64_image without the decoding: the base64 text and the
   * content type. With a comma, the text after the first comma is the data
   * and the type is the header's text after its first ':' up to the next
   * ':' or ';'; a header without ':' makes the indexing raise. Without a
   * comma the whole string is data and the type is "image/jpeg".
   */
  function ProcessBase64(source: string): (r: Option<(string, string)>)
    ensures ',' !in source ==> r == Some((source, DefaultContentType))
    ensures ',' in source ==>
      var i := IndexOf(source, ',');
      (r.Some? <==> |SplitOn(source[..i], ':')| >= 2) &&
      (r.Some? ==> r.value.0 == source[i + 1..] && r.value.1 == SplitOn(SplitOn(source[..i], ':')[1], ';')[0])
  {
    if ',' in source then
      var i := IndexOf(source, ',');
      var pieces := SplitOn(source[..i], ':');
      if |pieces| < 2 then None
      else Some((source[i + 1..], SplitOn(pieces[1], ';')[0]))
    else Some((source, DefaultContentType))
  }

  /** A well-formed data URL "data:{type};base64,{data}" yields its type and its data. */
  lemma {:induction false} DataUrlParts(contentType: string, data: string)
    requires ':' !in contentType && ';' !in contentType && ',' !in contentType
    ensures ProcessBase64("data:" + contentType + ";base64," + data) == Some((data, contentType))
  {
    var source := "data:" + contentType + ";base64," + data;
    var header := "data:" + contentType + ";base64";
    assert source == header + "," + data;
    assert ',' !in header;
    IndexOfAfter(header, ',', data);
    assert source[..|header|] == header;
    assert source[|header| + 1..] == data;
    assert header == "data" + [':'] + (contentType + ";base64");
    SplitOnCons("data", contentType + ";base64", ':');
    assert ':' !in contentType + ";base64";
    SplitOnNoSep(contentType + ";base64", ':');
    assert contentType + ";base64" == contentType + [';'] + "base64";
    SplitOnCons(contentType, "base64", ';');
  }

  // ---------------------------------------------------------------- captions

  /** What captioning one image did. */
  datatype Captioning =
    | Captions(texts: seq<string>)  // the model's captions for the opened image
    | CaptionRaised                 // downloading, decoding, opening or the model raised
    | ModelInitRaised               // the model could not be loaded

  const NoClearDescription: string := "An image without a clear description."
  const CouldNotProcess: string := "An image that could not be processed."
  const CouldNotAnalyze: string := "An image that could not be analyzed."

  /**
   * img2text: the first caption; a fixed text for an empty result; another
   * for any failure after the model is loaded, including a data-URL header
   * that cannot be read. A model that cannot load makes it raise (None).
   */
  function Img2Text(source: string, outcome: Captioning): (r: Option<string>)
    ensures r.None? <==> outcome.ModelInitRaised?
    ensures outcome.Captions? && !(Classify(source) == Base64 && ProcessBase64(source).None?) ==>
      r == Some(if outcome.texts != [] then outcome.texts[0] else NoClearDescription)
    ensures outcome.CaptionRaised? || (outcome.Captions? && Classify(source) == Base64 && ProcessBase64(source).None?) ==>
      r == Some(CouldNotProcess)
  {
    match outcome
    case ModelInitRaised => None
    case CaptionRaised => Some(CouldNotProcess)
    case Captions(texts) =>
      if Classify(source) == Base64 && ProcessBase64(source).None? then Some(CouldNotProcess)
      else if texts != [] then Some(texts[0])
      else Some(NoClearDescription)
  }

  /** The scenario analyze_multiple_images records for one source. */
  function Scenario(source: string, outcome: Captioning): (s: string)
    ensures s == Img2Text(source, outcome).GetOr(CouldNotAnalyze)
    ensures s in {CouldNotAnalyze, CouldNotProcess, NoClearDescription} || (outcome.Captions? && s == outcome.texts[0])
  {
    Img2Text(source, outcome).GetOr(CouldNotAnalyze)
  }

  /** analyze_multiple_images: exactly one scenario per source, in order. */
  method AnalyzeMultipleImages(sources: seq<string>, outcomes: seq<Captioning>) returns (scenarios: seq<string>)
    requires |outcomes| == |sources|
    ensures |scenarios| == |sources|
    ensures forall i | 0 <= i < |sources| :: scenarios[i] == Scenario(sources[i], outcomes[i])
  {
    scenarios := [];
    var i := 0;
    while i < |sources|
      invariant 0 <= i <= |sources|
      invariant |scenarios| == i
      invariant forall j | 0 <= j < i :: scenarios[j] == Scenario(sources[j], outcomes[j])
      decreases |sources| - i
    {
      var caption := Img2Text(sources[i], outcomes[i]);
      if caption.Some? {
        scenarios := scenarios + [caption.value];
      } else {
        scenarios := scenarios + [CouldNotAnalyze];
      }
      i := i + 1;
    }
  }

  // ---------------------------------------------------------------- storage

  /** What fetching one URL or base64 source and uploading it did. */
  datatype StoreOutcome = StoreOutcome(fetched: bool, upload: Supabase.UploadReply)

  /** "user-uploads/{user_id}/{user_id}_{uuid}.jpg" */
  function UploadPath(userId: string, fileId: string): (path: string)
    ensures StartsWith(path, "user-uploads/" + userId + "/") && EndsWith(path, ".jpg")
  {
    Supabase.StoragePath("user-uploads", userId, fileId, ".jpg")
  }

  /** The path store_images keeps for one source, if any. */
  function StoredPath(userId: string, source: string, fileId: string, outcome: StoreOutcome): (p: Option<string>)
    ensures Classify(source) == Path ==> p == Some(source)
    ensures Classify(source) != Path ==>
      (p.Some? <==> outcome.fetched && outcome.upload.Uploaded? && outcome.upload.publicUrl != "" &&
                    (Classify(source) == Base64 ==> ProcessBase64(source).Some?))
    ensures Classify(source) != Path && p.Some? ==> p.value == UploadPath(userId, fileId)
  {
    match Classify(source)
    case Path => Some(source)
    case Url =>
      if outcome.fetched && Truthy(Supabase.UploadFileToStorage(outcome.upload)) then Some(UploadPath(userId, fileId)) else None
    case Base64 =>
      if ProcessBase64(source).Some? && outcome.fetched && Truthy(Supabase.UploadFileToStorage(outcome.upload))
      then Some(UploadPath(userId, fileId)) else None
  }

  /** The kept paths of a list of sources, in order. */
  function StoredPaths(userId: string, sources: seq<string>, fileIds: seq<string>, outcomes: seq<StoreOutcome>)
    : (paths: seq<string>)
    requires |fileIds| == |sources| && |outcomes| == |sources|
    ensures |paths| <= |sources|
  {
    if sources == [] then []
    else
      var n := |sources| - 1;
      var p := StoredPath(userId, sources[n], fileIds[n], outcomes[n]);
      StoredPaths(userId, sources[..n], fileIds[..n], outcomes[..n]) + (if p.Some? then [p.value] else [])
  }

  /**
   * store_images: the kept path of every source in input order, failures
   * dropped. Paths pass through unchanged; uploads land under the user's
   * folder.
   */
  method StoreImages(userId: string, sources: seq<string>, fileIds: seq<string>, outcomes: seq<StoreOutcome>)
    returns (imagePaths: seq<string>)
    requires |fileIds| == |sources| && |outcomes| == |sources|
    ensures imagePaths == StoredPaths(userId, sources, fileIds, outcomes)
    ensures |imagePaths| <= |sources|
  {
    imagePaths := [];
    var idx := 0;
    while idx < |sources|
      invariant 0 <= idx <= |sources|
      invariant imagePaths == StoredPaths(userId, sources[..idx], fileIds[..idx], outcomes[..idx])
      decreases |sources| - idx
    {
      var source := sources[idx];
      var filePath := UploadPath(userId, fileIds[idx]);
      var kind := Classify(source);
      assert sources[..idx + 1][..idx] == sources[..idx];
      assert fileIds[..idx + 1][..idx] == fileIds[..idx];
      assert outcomes[..idx + 1][..idx] == outcomes[..idx];
      if kind == Path {
        imagePaths := imagePaths + [source];
      } else {
        var ok := outcomes[idx].fetched;
        if kind == Base64 && ProcessBase64(source).None? {
          ok := false;
        }
        if ok {
          var fileUrl := Supabase.UploadFileToStorage(outcomes[idx].upload);
          if Truthy(fileUrl) {
            imagePaths := imagePaths + [filePath];
          }
        }
      }
      idx := idx + 1;
    }
    assert sources[..idx] == sources && fileIds[..idx] == fileIds && outcomes[..idx] == outcomes;
  }

  /** Every stored path is a passed-through path source or an upload under the user's folder. */
  lemma {:induction false} StoredPathsShape(userId: string, sources: seq<string>, fileIds: seq<string>, outcomes: seq<StoreOutcome>)
    requires |fileIds| == |sources| && |outcomes| == |sources|
    ensures forall p | p in StoredPaths(userId, sources, fileIds, outcomes) ::
      (p in sources && Classify(p) == Path) || StartsWith(p, "user-uploads/" + userId + "/")
    decreases |sources|
  {
    if sources != [] {
      var n := |sources| - 1;
      StoredPathsShape(userId, sources[..n], fileIds[..n], outcomes[..n]);
      forall p | p in StoredPaths(userId, sources[..n], fileIds[..n], outcomes[..n])
        ensures p in sources[..n] ==> p in sources
      {
      }
    }
  }

  /** When every source is a path, store_images returns the sources unchanged. */
  lemma {:induction false} PathsPassThrough(userId: string, sources: seq<string>, fileIds: seq<string>, outcomes: seq<StoreOutcome>)
    requires |fileIds| == |sources| && |outcomes| == |sources|
    requires forall i | 0 <= i < |sources| :: Classify(sources[i]) == Path
    ensures StoredPaths(userId, sources, fileIds, outcomes) == sources
    decreases |sources|
  {
    if sources != [] {
      var n := |sources| - 1;
      PathsPassThrough(userId, sources[..n], fileIds[..n], outcomes[..n]);
      assert sources == sources[..n] + [sources[n]];
    }
  }
}
