/**
 * Background music (api/services/music_service.py): downloading stored
 * audio, finding a track for a music type, and fitting that track under the
 * narration before the mix is uploaded.
 *
 * HTTP replies, the music table and upload replies are inputs. Decoded audio
 * is a sequence of samples (one per millisecond, as pydub counts length);
 * only the looping and trimming of the background is modelled, not the
 * volume change, the overlay or the export.
 */
module MusicService {
  import opened Wrappers
  import Supabase
  import Arith

  /** What an HTTP GET gave back. */
  datatype FetchReply = Fetched(status: int, data: seq<bv8>) | FetchRaised(message: string)

  /** download_file: the body exactly when the status is 200. */
  function DownloadFile(reply: FetchReply): (data: Option<seq<bv8>>)
    ensures data.Some? <==> reply.Fetched? && reply.status == 200
    ensures data.Some? ==> data.value == reply.data
  {
    match reply
    case Fetched(status, body) => if status == 200 then Some(body) else None
    case FetchRaised(_) => None
  }

  /** The URL download_audio_file requests and the local copy it produces, if any. */
  datatype AudioDownload = AudioDownload(url: string, localPath: Option<string>)

  /**
   * download_audio_file: fetches the object's public URL; a failed fetch or
   * an empty body gives (False, None), otherwise the body is saved to
   * `tempPath`.
   */
  function DownloadAudioFile(supabaseUrl: string, storagePath: string, reply: FetchReply, tempPath: string)
    : (d: AudioDownload)
    ensures d.url == Supabase.PublicUrl(supabaseUrl, storagePath)
    ensures d.localPath.Some? <==> reply.Fetched? && reply.status == 200 && reply.data != []
    ensures d.localPath.Some? ==> d.localPath.value == tempPath
  {
    var url := Supabase.PublicUrl(supabaseUrl, storagePath);
    match DownloadFile(reply)
    case Some(data) => if data != [] then AudioDownload(url, Some(tempPath)) else AudioDownload(url, None)
    case None => AudioDownload(url, None)
  }

  /** get_music_file's triple (success, local path, music info). */
  datatype MusicFile = MusicFile(success: bool, localPath: Option<string>, info: Option<Supabase.MusicRow>)

  /**
   * get_music_file: looks the type up in the music table, then downloads the
   * track. No row gives (False, None, None); a row without a storage path,
   * or a failed download, gives (False, None, row); else (True, path, row).
   */
  function GetMusicFile(supabaseUrl: string, rows: seq<Supabase.MusicRow>, musicType: string,
                        reply: FetchReply, tempPath: string): (f: MusicFile)
    ensures var info := Supabase.GetBackgroundMusic(rows, musicType);
      && (info.None? ==> f == MusicFile(false, None, None))
      && (info.Some? && !Truthy(info.value.storagePath) ==> f == MusicFile(false, None, info))
      && (info.Some? && Truthy(info.value.storagePath) ==>
            f.info == info &&
            (f.success <==> DownloadAudioFile(supabaseUrl, info.value.storagePath.value, reply, tempPath).localPath.Some?))
    ensures f.success <==> f.localPath.Some?
  {
    var info := Supabase.GetBackgroundMusic(rows, musicType);
    if info.None? then MusicFile(false, None, None)
    else if !Truthy(info.value.storagePath) then MusicFile(false, None, info)
    else
      var d := DownloadAudioFile(supabaseUrl, info.value.storagePath.value, reply, tempPath);
      if d.localPath.None? then MusicFile(false, None, info) else MusicFile(true, d.localPath, info)
  }

  // ---------------------------------------------------------------- loop and trim

  /** `segment * n`: the segment played n times in a row. */
  function Repeat<S>(s: seq<S>, n: nat): (r: seq<S>)
    ensures |r| == n * |s|
    ensures forall i | 0 <= i < |r| :: r[i] == s[i % |s|]
  {
    if n == 0 then []
    else
      var prev := Repeat(s, n - 1);
      assert (n - 1) * |s| + |s| == n * |s|;
      var r := prev + s;
      assert forall i | |prev| <= i < |r| :: r[i] == s[i % |s|] by {
        forall i | |prev| <= i < |r|
          ensures r[i] == s[i % |s|]
        {
          Arith.DivModUnique(i, |s|, n - 1, i - |prev|);
        }
      }
      r
  }

  /** The message Python gives for `n // 0`. */
  const ZeroDivisionMessage: string := "integer division or modulo by zero"

  /**
   * The background as the mixer uses it: looped `len(voice) // len(bg) + 1`
   * times when shorter than the voice, then cut to the voice's length.
   */
  function Fitted<S>(voiceLength: nat, background: seq<S>): Result<seq<S>>
  {
    if |background| < voiceLength then
      if |background| == 0 then Err(ZeroDivisionMessage)
      else Ok(Repeat(background, voiceLength / |background| + 1)[..voiceLength])
    else Ok(background[..voiceLength])
  }

  /** Looping `len(voice) // len(bg) + 1` times always gives more than the voice's length. */
  lemma {:induction false} LoopCoversVoice(voiceLength: nat, backgroundLength: nat)
    requires 0 < backgroundLength
    ensures (voiceLength / backgroundLength + 1) * backgroundLength > voiceLength
  {
    var q := voiceLength / backgroundLength;
    assert (q + 1) * backgroundLength == q * backgroundLength + backgroundLength;
  }

  /**
   * The fitted background is exactly as long as the voice and plays the
   * track from its start, wrapping around; only an empty track under a
   * non-empty voice fails, with Python's division-by-zero message.
   */
  lemma {:induction false} FittedSpec<S>(voiceLength: nat, background: seq<S>)
    ensures Fitted(voiceLength, background).Err? <==> |background| == 0 && voiceLength > 0
    ensures Fitted(voiceLength, background).Err? ==> Fitted(voiceLength, background).error == ZeroDivisionMessage
    ensures Fitted(voiceLength, background).Ok? ==>
      var b := Fitted(voiceLength, background).value;
      |b| == voiceLength && forall i | 0 <= i < |b| :: b[i] == background[i % |background|]
  {
    var n := |background|;
    if 0 < n < voiceLength {
      LoopCoversVoice(voiceLength, n);
      var looped := Repeat(background, voiceLength / n + 1);
      assert Fitted(voiceLength, background) == Ok(looped[..voiceLength]);
    } else if voiceLength <= n {
      var b := background[..voiceLength];
      assert Fitted(voiceLength, background) == Ok(b);
      forall i | 0 <= i < |b|
        ensures b[i] == background[i % n]
      {
        Arith.DivModUnique(i, n, 0, i);
      }
    }
  }

  /** Reassigns the background step by step, as the mixer does. */
  method FitBackground<S>(voiceLength: nat, background: seq<S>) returns (r: Result<seq<S>>)
    ensures r == Fitted(voiceLength, background)
    ensures r.Ok? ==> |r.value| == voiceLength
  {
    FittedSpec(voiceLength, background);
    var track := background;
    if |track| < voiceLength {
      if |track| == 0 {
        return Err(ZeroDivisionMessage);
      }
      var times := voiceLength / |track| + 1;
      LoopCoversVoice(voiceLength, |track|);
      track := Repeat(track, times);
    }
    track := track[..voiceLength];
    r := Ok(track);
  }

  // ---------------------------------------------------------------- mixing

  /** mix_audio_with_background's triple (success, path or error text, music info). */
  datatype MixResult = MixResult(success: bool, detail: string, info: Option<Supabase.MusicRow>)

  const VoiceDownloadFailed: string := "Failed to download voice audio"
  const MixUploadFailed: string := "Failed to upload mixed audio"

  /**
   * mix_audio_with_background. `voiceReply` and `musicReply` answer the two
   * downloads; `voice` and `background` are the decoded tracks, or the text
   * of the exception decoding raised; `exportError` is the text of an
   * exception raised while exporting the mix or reading it back; `fileId`
   * is the fresh id of the upload and `upload` the storage reply. Every
   * exception ends the call with (False, its text, None). `overlay` is the
   * background actually laid under the voice, when mixing got that far.
   */
  method MixAudioWithBackground<S>(supabaseUrl: string, voicePath: string, musicType: string, userId: string,
                                   voiceReply: FetchReply, voiceTemp: string,
                                   musicRows: seq<Supabase.MusicRow>, musicReply: FetchReply, musicTemp: string,
                                   voice: Result<seq<S>>, background: Result<seq<S>>, exportError: Option<string>,
                                   fileId: string, upload: Supabase.UploadReply)
    returns (result: MixResult, overlay: Option<seq<S>>)
    ensures var voiceOk := DownloadAudioFile(supabaseUrl, voicePath, voiceReply, voiceTemp).localPath.Some?;
            var music := GetMusicFile(supabaseUrl, musicRows, musicType, musicReply, musicTemp);
            var decoded := voiceOk && music.success && voice.Ok? && background.Ok?;
      && (!voiceOk ==> result == MixResult(false, VoiceDownloadFailed, None))
      && (voiceOk && !music.success ==> result == MixResult(true, voicePath, None))
      && (voiceOk && music.success && voice.Err? ==> result == MixResult(false, voice.error, None))
      && (voiceOk && music.success && voice.Ok? && background.Err? ==> result == MixResult(false, background.error, None))
      && (decoded && |background.value| == 0 && |voice.value| > 0 ==>
            result == MixResult(false, ZeroDivisionMessage, None))
      && (decoded && !(|background.value| == 0 && |voice.value| > 0) ==>
            && overlay.Some? && |overlay.value| == |voice.value|
            && (forall i | 0 <= i < |voice.value| :: overlay.value[i] == background.value[i % |background.value|])
            && (exportError.Some? ==> result == MixResult(false, exportError.value, None))
            && (exportError.None? && Truthy(Supabase.UploadFileToStorage(upload)) ==>
                  result == MixResult(true, Supabase.GeneratedAudioPath(userId, fileId), music.info))
            && (exportError.None? && !Truthy(Supabase.UploadFileToStorage(upload)) ==>
                  result == MixResult(false, MixUploadFailed, None)))
    ensures result.success && result.detail != voicePath ==> result.info.Some?
  {
    overlay := None;
    var voiceDownload := DownloadAudioFile(supabaseUrl, voicePath, voiceReply, voiceTemp);
    if voiceDownload.localPath.None? {
      return MixResult(false, VoiceDownloadFailed, None), None;
    }
    var music := GetMusicFile(supabaseUrl, musicRows, musicType, musicReply, musicTemp);
    if !music.success || music.localPath.None? {
      return MixResult(true, voicePath, None), None;
    }
    if voice.Err? {
      return MixResult(false, voice.error, None), None;
    }
    if background.Err? {
      return MixResult(false, background.error, None), None;
    }
    var fitted := FitBackground(|voice.value|, background.value);
    FittedSpec(|voice.value|, background.value);
    if fitted.Err? {
      return MixResult(false, fitted.error, None), None;
    }
    overlay := Some(fitted.value);
    if exportError.Some? {
      return MixResult(false, exportError.value, None), overlay;
    }
    var storagePath := Supabase.GeneratedAudioPath(userId, fileId);
    var audioUrl := Supabase.UploadFileToStorage(upload);
    if Truthy(audioUrl) {
      assert music.info.Some?;
      result := MixResult(true, storagePath, music.info);
    } else {
      result := MixResult(false, MixUploadFailed, None);
    }
  }
}
