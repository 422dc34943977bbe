/**
 * Narration (api/services/speech_service.py): choosing the speech-provider
 * voice and turning the provider's and the storage service's replies into
 * the (success, path or error) result. The provider and the upload are
 * foreign; their replies are inputs, and `fileId` stands for the fresh uuid.
 */
module SpeechService {
  import opened Wrappers
  import opened Text
  import Config
  import Supabase

  /**
   * get_voice_id: a preference longer than ten characters that does not start
   * with "ai-" is taken as a provider voice id; anything else goes through the
   * built-in table, falling back to "ai-1".
   */
  function VoiceId(preference: string): (id: string)
    ensures |preference| > 10 && !StartsWith(preference, "ai-") ==> id == preference
    ensures !(|preference| > 10 && !StartsWith(preference, "ai-")) ==>
      id == (if preference in Config.DefaultVoices then Config.DefaultVoices[preference]
             else Config.DefaultVoices["ai-1"])
  {
    if |preference| > 10 && !StartsWith(preference, "ai-") then preference
    else if preference in Config.DefaultVoices then Config.DefaultVoices[preference]
    else Config.DefaultVoices["ai-1"]
  }

  /** Every resolved id is either the preference itself or one of the built-in voices. */
  lemma {:induction false} VoiceIdRange(preference: string)
    ensures VoiceId(preference) == preference || VoiceId(preference) in Config.DefaultVoices.Values
  {
    assert Config.DefaultVoices["ai-1"] in Config.DefaultVoices.Values;
  }

  /** Resolving a resolved id changes nothing: built-in ids pass through as provider ids. */
  lemma {:induction false} VoiceIdIdempotent(preference: string)
    ensures VoiceId(VoiceId(preference)) == VoiceId(preference)
  {
    var id := VoiceId(preference);
    if id != preference {
      var key := if preference in Config.DefaultVoices then preference else "ai-1";
      assert id == Config.DefaultVoices[key];
      assert key in {"ai-1", "ai-2", "ai-3", "ai-4"};
      assert |id| == 20 && id[0] != 'a';
    }
  }

  /** What the speech provider did. */
  datatype SpeechReply = Audio(data: seq<bv8>) | SpeechRaised(message: string)

  /** generate_speech_async: (True, audio) when the provider answered, (False, None) when it raised. */
  function GenerateSpeech(reply: SpeechReply): (audio: Option<seq<bv8>>)
    ensures audio.Some? <==> reply.Audio?
    ensures reply.Audio? ==> audio.value == reply.data
  {
    match reply
    case Audio(data) => Some(data)
    case SpeechRaised(_) => None
  }

  const SpeechFailed: string := "Failed to generate speech"
  const SpeechUploadFailed: string := "Failed to upload audio file"

  /**
   * generate_and_save_speech: the stored path "generated-stories/{user}/{user}_{id}.mp3"
   * when the provider returned non-empty audio, the temporary-file round trip
   * did not raise and the upload returned a non-empty URL; otherwise the
   * stage's error text. `tempFileError` is the message of an exception
   * raised while writing, reading or deleting the temporary file, which the
   * outer handler returns as it is.
   */
  function GenerateAndSaveSpeech(userId: string, fileId: string, reply: SpeechReply,
                                 tempFileError: Option<string>, upload: Supabase.UploadReply)
    : (r: Result<string>)
    ensures r.Ok? <==> reply.Audio? && reply.data != [] && tempFileError.None? && upload.Uploaded? && upload.publicUrl != ""
    ensures r.Ok? ==> r.value == Supabase.GeneratedAudioPath(userId, fileId)
    ensures !(reply.Audio? && reply.data != []) ==> r == Err(SpeechFailed)
    ensures reply.Audio? && reply.data != [] && tempFileError.Some? ==> r == Err(tempFileError.value)
    ensures reply.Audio? && reply.data != [] && tempFileError.None? && !(upload.Uploaded? && upload.publicUrl != "") ==>
      r == Err(SpeechUploadFailed)
  {
    var path := Supabase.GeneratedAudioPath(userId, fileId);
    var audio := GenerateSpeech(reply);
    if audio.None? || audio.value == [] then Err(SpeechFailed)
    else if tempFileError.Some? then Err(tempFileError.value)
    else
      var url := Supabase.UploadFileToStorage(upload);
      if Truthy(url) then Ok(path)
      else Err(SpeechUploadFailed)
  }
}
