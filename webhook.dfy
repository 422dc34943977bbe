/**
 * Asynchronous story generation (api/services/webhook_service.py): the
 * in-memory registry of job records, the stage-by-stage pipeline that writes
 * progress into it, and the completion webhook.
 *
 * Progress is kept in tenths (0 stands for 0.0, 10 for 1.0). The clock is
 * the parameter `now`, read once per call. Each adapter's result (stored
 * images, story text, speech, mix, story id, webhook reply) is an input.
 */
module WebhookService {
  import opened Wrappers
  import Supabase
  import StoryService
  import SpeechService
  import MusicService

  // ---------------------------------------------------------------- records

  datatype JobState = Pending | Processing | Completed | Failed {
    predicate Terminal() { this == Completed || this == Failed }
  }

  /** Progress in tenths of the whole job. */
  type Progress = p: nat | p <= 10

  /** The result dict of a completed job. */
  datatype StoryResult = StoryResult(
    success: bool, storyId: string, title: string, textContent: string, audioUrl: string, duration: nat)

  datatype WebhookStatus = WebhookStatus(
    requestId: string,
    status: JobState,
    progress: Progress,
    result: Option<StoryResult>,
    error: Option<string>,
    createdAt: int,
    updatedAt: int)

  /** The optional arguments of update_webhook_status: None leaves a field as it is. */
  datatype Patch = Patch(
    status: Option<JobState>, progress: Option<Progress>, result: Option<StoryResult>, error: Option<string>)

  /** The record create_webhook_status stores. */
  function PendingStatus(requestId: string, now: int): (s: WebhookStatus)
    ensures s.status == Pending && s.progress == 0 && s.result.None? && s.error.None?
    ensures s.requestId == requestId && s.createdAt == now && s.updatedAt == now
  {
    WebhookStatus(requestId, Pending, 0, None, None, now, now)
  }

  /** A record after an update: each field given in the patch replaced, updated_at set to now. */
  function Merged(s: WebhookStatus, p: Patch, now: int): (m: WebhookStatus)
    ensures m.requestId == s.requestId && m.createdAt == s.createdAt && m.updatedAt == now
    ensures m.status == p.status.GetOr(s.status) && m.progress == p.progress.GetOr(s.progress)
    ensures m.result == (if p.result.Some? then p.result else s.result)
    ensures m.error == (if p.error.Some? then p.error else s.error)
  {
    var m := s;
    var m := if p.status.Some? then m.(status := p.status.value) else m;
    var m := if p.progress.Some? then m.(progress := p.progress.value) else m;
    var m := if p.result.Some? then m.(result := p.result) else m;
    var m := if p.error.Some? then m.(error := p.error) else m;
    m.(updatedAt := now)
  }

  /** An update can set result and error but never clear them. */
  lemma {:induction false} MergedNeverClears(s: WebhookStatus, p: Patch, now: int)
    ensures s.result.Some? ==> Merged(s, p, now).result.Some?
    ensures s.error.Some? ==> Merged(s, p, now).error.Some?
  {
  }

  /** Applying the same update twice is applying it once. */
  lemma {:induction false} MergedIdempotent(s: WebhookStatus, p: Patch, now: int)
    ensures Merged(Merged(s, p, now), p, now) == Merged(s, p, now)
  {
  }

  // ---------------------------------------------------------------- registry

  /** The module-level `webhook_statuses` dict. */
  class StatusRegistry {
    var statuses: map<string, WebhookStatus>

    constructor()
      ensures statuses == map[]
    {
      statuses := map[];
    }

    /**
     * create_webhook_status: a falsy id is replaced by `freshId` (the uuid);
     * any existing record under the id is overwritten by a pending one.
     */
    method Create(requestId: Option<string>, freshId: string, now: int) returns (s: WebhookStatus)
      modifies this
      ensures var id := if Truthy(requestId) then requestId.value else freshId;
        s == PendingStatus(id, now) && statuses == old(statuses)[id := s]
    {
      var id := if Truthy(requestId) then requestId.value else freshId;
      s := PendingStatus(id, now);
      statuses := statuses[id := s];
    }

    /**
     * update_webhook_status: an unknown id gives None and changes nothing;
     * otherwise the record is merged with the patch and stored back.
     */
    method Update(requestId: string, patch: Patch, now: int) returns (r: Option<WebhookStatus>)
      modifies this
      ensures requestId !in old(statuses) ==> r.None? && statuses == old(statuses)
      ensures requestId in old(statuses) ==>
        r == Some(Merged(old(statuses)[requestId], patch, now)) && statuses == old(statuses)[requestId := r.value]
    {
      if requestId !in statuses {
        return None;
      }
      var current := statuses[requestId];
      if patch.status.Some? {
        current := current.(status := patch.status.value);
      }
      if patch.progress.Some? {
        current := current.(progress := patch.progress.value);
      }
      if patch.result.Some? {
        current := current.(result := patch.result);
      }
      if patch.error.Some? {
        current := current.(error := patch.error);
      }
      current := current.(updatedAt := now);
      statuses := statuses[requestId := current];
      r := Some(current);
    }

    /** get_webhook_status: the stored record, or None. */
    function Get(requestId: string): (r: Option<WebhookStatus>)
      reads this
      ensures r.Some? <==> requestId in statuses
      ensures r.Some? ==> r.value == statuses[requestId]
    {
      if requestId in statuses then Some(statuses[requestId]) else None
    }
  }

  // ---------------------------------------------------------------- webhook

  /** The JSON body posted to the callback URL. */
  datatype Payload = Payload(
    requestId: string, status: JobState, result: Option<StoryResult>, error: Option<string>, completedAt: int)

  /** What the callback endpoint did with the POST. */
  datatype HttpReply = Answered(statusCode: int) | PostRaised(message: string)

  /** One call of send_completion_webhook: nothing sent, or the payload and whether it counted as delivered. */
  datatype WebhookAttempt = NotSent | Sent(url: string, payload: Payload, delivered: bool)

  /** The status codes that count as a delivered webhook. */
  const AcceptedCodes: set<int> := {200, 201, 202, 204}

  /**
   * send_completion_webhook: an empty URL sends nothing; otherwise the
   * record's fields are posted, with completed_at taken from updated_at, and
   * the call succeeds only on 200, 201, 202 or 204.
   */
  function SendCompletionWebhook(callbackUrl: string, s: WebhookStatus, reply: HttpReply): (a: WebhookAttempt)
    ensures a.NotSent? <==> callbackUrl == ""
    ensures a.Sent? ==> a.url == callbackUrl
    ensures a.Sent? ==> a.payload.requestId == s.requestId && a.payload.status == s.status &&
                        a.payload.result == s.result && a.payload.error == s.error
    ensures a.Sent? ==> a.payload.completedAt == s.updatedAt
    ensures a.Sent? ==> (a.delivered <==> reply.Answered? && reply.statusCode in AcceptedCodes)
  {
    if callbackUrl == "" then NotSent
    else
      var payload := Payload(s.requestId, s.status, s.result, s.error, s.updatedAt);
      Sent(callbackUrl, payload, reply.Answered? && reply.statusCode in AcceptedCodes)
  }

  /** The boolean send_completion_webhook returns. */
  function Returned(a: WebhookAttempt): bool {
    a.Sent? && a.delivered
  }

  /** Other success codes (203, 205, 206, ...) count as a failed delivery. */
  lemma {:induction false} OtherSuccessCodesFail(url: string, s: WebhookStatus, code: int)
    requires url != "" && 200 <= code < 300 && code !in AcceptedCodes
    ensures !Returned(SendCompletionWebhook(url, s, Answered(code)))
  {
  }

  // ---------------------------------------------------------------- pipeline plan

  /** The request_data dict handed to the background task. */
  datatype PipelineRequest = PipelineRequest(
    images: seq<string>,
    characters: seq<Supabase.CharacterDict>,
    theme: string,
    duration: string,
    language: string,
    backgroundMusic: Option<string>,
    voice: string)

  /** What each stage's adapter gave back; `story` is Err with the text of the exception it raised. */
  datatype StageOutcomes = StageOutcomes(
    storedImages: seq<string>,
    story: Result<StoryService.Story>,
    title: string,
    speech: Result<string>,
    mix: MusicService.MixResult,
    storyId: Option<string>,
    webhookReply: HttpReply)

  /** The arguments of the create_story call. */
  datatype StoredStory = StoredStory(
    title: string, textContent: string, language: string, theme: string, duration: nat,
    audioUrl: string, storagePath: string, backgroundMusicId: Option<string>)

  /** What a run does besides the registry: the updates in order, the voice asked for, the story stored. */
  datatype Plan = Plan(patches: seq<Patch>, voiceId: Option<string>, stored: Option<StoredStory>)

  const ImagesFailed: string := "Failed to process images"
  const SpeechFailedPrefix: string := "Failed to generate speech: "
  const StoreFailed: string := "Failed to store story in database"

  function StartPatch(): Patch { Patch(Some(Processing), Some(1), None, None) }

  function AtPatch(k: Progress): Patch { Patch(None, Some(k), None, None) }

  function FailPatch(error: string): Patch { Patch(Some(Failed), Some(0), None, Some(error)) }

  function CompletePatch(r: StoryResult): Patch { Patch(Some(Completed), Some(10), Some(r), None) }

  /** The audio kept after step 6: the mix when music was asked for and mixing succeeded, else the narration. */
  function AudioChoice(backgroundMusic: Option<string>, mix: MusicService.MixResult, voicePath: string)
    : (choice: (string, Option<string>))
    ensures !(Truthy(backgroundMusic) && mix.success) ==> choice == (voicePath, None)
    ensures Truthy(backgroundMusic) && mix.success ==>
      choice == (mix.detail, if mix.info.Some? then mix.info.value.id else None)
  {
    if Truthy(backgroundMusic) && mix.success then
      (mix.detail, if mix.info.Some? then mix.info.value.id else None)
    else (voicePath, None)
  }

  /** The updates process_story_generation_async makes, read off the adapters' outcomes. */
  function PlanFor(req: PipelineRequest, out: StageOutcomes, supabaseUrl: string): Plan
  {
    var opening := [StartPatch(), AtPatch(2)];
    if out.storedImages == [] then Plan(opening + [FailPatch(ImagesFailed)], None, None)
    else
      var generating := opening + [AtPatch(3), AtPatch(4)];
      match out.story
      case Err(e) => Plan(generating + [FailPatch(e)], None, None)
      case Ok(story) =>
        var speaking := generating + [AtPatch(5), AtPatch(6)];
        var voiceId := SpeechService.VoiceId(req.voice);
        match out.speech
        case Err(detail) => Plan(speaking + [FailPatch(SpeechFailedPrefix + detail)], Some(voiceId), None)
        case Ok(voicePath) =>
          var (audioPath, musicId) := AudioChoice(req.backgroundMusic, out.mix, voicePath);
          var audioUrl := Supabase.PublicUrl(supabaseUrl, audioPath);
          var stored := StoredStory(out.title, story.text, req.language, req.theme, story.durationSeconds,
                                    audioUrl, audioPath, musicId);
          var storing := speaking + [AtPatch(7), AtPatch(8)];
          if !Truthy(out.storyId) then Plan(storing + [FailPatch(StoreFailed)], Some(voiceId), Some(stored))
          else
            var result := StoryResult(true, out.storyId.value, out.title, story.text, audioUrl, story.durationSeconds);
            Plan(storing + [AtPatch(9), CompletePatch(result)], Some(voiceId), Some(stored))
  }

  // ---------------------------------------------------------------- traces

  /** The record after applying `ps` in order to `s0`. */
  function Final(s0: WebhookStatus, ps: seq<Patch>, now: int): WebhookStatus
    decreases |ps|
  {
    if ps == [] then s0 else Merged(Final(s0, ps[..|ps| - 1], now), ps[|ps| - 1], now)
  }

  /** The record after each update in `ps`: what a poller could observe, in order. */
  function Trace(s0: WebhookStatus, ps: seq<Patch>, now: int): (t: seq<WebhookStatus>)
    ensures |t| == |ps|
    ensures ps != [] ==> t[|t| - 1] == Final(s0, ps, now)
    decreases |ps|
  {
    if ps == [] then [] else Trace(s0, ps[..|ps| - 1], now) + [Final(s0, ps, now)]
  }

  lemma {:induction false} TraceAppend(s0: WebhookStatus, ps: seq<Patch>, p: Patch, now: int)
    ensures Final(s0, ps + [p], now) == Merged(Final(s0, ps, now), p, now)
    ensures Trace(s0, ps + [p], now) == Trace(s0, ps, now) + [Merged(Final(s0, ps, now), p, now)]
  {
    assert (ps + [p])[..|ps|] == ps;
  }

  /** The opening updates: processing at 0.1, then progress 0.2, 0.3, ... up to k tenths. */
  function Steps(k: nat): (ps: seq<Patch>)
    requires 1 <= k <= 9
    ensures |ps| == k
  {
    if k == 1 then [StartPatch()] else Steps(k - 1) + [AtPatch(k)]
  }

  /** A record written by the opening updates: processing at progress p, other fields as in s0. */
  predicate OpeningRecord(s0: WebhookStatus, s: WebhookStatus, p: nat, now: int) {
    && s.status == Processing && s.progress == p
    && s.result == s0.result && s.error == s0.error
    && s.requestId == s0.requestId && s.createdAt == s0.createdAt && s.updatedAt == now
  }

  /** The record after update i of a run is the result of the first i + 1 updates. */
  lemma {:induction false} TraceIndex(s0: WebhookStatus, ps: seq<Patch>, i: nat, now: int)
    requires i < |ps|
    ensures Trace(s0, ps, now)[i] == Final(s0, ps[..i + 1], now)
    decreases |ps|
  {
    var init := ps[..|ps| - 1];
    if i < |init| {
      TraceIndex(s0, init, i, now);
      assert init[..i + 1] == ps[..i + 1];
    } else {
      assert ps[..i + 1] == ps;
    }
  }

  /** The first j opening updates of a longer opening are the opening of length j. */
  lemma {:induction false} StepsPrefix(k: nat, j: nat)
    requires 1 <= j <= k <= 9
    ensures Steps(k)[..j] == Steps(j)
    decreases k
  {
    if j < k {
      StepsPrefix(k - 1, j);
      assert Steps(k)[..j] == Steps(k - 1)[..j];
    }
  }

  /** After the opening k updates the job is processing at progress k, nothing else changed. */
  lemma {:induction false} FinalOfSteps(s0: WebhookStatus, k: nat, now: int)
    requires 1 <= k <= 9
    ensures OpeningRecord(s0, Final(s0, Steps(k), now), k, now)
    decreases k
  {
    if k == 1 {
      assert Steps(1) == [StartPatch()];
      assert Final(s0, Steps(1), now) == Merged(s0, StartPatch(), now);
    } else {
      FinalOfSteps(s0, k - 1, now);
      var ps := Steps(k);
      assert ps == Steps(k - 1) + [AtPatch(k)];
      assert ps[..|ps| - 1] == Steps(k - 1);
      assert Final(s0, ps, now) == Merged(Final(s0, Steps(k - 1), now), AtPatch(k), now);
    }
  }

  /** The record after opening update i is processing at progress i + 1. */
  lemma {:induction false} OpeningAt(s0: WebhookStatus, k: nat, i: nat, now: int)
    requires 1 <= k <= 9 && i < k
    ensures OpeningRecord(s0, Trace(s0, Steps(k), now)[i], i + 1, now)
  {
    TraceIndex(s0, Steps(k), i, now);
    StepsPrefix(k, i + 1);
    FinalOfSteps(s0, i + 1, now);
  }

  /** After the opening k updates the job is processing, at progress i+1 after update i. */
  lemma {:induction false} TraceOfSteps(s0: WebhookStatus, k: nat, now: int)
    requires 1 <= k <= 9
    ensures var t := Trace(s0, Steps(k), now);
      forall i | 0 <= i < k :: OpeningRecord(s0, t[i], i + 1, now)
  {
    forall i | 0 <= i < k
      ensures OpeningRecord(s0, Trace(s0, Steps(k), now)[i], i + 1, now)
    {
      OpeningAt(s0, k, i, now);
    }
  }

  /** The update that ends a run: completion with a result, or failure with an error. */
  predicate TerminalPatch(p: Patch) {
    || (p.status == Some(Completed) && p.progress == Some(10) && p.result.Some?)
    || (p.status == Some(Failed) && p.progress == Some(0) && p.error.Some?)
  }

  /** The history of k opening updates followed by one terminal update. */
  lemma {:induction false} HistoryOf(s0: WebhookStatus, k: nat, last: Patch, now: int)
    requires 1 <= k <= 9 && TerminalPatch(last)
    ensures var t := Trace(s0, Steps(k) + [last], now);
      && |t| == k + 1
      && (forall i | 0 <= i < |t| - 1 :: t[i].status == Processing && t[i].progress == i + 1)
      && t[|t| - 1].status.Terminal()
      && (t[|t| - 1].status == Completed ==> t[|t| - 1].progress == 10 && t[|t| - 1].result.Some?)
      && (t[|t| - 1].status == Failed ==> t[|t| - 1].progress == 0 && t[|t| - 1].error.Some?)
      && (forall i | 0 <= i < |t| :: t[i].requestId == s0.requestId && t[i].createdAt == s0.createdAt)
  {
    TraceOfSteps(s0, k, now);
    TraceAppend(s0, Steps(k), last, now);
    var t0 := Trace(s0, Steps(k), now);
    var t := Trace(s0, Steps(k) + [last], now);
    assert forall i | 0 <= i < k :: t[i] == t0[i];
  }

  /**
   * Every run is a prefix of the opening updates followed by exactly one
   * terminal update: a failure after 2, 4, 6 or 8 tenths, or completion
   * after 9. The failure text names the stage that failed.
   */
  lemma {:induction false} PlanShape(req: PipelineRequest, out: StageOutcomes, supabaseUrl: string)
    ensures var plan := PlanFor(req, out, supabaseUrl);
      exists k :: 1 <= k <= 9 && |plan.patches| == k + 1 && plan.patches[..k] == Steps(k)
    ensures var plan := PlanFor(req, out, supabaseUrl);
            var last := plan.patches[|plan.patches| - 1];
      && (out.storedImages == [] ==> |plan.patches| == 3 && last == FailPatch(ImagesFailed))
      && (out.storedImages != [] && out.story.Err? ==> |plan.patches| == 5 && last == FailPatch(out.story.error))
      && (out.storedImages != [] && out.story.Ok? && out.speech.Err? ==>
            |plan.patches| == 7 && last == FailPatch(SpeechFailedPrefix + out.speech.error))
      && (out.storedImages != [] && out.story.Ok? && out.speech.Ok? && !Truthy(out.storyId) ==>
            |plan.patches| == 9 && last == FailPatch(StoreFailed))
      && (out.storedImages != [] && out.story.Ok? && out.speech.Ok? && Truthy(out.storyId) ==>
            |plan.patches| == 10 && last.status == Some(Completed) && last.progress == Some(10) && last.result.Some?)
  {
    var plan := PlanFor(req, out, supabaseUrl);
    assert Steps(2) == [StartPatch(), AtPatch(2)];
    assert Steps(4) == [StartPatch(), AtPatch(2), AtPatch(3), AtPatch(4)];
    assert Steps(6) == Steps(4) + [AtPatch(5), AtPatch(6)];
    assert Steps(8) == Steps(6) + [AtPatch(7), AtPatch(8)];
    assert Steps(9) == Steps(8) + [AtPatch(9)];
    var k := |plan.patches| - 1;
    assert plan.patches[..k] == Steps(k);
  }

  /**
   * The observable history of any run: the job is processing with progress
   * 1, 2, ... tenths at each update but the last, and the last update leaves
   * it terminal. A completed job carries its result at progress 1.0; a failed
   * job is at progress 0.0 with an error.
   */
  lemma {:induction false} RunHistory(req: PipelineRequest, out: StageOutcomes, supabaseUrl: string,
                                      s0: WebhookStatus, now: int)
    ensures var t := Trace(s0, PlanFor(req, out, supabaseUrl).patches, now);
      && 3 <= |t| <= 10
      && (forall i | 0 <= i < |t| - 1 :: t[i].status == Processing && t[i].progress == i + 1)
      && (forall i, j | 0 <= i <= j < |t| - 1 :: t[i].progress <= t[j].progress)
      && t[|t| - 1].status.Terminal()
      && (t[|t| - 1].status == Completed ==> t[|t| - 1].progress == 10 && t[|t| - 1].result.Some?)
      && (t[|t| - 1].status == Failed ==> t[|t| - 1].progress == 0 && t[|t| - 1].error.Some?)
      && (forall i | 0 <= i < |t| :: t[i].requestId == s0.requestId && t[i].createdAt == s0.createdAt)
  {
    var ps := PlanFor(req, out, supabaseUrl).patches;
    PlanShape(req, out, supabaseUrl);
    var k :| 1 <= k <= 9 && |ps| == k + 1 && ps[..k] == Steps(k);
    var last := ps[k];
    assert ps == Steps(k) + [last];
    assert 2 <= k && TerminalPatch(last);
    HistoryOf(s0, k, last, now);
  }

  /**
   * Started from the pending record create_webhook_status stores, a
   * completed job has a result and no error, and a failed job has an error
   * and no result.
   */
  lemma {:induction false} FreshJobOutcome(req: PipelineRequest, out: StageOutcomes, supabaseUrl: string,
                                           requestId: string, created: int, now: int)
    ensures var f := Final(PendingStatus(requestId, created), PlanFor(req, out, supabaseUrl).patches, now);
      && (f.status == Completed ==> f.result.Some? && f.error.None?)
      && (f.status == Failed ==> f.result.None? && f.error.Some?)
      && f.status.Terminal() && f.createdAt == created && f.updatedAt == now
  {
    var s0 := PendingStatus(requestId, created);
    var ps := PlanFor(req, out, supabaseUrl).patches;
    PlanShape(req, out, supabaseUrl);
    var k :| 1 <= k <= 9 && |ps| == k + 1 && ps[..k] == Steps(k);
    assert ps == Steps(k) + [ps[k]];
    TraceOfSteps(s0, k, now);
    TraceAppend(s0, Steps(k), ps[k], now);
    RunHistory(req, out, supabaseUrl, s0, now);
  }

  /**
   * A failed or skipped music mix is not fatal: the stored story keeps the
   * narration path and no music id unless music was asked for and mixing
   * succeeded. The stored audio URL is always the public URL of the stored
   * path, and the completed result reports that same URL.
   */
  lemma {:induction false} StoredAudio(req: PipelineRequest, out: StageOutcomes, supabaseUrl: string)
    ensures var plan := PlanFor(req, out, supabaseUrl);
      && (plan.stored.Some? <==> out.storedImages != [] && out.story.Ok? && out.speech.Ok?)
      && (plan.stored.Some? ==> plan.stored.value.audioUrl == Supabase.PublicUrl(supabaseUrl, plan.stored.value.storagePath))
      && (plan.stored.Some? && !(Truthy(req.backgroundMusic) && out.mix.success) ==>
            plan.stored.value.storagePath == out.speech.value && plan.stored.value.backgroundMusicId.None?)
      && (plan.stored.Some? ==> plan.stored.value.language == req.language && plan.stored.value.title == out.title)
      && (plan.voiceId.Some? ==> plan.voiceId.value == SpeechService.VoiceId(req.voice))
  {
  }

  /** The completed result describes the stored story under the id the database returned. */
  lemma {:induction false} CompletedResult(req: PipelineRequest, out: StageOutcomes, supabaseUrl: string,
                                           s0: WebhookStatus, now: int)
    requires Final(s0, PlanFor(req, out, supabaseUrl).patches, now).status == Completed
    ensures var plan := PlanFor(req, out, supabaseUrl);
            var f := Final(s0, plan.patches, now);
      && plan.stored.Some? && Truthy(out.storyId) && f.result.Some?
      && f.result.value == StoryResult(true, out.storyId.value, plan.stored.value.title,
                                       plan.stored.value.textContent, plan.stored.value.audioUrl,
                                       plan.stored.value.duration)
  {
    var ps := PlanFor(req, out, supabaseUrl).patches;
    PlanShape(req, out, supabaseUrl);
    var k :| 1 <= k <= 9 && |ps| == k + 1 && ps[..k] == Steps(k);
    assert ps == Steps(k) + [ps[k]];
    TraceAppend(s0, Steps(k), ps[k], now);
  }

  // ---------------------------------------------------------------- pipeline

  /** One update_webhook_status call of the pipeline, recorded in the trace. */
  method Advance(registry: StatusRegistry, requestId: string, ghost m0: map<string, WebhookStatus>,
                 ghost applied: seq<Patch>, trace: seq<WebhookStatus>, p: Patch, now: int)
    returns (next: seq<WebhookStatus>)
    requires requestId in m0
    requires registry.statuses == m0[requestId := Final(m0[requestId], applied, now)]
    requires trace == Trace(m0[requestId], applied, now)
    modifies registry
    ensures next == Trace(m0[requestId], applied + [p], now)
    ensures registry.statuses == m0[requestId := Final(m0[requestId], applied + [p], now)]
  {
    ghost var s0 := m0[requestId];
    TraceAppend(s0, applied, p, now);
    var r := registry.Update(requestId, p, now);
    next := trace + [r.value];
  }

  /** The single completion webhook of a run: sent only when the callback URL is truthy. */
  function Notify(callbackUrl: Option<string>, s: WebhookStatus, reply: HttpReply): (a: WebhookAttempt)
    ensures !Truthy(callbackUrl) ==> a.NotSent?
    ensures Truthy(callbackUrl) ==> a == SendCompletionWebhook(callbackUrl.value, s, reply) && a.Sent?
  {
    if Truthy(callbackUrl) then SendCompletionWebhook(callbackUrl.value, s, reply) else NotSent
  }

  /** The plan of a run that got as far as storing the story. */
  lemma {:induction false} PlanAfterSpeech(req: PipelineRequest, out: StageOutcomes, supabaseUrl: string)
    requires out.storedImages != [] && out.story.Ok? && out.speech.Ok?
    ensures var plan := PlanFor(req, out, supabaseUrl);
            var choice := AudioChoice(req.backgroundMusic, out.mix, out.speech.value);
            var audioUrl := Supabase.PublicUrl(supabaseUrl, choice.0);
            var story := out.story.value;
            var opening := Steps(4) + [AtPatch(5), AtPatch(6), AtPatch(7), AtPatch(8)];
      && plan.stored == Some(StoredStory(out.title, story.text, req.language, req.theme, story.durationSeconds,
                                         audioUrl, choice.0, choice.1))
      && (!Truthy(out.storyId) ==> plan.patches == opening + [FailPatch(StoreFailed)])
      && (Truthy(out.storyId) ==>
            plan.patches == opening + [AtPatch(9), CompletePatch(StoryResult(true, out.storyId.value, out.title,
                                                                       story.text, audioUrl, story.durationSeconds))])
  {
    assert Steps(4) == [StartPatch(), AtPatch(2), AtPatch(3), AtPatch(4)];
  }

  /** A run that fails before the story exists: no voice, nothing stored, ended at 0.2 or 0.4. */
  lemma {:induction false} PlanBeforeStory(req: PipelineRequest, out: StageOutcomes, supabaseUrl: string)
    ensures var plan := PlanFor(req, out, supabaseUrl);
      && (out.storedImages == [] ==>
            plan == Plan([StartPatch(), AtPatch(2), FailPatch(ImagesFailed)], None, None))
      && (out.storedImages != [] && out.story.Err? ==>
            plan == Plan(Steps(4) + [FailPatch(out.story.error)], None, None))
  {
    assert Steps(4) == [StartPatch(), AtPatch(2), AtPatch(3), AtPatch(4)];
  }

  /** Once the story exists, the plan names the request's voice and a speech failure ends it at 0.6. */
  lemma {:induction false} PlanAfterStory(req: PipelineRequest, out: StageOutcomes, supabaseUrl: string)
    requires out.storedImages != [] && out.story.Ok?
    ensures var plan := PlanFor(req, out, supabaseUrl);
      && plan.voiceId == Some(SpeechService.VoiceId(req.voice))
      && (out.speech.Err? ==>
            && plan.patches == Steps(4) + [AtPatch(5), AtPatch(6), FailPatch(SpeechFailedPrefix + out.speech.error)]
            && plan.stored.None?)
  {
    assert Steps(4) == [StartPatch(), AtPatch(2), AtPatch(3), AtPatch(4)];
  }

  /**
   * Steps 5 to 9 of process_story_generation_async: speech, the optional
   * music mix, storing the story, and completion.
   */
  method NarrateAndStore(registry: StatusRegistry, requestId: string, ghost m0: map<string, WebhookStatus>,
                         trace0: seq<WebhookStatus>, req: PipelineRequest, out: StageOutcomes,
                         supabaseUrl: string, now: int)
    returns (trace: seq<WebhookStatus>, voiceId: Option<string>, stored: Option<StoredStory>)
    requires out.storedImages != [] && out.story.Ok?
    requires requestId in m0
    requires registry.statuses == m0[requestId := Final(m0[requestId], Steps(4), now)]
    requires trace0 == Trace(m0[requestId], Steps(4), now)
    modifies registry
    ensures var plan := PlanFor(req, out, supabaseUrl);
      && trace == Trace(m0[requestId], plan.patches, now)
      && registry.statuses == m0[requestId := Final(m0[requestId], plan.patches, now)]
      && voiceId == plan.voiceId && stored == plan.stored
  {
    ghost var applied := Steps(4);
    PlanAfterStory(req, out, supabaseUrl);
    // 4. generate the title
    trace := Advance(registry, requestId, m0, applied, trace0, AtPatch(5), now);
    applied := applied + [AtPatch(5)];
    // 5. convert to speech
    trace := Advance(registry, requestId, m0, applied, trace, AtPatch(6), now);
    applied := applied + [AtPatch(6)];
    voiceId := Some(SpeechService.VoiceId(req.voice));
    stored := None;
    if out.speech.Err? {
      var failure := FailPatch(SpeechFailedPrefix + out.speech.error);
      trace := Advance(registry, requestId, m0, applied, trace, failure, now);
      assert applied + [failure] == Steps(4) + [AtPatch(5), AtPatch(6), failure];
      return;
    }
    assert applied == Steps(4) + [AtPatch(5), AtPatch(6)];
    trace, stored := MixAndStore(registry, requestId, m0, trace, req, out, supabaseUrl, now);
  }

  /** Steps 7 to 9 of process_story_generation_async: the optional mix, storing the story, completion. */
  method MixAndStore(registry: StatusRegistry, requestId: string, ghost m0: map<string, WebhookStatus>,
                     trace0: seq<WebhookStatus>, req: PipelineRequest, out: StageOutcomes,
                     supabaseUrl: string, now: int)
    returns (trace: seq<WebhookStatus>, stored: Option<StoredStory>)
    requires out.storedImages != [] && out.story.Ok? && out.speech.Ok?
    requires requestId in m0
    requires registry.statuses == m0[requestId := Final(m0[requestId], Steps(4) + [AtPatch(5), AtPatch(6)], now)]
    requires trace0 == Trace(m0[requestId], Steps(4) + [AtPatch(5), AtPatch(6)], now)
    modifies registry
    ensures var plan := PlanFor(req, out, supabaseUrl);
      && trace == Trace(m0[requestId], plan.patches, now)
      && registry.statuses == m0[requestId := Final(m0[requestId], plan.patches, now)]
      && stored == plan.stored
  {
    ghost var applied := Steps(4) + [AtPatch(5), AtPatch(6)];
    var story := out.story.value;
    var voicePath := out.speech.value;
    PlanAfterSpeech(req, out, supabaseUrl);
    // 6. add background music if requested; a failed mix keeps the narration
    trace := Advance(registry, requestId, m0, applied, trace0, AtPatch(7), now);
    applied := applied + [AtPatch(7)];
    var audioPath := voicePath;
    var backgroundMusicId: Option<string> := None;
    if Truthy(req.backgroundMusic) {
      if out.mix.success {
        audioPath := out.mix.detail;
        backgroundMusicId := if out.mix.info.Some? then out.mix.info.value.id else None;
      }
    }
    // 7. store the story
    trace := Advance(registry, requestId, m0, applied, trace, AtPatch(8), now);
    applied := applied + [AtPatch(8)];
    assert applied == Steps(4) + [AtPatch(5), AtPatch(6), AtPatch(7), AtPatch(8)];
    assert (audioPath, backgroundMusicId) == AudioChoice(req.backgroundMusic, out.mix, voicePath);
    var audioUrl := Supabase.PublicUrl(supabaseUrl, audioPath);
    stored := Some(StoredStory(out.title, story.text, req.language, req.theme, story.durationSeconds,
                               audioUrl, audioPath, backgroundMusicId));
    trace := CompleteStory(registry, requestId, m0, trace, req, out, supabaseUrl, audioUrl, now);
  }

  /** The end of process_story_generation_async: the story id check, then linking and completion. */
  method CompleteStory(registry: StatusRegistry, requestId: string, ghost m0: map<string, WebhookStatus>,
                       trace0: seq<WebhookStatus>, req: PipelineRequest, out: StageOutcomes,
                       supabaseUrl: string, audioUrl: string, now: int)
    returns (trace: seq<WebhookStatus>)
    requires out.storedImages != [] && out.story.Ok? && out.speech.Ok?
    requires audioUrl == Supabase.PublicUrl(supabaseUrl, AudioChoice(req.backgroundMusic, out.mix, out.speech.value).0)
    requires requestId in m0
    requires registry.statuses ==
      m0[requestId := Final(m0[requestId], Steps(4) + [AtPatch(5), AtPatch(6), AtPatch(7), AtPatch(8)], now)]
    requires trace0 == Trace(m0[requestId], Steps(4) + [AtPatch(5), AtPatch(6), AtPatch(7), AtPatch(8)], now)
    modifies registry
    ensures var plan := PlanFor(req, out, supabaseUrl);
      && trace == Trace(m0[requestId], plan.patches, now)
      && registry.statuses == m0[requestId := Final(m0[requestId], plan.patches, now)]
  {
    ghost var applied := Steps(4) + [AtPatch(5), AtPatch(6), AtPatch(7), AtPatch(8)];
    var story := out.story.value;
    PlanAfterSpeech(req, out, supabaseUrl);
    if !Truthy(out.storyId) {
      trace := Advance(registry, requestId, m0, applied, trace0, FailPatch(StoreFailed), now);
      return;
    }
    // 8. store characters and images (their results are not looked at)
    trace := Advance(registry, requestId, m0, applied, trace0, AtPatch(9), now);
    applied := applied + [AtPatch(9)];
    // 9. complete
    var result := StoryResult(true, out.storyId.value, out.title, story.text, audioUrl, story.durationSeconds);
    trace := Advance(registry, requestId, m0, applied, trace, CompletePatch(result), now);
    assert applied + [CompletePatch(result)] == PlanFor(req, out, supabaseUrl).patches;
  }

  /**
   * process_story_generation_async: writes the planned updates into the
   * registry one at a time, stopping at the first failure, then makes at
   * most one webhook attempt with the final record. The record must exist:
   * the endpoint creates it before scheduling the run.
   */
  method ProcessStoryGeneration(registry: StatusRegistry, requestId: string, req: PipelineRequest,
                                out: StageOutcomes, supabaseUrl: string, callbackUrl: Option<string>, now: int)
    returns (trace: seq<WebhookStatus>, voiceId: Option<string>, stored: Option<StoredStory>,
             webhook: WebhookAttempt)
    requires requestId in registry.statuses
    modifies registry
    ensures var plan := PlanFor(req, out, supabaseUrl);
            var s0 := old(registry.statuses[requestId]);
      && trace == Trace(s0, plan.patches, now)
      && registry.statuses == old(registry.statuses)[requestId := Final(s0, plan.patches, now)]
      && voiceId == plan.voiceId && stored == plan.stored
      && webhook == Notify(callbackUrl, Final(s0, plan.patches, now), out.webhookReply)
  {
    ghost var m0 := registry.statuses;
    ghost var applied: seq<Patch> := [];
    PlanBeforeStory(req, out, supabaseUrl);
    assert registry.statuses == m0[requestId := Final(m0[requestId], applied, now)];
    voiceId, stored := None, None;
    trace := Advance(registry, requestId, m0, applied, [], StartPatch(), now);
    applied := applied + [StartPatch()];
    // 1. store the images
    trace := Advance(registry, requestId, m0, applied, trace, AtPatch(2), now);
    applied := applied + [AtPatch(2)];
    if out.storedImages == [] {
      trace := Advance(registry, requestId, m0, applied, trace, FailPatch(ImagesFailed), now);
      applied := applied + [FailPatch(ImagesFailed)];
    } else {
      // 2. analyse the images
      trace := Advance(registry, requestId, m0, applied, trace, AtPatch(3), now);
      applied := applied + [AtPatch(3)];
      // 3. generate the story
      trace := Advance(registry, requestId, m0, applied, trace, AtPatch(4), now);
      applied := applied + [AtPatch(4)];
      if out.story.Err? {
        // the exception handler records the exception's text
        var e := out.story.error;
        trace := Advance(registry, requestId, m0, applied, trace, FailPatch(e), now);
        assert applied == Steps(4);
        applied := applied + [FailPatch(e)];
      } else {
        assert applied == Steps(4);
        trace, voiceId, stored := NarrateAndStore(registry, requestId, m0, trace, req, out, supabaseUrl, now);
      }
    }
    // 10. send the webhook
    webhook := Notify(callbackUrl, registry.statuses[requestId], out.webhookReply);
  }
}
