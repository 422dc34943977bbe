/**
 * The HTTP endpoints (api/main.py): the gating and stage sequence of
 * synchronous generation, starting an asynchronous job, reading its
 * status, the story list's filters and the small story and account
 * endpoints. The services' and repositories' answers are inputs; each
 * endpoint's effect on storage is reported as data next to its response.
 */
module Api {
  import opened Wrappers
  import opened ErrorHandler
  import Models
  import Supabase
  import UserRepository
  import StoryService
  import SpeechService
  import MusicService
  import StoryRepository
  import WebhookService

  // ---------------------------------------------------------------- request data

  /** The characters as the endpoints pass them on: {"name", "description"} dicts. */
  function CharacterDicts(characters: seq<Models.Character>): (ds: seq<Supabase.CharacterDict>)
    ensures |ds| == |characters|
    ensures forall i | 0 <= i < |ds| ::
      ds[i].name == characters[i].name && Supabase.DescriptionOf(ds[i].description) == characters[i].description
  {
    seq(|characters|, i requires 0 <= i < |characters| =>
      Supabase.CharacterDict(characters[i].name,
        if characters[i].description.Some? then Supabase.Text(characters[i].description.value) else Supabase.Null))
  }

  /** `request.voice or "ai-1"` */
  function VoicePreference(voice: Option<string>): (v: string)
    ensures Truthy(voice) ==> v == voice.value
    ensures !Truthy(voice) ==> v == "ai-1"
  {
    if Truthy(voice) then voice.value else "ai-1"
  }

  /** The background-music value passed on, if one was requested. */
  function MusicValue(m: Option<Models.Music>): (v: Option<string>)
    ensures v.Some? <==> m.Some?
    ensures m.Some? ==> v == Some(m.value.Value()) && Truthy(v)
  {
    if m.Some? then Some(m.value.Value()) else None
  }

  // ---------------------------------------------------------------- synchronous generation

  const LongNeedsPremium: string := "Long stories require a premium subscription"
  const MusicNeedsPremium: string := "Background music requires a premium subscription"
  const GenerationFailedPrefix: string := "Story generation failed: "
  const CheckFailedPrefix: string := "Failed to check subscription: "

  /** What the synchronous endpoint's collaborators answered. */
  datatype SyncOutcomes = SyncOutcomes(
    credits: UserRepository.CreditCheck,
    features: UserRepository.FeatureCheck,
    storedImages: seq<string>,
    story: Result<StoryService.Story>,  // Err: the text of the exception generation raised
    title: string,
    speech: Result<string>,
    mix: MusicService.MixResult,
    storyId: Option<string>)

  /** What one call of generate_story did: its response and its effects. */
  datatype SyncRun = SyncRun(
    response: Models.StoryGenerationResponse,
    consultedFeatures: bool,
    voiceId: Option<string>,
    stored: Option<WebhookService.StoredStory>,
    characters: seq<Supabase.CharacterDict>,  // characters added to the stored story
    images: seq<string>,                      // image paths added to the stored story
    tags: seq<string>,                        // tags added to the stored story
    decrementScheduled: bool)

  function Failure(error: string, consulted: bool, voiceId: Option<string>,
                   stored: Option<WebhookService.StoredStory>): SyncRun {
    SyncRun(Models.FailureResponse(error), consulted, voiceId, stored, [], [], [], false)
  }

  /** [theme, language], and "music:{type}" when music was requested. */
  function Tags(req: Models.StoryGenerationRequest): (tags: seq<string>)
    ensures |tags| == if req.backgroundMusic.Some? then 3 else 2
    ensures tags[0] == req.theme.Value() && tags[1] == req.language.Value()
    ensures req.backgroundMusic.Some? ==> tags[2] == "music:" + req.backgroundMusic.value.Value()
  {
    [req.theme.Value(), req.language.Value()] +
    (if req.backgroundMusic.Some? then ["music:" + req.backgroundMusic.value.Value()] else [])
  }

  /** Whether the subscription features are looked up: long stories and background music are paid features. */
  predicate NeedsFeatures(req: Models.StoryGenerationRequest) {
    req.duration == Models.Long || req.backgroundMusic.Some?
  }

  /** The feature refusal for a request, checked long stories first, if any. */
  function FeatureRefusal(req: Models.StoryGenerationRequest, features: UserRepository.FeatureCheck): Option<string> {
    match features
    case FeaturesFailed(reason) => Some(CheckFailedPrefix + reason)
    case FeaturesOf(_, f) =>
      if req.duration == Models.Long && !f.longStories then Some(LongNeedsPremium)
      else if req.backgroundMusic.Some? && !f.backgroundMusic then Some(MusicNeedsPremium)
      else None
  }

  /** generate_story, read off its collaborators' answers. */
  function GenerateStory(req: Models.StoryGenerationRequest, userId: string, out: SyncOutcomes, supabaseUrl: string)
    : SyncRun
  {
    if out.credits.NoCredits? then Failure(GenerationFailedPrefix + out.credits.reason, false, None, None)
    else
      var consulted := NeedsFeatures(req);
      var refusal := if consulted then FeatureRefusal(req, out.features) else None;
      if refusal.Some? then Failure(refusal.value, consulted, None, None)
      else if out.storedImages == [] then Failure(WebhookService.ImagesFailed, consulted, None, None)
      else
        match out.story
        case Err(e) => Failure(GenerationFailedPrefix + e, consulted, None, None)
        case Ok(story) =>
          var voiceId := SpeechService.VoiceId(VoicePreference(req.voice));
          match out.speech
          case Err(detail) => Failure(WebhookService.SpeechFailedPrefix + detail, consulted, Some(voiceId), None)
          case Ok(voicePath) =>
            var (audioPath, musicId) := WebhookService.AudioChoice(MusicValue(req.backgroundMusic), out.mix, voicePath);
            var audioUrl := Supabase.PublicUrl(supabaseUrl, audioPath);
            var stored := WebhookService.StoredStory(out.title, story.text, req.language.Value(), req.theme.Value(),
                                                     story.durationSeconds, audioUrl, audioPath, musicId);
            if !Truthy(out.storyId) then Failure(WebhookService.StoreFailed, consulted, Some(voiceId), Some(stored))
            else
              var response := Models.StoryGenerationResponse(true, out.storyId, Some(out.title), Some(story.text),
                                                             Some(audioUrl), Some(story.durationSeconds), None);
              SyncRun(response, consulted, Some(voiceId), Some(stored), CharacterDicts(req.characters),
                      out.storedImages, Tags(req), true)
  }

  /**
   * Credits come first: without them the answer is "Story generation
   * failed: {reason}" and nothing else is looked up, generated or stored.
   */
  lemma {:induction false} CreditsGateEverything(req: Models.StoryGenerationRequest, userId: string, out: SyncOutcomes,
                                                 supabaseUrl: string)
    requires out.credits.NoCredits?
    ensures var run := GenerateStory(req, userId, out, supabaseUrl);
      && run.response == Models.FailureResponse(GenerationFailedPrefix + out.credits.reason)
      && !run.consultedFeatures && run.voiceId.None? && run.stored.None? && !run.decrementScheduled
  {
  }

  /**
   * Features are looked up only for long stories or background music, and
   * a long story without the long-story feature is refused before the music
   * check is reached.
   */
  lemma {:induction false} FeatureGate(req: Models.StoryGenerationRequest, userId: string, out: SyncOutcomes,
                                       supabaseUrl: string)
    requires out.credits.HasCredits?
    ensures var run := GenerateStory(req, userId, out, supabaseUrl);
      && (run.consultedFeatures <==> NeedsFeatures(req))
      && (req.duration == Models.Long && out.features.FeaturesOf? && !out.features.features.longStories ==>
            run.response == Models.FailureResponse(LongNeedsPremium))
      && (var denied := out.features.FeaturesOf? && !out.features.features.backgroundMusic;
          req.duration != Models.Long && req.backgroundMusic.Some? && denied ==>
            run.response == Models.FailureResponse(MusicNeedsPremium))
      && (NeedsFeatures(req) && out.features.FeaturesFailed? ==>
            run.response == Models.FailureResponse(CheckFailedPrefix + out.features.reason))
      && (!NeedsFeatures(req) ==> GenerateStory(req, userId, out.(features := UserRepository.FeaturesFailed("")), supabaseUrl) == run)
  {
  }

  /** A paying user is never refused on features, whatever the request asks for. */
  lemma {:induction false} PaidTiersPassFeatures(req: Models.StoryGenerationRequest, user: UserRepository.Profile)
    requires UserRepository.Paid(user.Tier())
    ensures FeatureRefusal(req, UserRepository.CheckSubscriptionFeatures(Some(user))).None?
  {
  }

  /**
   * The stage failures: no stored image, a speech failure and a missing
   * story id each give their fixed message; the credit decrement is
   * scheduled exactly on success, and only then are characters, images and
   * tags added.
   */
  lemma {:induction false} StageFailures(req: Models.StoryGenerationRequest, userId: string, out: SyncOutcomes,
                                         supabaseUrl: string)
    requires out.credits.HasCredits? && (NeedsFeatures(req) ==> FeatureRefusal(req, out.features).None?)
    ensures var run := GenerateStory(req, userId, out, supabaseUrl);
      && (out.storedImages == [] ==> run.response == Models.FailureResponse(WebhookService.ImagesFailed))
      && (out.storedImages != [] && out.story.Err? ==>
            run.response == Models.FailureResponse(GenerationFailedPrefix + out.story.error))
      && (out.storedImages != [] && out.story.Ok? && out.speech.Err? ==>
            run.response == Models.FailureResponse(WebhookService.SpeechFailedPrefix + out.speech.error))
      && (out.storedImages != [] && out.story.Ok? && out.speech.Ok? && !Truthy(out.storyId) ==>
            run.response == Models.FailureResponse(WebhookService.StoreFailed) && run.stored.Some?)
      && (run.decrementScheduled <==> run.response.success)
      && (run.response.success <==> out.storedImages != [] && out.story.Ok? && out.speech.Ok? && Truthy(out.storyId))
      && (!run.response.success ==> run.characters == [] && run.images == [] && run.tags == [])
  {
  }

  /**
   * The success response: the database's story id, the audio URL of the
   * stored path, and the tags [theme, language] plus the music tag when
   * music was requested. A failed mix keeps the narration and no music id.
   */
  lemma {:induction false} SuccessResponse(req: Models.StoryGenerationRequest, userId: string, out: SyncOutcomes,
                                           supabaseUrl: string)
    requires GenerateStory(req, userId, out, supabaseUrl).response.success
    ensures var run := GenerateStory(req, userId, out, supabaseUrl);
      && run.stored.Some? && out.speech.Ok? && out.story.Ok?
      && run.response.storyId == out.storyId
      && run.response.audioUrl == Some(Supabase.PublicUrl(supabaseUrl, run.stored.value.storagePath))
      && run.response.audioUrl == Some(run.stored.value.audioUrl)
      && run.response.duration == Some(out.story.value.durationSeconds)
      && run.tags == Tags(req)
      && (req.backgroundMusic.Some? <==> |run.tags| == 3)
      && (!out.mix.success ==> run.stored.value.storagePath == out.speech.value && run.stored.value.backgroundMusicId.None?)
      && run.images == out.storedImages
  {
  }

  // ---------------------------------------------------------------- asynchronous generation

  /** The request_data dict handed to the background task. */
  function RequestData(req: Models.WebhookGenerationRequest): (d: WebhookService.PipelineRequest)
    ensures d.voice == VoicePreference(req.voice) && d.backgroundMusic == MusicValue(req.backgroundMusic)
    ensures d.images == req.images && d.characters == CharacterDicts(req.characters)
  {
    WebhookService.PipelineRequest(req.images, CharacterDicts(req.characters), req.theme.Value(),
                                   req.duration.Value(), req.language.Value(),
                                   MusicValue(req.backgroundMusic), VoicePreference(req.voice))
  }

  /** The synchronous request carrying the same fields. */
  function AsSync(req: Models.WebhookGenerationRequest, userId: string): Models.StoryGenerationRequest {
    Models.StoryGenerationRequest(req.images, req.characters, req.theme, req.duration, req.language,
                                  req.backgroundMusic, req.voice, userId)
  }

  /**
   * Both generation paths store the same story from the same stage answers:
   * once past the synchronous gating, generate_story and the background task
   * ask for the same voice and store the same record.
   */
  lemma {:induction false} PathsAgree(req: Models.WebhookGenerationRequest, userId: string, out: SyncOutcomes,
                                      webhookReply: WebhookService.HttpReply, supabaseUrl: string)
    requires out.credits.HasCredits?
    requires NeedsFeatures(AsSync(req, userId)) ==> FeatureRefusal(AsSync(req, userId), out.features).None?
    ensures var run := GenerateStory(AsSync(req, userId), userId, out, supabaseUrl);
            var plan := WebhookService.PlanFor(RequestData(req),
              WebhookService.StageOutcomes(out.storedImages, out.story, out.title, out.speech, out.mix, out.storyId,
                                           webhookReply), supabaseUrl);
      && run.stored == plan.stored
      && run.voiceId == plan.voiceId
  {
  }

  /** The answer of the webhook endpoint. */
  datatype StartReply = Started(requestId: string, message: string) | StartFailed(error: string)

  const StartedMessage: string := "Story generation started. Check status with /api/stories/status/{request_id}"

  /** The background task scheduled: job id, request data and callback URL. */
  datatype Job = Job(requestId: string, data: WebhookService.PipelineRequest, callbackUrl: Option<string>)

  /**
   * generate_story_webhook: without credits, an error and no job; otherwise
   * a pending record under the fresh id is in the registry before the job
   * is scheduled, and the id is returned.
   */
  method GenerateStoryWebhook(registry: WebhookService.StatusRegistry, req: Models.WebhookGenerationRequest,
                              credits: UserRepository.CreditCheck, requestId: string, now: int)
    returns (reply: StartReply, job: Option<Job>)
    requires requestId != ""
    modifies registry
    ensures credits.NoCredits? ==>
      reply == StartFailed(GenerationFailedPrefix + credits.reason) && job.None? &&
      registry.statuses == old(registry.statuses)
    ensures credits.HasCredits? ==>
      && reply == Started(requestId, StartedMessage)
      && job == Some(Job(requestId, RequestData(req), req.callbackUrl))
      && registry.statuses == old(registry.statuses)[requestId := WebhookService.PendingStatus(requestId, now)]
  {
    if credits.NoCredits? {
      return StartFailed(GenerationFailedPrefix + credits.reason), None;
    }
    var _ := registry.Create(Some(requestId), requestId, now);
    job := Some(Job(requestId, RequestData(req), req.callbackUrl));
    reply := Started(requestId, StartedMessage);
  }

  // ---------------------------------------------------------------- reading

  /** The status view of get_story_status. */
  datatype StatusView = StatusView(
    requestId: string, status: WebhookService.JobState, progress: nat, createdAt: int, updatedAt: int,
    result: Option<WebhookService.StoryResult>, error: Option<string>)

  /** get_story_status: the record's fields, or 404 for an unknown id. */
  function GetStoryStatus(status: Option<WebhookService.WebhookStatus>): (r: HttpResult<StatusView>)
    ensures status.None? <==> r == Refused(HttpException(404, "Request ID not found"))
    ensures status.Some? ==> r == Answered(StatusView(status.value.requestId, status.value.status, status.value.progress,
                                                   status.value.createdAt, status.value.updatedAt,
                                                   status.value.result, status.value.error))
  {
    match status
    case None => Refused(HttpException(404, "Request ID not found"))
    case Some(s) => Answered(StatusView(s.requestId, s.status, s.progress, s.createdAt, s.updatedAt, s.result, s.error))
  }

  /** An endpoint's value, or the HTTPException (404 or 500) it raised instead. */
  datatype HttpResult<T> = Answered(value: T) | Refused(e: HttpException)

  /** A job started by the webhook endpoint can be read back at once, pending at progress 0. */
  lemma {:induction false} StartedJobIsReadable(registry: WebhookService.StatusRegistry, requestId: string, now: int)
    requires requestId in registry.statuses && registry.statuses[requestId] == WebhookService.PendingStatus(requestId, now)
    ensures var r := GetStoryStatus(registry.Get(requestId));
      r.Answered? && r.value.status == WebhookService.Pending && r.value.progress == 0 && r.value.requestId == requestId
  {
  }

  /**
   * The filters of get_user_stories: theme, language, search and order_by
   * only when non-empty; is_favorite whenever it is given, False included.
   */
  function ListFilters(theme: Option<string>, language: Option<string>, isFavorite: Option<bool>,
                       search: Option<string>, orderBy: string): (f: StoryRepository.Filters)
    ensures f.theme == StoryRepository.WhenTruthy(theme) && f.language == StoryRepository.WhenTruthy(language)
    ensures f.search == StoryRepository.WhenTruthy(search)
    ensures f.isFavorite == isFavorite
    ensures f.orderBy == (if orderBy != "" then Some(orderBy) else None)
    ensures f.createdAfter.None? && f.createdBefore.None?
  {
    StoryRepository.Filters(StoryRepository.WhenTruthy(theme), StoryRepository.WhenTruthy(language), isFavorite,
                            StoryRepository.WhenTruthy(search), None, None, if orderBy != "" then Some(orderBy) else None)
  }

  /** The default order_by, "created_at:desc", is newest first. */
  lemma {:induction false} DefaultOrderIsNewestFirst()
    ensures StoryRepository.ParseOrder("created_at:desc") == Some(StoryRepository.Order("created_at", false))
  {
    assert "created_at:desc" == "created_at" + ":" + "desc";
    StoryRepository.ParseOrderOf("created_at", "desc");
  }

  /**
   * get_user_stories: the query the repository builds from the endpoint's
   * filters, with limit and offset echoed back. The filters reach the query
   * unchanged, an explicit False favourite filter included.
   */
  method GetUserStories(userId: string, limit: int, offset: int, theme: Option<string>, language: Option<string>,
                        isFavorite: Option<bool>, search: Option<string>, orderBy: string)
    returns (query: Option<StoryRepository.Query>, echoedLimit: int, echoedOffset: int)
    ensures echoedLimit == limit && echoedOffset == offset
    ensures query.None? <==> orderBy != "" && StoryRepository.ParseOrder(orderBy).None?
    ensures query.Some? ==>
      && query.value.userId == userId
      && query.value.theme == StoryRepository.WhenTruthy(theme)
      && query.value.language == StoryRepository.WhenTruthy(language)
      && query.value.isFavorite == isFavorite
      && query.value.titleLike == (if Truthy(search) then Some("%" + search.value + "%") else None)
      && query.value.createdFrom.None? && query.value.createdUntil.None?
      && query.value.first == offset && query.value.last == offset + limit - 1
    ensures query.Some? && orderBy != "" ==> query.value.order == StoryRepository.ParseOrder(orderBy).value
    ensures query.Some? && orderBy == "" ==> query.value.order == StoryRepository.Order("created_at", false)
  {
    var filters := ListFilters(theme, language, isFavorite, search, orderBy);
    query := StoryRepository.GetStoriesByUser(userId, limit, offset, filters);
    echoedLimit, echoedOffset := limit, offset;
  }

  /** get_story: the caller's own story, or 404. */
  function GetStory(story: Option<StoryRepository.StoryRecord>): (r: HttpResult<StoryRepository.StoryRecord>)
    ensures story.Some? <==> r.Answered?
    ensures story.Some? ==> r.value == story.value
    ensures story.None? ==> r.e == HttpException(404, "Story not found")
  {
    if story.Some? then Answered(story.value) else Refused(HttpException(404, "Story not found"))
  }

  /** toggle_favorite: the value sent (False when absent) once the owner's update succeeded, else 404. */
  method ToggleFavorite(tables: StoryRepository.StoryTables, storyId: string, userId: string, isFavorite: Option<bool>)
    returns (r: HttpResult<bool>)
    modifies tables
    ensures r.Answered? <==> old(tables.GetStoryById(storyId, Some(userId))).Some?
    ensures r.Answered? ==>
      r.value == isFavorite.GetOr(false) &&
      tables.stories == StoryRepository.WithFavorite(old(tables.stories), storyId, userId, isFavorite.GetOr(false))
    ensures r.Refused? ==> r.e == HttpException(404, "Story not found") && tables.stories == old(tables.stories)
  {
    var favorite := isFavorite.GetOr(false);
    var ok := tables.UpdateStoryFavorite(storyId, userId, favorite);
    if !ok {
      return Refused(HttpException(404, "Story not found"));
    }
    r := Answered(favorite);
  }

  /**
   * delete_story: the owner's story goes, with its characters, images and
   * tags, or 404 when the caller owns no such story. The caller's id is a
   * token subject, never empty.
   */
  method DeleteStory(tables: StoryRepository.StoryTables, storyId: string, userId: string) returns (r: HttpResult<string>)
    modifies tables
    ensures r.Answered? <==> old(tables.GetStoryById(storyId, Some(userId))).Some?
    ensures r.Answered? ==>
      r.value == "Story deleted successfully" &&
      tables.stories == StoryRepository.Without(old(tables.stories), storyId, userId)
    ensures r.Answered? && userId != "" ==>
      && |tables.stories| < |old(tables.stories)|
      && (forall c | c in tables.characters :: c.storyId != storyId)
      && (forall i | i in tables.images :: i.storyId != storyId)
      && (forall t | t in tables.tags :: t.storyId != storyId)
    ensures r.Refused? ==>
      && r.e == HttpException(404, "Story not found")
      && tables.stories == old(tables.stories) && tables.characters == old(tables.characters)
      && tables.images == old(tables.images) && tables.tags == old(tables.tags)
  {
    var ok := tables.DeleteStory(storyId, userId);
    if !ok {
      return Refused(HttpException(404, "Story not found"));
    }
    r := Answered("Story deleted successfully");
  }

  /** get_subscription_features: the features, or 500 with the lookup's reason. */
  function GetSubscriptionFeatures(check: UserRepository.FeatureCheck): (r: HttpResult<UserRepository.FeatureCheck>)
    ensures check.FeaturesOf? <==> r == Answered(check)
    ensures check.FeaturesFailed? ==> r == Refused(HttpException(500, check.reason))
  {
    if check.FeaturesOf? then Answered(check) else Refused(HttpException(500, check.reason))
  }

  /** get_user_credits: story and voice credits (0 when unset), or 404 for an unknown user. */
  function GetUserCredits(user: Option<UserRepository.Profile>): (r: HttpResult<(int, int)>)
    ensures user.None? <==> r == Refused(HttpException(404, UserRepository.UserNotFound))
    ensures user.Some? ==> r == Answered((user.value.storyCredits.GetOr(0), user.value.voiceCredits.GetOr(0)))
  {
    if user.None? then Refused(HttpException(404, UserRepository.UserNotFound))
    else Answered((user.value.storyCredits.GetOr(0), user.value.voiceCredits.GetOr(0)))
  }
}
