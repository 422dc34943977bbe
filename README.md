# Lullaby story backend, modelled in Dafny

This project models the core of a bedtime-story backend. Parents upload pictures and name the characters. The service:

- captions each picture;
- asks a language model for a story and a title in one of four languages;
- narrates the story with a chosen voice;
- optionally lays looped background music under the narration;
- stores the story, its characters, images and tags;
- spends one story credit of the user.

Generation runs in two ways. A synchronous endpoint answers with the finished story. An asynchronous endpoint returns a job id at once; a background pipeline then records its progress and finally calls an optional callback URL. Around this sit the supporting parts:

- an in-memory registry of job statuses;
- a websocket connection manager;
- a per-user, per-tier rate limiter;
- a uniform JSON error format;
- bearer-token authentication;
- start-up environment checks;
- the story and profile repositories;
- the older stand-alone script (`app.py`), which validates local files, builds a multi-scene prompt and mixes music locally.

Every foreign service is an input. This covers captioning, the language models, speech synthesis, storage, the database, HTTP downloads, token decoding and audio decoding: each is a datatype of what the service answered. The clock (`now`), fresh uuids (`freshId`, `fileId`) and random choices (`adjectivePick`, `nounPick`) are parameters. State that the source mutates is modelled by classes:

- the job registry;
- the websocket manager;
- the rate-limit store;
- the story and profile tables;
- the process environment;
- the speech-model cache.

Their methods state the new state in terms of the old one, together with the invariant they keep.

Modules (one per source file, plus `Wrappers`, `Text` and `Arith` helpers):
`Config`, `Models`, `Supabase`, `StoryService`, `SpeechService`, `MusicService`, `ImageService`, `WebhookService`,
`WebSocketService`, `RateLimiter`, `ErrorHandler`, `Auth`, `EnvValidator`, `UserRepository`, `StoryRepository`,
`Api` (api/main.py) and `LullabyApp` (app.py).

## Model

| member | source | states |
|---|---|---|
| Text.StripContents | api/config.py:85 | `str.strip()` keeps one contiguous slice of the text and cuts away only whitespace before and after it |
| Text.StripOfContents | api/services/story_service.py:108 | `str.strip(chars)` keeps one contiguous slice of the text and cuts away only the given characters before and after it |
| Config.KeepStripped | api/config.py:85 | keeps at most as many pieces as given, each a non-empty origin without surrounding whitespace |
| Config.CorsOrigins | api/config.py:82-85 | "*" gives ["*"]; otherwise every entry is a non-empty stripped origin |
| Config.KeepStrippedAppend | api/config.py:85 | filtering distributes over concatenation, so origins keep their order |
| Config.CorsOriginsCons | api/config.py:85 | the first comma-separated origin (when not blank) comes first, followed by the rest's |
| Config.CorsOriginsSingle | api/config.py:85 | a setting without commas yields its stripped self, or nothing when blank |
| Config.Debug | api/config.py:94-95 | DEBUG holds iff ENVIRONMENT is exactly "development" |
| Models.ParseTheme | api/models/story.py:7-12 | a theme string is accepted iff it is one of the five values, and parses to the member with that value |
| Models.ParseDuration | api/models/story.py:15-18 | the same for the three durations |
| Models.ParseLanguage | api/models/story.py:21-25 | the same for the four languages |
| Models.ParseMusic | api/models/story.py:28-33 | the same for the five music types |
| Models.EnumRoundTrips | api/models/story.py:7-33 | every member's value parses back to that member |
| Models.LanguageValuesAreLanguageMapKeys | api/models/story.py:21-25 | the language values are exactly the keys of LANGUAGE_MAP (api/config.py:53-58) |
| Models.MusicValuesAreMusicPathKeys | api/models/story.py:28-33 | the music values are exactly the keys of MUSIC_PATHS (api/config.py:61-67) |
| Models.BareResponse | api/models/story.py:63-70 | a response built from `success` alone leaves every other field None |
| Models.FailureResponse | api/models/story.py:63-70 | a failure response has success false, the error text, and no id, audio URL or duration |
| Supabase.PublicUrl | api/main.py:209 | the public URL starts with the project URL, ends with the storage path and has the combined length |
| Supabase.PublicUrlInjective | api/services/webhook_service.py:281 | equal public URLs come from equal storage paths |
| Supabase.StoragePath | api/services/image_service.py:140-141 | a stored object's path starts with "{folder}/{user}/" and ends with the extension; the generated-audio and upload paths are its two instances |
| Supabase.GeneratedAudioPath | api/services/speech_service.py:58-59 | generated audio lives under "generated-stories/{user}/" and ends in ".mp3" |
| Supabase.UploadFileToStorage | api/db/supabase.py:83-103 | the public URL on success; None exactly when the upload raised |
| Supabase.LanguageCode | api/db/supabase.py:123 | the ISO code from LANGUAGE_MAP, "en" for an unknown language; always one of the map's codes |
| Supabase.InsertStoryRow | api/db/supabase.py:106-131 | the inserted row stores the language as its ISO code and every other argument unchanged |
| Supabase.DescriptionOf | api/db/supabase.py:149 | a missing description key gives "", a None value stays None, text is kept |
| Supabase.CharacterRows | api/db/supabase.py:145-152 | one row per character, in order, with the story id, name and description |
| Supabase.ImageRows | api/db/supabase.py:168-176 | one row per path, in order; each row's sequence index is its position |
| Supabase.InsertInBatches | api/db/supabase.py:155-157 | the batches concatenate to exactly the rows; each holds 1 to 10 rows; only the last may be short; there are ceil(n/10) of them |
| Supabase.FirstOfCategory | api/db/supabase.py:192-196 | the index of the first row of the category, or None when no row has it |
| Supabase.GetBackgroundMusic | api/db/supabase.py:189-203 | None iff the table is empty; the first stored row of the requested category when one exists; otherwise the first row of the table |
| StoryService.LanguageConfigFor | api/services/story_service.py:164 | the language's entry, or the english entry for an unknown language; its ISO code agrees with LANGUAGE_MAP |
| StoryService.DurationConfigFor | api/services/story_service.py:167 | the duration's entry, or the medium entry; the word target is positive |
| StoryService.ThemeDescriptionFor | api/services/story_service.py:176 | the theme's description, or "a magical adventure" |
| StoryService.TablesMatchEnums | api/services/story_service.py:15-64 | the three tables are keyed by exactly the enumeration values, and the language table by LANGUAGE_MAP's keys |
| StoryService.ValidatedRequestsHitTheTables | api/services/story_service.py:164-176 | a validated request never falls back to a default entry |
| StoryService.NonEmptyNames | api/services/story_service.py:153 | only non-empty names are kept, each taken from some character |
| StoryService.NonEmptyNamesAppend | api/services/story_service.py:153 | name filtering distributes over concatenation: order kept, nothing invented |
| StoryService.CharacterNames | api/services/story_service.py:153-155 | the non-empty names, or the three default names when there are none; never empty |
| StoryService.SceneLine | api/services/story_service.py:161 | a scene line starts with "Scene " and ends with its scenario |
| StoryService.ScenePrompts | api/services/story_service.py:158-161 | one line per scenario; scenario i is paired with name i modulo the number of names |
| StoryService.EstimateDuration | api/services/story_service.py:228-232 | the estimate is the floor of time × words / target |
| StoryService.EstimateAtTarget | api/services/story_service.py:231-232 | a story of exactly the target word count is estimated at the configured time |
| StoryService.EstimateMonotone | api/services/story_service.py:228-232 | more words never give a shorter estimate |
| StoryService.ShortStoryExample | api/services/story_service.py:228-232 | 300 words under the short setting (60 s per 150 words) give 120 seconds |
| StoryService.GenerateStory | api/services/story_service.py:143-237 | the prompt pairs scenes with names as specified; the story is the stripped reply text exactly on status 200; any other status raises "Failed to generate story: {body}" |
| StoryService.TitleLanguage | api/services/story_service.py:135 | the language's own word lists when present, else english; both lists have seven words |
| StoryService.FallbackTitle | api/services/story_service.py:119-140 | the title is one adjective and one noun of the same language, joined by a space |
| StoryService.GenerateTitle | api/services/story_service.py:67-116 | on status 200, the reply stripped of whitespace and then of double quotes (so it neither starts nor ends with a quote); otherwise the fallback title |
| SpeechService.VoiceId | api/services/speech_service.py:102-108 | a preference longer than 10 characters not starting "ai-" is used as is; otherwise the predefined voice of that name, or voice ai-1 |
| SpeechService.VoiceIdRange | api/services/speech_service.py:102-108 | the voice is the preference itself or one of the four predefined voices |
| SpeechService.VoiceIdIdempotent | api/services/speech_service.py:102-108 | resolving a resolved voice id changes nothing |
| SpeechService.GenerateSpeech | api/services/speech_service.py:20-47 | audio exactly when synthesis returned it |
| SpeechService.GenerateAndSaveSpeech | api/services/speech_service.py:50-99 | the storage path exactly when audio was non-empty, the temporary file did not raise and the upload returned a non-empty URL; "Failed to generate speech" without audio; the exception's own text when the temporary file raised; "Failed to upload audio file" otherwise |
| MusicService.DownloadFile | api/services/music_service.py:16-30 | data exactly on status 200, and then the body as received |
| MusicService.DownloadAudioFile | api/services/music_service.py:33-53 | fetches the public URL of the path; a local file exactly when the download gave non-empty data |
| MusicService.GetMusicFile | api/services/music_service.py:56-82 | success iff a music row exists with a storage path whose download succeeded; the row is reported whenever one was found |
| MusicService.Repeat | api/services/music_service.py:113 | n copies of the track: length n × len, and sample i is track[i mod len] |
| MusicService.LoopCoversVoice | api/services/music_service.py:112 | looping len(voice) // len(bg) + 1 times always exceeds the voice's length |
| MusicService.FittedSpec | api/services/music_service.py:109-116 | the fitted background is exactly as long as the voice and plays the track from its start, wrapping around; only an empty track under a non-empty voice fails, with Python's division-by-zero message |
| MusicService.FitBackground | api/services/music_service.py:109-116 | the step-by-step reassignment yields the fitted background |
| MusicService.MixAudioWithBackground | api/services/music_service.py:85-161 | voice download failure, the voice-only fallback, a decoding exception of either track, the division failure, an export or read-back exception, an empty or failed upload URL and the stored mix, each with its exact triple; the overlaid background is the fitted one |
| WebhookService.PendingStatus | api/services/webhook_service.py:36-44 | a new record is pending at progress 0.0, has no result and no error, and was created and updated now |
| WebhookService.Merged | api/services/webhook_service.py:64-76 | each field the update gives replaces the stored one, every other field is kept, updated_at becomes now, id and creation time never change |
| WebhookService.MergedNeverClears | api/services/webhook_service.py:70-74 | an update can set a result or an error but never clear one |
| WebhookService.MergedIdempotent | api/services/webhook_service.py:50-79 | applying the same update twice at the same time equals applying it once |
| WebhookService.StatusRegistry.constructor | api/services/webhook_service.py:28 | the registry starts empty |
| WebhookService.StatusRegistry.Create | api/services/webhook_service.py:31-47 | a falsy id is replaced by a fresh uuid; the pending record is stored under the id, overwriting any earlier one, and nothing else changes |
| WebhookService.StatusRegistry.Update | api/services/webhook_service.py:50-79 | an unknown id gives None and changes nothing; a known id gets the merged record, which is stored and returned |
| WebhookService.StatusRegistry.Get | api/services/webhook_service.py:82-84 | the stored record exactly when the id is present, else None |
| WebhookService.SendCompletionWebhook | api/services/webhook_service.py:87-128 | an empty URL sends nothing; otherwise the record's id, status, result and error are posted with completed_at = updated_at, and delivery succeeds iff the reply is 200, 201, 202 or 204 |
| WebhookService.OtherSuccessCodesFail | api/services/webhook_service.py:119 | any other 2xx code (203, 205, ...) makes the call return false |
| WebhookService.AudioChoice | api/services/webhook_service.py:254-266 | the mixed file and the music id only when music was asked for and mixing succeeded; otherwise the narration and no music id |
| WebhookService.Trace | api/services/webhook_service.py:50-79 | one observable record per update, the last being the final record |
| WebhookService.TraceOfSteps | api/services/webhook_service.py:140-222 | after the i-th opening update the job is processing at progress (i+1)/10, everything else unchanged |
| WebhookService.TraceIndex | api/services/webhook_service.py:140-222 | the record a poller sees after update i is the result of the first i + 1 updates |
| WebhookService.StepsPrefix | api/services/webhook_service.py:140-222 | the first j opening updates of a longer opening are the opening of length j |
| WebhookService.FinalOfSteps | api/services/webhook_service.py:140-222 | after k opening updates the job is processing at progress k/10, result, error, id and creation time unchanged, stamped with the current time |
| WebhookService.OpeningAt | api/services/webhook_service.py:140-222 | after opening update i the job is processing at progress (i+1)/10 |
| WebhookService.HistoryOf | api/services/webhook_service.py:138-349 | k opening updates and one terminal update give k + 1 records: processing at 0.1 ... k/10, then completed at 1.0 with a result or failed at 0.0 with an error |
| WebhookService.PlanShape | api/services/webhook_service.py:138-349 | every run is the opening updates up to some k tenths plus one terminal update: failure after 0.2 (images), 0.4 (story), 0.6 (speech) or 0.8 (database), with the stage's message, or completion after 0.9 |
| WebhookService.RunHistory | api/services/webhook_service.py:138-349 | a poller sees progress rising 0.1, 0.2, ... while processing, then a terminal record: completed at 1.0 with a result, or failed at 0.0 with an error; id and creation time never change |
| WebhookService.PlanBeforeStory | api/services/webhook_service.py:154-204 | when no image is stored the run ends with the images failure after 0.2; when the story fails it ends with the story's error after 0.4; neither names a voice or stores a story |
| WebhookService.PlanAfterStory | api/services/webhook_service.py:206-247 | once the story exists the run names the request's voice, and a speech failure ends it after 0.6 with the speech message and nothing stored |
| WebhookService.FreshJobOutcome | api/services/webhook_service.py:31-47 | started from a pending record, a completed job has a result and no error and a failed job an error and no result |
| WebhookService.StoredAudio | api/services/webhook_service.py:254-284 | a story is stored iff images, story and speech succeeded; its URL is the public URL of its storage path; without a successful requested mix it keeps the narration and no music id; the voice is get_voice_id of the preference |
| WebhookService.CompletedResult | api/services/webhook_service.py:312-326 | a completed job's result is the stored story's title, text, URL and duration under the id the database returned |
| WebhookService.Notify | api/services/webhook_service.py:329-333 | the webhook is attempted exactly when the callback URL is truthy, with the final record |
| WebhookService.PlanAfterSpeech | api/services/webhook_service.py:248-326 | after speech, the stored story and the remaining updates: failure at 0.8 without a story id, else 0.9 and completion with the result |
| WebhookService.NarrateAndStore | api/services/webhook_service.py:206-326 | steps 4-9 write exactly the planned updates into the registry and the trace, and return the planned voice and stored story |
| WebhookService.MixAndStore | api/services/webhook_service.py:248-326 | steps 6-9 write exactly the planned updates and return the planned stored story |
| WebhookService.CompleteStory | api/services/webhook_service.py:286-326 | after the story is stored, the missing-id failure or progress 0.9 then completion is written, exactly as planned |
| WebhookService.ProcessStoryGeneration | api/services/webhook_service.py:131-349 | the registry ends with the planned updates applied to the job's record, every other record unchanged; the trace is every intermediate record; at most one webhook, with the final record |
| WebSocketService.DigitSuffix | api/services/websocket_service.py:28 | the trailing run of digits is no longer than the string |
| WebSocketService.DigitSuffixAfterSeparator | api/services/websocket_service.py:28 | after "_" and a run of digits, the trailing digit run is exactly that run |
| WebSocketService.RenderSeparatesUsers | api/services/websocket_service.py:28 | two connection ids "{user_id}_{id}" are equal only for the same user and the same socket |
| WebSocketService.ConnectionManager.constructor | api/services/websocket_service.py:15-21 | the three maps start empty and the manager's invariant holds |
| WebSocketService.ConnectionManager.Connect | api/services/websocket_service.py:23-41 | the connection is added under its user with an empty subscription set; a new user also gets an empty user subscription set; the invariant is kept |
| WebSocketService.ConnectionManager.Disconnect | api/services/websocket_service.py:43-57 | a connection not open under its user changes nothing; otherwise it and its subscriptions are removed, and the user too when it was the last connection; the user's subscriptions stay |
| WebSocketService.ConnectConsistent | api/services/websocket_service.py:30-37 | registering a connection keeps the three maps consistent: users with connections have subscription sets, connections sit under their user, subscription sets exist exactly for open connections |
| WebSocketService.DisconnectConsistent | api/services/websocket_service.py:45-55 | removing an open connection, and its user when it was the last, keeps the three maps consistent |
| WebSocketService.ConnectionManager.Subscribe | api/services/websocket_service.py:59-67 | the job is added to the connection's and the user's sets where they exist; an open connection then receives the job's broadcasts |
| WebSocketService.ConnectionManager.Unsubscribe | api/services/websocket_service.py:69-86 | the job leaves the connection's set, and the user's set unless another connection of the user still follows it; the connection no longer receives the job's broadcasts |
| WebSocketService.ConnectionManager.BroadcastToSubscribers | api/services/websocket_service.py:88-100 | the message reaches exactly the connections whose user and which themselves follow the job, less those whose send raises |
| WebSocketService.ConnectionManager.BroadcastToUser | api/services/websocket_service.py:102-109 | every open connection of the user whose send does not raise; nobody for a user without connections |
| WebSocketService.ConnectionManager.SendPersonalMessage | api/services/websocket_service.py:111-117 | delivered iff the connection is open under the user and its send does not raise |
| WebSocketService.RecipientsAreFollowers | api/services/websocket_service.py:88-100 | under the invariant, every recipient is an open connection of a following user and follows the job itself |
| WebSocketService.ReplyTo | api/services/websocket_service.py:142-178 | subscribe and unsubscribe with a job id are acknowledged with it, without one get no reply; ping gets pong with the timestamp; any other type "Unknown message type"; non-JSON "Invalid JSON format" |
| WebSocketService.Replies | api/services/websocket_service.py:136-178 | at most one reply per message |
| WebSocketService.PingsAreAnswered | api/services/websocket_service.py:160-165 | a session of pings gets one pong per ping, in order, echoing each timestamp |
| WebSocketService.HandleMessage | api/services/websocket_service.py:137-178 | the reply is ReplyTo of the message; connections never change; the connection's own job set gains a subscribed job or loses an unsubscribed one; the user's set gains a subscribed job and loses an unsubscribed one unless another connection of the user follows it; nothing else changes |
| WebSocketService.ReceiveLoop | api/services/websocket_service.py:136-178 | on an open connection, the replies to all messages in order; connections and every other connection's job set are unchanged; the user's job set becomes the session's result (SessionJobs), judged against what the other connections followed at the start |
| WebSocketService.SessionJobsMeaning | api/services/websocket_service.py:142-158 | after a session the user follows every job last subscribed, no job last unsubscribed that no other connection follows, and keeps exactly its earlier jobs among those never mentioned |
| WebSocketService.HandleConnection | api/services/websocket_service.py:124-184 | the client is sent the connection confirmation with the rendered id, then the replies to its messages in order; at the end the connection is closed and its job set gone, the user's entry is dropped when it was their last connection, every other connection and user is unchanged, and the user's job set is the session's result, kept after the disconnect (reset to empty first when the user had no open connection) |
| WebSocketService.StatusUpdateMessage | api/services/websocket_service.py:187-200 | id, status and progress as given; the result key only for a non-empty result and the error key only for a non-empty error |
| WebSocketService.SendStatusUpdate | api/services/websocket_service.py:187-202 | the status message reaches exactly the job's broadcast recipients whose send does not raise |
| WebSocketService.SendStoryCompleted | api/services/websocket_service.py:205-213 | the story_completed message reaches every open connection of the user whose send does not raise |
| RateLimiter.RulesWellFormed | api/middleware/rate_limiter.py:20-36 | every tier's every rule has a positive limit of at most 2000 and a one-hour window |
| RateLimiter.TierTableOrdering | api/middleware/rate_limiter.py:20-36 | generation is the tightest free rule; premium and then family raise it; every tier has the same three rules |
| RateLimiter.UserKey | api/middleware/rate_limiter.py:61-72 | no header gives "anonymous"; a header without a space is itself the key; a header with a space must split into exactly two words (else the unpacking raises) and gives the token for a bearer scheme in any case, else "anonymous" |
| RateLimiter.BearerTokenIsKey | api/middleware/rate_limiter.py:65-70 | "Bearer {token}" in any letter case keys the request by the token |
| RateLimiter.FirstMatch | api/middleware/rate_limiter.py:75-80 | the rule is "general" or one of the endpoint table's rules |
| RateLimiter.SelectRule | api/middleware/rate_limiter.py:75-80 | the loop yields the rule of the first endpoint prefix the path starts with, else "general" |
| RateLimiter.RuleClasses | api/middleware/rate_limiter.py:39-42 | generation paths get story_generation, other paths under "/api/stories/" get get_stories, every other path general |
| RateLimiter.BareStoriesPathIsGeneral | api/middleware/rate_limiter.py:41 | "/api/stories" without the trailing slash is limited by the general rule |
| RateLimiter.SubscriptionTier | api/middleware/rate_limiter.py:83-91 | anonymous callers, unknown users and failed lookups are "free"; a found user's stored tier is used as is |
| RateLimiter.Current | api/middleware/rate_limiter.py:104-109 | a missing or expired entry restarts at count 0 with the reset one window from now; a live one is kept |
| RateLimiter.RateLimitStore.constructor | api/middleware/rate_limiter.py:17 | the store starts empty |
| RateLimiter.RateLimitStore.Dispatch | api/middleware/rate_limiter.py:51-143 | unlimited paths pass untouched; a malformed header or an unknown tier raises and changes nothing; otherwise only the key "{user}:{rule}" changes: at the limit a 429 with the seconds until the reset, else the count goes up by one and the remaining allowance is reported; no counter passes the largest limit |
| RateLimiter.RateLimitStore.CountRequest | api/middleware/rate_limiter.py:100-143 | a missing or expired window restarts at zero; at the limit the answer is 429 with at least one second to wait and the counter unchanged, else the counter goes up by one; no other key changes |
| RateLimiter.RateLimitStore.Cleanup | api/middleware/rate_limiter.py:146-161 | one sweep removes exactly the entries whose window has ended and reports how many |
| RateLimiter.DistinctCount | api/middleware/rate_limiter.py:160-161 | deleting distinct present keys shrinks the store by their number |
| ErrorHandler.FromHttp | api/middleware/error_handler.py:40-46 | an HTTPException offers its status code and detail and no errors attribute |
| ErrorHandler.ErrorType | api/middleware/error_handler.py:48-60 | the six named codes get their names; every other code keeps "Internal Server Error" |
| ErrorHandler.ErrorTypesDistinct | api/middleware/error_handler.py:48-60 | different named codes get different types, none of them the server-error type |
| ErrorHandler.CreateErrorResponse | api/middleware/error_handler.py:34-79 | success is false; status 500 unless the exception carries one, and the body repeats it; the type follows the code; detail from the detail attribute, else the exception's text; errors only when present |
| ErrorHandler.HttpExceptionResponse | api/middleware/error_handler.py:40-46 | an HTTPException keeps its code and detail and adds no errors |
| ErrorHandler.PlainExceptionResponse | api/middleware/error_handler.py:36-46 | an exception without attributes answers 500 "Internal Server Error" with its own text |
| ErrorHandler.Dispatch | api/middleware/error_handler.py:19-32 | responses pass through unchanged; an exception becomes its error response |
| ErrorHandler.ValidationExceptionHandler | api/middleware/error_handler.py:118-133 | always 422 "Validation Error" with "Invalid request parameters" and the validation errors |
| ErrorHandler.ValidationAgreesWithGeneral | api/middleware/error_handler.py:118-133 | the validation handler answers as the general handler would for a 422 exception carrying the same detail and errors |
| Auth.DecodeJwt | api/services/auth_service.py:20-49 | only an unexpired decoded token passes, with its payload; a JWT error is 401 "Invalid authentication credentials"; an expired token and any other failure are 401 "Authentication error" |
| Auth.ExtractToken | api/services/auth_service.py:65-73 | a header without a space is the token; two words with a bearer scheme (any case) give the second; another scheme is 401 "Invalid authentication scheme"; any other word count is 401 "Authentication error" |
| Auth.BearerHeaderToken | api/services/auth_service.py:65-73 | "Bearer {token}" in any letter case yields the token |
| Auth.GetCurrentUser | api/services/auth_service.py:52-104 | a missing header is 401 "Not authenticated"; the caller passes iff the token extracts and decodes, carries a subject and the user exists, and then gets that id and profile; 404 exactly for a valid token whose user lookup came back empty (no such profile, or the query raised and the lookup swallowed it); every other refusal is 401 |
| Auth.RequireSubscription | api/services/auth_service.py:107-125 | a failed feature check is 400 with its reason; the required tier or "family" passes with the features; any other tier is 403 "This feature requires a {tier} subscription" |
| Auth.PremiumRequirementMatchesFeatures | api/services/auth_service.py:119 | the premium requirement admits exactly the tiers the feature table grants long stories, and "family" passes any requirement |
| Auth.MockAuthHandler | api/services/auth_service.py:128-141 | an empty token is 401 "Not authenticated"; any other token is the user id |
| EnvValidator.MissingRequired | api/utils/env_validator.py:52-54 | at most one message per required variable, and none iff every one is present and non-empty |
| EnvValidator.MissingProduction | api/utils/env_validator.py:57-60 | at most one message per production-only variable, and none iff every one is present and non-empty |
| EnvValidator.ValidateEnvironment | api/utils/env_validator.py:35-62 | the loops produce the required-variable messages in declaration order, then in production mode the production-only ones; the list is empty iff every checked variable is set |
| EnvValidator.ReportMissingRequired | api/utils/env_validator.py:52-54 | the loop reports one message per unset required variable, in declaration order |
| EnvValidator.ReportMissingProduction | api/utils/env_validator.py:57-60 | the loop reports one message per unset production-only variable, in order |
| EnvValidator.ExpectedEmpty | api/utils/env_validator.py:49-62 | the report is empty iff every required variable is set and, in production, every production-only one too |
| EnvValidator.MissingRequiredAppend | api/utils/env_validator.py:52-54 | the messages for a concatenated list are the concatenated messages |
| EnvValidator.CompleteEnvIsValid | api/utils/env_validator.py:52-54 | an environment with all seven required variables set gets no message |
| EnvValidator.OnlyOneMissing | api/utils/env_validator.py:52-54 | when exactly one listed variable is unset, its message is the only one reported |
| EnvValidator.OneRequiredMissing | api/utils/env_validator.py:52-54 | dropping ELEVENLABS_API_KEY from a complete environment gives exactly one message |
| EnvValidator.BothProductionMissing | api/utils/env_validator.py:57-60 | without SENTRY_DSN and REDIS_URL both are reported |
| EnvValidator.ValidationScenarios | api/utils/env_validator.py:35-62 | complete: no message; without ELEVENLABS_API_KEY: one; the same in production mode: three |
| EnvValidator.CheckAndWarn | api/utils/env_validator.py:65-90 | production mode iff ENVIRONMENT lower-cases to "production"; success with the mode's name iff validation finds nothing; otherwise exit when asked to, else warn, with the messages |
| EnvValidator.Names | api/utils/env_validator.py:21-26 | exactly the names in a variable list |
| EnvValidator.WithDefaultsEffect | api/utils/env_validator.py:93-97 | filling defaults adds only the listed names, keeps every set variable and every unlisted one, and leaves every listed variable set |
| EnvValidator.WithDefaultsIdempotent | api/utils/env_validator.py:93-97 | loading the defaults twice is loading them once |
| EnvValidator.SetVariablesUnchanged | api/utils/env_validator.py:95-97 | when every listed variable is set, nothing changes |
| EnvValidator.Environment.constructor | api/utils/env_validator.py:47 | the environment holds the given variables |
| EnvValidator.Environment.LoadDefaults | api/utils/env_validator.py:93-97 | each missing or empty optional variable takes its default; every set variable keeps its value |
| ImageService.Classify | api/services/image_service.py:89-99 | a source is a URL iff it starts with "http://" or "https://"; otherwise inline data iff it starts with "data:image" or contains "base64"; otherwise a path |
| ImageService.DataUrlIsBase64 | api/services/image_service.py:93 | every data URL is read as inline data, never as a web address |
| ImageService.ProcessBase64 | api/services/image_service.py:41-61 | without a comma the whole text is data of type image/jpeg; with one, the data follows the first comma and the type is the header's second ':'-piece up to ';', and a header without ':' raises |
| ImageService.DataUrlParts | api/services/image_service.py:45-47 | "data:{type};base64,{data}" yields exactly that type and data |
| ImageService.Img2Text | api/services/image_service.py:84-110 | a model that cannot load raises; otherwise the first caption, "An image without a clear description." for none, and "An image that could not be processed." for any failure including an unreadable data-URL header |
| ImageService.Scenario | api/services/image_service.py:119-126 | the caption, or "An image that could not be analyzed." when captioning raised; always one of the fixed texts or the model's first caption |
| ImageService.AnalyzeMultipleImages | api/services/image_service.py:113-128 | exactly one scenario per source, in order, each the source's own scenario |
| ImageService.UploadPath | api/services/image_service.py:140-141 | uploads go under "user-uploads/{user_id}/" and end in ".jpg" |
| ImageService.StoredPath | api/services/image_service.py:137-169 | a path source is kept as is; a URL or inline source is kept, as its upload path, iff it was fetched (and its header read) and the upload returned a non-empty URL |
| ImageService.StoredPaths | api/services/image_service.py:131-171 | never more paths than sources |
| ImageService.StoreImages | api/services/image_service.py:131-171 | the loop keeps each source's stored path in input order and drops the failures |
| ImageService.StoredPathsShape | api/services/image_service.py:152-166 | every kept path is a path source given by the caller or an upload under the user's folder |
| ImageService.PathsPassThrough | api/services/image_service.py:152-155 | when every source is a path, the result is the sources unchanged |
| UserRepository.FirstWithId | api/db/repositories/user_repository.py:16-27 | None iff no row has the id; otherwise a row with that id (its position is FirstWithIdIsFirst) |
| UserRepository.FirstWithIdIsFirst | api/db/repositories/user_repository.py:16-27 | the row found is the stored row at the first position holding the id |
| UserRepository.FirstWithOauthId | api/db/repositories/user_repository.py:30-41 | None iff no row has the OAuth id; otherwise the stored row at the first position holding that OAuth id |
| UserRepository.UpdateWhere | api/db/repositories/user_repository.py:157-159 | an update by id rewrites exactly the rows with that id and keeps the others and the row count |
| UserRepository.LookupAfterUpdate | api/db/repositories/user_repository.py:157-159 | after an id-preserving update, the id's lookup finds the updated row and every other id's lookup is unchanged |
| UserRepository.CheckUserCredits | api/db/repositories/user_repository.py:93-113 | credits are granted iff the user exists with a positive count (a missing column counts as 0), reporting the count and the tier (default "free"); otherwise "User not found" or "Insufficient story credits" |
| UserRepository.FeaturesFor | api/db/repositories/user_repository.py:127-135 | premium and family get long stories, music, custom voices, educational themes, unlimited storage and 5 images; only family shares; every other tier gets none and 3 images |
| UserRepository.TiersAreOrdered | api/db/repositories/user_repository.py:127-135 | every tier's features are included in family's, in premium's unless it is family, and include free's; a tier other than premium or family has exactly free's features |
| UserRepository.CheckSubscriptionFeatures | api/db/repositories/user_repository.py:116-144 | "User not found" exactly for a missing user; otherwise the tier (default "free") and its features |
| UserRepository.MissingTierIsFree | api/db/repositories/user_repository.py:124 | a profile without a tier column gets exactly the free answer, with 3 images |
| UserRepository.FirstPreferences | api/db/repositories/user_repository.py:217-220 | None iff the user has no stored preferences; otherwise the stored preferences at the first position holding that user id |
| UserRepository.FirstPreferencesAppend | api/db/repositories/user_repository.py:222-234 | once defaults are stored for a user who had none, the next lookup finds them |
| UserRepository.ProfileTables.constructor | api/db/repositories/user_repository.py:12-13 | the three tables start empty |
| UserRepository.ProfileTables.GetUserById | api/db/repositories/user_repository.py:16-27 | the profile row FirstWithId finds: the first one with the id |
| UserRepository.ProfileTables.DecrementStoryCredits | api/db/repositories/user_repository.py:147-164 | succeeds iff the credit check would grant credits; then the user's rows hold one credit fewer, else nothing is written; counts never go negative; other tables unchanged |
| UserRepository.ProfileTables.AddStoryCredits | api/db/repositories/user_repository.py:167-185 | succeeds iff the user exists; then the user's rows hold the first row's credits plus the amount; a non-negative amount keeps counts non-negative |
| UserRepository.WithCreditsEffect | api/db/repositories/user_repository.py:155-159 | after setting a known user's credits the lookup finds the new count, and a non-negative count keeps every stored count non-negative |
| UserRepository.FoundCreditsNonNegative | api/db/repositories/user_repository.py:170-176 | on a table with non-negative counts the user the lookup finds has a non-negative count |
| UserRepository.ProfileTables.CreateOrUpdateUser | api/db/repositories/user_repository.py:44-90 | a known OAuth id gets email, name, avatar and login time rewritten and the updated row returned; an unknown one gets a new free, active row with 5 story and 0 voice credits, appended and returned |
| UserRepository.ProfileTables.UpdateSubscription | api/db/repositories/user_repository.py:188-211 | the user's rows get the tier and status, with an expiry exactly when cancelled; a "changed" event is appended; it reports success even for an unknown id |
| UserRepository.ProfileTables.GetUserPreferences | api/db/repositories/user_repository.py:214-234 | the user's stored preferences, or the defaults (en, adventure, dark, notifications on, autoplay off) which are then stored; afterwards the lookup finds the returned preferences |
| StoryRepository.ParseOrder | api/db/repositories/story_repository.py:82-84 | an order_by value gives an ordering iff it splits on ':' into exactly two parts: the field, ascending iff the direction is "asc" |
| StoryRepository.ParseOrderOf | api/db/repositories/story_repository.py:83-84 | "field:direction" reads back as that field and direction |
| StoryRepository.ApplyFilters | api/db/repositories/story_repository.py:62-79 | theme, language, search and the date bounds are applied only when non-empty, is_favorite whenever it is not None (False included), search as "%text%" on the title; owner, order and range untouched |
| StoryRepository.GetStoriesByUser | api/db/repositories/story_repository.py:44-99 | the query is for the owner with exactly those filters, ordered by order_by or newest first, asking rows offset to offset + limit - 1; a malformed order_by makes the listing fail |
| StoryRepository.NormalizeTag | api/db/repositories/story_repository.py:212 | a stored tag is lower case, no longer than the input, and neither starts nor ends with whitespace (its contents are NormalizeTagContents) |
| StoryRepository.NormalizeTagContents | api/db/repositories/story_repository.py:212 | the stored tag is the lower-cased tag with only surrounding whitespace cut away |
| StoryRepository.NormalizeTagIdempotent | api/db/repositories/story_repository.py:212 | normalising a normalised tag changes nothing |
| StoryRepository.FirstStory | api/db/repositories/story_repository.py:17-41 | the stored row at the first position with the id (and owned by the user when the user id is truthy); None iff no row matches |
| StoryRepository.Without | api/db/repositories/story_repository.py:302 | the delete removes exactly the user's rows with the id and keeps every other row |
| StoryRepository.WithoutShrinks | api/db/repositories/story_repository.py:302 | the delete removes a row exactly when some row has both the id and the user id, and otherwise leaves the table as it was |
| StoryRepository.WithFavorite | api/db/repositories/story_repository.py:236-238 | the update sets the flag on exactly the user's rows with the id |
| StoryRepository.StoryTables.constructor | api/db/repositories/story_repository.py:13-14 | the four tables start empty |
| StoryRepository.StoryTables.GetStoryById | api/db/repositories/story_repository.py:17-41 | the first row with the id, owned by the user when the user id is truthy |
| StoryRepository.StoryTables.CreateStory | api/db/repositories/story_repository.py:102-140 | one row is appended under the fresh id with the language's ISO code, not a favourite, never played, every other column as given; the id is returned |
| StoryRepository.StoryTables.AddStoryCharacters | api/db/repositories/story_repository.py:143-168 | nothing for no characters; otherwise one row per character in order, sent in batches of 1 to 10 that concatenate to the rows |
| StoryRepository.StoryTables.AddStoryImages | api/db/repositories/story_repository.py:171-198 | nothing for no paths; otherwise one row per path indexed by position, in batches of 1 to 10 that concatenate to the rows |
| StoryRepository.StoryTables.AddStoryTags | api/db/repositories/story_repository.py:201-223 | one row per tag, in order, each normalised; other tables unchanged |
| StoryRepository.StoryTables.UpdateStoryFavorite | api/db/repositories/story_repository.py:226-243 | succeeds iff the ownership lookup finds the story; then the flag is set on the user's rows with the id, else nothing is written |
| StoryRepository.StoryTables.DeleteStory | api/db/repositories/story_repository.py:292-307 | succeeds iff the ownership lookup finds the story; then the user's rows with the id are removed (at least one for a non-empty user id) and, when a row went, the delete cascades to that story's characters, images and tags; when no row went (a refusal, or the empty user id whose lookup skipped the ownership test) no table changes; the story can no longer be found for a non-empty user id |
| StoryRepository.StoryTables.CascadeDelete | api/db/repositories/story_repository.py:301-302 | the characters, images and tags of the deleted story go, every other row stays in order, and the stories table is untouched |
| Api.CharacterDicts | api/main.py:149 | one dict per character, in order, with its name and description |
| Api.VoicePreference | api/main.py:169 | the requested voice when non-empty, else "ai-1" |
| Api.MusicValue | api/main.py:293 | the music type's value exactly when music was requested |
| Api.Tags | api/main.py:227-229 | theme, language, and "music:{type}" only when music was requested |
| Api.CreditsGateEverything | api/main.py:103-109 | without credits the answer is "Story generation failed: {reason}" and nothing is looked up, narrated, stored or decremented |
| Api.FeatureGate | api/main.py:112-131 | features are looked up iff the story is long or music was requested; a failed lookup, a long story without the long-story feature (checked first) and music without the music feature each get their message; otherwise the lookup's answer is irrelevant |
| Api.PaidTiersPassFeatures | api/main.py:121-131 | a premium or family user is never refused on features |
| Api.StageFailures | api/main.py:133-251 | no stored image, a generation exception, a speech failure and a missing story id each give their message; success iff all stages succeed; the credit decrement is scheduled, and characters, images and tags are added, only on success |
| Api.SuccessResponse | api/main.py:184-251 | the success response has the database's id, the public URL of the stored path and the story's duration; tags as above; a failed mix keeps the narration and no music id; the stored images are the ones linked |
| Api.RequestData | api/main.py:287-296 | the background task gets the images, the character dicts, the voice preference and the music value |
| Api.PathsAgree | api/main.py:133-232 | once past the credit and feature gates, the synchronous endpoint and the background pipeline (api/services/webhook_service.py:131-349) ask for the same voice and store the same story from the same stage answers |
| Api.GenerateStoryWebhook | api/main.py:261-319 | without credits an error, no job and no record; otherwise a pending record under the fresh id, a job with the request data and callback URL, and the started message with the id |
| Api.GetStoryStatus | api/main.py:322-350 | 404 "Request ID not found" exactly for an unknown id; otherwise the record's fields |
| Api.StartedJobIsReadable | api/main.py:284 | a job just started can be read back at once, pending at progress 0 |
| Api.ListFilters | api/main.py:395-410 | theme, language, search and order_by only when non-empty; is_favorite whenever given, False included; no date bounds |
| Api.DefaultOrderIsNewestFirst | api/main.py:387 | the default order_by "created_at:desc" orders by creation time, descending |
| Api.GetUserStories | api/main.py:379-429 | the repository's query carries the owner, the truthy theme and language, the favourite filter, a title pattern "%search%" exactly for a truthy search, no date bounds, and the requested range; an empty order_by means newest first; limit and offset are echoed; a malformed order_by fails the listing |
| Api.GetStory | api/main.py:353-376 | the caller's story, or 404 "Story not found" |
| Api.ToggleFavorite | api/main.py:432-461 | 404 and no write unless the caller owns the story; otherwise the flag sent (False when absent) is stored and echoed |
| Api.DeleteStory | api/main.py:496-521 | 404 and no write to any table unless the lookup finds the story; otherwise the answer is "Story deleted successfully" and, for a caller's (non-empty) user id, the story's row is removed with its characters, images and tags |
| Api.GetSubscriptionFeatures | api/main.py:524-545 | the feature check itself, or 500 with its reason |
| Api.GetUserCredits | api/main.py:548-569 | 404 "User not found" exactly for an unknown user; otherwise story and voice credits, 0 when unset |
| LullabyApp.ValidateImageFile | app.py:58-71 | a missing file is reported first; an existing one is valid iff it ends with one of the six listed extensions (case-sensitive), with the matching messages |
| LullabyApp.ValidateAudioFile | app.py:73-86 | not-found first, then the case-sensitive audio extension test, with "Audio file not found: …", "Unsupported audio format. Please use: …" and "Audio file is valid"; a missing path (None) is reported as a validation error |
| LullabyApp.MixedCaseImageRefused | app.py:65-66 | an existing ".Jpg" file is refused: only the listed spellings are accepted |
| LullabyApp.ListedExtensionsAccepted | app.py:65-66 | every listed image extension, and its audio counterpart at app.py:80-81, is accepted on an existing file |
| LullabyApp.LanguageCodes | app.py:110-127 | the supported codes, one per language, in declaration order |
| LullabyApp.ValidateLanguage | app.py:88-92 | supported iff the code is en, id, ja or fr; otherwise the message lists the codes |
| LullabyApp.PromptPrefix | app.py:280 | each supported language gets its own prompt prefix; any other code gets the English one |
| LullabyApp.ActorsOrDefault | app.py:239-240 | the given names when there are any, else the three default actors; never empty |
| LullabyApp.ScenePromptsShape | app.py:283-292 | n scenes give 2n - 1 prompt parts: scene i at position 2i, played by actor i mod the number of actors, and the transitions block (two phrases per kind) at every odd position |
| LullabyApp.GenerateCombinedStory | app.py:235-335 | the prompt is the language prefix, the actors, the scene prompts and the fixed guidelines; the story is the model's reply or its failure |
| LullabyApp.BuildScenes | app.py:283-292 | the loop builds exactly the scene prompts: scene lines with a transitions block before every scene but the first |
| LullabyApp.PathJoin | app.py:607-608 | POSIX `os.path.join`: an absolute name replaces the directory; otherwise the result starts with the directory, ends with the name and has exactly one "/" added between them, none when the directory is empty or already ends with "/" |
| LullabyApp.OutputFile | app.py:606-608 | the output file ends with the given name, and an absolute name is used as it is |
| LullabyApp.OutputFileUsual | app.py:606-608 | for a working directory without a trailing "/" and a relative name the file is `{cwd}/output/{name}` |
| LullabyApp.OutputFileAtRoot | app.py:606-608 | at the root directory a relative name gives `/output/{name}`, with no doubled "/" |
| LullabyApp.TextToSpeech | app.py:596-637 | success iff the file exists after synthesis, with the path `os.path.join(os.path.join(cwd, "output"), output_path)` as OutputFile states it; otherwise "File was not created" or "Error generating speech: ..." |
| LullabyApp.AddBackgroundMusic | app.py:394-425 | success iff both tracks load, the background can be fitted and the mix is written; the fitted background is exactly as long as the narration; no path on failure |
| LullabyApp.FirstImageError | app.py:439-443 | no error iff every image is valid |
| LullabyApp.FirstImageErrorAt | app.py:439-443 | when image k is the first invalid one, the error reported is image k's message |
| LullabyApp.ValidationPasses | app.py:439-454 | generation starts iff every image, the reference voice and any given music are valid; an invalid image is reported before the audio files |
| LullabyApp.ValidateInputs | app.py:438-454 | the loop returns the first error in the order images, voice, music |
| LullabyApp.GenerateMultiImageLullaby | app.py:427-494 | the first validation error with no story; the analysis or story failure text with no story; otherwise the story with the final mix path when speech and mixing succeed, else with the speech message |
| LullabyApp.NarrateAndMix | app.py:463-490 | the final mix path when speech, both tracks, fitting and export succeed and music was given, otherwise the speech message |
| LullabyApp.TtsModelCache.constructor | app.py:38-40 | the cache starts without a model |
| LullabyApp.TtsModelCache.GetModel | app.py:48-56 | returns XTTS v2 on the CPU with a progress bar, loading it at most once: a loaded model is never reloaded |
| LullabyApp.TtsModelCacheClass.constructor | app.py:38-39 | no shared instance at first |
| LullabyApp.TtsModelCacheClass.GetInstance | app.py:42-46 | the first call creates a fresh empty cache; every later call returns that same instance |

## Left out

- Foreign services are not modelled, only what they answered. This covers the captioning model, the OpenAI and DeepSeek calls, ElevenLabs, the Supabase client and storage, HTTP downloads, PIL, base64 decoding, JWT decoding and pydub decoding.
- Database query evaluation is not modelled: `get_stories_by_user` yields the query it would send (owner, filters, order, range), not the rows.
- Exceptions raised by the database client, other than the outcomes named in each operation, are not modelled. The generic 500 handlers of the endpoints are left out for the same reason.
- `uuid4`, `random.choice` and the clock are parameters: `freshId`/`fileId`, `adjectivePick`/`nounPick` and `now`. One `now` serves a whole pipeline run, so time passing between stages is not modelled. Time is in whole seconds.
- Progress, a float in the source, is kept as integer tenths (0 to 10).
- The duration estimate is integer floor division, while the source divides floats and truncates. The two can differ by rounding at exact multiples.
- MusicService.MixAudioWithBackground and LullabyApp.AddBackgroundMusic: only the loop-and-trim length arithmetic is modelled; the −10 dB gain, the overlay itself and the exported bytes are not. Whether decoding and the export succeeded are inputs: for MixAudioWithBackground the decoded tracks as a Result and an optional export exception text, for AddBackgroundMusic optional tracks and an export flag.
- Text.StripOf and Text.Strip: their own contracts state the shape of the result (no longer than the text, no stripped character at either end); that the result is a contiguous slice of the text with only stripped characters cut away is the separate lemmas StripOfContents and StripContents, since an existential in the functions' contracts makes every caller's proof much larger.
- StoryRepository.NormalizeTag: its own contract states the shape (lower case, no surrounding whitespace, no growth); that it is the lower-cased tag with only surrounding whitespace cut away is the lemma NormalizeTagContents, for the same reason.
- Concurrency is not modelled: asyncio, background-task scheduling and the non-atomic read-then-write of credit decrements. The cleanup loop's sleep and its endless repetition are also left out; `Cleanup` is one sweep.
- Socket I/O is not modelled: accept, receive, the JSON decoding of incoming text and send order. A send is a connection id in the delivered set, and a failing send is a per-connection input.
- `get_story_status` is modelled; its websocket counterpart `send_status_update` is not wired to the pipeline. The pipeline in api/services/webhook_service.py never notifies websocket subscribers, and the model follows the code here.
- FastAPI routing, dependency injection, CORS and request-logging middleware, the root and health endpoints, the startup hook, Sentry initialisation, logging and server start are not modelled.
- The webhook signature header (a fixed placeholder) is not modelled.
- The `/api/stories/{story_id}/played` endpoint is not modelled. Neither are `increment_play_count` and `record_play_history` (api/db/repositories/story_repository.py:246-289): they are outside the generation and bookkeeping rules modelled here.
- `check_user_credits` and `decrement_story_credits` in api/db/supabase.py:38-80 are the same rules on the same table as their counterparts in api/db/repositories/user_repository.py. They are modelled once, as UserRepository.CheckUserCredits and UserRepository.ProfileTables.DecrementStoryCredits.
- A null column is treated as an absent key. `dict.get(key, default)` returns None for a stored null; in the model a null gets the default.
- Text.ToLower folds ASCII letters only; Python's `str.lower` is full Unicode.
- The wording of the story-service prompt is kept only where the properties need it: the scene lines and the configuration lookups.
- WebhookService.ProcessStoryGeneration requires the job record to exist already. Its only caller creates the record first.
- In app.py, `analyze_multiple_images`, `img2text` and `setup_output_directory` are not modelled; the scenarios are an input of a run. Also left out: the commented-out and unreachable older definitions (app.py:495-595 and 639 onward), the `__main__` block, progress bars and logging.
- EnvValidator.CheckAndWarn returns its verdict instead of printing and exiting.
- UserRepository.FirstWithId: its own contract states only the None case and the id of the row found. That the row is the stored one at the first position holding the id is the separate lemma FirstWithIdIsFirst, so that the credit updates, which look the id up before and after writing, stay cheap to prove.

Where the source and its written description disagree, the model follows the source:

- The completion webhook counts as delivered only for status 200, 201, 202 and 204, not for every 2xx.
- An expired token's "Token has expired" error is caught by the outer handler and reported as "Authentication error".
- The rate limiter gives the bare path "/api/stories" (no trailing slash) the general rule. A tier missing from the table makes it raise.
- The background pipeline does not send websocket updates.
