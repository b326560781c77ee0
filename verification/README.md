# PodcastPilot generation pipeline in Dafny

PodcastPilot turns an article into a two-host podcast. A submission is validated against the request schema. It is then stored as a podcast record with status `processing`, and a background job (`generatePodcastAsync`) takes it through two stages:

- the script stage: a chat-completion call whose reply must contain a `segments` array;
- the audio stage: one text-to-speech call per segment, then the concatenated audio is written to a file.

Every transition is written to an in-memory job store. The client polls a status endpoint, and shows progress and step states. A recent-generations card shows a record with formatted times, durations and actions.

This project models that core as pure Dafny functions over immutable data:

| file | module | models |
|---|---|---|
| `outcomes.dfy` | `Outcomes` | `Option`, `Result`, thrown values, JavaScript truthiness of strings and numbers |
| `text.dfy` | `Text` | `split` on one character, integer rendering and reading, `padStart(2, '0')`, `substring` + `"..."` |
| `schema.dfy` | `Schema` | podcast record, insert form, script segments, the generation request schema with bounds, enums and defaults |
| `storage.dfy` | `Storage` | `MemStorage`: create, get, the ten most recent, shallow-merge update, status-only update |
| `script_service.dfy` | `ScriptService` | the length and tone tables, the intro/outro directives, the reply-shape check and error wrapping |
| `tts.dfy` | `Tts` | voice and speed choice, the word-count estimate, the silent fallback, ordered concatenation, duration sum, the file write |
| `routes.dfy` | `Routes` | the two length gates, submission, the status projection, and `generatePodcastAsync` as a state machine |
| `processing_status.dfy` | `ProcessingStatus` | the polling stop rule, step states, progress percentage |
| `recent_generations.dfy` | `RecentGenerations` | relative time, `m:ss` durations, truncation, what a card shows |
| `end_to_end.dfy` | `EndToEnd` | what the client shows after submission, after a successful run, after a failed run, after an empty script |

The external world enters only as parameters:

- The chat provider is a function from the prompt to a reply or a thrown value.
- The speech provider is a function from the call's ordinal and request to an HTTP answer or a thrown value, so each call may answer differently.
- The file system is a function from name and bytes to a write outcome.
- Fresh UUIDs and clock readings are plain arguments.

A run of `generatePodcastAsync` returns the final store and the log of what it did. The log records status writes, record updates, the script request, each speech request, and the audio file once it is saved. A failed write leaves no event of its own.

Some behaviours one might expect are not in the code. The model follows the code:

- A new record starts as `processing`; there is no `queued` status.
- The script check only tests that `segments` is an array. An empty array is accepted, and so is a segment with any speaker tag (`AnyArrayAccepted`).
- Every per-segment speech failure becomes one second of silence, including a non-2xx answer such as an authentication or quota error. No provider error fails the audio stage. For segments that are well-formed string triples, only the file write can (`AllSegmentsFail`, `DegradedRunCompletes`). A `null` element in `segments` also fails it; this case is not modelled.
- The submission reply says `processing`, but the job is started without being awaited and its status write has no suspension before it. So the record already reads `generating_script` when the reply is sent. A client never sees `processing`: no 25% figure, no active analysis step and no "Processing..." badge (`ProcessingNeverObservable`, `SubmittedJobDisplay`).
- The request schema does not declare `includeIntro`, so validation drops it. The script prompt then reads it as `undefined`, which means the intro and outro directives are never sent (`IntroNeverRequested`).
- An empty script completes with duration `Math.round(0) = 0`. That is falsy, so a recent-generations card labels its duration "Processing..." while offering the download (`EmptyScriptDisplay`).

## Model

| member | source | states |
|---|---|---|
| Outcomes.Describe | server/services/openai.ts:92 | the text after the error prefix is the thrown Error's message, or "Unknown error" for anything that is not an Error |
| Text.Split | server/services/tts.ts:119 | `split(" ")` yields one more piece than there are separators; no piece contains the separator; joining the pieces gives back the input |
| Text.SplitJoin | server/services/tts.ts:119 | splitting a join of separator-free pieces gives back exactly those pieces |
| Text.Decimal | client/src/components/RecentGenerations.tsx:31-34 | the rendered count is a non-empty run of digits with no leading zero, one digit exactly below 10 |
| Text.DecimalRoundTrip | client/src/components/RecentGenerations.tsx:31-34 | reading a rendered count gives back the number |
| Text.IntString | client/src/components/RecentGenerations.tsx:31-40 | `${i}` of a non-negative integer is a run of digits that reads back as i; of a negative one, a minus sign followed by digits that read back as -i |
| Text.DigitPrefix | client/src/components/RecentGenerations.tsx:31-34 | the leading digits of a label form the longest digit-only prefix |
| Text.LeadingNumberOfDecimal | client/src/components/RecentGenerations.tsx:31-34 | a count followed by a non-digit is read back as that count |
| Text.PadStart2 | client/src/components/RecentGenerations.tsx:40 | the result has at least two characters and ends with the input; anything added in front is '0'; an input of two or more characters is unchanged |
| Text.Truncate | client/src/components/RecentGenerations.tsx:43-49 | text within the limit is unchanged; longer text becomes its first `max` characters followed by "..." |
| Text.TruncateIdempotent | client/src/components/RecentGenerations.tsx:43-49 | truncating a truncated text changes nothing |
| Schema.ParseTargetLength | shared/schema.ts:40 | exactly the four names brief, standard, detailed and indepth are accepted, each to its own value |
| Schema.ParseTone | shared/schema.ts:41 | exactly the four names professional, conversational, casual and academic are accepted, each to its own value |
| Schema.EnumNamesRoundTrip | shared/schema.ts:40-41 | every length and tone is accepted under its own name |
| Schema.CheckContent | shared/schema.ts:35 | content passes exactly when it is a string of at least 100 characters |
| Schema.CheckVoice | shared/schema.ts:36-37 | a voice name may be any string; an absent one takes the default |
| Schema.CheckSpeed | shared/schema.ts:38-39 | a speed passes exactly when it is a number in [0.7, 1.3]; an absent one is 1.0 |
| Schema.CheckTargetLength | shared/schema.ts:40 | an absent length is standard; a present one must be one of the four names |
| Schema.CheckTone | shared/schema.ts:41 | an absent tone is conversational; a present one must be one of the four names |
| Schema.ParseRequest | shared/schema.ts:34-42 | the body is accepted exactly when no field fails; the failure lists the failing fields; an accepted request holds each field's checked value |
| Schema.ShortContentRejected | shared/schema.ts:35 | content shorter than 100 characters, or not a string, is rejected, and the first issue names `content` |
| Schema.SpeedBounds | shared/schema.ts:38-39 | a speed below 0.7 or above 1.3 rejects the request; an accepted request's speeds lie within the bounds |
| Schema.Defaults | shared/schema.ts:36-41 | a body with only content validates to David, Sarah, 1.0, 1.0, standard and conversational |
| Schema.ExplicitValuesKept | shared/schema.ts:34-42 | a well-formed body with every field set validates to exactly those values |
| Storage.CreatePodcast | server/storage.ts:47-58 | the store gains the record under the fresh id, and nothing else changes; a falsy status becomes "processing"; a falsy audio URL or duration, including 0, becomes null; the other fields come from the insert form |
| Storage.GetPodcast | server/storage.ts:61-63 | a record is returned exactly when the id is stored, and it is the stored one |
| Storage.CreateThenGet | server/storage.ts:47-63 | after a create, the new id yields the created record and every other id yields what it did before |
| Storage.SortNewestFirst | server/storage.ts:68-69 | the sorted list is newest first and a permutation of the input |
| Storage.GetRecentPodcasts | server/storage.ts:65-71 | the list holds min(10, number stored) records, newest first, each a stored record, with no record repeated beyond its multiplicity |
| Storage.RecentAreNewest | server/storage.ts:65-71 | a record left out of the recent list is no newer than any record in it |
| Storage.MergeLaws | server/storage.ts:77 | a spread with no fields changes nothing; the same spread twice equals once; two spreads in a row equal one spread of the combined fields |
| Storage.UpdatePodcast | server/storage.ts:73-80 | a missing id gives undefined and an unchanged store; otherwise every supplied field is overwritten, every other field is kept, and other records are untouched |
| Storage.UpdatePodcastStatus | server/storage.ts:82-88 | only the status of that record changes; a missing id changes nothing |
| Storage.StatusUpdateIsStatusPatch | server/storage.ts:73-88 | the status-only update equals a shallow merge of a patch holding only the status |
| ScriptService.InstructionsDistinct | server/services/openai.ts:11-23 | the length directives differ for different lengths, and the tone directives for different tones |
| ScriptService.PromptFor | server/services/openai.ts:25-63 | the prompt carries the article, the directives for the chosen length and tone and both voice names; the intro and outro directives appear exactly when `includeIntro` is true |
| ScriptService.IntroNeverRequested | server/services/openai.ts:35 | with validated settings, which lack `includeIntro`, the prompt reads "undefined" and carries no intro or outro directive |
| ScriptService.CheckReply | server/services/openai.ts:83-93 | the reply is accepted exactly when it parses to an object whose `segments` is an array, and is then returned unchanged; empty content, a missing or non-array `segments`, a parse error or a provider error each fail with the prefixed message |
| ScriptService.GenerateScript | server/services/openai.ts:10-94 | one chat call with the built prompt; the script is returned exactly when that reply parses to an object whose `segments` is an array, and then holds those segments; every failure carries the "Failed to generate podcast script: " prefix |
| ScriptService.AnyArrayAccepted | server/services/openai.ts:85-89 | an empty segment array is accepted, and so is a segment with an unknown speaker tag |
| Tts.VoiceSelection | server/services/tts.ts:68-87 | a male segment uses the male table with David's id as fallback and the male speed; any other speaker uses the female table with Sarah's id as fallback and the female speed; the text is the segment's content |
| Tts.VoiceTablesDisjoint | server/services/tts.ts:68-81 | no male voice id equals a female one |
| Tts.WordCount | server/services/tts.ts:119 | the word count is the number of spaces plus one, hence at least 1 |
| Tts.EstimateDuration | server/services/tts.ts:120 | the estimated duration of a segment is positive |
| Tts.EstimateBounds | server/services/tts.ts:117-120 | the estimate times the speed is 0.4 s per word, so each word takes between 0.4/1.3 and 0.4/0.7 seconds |
| Tts.Zeros | server/services/tts.ts:131 | `Buffer.alloc(n)` is n bytes, all zero |
| Tts.SynthesizeSegment | server/services/tts.ts:89-136 | a 2xx answer gives its body and the word-count estimate; anything else gives 1024 zero bytes lasting 1 second; the duration is always positive |
| Tts.SegmentAudios | server/services/tts.ts:33-34 | there is one audio per segment, in order, the i-th from the i-th provider call |
| Tts.PodcastAudio | server/services/tts.ts:16-55 | the stage fails exactly when the write fails, with the prefixed message; otherwise the file is `podcast_<uuid>.mp3` served at `/api/audio/` plus that name, the audio is the ordered concatenation and the duration is the sum, which is 0 exactly when there are no segments |
| Tts.SynthesizePodcast | server/services/tts.ts:25-50 | the loop that collects buffers and adds durations computes the stage's result |
| Tts.ConcatPieces | server/services/tts.ts:40 | each piece appears unchanged in the concatenation, right after the pieces before it |
| Tts.TotalDurationPositive | server/services/tts.ts:31-37 | a sum of positive durations is non-negative, and positive when there is at least one |
| Tts.AudioInScriptOrder | server/services/tts.ts:33-40 | segment i's audio sits in the output right after the audio of segments 0..i-1 |
| Tts.AllSegmentsFail | server/services/tts.ts:111-135 | if every speech call fails for any reason, the stage still succeeds with n seconds and 1024·n zero bytes for n segments |
| Routes.CheckDocumentText | server/routes.ts:40-42 | extracted text shorter than 100 characters is answered with 400 and the fixed message; longer text is returned |
| Routes.CheckAnalyzeInput | server/routes.ts:56-58 | the input passes exactly when it is a string of at least 100 characters; anything else is answered with 400 |
| Routes.Submit | server/routes.ts:69-95 | an invalid body gives 400 and creates nothing; a valid one stores one record under the fresh id, with status processing, no audio URL or duration, an empty script, the submitted content and the validated settings, and the reply holds the id and "processing" |
| Routes.NewRecord | server/routes.ts:74-82 | the inserted form carries the validated content and settings, an empty script, no audio URL or duration, and the truthy status "processing", so the store's `||` defaults leave it alone |
| Routes.SubmitAndStart | server/routes.ts:74-87 | when the reply is sent, an invalid body has changed nothing; for a valid one the reply says "processing" while the new record already has status generating_script, since the unawaited job's first status write does not suspend and so runs before the reply; other records are untouched |
| Routes.ProcessingNeverObservable | server/routes.ts:85-87 | for every accepted submission, the status endpoint already answers generating_script for the id the reply hands out |
| Routes.ShortSubmissionRejected | server/routes.ts:71 | a submission whose content is shorter than 100 characters gets 400 and leaves the store unchanged |
| Routes.PodcastStatus | server/routes.ts:98-117 | an unknown id gives 404 "Podcast not found"; a known one gives its id, status, title, script, audio URL and duration |
| Routes.JsRound | server/routes.ts:185 | `Math.round` gives the integer within half a unit, halves rounded up |
| Routes.SpeechCalls | server/services/tts.ts:33-34 | the audio stage makes one speech request per segment, in segment order |
| Routes.GeneratePodcastAsync | server/routes.ts:160-193 | the run keeps the store valid, touches no other record, changes nothing for an unknown id, and leaves a known one completed or failed |
| Routes.RunEvents | server/routes.ts:163-191 | a run first logs the generating_script write and the chat request; a failed script stage then logs only the failed write; otherwise the third event is the update that stores the script |
| Routes.SuccessfulRun | server/routes.ts:163-187 | a successful run writes generating_script, generating_audio and completed in that order; it stores the script, the audio URL and the rounded duration, and keeps the fields set at creation |
| Routes.ScriptStageFails | server/routes.ts:166-191 | a failed script stage writes generating_script then failed, makes no speech call, and changes nothing but the status |
| Routes.ScriptFailureIgnoresAudio | server/routes.ts:160-191 | once the script stage fails the run is the same whatever the speech provider and the file system would do: neither is consulted |
| Routes.AudioUsesLoggedCalls | server/services/tts.ts:28-50 | the audio stage's outcome depends on the speech provider only through the (call, request) pairs the run logs: two providers that agree on those give the same outcome |
| Routes.AudioStageFails | server/routes.ts:169-191 | a failed audio stage writes generating_script, generating_audio, failed, and keeps the script stored before |
| Routes.ScriptStoredBeforeSpeech | server/routes.ts:166-180 | a speech call happens only after a script came back, and after the update that stores it together with generating_audio |
| Routes.DegradedRunCompletes | server/routes.ts:175-187 | when every speech call fails but the file is written, the job still completes, with one second per segment |
| ProcessingStatus.RefetchInterval | client/src/components/ProcessingStatus.tsx:14-21 | polling stops exactly when the status is completed or failed, and otherwise repeats every 2000 ms |
| ProcessingStatus.StepOf | client/src/components/ProcessingStatus.tsx:61-69 | only the five known statuses map to a step; processing, generating_script and generating_audio map to analysis, script and audio; no status maps to the processing step |
| ProcessingStatus.IndexOf | client/src/components/ProcessingStatus.tsx:72-73 | `indexOf` gives the first position holding the value, or -1 when none does |
| ProcessingStatus.StepStatus | client/src/components/ProcessingStatus.tsx:57-79 | no data shows pending; a step is drawn failed exactly when the status is failed; a displayed step is active only when the status maps to it. The full ordering is stated by RunningStepOrder, FinishedShowsUniformSteps and AtMostOneActive |
| ProcessingStatus.ProgressPercentage | client/src/components/ProcessingStatus.tsx:82-95 | progress is one of 0, 25, 50, 75, 100; it is 100 exactly for completed, and 0 exactly for no data, failed or an unknown status |
| ProcessingStatus.ProgressIncreases | client/src/components/ProcessingStatus.tsx:86-92 | progress rises strictly along processing, generating_script, generating_audio, completed |
| ProcessingStatus.FinishedShowsUniformSteps | client/src/components/ProcessingStatus.tsx:75-76 | under failed every step is failed; under completed every step is completed |
| ProcessingStatus.RunningStepOrder | client/src/components/ProcessingStatus.tsx:71-79 | while a job runs, steps before the current one are completed, the current one is active, later ones are pending |
| ProcessingStatus.AtMostOneActive | client/src/components/ProcessingStatus.tsx:61-79 | at most one displayed step is active, and never the fourth (processing) |
| ProcessingStatus.UnknownStatusAllPending | client/src/components/ProcessingStatus.tsx:58-79 | no data, a missing status or an unknown one shows every step pending and 0% |
| RecentGenerations.FormatTimeAgo | client/src/components/RecentGenerations.tsx:25-30 | under an hour the label is "Less than an hour ago"; otherwise it starts with a digit |
| RecentGenerations.TimeAgoInHours | client/src/components/RecentGenerations.tsx:28-31 | between one hour and a day the label is N hour(s) ago, where N is the number of whole hours and the s appears only for N > 1 |
| RecentGenerations.TimeAgoInDays | client/src/components/RecentGenerations.tsx:28-34 | from one day on the label is N day(s) ago, where N is the number of whole days and the s appears only for N > 1 |
| RecentGenerations.JsRem60 | client/src/components/RecentGenerations.tsx:39 | `%` keeps the sign of the dividend, and the difference is a multiple of 60 |
| RecentGenerations.FormatDuration | client/src/components/RecentGenerations.tsx:37-41 | for every s ≥ 0 the `m:ss` label reads back as s: whole minutes, a colon, and two digits of seconds |
| RecentGenerations.DurationRoundTrip | client/src/components/RecentGenerations.tsx:37-41 | for s ≥ 0 the label reads back as s when read as whole minutes, a colon and exactly two digits of seconds, that is 60·minutes + seconds |
| RecentGenerations.TruncateTitle | client/src/components/RecentGenerations.tsx:43-45 | a title of at most 50 characters is unchanged; a longer one is its first 50 characters plus "..." |
| RecentGenerations.TruncateContent | client/src/components/RecentGenerations.tsx:47-49 | content of at most 120 characters is unchanged; longer content is its first 120 characters plus "..." |
| RecentGenerations.DurationLabel | client/src/components/RecentGenerations.tsx:92 | a falsy duration (missing or 0) shows "Processing..."; any other shows an m:ss clock, which reads back as the duration when positive |
| RecentGenerations.RenderCard | client/src/components/RecentGenerations.tsx:16-126 | play and download appear exactly for a completed record with an audio URL, downloading as `podcast_<id>.mp3`; the processing badge appears exactly for processing, the failed badge exactly for failed |
| RecentGenerations.StatusIndicationsExclusive | client/src/components/RecentGenerations.tsx:95-126 | at most one of actions, processing badge and failed badge is shown; a record in a generating stage shows none |
| RecentGenerations.RenderRecent | client/src/components/RecentGenerations.tsx:51-74 | an empty list shows the empty state; otherwise there is one card per record, in order |
| EndToEnd.Polled | client/src/components/ProcessingStatus.tsx:11-22 | the card has data exactly when the status endpoint answered 200, and then sees its status |
| EndToEnd.SubmittedJobDisplay | server/routes.ts:74-87 | the first state a client can poll after submission keeps polling at 50% with analysis complete, script active and audio pending; a recent-generations card for it shows no badge and no actions |
| EndToEnd.CompletedRecordDisplay | client/src/components/ProcessingStatus.tsx:14-95 | a completed record with an audio URL stops polling, shows 100% and every step complete, and offers the download |
| EndToEnd.CompletedJobDisplay | server/routes.ts:183-187 | after a successful run the client stops polling at 100% and offers `/api/audio/podcast_<uuid>.mp3` as `podcast_<id>.mp3` |
| EndToEnd.FailedJobDisplay | server/routes.ts:189-192 | after either stage fails the client stops polling at 0% with every step failed, and the card shows the failed badge and no actions |
| EndToEnd.EmptyScriptDisplay | client/src/components/RecentGenerations.tsx:92-95 | an empty script completes with duration 0, so the card offers the download but labels the duration "Processing..." |

## Left out

- HTTP routing, multer uploads, mammoth text extraction and the 500 error replies. Only the length checks, the submission and the status projection are modelled, because the rest is I/O and library code.
- The content-analysis call behind `/api/analyze-content`. Only its input gate is modelled, because the call itself is a network request.
- The OpenAI and ElevenLabs requests, and `JSON.parse`. They become abstract provider functions and a small reply datatype, because they are network and library calls.
- File reads, writes and streams. The write is an abstract outcome, because it is file-system I/O.
- The fire-and-forget concurrency of `generatePodcastAsync`. One job's run is modelled sequentially, because interleavings with other requests are outside a pure model.
- `randomUUID` and `new Date()`. They become parameters, because they are nondeterministic.
- User CRUD in the store. It is not used by the pipeline.
- React rendering, hooks and the audio player, and the m:ss helpers in other components, which duplicate `formatDuration`. They are UI.
- The download-size estimate. It depends on floating-point `toFixed` formatting.
- Storage.SortNewestFirst: stability of `Array.prototype.sort` for equal timestamps is not stated. Only order and permutation are proved, because the tie order is not promised.
- Storage.GetRecentPodcasts: states that the records are stored ones and sorted, not which ten are kept among equal timestamps. The cut is left unstated for the same reason.
- Lookups of inherited object keys such as `"toString"` in the voice, status and progress tables are treated as misses. Their JavaScript results are functions, not strings.
- String lengths count characters, not UTF-16 code units.
- Speeds outside [0.7, 1.3] never reach the audio stage, because the schema rejects them first; the model's speed type excludes them.
- `estimatedDuration` of a parsed reply is always a number in the model. The source passes through whatever the provider returned.
- Routes.JsRound: `Math.round` is modelled on exact reals, not IEEE doubles.
- Tts.EstimateDuration: computed on exact reals, not IEEE doubles.
- Routes.Submit: the 400 reply's `details` field, which carries zod's error message, is not modelled; the reply keeps only the fixed "Invalid request data" error, because the message text is library output.
- Schema.CheckSpeed: the 0.7 and 1.3 bounds are compared on exact reals, not IEEE doubles. A JSON number within one ulp of a bound may be judged differently. `Tts.TotalDuration` sums exact reals for the same reason.
- Tts.PodcastAudio: segments are modelled as well-formed string triples. The reply check accepts any array, so the source can receive others. A `null` or `undefined` element throws when its speaker is read, before the per-segment fallback applies, so the whole audio stage fails. An element whose `content` is not a string throws at `split` after an ok answer, inside the fallback, so that segment becomes one second of silence. Neither case is modelled.
- ProcessingStatus.RefetchInterval: assumes the `refetchInterval` callback receives the last reply's data, as in TanStack Query v4. In v5 it receives the query object, whose own `status` is never "completed" or "failed", so polling would not stop. The library version is not visible in the modelled files. `EndToEnd.CompletedRecordDisplay`, `EndToEnd.CompletedJobDisplay` and `EndToEnd.FailedJobDisplay` rest on the same assumption.
- The page that mounts the recent-generations list and fetches `/api/podcasts/recent` is not among the modelled files. The card and list lemmas state what the component would show for the records it is given.
