/** The server side of the pipeline: the length gates of the upload and
    analysis endpoints, the submission endpoint that creates the record,
    the status endpoint, and `generatePodcastAsync`, which drives one job
    through `generating_script`, `generating_audio` and `completed`, or to
    `failed` on any error. One job's run is modelled sequentially; its
    external calls are the abstract providers of the two services. */
module Routes {
  import opened Outcomes
  import opened Schema
  import opened Storage
  import ScriptService
  import Tts

  /** An HTTP reply: 200 with a body, 400 or 404 with an error text. */
  datatype Response<T> = Ok(body: T) | BadRequest(error: string) | NotFound(error: string)

  function StatusCode<T>(r: Response<T>): int {
    match r
    case Ok(_) => 200
    case BadRequest(_) => 400
    case NotFound(_) => 404
  }

  const ShortDocument: string := "Document content is too short. Please provide at least 100 characters."
  const ShortContent: string := "Content must be at least 100 characters long"
  const InvalidRequest: string := "Invalid request data"
  const PodcastNotFound: string := "Podcast not found"

  /** The length check on extracted document text (`/api/upload-document`). */
  function CheckDocumentText(content: string): (r: Response<string>)
    ensures StatusCode(r) == 400 <==> |content| < MinContentLength
    ensures r.Ok? ==> r.body == content
    ensures r.BadRequest? ==> r.error == ShortDocument
  {
    if |content| < MinContentLength then BadRequest(ShortDocument) else Ok(content)
  }

  /** The input check of `/api/analyze-content`: the content must be a
      truthy string of at least 100 characters; what passes goes on to the
      analysis call. */
  function CheckAnalyzeInput(content: Option<Json>): (r: Response<string>)
    ensures r.Ok? <==> content.Some? && content.value.JString? && |content.value.str| >= MinContentLength
    ensures r.Ok? ==> r.body == content.value.str
    ensures r.BadRequest? ==> r.error == ShortContent
    ensures !r.NotFound?
  {
    match content
    case Some(JString(s)) => if |s| < MinContentLength then BadRequest(ShortContent) else Ok(s)
    case _ => BadRequest(ShortContent)
  }

  /** The reply of a successful submission. */
  datatype Submitted = Submitted(podcastId: string, status: string)

  /** The record the submission endpoint inserts. */
  function NewRecord(q: GenerationRequest): (r: InsertPodcast)
    ensures r.originalContent == q.content && r.settings == q
    ensures r.generatedScript.segments == [] && r.audioUrl.None? && r.duration.None?
    ensures r.status == Some(Processing) && TruthyString(r.status)
  {
    InsertPodcast("Generated Podcast", q.content, EmptyScript, None, None, q, Some(Processing))
  }

  /** `/api/generate-podcast` up to the hand-off: validate, create the
      record under the fresh `id` at time `now`, reply with the id. On a
      validation error nothing is created. The validated request is
      returned for the run that follows. */
  function Submit(st: Store, raw: RawRequest, id: string, now: int)
    : (r: (Store, Response<Submitted>, Option<GenerationRequest>))
    requires Valid(st)
    ensures Valid(r.0)
    ensures ParseRequest(raw).Failure? ==> r.0 == st && r.1 == BadRequest(InvalidRequest) && r.2.None?
    ensures ParseRequest(raw).Success? ==>
      && r.1 == Ok(Submitted(id, Processing))
      && r.2 == Some(ParseRequest(raw).value)
      && id in r.0.podcasts
      && r.0.podcasts == st.podcasts[id := r.0.podcasts[id]]
      && var p := r.0.podcasts[id];
        && p.id == id && p.createdAt == now
        && p.status == Processing
        && p.audioUrl.None? && p.duration.None?
        && p.generatedScript.segments == [] && p.generatedScript.estimatedDuration == 0.0
        && p.title == "Generated Podcast"
        && p.originalContent == ParseRequest(raw).value.content
        && p.settings == ParseRequest(raw).value
  {
    match ParseRequest(raw)
    case Failure(_) => (st, BadRequest(InvalidRequest), None)
    case Success(q) =>
      var created := CreatePodcast(st, NewRecord(q), id, now);
      (created.0, Ok(Submitted(created.1.id, Processing)), Some(q))
  }

  /** Content shorter than 100 characters never creates a record. */
  lemma ShortSubmissionRejected(st: Store, raw: RawRequest, id: string, now: int)
    requires Valid(st)
    requires raw.content.Some? && raw.content.value.JString? && |raw.content.value.str| < MinContentLength
    ensures Submit(st, raw, id, now).0 == st
    ensures StatusCode(Submit(st, raw, id, now).1) == 400
  {
    ShortContentRejected(raw);
  }

  /** The store as it stands when the submission's reply is sent. The
      background job is started without being awaited, so it runs up to its
      first suspension first; `updatePodcastStatus` does not suspend before
      writing, so the record already reads `generating_script` while the
      reply still says `processing`. */
  function SubmitAndStart(st: Store, raw: RawRequest, id: string, now: int)
    : (r: (Store, Response<Submitted>))
    requires Valid(st)
    ensures Valid(r.0)
    ensures ParseRequest(raw).Failure? ==> r.0 == st && r.1 == BadRequest(InvalidRequest)
    ensures ParseRequest(raw).Success? ==>
      && r.1 == Ok(Submitted(id, Processing))
      && r.0.podcasts.Keys == st.podcasts.Keys + {id}
      && (forall k :: k in st.podcasts && k != id ==> r.0.podcasts[k] == st.podcasts[k])
      && var p := r.0.podcasts[id];
        && p.id == id && p.createdAt == now
        && p.status == GeneratingScript
        && p.audioUrl.None? && p.duration.None?
        && p.generatedScript.segments == []
        && p.settings == ParseRequest(raw).value
  {
    var (st1, reply, settings) := Submit(st, raw, id, now);
    if settings.Some? then (UpdatePodcastStatus(st1, id, GeneratingScript), reply)
    else (st1, reply)
  }

  /** No client ever reads `processing` back for an accepted submission: by
      the time it knows the id, the status endpoint reports
      `generating_script`. */
  lemma ProcessingNeverObservable(st: Store, raw: RawRequest, id: string, now: int)
    requires Valid(st)
    requires ParseRequest(raw).Success?
    ensures var (st1, reply) := SubmitAndStart(st, raw, id, now);
      && reply.Ok? && reply.body.status == Processing
      && PodcastStatus(st1, reply.body.podcastId).Ok?
      && PodcastStatus(st1, reply.body.podcastId).body.status == GeneratingScript
  {
  }

  /** The projection the status endpoint returns. */
  datatype StatusView = StatusView(
    id: string,
    status: string,
    title: string,
    generatedScript: GeneratedScript,
    audioUrl: Option<string>,
    duration: Option<int>)

  /** `/api/podcast/:id/status`. */
  function PodcastStatus(st: Store, id: string): (r: Response<StatusView>)
    ensures r.NotFound? <==> id !in st.podcasts
    ensures r.NotFound? ==> r.error == PodcastNotFound
    ensures !r.BadRequest?
    ensures r.Ok? ==>
      var p := st.podcasts[id];
      r.body == StatusView(p.id, p.status, p.title, p.generatedScript, p.audioUrl, p.duration)
  {
    match GetPodcast(st, id)
    case None => NotFound(PodcastNotFound)
    case Some(p) => Ok(StatusView(p.id, p.status, p.title, p.generatedScript, p.audioUrl, p.duration))
  }

  // ---- the pipeline run ---------------------------------------------------

  /** `Math.round`: the nearest integer, halves rounded up. */
  function JsRound(x: real): (n: int)
    ensures x - 0.5 < n as real <= x + 0.5
  {
    (x + 0.5).Floor
  }

  /** What a run does, in order. */
  datatype Event =
    | StatusWritten(status: string)                      // updatePodcastStatus
    | RecordUpdated(patch: PodcastPatch)                 // updatePodcast
    | ScriptRequested(prompt: ScriptService.Prompt)      // the chat call
    | SpeechRequested(call: nat, request: Tts.SpeechRequest)  // one speech call
    | AudioSaved(fileName: string)                       // the file write

  datatype Run = Run(store: Store, events: seq<Event>)

  /** The speech calls of the audio stage, in segment order. */
  function SpeechCalls(segs: seq<ScriptSegment>, voice: Tts.VoiceSettings): (es: seq<Event>)
    ensures |es| == |segs|
    ensures forall i :: 0 <= i < |es| ==> es[i] == SpeechRequested(i, Tts.SegmentRequest(segs[i], voice))
  {
    seq(|segs|, i requires 0 <= i < |segs| => SpeechRequested(i, Tts.SegmentRequest(segs[i], voice)))
  }

  /** The update that persists the script and advances the status. */
  function ScriptPatch(script: GeneratedScript): PodcastPatch {
    NoChanges.(generatedScript := Some(script), status := Some(GeneratingAudio))
  }

  /** The update that completes the record. */
  function CompletionPatch(a: Tts.Synthesis): PodcastPatch {
    NoChanges.(audioUrl := Some(Some(a.audioUrl)), duration := Some(Some(JsRound(a.duration))),
               status := Some(Completed))
  }

  /** `generatePodcastAsync` for one job: the script stage, then the audio
      stage only if the script came back, each transition written to the
      store; any error ends in a status-only update to `failed`. */
  function GeneratePodcastAsync(st: Store, id: string, settings: GenerationRequest,
                                chat: ScriptService.ChatProvider, speech: Tts.SpeechProvider,
                                fileId: string, write: Tts.FileWriter): (r: Run)
    requires Valid(st)
    ensures Valid(r.store)
    ensures r.store.order == st.order && r.store.podcasts.Keys == st.podcasts.Keys
    ensures forall k :: k in st.podcasts && k != id ==> r.store.podcasts[k] == st.podcasts[k]
    ensures id !in st.podcasts ==> r.store == st
    ensures id in st.podcasts ==> r.store.podcasts[id].status in {Completed, Failed}
  {
    var st1 := UpdatePodcastStatus(st, id, GeneratingScript);
    match ScriptService.GenerateScript(settings.content, settings, chat)
    case Failure(_) =>
      Run(UpdatePodcastStatus(st1, id, Failed), ScriptLog(settings) + FailureLog)
    case Success(script) =>
      var st2 := UpdatePodcast(st1, id, ScriptPatch(script)).0;
      var voice := Tts.VoiceSettingsOf(settings);
      var log2 := ScriptLog(settings) + AudioLog(script, voice);
      match Tts.PodcastAudio(script, voice, speech, fileId, write)
      case Failure(_) =>
        Run(UpdatePodcastStatus(st2, id, Failed), log2 + FailureLog)
      case Success(a) =>
        Run(UpdatePodcast(st2, id, CompletionPatch(a)).0, log2 + CompletionLog(a))
  }

  /** The script stage's log: the status write, then the chat request. */
  function ScriptLog(settings: GenerationRequest): seq<Event> {
    [StatusWritten(GeneratingScript), ScriptRequested(ScriptService.BuildPrompt(settings.content, settings))]
  }

  /** The audio stage's log up to the write: the script update, then one
      speech request per segment. */
  function AudioLog(script: GeneratedScript, voice: Tts.VoiceSettings): seq<Event> {
    [RecordUpdated(ScriptPatch(script))] + SpeechCalls(script.segments, voice)
  }

  /** The end of a successful run: the file write, then the completing update. */
  function CompletionLog(a: Tts.Synthesis): seq<Event> {
    [AudioSaved(a.fileName), RecordUpdated(CompletionPatch(a))]
  }

  /** The end of a failed run: the status-only update. */
  const FailureLog: seq<Event> := [StatusWritten(Failed)]

  /** The statuses a run writes, in order. */
  function StatusTrail(events: seq<Event>): seq<string> {
    if |events| == 0 then []
    else
      var last := events[|events| - 1];
      StatusTrail(events[..|events| - 1])
      + (match last
         case StatusWritten(s) => [s]
         case RecordUpdated(p) => if p.status.Some? then [p.status.value] else []
         case _ => [])
  }

  lemma {:induction false} StatusTrailAppend(a: seq<Event>, b: seq<Event>)
    ensures StatusTrail(a + b) == StatusTrail(a) + StatusTrail(b)
    decreases |b|
  {
    if |b| == 0 {
      assert a + b == a;
    } else {
      assert (a + b)[..|a + b| - 1] == a + b[..|b| - 1];
      StatusTrailAppend(a, b[..|b| - 1]);
    }
  }

  lemma {:induction false} NoStatusInSpeechCalls(segs: seq<ScriptSegment>, voice: Tts.VoiceSettings)
    ensures StatusTrail(SpeechCalls(segs, voice)) == []
  {
    var es := SpeechCalls(segs, voice);
    NoStatusIn(es);
  }

  lemma {:induction false} NoStatusIn(es: seq<Event>)
    requires forall i :: 0 <= i < |es| ==> es[i].SpeechRequested?
    ensures StatusTrail(es) == []
  {
    if |es| > 0 {
      NoStatusIn(es[..|es| - 1]);
    }
  }

  /** The script stage writes `generating_script` and nothing else. */
  lemma ScriptLogTrail(settings: GenerationRequest)
    ensures StatusTrail(ScriptLog(settings)) == [GeneratingScript]
  {
    var s := ScriptLog(settings);
    assert s[..1][..0] == [];
    assert StatusTrail(s[..1]) == [GeneratingScript];
    assert s[..|s| - 1] == s[..1];
  }

  /** The audio stage writes `generating_audio`, once, before its speech calls. */
  lemma AudioLogTrail(script: GeneratedScript, voice: Tts.VoiceSettings)
    ensures StatusTrail(AudioLog(script, voice)) == [GeneratingAudio]
  {
    var u := [RecordUpdated(ScriptPatch(script))];
    assert u[..0] == [];
    StatusTrailAppend(u, SpeechCalls(script.segments, voice));
    NoStatusInSpeechCalls(script.segments, voice);
  }

  /** Completion writes `completed` and nothing else. */
  lemma CompletionLogTrail(a: Tts.Synthesis)
    ensures StatusTrail(CompletionLog(a)) == [Completed]
  {
    var c := CompletionLog(a);
    assert c[..1][..0] == [];
    assert StatusTrail(c[..1]) == [];
    assert c[..|c| - 1] == c[..1];
  }

  /** A failure writes `failed` and nothing else. */
  lemma FailureLogTrail()
    ensures StatusTrail(FailureLog) == [Failed]
  {
    assert FailureLog[..0] == [];
  }

  /** The trail of a log made of three pieces. */
  lemma TrailOfThree(x: seq<Event>, y: seq<Event>, z: seq<Event>)
    ensures StatusTrail(x + y + z) == StatusTrail(x) + StatusTrail(y) + StatusTrail(z)
  {
    StatusTrailAppend(x + y, z);
    StatusTrailAppend(x, y);
  }

  /** The log of a run whose script stage failed. */
  lemma ScriptFailureLog(settings: GenerationRequest)
    ensures StatusTrail(ScriptLog(settings) + FailureLog) == [GeneratingScript, Failed]
    ensures forall i :: 0 <= i < |ScriptLog(settings) + FailureLog| ==> !(ScriptLog(settings) + FailureLog)[i].SpeechRequested?
  {
    ScriptLogTrail(settings);
    FailureLogTrail();
    StatusTrailAppend(ScriptLog(settings), FailureLog);
  }

  /** The log of a run whose audio stage failed. */
  lemma AudioFailureLog(settings: GenerationRequest, script: GeneratedScript, voice: Tts.VoiceSettings)
    ensures StatusTrail(ScriptLog(settings) + AudioLog(script, voice) + FailureLog)
         == [GeneratingScript, GeneratingAudio, Failed]
  {
    TrailOfThree(ScriptLog(settings), AudioLog(script, voice), FailureLog);
    ScriptLogTrail(settings);
    AudioLogTrail(script, voice);
    FailureLogTrail();
  }

  /** The log of a successful run. */
  lemma SuccessLog(settings: GenerationRequest, script: GeneratedScript, voice: Tts.VoiceSettings, a: Tts.Synthesis)
    ensures StatusTrail(ScriptLog(settings) + AudioLog(script, voice) + CompletionLog(a))
         == [GeneratingScript, GeneratingAudio, Completed]
  {
    TrailOfThree(ScriptLog(settings), AudioLog(script, voice), CompletionLog(a));
    ScriptLogTrail(settings);
    AudioLogTrail(script, voice);
    CompletionLogTrail(a);
  }

  /** The log of a run, piece by piece: the script stage, then either the
      failure or the audio stage followed by the failure or the completion. */
  lemma RunEvents(st: Store, id: string, settings: GenerationRequest,
                  chat: ScriptService.ChatProvider, speech: Tts.SpeechProvider,
                  fileId: string, write: Tts.FileWriter)
    requires Valid(st)
    ensures var es := GeneratePodcastAsync(st, id, settings, chat, speech, fileId, write).events;
      var gen := ScriptService.GenerateScript(settings.content, settings, chat);
      && (gen.Failure? ==> es == ScriptLog(settings) + FailureLog)
      && (gen.Success? ==>
            && |es| >= 3
            && es[0] == StatusWritten(GeneratingScript)
            && es[1] == ScriptRequested(ScriptService.BuildPrompt(settings.content, settings))
            && es[2] == RecordUpdated(ScriptPatch(gen.value)))
  {
    var gen := ScriptService.GenerateScript(settings.content, settings, chat);
    if gen.Success? {
      var es := GeneratePodcastAsync(st, id, settings, chat, speech, fileId, write).events;
      var head := ScriptLog(settings) + AudioLog(gen.value, Tts.VoiceSettingsOf(settings));
      assert es[..|head|] == head;
    }
  }

  /** The successful run: the status goes `generating_script`,
      `generating_audio`, `completed`, and the record ends with the script,
      the audio URL of the fresh file and the rounded total duration; the
      fields set at creation are kept. */
  lemma SuccessfulRun(st: Store, id: string, settings: GenerationRequest,
                      chat: ScriptService.ChatProvider, speech: Tts.SpeechProvider,
                      fileId: string, write: Tts.FileWriter)
    requires Valid(st) && id in st.podcasts
    requires ScriptService.GenerateScript(settings.content, settings, chat).Success?
    requires Tts.PodcastAudio(ScriptService.GenerateScript(settings.content, settings, chat).value,
                              Tts.VoiceSettingsOf(settings), speech, fileId, write).Success?
    ensures var run := GeneratePodcastAsync(st, id, settings, chat, speech, fileId, write);
      var script := ScriptService.GenerateScript(settings.content, settings, chat).value;
      var audio := Tts.PodcastAudio(script, Tts.VoiceSettingsOf(settings), speech, fileId, write).value;
      && StatusTrail(run.events) == [GeneratingScript, GeneratingAudio, Completed]
      && run.store.podcasts[id] == st.podcasts[id].(
           generatedScript := script,
           audioUrl := Some("/api/audio/podcast_" + fileId + ".mp3"),
           duration := Some(JsRound(audio.duration)),
           status := Completed)
  {
    var script := ScriptService.GenerateScript(settings.content, settings, chat).value;
    var voice := Tts.VoiceSettingsOf(settings);
    var a := Tts.PodcastAudio(script, voice, speech, fileId, write).value;
    var run := GeneratePodcastAsync(st, id, settings, chat, speech, fileId, write);
    assert run.events == ScriptLog(settings) + AudioLog(script, voice) + CompletionLog(a);
    SuccessLog(settings, script, voice, a);
  }

  /** A failed script stage consults neither the speech provider nor the
      file system: the run is the same whatever they would answer. */
  lemma ScriptFailureIgnoresAudio(st: Store, id: string, settings: GenerationRequest,
                                  chat: ScriptService.ChatProvider,
                                  speech: Tts.SpeechProvider, speech': Tts.SpeechProvider,
                                  fileId: string, fileId': string,
                                  write: Tts.FileWriter, write': Tts.FileWriter)
    requires Valid(st)
    requires ScriptService.GenerateScript(settings.content, settings, chat).Failure?
    ensures GeneratePodcastAsync(st, id, settings, chat, speech, fileId, write)
         == GeneratePodcastAsync(st, id, settings, chat, speech', fileId', write')
  {
  }

  /** The audio stage asks the speech provider exactly the calls the log
      records: two providers that answer those calls alike give the same
      outcome. */
  lemma AudioUsesLoggedCalls(script: GeneratedScript, voice: Tts.VoiceSettings,
                             speech: Tts.SpeechProvider, speech': Tts.SpeechProvider,
                             fileId: string, write: Tts.FileWriter)
    requires forall e :: e in SpeechCalls(script.segments, voice) ==>
      e.SpeechRequested? && speech(e.call, e.request) == speech'(e.call, e.request)
    ensures Tts.PodcastAudio(script, voice, speech, fileId, write)
         == Tts.PodcastAudio(script, voice, speech', fileId, write)
  {
    var calls := SpeechCalls(script.segments, voice);
    var audios := Tts.SegmentAudios(script.segments, voice, speech);
    var audios' := Tts.SegmentAudios(script.segments, voice, speech');
    forall i | 0 <= i < |audios| ensures audios[i] == audios'[i] {
      assert calls[i] in calls;
    }
    assert audios == audios';
  }

  /** A failed script stage goes straight to `failed`: the trail is
      `generating_script`, `failed`, no speech call is made, and the record
      keeps everything but its status. */
  lemma ScriptStageFails(st: Store, id: string, settings: GenerationRequest,
                         chat: ScriptService.ChatProvider, speech: Tts.SpeechProvider,
                         fileId: string, write: Tts.FileWriter)
    requires Valid(st) && id in st.podcasts
    requires ScriptService.GenerateScript(settings.content, settings, chat).Failure?
    ensures var run := GeneratePodcastAsync(st, id, settings, chat, speech, fileId, write);
      && StatusTrail(run.events) == [GeneratingScript, Failed]
      && (forall i :: 0 <= i < |run.events| ==> !run.events[i].SpeechRequested?)
      && run.store.podcasts[id] == st.podcasts[id].(status := Failed)
  {
    var run := GeneratePodcastAsync(st, id, settings, chat, speech, fileId, write);
    assert run.events == ScriptLog(settings) + FailureLog;
    ScriptFailureLog(settings);
    assert run.store == UpdatePodcastStatus(UpdatePodcastStatus(st, id, GeneratingScript), id, Failed);
  }

  /** A failed audio stage (the file write threw) ends in `failed` through a
      status-only update, so the script persisted before stays. */
  lemma AudioStageFails(st: Store, id: string, settings: GenerationRequest,
                        chat: ScriptService.ChatProvider, speech: Tts.SpeechProvider,
                        fileId: string, write: Tts.FileWriter)
    requires Valid(st) && id in st.podcasts
    requires ScriptService.GenerateScript(settings.content, settings, chat).Success?
    requires Tts.PodcastAudio(ScriptService.GenerateScript(settings.content, settings, chat).value,
                              Tts.VoiceSettingsOf(settings), speech, fileId, write).Failure?
    ensures var run := GeneratePodcastAsync(st, id, settings, chat, speech, fileId, write);
      var script := ScriptService.GenerateScript(settings.content, settings, chat).value;
      && StatusTrail(run.events) == [GeneratingScript, GeneratingAudio, Failed]
      && run.store.podcasts[id] == st.podcasts[id].(generatedScript := script, status := Failed)
  {
    var script := ScriptService.GenerateScript(settings.content, settings, chat).value;
    var voice := Tts.VoiceSettingsOf(settings);
    var run := GeneratePodcastAsync(st, id, settings, chat, speech, fileId, write);
    assert run.events == ScriptLog(settings) + AudioLog(script, voice) + FailureLog;
    AudioFailureLog(settings, script, voice);
  }

  /** A speech call is made only when the script came back. */
  lemma SpeechNeedsScript(st: Store, id: string, settings: GenerationRequest,
                          chat: ScriptService.ChatProvider, speech: Tts.SpeechProvider,
                          fileId: string, write: Tts.FileWriter, i: nat)
    requires Valid(st)
    requires var es := GeneratePodcastAsync(st, id, settings, chat, speech, fileId, write).events;
      i < |es| && es[i].SpeechRequested?
    ensures ScriptService.GenerateScript(settings.content, settings, chat).Success?
  {
    RunEvents(st, id, settings, chat, speech, fileId, write);
    if ScriptService.GenerateScript(settings.content, settings, chat).Failure? {
      ScriptFailureLog(settings);
      assert false;
    }
  }

  /** With the script back, the third event stores it, and no speech call
      comes before that. */
  lemma SpeechAfterScriptUpdate(st: Store, id: string, settings: GenerationRequest,
                                chat: ScriptService.ChatProvider, speech: Tts.SpeechProvider,
                                fileId: string, write: Tts.FileWriter, i: nat)
    requires Valid(st)
    requires var es := GeneratePodcastAsync(st, id, settings, chat, speech, fileId, write).events;
      i < |es| && es[i].SpeechRequested?
    requires ScriptService.GenerateScript(settings.content, settings, chat).Success?
    ensures var es := GeneratePodcastAsync(st, id, settings, chat, speech, fileId, write).events;
      var script := ScriptService.GenerateScript(settings.content, settings, chat).value;
      && 2 < i
      && es[2] == RecordUpdated(ScriptPatch(script))
  {
    var es := GeneratePodcastAsync(st, id, settings, chat, speech, fileId, write).events;
    RunEvents(st, id, settings, chat, speech, fileId, write);
    SpeechNotInFirstThree(es, i);
  }

  /** A log opening with a status write, a chat request and an update has
      no speech call among its first three events. */
  lemma SpeechNotInFirstThree(es: seq<Event>, i: nat)
    requires |es| >= 3 && es[0].StatusWritten? && es[1].ScriptRequested? && es[2].RecordUpdated?
    requires i < |es| && es[i].SpeechRequested?
    ensures 2 < i
  {
  }

  /** Audio synthesis starts only after the script is stored: the script
      reaches the store in the same update that sets `generating_audio`,
      and every speech call comes after that update. */
  lemma ScriptStoredBeforeSpeech(st: Store, id: string, settings: GenerationRequest,
                                 chat: ScriptService.ChatProvider, speech: Tts.SpeechProvider,
                                 fileId: string, write: Tts.FileWriter, i: nat)
    requires Valid(st)
    requires var es := GeneratePodcastAsync(st, id, settings, chat, speech, fileId, write).events;
      i < |es| && es[i].SpeechRequested?
    ensures ScriptService.GenerateScript(settings.content, settings, chat).Success?
    ensures var es := GeneratePodcastAsync(st, id, settings, chat, speech, fileId, write).events;
      var script := ScriptService.GenerateScript(settings.content, settings, chat).value;
      && 2 < i
      && es[2] == RecordUpdated(ScriptPatch(script))
      && es[2].patch.generatedScript == Some(script)
      && es[2].patch.status == Some(GeneratingAudio)
  {
    SpeechNeedsScript(st, id, settings, chat, speech, fileId, write, i);
    SpeechAfterScriptUpdate(st, id, settings, chat, speech, fileId, write, i);
  }

  /** Every speech provider failure, authentication and quota errors
      included, is absorbed: if every call fails but the file is written,
      the job still completes, with one second per segment. */
  lemma DegradedRunCompletes(st: Store, id: string, settings: GenerationRequest,
                             chat: ScriptService.ChatProvider, speech: Tts.SpeechProvider,
                             fileId: string, write: Tts.FileWriter)
    requires Valid(st) && id in st.podcasts
    requires ScriptService.GenerateScript(settings.content, settings, chat).Success?
    requires forall i, q :: !Tts.Succeeded(speech(i, q))
    requires forall name, bytes :: write(name, bytes) == Tts.Written
    ensures var script := ScriptService.GenerateScript(settings.content, settings, chat).value;
      var p := GeneratePodcastAsync(st, id, settings, chat, speech, fileId, write).store.podcasts[id];
      && p.status == Completed
      && p.duration == Some(|script.segments|)
  {
    var script := ScriptService.GenerateScript(settings.content, settings, chat).value;
    var voice := Tts.VoiceSettingsOf(settings);
    Tts.AllSegmentsFail(script, voice, speech, fileId, write);
    SuccessfulRun(st, id, settings, chat, speech, fileId, write);
    assert JsRound(|script.segments| as real) == |script.segments|;
  }
}
