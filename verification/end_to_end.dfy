/** What the client shows for a job at each point of its life: right after
    submission, after a successful run, after a failed run, and after a run
    on an empty script. The status card polls the status endpoint; the list
    renders the stored record. */
module EndToEnd {
  import opened Outcomes
  import opened Schema
  import opened Storage
  import opened Routes
  import ScriptService
  import Tts
  import opened ProcessingStatus
  import opened RecentGenerations

  /** The query data after one poll: the reply's status on 200; no data
      when the request failed (404). */
  function Polled(r: Response<StatusView>): (d: Option<StatusData>)
    ensures d.Some? <==> r.Ok?
    ensures d.Some? ==> d.value.status == Some(r.body.status)
  {
    if r.Ok? then Some(StatusData(Some(r.body.status))) else None
  }

  /** A freshly submitted job, as first seen by the client: still polled,
      at 50% with the analysis step complete and the script step active,
      and its card shows no badge and no actions. The 25% figure and the
      "Processing..." badge of a `processing` record are never reached. */
  lemma SubmittedJobDisplay(st: Store, raw: RawRequest, id: string, now: int, later: int)
    requires Valid(st)
    requires ParseRequest(raw).Success?
    ensures var st1 := SubmitAndStart(st, raw, id, now).0;
      var data := Polled(PodcastStatus(st1, id));
      var card := RenderCard(st1.podcasts[id], later);
      && RefetchInterval(data) == PollEvery(PollInterval)
      && ProgressPercentage(data) == 50
      && StepStatus(data, "analysis") == StepCompleted
      && StepStatus(data, "script") == Active
      && StepStatus(data, "audio") == Pending
      && !card.processingBadge && !card.failedBadge && card.actions.None?
      && card.durationLabel == ProcessingLabel
  {
  }

  /** A stored record marked completed, with an audio URL, stops the
      polling at 100% with every step complete and gets its download
      action. */
  lemma CompletedRecordDisplay(st: Store, id: string, url: string, now: int)
    requires id in st.podcasts
    requires st.podcasts[id].status == Completed && st.podcasts[id].audioUrl == Some(url) && url != ""
    ensures var data := Polled(PodcastStatus(st, id));
      && RefetchInterval(data) == StopPolling
      && ProgressPercentage(data) == 100
      && (forall k :: 0 <= k < |Steps| ==> StepStatus(data, Steps[k]) == StepCompleted)
      && RenderCard(st.podcasts[id], now).actions == Some(Download(url, "podcast_" + st.podcasts[id].id + ".mp3"))
  {
    var data := Polled(PodcastStatus(st, id));
    assert data == Some(StatusData(Some(Completed)));
    forall k | 0 <= k < |Steps| ensures StepStatus(data, Steps[k]) == StepCompleted {
      FinishedShowsUniformSteps(Steps[k]);
    }
  }

  /** After a successful run the card stops polling at 100% with every step
      complete, and the list offers the audio for download under
      `podcast_<id>.mp3`. */
  lemma CompletedJobDisplay(st: Store, id: string, settings: GenerationRequest,
                            chat: ScriptService.ChatProvider, speech: Tts.SpeechProvider,
                            fileId: string, write: Tts.FileWriter, now: int)
    requires Valid(st) && id in st.podcasts && st.podcasts[id].id == id
    requires ScriptService.GenerateScript(settings.content, settings, chat).Success?
    requires Tts.PodcastAudio(ScriptService.GenerateScript(settings.content, settings, chat).value,
                              Tts.VoiceSettingsOf(settings), speech, fileId, write).Success?
    ensures var run := GeneratePodcastAsync(st, id, settings, chat, speech, fileId, write);
      var data := Polled(PodcastStatus(run.store, id));
      && RefetchInterval(data) == StopPolling
      && ProgressPercentage(data) == 100
      && (forall k :: 0 <= k < |Steps| ==> StepStatus(data, Steps[k]) == StepCompleted)
      && RenderCard(run.store.podcasts[id], now).actions
         == Some(Download("/api/audio/podcast_" + fileId + ".mp3", "podcast_" + id + ".mp3"))
  {
    SuccessfulRun(st, id, settings, chat, speech, fileId, write);
    var run := GeneratePodcastAsync(st, id, settings, chat, speech, fileId, write);
    CompletedRecordDisplay(run.store, id, "/api/audio/podcast_" + fileId + ".mp3", now);
  }

  /** A run that does not complete shows the failure everywhere: polling
      stops, progress reads 0, every step is failed, and the card shows the
      "Failed" badge and no actions. */
  lemma FailedJobDisplay(st: Store, id: string, settings: GenerationRequest,
                         chat: ScriptService.ChatProvider, speech: Tts.SpeechProvider,
                         fileId: string, write: Tts.FileWriter, now: int)
    requires Valid(st) && id in st.podcasts
    requires ScriptService.GenerateScript(settings.content, settings, chat).Failure?
      || Tts.PodcastAudio(ScriptService.GenerateScript(settings.content, settings, chat).value,
                          Tts.VoiceSettingsOf(settings), speech, fileId, write).Failure?
    ensures var run := GeneratePodcastAsync(st, id, settings, chat, speech, fileId, write);
      var data := Polled(PodcastStatus(run.store, id));
      var card := RenderCard(run.store.podcasts[id], now);
      && RefetchInterval(data) == StopPolling
      && ProgressPercentage(data) == 0
      && (forall k :: 0 <= k < |Steps| ==> StepStatus(data, Steps[k]) == StepFailed)
      && card.failedBadge && card.actions.None? && !card.processingBadge
  {
    if ScriptService.GenerateScript(settings.content, settings, chat).Failure? {
      ScriptStageFails(st, id, settings, chat, speech, fileId, write);
    } else {
      AudioStageFails(st, id, settings, chat, speech, fileId, write);
    }
  }

  /** A script with no segments still completes, with a duration of 0,
      which is falsy: the card offers the download yet labels the duration
      "Processing...". */
  lemma EmptyScriptDisplay(st: Store, id: string, settings: GenerationRequest,
                           chat: ScriptService.ChatProvider, speech: Tts.SpeechProvider,
                           fileId: string, write: Tts.FileWriter, now: int)
    requires Valid(st) && id in st.podcasts
    requires ScriptService.GenerateScript(settings.content, settings, chat).Success?
    requires ScriptService.GenerateScript(settings.content, settings, chat).value.segments == []
    requires forall name, bytes :: write(name, bytes) == Tts.Written
    ensures var p := GeneratePodcastAsync(st, id, settings, chat, speech, fileId, write).store.podcasts[id];
      var card := RenderCard(p, now);
      && p.status == Completed
      && p.duration == Some(0)
      && card.actions.Some?
      && card.durationLabel == ProcessingLabel
  {
    var script := ScriptService.GenerateScript(settings.content, settings, chat).value;
    var voice := Tts.VoiceSettingsOf(settings);
    var audio := Tts.PodcastAudio(script, voice, speech, fileId, write);
    assert audio.Success? && audio.value.duration == 0.0;
    SuccessfulRun(st, id, settings, chat, speech, fileId, write);
    var p := GeneratePodcastAsync(st, id, settings, chat, speech, fileId, write).store.podcasts[id];
    assert p.duration == Some(0) && p.status == Completed;
    assert p.audioUrl == Some("/api/audio/podcast_" + fileId + ".mp3");
    EmptyDurationCard(p, now);
  }

  /** A completed record with an audio URL and a zero duration. */
  lemma EmptyDurationCard(p: Podcast, now: int)
    requires p.status == Completed && p.duration == Some(0)
    requires p.audioUrl.Some? && |p.audioUrl.value| > 0
    ensures RenderCard(p, now).actions.Some?
    ensures RenderCard(p, now).durationLabel == ProcessingLabel
  {
  }
}
