/** The audio stage: one speech request per script segment, with the voice
    looked up in a static table and the speed chosen by speaker; a failed
    request degrades to a fixed silent placeholder; the pieces are joined in
    script order and their durations summed. The speech provider and the
    file system are abstract functions supplied by the caller. */
module Tts {
  import opened Outcomes
  import opened Schema
  import Text

  newtype byte = x: int | 0 <= x < 256

  /** The voice part of the generation settings. */
  datatype VoiceSettings = VoiceSettings(maleVoice: string, femaleVoice: string, maleSpeed: Speed, femaleSpeed: Speed)

  function VoiceSettingsOf(q: GenerationRequest): VoiceSettings {
    VoiceSettings(q.maleVoice, q.femaleVoice, q.maleSpeed, q.femaleSpeed)
  }

  const DavidId: string := "21m00Tcm4TlvDq8ikWAM"
  const JamesId: string := "2EiwWnXFnvU5JabPnv8n"
  const MichaelId: string := "flq6f7yk4E4fJM5XTYuZ"
  const RyanId: string := "wViXBPUzp2ZZixB1xQuM"
  const SarahId: string := "EXAVITQu4vr4xnSDxMaL"
  const EmmaId: string := "ThT5KcBeYPX3keUQqHPh"
  const LisaId: string := "XB0fDUnXU5powFXDhCwa"
  const RachelId: string := "pNInz6obpgDQGcFmaJgB"

  /** The male voice table as a map from display name to provider id. */
  const MaleVoices: map<string, string> :=
    map["David" := DavidId, "James" := JamesId, "Michael" := MichaelId, "Ryan" := RyanId]

  /** The female voice table. */
  const FemaleVoices: map<string, string> :=
    map["Sarah" := SarahId, "Emma" := EmmaId, "Lisa" := LisaId, "Rachel" := RachelId]

  /** `table[name] || fallback`. */
  function LookupOr(table: map<string, string>, name: string, fallback: string): string {
    if name in table then table[name] else fallback
  }

  predicate IsMale(seg: ScriptSegment) {
    seg.speaker == "male"
  }

  /** The provider voice for a segment: the male table (David by default)
      for `"male"`, the female table (Sarah by default) for anything else. */
  function VoiceIdFor(seg: ScriptSegment, settings: VoiceSettings): string {
    if IsMale(seg) then LookupOr(MaleVoices, settings.maleVoice, MaleVoices["David"])
    else LookupOr(FemaleVoices, settings.femaleVoice, FemaleVoices["Sarah"])
  }

  /** The speed for a segment: `maleSpeed` for `"male"`, `femaleSpeed` for
      anything else. */
  function SpeedFor(seg: ScriptSegment, settings: VoiceSettings): Speed {
    if IsMale(seg) then settings.maleSpeed else settings.femaleSpeed
  }

  /** What a segment asks the provider for. */
  datatype SpeechRequest = SpeechRequest(voiceId: string, text: string, speed: Speed)

  function SegmentRequest(seg: ScriptSegment, settings: VoiceSettings): SpeechRequest {
    SpeechRequest(VoiceIdFor(seg, settings), seg.content, SpeedFor(seg, settings))
  }

  /** The voice rules: a male segment gets a male-table voice, its chosen one
      when the name is in the table and David's otherwise; every other
      segment gets a female-table voice, Sarah's for an unknown name; and
      the speed follows the same split. */
  lemma VoiceSelection(seg: ScriptSegment, settings: VoiceSettings)
    ensures IsMale(seg) ==> SegmentRequest(seg, settings).voiceId in MaleVoices.Values
    ensures !IsMale(seg) ==> SegmentRequest(seg, settings).voiceId in FemaleVoices.Values
    ensures IsMale(seg) && settings.maleVoice in MaleVoices ==>
      SegmentRequest(seg, settings).voiceId == MaleVoices[settings.maleVoice]
    ensures IsMale(seg) && settings.maleVoice !in MaleVoices ==> SegmentRequest(seg, settings).voiceId == DavidId
    ensures !IsMale(seg) && settings.femaleVoice in FemaleVoices ==>
      SegmentRequest(seg, settings).voiceId == FemaleVoices[settings.femaleVoice]
    ensures !IsMale(seg) && settings.femaleVoice !in FemaleVoices ==> SegmentRequest(seg, settings).voiceId == SarahId
    ensures SegmentRequest(seg, settings).speed == if IsMale(seg) then settings.maleSpeed else settings.femaleSpeed
    ensures SegmentRequest(seg, settings).text == seg.content
  {
    assert MaleVoices["David"] == DavidId;
    assert FemaleVoices["Sarah"] == SarahId;
    assert LookupOr(MaleVoices, settings.maleVoice, DavidId) in MaleVoices.Values;
    assert LookupOr(FemaleVoices, settings.femaleVoice, SarahId) in FemaleVoices.Values;
  }

  /** The two tables share no voice, so the voice of a request tells which
      host speaks. */
  lemma VoiceTablesDisjoint(m: string, f: string)
    requires m in MaleVoices && f in FemaleVoices
    ensures MaleVoices[m] != FemaleVoices[f]
  {
  }

  /** `text.split(" ").length`. */
  function WordCount(text: string): (n: nat)
    ensures n >= 1
    ensures n == Text.Count(text, ' ') + 1
  {
    |Text.Split(text, ' ')|
  }

  /** Speaking rate of the estimate, in words per minute. */
  const WordsPerMinute: real := 150.0

  /** `(wordCount / 150) * 60 / speed` seconds. */
  function EstimateDuration(text: string, speed: Speed): (d: real)
    ensures d > 0.0
  {
    (WordCount(text) as real / WordsPerMinute) * 60.0 / speed
  }

  /** The estimate is 0.4 s per word at speed 1, scaled by 1/speed; so it is
      positive and, over the schema's speed range, lies between
      words·0.4/1.3 and words·0.4/0.7. */
  lemma EstimateBounds(text: string, speed: Speed)
    ensures EstimateDuration(text, speed) * speed == WordCount(text) as real * 0.4
    ensures EstimateDuration(text, speed) > 0.0
    ensures WordCount(text) as real * 0.4 <= EstimateDuration(text, speed) * 1.3
    ensures EstimateDuration(text, speed) * 0.7 <= WordCount(text) as real * 0.4
  {
    var w := WordCount(text) as real;
    var a := (w / WordsPerMinute) * 60.0;
    assert a == w * 0.4;
    var d := EstimateDuration(text, speed);
    assert d == a / speed;
    DivideThenMultiply(a, speed);
    SpeedScaled(d, speed, w * 0.4);
  }

  lemma DivideThenMultiply(a: real, s: real)
    requires s > 0.0
    ensures (a / s) * s == a
  {
  }

  /** A positive duration at a speed in [0.7, 1.3] lies between its
      normal-speed length divided by 1.3 and divided by 0.7. */
  lemma SpeedScaled(d: real, speed: real, x: real)
    requires d > 0.0 && 0.7 <= speed <= 1.3
    requires d * speed == x
    ensures x <= d * 1.3 && d * 0.7 <= x
  {
    ScaleMonotone(d, speed, 1.3);
    ScaleMonotone(d, 0.7, speed);
  }

  lemma ScaleMonotone(d: real, s: real, t: real)
    requires d >= 0.0 && s <= t
    ensures d * s <= d * t
  {
    assert d * t - d * s == d * (t - s);
  }

  /** The provider's answer to one request: an HTTP response with its body,
      or a thrown value (network failure, unreadable body). */
  datatype SpeechAnswer = Responded(status: int, body: seq<byte>) | CallFailed(err: Thrown)

  /** `response.ok`. */
  predicate IsOkStatus(status: int) {
    200 <= status <= 299
  }

  predicate Succeeded(a: SpeechAnswer) {
    a.Responded? && IsOkStatus(a.status)
  }

  /** The speech provider: the answer to the call with the given ordinal. */
  type SpeechProvider = (nat, SpeechRequest) -> SpeechAnswer

  /** The size of the silent placeholder buffer, in bytes. */
  const PlaceholderSize: nat := 1024

  /** `n` zero bytes (`Buffer.alloc(n)`). */
  function Zeros(n: nat): (z: seq<byte>)
    ensures |z| == n
    ensures forall k :: 0 <= k < n ==> z[k] == 0
  {
    if n == 0 then [] else Zeros(n - 1) + [0]
  }

  const Silence: seq<byte> := Zeros(PlaceholderSize)

  datatype SegmentAudio = SegmentAudio(buffer: seq<byte>, duration: real)

  /** The audio of a failed segment: 1024 zero bytes lasting one second. */
  const Placeholder: SegmentAudio := SegmentAudio(Silence, 1.0)

  /** `synthesizeSegment`: the provider's bytes with the word-count
      estimate on success; the placeholder for any failure, a non-2xx status
      included. */
  function SynthesizeSegment(seg: ScriptSegment, settings: VoiceSettings, answer: SpeechAnswer): (a: SegmentAudio)
    ensures Succeeded(answer) ==> a.buffer == answer.body && a.duration == EstimateDuration(seg.content, SpeedFor(seg, settings))
    ensures !Succeeded(answer) ==> a == Placeholder
    ensures a.duration > 0.0
  {
    if answer.CallFailed? || !IsOkStatus(answer.status) then Placeholder
    else SegmentAudio(answer.body, EstimateDuration(seg.content, SpeedFor(seg, settings)))
  }

  /** The audio of every segment, the i-th from the i-th provider call. */
  function SegmentAudios(segs: seq<ScriptSegment>, settings: VoiceSettings, speech: SpeechProvider)
    : (r: seq<SegmentAudio>)
    ensures |r| == |segs|
    ensures forall i :: 0 <= i < |r| ==> r[i] == AudioAt(segs, settings, speech, i)
  {
    seq(|segs|, i requires 0 <= i < |segs| => AudioAt(segs, settings, speech, i))
  }

  /** The audio of segment `i`, synthesized by the `i`-th provider call. */
  function AudioAt(segs: seq<ScriptSegment>, settings: VoiceSettings, speech: SpeechProvider, i: nat): SegmentAudio
    requires i < |segs|
  {
    SynthesizeSegment(segs[i], settings, speech(i, SegmentRequest(segs[i], settings)))
  }

  /** `Buffer.concat` of the pieces in order. */
  function Concat(bufs: seq<seq<byte>>): seq<byte> {
    if |bufs| == 0 then [] else Concat(bufs[..|bufs| - 1]) + bufs[|bufs| - 1]
  }

  function Buffers(audios: seq<SegmentAudio>): (r: seq<seq<byte>>)
    ensures |r| == |audios|
    ensures forall i :: 0 <= i < |r| ==> r[i] == audios[i].buffer
  {
    seq(|audios|, i requires 0 <= i < |audios| => audios[i].buffer)
  }

  /** The sum of the durations, accumulated front to back. */
  function TotalDuration(audios: seq<SegmentAudio>): real {
    if |audios| == 0 then 0.0 else TotalDuration(audios[..|audios| - 1]) + audios[|audios| - 1].duration
  }

  /** Where the combined audio of one run is written. */
  datatype WriteOutcome = Written | WriteFailed(err: Thrown)

  /** The file system: the outcome of writing the bytes under a name. */
  type FileWriter = (string, seq<byte>) -> WriteOutcome

  datatype Synthesis = Synthesis(audioUrl: string, fileName: string, audio: seq<byte>, duration: real)

  const AudioUrlPrefix: string := "/api/audio/"
  const AudioErrorPrefix: string := "Failed to synthesize audio: "

  /** `podcast_<uuid>.mp3`. */
  function FileNameFor(fileId: string): string {
    "podcast_" + fileId + ".mp3"
  }

  /** The segments' durations add up to a positive total unless there are none. */
  lemma SegmentsDuration(segs: seq<ScriptSegment>, settings: VoiceSettings, speech: SpeechProvider)
    ensures var t := TotalDuration(SegmentAudios(segs, settings, speech));
      t >= 0.0 && (t == 0.0 <==> |segs| == 0)
  {
    TotalDurationPositive(SegmentAudios(segs, settings, speech));
  }

  /** `synthesizePodcast`, as a function: every segment, then one write. */
  function PodcastAudio(script: GeneratedScript, settings: VoiceSettings, speech: SpeechProvider,
                        fileId: string, write: FileWriter): (r: Result<Synthesis, string>)
    ensures r.Success? <==>
      write(FileNameFor(fileId), Concat(Buffers(SegmentAudios(script.segments, settings, speech)))).Written?
    ensures r.Failure? ==>
      r.error == AudioErrorPrefix
        + Describe(write(FileNameFor(fileId), Concat(Buffers(SegmentAudios(script.segments, settings, speech)))).err)
    ensures r.Success? ==> r.value.fileName == "podcast_" + fileId + ".mp3"
    ensures r.Success? ==> r.value.audioUrl == "/api/audio/podcast_" + fileId + ".mp3"
    ensures r.Success? ==> r.value.audio == Concat(Buffers(SegmentAudios(script.segments, settings, speech)))
    ensures r.Success? ==> r.value.duration == TotalDuration(SegmentAudios(script.segments, settings, speech))
    ensures r.Success? ==> r.value.duration >= 0.0
    ensures r.Success? ==> (r.value.duration == 0.0 <==> |script.segments| == 0)
  {
    var audios := SegmentAudios(script.segments, settings, speech);
    assert TotalDuration(audios) >= 0.0 && (TotalDuration(audios) == 0.0 <==> |script.segments| == 0) by {
      SegmentsDuration(script.segments, settings, speech);
    }
    assert AudioUrlPrefix + FileNameFor(fileId) == "/api/audio/podcast_" + fileId + ".mp3";
    var combined := Concat(Buffers(audios));
    var fileName := FileNameFor(fileId);
    match write(fileName, combined)
    case WriteFailed(e) => Failure(AudioErrorPrefix + Describe(e))
    case Written => Success(Synthesis(AudioUrlPrefix + fileName, fileName, combined, TotalDuration(audios)))
  }

  /** `synthesizePodcast` as the source writes it: a loop collecting the
      buffers and adding up the durations, then the concatenation and the
      write. It computes exactly `PodcastAudio`. */
  method SynthesizePodcast(script: GeneratedScript, settings: VoiceSettings, speech: SpeechProvider,
                           fileId: string, write: FileWriter) returns (r: Result<Synthesis, string>)
    ensures r == PodcastAudio(script, settings, speech, fileId, write)
  {
    var segs := script.segments;
    var audios := SegmentAudios(segs, settings, speech);
    var audioSegments: seq<seq<byte>> := [];
    var totalDuration: real := 0.0;
    var i := 0;
    while i < |segs|
      invariant 0 <= i <= |segs|
      invariant audioSegments == Buffers(audios[..i])
      invariant totalDuration == TotalDuration(audios[..i])
    {
      var audio := SynthesizeSegment(segs[i], settings, speech(i, SegmentRequest(segs[i], settings)));
      assert audio == audios[i];
      assert audios[..i + 1] == audios[..i] + [audio];
      audioSegments := audioSegments + [audio.buffer];
      totalDuration := totalDuration + audio.duration;
      i := i + 1;
    }
    assert audios[..|segs|] == audios;
    var combinedAudio := Concat(audioSegments);
    var fileName := FileNameFor(fileId);
    match write(fileName, combinedAudio)
    case WriteFailed(e) =>
      r := Failure(AudioErrorPrefix + Describe(e));
    case Written =>
      r := Success(Synthesis(AudioUrlPrefix + fileName, fileName, combinedAudio, totalDuration));
  }

  // ---- properties of the stage ------------------------------------------

  lemma {:induction false} ConcatLength(bufs: seq<seq<byte>>, n: nat)
    requires forall i :: 0 <= i < |bufs| ==> |bufs[i]| == n
    ensures |Concat(bufs)| == n * |bufs|
  {
    if |bufs| > 0 {
      ConcatLength(bufs[..|bufs| - 1], n);
    }
  }

  /** Concatenation lays the pieces out one after another: piece `i` starts
      where the pieces before it end. */
  lemma {:induction false} ConcatPieces(bufs: seq<seq<byte>>, i: nat)
    requires i < |bufs|
    ensures |Concat(bufs[..i])| + |bufs[i]| <= |Concat(bufs)|
    ensures Concat(bufs)[|Concat(bufs[..i])|..|Concat(bufs[..i])| + |bufs[i]|] == bufs[i]
  {
    var n := |bufs|;
    assert bufs[..n][..n - 1] == bufs[..n - 1];
    if i == n - 1 {
      assert bufs[..n - 1] == bufs[..i];
    } else {
      ConcatPieces(bufs[..n - 1], i);
      assert bufs[..n - 1][..i] == bufs[..i];
      assert bufs[..n - 1][i] == bufs[i];
    }
  }

  lemma {:induction false} TotalDurationPositive(audios: seq<SegmentAudio>)
    requires forall i :: 0 <= i < |audios| ==> audios[i].duration > 0.0
    ensures TotalDuration(audios) >= 0.0
    ensures |audios| > 0 ==> TotalDuration(audios) > 0.0
  {
    if |audios| > 0 {
      TotalDurationPositive(audios[..|audios| - 1]);
    }
  }

  lemma {:induction false} TotalOfPlaceholders(audios: seq<SegmentAudio>)
    requires forall i :: 0 <= i < |audios| ==> audios[i] == Placeholder
    ensures TotalDuration(audios) == |audios| as real
  {
    if |audios| > 0 {
      TotalOfPlaceholders(audios[..|audios| - 1]);
    }
  }

  /** In the combined audio, segment `i`'s buffer sits, unchanged, right
      after the buffers of the segments before it. */
  lemma AudioInScriptOrder(script: GeneratedScript, settings: VoiceSettings, speech: SpeechProvider,
                           fileId: string, write: FileWriter, i: nat)
    requires PodcastAudio(script, settings, speech, fileId, write).Success?
    requires i < |script.segments|
    ensures var audio := PodcastAudio(script, settings, speech, fileId, write).value.audio;
      var piece := AudioAt(script.segments, settings, speech, i).buffer;
      var start := |Concat(Buffers(SegmentAudios(script.segments, settings, speech))[..i])|;
      start + |piece| <= |audio| && audio[start..start + |piece|] == piece
  {
    ConcatPieces(Buffers(SegmentAudios(script.segments, settings, speech)), i);
  }

  /** A provider that fails every call, whatever the error (an
      authentication or quota error included), still lets the stage
      succeed: n segments give n placeholders, 1024·n zero bytes and n
      seconds. */
  lemma AllSegmentsFail(script: GeneratedScript, settings: VoiceSettings, speech: SpeechProvider,
                        fileId: string, write: FileWriter)
    requires forall i, q :: !Succeeded(speech(i, q))
    requires write(FileNameFor(fileId), Concat(Buffers(SegmentAudios(script.segments, settings, speech)))).Written?
    ensures var r := PodcastAudio(script, settings, speech, fileId, write);
      && r.Success?
      && r.value.duration == |script.segments| as real
      && |r.value.audio| == PlaceholderSize * |script.segments|
      && forall k :: 0 <= k < |r.value.audio| ==> r.value.audio[k] == 0
  {
    var audios := SegmentAudios(script.segments, settings, speech);
    assert forall i :: 0 <= i < |audios| ==> audios[i] == Placeholder by {
      forall i | 0 <= i < |audios| ensures audios[i] == Placeholder {
        var q := SegmentRequest(script.segments[i], settings);
        assert !Succeeded(speech(i, q));
      }
    }
    TotalOfPlaceholders(audios);
    ConcatLength(Buffers(audios), PlaceholderSize);
    AllZero(Buffers(audios));
  }

  lemma {:induction false} AllZero(bufs: seq<seq<byte>>)
    requires forall i :: 0 <= i < |bufs| ==> bufs[i] == Silence
    ensures forall k :: 0 <= k < |Concat(bufs)| ==> Concat(bufs)[k] == 0
  {
    if |bufs| > 0 {
      AllZero(bufs[..|bufs| - 1]);
      var front := Concat(bufs[..|bufs| - 1]);
      assert Concat(bufs) == front + Silence;
    }
  }
}
