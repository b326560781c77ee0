/** The status card's logic: when to stop polling the status endpoint, the
    state of each of the four displayed steps, and the overall progress
    figure. The polled data is either absent (no reply yet) or an object
    whose `status` field may itself be missing. */
module ProcessingStatus {
  import opened Outcomes
  import opened Schema

  /** The body of the last status reply, as far as the card reads it. */
  datatype StatusData = StatusData(status: Option<string>)

  /** What `refetchInterval` returns: `false`, or a delay in milliseconds. */
  datatype Poll = StopPolling | PollEvery(ms: nat)

  const PollInterval: nat := 2000

  /** The polling rule: stop once the job is finished either way. */
  function RefetchInterval(data: Option<StatusData>): (p: Poll)
    ensures p.StopPolling? <==>
      data.Some? && (data.value.status == Some(Completed) || data.value.status == Some(Failed))
    ensures p.PollEvery? ==> p.ms == PollInterval
  {
    if data.Some? && data.value.status.Some? && data.value.status.value in {Completed, Failed} then
      StopPolling
    else
      PollEvery(PollInterval)
  }

  /** The state a step is drawn in. */
  datatype StepState = Pending | Active | StepCompleted | StepFailed

  /** The displayed steps, in order. */
  const Steps: seq<string> := ["analysis", "script", "audio", "processing"]

  /** The status-to-step map; a status it has no key for reads `undefined`. */
  function StepOf(status: Option<string>): (step: Option<string>)
    ensures step.Some? <==> status.Some? && status.value in {Processing, GeneratingScript, GeneratingAudio, Completed, Failed}
    ensures step == Some("analysis") <==> status == Some(Processing)
    ensures step == Some("script") <==> status == Some(GeneratingScript)
    ensures step == Some("audio") <==> status == Some(GeneratingAudio)
    ensures step != Some("processing")
  {
    match status
    case None => None
    case Some(s) =>
      if s == Processing then Some("analysis")
      else if s == GeneratingScript then Some("script")
      else if s == GeneratingAudio then Some("audio")
      else if s == Completed then Some("completed")
      else if s == Failed then Some("failed")
      else None
  }

  /** `xs.indexOf(x)`: the first position holding `x`, or -1; `undefined`
      is never found among strings. */
  function IndexOf(xs: seq<string>, x: Option<string>): (i: int)
    ensures -1 <= i < |xs|
    ensures i >= 0 ==> x == Some(xs[i]) && forall j :: 0 <= j < i ==> Some(xs[j]) != x
    ensures i == -1 ==> forall j :: 0 <= j < |xs| ==> Some(xs[j]) != x
  {
    if |xs| == 0 then -1
    else if Some(xs[0]) == x then 0
    else
      var k := IndexOf(xs[1..], x);
      if k < 0 then -1 else k + 1
  }

  /** `getStepStatus(stepName)`. */
  function StepStatus(data: Option<StatusData>, stepName: string): (s: StepState)
    ensures data.None? ==> s == Pending
    ensures s == StepFailed <==> data.Some? && data.value.status == Some(Failed)
    ensures stepName in Steps && s == Active ==> data.Some? && StepOf(data.value.status) == Some(stepName)
  {
    if data.None? then Pending
    else
      var status := data.value.status;
      var currentIndex := IndexOf(Steps, StepOf(status));
      var stepIndex := IndexOf(Steps, Some(stepName));
      if status == Some(Failed) then StepFailed
      else if status == Some(Completed) then StepCompleted
      else if stepIndex < currentIndex then StepCompleted
      else if stepIndex == currentIndex then Active
      else Pending
  }

  /** The progress figure for each status; any other value shows 0. */
  function ProgressPercentage(data: Option<StatusData>): (p: int)
    ensures p in {0, 25, 50, 75, 100}
    ensures p == 100 <==> data.Some? && data.value.status == Some(Completed)
    ensures p == 0 <==>
      data.None? || data.value.status.None?
      || data.value.status.value !in {Processing, GeneratingScript, GeneratingAudio, Completed}
  {
    if data.None? || data.value.status.None? then 0
    else
      var s := data.value.status.value;
      if s == Processing then 25
      else if s == GeneratingScript then 50
      else if s == GeneratingAudio then 75
      else if s == Completed then 100
      else 0
  }

  /** The statuses a successful job passes through, in order. */
  const Pipeline: seq<string> := [Processing, GeneratingScript, GeneratingAudio, Completed]

  function Shown(s: string): Option<StatusData> {
    Some(StatusData(Some(s)))
  }

  /** Progress rises strictly along the pipeline, and a failure shows 0. */
  lemma ProgressIncreases(i: nat, j: nat)
    requires i < j < |Pipeline|
    ensures ProgressPercentage(Shown(Pipeline[i])) < ProgressPercentage(Shown(Pipeline[j]))
    ensures ProgressPercentage(Shown(Failed)) == 0
  {
  }

  /** A finished job shows every step in the same final state. */
  lemma FinishedShowsUniformSteps(stepName: string)
    ensures StepStatus(Shown(Failed), stepName) == StepFailed
    ensures StepStatus(Shown(Completed), stepName) == StepCompleted
  {
  }

  /** While a job runs, the steps before its current step are complete, the
      current one is active and the later ones are pending. */
  lemma RunningStepOrder(status: string, k: nat)
    requires status in {Processing, GeneratingScript, GeneratingAudio}
    requires k < |Steps|
    ensures var cur := IndexOf(Steps, StepOf(Some(status)));
      && 0 <= cur <= 2
      && (k < cur <==> StepStatus(Shown(status), Steps[k]) == StepCompleted)
      && (k == cur <==> StepStatus(Shown(status), Steps[k]) == Active)
      && (k > cur <==> StepStatus(Shown(status), Steps[k]) == Pending)
  {
    StepIndex(k);
    CurrentIndex(status);
  }

  /** Each displayed step is found at its own position. */
  lemma StepIndex(k: nat)
    requires k < |Steps|
    ensures IndexOf(Steps, Some(Steps[k])) == k
  {
    assert Steps[1..][1..][1..] == ["processing"];
  }

  /** The step a running status points at. */
  lemma CurrentIndex(status: string)
    requires status in {Processing, GeneratingScript, GeneratingAudio}
    ensures IndexOf(Steps, StepOf(Some(status)))
         == if status == Processing then 0 else if status == GeneratingScript then 1 else 2
  {
    if status == Processing {
      StepIndex(0);
    } else if status == GeneratingScript {
      StepIndex(1);
    } else {
      StepIndex(2);
    }
  }

  /** Never more than one step is active, and the last step
      ("processing") never is. */
  lemma {:induction false} AtMostOneActive(data: Option<StatusData>, a: nat, b: nat)
    requires a < |Steps| && b < |Steps|
    requires StepStatus(data, Steps[a]) == Active && StepStatus(data, Steps[b]) == Active
    ensures a == b
    ensures a != 3
  {
    StepIndex(a);
    StepIndex(b);
  }

  /** No reply yet, a reply without a status, or a status the map does not
      know: every displayed step is pending and progress is 0. */
  lemma UnknownStatusAllPending(data: Option<StatusData>, k: nat)
    requires data.None? || data.value.status.None?
      || data.value.status.value !in {Processing, GeneratingScript, GeneratingAudio, Completed, Failed}
    requires k < |Steps|
    ensures StepStatus(data, Steps[k]) == Pending
    ensures ProgressPercentage(data) == 0
  {
    StepIndex(k);
  }
}
