/** The three-step measurement screen (app/measure/recording.tsx): two read
    sentences and a sustained sound, each with a minimum and a maximum length;
    the last recording is kept and handed to the analysis. */
module RecordingScreen {
  import opened Js
  import opened Text
  import FileStorage

  datatype StepKind = Sentence | Sound

  /** One step of the protocol; durations in milliseconds. */
  datatype RecordingStep = RecordingStep(
    id: int,
    kind: StepKind,
    instruction: string,
    content: string,
    hint: string,
    minDuration: int,
    maxDuration: int)

  /** `RECORDING_STEPS`. */
  const RecordingSteps: seq<RecordingStep> := [
    RecordingStep(1, Sentence, "Read this phrase aloud",
      "The human voice is the most powerful instrument.", "Speak naturally at your normal pace", 2000, 8000),
    RecordingStep(2, Sentence, "Now read this phrase",
      "I speak with confidence and authority.", "Use your natural speaking voice", 2000, 8000),
    RecordingStep(3, Sound, "Finally, make this sound",
      "Aaaaaah", "Hold a relaxed \"aah\" for 5 seconds", 4000, 8000)]

  /** The index of the last step. */
  const LastStep := |RecordingSteps| - 1

  /** Three steps numbered 1 to 3, each with a minimum no longer than its
      maximum; only the last one is the sustained sound. */
  lemma RecordingStepsWellFormed()
    ensures |RecordingSteps| == 3 && LastStep == 2
    ensures forall i | 0 <= i < |RecordingSteps| ::
      RecordingSteps[i].id == i + 1 && 0 < RecordingSteps[i].minDuration <= RecordingSteps[i].maxDuration
    ensures forall i | 0 <= i < |RecordingSteps| :: RecordingSteps[i].kind == Sound <==> i == LastStep
  {
  }

  /** What the recorder returns when it stops: the temporary file and its length. */
  datatype RecorderResult = RecorderResult(uri: string, durationMillis: int)

  /** The recording exists and is at least the step's minimum long. */
  predicate LongEnough(result: Option<RecorderResult>, step: int)
    requires 0 <= step < |RecordingSteps|
  {
    result.Some? && result.value.durationMillis >= RecordingSteps[step].minDuration
  }

  datatype Alert = TooShort(message: string) | SomethingWentWrong

  /** The too-short alert names what the step asked for. */
  function TooShortAlert(step: int): (a: Alert)
    requires 0 <= step < |RecordingSteps|
    ensures a.TooShort?
    ensures RecordingSteps[step].kind == Sound ==> a.message == "Please hold the sound for at least 4 seconds."
    ensures RecordingSteps[step].kind == Sentence ==> a.message == "Please read the full phrase."
  {
    TooShort(if RecordingSteps[step].kind == Sound then "Please hold the sound for at least 4 seconds."
             else "Please read the full phrase.")
  }

  /** What stopping a recording leads to. */
  datatype StopOutcome =
    | RecordAgain                  // too short or missing: the same step again
    | NextStep(step: int)          // on to the next step
    | Analyse(durationMs: int)     // the kept sound goes to the analysis
    | Failed                       // an exception reached the catch-all

  /** `saveRecording` as a move out of the recorder's temporary files: it
      fails when the source is no longer there. */
  function MoveOut(tempFiles: set<string>, tempUri: string): (r: Option<set<string>>)
    ensures r.Some? <==> tempUri in tempFiles
    ensures r.Some? ==> r.value == tempFiles - {tempUri}
  {
    if tempUri in tempFiles then Some(tempFiles - {tempUri}) else None
  }

  /** `stopRecording` as written: on the last step the recording is moved
      once to keep its URI and a second time to obtain the URI to analyse. */
  function StopResultAsWritten(step: int, result: Option<RecorderResult>, tempFiles: set<string>): (o: StopOutcome)
    requires 0 <= step < |RecordingSteps|
    ensures !LongEnough(result, step) ==> o == RecordAgain
    ensures LongEnough(result, step) && step < LastStep ==> o == NextStep(step + 1)
    ensures LongEnough(result, step) && step == LastStep ==> o == Failed
  {
    if !LongEnough(result, step) then RecordAgain
    else
      var recording := result.value;
      var afterFirst := if step == 2 then MoveOut(tempFiles, recording.uri) else Some(tempFiles);
      if afterFirst.None? then Failed
      else if step < LastStep then NextStep(step + 1)
      else if step == 2 then
        match MoveOut(afterFirst.value, recording.uri)
        case None => Failed
        case Some(_) => Analyse(recording.durationMillis)
      else Analyse(recording.durationMillis)
  }

  /** As written, a long-enough sustained sound never reaches the analysis:
      the second move finds its source already moved. */
  lemma LastStepFailsAsWritten(result: Option<RecorderResult>, tempFiles: set<string>)
    requires LongEnough(result, 2)
    ensures StopResultAsWritten(2, result, tempFiles) == Failed
  {
  }

  /** `stopRecording` with the recording moved once and its kept URI analysed. */
  function StopResult(step: int, result: Option<RecorderResult>, tempFiles: set<string>): (o: StopOutcome)
    requires 0 <= step < |RecordingSteps|
    ensures !LongEnough(result, step) ==> o == RecordAgain
    ensures LongEnough(result, step) && step < LastStep ==> o == NextStep(step + 1)
    ensures LongEnough(result, step) && step == LastStep && result.value.uri in tempFiles ==>
      o == Analyse(result.value.durationMillis)
  {
    if !LongEnough(result, step) then RecordAgain
    else
      var moved := if step == 2 then MoveOut(tempFiles, result.value.uri) else Some(tempFiles);
      if moved.None? then Failed
      else if step < LastStep then NextStep(step + 1)
      else Analyse(result.value.durationMillis)
  }

  /** The two agree on every step but the last; there, with the recorder's
      file present, only the corrected one reaches the analysis. */
  lemma StopResultCorrectsLastStep(step: int, result: Option<RecorderResult>, tempFiles: set<string>)
    requires 0 <= step < |RecordingSteps|
    ensures step < LastStep || !LongEnough(result, step) ==>
      StopResultAsWritten(step, result, tempFiles) == StopResult(step, result, tempFiles)
    ensures step == LastStep && LongEnough(result, step) && result.value.uri in tempFiles ==>
      StopResult(step, result, tempFiles).Analyse? && StopResultAsWritten(step, result, tempFiles) == Failed
  {
  }

  /** `formatDuration`: whole seconds followed by `s`. */
  function FormatDuration(ms: int): (s: string)
    ensures |s| >= 2 && s[|s| - 1] == 's'
    ensures ms >= 0 ==> AllDigits(s[..|s| - 1])
    ensures ms < 0 <==> s[0] == '-'
  {
    IntToString(ms / 1000) + "s"
  }

  /** Reading the digits back gives the whole seconds of a non-negative length. */
  lemma FormatDurationRoundTrip(ms: int)
    requires ms >= 0
    ensures var s := FormatDuration(ms);
      AllDigits(s[..|s| - 1]) && ParseDigits(s[..|s| - 1]) * 1000 <= ms < (ParseDigits(s[..|s| - 1]) + 1) * 1000
  {
    var s := FormatDuration(ms);
    assert s[..|s| - 1] == NatToString(ms / 1000);
    ParseNatToString(ms / 1000);
  }

  /** The request handed to the analysis: the kept recording and its length. */
  datatype AnalysisRequest = AnalysisRequest(uri: string, durationMs: int)

  /** The screen's state. */
  class RecordingScreenState {
    var currentStep: int
    var isRecording: bool
    var audioLevel: real
    var recordingDuration: int
    var isProcessing: bool
    var recordingUri: Option<string>
    var alert: Option<Alert>
    var analysis: Option<AnalysisRequest>

    /** The step always names one of the three steps. */
    ghost predicate Valid()
      reads this
    {
      0 <= currentStep <= LastStep
    }

    constructor ()
      ensures currentStep == 0 && !isRecording && audioLevel == 0.0 && recordingDuration == 0
      ensures !isProcessing && recordingUri == None && alert == None && analysis == None
      ensures Valid()
    {
      currentStep := 0;
      isRecording := false;
      audioLevel := 0.0;
      recordingDuration := 0;
      isProcessing := false;
      recordingUri := None;
      alert := None;
      analysis := None;
    }

    /** `canStop`: the recording has reached the step's minimum. */
    function CanStop(): (b: bool)
      requires Valid()
      reads this
      ensures b <==> recordingDuration >= RecordingSteps[currentStep].minDuration
    {
      recordingDuration >= RecordingSteps[currentStep].minDuration
    }

    /** The button stops a recording exactly when the recording it would
        stop, of the length shown, is long enough not to be asked for again. */
    lemma CanStopMeansAccepted(uri: string)
      requires Valid()
      ensures CanStop() <==> StopResult(currentStep, Some(RecorderResult(uri, recordingDuration)), {uri}) != RecordAgain
    {
    }

    /** What `startRecording` leaves behind: when the recorder started,
        recording from zero; when it failed, the recording flag and duration
        as they were; every other field as it was. */
    twostate predicate StartedWith(started: bool)
      reads this
    {
      && (started ==> isRecording && recordingDuration == 0)
      && (!started ==> isRecording == old(isRecording) && recordingDuration == old(recordingDuration))
      && currentStep == old(currentStep) && recordingUri == old(recordingUri)
      && audioLevel == old(audioLevel) && isProcessing == old(isProcessing)
      && alert == old(alert) && analysis == old(analysis)
    }

    /** `startRecording`: when the recorder starts, recording from zero;
        when it fails, nothing changes. */
    method StartRecording(started: bool)
      modifies this
      ensures StartedWith(started)
    {
      if started {
        isRecording := true;
        recordingDuration := 0;
      }
    }

    /** The elapsed-time interval while recording. */
    method UpdateDuration(elapsed: int)
      modifies this
      ensures recordingDuration == elapsed
      ensures currentStep == old(currentStep) && isRecording == old(isRecording)
      ensures recordingUri == old(recordingUri) && isProcessing == old(isProcessing)
    {
      recordingDuration := elapsed;
    }

    /** What stopping a recording leaves behind, by the step it was on: a
        missing or short recording repeats the step with the level and the
        duration reset and the too-short alert; a long-enough one on the first
        two steps moves on with the level and the duration reset; on the last
        step the sound is saved once into the folder and handed to the
        analysis. Each case leaves the other fields as they were. */
    twostate predicate StoppedWith(result: Option<RecorderResult>, folder: FileStorage.RecordingsFolder, now: nat)
      requires old(Valid())
      reads this, folder
    {
      var step := old(currentStep);
      var name := FileStorage.RecordingFilename("voice_measure", now);
      && !isRecording
      && (!LongEnough(result, step) ==>
            && currentStep == step && audioLevel == 0.0 && recordingDuration == 0
            && alert == Some(TooShortAlert(step)) && folder.files == old(folder.files)
            && recordingUri == old(recordingUri) && isProcessing == old(isProcessing) && analysis == old(analysis))
      && (LongEnough(result, step) && step < LastStep ==>
            && currentStep == step + 1 && audioLevel == 0.0 && recordingDuration == 0
            && folder.files == old(folder.files)
            && recordingUri == old(recordingUri) && isProcessing == old(isProcessing) && analysis == old(analysis)
            && alert == old(alert))
      && (LongEnough(result, step) && step == LastStep ==>
            && currentStep == step
            && audioLevel == old(audioLevel) && recordingDuration == old(recordingDuration) && alert == old(alert)
            && recordingUri == Some(folder.dir + name)
            && folder.files == (if name in old(folder.files) then old(folder.files) else old(folder.files) + [name])
            && isProcessing
            && analysis == Some(AnalysisRequest(folder.dir + name, result.value.durationMillis)))
    }

    /** `stopRecording` with the recording kept once: nothing unless
        recording; otherwise the outcome of `StopResult` and the state
        `StoppedWith` describes, after which the stop button is disabled
        again unless the analysis has started. */
    method StopRecording(result: Option<RecorderResult>, folder: FileStorage.RecordingsFolder, now: nat)
      returns (outcome: Option<StopOutcome>)
      requires Valid()
      modifies this, folder
      ensures Valid()
      ensures !old(isRecording) ==> outcome == None && unchanged(this) && unchanged(folder)
      ensures old(isRecording) ==>
        outcome == Some(StopResult(old(currentStep), result, if result.Some? then {result.value.uri} else {}))
      ensures old(isRecording) ==> StoppedWith(result, folder, now)
      ensures old(isRecording) && (!LongEnough(result, old(currentStep)) || old(currentStep) < LastStep) ==> !CanStop()
    {
      if !isRecording {
        return None;
      }
      isRecording := false;
      var step := currentStep;
      outcome := Some(StopResult(step, result, if result.Some? then {result.value.uri} else {}));
      if result.Some? && result.value.durationMillis >= RecordingSteps[currentStep].minDuration {
        if currentStep == 2 {
          var permanentUri := folder.SaveRecording("voice_measure", now);
          recordingUri := Some(permanentUri);
        }
        if currentStep < |RecordingSteps| - 1 {
          currentStep := currentStep + 1;
          audioLevel := 0.0;
          recordingDuration := 0;
        } else {
          var uri := recordingUri.value;
          isProcessing := true;
          analysis := Some(AnalysisRequest(uri, result.value.durationMillis));
        }
      } else {
        audioLevel := 0.0;
        recordingDuration := 0;
        alert := Some(TooShortAlert(currentStep));
      }
    }

    /** `handleRecordPress`: while recording, stop only once the minimum is
        reached; otherwise start. */
    method HandleRecordPress(started: bool, result: Option<RecorderResult>,
                             folder: FileStorage.RecordingsFolder, now: nat)
      returns (outcome: Option<StopOutcome>)
      requires Valid()
      modifies this, folder
      ensures Valid()
      ensures old(isRecording) && !old(CanStop()) ==> outcome == None && unchanged(this) && unchanged(folder)
      ensures old(isRecording) && old(CanStop()) ==>
        && outcome == Some(StopResult(old(currentStep), result, if result.Some? then {result.value.uri} else {}))
        && StoppedWith(result, folder, now)
      ensures !old(isRecording) ==> outcome == None && StartedWith(started) && unchanged(folder)
    {
      outcome := None;
      if isRecording {
        if recordingDuration >= RecordingSteps[currentStep].minDuration {
          outcome := StopRecording(result, folder, now);
        }
      } else {
        StartRecording(started);
      }
    }
  }
}
