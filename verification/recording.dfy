/**
 * The dispatcher's side of performance recording: which command goes to
 * the recording collaborator, and when the caller's completion runs. The
 * recorder itself is not part of this model.
 */
module Recording {
  import opened Wrappers
  import opened Params

  datatype RecordingEvent =
    | StartRecording(config: Params)
    | ContinueRecording(config: Params)
    | StopRecording
    | StopFinished        // the recorder's stop callback fires
    | Completion          // the caller's completion handler runs

  function CountCompletions(events: seq<RecordingEvent>): nat {
    multiset(events)[Completion]
  }

  /**
   * `handlePerformanceRecording`: a string `recordingPath` starts a
   * recording, or continues one when called at launch; anything else stops
   * it. The completion runs right away after a start or continue, and only
   * from the stop callback after a stop.
   */
  function HandlePerformanceRecording(props: Option<Params>, isFromLaunch: bool, hasCompletion: bool): (events: seq<RecordingEvent>)
    ensures CountCompletions(events) == if hasCompletion then 1 else 0
    ensures hasCompletion ==> events[|events| - 1] == Completion
    ensures |events| > 0
    ensures (props.Some? && OptString(props.value, "recordingPath").Some?) ==>
      events[0] == if isFromLaunch then ContinueRecording(props.value) else StartRecording(props.value)
    ensures !(props.Some? && OptString(props.value, "recordingPath").Some?) ==>
      |events| >= 2 && events[..2] == [StopRecording, StopFinished]
    ensures |events| ==
      (if props.Some? && OptString(props.value, "recordingPath").Some? then 1 else 2) + (if hasCompletion then 1 else 0)
  {
    var completion := if hasCompletion then [Completion] else [];
    if props.Some? && OptString(props.value, "recordingPath").Some? then
      var command := if isFromLaunch then ContinueRecording(props.value) else StartRecording(props.value);
      [command] + completion
    else
      [StopRecording, StopFinished] + completion
  }

  /** A command to the recorder, as opposed to a callback. */
  predicate IsCommand(e: RecordingEvent) {
    e.StartRecording? || e.ContinueRecording? || e.StopRecording?
  }

  /**
   * Every call issues exactly one command to the recorder, first: a start,
   * a continue or a stop, never two of them.
   */
  lemma ExactlyOneCommand(props: Option<Params>, isFromLaunch: bool, hasCompletion: bool)
    ensures var events := HandlePerformanceRecording(props, isFromLaunch, hasCompletion);
      IsCommand(events[0]) && forall j | 0 < j < |events| :: !IsCommand(events[j])
  {
  }

  /**
   * The recording requested through the launch defaults: a recording path,
   * and a sampling interval only when one was given.
   */
  function LaunchRecordingProps(recordingPath: Option<string>, samplingInterval: Option<real>): (props: Option<Params>)
    ensures props.Some? <==> recordingPath.Some?
    ensures props.Some? ==> OptString(props.value, "recordingPath") == recordingPath
    ensures props.Some? ==> ("samplingInterval" in props.value <==> samplingInterval.Some?)
    ensures props.Some? && samplingInterval.Some? ==> props.value["samplingInterval"] == Number(samplingInterval.value)
    ensures props.Some? ==> props.value.Keys <= {"recordingPath", "samplingInterval"}
  {
    match recordingPath
    case None => None
    case Some(path) =>
      var base := map["recordingPath" := Text(path)];
      Some(match samplingInterval
        case Some(i) => base["samplingInterval" := Number(i)]
        case None => base)
  }

  /** At launch a configured recording is continued, never started, and no completion runs. */
  lemma LaunchContinuesRecording(recordingPath: string, samplingInterval: Option<real>)
    ensures var props := LaunchRecordingProps(Some(recordingPath), samplingInterval);
      HandlePerformanceRecording(props, true, false) == [ContinueRecording(props.value)]
  {
  }
}
