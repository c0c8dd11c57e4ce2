/**
 * The record button controller (components/RecordButton.tsx). The platform
 * recorder is reduced to the calls made on it and to their outcomes, which
 * arrive as parameters; the one-second interval is the Tick method, and the
 * effect that watches `recorder.isRecording` runs inside the methods that
 * change it.
 */
module Recording {
  import opened Wrappers
  import opened Service
  import RecordTime
  import Strings

  const NotConnectedNotice := "Primero conéctate a un servidor"
  const StartFailedNotice := "No se pudo iniciar la grabación."
  const StopFailedNotice := "No se pudo detener la grabación."
  const IdleLabel := "Toca para Grabar"

  /** A call the controller makes on the platform recorder. */
  datatype RecorderCall = PrepareToRecord | Record | Stop

  /** How `prepareToRecordAsync` followed by `record()` ended. */
  datatype StartOutcome = Started | PrepareFailed | RecordFailed

  class RecordButton {
    var isRecording: bool               // recorder.isRecording
    var recordTime: nat                 // seconds shown while recording
    var timerRunning: bool              // the interval in timerInterval is installed
    var recorderUri: Option<string>     // recorder.uri
    var recorderCalls: seq<RecorderCall>
    var notices: seq<string>            // every toast requested, oldest first
    var sentUris: seq<string>           // every URI handed to sendAudioFile, oldest first

    /** The interval runs exactly while the recorder records. */
    ghost predicate Valid()
      reads this
    {
      timerRunning == isRecording
    }

    constructor ()
      ensures Valid() && !isRecording && recordTime == 0 && recorderUri == None
      ensures recorderCalls == [] && notices == [] && sentUris == []
    {
      isRecording := false;
      recordTime := 0;
      timerRunning := false;
      recorderUri := None;
      recorderCalls := [];
      notices := [];
      sentUris := [];
    }

    /** What the button shows: the elapsed time while recording, an invitation otherwise. */
    function Label(): (r: string)
      reads this
      ensures isRecording ==> RecordTime.ParseTime(r) == Some(recordTime)
      ensures !isRecording ==> r == IdleLabel
    {
      if isRecording then
        RecordTime.FormatTimeRoundTrip(recordTime);
        RecordTime.FormatTime(recordTime)
      else IdleLabel
    }

    /** The effect on `recorder.isRecording`: a start resets the counter and installs the interval, a stop clears it. */
    method RecordingChanged()
      requires timerRunning != isRecording
      modifies this
      ensures Valid()
      ensures recordTime == if isRecording then 0 else old(recordTime)
      ensures unchanged(this`isRecording, this`recorderUri, this`recorderCalls, this`notices, this`sentUris)
    {
      if isRecording {
        recordTime := 0;
        timerRunning := true;
      } else {
        timerRunning := false;
      }
    }

    /** One firing of the interval: `setRecordTime(prev => prev + 1)`. */
    method Tick()
      requires Valid() && timerRunning
      modifies this
      ensures Valid()
      ensures recordTime == old(recordTime) + 1
      ensures unchanged(this`isRecording, this`timerRunning, this`recorderUri, this`recorderCalls)
      ensures unchanged(this`notices, this`sentUris)
    {
      recordTime := recordTime + 1;
    }

    /**
     * `startRecording`: while not connected only a notice and no recorder
     * call; otherwise prepare and record, and on success the counter restarts
     * at zero.
     */
    method StartRecording(status: Status, outcome: StartOutcome)
      requires Valid() && !isRecording
      modifies this
      ensures Valid()
      ensures status != Connected ==>
        && notices == old(notices) + [NotConnectedNotice]
        && recorderCalls == old(recorderCalls)
        && !isRecording && recordTime == old(recordTime)
      ensures status == Connected ==>
        && recorderCalls == old(recorderCalls) + (if outcome == PrepareFailed then [PrepareToRecord] else [PrepareToRecord, Record])
        && isRecording == (outcome == Started)
        && recordTime == (if outcome == Started then 0 else old(recordTime))
        && notices == (if outcome == Started then old(notices) else old(notices) + [StartFailedNotice])
      ensures unchanged(this`recorderUri, this`sentUris)
    {
      if status != Connected {
        notices := notices + [NotConnectedNotice];
        return;
      }
      recorderCalls := recorderCalls + [PrepareToRecord];
      if outcome == PrepareFailed {
        notices := notices + [StartFailedNotice];
        return;
      }
      recorderCalls := recorderCalls + [Record];
      if outcome == RecordFailed {
        notices := notices + [StartFailedNotice];
        return;
      }
      isRecording := true;
      RecordingChanged();
    }

    /**
     * `stopRecording`: stop the recorder and hand its URI to `sendAudioFile`,
     * once, and only when the URI is a non-empty string; a failed stop only
     * shows a notice.
     */
    method StopRecording(stopOk: bool, uri: Option<string>)
      requires Valid() && isRecording
      modifies this
      ensures Valid()
      ensures recorderCalls == old(recorderCalls) + [Stop]
      ensures !stopOk ==>
        && isRecording && recorderUri == old(recorderUri) && sentUris == old(sentUris)
        && notices == old(notices) + [StopFailedNotice]
      ensures stopOk ==>
        && !isRecording && recorderUri == uri && notices == old(notices)
        && sentUris == old(sentUris) + (if Strings.OrElse(uri, "") != "" then [uri.value] else [])
      ensures recordTime == old(recordTime)
    {
      recorderCalls := recorderCalls + [Stop];
      if !stopOk {
        notices := notices + [StopFailedNotice];
        return;
      }
      isRecording := false;
      RecordingChanged();
      recorderUri := uri;
      if Strings.OrElse(uri, "") != "" {
        sentUris := sentUris + [uri.value];
      }
    }

    /**
     * A press on the button. It is disabled unless connected, so then nothing
     * happens at all; otherwise it stops while recording and starts when idle.
     */
    method Tap(status: Status, start: StartOutcome, stopOk: bool, uri: Option<string>)
      requires Valid()
      modifies this
      ensures Valid()
      ensures status != Connected ==> unchanged(this)
      ensures status == Connected && old(isRecording) ==>
        recorderCalls == old(recorderCalls) + [Stop] && isRecording == !stopOk
      ensures status == Connected && !old(isRecording) ==>
        && |recorderCalls| > |old(recorderCalls)|
        && recorderCalls[..|old(recorderCalls)| + 1] == old(recorderCalls) + [PrepareToRecord]
        && isRecording == (start == Started)
      ensures |sentUris| <= |old(sentUris)| + 1
    {
      if status != Connected {
        return;
      }
      if isRecording {
        StopRecording(stopOk, uri);
      } else {
        StartRecording(status, start);
      }
    }
  }
}
