/**
 * The state of the home screen (app/index.tsx) and the event handlers that
 * change it: editing the host, connecting to the service, and uploading a
 * recording with its optimistic history update. Each handler that awaits the
 * network is split at its await into a Begin and a Finish method; the response
 * is a parameter of Finish. Storage is modelled by the values last written.
 */
module HomeScreen {
  import opened Wrappers
  import opened Service
  import opened HomeHistory
  import Strings

  const NoIpNotice := "Por favor, introduce una IP"
  const ConnectedNotice := "Conectado al servidor"
  const TimeoutNotice := "Error: El tiempo de espera para la conexión se ha agotado."
  const ConnectionErrorNotice := "Error de conexión con el servidor"

  const SummaryPrompt := "Hazme un resumen de la siguiente transcripción. En español. Solo pon el resumen, sin comentarios."
  const AudioMimeType := "audio/m4a"
  const ServerErrorFallback := "Error en el servidor"
  const UploadErrorPrefix := "Error en el proceso: "

  /** The notice a finished health probe shows: a timeout is told apart from every other failure. */
  function ConnectNotice(outcome: HealthOutcome): (r: string)
    ensures r == ConnectedNotice <==> outcome == HealthOk
    ensures r == TimeoutNotice <==> outcome == HealthAborted
    ensures outcome == HealthNotOk || outcome == HealthNetworkError ==> r == ConnectionErrorNotice
  {
    match outcome
    case HealthOk => ConnectedNotice
    case HealthAborted => TimeoutNotice
    case _ => ConnectionErrorNotice
  }

  /** The message of the error a failed upload throws: the server's `error` field or a fallback. */
  function UploadErrorMessage(outcome: UploadOutcome): (r: string)
    requires !outcome.UploadOk?
    ensures outcome.UploadRejected? ==> r != ""
    ensures outcome.UploadRejected? && (outcome.error.None? || outcome.error.value == "") ==> r == ServerErrorFallback
    ensures outcome.UploadRejected? && outcome.error.Some? && outcome.error.value != "" ==> r == outcome.error.value
    ensures outcome.UploadFailed? ==> r == outcome.message
  {
    match outcome
    case UploadRejected(error) => Strings.OrElse(error, ServerErrorFallback)
    case UploadFailed(message) => message
  }

  /** A rejected upload's notice shows the server's error text after the fixed prefix, e.g. "Error en el proceso: falló". */
  lemma RejectedUploadNoticeShowsError(error: string)
    requires error != ""
    ensures var notice := UploadErrorPrefix + UploadErrorMessage(UploadRejected(Some(error)));
      notice[..|UploadErrorPrefix|] == UploadErrorPrefix && notice[|UploadErrorPrefix|..] == error
  {
  }

  function AudioFileName(id: string): string {
    "audio-" + id + ".m4a"
  }

  class App {
    var serverIp: string
    var serverStatus: Status
    var history: seq<TranscriptionItem>
    var notices: seq<string>             // every toast shown, oldest first
    var serverSectionExpanded: bool
    var savedIp: Option<string>          // what storage holds under 'serverIp'
    var savedHistory: Option<seq<TranscriptionItem>>  // what storage holds under 'transcriptionHistory'
    var requests: seq<Request>           // every request sent to the service, oldest first

    /** The screen once the stored host and history have been read at launch. */
    constructor (storedIp: Option<string>, storedHistory: Option<seq<TranscriptionItem>>)
      ensures serverIp == Strings.OrElse(storedIp, "")
      ensures serverStatus == Disconnected
      ensures history == storedHistory.GetOr([])
      ensures notices == [] && requests == [] && serverSectionExpanded
      ensures savedIp == storedIp && savedHistory == storedHistory
    {
      serverIp := Strings.OrElse(storedIp, "");
      serverStatus := Disconnected;
      history := storedHistory.GetOr([]);
      notices := [];
      serverSectionExpanded := true;
      savedIp := storedIp;
      savedHistory := storedHistory;
      requests := [];
    }

    /** The host field accepts input except while a probe is in flight. */
    method EditServerIp(text: string)
      modifies this
      ensures serverIp == if old(serverStatus) == Connecting then old(serverIp) else text
      ensures unchanged(this`serverStatus, this`history, this`notices, this`serverSectionExpanded)
      ensures unchanged(this`savedIp, this`savedHistory, this`requests)
    {
      if serverStatus != Connecting {
        serverIp := text;
      }
    }

    method ToggleServerSection()
      modifies this
      ensures serverSectionExpanded == !old(serverSectionExpanded)
      ensures unchanged(this`serverIp, this`serverStatus, this`history, this`notices)
      ensures unchanged(this`savedIp, this`savedHistory, this`requests)
    {
      serverSectionExpanded := !serverSectionExpanded;
    }

    /** `handleConnect` up to its await: an empty host only shows a notice; otherwise the probe starts. */
    method BeginConnect() returns (probing: bool)
      modifies this
      ensures probing <==> old(serverIp) != ""
      ensures !probing ==>
        && serverStatus == old(serverStatus)
        && notices == old(notices) + [NoIpNotice]
        && requests == old(requests)
      ensures probing ==>
        && serverStatus == Connecting
        && notices == old(notices)
        && requests == old(requests) + [HealthCheck(Endpoint(serverIp, HealthPath))]
      ensures unchanged(this`serverIp, this`history, this`serverSectionExpanded, this`savedIp, this`savedHistory)
    {
      if serverIp == "" {
        notices := notices + [NoIpNotice];
        return false;
      }
      serverStatus := Connecting;
      requests := requests + [HealthCheck(Endpoint(serverIp, HealthPath))];
      probing := true;
    }

    /** `handleConnect` after its await: connected, host saved and section collapsed only on an ok response. */
    method FinishConnect(outcome: HealthOutcome)
      modifies this
      ensures serverStatus == if outcome == HealthOk then Connected else Disconnected
      ensures savedIp == if outcome == HealthOk then Some(serverIp) else old(savedIp)
      ensures serverSectionExpanded == if outcome == HealthOk then false else old(serverSectionExpanded)
      ensures notices == old(notices) + [ConnectNotice(outcome)]
      ensures unchanged(this`serverIp, this`history, this`savedHistory, this`requests)
    {
      if outcome == HealthOk {
        serverStatus := Connected;
        savedIp := Some(serverIp);
        notices := notices + [ConnectedNotice];
        serverSectionExpanded := false;
      } else {
        serverStatus := Disconnected;
        if outcome == HealthAborted {
          notices := notices + [TimeoutNotice];
        } else {
          notices := notices + [ConnectionErrorNotice];
        }
      }
    }

    /**
     * A whole `handleConnect`: with an empty host nothing but a notice; otherwise
     * one probe, and the status ends connected exactly when the response was ok,
     * disconnected on every other path, never left at connecting.
     */
    method HandleConnect(outcome: HealthOutcome)
      modifies this
      ensures old(serverIp) == "" ==>
        && serverStatus == old(serverStatus)
        && requests == old(requests)
        && savedIp == old(savedIp)
        && notices == old(notices) + [NoIpNotice]
      ensures old(serverIp) != "" ==>
        && serverStatus == (if outcome == HealthOk then Connected else Disconnected)
        && requests == old(requests) + [HealthCheck(Endpoint(serverIp, HealthPath))]
        && savedIp == (if outcome == HealthOk then Some(serverIp) else old(savedIp))
        && notices == old(notices) + [ConnectNotice(outcome)]
      ensures serverSectionExpanded == if old(serverIp) != "" && outcome == HealthOk then false else old(serverSectionExpanded)
      ensures serverStatus == Connecting ==> old(serverStatus) == Connecting && old(serverIp) == ""
      ensures unchanged(this`serverIp, this`history, this`savedHistory)
    {
      var probing := BeginConnect();
      if probing {
        FinishConnect(outcome);
      }
    }

    /** The connect button, which is disabled while a probe is in flight. */
    method PressConnect(outcome: HealthOutcome)
      modifies this
      ensures old(serverStatus) == Connecting ==> unchanged(this)
      ensures old(serverStatus) != Connecting ==> serverStatus != Connecting
      ensures serverStatus == Connected ==> (old(serverIp) != "" && outcome == HealthOk) || old(serverStatus) == Connected
      ensures unchanged(this`serverIp, this`history, this`savedHistory)
    {
      if serverStatus != Connecting {
        HandleConnect(outcome);
      }
    }

    /** `sendAudioFile` up to its await: the placeholder goes in front and the upload is sent. */
    method BeginUpload(uri: string, tempId: string, timestamp: string) returns (withLoader: seq<TranscriptionItem>)
      modifies this
      ensures withLoader == WithPlaceholder(old(history), tempId, timestamp) && history == withLoader
      ensures requests == old(requests) +
        [TranscribeAndProcess(Endpoint(serverIp, TranscribePath), uri, AudioFileName(tempId), AudioMimeType, SummaryPrompt)]
      ensures unchanged(this`serverIp, this`serverStatus, this`notices, this`serverSectionExpanded)
      ensures unchanged(this`savedIp, this`savedHistory)
    {
      withLoader := WithPlaceholder(history, tempId, timestamp);
      history := withLoader;
      requests := requests +
        [TranscribeAndProcess(Endpoint(serverIp, TranscribePath), uri, AudioFileName(tempId), AudioMimeType, SummaryPrompt)];
    }

    /**
     * `sendAudioFile` after its await. The new history is computed from the
     * snapshot `withLoader` taken before the await, whatever the history holds
     * now; it is written to storage on success only, and a failure shows the
     * error instead.
     */
    method FinishUpload(withLoader: seq<TranscriptionItem>, tempId: string, timestamp: string, outcome: UploadOutcome)
      modifies this
      ensures history == ReconcileUpload(withLoader, tempId, timestamp, outcome)
      ensures savedHistory == if outcome.UploadOk? then Some(history) else old(savedHistory)
      ensures notices == if outcome.UploadOk? then old(notices)
                         else old(notices) + [UploadErrorPrefix + UploadErrorMessage(outcome)]
      ensures unchanged(this`serverIp, this`serverStatus, this`serverSectionExpanded, this`savedIp, this`requests)
    {
      history := ReconcileUpload(withLoader, tempId, timestamp, outcome);
      if outcome.UploadOk? {
        savedHistory := Some(history);
      } else {
        notices := notices + [UploadErrorPrefix + UploadErrorMessage(outcome)];
      }
    }

    /**
     * A whole `sendAudioFile` with nothing else happening in between: for a
     * fresh id, success puts the completed entry where the placeholder was in
     * front of the unchanged history, and failure restores the history.
     */
    method SendAudioFile(uri: string, tempId: string, timestamp: string, outcome: UploadOutcome)
      modifies this
      ensures history == ReconcileUpload(WithPlaceholder(old(history), tempId, timestamp), tempId, timestamp, outcome)
      ensures !HasId(old(history), tempId) ==>
        history == match outcome
                   case UploadOk(o, p) => [CompletedItem(tempId, timestamp, o, p)] + old(history)
                   case _ => old(history)
      ensures savedHistory == if outcome.UploadOk? then Some(history) else old(savedHistory)
      ensures notices == if outcome.UploadOk? then old(notices)
                         else old(notices) + [UploadErrorPrefix + UploadErrorMessage(outcome)]
      ensures requests == old(requests) +
        [TranscribeAndProcess(Endpoint(serverIp, TranscribePath), uri, AudioFileName(tempId), AudioMimeType, SummaryPrompt)]
      ensures unchanged(this`serverIp, this`serverStatus, this`serverSectionExpanded, this`savedIp)
    {
      ghost var before := history;
      var withLoader := BeginUpload(uri, tempId, timestamp);
      FinishUpload(withLoader, tempId, timestamp, outcome);
      if !HasId(before, tempId) {
        match outcome
        case UploadOk(o, p) => UploadSuccessInPlace(before, tempId, timestamp, o, p);
        case _ => UploadFailureLeavesNoTrace(before, tempId, timestamp, outcome);
      }
    }
  }
}
