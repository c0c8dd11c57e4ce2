/**
 * What the screens see of the remote transcription service: the connection
 * status, the requests they issue, and the outcome of each request, which the
 * model receives as an input instead of performing the HTTP call.
 */
module Service {
  import opened Wrappers

  /** The connection status shared by the home screen and the record button. */
  datatype Status = Disconnected | Connecting | Connected

  /** The service always listens on this port of the host the user typed. */
  const Port := "3000"

  /** `http://${host}:3000${path}`. */
  function Endpoint(host: string, path: string): string {
    "http://" + host + ":" + Port + path
  }

  const HealthPath := "/health"
  const TranscribePath := "/transcribe-and-process"
  const ProcessTextPath := "/process-text"

  /** A request sent to the service, with the parts of its body the model keeps. */
  datatype Request =
    | HealthCheck(url: string)
    | TranscribeAndProcess(url: string, audioUri: string, fileName: string, mimeType: string, prompt: string)
    | ProcessText(url: string, text: string, prompt: string)

  /** How a `/health` probe ended. */
  datatype HealthOutcome =
    | HealthOk             // a response whose status is 2xx
    | HealthNotOk          // a response with any other status
    | HealthAborted        // the 5-second abort controller fired
    | HealthNetworkError   // fetch rejected for another reason

  /** How a `/transcribe-and-process` upload ended. */
  datatype UploadOutcome =
    | UploadOk(originalTranscription: Option<string>, processedText: Option<string>)  // 2xx with a JSON body
    | UploadRejected(error: Option<string>)                                           // non-2xx with a JSON body
    | UploadFailed(message: string)                                                    // fetch or body parsing threw

  /** How a `/process-text` follow-up question ended. */
  datatype QuestionOutcome =
    | AnswerOk(processedText: Option<string>)   // 2xx with a JSON body
    | AnswerRejected(error: Option<string>)     // non-2xx with a JSON body
    | AnswerFailed(message: string)             // fetch or body parsing threw
}
