/**
 * The state of the detail screen (app/detail.tsx) and its question handler.
 * `handleAskQuestion` is split at its first await: BeginAsk runs the guard,
 * appends the loading pair and builds the context; FinishAsk receives the
 * stored host and the service's response. Its conversation updates go through
 * React's functional updaters, so FinishAsk applies them to the conversation
 * as it is when the response arrives.
 */
module DetailScreen {
  import opened Wrappers
  import opened Service
  import opened Conversation
  import HomeHistory
  import Strings

  const MissingIpAlert := "No se pudo encontrar la IP del servidor."
  const MissingIpError := "Server IP not found"
  const QuestionErrorFallback := "Error al procesar la pregunta."
  const ErrorPrefix := "Error: "

  /** The message of the error a failed question throws: the server's `error` field or a fallback. */
  function QuestionErrorMessage(outcome: QuestionOutcome): (r: string)
    requires !outcome.AnswerOk?
    ensures outcome.AnswerRejected? ==> r != ""
    ensures outcome.AnswerRejected? && (outcome.error.None? || outcome.error.value == "") ==> r == QuestionErrorFallback
    ensures outcome.AnswerRejected? && outcome.error.Some? && outcome.error.value != "" ==> r == outcome.error.value
    ensures outcome.AnswerFailed? ==> r == outcome.message
  {
    match outcome
    case AnswerRejected(error) => Strings.OrElse(error, QuestionErrorFallback)
    case AnswerFailed(message) => message
  }

  class TranscriptionDetail {
    const item: HomeHistory.TranscriptionItem   // the entry passed in the route parameters
    var conversation: seq<QnaPair>
    var currentQuestion: string
    var alerts: seq<string>                    // every alert shown, oldest first
    var requests: seq<Request>                 // every request sent to the service, oldest first

    constructor (item: HomeHistory.TranscriptionItem)
      ensures this.item == item
      ensures conversation == [] && currentQuestion == "" && alerts == [] && requests == []
    {
      this.item := item;
      conversation := [];
      currentQuestion := "";
      alerts := [];
      requests := [];
    }

    method EditQuestion(text: string)
      modifies this
      ensures currentQuestion == text
      ensures unchanged(this`conversation, this`alerts, this`requests)
    {
      currentQuestion := text;
    }

    /**
     * `handleAskQuestion` up to its first await. A refused question changes
     * nothing; otherwise the loading pair is appended, the input is cleared,
     * and the context is built from the conversation as it was before the
     * append.
     */
    method BeginAsk() returns (asked: bool, question: string, context: string)
      modifies this
      ensures asked <==> !RejectsQuestion(old(currentQuestion), item.processedText)
      ensures !asked ==> unchanged(this)
      ensures asked ==>
        && question == old(currentQuestion)
        && conversation == AppendPending(old(conversation), question)
        && currentQuestion == ""
        && context == ContextHeader(item.processedText) + CompletedTurns(old(conversation))
      ensures unchanged(this`alerts, this`requests)
    {
      asked := !RejectsQuestion(currentQuestion, item.processedText);
      if !asked {
        return asked, "", "";
      }
      question := currentQuestion;
      context := BuildContext(item.processedText, conversation);
      conversation := AppendPending(conversation, question);
      currentQuestion := "";
    }

    /**
     * `handleAskQuestion` after its awaits. Without a stored host two alerts
     * are shown and no request is sent; otherwise the request goes out and an
     * ok response answers the pending pairs with this text, while any failure
     * alerts and removes them.
     */
    method FinishAsk(question: string, context: string, storedIp: Option<string>, outcome: QuestionOutcome)
      modifies this
      ensures Strings.OrElse(storedIp, "") == "" ==>
        && requests == old(requests)
        && alerts == old(alerts) + [MissingIpAlert, ErrorPrefix + MissingIpError]
        && conversation == RemovePending(old(conversation), question)
      ensures Strings.OrElse(storedIp, "") != "" ==>
        && requests == old(requests) + [ProcessText(Endpoint(storedIp.value, ProcessTextPath), context, Prompt(question))]
        && alerts == (if outcome.AnswerOk? then old(alerts) else old(alerts) + [ErrorPrefix + QuestionErrorMessage(outcome)])
        && conversation == (if outcome.AnswerOk? then ResolvePending(old(conversation), question, outcome.processedText)
                            else RemovePending(old(conversation), question))
      ensures unchanged(this`currentQuestion)
    {
      if Strings.OrElse(storedIp, "") == "" {
        alerts := alerts + [MissingIpAlert, ErrorPrefix + MissingIpError];
        conversation := RemovePending(conversation, question);
        return;
      }
      requests := requests + [ProcessText(Endpoint(storedIp.value, ProcessTextPath), context, Prompt(question))];
      match outcome
      case AnswerOk(processedText) =>
        conversation := ResolvePending(conversation, question, processedText);
      case _ =>
        alerts := alerts + [ErrorPrefix + QuestionErrorMessage(outcome)];
        conversation := RemovePending(conversation, question);
    }

    /**
     * A whole `handleAskQuestion` with nothing else happening in between. An
     * accepted question sends one request unless no host is stored, and is
     * answered or removed together with any loading pair of the same text;
     * when no such pair was loading, an answered question ends as one
     * completed pair after the earlier ones, and a failed one leaves the
     * conversation as it was.
     */
    method HandleAskQuestion(storedIp: Option<string>, outcome: QuestionOutcome)
      modifies this
      ensures RejectsQuestion(old(currentQuestion), item.processedText) ==> unchanged(this)
      ensures !RejectsQuestion(old(currentQuestion), item.processedText) ==> currentQuestion == ""
      ensures !RejectsQuestion(old(currentQuestion), item.processedText) && Strings.OrElse(storedIp, "") == "" ==>
        && requests == old(requests)
        && alerts == old(alerts) + [MissingIpAlert, ErrorPrefix + MissingIpError]
        && conversation == RemovePending(AppendPending(old(conversation), old(currentQuestion)), old(currentQuestion))
      ensures !RejectsQuestion(old(currentQuestion), item.processedText) && Strings.OrElse(storedIp, "") != "" ==>
        && requests == old(requests) + [ProcessText(Endpoint(storedIp.value, ProcessTextPath),
                                                    ContextHeader(item.processedText) + CompletedTurns(old(conversation)),
                                                    Prompt(old(currentQuestion)))]
        && alerts == (if outcome.AnswerOk? then old(alerts) else old(alerts) + [ErrorPrefix + QuestionErrorMessage(outcome)])
        && conversation == (if outcome.AnswerOk?
                            then ResolvePending(AppendPending(old(conversation), old(currentQuestion)), old(currentQuestion),
                                                outcome.processedText)
                            else RemovePending(AppendPending(old(conversation), old(currentQuestion)), old(currentQuestion)))
      ensures !RejectsQuestion(old(currentQuestion), item.processedText) && !HasPending(old(conversation), old(currentQuestion)) ==>
        && currentQuestion == ""
        && conversation == (if Strings.OrElse(storedIp, "") != "" && outcome.AnswerOk?
                            then old(conversation) + [QnaPair(old(currentQuestion), outcome.processedText, false)]
                            else old(conversation))
    {
      ghost var before := conversation;
      var asked, question, context := BeginAsk();
      if asked {
        FinishAsk(question, context, storedIp, outcome);
        if !HasPending(before, question) {
          if Strings.OrElse(storedIp, "") != "" && outcome.AnswerOk? {
            ResolveAfterAsk(before, question, outcome.processedText);
          } else {
            RemoveAfterAsk(before, question);
          }
        }
      }
    }
  }
}
