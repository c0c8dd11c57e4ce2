/**
 * The follow-up questions of the detail screen (app/detail.tsx) as values:
 * the guard that refuses a question, the loading pair a question appends, the
 * context string built from the completed pairs, the prompt, and the
 * resolve-by-text and remove-by-text updates that follow the response.
 */
module Conversation {
  import opened Wrappers
  import Strings

  /** A question and its answer; `answer` is None when the service sent none (JavaScript `undefined`). */
  datatype QnaPair = QnaPair(question: string, answer: Option<string>, isLoading: bool)

  const ContextLabel := "CONTEXTO:\n"
  const PreviousQuestionLabel := "PREGUNTA ANTERIOR: "
  const PreviousAnswerLabel := "\nRESPUESTA ANTERIOR: "
  const LanguageDirective := "dame la respuesta en español"

  /** The pairs a response for `question` applies to: same text and still loading. */
  predicate Pending(p: QnaPair, question: string) {
    p.question == question && p.isLoading
  }

  predicate HasPending(conversation: seq<QnaPair>, question: string) {
    exists i :: 0 <= i < |conversation| && Pending(conversation[i], question)
  }

  // ---------------------------------------------------------------------------
  // Asking
  // ---------------------------------------------------------------------------

  /** `!currentQuestion.trim() || !item.processedText`: the question is ignored. */
  predicate RejectsQuestion(question: string, processedText: string) {
    Strings.Trim(question) == "" || processedText == ""
  }

  /** A question is refused exactly when it is blank or the entry has no processed text. */
  lemma RejectsQuestionIff(question: string, processedText: string)
    ensures RejectsQuestion(question, processedText) <==> Strings.IsBlank(question) || processedText == ""
  {
    Strings.TrimEmptyIffBlank(question);
  }

  function PendingPair(question: string): QnaPair {
    QnaPair(question, Some(""), true)
  }

  /** `[...prev, { question, answer: '', isLoading: true }]`. */
  function AppendPending(conversation: seq<QnaPair>, question: string): seq<QnaPair> {
    conversation + [PendingPair(question)]
  }

  /** Asking adds exactly one loading pair at the end and leaves the earlier pairs alone. */
  lemma AskAppendsOnePair(conversation: seq<QnaPair>, question: string)
    ensures |AppendPending(conversation, question)| == |conversation| + 1
    ensures AppendPending(conversation, question)[..|conversation|] == conversation
    ensures AppendPending(conversation, question)[|conversation|] == QnaPair(question, Some(""), true)
  {
  }

  /** `question + 'dame la respuesta en español'`: no separator in between. */
  function Prompt(question: string): string {
    question + LanguageDirective
  }

  /** The prompt is the question followed immediately by the fixed directive. */
  lemma PromptParts(question: string)
    ensures |Prompt(question)| == |question| + |LanguageDirective|
    ensures Prompt(question)[..|question|] == question
    ensures Prompt(question)[|question|..] == LanguageDirective
  {
  }

  // ---------------------------------------------------------------------------
  // The context string
  // ---------------------------------------------------------------------------

  /** How `${qna.answer}` renders: `undefined` prints as the word itself. */
  function AnswerText(answer: Option<string>): string {
    answer.GetOr("undefined")
  }

  /** The block one completed pair contributes. */
  function Turn(p: QnaPair): string {
    PreviousQuestionLabel + p.question + PreviousAnswerLabel + AnswerText(p.answer) + "\n"
  }

  function ContextHeader(processedText: string): string {
    ContextLabel + processedText + "\n\n"
  }

  /** What one pair adds to the context: its block when completed, nothing while loading. */
  function Contribution(p: QnaPair): string {
    if p.isLoading then "" else Turn(p)
  }

  /** The blocks of the non-loading pairs, in order; defined from the last pair backwards. */
  function CompletedTurns(conversation: seq<QnaPair>): string
    decreases |conversation|
  {
    if conversation == [] then ""
    else CompletedTurns(conversation[..|conversation| - 1]) + Contribution(conversation[|conversation| - 1])
  }

  lemma CompletedTurnsUnfold(conversation: seq<QnaPair>)
    requires conversation != []
    ensures CompletedTurns(conversation)
         == CompletedTurns(conversation[..|conversation| - 1]) + Contribution(conversation[|conversation| - 1])
  {
  }

  /** The `let context` / `forEach` loop of `handleAskQuestion`, over the conversation as it was before asking. */
  method BuildContext(processedText: string, conversation: seq<QnaPair>) returns (context: string)
    ensures context == ContextHeader(processedText) + CompletedTurns(conversation)
  {
    context := ContextHeader(processedText);
    for i := 0 to |conversation|
      invariant context == ContextHeader(processedText) + CompletedTurns(conversation[..i])
    {
      var qna := conversation[i];
      assert conversation[..i + 1][..i] == conversation[..i];
      CompletedTurnsUnfold(conversation[..i + 1]);
      Strings.ConcatAssoc(ContextHeader(processedText), CompletedTurns(conversation[..i]), Contribution(qna));
      if !qna.isLoading {
        context := context + Turn(qna);
      }
    }
    assert conversation[..|conversation|] == conversation;
  }

  /** The non-loading pairs, in order (`filter`, from the front). */
  function Completed(conversation: seq<QnaPair>): (r: seq<QnaPair>)
    ensures forall p :: p in r <==> p in conversation && !p.isLoading
    decreases |conversation|
  {
    if conversation == [] then []
    else (if conversation[0].isLoading then [] else [conversation[0]]) + Completed(conversation[1..])
  }

  /** The blocks of all the given pairs, from the front. */
  function JoinTurns(pairs: seq<QnaPair>): string
    decreases |pairs|
  {
    if pairs == [] then "" else Turn(pairs[0]) + JoinTurns(pairs[1..])
  }

  /** The blocks of a concatenation are the blocks of each part. */
  lemma {:induction false} CompletedTurnsConcat(a: seq<QnaPair>, b: seq<QnaPair>)
    ensures CompletedTurns(a + b) == CompletedTurns(a) + CompletedTurns(b)
    decreases |b|
  {
    if b == [] {
      assert a + b == a;
    } else {
      var init, last := b[..|b| - 1], b[|b| - 1];
      assert (a + b)[..|a + b| - 1] == a + init;
      assert (a + b)[|a + b| - 1] == last;
      calc {
        CompletedTurns(a + b);
        { CompletedTurnsUnfold(a + b); }
        CompletedTurns(a + init) + Contribution(last);
        { CompletedTurnsConcat(a, init); }
        (CompletedTurns(a) + CompletedTurns(init)) + Contribution(last);
        { Strings.ConcatAssoc(CompletedTurns(a), CompletedTurns(init), Contribution(last)); }
        CompletedTurns(a) + (CompletedTurns(init) + Contribution(last));
        { CompletedTurnsUnfold(b); }
        CompletedTurns(a) + CompletedTurns(b);
      }
    }
  }

  /**
   * The context holds one block per completed pair and nothing for a loading
   * one: the loop agrees with filtering the completed pairs and joining their
   * blocks.
   */
  lemma {:induction false} CompletedTurnsReference(conversation: seq<QnaPair>)
    ensures CompletedTurns(conversation) == JoinTurns(Completed(conversation))
    decreases |conversation|
  {
    if conversation != [] {
      var x, rest := conversation[0], conversation[1..];
      calc {
        CompletedTurns(conversation);
        { assert conversation == [x] + rest; }
        CompletedTurns([x] + rest);
        { CompletedTurnsConcat([x], rest); }
        CompletedTurns([x]) + CompletedTurns(rest);
        { CompletedTurnsSingle(x); }
        Contribution(x) + CompletedTurns(rest);
        { CompletedTurnsReference(rest); }
        Contribution(x) + JoinTurns(Completed(rest));
        { JoinTurnsCompletedCons(conversation); }
        JoinTurns(Completed(conversation));
      }
    }
  }

  lemma CompletedTurnsSingle(x: QnaPair)
    ensures CompletedTurns([x]) == Contribution(x)
  {
    assert [x][..0] == [];
  }

  /** Filtering then joining, one pair at the front. */
  lemma JoinTurnsCompletedCons(conversation: seq<QnaPair>)
    requires conversation != []
    ensures JoinTurns(Completed(conversation)) == Contribution(conversation[0]) + JoinTurns(Completed(conversation[1..]))
  {
    var x, tail := conversation[0], Completed(conversation[1..]);
    if x.isLoading {
      assert Completed(conversation) == tail;
    } else {
      assert Completed(conversation) == [x] + tail;
      assert ([x] + tail)[1..] == tail;
    }
  }

  /** The pair a question appends would add nothing to its own context either. */
  lemma ContextIgnoresNewPending(conversation: seq<QnaPair>, question: string)
    ensures CompletedTurns(AppendPending(conversation, question)) == CompletedTurns(conversation)
  {
    assert AppendPending(conversation, question)[..|conversation|] == conversation;
  }

  // ---------------------------------------------------------------------------
  // Resolving and removing by question text
  // ---------------------------------------------------------------------------

  /**
   * `prev.map(qna => qna.question === q && qna.isLoading ? { ...qna, answer, isLoading: false } : qna)`:
   * every pending pair with that text is answered, every other pair is kept.
   */
  function ResolvePending(conversation: seq<QnaPair>, question: string, answer: Option<string>): (r: seq<QnaPair>)
    ensures |r| == |conversation|
    ensures forall i :: 0 <= i < |r| && !Pending(conversation[i], question) ==> r[i] == conversation[i]
    ensures forall i :: 0 <= i < |r| && Pending(conversation[i], question) ==> r[i] == QnaPair(question, answer, false)
    ensures !HasPending(r, question)
    decreases |conversation|
  {
    if conversation == [] then []
    else
      [Answered(conversation[0], question, answer)] + ResolvePending(conversation[1..], question, answer)
  }

  /** `prev.filter(qna => !(qna.question === q && qna.isLoading))`. */
  function RemovePending(conversation: seq<QnaPair>, question: string): (r: seq<QnaPair>)
    ensures forall p :: p in r <==> p in conversation && !Pending(p, question)
    ensures !HasPending(r, question)
    ensures !HasPending(conversation, question) ==> r == conversation
    decreases |conversation|
  {
    if conversation == [] then []
    else if Pending(conversation[0], question) then RemovePending(conversation[1..], question)
    else [conversation[0]] + RemovePending(conversation[1..], question)
  }

  /** Removing distributes over concatenation, so the kept pairs stay in order. */
  lemma {:induction false} RemovePendingConcat(a: seq<QnaPair>, b: seq<QnaPair>, question: string)
    ensures RemovePending(a + b, question) == RemovePending(a, question) + RemovePending(b, question)
    decreases |a|
  {
    if a == [] {
      assert a + b == b;
    } else {
      assert (a + b)[1..] == a[1..] + b;
      RemovePendingConcat(a[1..], b, question);
    }
  }

  /** With no earlier pending copy of the question, a success answers exactly the pair just appended. */
  lemma ResolveAfterAsk(conversation: seq<QnaPair>, question: string, answer: Option<string>)
    requires !HasPending(conversation, question)
    ensures ResolvePending(AppendPending(conversation, question), question, answer)
         == conversation + [QnaPair(question, answer, false)]
  {
    ResolvePendingConcat(conversation, [PendingPair(question)], question, answer);
    ResolveNothingPending(conversation, question, answer);
    ResolvePendingCons([PendingPair(question)], question, answer);
    assert [PendingPair(question)][1..] == [];
  }

  /** A conversation with no loading pair of that text is left as it is. */
  lemma ResolveNothingPending(conversation: seq<QnaPair>, question: string, answer: Option<string>)
    requires !HasPending(conversation, question)
    ensures ResolvePending(conversation, question, answer) == conversation
  {
    var r := ResolvePending(conversation, question, answer);
    assert forall i :: 0 <= i < |r| ==> r[i] == conversation[i];
  }

  /** What answering does to one pair. */
  function Answered(p: QnaPair, question: string, answer: Option<string>): QnaPair {
    if Pending(p, question) then QnaPair(question, answer, false) else p
  }

  lemma ResolvePendingCons(conversation: seq<QnaPair>, question: string, answer: Option<string>)
    requires conversation != []
    ensures ResolvePending(conversation, question, answer)
         == [Answered(conversation[0], question, answer)] + ResolvePending(conversation[1..], question, answer)
  {
  }

  /** Answering distributes over concatenation. */
  lemma ResolvePendingConcat(a: seq<QnaPair>, b: seq<QnaPair>, question: string, answer: Option<string>)
    ensures ResolvePending(a + b, question, answer) == ResolvePending(a, question, answer) + ResolvePending(b, question, answer)
  {
    var whole, ra, rb := ResolvePending(a + b, question, answer), ResolvePending(a, question, answer),
                         ResolvePending(b, question, answer);
    forall i | 0 <= i < |whole| ensures whole[i] == (ra + rb)[i] {
      if i < |a| {
        assert (a + b)[i] == a[i];
      } else {
        assert (a + b)[i] == b[i - |a|];
      }
    }
  }

  /** With no earlier pending copy of the question, a failure restores the conversation exactly. */
  lemma RemoveAfterAsk(conversation: seq<QnaPair>, question: string)
    requires !HasPending(conversation, question)
    ensures RemovePending(AppendPending(conversation, question), question) == conversation
  {
    RemovePendingConcat(conversation, [PendingPair(question)], question);
    assert RemovePending([PendingPair(question)], question) == [];
  }

  /**
   * Matching by text cannot tell two identical questions in flight apart: the
   * first response answers both, and the second response then finds nothing
   * to answer or to remove.
   */
  lemma IdenticalQuestionsResolveTogether(conversation: seq<QnaPair>, question: string, first: Option<string>,
                                          second: Option<string>)
    requires !HasPending(conversation, question)
    ensures var twice := AppendPending(AppendPending(conversation, question), question);
      var answered := ResolvePending(twice, question, first);
      && answered == conversation + [QnaPair(question, first, false), QnaPair(question, first, false)]
      && ResolvePending(answered, question, second) == answered
      && RemovePending(answered, question) == answered
  {
    var once := AppendPending(conversation, question);
    var twice := AppendPending(once, question);
    var answered := ResolvePending(twice, question, first);
    var done := QnaPair(question, first, false);
    assert answered[..|conversation|] == conversation by {
      forall i | 0 <= i < |conversation| ensures answered[i] == conversation[i] {
        assert twice[i] == conversation[i];
      }
    }
    assert answered == answered[..|conversation|] + [answered[|conversation|], answered[|conversation| + 1]];
    var again := ResolvePending(answered, question, second);
    assert again == answered;
  }

  /**
   * Two questions asked one after the other, both answered: the conversation
   * holds both completed pairs in the order asked, and the second question's
   * context carries the first one's answer.
   */
  lemma QuestionsInSequence(processedText: string, a: string, answerA: Option<string>, b: string, answerB: Option<string>)
    ensures var afterA := ResolvePending(AppendPending([], a), a, answerA);
      var afterB := ResolvePending(AppendPending(afterA, b), b, answerB);
      && afterA == [QnaPair(a, answerA, false)]
      && afterB == [QnaPair(a, answerA, false), QnaPair(b, answerB, false)]
      && CompletedTurns(afterA) == Turn(QnaPair(a, answerA, false))
  {
    var empty: seq<QnaPair> := [];
    ResolveAfterAsk(empty, a, answerA);
    var afterA := ResolvePending(AppendPending(empty, a), a, answerA);
    assert !HasPending(afterA, b) by {
      assert afterA == [QnaPair(a, answerA, false)];
    }
    ResolveAfterAsk(afterA, b, answerB);
    assert afterA[..0] == [];
  }
}
