/**
 * The transcription history of the home screen (app/index.tsx) as values:
 * the loading placeholder an upload prepends, the replace-by-id and
 * remove-by-id reconciliations that follow the response, the guard that
 * decides whether an entry opens the detail screen, and the text an entry's
 * copy button puts on the clipboard.
 */
module HomeHistory {
  import opened Wrappers
  import opened Service
  import Strings

  /** One history entry; entries read back from storage without `isLoading` have it false. */
  datatype TranscriptionItem = TranscriptionItem(
    id: string,
    timestamp: string,
    originalTranscription: string,
    processedText: string,
    isLoading: bool)

  const PlaceholderTranscription := "Transcribiendo..."
  const MissingTranscription := "No se pudo obtener la transcripción."
  const MissingProcessedText := "No se pudo procesar el texto."

  predicate HasId(history: seq<TranscriptionItem>, id: string) {
    exists i :: 0 <= i < |history| && history[i].id == id
  }

  // ---------------------------------------------------------------------------
  // Placeholder and completed entries
  // ---------------------------------------------------------------------------

  /** The entry shown while the upload with this id is in flight. */
  function Placeholder(id: string, timestamp: string): TranscriptionItem {
    TranscriptionItem(id, timestamp, PlaceholderTranscription, "", true)
  }

  /** `[tempItem, ...transcriptionHistory]`. */
  function WithPlaceholder(history: seq<TranscriptionItem>, id: string, timestamp: string): seq<TranscriptionItem> {
    [Placeholder(id, timestamp)] + history
  }

  /** Prepending the placeholder adds one loading entry at the head and keeps the rest. */
  lemma PlaceholderPrepended(history: seq<TranscriptionItem>, id: string, timestamp: string)
    ensures |WithPlaceholder(history, id, timestamp)| == |history| + 1
    ensures WithPlaceholder(history, id, timestamp)[1..] == history
    ensures var head := WithPlaceholder(history, id, timestamp)[0];
      head.id == id && head.timestamp == timestamp && head.isLoading &&
      head.processedText == "" && head.originalTranscription == PlaceholderTranscription
  {
  }

  /**
   * The entry built from a successful response: it keeps the placeholder's id
   * and timestamp, stops loading, and takes each text field from the response
   * unless that field is missing or empty, in which case a fixed notice.
   */
  function CompletedItem(id: string, timestamp: string, originalTranscription: Option<string>,
                         processedText: Option<string>): (r: TranscriptionItem)
    ensures r.id == id && r.timestamp == timestamp && !r.isLoading
    ensures r.originalTranscription != "" && r.processedText != ""
    ensures r.originalTranscription ==
      (if originalTranscription.Some? && originalTranscription.value != "" then originalTranscription.value
       else MissingTranscription)
    ensures r.processedText ==
      (if processedText.Some? && processedText.value != "" then processedText.value
       else MissingProcessedText)
  {
    TranscriptionItem(id, timestamp,
      Strings.OrElse(originalTranscription, MissingTranscription),
      Strings.OrElse(processedText, MissingProcessedText),
      false)
  }

  // ---------------------------------------------------------------------------
  // Reconciliation
  // ---------------------------------------------------------------------------

  /** `history.map(item => item.id === id ? replacement : item)`. */
  function ReplaceById(history: seq<TranscriptionItem>, id: string, replacement: TranscriptionItem): (r: seq<TranscriptionItem>)
    ensures |r| == |history|
    ensures forall i :: 0 <= i < |history| && history[i].id != id ==> r[i] == history[i]
    ensures forall i :: 0 <= i < |history| && history[i].id == id ==> r[i] == replacement
    decreases |history|
  {
    if history == [] then []
    else [if history[0].id == id then replacement else history[0]] + ReplaceById(history[1..], id, replacement)
  }

  /** `history.filter(item => item.id !== id)`. */
  function RemoveById(history: seq<TranscriptionItem>, id: string): (r: seq<TranscriptionItem>)
    ensures forall x :: x in r <==> x in history && x.id != id
    ensures !HasId(r, id)
    ensures |r| <= |history|
    ensures !HasId(history, id) ==> r == history
    decreases |history|
  {
    if history == [] then []
    else if history[0].id == id then RemoveById(history[1..], id)
    else [history[0]] + RemoveById(history[1..], id)
  }

  /** The list the upload's outcome leaves, computed from the snapshot that held the placeholder. */
  function ReconcileUpload(withLoader: seq<TranscriptionItem>, id: string, timestamp: string,
                           outcome: UploadOutcome): (r: seq<TranscriptionItem>)
    ensures outcome.UploadOk? ==> |r| == |withLoader|
    ensures outcome.UploadOk? ==> forall i :: 0 <= i < |r| ==> !r[i].isLoading || withLoader[i].id != id
    ensures !outcome.UploadOk? ==> !HasId(r, id) && |r| <= |withLoader|
  {
    match outcome
    case UploadOk(original, processed) => ReplaceById(withLoader, id, CompletedItem(id, timestamp, original, processed))
    case _ => RemoveById(withLoader, id)
  }

  /** Filtering distributes over concatenation, so it keeps the relative order of the survivors. */
  lemma {:induction false} RemoveByIdConcat(a: seq<TranscriptionItem>, b: seq<TranscriptionItem>, id: string)
    ensures RemoveById(a + b, id) == RemoveById(a, id) + RemoveById(b, id)
    decreases |a|
  {
    if a == [] {
      assert a + b == b;
    } else {
      var x, rest := a[0], a[1..];
      calc {
        RemoveById(a + b, id);
        { RemoveByIdCons(a + b, id); assert (a + b)[0] == x; assert (a + b)[1..] == rest + b; }
        Kept(x, id) + RemoveById(rest + b, id);
        { RemoveByIdConcat(rest, b, id); }
        Kept(x, id) + (RemoveById(rest, id) + RemoveById(b, id));
        { Strings.ConcatAssoc(Kept(x, id), RemoveById(rest, id), RemoveById(b, id)); }
        (Kept(x, id) + RemoveById(rest, id)) + RemoveById(b, id);
        { RemoveByIdCons(a, id); }
        RemoveById(a, id) + RemoveById(b, id);
      }
    }
  }

  /** What the filter keeps of one entry. */
  function Kept(x: TranscriptionItem, id: string): seq<TranscriptionItem> {
    if x.id == id then [] else [x]
  }

  lemma RemoveByIdCons(history: seq<TranscriptionItem>, id: string)
    requires history != []
    ensures RemoveById(history, id) == Kept(history[0], id) + RemoveById(history[1..], id)
  {
  }

  /** Replacing the entries with `id` by an entry with the same id and then dropping them drops them. */
  lemma {:induction false} RemoveAfterReplace(history: seq<TranscriptionItem>, id: string, replacement: TranscriptionItem)
    requires replacement.id == id
    ensures RemoveById(ReplaceById(history, id, replacement), id) == RemoveById(history, id)
    decreases |history|
  {
    if history != [] {
      var r := ReplaceById(history, id, replacement);
      assert r[1..] == ReplaceById(history[1..], id, replacement);
      RemoveAfterReplace(history[1..], id, replacement);
    }
  }

  /** On success the entry that was the placeholder is completed in place; nothing else moves. */
  lemma UploadSuccessInPlace(history: seq<TranscriptionItem>, id: string, timestamp: string,
                             original: Option<string>, processed: Option<string>)
    requires !HasId(history, id)
    ensures ReconcileUpload(WithPlaceholder(history, id, timestamp), id, timestamp, UploadOk(original, processed))
         == [CompletedItem(id, timestamp, original, processed)] + history
  {
    var item := CompletedItem(id, timestamp, original, processed);
    var r := ReplaceById(WithPlaceholder(history, id, timestamp), id, item);
    assert r[1..] == history by {
      forall i | 0 <= i < |history| ensures r[1..][i] == history[i] {
        assert WithPlaceholder(history, id, timestamp)[i + 1] == history[i];
      }
    }
  }

  /** On failure no entry with the id survives, and a history that never had the id is restored exactly. */
  lemma UploadFailureLeavesNoTrace(history: seq<TranscriptionItem>, id: string, timestamp: string, outcome: UploadOutcome)
    requires !outcome.UploadOk?
    ensures !HasId(ReconcileUpload(WithPlaceholder(history, id, timestamp), id, timestamp, outcome), id)
    ensures !HasId(history, id) ==>
      ReconcileUpload(WithPlaceholder(history, id, timestamp), id, timestamp, outcome) == history
  {
    RemoveByIdConcat([Placeholder(id, timestamp)], history, id);
  }

  /**
   * Apart from the entries carrying the upload's id, success and failure leave
   * the same entries in the same order as the snapshot had.
   */
  lemma OutcomesAgreeAwayFromId(withLoader: seq<TranscriptionItem>, id: string, timestamp: string, outcome: UploadOutcome)
    ensures RemoveById(ReconcileUpload(withLoader, id, timestamp, outcome), id) == RemoveById(withLoader, id)
  {
    if outcome.UploadOk? {
      RemoveAfterReplace(withLoader, id, CompletedItem(id, timestamp, outcome.originalTranscription, outcome.processedText));
    }
  }

  /**
   * Two uploads that overlap are not isolated from each other: each
   * reconciles against the snapshot it captured, so when the first one
   * finishes it drops the second one's placeholder, and when the second one
   * finishes it brings the first one's placeholder back and loses the first
   * one's result.
   */
  lemma OverlappingUploadsInterfere(history: seq<TranscriptionItem>, a: string, ta: string, b: string, tb: string,
                                    resultA: UploadOutcome, resultB: UploadOutcome)
    requires a != b && !HasId(history, a) && !HasId(history, b)
    requires resultA.UploadOk? && resultB.UploadOk?
    ensures var snapshotA := WithPlaceholder(history, a, ta);
      var snapshotB := WithPlaceholder(snapshotA, b, tb);
      var afterA := ReconcileUpload(snapshotA, a, ta, resultA);
      var afterB := ReconcileUpload(snapshotB, b, tb, resultB);
      && !HasId(afterA, b)
      && afterB == [CompletedItem(b, tb, resultB.originalTranscription, resultB.processedText), Placeholder(a, ta)] + history
      && afterB[1].isLoading
  {
    var snapshotA := WithPlaceholder(history, a, ta);
    var doneA := CompletedItem(a, ta, resultA.originalTranscription, resultA.processedText);
    var doneB := CompletedItem(b, tb, resultB.originalTranscription, resultB.processedText);
    UploadSuccessInPlace(history, a, ta, resultA.originalTranscription, resultA.processedText);
    HasIdPrepend(Placeholder(a, ta), history, b);
    UploadSuccessInPlace(snapshotA, b, tb, resultB.originalTranscription, resultB.processedText);
    HasIdPrepend(doneA, history, b);
    PrependTwo(doneB, Placeholder(a, ta), history);
  }

  lemma PrependTwo(x: TranscriptionItem, y: TranscriptionItem, history: seq<TranscriptionItem>)
    ensures [x] + ([y] + history) == [x, y] + history
  {
  }

  lemma HasIdPrepend(x: TranscriptionItem, history: seq<TranscriptionItem>, id: string)
    ensures HasId([x] + history, id) <==> x.id == id || HasId(history, id)
  {
    var h := [x] + history;
    if x.id == id {
      assert h[0].id == id;
    }
    if HasId(history, id) {
      var i :| 0 <= i < |history| && history[i].id == id;
      assert h[i + 1] == history[i];
    }
    if HasId(h, id) && x.id != id {
      var i :| 0 <= i < |h| && h[i].id == id;
      assert i != 0 by { assert h[0] == x; }
      assert h[i] == history[i - 1];
    }
  }

  // ---------------------------------------------------------------------------
  // Opening the detail screen
  // ---------------------------------------------------------------------------

  /** An entry opens the detail screen only when connected and not loading (disabled prop and press guard). */
  predicate CanOpenDetail(status: Status, item: TranscriptionItem) {
    status == Connected && !item.isLoading
  }

  /**
   * The placeholder never opens the detail screen; after a successful upload
   * its completed entry does exactly while connected; and while not connected
   * no entry does.
   */
  lemma NavigationAfterUpload(status: Status, history: seq<TranscriptionItem>, id: string, timestamp: string,
                              outcome: UploadOutcome)
    ensures !CanOpenDetail(status, WithPlaceholder(history, id, timestamp)[0])
    ensures outcome.UploadOk? ==>
      var r := ReconcileUpload(WithPlaceholder(history, id, timestamp), id, timestamp, outcome);
      CanOpenDetail(status, r[0]) <==> status == Connected
    ensures status != Connected ==>
      var r := ReconcileUpload(WithPlaceholder(history, id, timestamp), id, timestamp, outcome);
      forall i :: 0 <= i < |r| ==> !CanOpenDetail(status, r[i])
  {
  }

  // ---------------------------------------------------------------------------
  // Copy to clipboard
  // ---------------------------------------------------------------------------

  const OriginalLabel := "Original:\n"
  const ProcessedLabel := "\n\nProcesado:\n"

  /** The text the copy button of an entry puts on the clipboard. */
  function CopyText(item: TranscriptionItem): string {
    OriginalLabel + item.originalTranscription + ProcessedLabel + item.processedText
  }

  /** The index of the first `c` in `s`, or `|s|` when there is none. */
  function FirstIndexOf(s: string, c: char): (k: nat)
    ensures k <= |s|
    ensures forall i :: 0 <= i < k ==> s[i] != c
    ensures k < |s| ==> s[k] == c
    decreases |s|
  {
    if s == [] then 0 else if s[0] == c then 0 else 1 + FirstIndexOf(s[1..], c)
  }

  /** Splits a copied text back into its two fields, cutting at the first line break of the body. */
  function ParseCopyText(t: string): Option<(string, string)> {
    if |t| < |OriginalLabel| || t[..|OriginalLabel|] != OriginalLabel then None
    else
      var body := t[|OriginalLabel|..];
      var k := FirstIndexOf(body, '\n');
      if |body| - k >= |ProcessedLabel| && body[k..k + |ProcessedLabel|] == ProcessedLabel
      then Some((body[..k], body[k + |ProcessedLabel|..]))
      else None
  }

  /** A copied text gives back both fields when the transcription is one line. */
  lemma CopyTextRoundTrip(item: TranscriptionItem)
    requires '\n' !in item.originalTranscription
    ensures ParseCopyText(CopyText(item)) == Some((item.originalTranscription, item.processedText))
  {
    var o := item.originalTranscription;
    var t := CopyText(item);
    var body := t[|OriginalLabel|..];
    assert t[..|OriginalLabel|] == OriginalLabel;
    assert body == o + ProcessedLabel + item.processedText;
    var k := FirstIndexOf(body, '\n');
    assert body[|o|] == '\n';
    assert k == |o|;
    assert body[k..k + |ProcessedLabel|] == ProcessedLabel;
    assert body[..k] == o;
    assert body[k + |ProcessedLabel|..] == item.processedText;
  }
}
