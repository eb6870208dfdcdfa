/**
 * Transcript lookup and the pairing of summary sentences with transcript segments.
 *
 * The similarity search (sentence embeddings, cosine similarity, top-k) is an oracle: given
 * a summary sentence, the transcript segments and `top_n`, it returns the indices of the
 * selected segments. Everything around it is modelled as written.
 */
module Transcribe {
  import opened Wrappers
  import opened PyStr

  /** One entry of `merged_transcript`. */
  datatype Item = Item(id: int, speaker: string, text: string, start: real, end: real)

  /** The `merged_output` dictionary. */
  datatype MergedOutput = MergedOutput(mergedTranscript: seq<Item>, fullText: string)

  /** One element of the result: the looked-up items and the summary sentence they support. */
  datatype Contribution = Contribution(sentenceData: seq<Option<Item>>, summarySentence: string)

  /** `get_item_by_id`: the first item, in list order, whose id is `idx`; None when there is none. */
  function GetItemById(items: seq<Item>, idx: int): (found: Option<Item>)
    ensures found.Some? ==> found.value in items && found.value.id == idx
    ensures found.None? <==> forall i :: 0 <= i < |items| ==> items[i].id != idx
    decreases |items|
  {
    if items == [] then None
    else if items[0].id == idx then Some(items[0])
    else GetItemById(items[1..], idx)
  }

  /** The item returned is the earliest one carrying the id. */
  lemma {:induction false} GetItemByIdFirstMatch(items: seq<Item>, idx: int, k: nat)
    requires k < |items| && items[k].id == idx
    ensures GetItemById(items, idx).Some?
    ensures exists i :: 0 <= i <= k && GetItemById(items, idx) == Some(items[i])
                        && forall j :: 0 <= j < i ==> items[j].id != idx
    decreases |items|
  {
    if items[0].id != idx {
      GetItemByIdFirstMatch(items[1..], idx, k - 1);
      var i :| 0 <= i <= k - 1 && GetItemById(items[1..], idx) == Some(items[1..][i])
               && forall j :: 0 <= j < i ==> items[1..][j].id != idx;
      assert GetItemById(items, idx) == Some(items[i + 1]);
      forall j | 0 <= j < i + 1 ensures items[j].id != idx {
        if j > 0 {
          assert items[j] == items[1..][j - 1];
        }
      }
    }
  }

  /** `summary.split('\n\n')[1].split('. ')`, falling back to `summary.split('. ')` when
      there is no second paragraph (the IndexError caught by the bare `except`). */
  function SummarySentences(summary: string): (sentences: seq<string>)
    ensures |sentences| >= 1
    ensures forall k :: 0 <= k < |sentences| ==> !Contains(sentences[k], ". ")
  {
    var paragraphs := Split(summary, "\n\n");
    if |paragraphs| >= 2 then
      SplitPiecesFree(paragraphs[1], ". ");
      Split(paragraphs[1], ". ")
    else
      SplitPiecesFree(summary, ". ");
      Split(summary, ". ")
  }

  /** With a blank line in the summary, the sentences are those of its second paragraph;
      without one, those of the whole summary. Either way there is at least one sentence,
      and joining them with ". " gives back the text that was split. */
  lemma SummarySentencesSource(summary: string)
    ensures Contains(summary, "\n\n") <==> |Split(summary, "\n\n")| >= 2
    ensures Contains(summary, "\n\n") ==>
      SummarySentences(summary) == Split(Split(summary, "\n\n")[1], ". ")
      && Join(SummarySentences(summary), ". ") == Split(summary, "\n\n")[1]
    ensures !Contains(summary, "\n\n") ==>
      SummarySentences(summary) == Split(summary, ". ")
      && Join(SummarySentences(summary), ". ") == summary
    ensures |SummarySentences(summary)| >= 1
  {
    SplitCount(summary, "\n\n");
    var paragraphs := Split(summary, "\n\n");
    if |paragraphs| >= 2 {
      SplitJoin(paragraphs[1], ". ");
    } else {
      SplitJoin(summary, ". ");
    }
  }

  /** `[get_item_by_id(merged_transcript, idx + 1) for idx in top_indices]`. */
  function SentenceData(items: seq<Item>, topIndices: seq<int>): (data: seq<Option<Item>>)
    ensures |data| == |topIndices|
    ensures forall j :: 0 <= j < |data| ==> data[j] == GetItemById(items, topIndices[j] + 1)
  {
    seq(|topIndices|, j requires 0 <= j < |topIndices| => GetItemById(items, topIndices[j] + 1))
  }

  /** `find_contributing_segments`: one record per summary sentence, in order, each holding
      the items whose ids are one more than the indices the oracle selects for it. */
  method FindContributingSegments(
    mergedOutput: MergedOutput,
    summary: string,
    selectTop: (string, seq<string>, nat) -> seq<int>,
    topN: nat)
    returns (contributing: seq<Contribution>)
    ensures |contributing| == |SummarySentences(summary)|
    ensures forall k :: 0 <= k < |contributing| ==>
      contributing[k].summarySentence == SummarySentences(summary)[k]
    ensures forall k :: 0 <= k < |contributing| ==>
      var selected := selectTop(SummarySentences(summary)[k], Split(mergedOutput.fullText, "#\n"), topN);
      && |contributing[k].sentenceData| == |selected|
      && forall j :: 0 <= j < |selected| ==>
           contributing[k].sentenceData[j] == GetItemById(mergedOutput.mergedTranscript, selected[j] + 1)
  {
    contributing := [];
    var text := mergedOutput.fullText;
    var mergedTranscript := mergedOutput.mergedTranscript;
    var segments := Split(text, "#\n");
    var summarySplit := SummarySentences(summary);
    var i := 0;
    while i < |summarySplit|
      invariant 0 <= i <= |summarySplit|
      invariant |contributing| == i
      invariant forall k :: 0 <= k < i ==>
        contributing[k] == Contribution(SentenceData(mergedTranscript, selectTop(summarySplit[k], segments, topN)), summarySplit[k])
    {
      var sentence := summarySplit[i];
      var topIndices := selectTop(sentence, segments, topN);
      var sentenceContributingSegments := Contribution(SentenceData(mergedTranscript, topIndices), sentence);
      contributing := contributing + [sentenceContributingSegments];
      i := i + 1;
    }
  }
}
