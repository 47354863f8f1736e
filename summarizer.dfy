/**
 * The result summariser: the deterministic text it builds from the filtered
 * results before its single completion call, and how that call's outcome
 * becomes the summary or an error.
 */
module Summarizer {
  import opened Wrappers
  import opened Strings
  import opened Json
  import opened Dicts
  import opened State
  import Completion

  /** The bullet the item lines start with, as the source's literal spells it (U+00E2 U+20AC U+00A2). */
  const Bullet: string := "  \U{E2}\U{20AC}\U{A2} "

  /** The header a system with results contributes: `f"\n{system.upper()} ({len(items)} codes):"`. */
  function Header(system: string, count: nat): string {
    "\n" + Upper(system) + " (" + NatToString(count) + " codes):"
  }

  /** `f"  â€¢ {item['code']}: {item['display']}"`. */
  function ItemLine(item: CodeResult): string {
    Bullet + Render(item.code) + ": " + item.display
  }

  /** One line per item, in order. */
  function ItemLines(items: seq<CodeResult>): (r: seq<string>)
    ensures |r| == |items|
  {
    seq(|items|, j requires 0 <= j < |items| => ItemLine(items[j]))
  }

  /** The pieces one system contributes: nothing when its list is empty, else its header and its first five items. */
  function SystemPieces(system: string, items: seq<CodeResult>): seq<string> {
    if items == [] then [] else [Header(system, |items|)] + ItemLines(Top5(items))
  }

  /** The pieces `results_detail` holds after the outer loop has visited `keys`. */
  function DetailPieces(keys: seq<string>, entries: map<string, seq<CodeResult>>): seq<string>
    decreases |keys|
  {
    if keys == [] then []
    else
      var last := keys[|keys| - 1];
      DetailPieces(keys[..|keys| - 1], entries) + (if last in entries then SystemPieces(last, entries[last]) else [])
  }

  /** The text `summarize` hands to the completion service as `results_detail`. */
  function ResultsTextSpec(results: Dict<seq<CodeResult>>): string {
    var pieces := DetailPieces(results.keys, results.entries);
    if pieces == [] then "No codes found" else Join("\n", pieces)
  }

  /** The loops of `summarize` that build `results_text`. */
  method ResultsText(results: Dict<seq<CodeResult>>) returns (text: string)
    ensures text == ResultsTextSpec(results)
  {
    var detail: seq<string> := [];
    var i := 0;
    while i < |results.keys|
      invariant 0 <= i <= |results.keys|
      invariant detail == DetailPieces(results.keys[..i], results.entries)
    {
      PiecesStep(results.keys, results.entries, i);
      var system := results.keys[i];
      if system in results.entries {
        detail := AppendSystem(detail, system, results.entries[system]);
      }
      i := i + 1;
    }
    assert results.keys[..i] == results.keys;
    text := if detail != [] then Join("\n", detail) else "No codes found";
  }

  /** One pass of the outer loop of `summarize` over a system present in the results. */
  method AppendSystem(detail: seq<string>, system: string, items: seq<CodeResult>) returns (r: seq<string>)
    ensures r == detail + SystemPieces(system, items)
  {
    r := detail;
    if items != [] {
      r := r + [Header(system, |items|)];
      r := AppendItems(r, Top5(items));
    }
  }

  /** The inner loop of `summarize`: one line per item, appended in order. */
  method AppendItems(detail: seq<string>, items: seq<CodeResult>) returns (r: seq<string>)
    ensures r == detail + ItemLines(items)
  {
    r := detail;
    var j := 0;
    while j < |items|
      invariant 0 <= j <= |items|
      invariant r == detail + ItemLines(items[..j])
    {
      ItemLinesStep(items, j);
      r := r + [ItemLine(items[j])];
      j := j + 1;
    }
    assert items[..j] == items;
  }

  /** One more item adds its line at the end. */
  lemma ItemLinesStep(items: seq<CodeResult>, j: nat)
    requires j < |items|
    ensures ItemLines(items[..j + 1]) == ItemLines(items[..j]) + [ItemLine(items[j])]
  {
    var a := ItemLines(items[..j + 1]);
    var b := ItemLines(items[..j]) + [ItemLine(items[j])];
    assert forall k :: 0 <= k < |a| ==> a[k] == b[k];
  }

  /** Visiting one more key extends the pieces by that key's contribution. */
  lemma PiecesStep(keys: seq<string>, entries: map<string, seq<CodeResult>>, i: nat)
    requires i < |keys|
    ensures DetailPieces(keys[..i + 1], entries) ==
      DetailPieces(keys[..i], entries) + (if keys[i] in entries then SystemPieces(keys[i], entries[keys[i]]) else [])
  {
    assert keys[..i + 1][..i] == keys[..i];
  }

  /** The prompt variables `summarize` sends. */
  function PromptFor(query: string, results: Dict<seq<CodeResult>>, intent: SearchIntent): Completion.Prompt {
    Completion.SummaryPrompt(query, intent.conceptType, intent.primary.Value(), ResultsTextSpec(results))
  }

  /** What `summarize` returns, or the error it lets escape. */
  function SummarizeSpec(query: string, results: Dict<seq<CodeResult>>, intent: SearchIntent,
                         llm: Completion.Prompt -> Completion.Reply): Result<string> {
    match llm(PromptFor(query, results, intent))
    case Failed => Raised("completion failed")
    case Text(content) => Ok(content)
  }

  /** `ResultSummarizer.summarize`: no error handling, so a failed completion escapes. */
  method Summarize(query: string, results: Dict<seq<CodeResult>>, intent: SearchIntent,
                   llm: Completion.Prompt -> Completion.Reply) returns (r: Result<string>)
    ensures r == SummarizeSpec(query, results, intent, llm)
  {
    var text := ResultsText(results);
    var reply := llm(Completion.SummaryPrompt(query, intent.conceptType, intent.primary.Value(), text));
    if reply.Failed? {
      return Raised("completion failed");
    }
    r := Ok(reply.content);
  }

  // ---------------------------------------------------------------------------
  // Properties of the summary text

  /** The loops contribute nothing exactly when every listed system has an empty list. */
  lemma {:induction false} NoPiecesIffAllEmpty(keys: seq<string>, entries: map<string, seq<CodeResult>>)
    ensures DetailPieces(keys, entries) == [] <==> forall k :: k in keys && k in entries ==> entries[k] == []
    decreases |keys|
  {
    if keys != [] {
      var init := keys[..|keys| - 1];
      var last := keys[|keys| - 1];
      assert keys == init + [last];
      NoPiecesIffAllEmpty(init, entries);
    }
  }

  /** The text is "No codes found" exactly when no system has results; otherwise it starts with the first header's newline. */
  lemma NoCodesIffNoResults(results: Dict<seq<CodeResult>>)
    requires results.Valid()
    ensures ResultsTextSpec(results) == "No codes found" <==> forall k :: k in results.entries ==> results.entries[k] == []
  {
    var pieces := DetailPieces(results.keys, results.entries);
    NoPiecesIffAllEmpty(results.keys, results.entries);
    if pieces != [] {
      FirstPieceIsHeader(results.keys, results.entries);
      JoinStartsWithFirst("\n", pieces);
      assert "No codes found"[0] == 'N';
    }
  }

  /** Every non-empty contribution starts with a header, so the first piece starts with a newline. */
  lemma {:induction false} FirstPieceIsHeader(keys: seq<string>, entries: map<string, seq<CodeResult>>)
    requires DetailPieces(keys, entries) != []
    ensures DetailPieces(keys, entries)[0] != [] && DetailPieces(keys, entries)[0][0] == '\n'
    decreases |keys|
  {
    var init := keys[..|keys| - 1];
    if DetailPieces(init, entries) != [] {
      FirstPieceIsHeader(init, entries);
    }
  }

  /** `run` occurs in `pieces` starting at index `p`. */
  predicate RunAt(pieces: seq<string>, run: seq<string>, p: nat) {
    p + |run| <= |pieces| && pieces[p..p + |run|] == run
  }

  /**
   * Each listed system with results contributes, as one contiguous run, its
   * header carrying the full list length followed by its first five items.
   */
  lemma SystemListed(keys: seq<string>, entries: map<string, seq<CodeResult>>, i: nat)
    requires i < |keys| && keys[i] in entries && entries[keys[i]] != []
    ensures exists p: nat :: RunAt(DetailPieces(keys, entries), SystemPieces(keys[i], entries[keys[i]]), p)
  {
    var run := SystemPieces(keys[i], entries[keys[i]]);
    var a := DetailPieces(keys[..i], entries);
    PiecesStep(keys, entries, i);
    PiecesPrefix(keys, entries, i + 1);
    RunInPrefix(DetailPieces(keys, entries), a, run);
  }

  /** A run that follows `a` at the start of `pieces` occurs at index `|a|`. */
  lemma RunInPrefix(pieces: seq<string>, a: seq<string>, run: seq<string>)
    requires a + run <= pieces
    ensures RunAt(pieces, run, |a|)
  {
    assert pieces[|a|..|a| + |run|] == (a + run)[|a|..];
  }

  /** The pieces for a prefix of the keys are a prefix of the pieces. */
  lemma {:induction false} PiecesPrefix(keys: seq<string>, entries: map<string, seq<CodeResult>>, m: nat)
    requires m <= |keys|
    ensures DetailPieces(keys[..m], entries) <= DetailPieces(keys, entries)
    decreases |keys|
  {
    if m < |keys| {
      var init := keys[..|keys| - 1];
      assert init[..m] == keys[..m];
      PiecesPrefix(init, entries, m);
    } else {
      assert keys[..m] == keys;
    }
  }

  /** Every piece is a header or an item line of some listed system with results. */
  lemma {:induction false} PiecesAccountedFor(keys: seq<string>, entries: map<string, seq<CodeResult>>)
    ensures forall piece :: piece in DetailPieces(keys, entries) ==>
      exists k :: k in keys && k in entries && entries[k] != [] &&
        (piece == Header(k, |entries[k]|) || exists j :: 0 <= j < |Top5(entries[k])| && piece == ItemLine(entries[k][j]))
    decreases |keys|
  {
    if keys != [] {
      var init := keys[..|keys| - 1];
      var last := keys[|keys| - 1];
      PiecesAccountedFor(init, entries);
      assert keys == init + [last];
      forall piece | piece in DetailPieces(keys, entries)
        ensures exists k :: (k in keys && k in entries && entries[k] != [] &&
          (piece == Header(k, |entries[k]|) || exists j :: 0 <= j < |Top5(entries[k])| && piece == ItemLine(entries[k][j])))
      {
        if piece !in DetailPieces(init, entries) {
          var items := entries[last];
          assert piece in SystemPieces(last, items);
          if piece != Header(last, |items|) {
            var j :| 0 <= j < |ItemLines(Top5(items))| && ItemLines(Top5(items))[j] == piece;
            assert piece == ItemLine(items[j]);
          }
          assert last in keys;
        } else {
          var k :| k in init && k in entries && entries[k] != [] &&
            (piece == Header(k, |entries[k]|) || exists j :: 0 <= j < |Top5(entries[k])| && piece == ItemLine(entries[k][j]));
          assert k in keys;
        }
      }
    }
  }

  /** The summary fails exactly when the completion fails, and otherwise is the completion's text. */
  lemma SummaryFailsOnlyWithCompletion(query: string, results: Dict<seq<CodeResult>>, intent: SearchIntent,
                                       llm: Completion.Prompt -> Completion.Reply)
    ensures SummarizeSpec(query, results, intent, llm).Raised? <==> llm(PromptFor(query, results, intent)).Failed?
    ensures SummarizeSpec(query, results, intent, llm).Ok? ==>
      SummarizeSpec(query, results, intent, llm).value == llm(PromptFor(query, results, intent)).content
  {
  }
}
