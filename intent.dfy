/**
 * The intent resolver: the bounded conversation context, the JSON object
 * located in the completion text, validation of the decoded object against
 * the six coding systems, and the keyword fallback. The completion service is
 * the `llm` parameter and `json.loads` is the `decode` parameter.
 */
module Intent {
  import opened Wrappers
  import opened Strings
  import opened Json
  import opened State
  import opened Completion

  // ---------------------------------------------------------------------------
  // Conversation context

  /** The line one earlier turn contributes to the context. */
  function ContextLine(e: HistoryEntry): string
    requires e.intent.Some?
  {
    "Query: '" + e.query + "' \U{2192} Found " + e.intent.value.conceptType + " (" + e.intent.value.refinedQuery + ")"
  }

  /** `history[-3:]`. */
  function LastThree(history: seq<HistoryEntry>): (r: seq<HistoryEntry>)
    ensures |r| <= 3 && |r| == if |history| < 3 then |history| else 3
    ensures forall i :: 0 <= i < |r| ==> r[i] == history[|history| - |r| + i]
  {
    if |history| <= 3 then history else history[|history| - 3..]
  }

  /** The lines the turns with an intent contribute, in order. */
  function ContextLines(entries: seq<HistoryEntry>): seq<string>
    decreases |entries|
  {
    if entries == [] then []
    else
      var last := entries[|entries| - 1];
      ContextLines(entries[..|entries| - 1]) + (if last.intent.Some? then [ContextLine(last)] else [])
  }

  /** The context text handed to the completion service. */
  function ContextText(history: seq<HistoryEntry>): string {
    var lines := ContextLines(LastThree(history));
    if lines == [] then "No previous context" else Join("\n", lines)
  }

  /** The context loop of `classify`. */
  method BuildContext(history: seq<HistoryEntry>) returns (context: string)
    ensures context == ContextText(history)
  {
    var parts: seq<string> := [];
    var recent := LastThree(history);
    var i := 0;
    while i < |recent|
      invariant 0 <= i <= |recent|
      invariant parts == ContextLines(recent[..i])
    {
      assert recent[..i + 1][..i] == recent[..i];
      var entry := recent[i];
      if entry.intent.Some? {
        parts := parts + [ContextLine(entry)];
      }
      i := i + 1;
    }
    assert recent[..i] == recent;
    context := if parts != [] then Join("\n", parts) else "No previous context";
  }

  /** Each context line renders one of the given turns that has an intent; there are no more lines than turns. */
  lemma {:induction false} ContextLinesFromTurns(entries: seq<HistoryEntry>)
    ensures |ContextLines(entries)| <= |entries|
    ensures forall k :: 0 <= k < |ContextLines(entries)| ==>
      exists e :: e in entries && e.intent.Some? && ContextLines(entries)[k] == ContextLine(e)
    ensures (forall e :: e in entries ==> e.intent.None?) <==> ContextLines(entries) == []
    decreases |entries|
  {
    if entries != [] {
      var init := entries[..|entries| - 1];
      ContextLinesFromTurns(init);
      forall k | 0 <= k < |ContextLines(entries)|
        ensures exists e :: e in entries && e.intent.Some? && ContextLines(entries)[k] == ContextLine(e)
      {
        if k < |ContextLines(init)| {
          var e :| e in init && e.intent.Some? && ContextLines(init)[k] == ContextLine(e);
          assert e in entries;
        } else {
          assert ContextLines(entries)[k] == ContextLine(entries[|entries| - 1]);
        }
      }
      if forall e :: e in init ==> e.intent.None? {
        assert forall e :: e in entries ==> e in init || e == entries[|entries| - 1];
      }
      if ContextLines(entries) == [] {
        forall e | e in entries ensures e.intent.None? {
          var i :| 0 <= i < |entries| && entries[i] == e;
          if i < |init| { assert init[i] == e; }
        }
      }
    }
  }

  /** The positions of the given turns that have an intent, in ascending order. */
  function IntentIndices(entries: seq<HistoryEntry>): (r: seq<nat>)
    ensures forall k :: 0 <= k < |r| ==> r[k] < |entries| && entries[r[k]].intent.Some?
    ensures forall j, k :: 0 <= j < k < |r| ==> r[j] < r[k]
    ensures forall i :: 0 <= i < |entries| && entries[i].intent.Some? ==> i in r
    decreases |entries|
  {
    if entries == [] then []
    else
      var n := |entries| - 1;
      var init := entries[..n];
      var prev := IntentIndices(init);
      assert forall i :: 0 <= i < n ==> init[i] == entries[i];
      prev + (if entries[n].intent.Some? then [n] else [])
  }

  /** The positions of the given turns that have an intent, as a set. */
  function TurnsWithIntent(entries: seq<HistoryEntry>): set<nat> {
    set i | 0 <= i < |entries| && entries[i].intent.Some?
  }

  /** Adding a turn adds its position exactly when it has an intent. */
  lemma TurnsWithIntentStep(entries: seq<HistoryEntry>)
    requires entries != []
    ensures var n := |entries| - 1;
      && n !in TurnsWithIntent(entries[..n])
      && TurnsWithIntent(entries) == TurnsWithIntent(entries[..n]) + (if entries[n].intent.Some? then {n} else {})
  {
    var n := |entries| - 1;
    var init := entries[..n];
    var last := if entries[n].intent.Some? then {n} else {};
    forall i | i in TurnsWithIntent(entries) ensures i in TurnsWithIntent(init) + last {
      if i < n { assert init[i] == entries[i]; }
    }
    forall i | i in TurnsWithIntent(init) ensures i in TurnsWithIntent(entries) {
      assert init[i] == entries[i];
    }
  }

  /** There is one position per turn with an intent. */
  lemma {:induction false} IntentIndicesCount(entries: seq<HistoryEntry>)
    ensures |IntentIndices(entries)| == |TurnsWithIntent(entries)|
    decreases |entries|
  {
    if entries != [] {
      var n := |entries| - 1;
      IntentIndicesCount(entries[..n]);
      TurnsWithIntentStep(entries);
    }
  }

  /** The k-th context line renders the k-th turn that has an intent: no such turn is skipped and the order is kept. */
  lemma {:induction false} ContextLinesInOrder(entries: seq<HistoryEntry>)
    ensures |ContextLines(entries)| == |IntentIndices(entries)|
    ensures forall k :: 0 <= k < |ContextLines(entries)| ==>
      ContextLines(entries)[k] == ContextLine(entries[IntentIndices(entries)[k]])
    decreases |entries|
  {
    if entries != [] {
      var n := |entries| - 1;
      var init := entries[..n];
      ContextLinesInOrder(init);
      forall k | 0 <= k < |IntentIndices(init)| ensures init[IntentIndices(init)[k]] == entries[IntentIndices(init)[k]] {
      }
    }
  }

  /** The context holds at most three lines, each rendering one of the last three turns that has an intent. */
  lemma ContextBounded(history: seq<HistoryEntry>)
    ensures |ContextLines(LastThree(history))| <= 3
    ensures forall k :: 0 <= k < |ContextLines(LastThree(history))| ==>
      exists e :: e in LastThree(history) && e.intent.Some? && ContextLines(LastThree(history))[k] == ContextLine(e)
  {
    ContextLinesFromTurns(LastThree(history));
  }

  /** The context is "No previous context" exactly when none of the last three turns has an intent. */
  lemma NoContextIffNoIntent(history: seq<HistoryEntry>)
    ensures ContextText(history) == "No previous context"
        <==> forall e :: e in LastThree(history) ==> e.intent.None?
  {
    var recent := LastThree(history);
    var lines := ContextLines(recent);
    ContextLinesFromTurns(recent);
    if lines != [] {
      assert lines[0] in lines;
      var e :| e in recent && e.intent.Some? && lines[0] == ContextLine(e);
      assert ContextLine(e)[0] == 'Q';
      JoinStartsWithFirst("\n", lines);
      assert ContextText(history)[0] == 'Q';
      assert "No previous context"[0] == 'N';
    }
  }

  // ---------------------------------------------------------------------------
  // Locating the JSON object: `re.search(r'\{.*\}', content, re.DOTALL)`

  /** `content[p..q]` is a match of the pattern: it opens with `{` and closes with a later `}`. */
  predicate MatchAt(content: string, p: nat, q: nat) {
    p + 2 <= q <= |content| && content[p] == '{' && content[q - 1] == '}'
  }

  /** Index of the first occurrence of `c`. */
  function FirstIndex(s: string, c: char): (r: Option<nat>)
    ensures r.Some? ==> r.value < |s| && s[r.value] == c && forall i :: 0 <= i < r.value ==> s[i] != c
    ensures r.None? ==> forall i :: 0 <= i < |s| ==> s[i] != c
  {
    if s == [] then None
    else if s[0] == c then Some(0)
    else match FirstIndex(s[1..], c)
      case None => None
      case Some(i) => Some(i + 1)
  }

  /** Index of the last occurrence of `c`. */
  function LastIndex(s: string, c: char): (r: Option<nat>)
    ensures r.Some? ==> r.value < |s| && s[r.value] == c && forall i :: r.value < i < |s| ==> s[i] != c
    ensures r.None? ==> forall i :: 0 <= i < |s| ==> s[i] != c
  {
    if s == [] then None
    else if s[|s| - 1] == c then Some(|s| - 1)
    else LastIndex(s[..|s| - 1], c)
  }

  /** The span the greedy search matches: from the first `{` to the last `}`, if that `}` comes later. */
  function JsonSpan(content: string): Option<(nat, nat)> {
    match FirstIndex(content, '{')
    case None => None
    case Some(p) =>
      match LastIndex(content, '}')
      case None => None
      case Some(l) => if l > p then Some((p, l + 1)) else None
  }

  /** The matched text, `json_match.group()`. */
  function JsonCandidate(content: string): Option<string> {
    match JsonSpan(content)
    case None => None
    case Some((p, q)) => if p <= q <= |content| then Some(content[p..q]) else None
  }

  /**
   * The span is the match `re.search` reports: of all matches it starts
   * leftmost and, among those, ends rightmost; there is none exactly when no
   * `}` follows the first `{`.
   */
  lemma JsonSpanIsLeftmostLongest(content: string)
    ensures JsonSpan(content).Some? ==>
      var (p, q) := JsonSpan(content).value;
      && MatchAt(content, p, q)
      && forall p': nat, q': nat :: MatchAt(content, p', q') ==> p <= p' && (p' == p ==> q' <= q)
    ensures JsonSpan(content).None? <==> forall p: nat, q: nat :: !MatchAt(content, p, q)
    ensures JsonSpan(content).Some? <==>
      exists p, l :: 0 <= p < l < |content| && content[p] == '{' && content[l] == '}'
                  && forall i :: 0 <= i < p ==> content[i] != '{'
  {
    var f := FirstIndex(content, '{');
    var l := LastIndex(content, '}');
    if JsonSpan(content).None? {
      forall p: nat, q: nat ensures !MatchAt(content, p, q) {
        if f.Some? && l.Some? {
          assert l.value <= f.value;
        }
      }
    } else {
      assert MatchAt(content, f.value, l.value + 1);
    }
  }

  /** The candidate is the matched text: it starts with `{` and ends with `}`. */
  lemma CandidateIsBraced(content: string)
    ensures JsonCandidate(content).Some? ==>
      var s := JsonCandidate(content).value;
      |s| >= 2 && s[0] == '{' && s[|s| - 1] == '}'
    ensures JsonCandidate(content).Some? <==> JsonSpan(content).Some?
  {
  }

  // ---------------------------------------------------------------------------
  // Validation of the decoded object

  /** `[CodingSystem(s) for s in values]`: `None` as soon as one value is not a member's value. */
  function SystemsOf(values: seq<Json>): (r: Option<seq<CodingSystem>>)
    ensures r.Some? ==> |r.value| == |values|
  {
    if forall k :: 0 <= k < |values| ==> FromJson(values[k]).Some? then
      Some(seq(|values|, k requires 0 <= k < |values| => FromJson(values[k]).value))
    else None
  }

  /** The secondaries list comprehension over `data.get("secondary_systems", [])`. */
  function SecondariesOf(j: Json): Option<seq<CodingSystem>> {
    match Iterate(j)
    case None => None
    case Some(values) => SystemsOf(values)
  }

  /**
   * The `SearchIntent(...)` construction in `classify`; `None` where it raises:
   * the decoded value is not an object, `primary_system` is missing or not a
   * member's value, or the secondaries cannot all be converted.
   */
  function Interpret(query: string, data: Json): Option<SearchIntent> {
    if !data.Object? then None
    else
      var fields := data.fields;
      match Get(fields, "primary_system")
      case None => None
      case Some(p) =>
        match FromJson(p)
        case None => None
        case Some(primary) =>
          match SecondariesOf(GetOr(fields, "secondary_systems", Array([])))
          case None => None
          case Some(secondaries) =>
            Some(SearchIntent(
              primary,
              secondaries,
              Render(GetOr(fields, "refined_query", String(query))),
              Render(GetOr(fields, "concept_type", String("unknown")))))
  }

  /** The `try` block of `classify` up to the return: `None` where it raises and control reaches the fallback. */
  function FromCompletion(query: string, reply: Reply, decode: string -> Option<Json>): Option<SearchIntent> {
    match reply
    case Failed => None
    case Text(content) =>
      match JsonCandidate(content)
      case None => None                    // `self._fallback_parse` does not exist
      case Some(text) =>
        match decode(text)
        case None => None
        case Some(data) => Interpret(query, data)
  }

  // ---------------------------------------------------------------------------
  // Keyword fallback

  const DiagnosisWords: seq<string> := ["diabetes", "hypertension", "infection"]
  const LabWords: seq<string> := ["test", "lab", "glucose", "hemoglobin"]
  const DrugWords: seq<string> := ["mg", "tablet", "medication", "drug"]

  /** `_keyword_fallback`; the drug branch names `CodingSystem.RXTERMS`, which does not exist. */
  function KeywordFallback(query: string): Result<SearchIntent> {
    var q := Lower(query);
    if ContainsAny(q, DiagnosisWords) then Ok(SearchIntent(ICD10, [], query, "diagnosis"))
    else if ContainsAny(q, LabWords) then Ok(SearchIntent(LOINC, [], query, "lab"))
    else if ContainsAny(q, DrugWords) then
      match FromName("RXTERMS")
      case None => Raised("AttributeError: RXTERMS")
      case Some(s) => Ok(SearchIntent(s, [], query, "drug"))
    else Ok(SearchIntent(ICD10, [LOINC], query, "unknown"))
  }

  /** What `classify` returns or raises. */
  function ClassifySpec(query: string, history: seq<HistoryEntry>, llm: Prompt -> Reply,
                        decode: string -> Option<Json>): Result<SearchIntent> {
    match FromCompletion(query, llm(IntentPrompt(ContextText(history), query)), decode)
    case Some(intent) => Ok(intent)
    case None => KeywordFallback(query)
  }

  /** `IntentClassifier.classify`. */
  method Classify(query: string, history: seq<HistoryEntry>, llm: Prompt -> Reply, decode: string -> Option<Json>)
    returns (r: Result<SearchIntent>)
    ensures r == ClassifySpec(query, history, llm, decode)
  {
    var context := BuildContext(history);
    var reply := llm(IntentPrompt(context, query));
    var parsed := FromCompletion(query, reply, decode);
    if parsed.Some? {
      return Ok(parsed.value);
    }
    r := KeywordFallback(query);
  }

  // ---------------------------------------------------------------------------
  // Properties of classification

  /** Conversion of the secondaries fails exactly when some value is not a member's value; none is dropped. */
  lemma SystemsOfNoSilentDrop(values: seq<Json>)
    ensures SystemsOf(values).None? <==> exists k :: 0 <= k < |values| && FromJson(values[k]).None?
    ensures SystemsOf(values).Some? ==>
      forall k :: 0 <= k < |values| ==> values[k] == String(SystemsOf(values).value[k].Value())
  {
  }

  /**
   * A decoded object is accepted exactly when `primary_system` is present and
   * valid and every secondary value is valid; otherwise classification falls
   * back. Absent keys take their defaults.
   */
  lemma InterpretAcceptsExactlyValid(query: string, fields: seq<(string, Json)>)
    ensures Interpret(query, Object(fields)).Some? <==>
      && Get(fields, "primary_system").Some?
      && FromJson(Get(fields, "primary_system").value).Some?
      && Iterate(GetOr(fields, "secondary_systems", Array([]))).Some?
      && forall k :: 0 <= k < |Iterate(GetOr(fields, "secondary_systems", Array([]))).value| ==>
           FromJson(Iterate(GetOr(fields, "secondary_systems", Array([]))).value[k]).Some?
    ensures Interpret(query, Object(fields)).Some? ==>
      var i := Interpret(query, Object(fields)).value;
      && i.primary.Value() == Get(fields, "primary_system").value.s
      && (Get(fields, "secondary_systems").None? ==> i.secondaries == [])
      && (Get(fields, "refined_query").None? ==> i.refinedQuery == query)
      && (Get(fields, "concept_type").None? ==> i.conceptType == "unknown")
  {
    var it := Iterate(GetOr(fields, "secondary_systems", Array([])));
    if it.Some? {
      SystemsOfNoSilentDrop(it.value);
    }
  }

  /** Every secondary the completion named comes through, in order; none is silently dropped. */
  lemma SecondariesKept(query: string, fields: seq<(string, Json)>)
    requires Interpret(query, Object(fields)).Some?
    ensures var values := Iterate(GetOr(fields, "secondary_systems", Array([]))).value;
      var i := Interpret(query, Object(fields)).value;
      |i.secondaries| == |values| &&
      forall k :: 0 <= k < |values| ==> values[k] == String(i.secondaries[k].Value())
  {
    SystemsOfNoSilentDrop(Iterate(GetOr(fields, "secondary_systems", Array([]))).value);
  }

  /** Without a `{`...`}` span in the completion, or when the completion fails, `classify` is the keyword fallback. */
  lemma NoJsonMeansFallback(query: string, history: seq<HistoryEntry>, llm: Prompt -> Reply, decode: string -> Option<Json>)
    requires var reply := llm(IntentPrompt(ContextText(history), query));
      reply.Failed? || JsonCandidate(reply.content).None? || decode(JsonCandidate(reply.content).value).None?
    ensures ClassifySpec(query, history, llm, decode) == KeywordFallback(query)
  {
  }

  /** The keyword groups are tried in order and the first hit decides; every intent keeps the query verbatim. */
  lemma KeywordFallbackOrder(query: string)
    ensures var q := Lower(query); var r := KeywordFallback(query);
      && (ContainsAny(q, DiagnosisWords) ==> r == Ok(SearchIntent(ICD10, [], query, "diagnosis")))
      && (!ContainsAny(q, DiagnosisWords) && ContainsAny(q, LabWords) ==> r == Ok(SearchIntent(LOINC, [], query, "lab")))
      && (!ContainsAny(q, DiagnosisWords) && !ContainsAny(q, LabWords) && ContainsAny(q, DrugWords) ==> r.Raised?)
      && (!ContainsAny(q, DiagnosisWords) && !ContainsAny(q, LabWords) && !ContainsAny(q, DrugWords) ==>
            r == Ok(SearchIntent(ICD10, [LOINC], query, "unknown")))
      && (r.Ok? ==> r.value.refinedQuery == query && (r.value.primary == ICD10 || r.value.primary == LOINC))
  {
    SixMembersNoRxterms();
  }

  /** The query "MG" reaches the drug branch (matching is case-insensitive), which raises: there is no `RXTERMS` member. */
  lemma DrugQueryRaises()
    ensures KeywordFallback("MG").Raised?
  {
    var q := Lower("MG");
    assert q == "mg";
    assert OccursAt(q, "mg", 0);
    assert Contains(q, DrugWords[0]);
    forall k | 0 <= k < |DiagnosisWords| ensures !Contains(q, DiagnosisWords[k]) {
      forall i: nat | i <= |q| ensures !OccursAt(q, DiagnosisWords[k], i) {
        NotOccursByLength(q, DiagnosisWords[k], i);
      }
    }
    forall k | 0 <= k < |LabWords| ensures !Contains(q, LabWords[k]) {
      forall i: nat | i <= |q| ensures !OccursAt(q, LabWords[k], i) {
        NotOccursByLength(q, LabWords[k], i);
      }
    }
    SixMembersNoRxterms();
  }

  /** A word longer than the text cannot occur in it. */
  lemma NotOccursByLength(s: string, w: string, i: nat)
    requires |w| > |s|
    ensures !OccursAt(s, w, i)
  {
  }
}
