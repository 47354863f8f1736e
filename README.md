# Clinical code finder: query resolution pipeline

This project models the query-resolution core of a clinical code finder. A free-text query passes through five
steps:

1. The query and the last turns of the conversation are classified into a *search intent*: a primary coding
   system, up to several secondary systems, a refined search text and a concept tag.
2. The primary system is searched on the NIH Clinical Tables service, up to ten hits.
3. At most the first three secondary systems are searched, up to five hits each. Only this step is conditional.
4. Each system's hits are cut to the first five and given a count-based confidence.
5. A summary is requested from a language-model completion service.

The model covers:

- the six coding systems and the state record the nodes share (`State`);
- the search request, the reply parsing and its failure modes (`ClinicalTables`);
- the classifier: the context text, extraction of the JSON object, validation of the decoded object, and the
  keyword fallback (`Intent`);
- the five nodes, and the relevance-scoring aggregator that the graph does not use (`Nodes`);
- the results text the summariser sends (`Summarizer`);
- the graph's edges, the driver loop and `run_agent`, which records each completed turn in the caller's history
  (`Graph`).

The outside world is a set of parameters:

- the search service is a function from requests to replies;
- the completion service is a function from prompts to replies;
- `json.loads` is a function from text to an optional JSON value.

Every theorem therefore holds for every behaviour of these services. Python dicts whose iteration order matters
(`raw_results`, `filtered_results`, `confidence_scores`) are `Dicts.Dict`, a map paired with its insertion
order. A Python exception is the `Raised` case of `Wrappers.Result`.

Three behaviours of the code differ from what its names and comments lead one to expect. The model follows
the code:

- The keyword fallback's drug rule (`mg`, `tablet`, `medication`, `drug`) builds an intent with
  `CodingSystem.RXTERMS` (src/llm/intent.py:108-114). That member does not exist, so the rule raises
  `AttributeError`. A drug query whose completion fails is therefore not searched in RxNorm.
- `classify` wraps its whole body in `try`/`except`, but the fallback runs inside the `except` clause
  (src/llm/intent.py:86-88). So the drug rule's error escapes `classify`. It is caught by
  `classify_intent_node` (src/agent/nodes.py:39-48), and the query ends as an ICD-10 search with concept
  `unknown` and no secondaries. See `Intent.DrugQueryRaises` and `Nodes.FailedCompletionIntent`.
- When no JSON object is found, the code calls `self._fallback_parse` (src/llm/intent.py:78), which does not
  exist. Its `AttributeError` lands in the same handler, so the outcome is the keyword fallback
  (`Intent.NoJsonMeansFallback`).

## Model

| member | source | states |
|---|---|---|
| State.FromValue | src/agent/state.py:6-12 | `CodingSystem(v)` succeeds exactly for the six values, and returns the member with that value |
| State.FromName | src/agent/state.py:6-12 | `CodingSystem.<name>` succeeds exactly for the six member names |
| State.FromJson | src/agent/state.py:6-12 | converting a decoded JSON value succeeds exactly for a string that is a member's value |
| State.ValuesDistinct | src/agent/state.py:6-12 | the six enum values are pairwise distinct, so a result-map key names one system |
| State.FromValueInvertsValue | src/agent/state.py:6-12 | lookup by value inverts `.value` |
| State.SixMembersNoRxterms | src/agent/state.py:6-12 | there are exactly six members, with distinct values; neither `RXTERMS` nor `rxterms` names one |
| State.Top5 | src/agent/nodes.py:133 | `results[:5]` is the first `min(len, 5)` results, in order |
| State.AgentState.Initial | src/agent/graph.py:60-69 | the initial state holds the query and the caller's turns, with no intent, audit calls, results, confidences or summary |
| ClinicalTables.FallbackDisplay | src/api/clinical_tables.py:118-119 | the synthesised display starts with the upper-cased endpoint and `": "`, ends with the rendered code, and is never blank |
| ClinicalTables.ParseRow | src/api/clinical_tables.py:112-125 | a row is skipped exactly when it is not a list of at least two elements; it raises exactly when a configured column is past its end or its display is truthy but not a string; an emitted record carries the row's code and the endpoint as its system, and its display is the row's display when that is a non-blank string, else the synthesised `ENDPOINT: code` |
| ClinicalTables.ParseRows | src/api/clinical_tables.py:109-128 | the row loop collects the records of the rows it keeps, in order, or aborts when a row raises |
| ClinicalTables.RaiseIsFinal | src/api/clinical_tables.py:112-135 | once a row has raised, no later row can undo the abort |
| ClinicalTables.RowsRaiseIffSomeRowRaises | src/api/clinical_tables.py:112-135 | the loop aborts exactly when some list row has a configured column past its end or a truthy display that is not a string |
| ClinicalTables.RowsYieldOneRecordEach | src/api/clinical_tables.py:112-125 | without an abort, there is one record per kept row, each that row's own record, in order |
| ClinicalTables.KeptAreRows | src/api/clinical_tables.py:112-113 | the kept rows are rows of the reply, each a list with at least two elements, and no more than the reply holds |
| ClinicalTables.AllGoodRows | src/api/clinical_tables.py:112-125 | when every row is a list of at least two elements and none raises, nothing aborts and every row is kept |
| ClinicalTables.NormalizeOutcomes | src/api/clinical_tables.py:103-135 | a reply gives records exactly when it is a list whose element 3 is a list of rows none of which raises; it is logged as unexpected exactly for a string, a list of at most three elements or without a list at index 3, or a dict of at most three keys; every other reply ends in the exception handler |
| ClinicalTables.Search | src/api/clinical_tables.py:78-135 | `search` returns the parsed records, or `[]` for a transport failure, an unexpected envelope or an aborted row loop |
| ClinicalTables.ConfigLayout | src/api/clinical_tables.py:16-59 | `ConfigFor`: every configuration reads results from element 3, the code from column 0 and the display from column 1 |
| ClinicalTables.UnknownEndpointUsesIcd | src/api/clinical_tables.py:89 | `ConfigFor` and `BuildRequest`: an unknown endpoint is searched with the ICD-10 fields, but under its own URL path |
| ClinicalTables.RequestParameters | src/api/clinical_tables.py:91-98 | `BuildRequest`: the request carries `sf`, `df`, `maxList` = limit and `terms` = query, in that order |
| ClinicalTables.SearchRecordsWellFormed | src/api/clinical_tables.py:121-125 | every record returned has the endpoint as its system, a non-blank display and no relevance score |
| ClinicalTables.MissingEnvelopeYieldsNothing | src/api/clinical_tables.py:109-131 | a reply whose element 3 is missing or not a list gives no records |
| ClinicalTables.RaisingRowEmptiesCall | src/api/clinical_tables.py:112-135 | for any list reply, one raising row anywhere in the list at index 3 empties the whole call, whatever the other rows hold |
| ClinicalTables.NoLocalTruncation | src/api/clinical_tables.py:91-128 | the limit is only sent to the service: when the list at index 3 holds more rows than the limit, all of them lists of at least two elements and none raising, there is one record per row |
| Intent.LastThree | src/llm/intent.py:51 | the context looks at the last `min(len, 3)` turns |
| Intent.BuildContext | src/llm/intent.py:49-57 | the context loop builds one line per considered turn that has an intent, joined by newlines, or "No previous context" |
| Intent.ContextLinesFromTurns | src/llm/intent.py:51-55 | each context line renders some considered turn that has an intent; there are no lines exactly when no turn has an intent |
| Intent.IntentIndices | src/llm/intent.py:51-52 | the positions of the turns that have an intent, ascending, each such turn's position included |
| Intent.IntentIndicesCount | src/llm/intent.py:51-52 | there is exactly one position per turn with an intent |
| Intent.ContextLinesInOrder | src/llm/intent.py:51-55 | there is one context line per turn with an intent, and the k-th line renders the k-th such turn: none skipped, order kept |
| Intent.ContextBounded | src/llm/intent.py:51-55 | at most three context lines, each from one of the last three turns |
| Intent.NoContextIffNoIntent | src/llm/intent.py:57 | the context is "No previous context" exactly when none of the last three turns has an intent |
| Intent.FirstIndex | src/llm/intent.py:73 | the first occurrence of a character, or none |
| Intent.LastIndex | src/llm/intent.py:73 | the last occurrence of a character, or none |
| Intent.JsonSpanIsLeftmostLongest | src/llm/intent.py:73-74 | `JsonSpan`: the extracted span is the match of `\{.*\}` with DOTALL: leftmost start, then longest; none exactly when no `}` follows the first `{` |
| Intent.CandidateIsBraced | src/llm/intent.py:73-75 | `JsonCandidate`: the extracted text starts with `{` and ends with `}` |
| Intent.SystemsOf | src/llm/intent.py:82 | converting the secondaries yields one system per value, or fails |
| Intent.SystemsOfNoSilentDrop | src/llm/intent.py:82 | the conversion fails exactly when some value is not a member's value; on success each system has exactly its value's name |
| Intent.InterpretAcceptsExactlyValid | src/llm/intent.py:80-85 | `Interpret`: a decoded object becomes an intent exactly when `primary_system` is present and valid and every secondary is valid; missing optional fields take their defaults |
| Intent.SecondariesKept | src/llm/intent.py:82 | an accepted object's secondaries are its listed values, in order, none dropped |
| Intent.NoJsonMeansFallback | src/llm/intent.py:72-88 | a failed completion, a reply without a JSON object, or text that does not decode all lead to the keyword fallback |
| Intent.KeywordFallbackOrder | src/llm/intent.py:90-121 | `KeywordFallback`: the diagnosis, lab and drug keyword rules apply in that order; the drug rule raises; every returned intent keeps the query and has ICD-10 or LOINC as primary |
| Intent.DrugQueryRaises | src/llm/intent.py:108-114 | the query "MG" matches the drug rule case-insensitively, and that rule raises |
| Intent.Classify | src/llm/intent.py:46-88 | `classify` returns the intent the completion describes, or else the keyword fallback's outcome |
| Strings.NatToStringRoundTrip | src/agent/graph.py:78 | the decimal rendering of a count reads back as that count |
| Strings.NumberThenText | src/agent/graph.py:78 | a count rendered in front of a text reads back from the digits before that text |
| Strings.WordsAreTokens | src/agent/nodes.py:194-195 | `split()` yields non-empty words free of whitespace |
| Strings.WordsEmptyIffBlank | src/agent/nodes.py:194-198 | `split()` yields no words exactly for a blank string |
| Nodes.EndpointFor | src/agent/nodes.py:158-170 | each system's endpoint is its value, except `loinc_items` for LOINC and `rxterms` for RxNorm |
| Nodes.SearchSystem | src/agent/nodes.py:156-183 | `_search_system` searches the endpoint its system maps to |
| Nodes.EndpointMapTotal | src/agent/nodes.py:158-170 | every system has an endpoint with a configuration, no two systems share one, and only LOINC and RxNorm use a name other than their value |
| Nodes.EndpointKnown | src/agent/nodes.py:158-170 | each system's endpoint is configured, and differs from the system's value exactly for LOINC and RxNorm |
| Nodes.SystemFieldIsEndpoint | src/agent/nodes.py:156-180 | every hit names the endpoint it came from, not the system's value |
| Nodes.ClassifyIntentNode | src/agent/nodes.py:29-48 | the node stores the classifier's intent, or ICD-10 with no secondaries, the raw query and `unknown` when the classifier raises |
| Nodes.FailedCompletionIntent | src/agent/nodes.py:29-48 | with a failed completion the intent keeps the query and is ICD-10, or LOINC for a lab query; a drug query ends as the node's ICD-10 fallback |
| Nodes.SearchPrimaryNode | src/agent/nodes.py:51-70 | the primary node appends one audit record and stores the primary's hits under its value |
| Nodes.PrimaryAlwaysRecorded | src/agent/nodes.py:57-65 | the primary search appends exactly one audit record with its count, and stores its list (even when empty) under its value; other keys are untouched |
| Nodes.FirstThree | src/agent/nodes.py:79 | `secondary_systems[:3]` is the first `min(len, 3)` secondaries |
| Nodes.SearchSecondaryNode | src/agent/nodes.py:73-94 | the secondary node appends one audit record per searched secondary and stores non-empty hits |
| Nodes.RecordSecondary | src/agent/nodes.py:82-89 | after a secondary search the loop appends its audit record, and stores its hits only when there are some |
| Nodes.SecondaryCallsAppended | src/agent/nodes.py:79-86 | the secondary loop appends one audit record per visited system, in order, with its hit count |
| Nodes.SecondaryKeys | src/agent/nodes.py:88-89 | after the loop a key is present exactly when it was before or some visited system with that value found hits |
| Nodes.SecondaryKeepsOtherKeys | src/agent/nodes.py:88-89 | a key no visited system has keeps its list |
| Nodes.SecondaryValues | src/agent/nodes.py:79-89 | every stored list is the earlier one or the hits of a visited system with that key |
| Nodes.SecondaryStoresFound | src/agent/nodes.py:79-89 | a visited system that found hits ends with exactly those hits stored |
| Nodes.SecondaryOverwrites | src/agent/nodes.py:65-89 | a secondary among the first three that finds hits replaces whatever its key held, including the primary's ten-hit list when it repeats the primary |
| Nodes.SecondaryVisitsFirstThree | src/agent/nodes.py:79-86 | the audit list grows by one record per system among the first three secondaries, in order, with the refined query |
| Nodes.SecondaryCappedAtThree | src/agent/nodes.py:79 | with four secondaries, only the first three are searched |
| Nodes.EmptySecondaryNotStored | src/agent/nodes.py:88-89 | a secondary without hits adds no key |
| Nodes.Confidence | src/agent/nodes.py:135 | the count-based confidence lies in [0, 1], is positive for any hit and is 1 exactly from ten hits on |
| Nodes.NonEmptyKeysMembers | src/agent/nodes.py:130-131 | the aggregated keys are exactly the raw keys with non-empty lists |
| Nodes.AggregateResults | src/agent/nodes.py:125-140 | the aggregator keeps each non-empty list's first five hits and the count-based confidence, in raw-key order |
| Nodes.CountAggregateMeaning | src/agent/nodes.py:130-135 | filtered results and confidences share the keys of the non-empty raw lists, in order, holding the top five and `min(n/10, 1)` |
| Nodes.CountAggregateKeeps | src/agent/nodes.py:130-135 | for a valid raw map, a key is aggregated exactly when its raw list is non-empty |
| Nodes.CountExample | src/agent/nodes.py:133-135 | twelve hits give confidence 1.0 and five kept; three hits give 0.3 and three kept |
| Nodes.SummarizeResultsNode | src/agent/nodes.py:143-153 | the summary node stores the summariser's text, or leaves the summary alone and reports its error |
| Nodes.RelevanceScore | src/agent/nodes.py:186-203 | the score lies in [0, 1]; it is 1 when the lowered query occurs in the lowered text, else the word Jaccard similarity, or 0 for a query without words |
| Nodes.JaccardBounds | src/agent/nodes.py:200-203 | the word-set similarity lies in [0, 1] |
| Nodes.JaccardOneIffEqual | src/agent/nodes.py:200-203 | the word-set similarity is 1 exactly when the two word sets are equal |
| Nodes.ScoreBatch | src/agent/nodes.py:105-111 | the scoring loop keeps, in order, the first five hits that score above 0.3, and writes their scores into the list |
| Nodes.KeptScoredIgnoresTail | src/agent/nodes.py:106 | hits after the fifth never influence what is kept |
| Nodes.KeptScoredAtMostFive | src/agent/nodes.py:106-111 | at most five hits are kept |
| Nodes.KeptScoredAboveThreshold | src/agent/nodes.py:109-111 | every kept hit carries a score strictly above 0.3 and at most 1 |
| Nodes.InsertByScore | src/agent/nodes.py:114 | inserting adds exactly the inserted hit |
| Nodes.SortByScore | src/agent/nodes.py:114 | sorting by score is a permutation |
| Nodes.InsertKeepsDescending | src/agent/nodes.py:114 | inserting into a descending list keeps it descending |
| Nodes.SortIsDescending | src/agent/nodes.py:114 | the sorted list is in descending score order |
| Nodes.MaxScore | src/agent/nodes.py:115 | the maximum is attained and bounds every score |
| Nodes.Visit | src/agent/nodes.py:104-117 | one pass of the outer loop sets the system's confidence and its annotated list, and sets its filtered entry exactly when some hit is kept, leaving it untouched otherwise |
| Nodes.VisitSystem | src/agent/nodes.py:104-117 | the loop body for one system has the effect of `Visit` |
| Nodes.RelevanceAggregate | src/agent/nodes.py:99-118 | after visiting any keys the three maps stay valid, the annotated map keeps exactly the raw keys, and every filtered key has a confidence |
| Nodes.AggregateByRelevance | src/agent/nodes.py:97-122 | the relevance aggregator's loop over the raw keys, in order, ends in the state `RelevanceAggregate` describes |
| Nodes.RelevanceAggregateKeys | src/agent/nodes.py:104-117 | the confidence keys are the visited keys present in the raw map, in visiting order |
| Nodes.RelevanceAggregateVisited | src/agent/nodes.py:104-117 | every key with a confidence holds the scorer's confidence and annotated list, and has a filtered entry exactly when some hit was kept, holding those hits sorted by score |
| Nodes.RelevanceAggregateUnvisited | src/agent/nodes.py:104-112 | a raw key not yet visited keeps its raw list |
| Nodes.RelevanceAggregateKeeps | src/agent/nodes.py:97-122 | every raw key gets a confidence (the maximum kept score, or 0 when nothing is kept), in raw-key order; keys with kept hits get them sorted by descending score, and no other key is filtered; the raw lists carry the scores written in place |
| Nodes.RelevanceFilteredSortedAndScored | src/agent/nodes.py:113-117 | a filtered list is a descending permutation of the kept hits, and its confidence is its first hit's score, above 0.3 |
| Summarizer.ResultsText | src/llm/summarizer.py:24-31 | the loops build a header and up to five item lines per system with hits, in key order, joined by newlines, or "No codes found" |
| Summarizer.AppendSystem | src/llm/summarizer.py:25-29 | one pass of the outer loop appends nothing for an empty list, else the header with the full count and the first five item lines |
| Summarizer.AppendItems | src/llm/summarizer.py:28-29 | the inner loop appends one item line per item, in order |
| Summarizer.NoPiecesIffAllEmpty | src/llm/summarizer.py:25-31 | the loops contribute nothing exactly when every listed system's list is empty |
| Summarizer.NoCodesIffNoResults | src/llm/summarizer.py:31 | the text is "No codes found" exactly when no system has hits |
| Summarizer.FirstPieceIsHeader | src/llm/summarizer.py:27 | a non-empty text starts with the first header's newline |
| Summarizer.SystemListed | src/llm/summarizer.py:25-29 | each system with hits appears as one run: its header with the full count, then its first five item lines |
| Summarizer.PiecesPrefix | src/llm/summarizer.py:25 | the pieces for a prefix of the keys are a prefix of the pieces |
| Summarizer.PiecesAccountedFor | src/llm/summarizer.py:25-29 | every line is a header or one of the top five item lines of some system with hits |
| Summarizer.Summarize | src/llm/summarizer.py:21-41 | `summarize` sends the results text with the concept type and primary value, and returns the completion's text or lets the failure escape |
| Summarizer.SummaryFailsOnlyWithCompletion | src/llm/summarizer.py:33-41 | the summary fails exactly when the completion fails, and otherwise is the completion's text |
| Graph.ShouldSearchSecondary | src/agent/graph.py:33-34 | the branch after the primary search goes to the secondary search exactly when the intent lists secondaries, else to aggregation |
| Graph.Next | src/agent/graph.py:29-47 | no edge leads back to classification, every edge from a node lowers its distance to the end, and the end stays put |
| Graph.Topology | src/agent/graph.py:22-47 | from the entry node a run visits classification, the primary search, the secondary search exactly when there are secondaries, aggregation and summarisation, each once |
| Graph.Classified | src/agent/nodes.py:38-48 | the entry node only sets the intent, and always sets one |
| Graph.Step | src/agent/nodes.py:51-153 | every node after classification keeps the maps valid and the intent unchanged; only summarisation can raise |
| Graph.RunNode | src/agent/graph.py:23-47 | running one node on the state record has exactly that node's effect or error |
| Graph.Advance | src/agent/graph.py:29-47 | running a node and following its outgoing edge lowers the rank and leaves the rest of the run unchanged, or raises what the run raises |
| Graph.Drive | src/agent/graph.py:29-47 | the driver loop from the primary search reaches the end or stops at the first error, with the graph's outcome |
| Graph.Invoke | src/agent/graph.py:72 | invoking the compiled graph classifies and then drives the remaining nodes to the graph's outcome |
| Graph.TurnFor | src/agent/graph.py:75-79 | the recorded turn holds the query, the run's intent, and a summary whose digits before " systems with results" read back as the number of systems with filtered results |
| Graph.Trail.constructor | src/agent/graph.py:56 | a fresh history list holds the given turns |
| Graph.RunAgent | src/agent/graph.py:52-81 | a missing or empty history gets a fresh list and a non-empty one is extended in place; a completed run appends exactly one turn, a failed run appends nothing |
| Graph.DriveIsComposition | src/agent/graph.py:29-47 | after classification the run is the primary search, the secondary search when there are secondaries, aggregation and summarisation, composed in that order |
| Graph.SearchesAreComposition | src/agent/graph.py:33-45 | from the primary search, the run reaches aggregation with the audit list and raw results of the searches for its intent |
| Graph.TailIsComposition | src/agent/graph.py:46-47 | from aggregation on, the run is count-based aggregation followed by summarisation, failing only with the summariser's error |
| Graph.RunIsComposition | src/agent/graph.py:52-72 | the run's outcome is classification, the searches, aggregation and summarisation composed in that order |
| Graph.RunFailsOnlyInSummary | src/agent/graph.py:72 | a run fails exactly when the summary completion fails, with the summariser's error |
| Graph.SearchShape | src/agent/nodes.py:51-140 | for any intent: one audit record for the primary then one per searched secondary (at most three); the primary's key is stored; filtered results and confidences share their keys, exactly the non-empty raw keys, each with at most five hits |
| Graph.SnapshotShape | src/agent/nodes.py:51-140 | a state whose searches and aggregation are those for its intent has that shape |
| Graph.CompletedRunShape | src/agent/graph.py:52-81 | a completed run carries the classified intent and has that shape |

## Left out

- HTTP transport, SSL, sessions, timeouts and logging: the search service is a function parameter, and an exchange either yields a decoded body or fails.
- Prompt templates, provider selection and the language model itself: the completion service is a function parameter. The model keeps only the variables each prompt is filled with.
- The lazily created classifier and summariser singletons, and a failure while constructing them: construction is outside the model.
- Asynchrony and LangGraph's merging of node return values into the state: nodes update the state record in sequence.
- JSON numbers are integers; floating-point values in replies are not modelled.
- Float arithmetic: confidences and relevance scores are exact rationals (`real`), so `len / 10` and the Jaccard ratio are not rounded.
- `str.lower` and `str.upper` change ASCII letters only; Unicode case mapping is not modelled.
- `repr` of strings inside rendered lists and dicts uses plain single quotes, without escaping.
- Duplicate keys in a decoded object: an object is modelled as `json.loads` builds it, with distinct keys.
- Intent.Interpret: a non-string `refined_query` or `concept_type` is stored as its `str()` rendering. URL encoding, the prompts and the f-strings render it that way too. Two uses differ and are not modelled: the audit records keep the raw value (src/agent/nodes.py:61, :84), and `calculate_relevance_score` raises on `.lower()` of a non-string query (src/agent/nodes.py:188).
- Whether the model's instructions are followed (e.g. a wheelchair query classified as equipment) depends on the language model and is outside the model.
- Summarizer.Summarize: the `confidence_scores` argument is accepted but unused by the source, so the model does not take it. The `primary_system` and `intent_type` prompt variables are passed although the template does not use them.
- Nodes.SecondaryOverwrites: the services are functions, so a repeated secondary system gets the same hits each time; a service answering the same request differently is not modelled.
- Nodes.SortByScore: descending order and permutation are proved. That equal scores keep their original order, as Python's stable sort does, is not stated as a lemma.
- `src/ui/app.py` (the Streamlit interface) is not part of this model.
