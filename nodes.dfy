/**
 * The pipeline's nodes: classification with its last-resort fallback, the
 * primary and secondary searches that fill the audit list and the raw result
 * map, the count-based aggregator wired into the graph, and the unwired
 * relevance-scoring aggregator with its scorer.
 */
module Nodes {
  import opened Wrappers
  import opened Strings
  import opened Json
  import opened Dicts
  import opened State
  import Completion
  import opened ClinicalTables
  import opened Intent
  import Summarizer

  // ---------------------------------------------------------------------------
  // Searching one coding system

  /** `_search_system`'s endpoint map; it covers every member. */
  function EndpointFor(system: CodingSystem): (r: string)
    ensures r == if system == LOINC then "loinc_items" else if system == RXNORM then "rxterms" else system.Value()
  {
    match system
    case ICD10 => "icd10cm"
    case LOINC => "loinc_items"
    case RXNORM => "rxterms"
    case HCPCS => "hcpcs"
    case UCUM => "ucum"
    case HPO => "hpo"
  }

  /** The list `_search_system(system, query, limit)` returns. */
  function SearchSystemSpec(system: CodingSystem, query: string, limit: int, server: Request -> Reply): seq<CodeResult> {
    SearchSpec(EndpointFor(system), query, limit, server)
  }

  /** `_search_system`. */
  method SearchSystem(system: CodingSystem, query: string, limit: int, server: Request -> Reply)
    returns (results: seq<CodeResult>)
    ensures results == SearchSystemSpec(system, query, limit, server)
  {
    var endpoint := EndpointFor(system);
    results := Search(endpoint, query, limit, server);
  }

  /**
   * Every system maps to a distinct endpoint the adapter configures, so the
   * no-mapping branch never runs. The map's key is the system's value, but the
   * records' `system` field is the endpoint name: for LOINC and RXNORM the two differ.
   */
  lemma EndpointMapTotal(s: CodingSystem, t: CodingSystem)
    ensures EndpointFor(s) in Endpoints && TableEntry(EndpointFor(s)).Some?
    ensures EndpointFor(s) == EndpointFor(t) ==> s == t
    ensures EndpointFor(s) == s.Value() <==> s != LOINC && s != RXNORM
  {
    EndpointKnown(s);
    EndpointTag(s);
    EndpointTag(t);
    var e, f := EndpointFor(s), EndpointFor(t);
    if s != t {
      assert |e| != |f| || e[0] != f[0];
    }
  }

  /** The endpoints' lengths and first letters, which already tell them apart. */
  lemma EndpointTag(s: CodingSystem)
    ensures |EndpointFor(s)| == match s
      case ICD10 => 7 case LOINC => 11 case RXNORM => 7 case HCPCS => 5 case UCUM => 4 case HPO => 3
    ensures EndpointFor(s)[0] == match s
      case ICD10 => 'i' case LOINC => 'l' case RXNORM => 'r' case HCPCS => 'h' case UCUM => 'u' case HPO => 'h'
  {
  }

  /** The endpoint of `s` has a row in the table; it differs from `s.Value()` in length exactly for LOINC and RXNORM. */
  lemma EndpointKnown(s: CodingSystem)
    ensures EndpointFor(s) in Endpoints && TableEntry(EndpointFor(s)).Some?
    ensures EndpointFor(s) == s.Value() <==> s != LOINC && s != RXNORM
  {
    match s
    case ICD10 => assert EndpointFor(s) == Endpoints[0];
    case LOINC => assert EndpointFor(s) == Endpoints[1] && |EndpointFor(s)| != |s.Value()|;
    case RXNORM => assert EndpointFor(s) == Endpoints[2] && |EndpointFor(s)| != |s.Value()|;
    case HCPCS => assert EndpointFor(s) == Endpoints[3];
    case UCUM => assert EndpointFor(s) == Endpoints[4];
    case HPO => assert EndpointFor(s) == Endpoints[5];
  }

  /** Each record from `_search_system(s, ...)` carries the endpoint name, not the key `s.Value()` it is stored under. */
  lemma SystemFieldIsEndpoint(s: CodingSystem, query: string, limit: int, server: Request -> Reply)
    ensures forall r :: r in SearchSystemSpec(s, query, limit, server) ==> r.system == EndpointFor(s)
  {
    SearchRecordsWellFormed(EndpointFor(s), query, limit, server);
  }

  // ---------------------------------------------------------------------------
  // Classification node

  /** What `classify_intent_node` stores: the classifier's intent, or ICD-10 with the raw query if it raised. */
  function NodeIntent(query: string, r: Result<SearchIntent>): SearchIntent {
    match r
    case Ok(intent) => intent
    case Raised(_) => SearchIntent(ICD10, [], query, "unknown")
  }

  /** `classify_intent_node`. */
  method ClassifyIntentNode(state: AgentState, llm: Completion.Prompt -> Completion.Reply, decode: string -> Option<Json>)
    modifies state`intent
    ensures state.intent == Some(NodeIntent(state.userQuery, ClassifySpec(state.userQuery, state.history, llm, decode)))
  {
    var r := Classify(state.userQuery, state.history, llm, decode);
    state.intent := Some(NodeIntent(state.userQuery, r));
  }

  /**
   * When the completion fails the node still yields an intent with the raw
   * query: ICD-10 unless only lab keywords match (then LOINC); a drug-only
   * query ends in the node's own fallback.
   */
  lemma FailedCompletionIntent(query: string, history: seq<HistoryEntry>, llm: Completion.Prompt -> Completion.Reply, decode: string -> Option<Json>)
    requires llm(Completion.IntentPrompt(ContextText(history), query)).Failed?
    ensures var i := NodeIntent(query, ClassifySpec(query, history, llm, decode));
      var q := Lower(query);
      && i.refinedQuery == query
      && (i.primary == ICD10 || (i.primary == LOINC && !ContainsAny(q, DiagnosisWords) && ContainsAny(q, LabWords)))
      && (!ContainsAny(q, DiagnosisWords) && !ContainsAny(q, LabWords) && ContainsAny(q, DrugWords) ==>
            i == SearchIntent(ICD10, [], query, "unknown"))
  {
    KeywordFallbackOrder(query);
  }

  // ---------------------------------------------------------------------------
  // Dispatch

  /** The two fields the search nodes write: the audit list and the raw result map. */
  datatype Dispatch = Dispatch(calls: seq<ApiCall>, raw: Dict<seq<CodeResult>>)

  /** The effect of `search_primary_node`. */
  function PrimaryStep(d: Dispatch, intent: SearchIntent, server: Request -> Reply): (r: Dispatch)
    requires d.raw.Valid()
    ensures r.raw.Valid()
  {
    var results := SearchSystemSpec(intent.primary, intent.refinedQuery, 10, server);
    Dispatch(d.calls + [ApiCall(intent.primary.Value(), intent.refinedQuery, |results|)],
             d.raw.Put(intent.primary.Value(), results))
  }

  /** `intent.secondary_systems[:3]`. */
  function FirstThree(systems: seq<CodingSystem>): (r: seq<CodingSystem>)
    ensures |r| == if |systems| < 3 then |systems| else 3
    ensures r == systems[..|r|]
  {
    if |systems| <= 3 then systems else systems[..3]
  }

  /** What `_search_system(s, query, limit=5)` returns for each secondary `s`. */
  function SecondarySearch(query: string, server: Request -> Reply): CodingSystem -> seq<CodeResult> {
    s => SearchSystemSpec(s, query, 5, server)
  }

  /** The effect of the secondary loop after it has visited `systems`, each search answered by `found`. */
  function SecondaryFold(d: Dispatch, systems: seq<CodingSystem>, query: string, found: CodingSystem -> seq<CodeResult>): (r: Dispatch)
    requires d.raw.Valid()
    ensures r.raw.Valid()
    decreases |systems|
  {
    if systems == [] then d
    else
      var s := systems[|systems| - 1];
      SecondaryVisit(SecondaryFold(d, systems[..|systems| - 1], query, found), s, query, found(s))
  }

  /** One pass of the secondary loop: the search for `s` is audited, and its list stored when non-empty. */
  function SecondaryVisit(d: Dispatch, s: CodingSystem, query: string, results: seq<CodeResult>): (r: Dispatch)
    requires d.raw.Valid()
    ensures r.raw.Valid()
  {
    Dispatch(d.calls + [ApiCall(s.Value(), query, |results|)],
             if results != [] then d.raw.Put(s.Value(), results) else d.raw)
  }

  /** Visiting one more system appends its audit record and stores its list when non-empty. */
  lemma SecondaryFoldNext(d: Dispatch, systems: seq<CodingSystem>, query: string, found: CodingSystem -> seq<CodeResult>, i: nat)
    requires d.raw.Valid() && i < |systems|
    ensures SecondaryFold(d, systems[..i + 1], query, found) ==
      SecondaryVisit(SecondaryFold(d, systems[..i], query, found), systems[i], query, found(systems[i]))
  {
    assert systems[..i + 1][..i] == systems[..i];
  }

  /** The effect of `search_secondary_node`. */
  function SecondaryStep(d: Dispatch, intent: SearchIntent, server: Request -> Reply): (r: Dispatch)
    requires d.raw.Valid()
    ensures r.raw.Valid()
  {
    SecondaryFold(d, FirstThree(intent.secondaries), intent.refinedQuery, SecondarySearch(intent.refinedQuery, server))
  }

  /** `search_primary_node`. */
  method SearchPrimaryNode(state: AgentState, server: Request -> Reply)
    requires state.intent.Some? && state.rawResults.Valid()
    modifies state`apiCalls, state`rawResults
    ensures Dispatch(state.apiCalls, state.rawResults)
         == PrimaryStep(Dispatch(old(state.apiCalls), old(state.rawResults)), state.intent.value, server)
  {
    var intent := state.intent.value;
    var results := SearchSystem(intent.primary, intent.refinedQuery, 10, server);
    state.apiCalls := state.apiCalls + [ApiCall(intent.primary.Value(), intent.refinedQuery, |results|)];
    state.rawResults := state.rawResults.Put(intent.primary.Value(), results);
  }

  /** `search_secondary_node`. */
  method SearchSecondaryNode(state: AgentState, server: Request -> Reply)
    requires state.intent.Some? && state.rawResults.Valid()
    modifies state`apiCalls, state`rawResults
    ensures Dispatch(state.apiCalls, state.rawResults)
         == SecondaryStep(Dispatch(old(state.apiCalls), old(state.rawResults)), state.intent.value, server)
  {
    var intent := state.intent.value;
    var systems := FirstThree(intent.secondaries);
    ghost var start := Dispatch(state.apiCalls, state.rawResults);
    ghost var found := SecondarySearch(intent.refinedQuery, server);
    var i := 0;
    while i < |systems|
      invariant 0 <= i <= |systems|
      invariant state.rawResults.Valid()
      invariant Dispatch(state.apiCalls, state.rawResults) == SecondaryFold(start, systems[..i], intent.refinedQuery, found)
    {
      SecondaryFoldNext(start, systems, intent.refinedQuery, found, i);
      var results := SearchSystem(systems[i], intent.refinedQuery, 5, server);
      assert results == found(systems[i]);
      RecordSecondary(state, systems[i], intent.refinedQuery, results);
      i := i + 1;
    }
    assert systems[..i] == systems;
  }

  /** The body of the secondary loop after the search: audit the call, store a non-empty list. */
  method RecordSecondary(state: AgentState, system: CodingSystem, query: string, results: seq<CodeResult>)
    requires state.rawResults.Valid()
    modifies state`apiCalls, state`rawResults
    ensures Dispatch(state.apiCalls, state.rawResults)
         == SecondaryVisit(Dispatch(old(state.apiCalls), old(state.rawResults)), system, query, results)
  {
    state.apiCalls := state.apiCalls + [ApiCall(system.Value(), query, |results|)];
    if results != [] {
      state.rawResults := state.rawResults.Put(system.Value(), results);
    }
  }

  /** The primary search appends exactly one record and always stores its list, even an empty one. */
  lemma PrimaryAlwaysRecorded(d: Dispatch, intent: SearchIntent, server: Request -> Reply)
    requires d.raw.Valid()
    ensures var r := PrimaryStep(d, intent, server);
      var results := SearchSystemSpec(intent.primary, intent.refinedQuery, 10, server);
      && |r.calls| == |d.calls| + 1 && r.calls[..|d.calls|] == d.calls
      && r.calls[|d.calls|] == ApiCall(intent.primary.Value(), intent.refinedQuery, |results|)
      && intent.primary.Value() in r.raw.entries && r.raw.entries[intent.primary.Value()] == results
      && (forall k :: k != intent.primary.Value() ==> (k in r.raw.entries <==> k in d.raw.entries))
      && (forall k :: k != intent.primary.Value() && k in d.raw.entries ==> r.raw.entries[k] == d.raw.entries[k])
  {
  }

  /** The audit records the secondary loop appends for `systems`, one per system, in order. */
  function SecondaryCalls(systems: seq<CodingSystem>, query: string, found: CodingSystem -> seq<CodeResult>): seq<ApiCall> {
    seq(|systems|, k requires 0 <= k < |systems| =>
      ApiCall(systems[k].Value(), query, |found(systems[k])|))
  }

  /** Some system among `systems` has the key `k` and a non-empty search result. */
  predicate StoredBy(systems: seq<CodingSystem>, k: string, query: string, found: CodingSystem -> seq<CodeResult>) {
    exists s :: s in systems && s.Value() == k && found(s) != []
  }

  /** The secondary loop appends one audit record per system visited, in order. */
  lemma {:induction false} SecondaryCallsAppended(d: Dispatch, systems: seq<CodingSystem>, query: string, found: CodingSystem -> seq<CodeResult>)
    requires d.raw.Valid()
    ensures SecondaryFold(d, systems, query, found).calls == d.calls + SecondaryCalls(systems, query, found)
    decreases |systems|
  {
    if systems != [] {
      var init := systems[..|systems| - 1];
      var s := systems[|systems| - 1];
      SecondaryCallsAppended(d, init, query, found);
      assert SecondaryCalls(systems, query, found)
          == SecondaryCalls(init, query, found) + [ApiCall(s.Value(), query, |found(s)|)];
    }
  }

  /** The secondary loop stores a key exactly when it was already there or some visited system with that key found something. */
  lemma {:induction false} SecondaryKeys(d: Dispatch, systems: seq<CodingSystem>, query: string, found: CodingSystem -> seq<CodeResult>)
    requires d.raw.Valid()
    ensures forall k :: k in SecondaryFold(d, systems, query, found).raw.entries <==>
      k in d.raw.entries || StoredBy(systems, k, query, found)
    decreases |systems|
  {
    if systems != [] {
      var init := systems[..|systems| - 1];
      var s := systems[|systems| - 1];
      assert systems == init + [s];
      SecondaryKeys(d, init, query, found);
      forall k ensures StoredBy(systems, k, query, found) <==>
        StoredBy(init, k, query, found) || (s.Value() == k && found(s) != [])
      {
        if StoredBy(systems, k, query, found) {
          var t :| t in systems && t.Value() == k && found(t) != [];
          if t != s { assert t in init; }
        }
      }
    }
  }

  /** A key no visited system has keeps its value. */
  lemma {:induction false} SecondaryKeepsOtherKeys(d: Dispatch, systems: seq<CodingSystem>, query: string, found: CodingSystem -> seq<CodeResult>, k: string)
    requires d.raw.Valid()
    requires k in d.raw.entries
    requires forall s :: s in systems ==> s.Value() != k
    ensures var r := SecondaryFold(d, systems, query, found).raw;
      k in r.entries && r.entries[k] == d.raw.entries[k]
    decreases |systems|
  {
    if systems != [] {
      var init := systems[..|systems| - 1];
      assert forall s :: s in init ==> s in systems;
      SecondaryKeepsOtherKeys(d, init, query, found, k);
    }
  }

  /** A stored key holds its old list or the list found by a visited system with that key. */
  lemma {:induction false} SecondaryValues(d: Dispatch, systems: seq<CodingSystem>, query: string, found: CodingSystem -> seq<CodeResult>, k: string)
    requires d.raw.Valid()
    requires k in SecondaryFold(d, systems, query, found).raw.entries
    ensures var r := SecondaryFold(d, systems, query, found).raw;
      || (k in d.raw.entries && r.entries[k] == d.raw.entries[k])
      || exists s :: s in systems && s.Value() == k && r.entries[k] == found(s)
    decreases |systems|
  {
    if systems != [] {
      var init := systems[..|systems| - 1];
      var s := systems[|systems| - 1];
      var results := found(s);
      var r := SecondaryFold(d, systems, query, found).raw;
      var prev := SecondaryFold(d, init, query, found).raw;
      if k == s.Value() && results != [] {
        assert r.entries[k] == results;
        assert s in systems;
      } else {
        assert k in prev.entries && r.entries[k] == prev.entries[k];
        SecondaryValues(d, init, query, found, k);
        assert forall t :: t in init ==> t in systems;
      }
    }
  }

  /** Every visited system whose search found something ends up stored under its key with that list. */
  lemma {:induction false} SecondaryStoresFound(d: Dispatch, systems: seq<CodingSystem>, query: string, found: CodingSystem -> seq<CodeResult>, s: CodingSystem)
    requires d.raw.Valid()
    requires s in systems && found(s) != []
    ensures var r := SecondaryFold(d, systems, query, found).raw;
      s.Value() in r.entries && r.entries[s.Value()] == found(s)
    decreases |systems|
  {
    var init := systems[..|systems| - 1];
    var t := systems[|systems| - 1];
    assert systems == init + [t];
    if t != s {
      SecondaryStoresFound(d, init, query, found, s);
      ValuesDistinct(s, t);
    }
  }

  /**
   * Every one of the first three secondaries whose limit-5 search finds
   * something is stored with that list; a secondary equal to the primary thus
   * replaces the primary's limit-10 list.
   */
  lemma SecondaryOverwrites(d: Dispatch, intent: SearchIntent, server: Request -> Reply, s: CodingSystem)
    requires d.raw.Valid()
    requires s in FirstThree(intent.secondaries)
    requires SecondarySearch(intent.refinedQuery, server)(s) != []
    ensures var r := SecondaryStep(d, intent, server).raw;
      s.Value() in r.entries && r.entries[s.Value()] == SecondarySearch(intent.refinedQuery, server)(s)
  {
    SecondaryStoresFound(d, FirstThree(intent.secondaries), intent.refinedQuery, SecondarySearch(intent.refinedQuery, server), s);
  }

  /** The secondary node audits exactly the first three secondaries (fewer if there are fewer), in order. */
  lemma SecondaryVisitsFirstThree(d: Dispatch, intent: SearchIntent, server: Request -> Reply)
    requires d.raw.Valid()
    ensures var r := SecondaryStep(d, intent, server);
      var n := if |intent.secondaries| < 3 then |intent.secondaries| else 3;
      && |r.calls| == |d.calls| + n
      && r.calls[..|d.calls|] == d.calls
      && forall j :: 0 <= j < n ==>
           r.calls[|d.calls| + j].system == intent.secondaries[j].Value() && r.calls[|d.calls| + j].query == intent.refinedQuery
  {
    var systems := FirstThree(intent.secondaries);
    var found := SecondarySearch(intent.refinedQuery, server);
    SecondaryCallsAppended(d, systems, intent.refinedQuery, found);
    var calls := SecondaryFold(d, systems, intent.refinedQuery, found).calls;
    forall j | 0 <= j < |systems|
      ensures calls[|d.calls| + j].system == intent.secondaries[j].Value() && calls[|d.calls| + j].query == intent.refinedQuery
    {
      assert calls[|d.calls| + j] == SecondaryCalls(systems, intent.refinedQuery, found)[j];
    }
  }

  /** Only the first three secondaries are searched: `[LOINC, RXNORM, HCPCS, UCUM]` gives audit records for loinc, rxnorm and hcpcs, never ucum. */
  lemma SecondaryCappedAtThree(d: Dispatch, intent: SearchIntent, server: Request -> Reply)
    requires d.raw.Valid()
    requires intent.secondaries == [LOINC, RXNORM, HCPCS, UCUM]
    ensures var r := SecondaryStep(d, intent, server);
      && |r.calls| == |d.calls| + 3
      && r.calls[|d.calls|].system == "loinc"
      && r.calls[|d.calls| + 1].system == "rxnorm"
      && r.calls[|d.calls| + 2].system == "hcpcs"
      && (forall k :: |d.calls| <= k < |r.calls| ==> r.calls[k].system != "ucum")
  {
    SecondaryVisitsFirstThree(d, intent, server);
    var r := SecondaryStep(d, intent, server);
    var n := |d.calls|;
    assert intent.secondaries[0] == LOINC && intent.secondaries[1] == RXNORM && intent.secondaries[2] == HCPCS;
    assert r.calls[n].system == "loinc";
    assert r.calls[n + 1].system == "rxnorm";
    assert r.calls[n + 2].system == "hcpcs";
  }

  /** A secondary whose search comes back empty is audited but not stored (unless the key was already there). */
  lemma EmptySecondaryNotStored(d: Dispatch, intent: SearchIntent, server: Request -> Reply, s: CodingSystem)
    requires d.raw.Valid()
    requires s.Value() !in d.raw.entries
    requires SearchSystemSpec(s, intent.refinedQuery, 5, server) == []
    ensures s.Value() !in SecondaryStep(d, intent, server).raw.entries
  {
    var systems := FirstThree(intent.secondaries);
    var found := SecondarySearch(intent.refinedQuery, server);
    SecondaryKeys(d, systems, intent.refinedQuery, found);
    forall t | t in systems && t.Value() == s.Value()
      ensures found(t) == []
    {
      ValuesDistinct(t, s);
    }
  }

  // ---------------------------------------------------------------------------
  // Count-based aggregation (the one the graph runs)

  /** `min(n / 10, 1.0)`. */
  function Confidence(n: nat): (c: real)
    ensures 0.0 <= c <= 1.0
    ensures n > 0 ==> c > 0.0
    ensures c == 1.0 <==> n >= 10
  {
    if (n as real) / 10.0 < 1.0 then (n as real) / 10.0 else 1.0
  }

  /** The keys of `keys` whose lists in `entries` are non-empty, in order. */
  function NonEmptyKeys(keys: seq<string>, entries: map<string, seq<CodeResult>>): (r: seq<string>)
    ensures forall k :: k in r ==> k in keys
    decreases |keys|
  {
    if keys == [] then []
    else
      var last := keys[|keys| - 1];
      NonEmptyKeys(keys[..|keys| - 1], entries) + (if last in entries && entries[last] != [] then [last] else [])
  }

  /** A key survives exactly when it is listed and its list is non-empty. */
  lemma {:induction false} NonEmptyKeysMembers(keys: seq<string>, entries: map<string, seq<CodeResult>>, k: string)
    ensures k in NonEmptyKeys(keys, entries) <==> k in keys && k in entries && entries[k] != []
    decreases |keys|
  {
    if keys != [] {
      var init := keys[..|keys| - 1];
      assert keys == init + [keys[|keys| - 1]];
      NonEmptyKeysMembers(init, entries, k);
    }
  }

  /** The two maps an aggregator produces. */
  datatype Aggregate = Aggregate(filtered: Dict<seq<CodeResult>>, confidence: Dict<real>)

  /** What `aggregate_results_node` builds after visiting `keys` of the raw map. */
  function CountAggregate(keys: seq<string>, entries: map<string, seq<CodeResult>>): (r: Aggregate)
    ensures r.filtered.Valid() && r.confidence.Valid()
    decreases |keys|
  {
    if keys == [] then Aggregate(Empty(), Empty())
    else
      var prev := CountAggregate(keys[..|keys| - 1], entries);
      var last := keys[|keys| - 1];
      if last in entries && entries[last] != [] then
        Aggregate(prev.filtered.Put(last, Top5(entries[last])), prev.confidence.Put(last, Confidence(|entries[last]|)))
      else prev
  }

  /** `aggregate_results_node`. */
  method AggregateResults(raw: Dict<seq<CodeResult>>) returns (filtered: Dict<seq<CodeResult>>, confidence: Dict<real>)
    ensures Aggregate(filtered, confidence) == CountAggregate(raw.keys, raw.entries)
  {
    filtered, confidence := Empty(), Empty();
    var i := 0;
    while i < |raw.keys|
      invariant 0 <= i <= |raw.keys|
      invariant Aggregate(filtered, confidence) == CountAggregate(raw.keys[..i], raw.entries)
    {
      ghost var next := raw.keys[..i + 1];
      assert next[..i] == raw.keys[..i] && next[i] == raw.keys[i];
      var system := raw.keys[i];
      if system in raw.entries && raw.entries[system] != [] {
        var results := raw.entries[system];
        filtered := filtered.Put(system, Top5(results));
        confidence := confidence.Put(system, Confidence(|results|));
      }
      assert Aggregate(filtered, confidence) == CountAggregate(next, raw.entries);
      i := i + 1;
    }
    assert raw.keys[..i] == raw.keys;
  }

  /**
   * Over distinct keys, the count aggregator keeps exactly the systems with a
   * non-empty raw list, in raw order, under the same keys in both maps; each
   * keeps its first five results, with confidence `min(n / 10, 1)`.
   */
  lemma {:induction false} CountAggregateMeaning(keys: seq<string>, entries: map<string, seq<CodeResult>>)
    requires Distinct(keys)
    ensures var r := CountAggregate(keys, entries);
      && r.filtered.keys == NonEmptyKeys(keys, entries) && r.confidence.keys == r.filtered.keys
      && (forall k :: k in r.filtered.entries ==>
            && k in entries && k in r.confidence.entries
            && r.filtered.entries[k] == Top5(entries[k])
            && r.confidence.entries[k] == Confidence(|entries[k]|))
    decreases |keys|
  {
    if keys != [] {
      var init := keys[..|keys| - 1];
      var last := keys[|keys| - 1];
      DistinctLast(keys);
      CountAggregateMeaning(init, entries);
      assert last !in CountAggregate(init, entries).filtered.entries;
    }
  }

  /** On a raw map, a system appears in the aggregate exactly when its raw list is non-empty. */
  lemma CountAggregateKeeps(raw: Dict<seq<CodeResult>>)
    requires raw.Valid()
    ensures var r := CountAggregate(raw.keys, raw.entries);
      && r.filtered.keys == r.confidence.keys
      && forall k :: k in r.filtered.entries <==> k in raw.entries && raw.entries[k] != []
  {
    CountAggregateMeaning(raw.keys, raw.entries);
    forall k ensures k in CountAggregate(raw.keys, raw.entries).filtered.entries <==> k in raw.entries && raw.entries[k] != [] {
      NonEmptyKeysMembers(raw.keys, raw.entries, k);
    }
  }

  /** With raw lists of lengths 12 (ICD-10) and 3 (LOINC) the confidences are 1.0 and 0.3, and ICD-10 keeps five results. */
  lemma CountExample(icd: seq<CodeResult>, loinc: seq<CodeResult>)
    requires |icd| == 12 && |loinc| == 3
    ensures Confidence(|icd|) == 1.0 && Confidence(|loinc|) == 0.3
    ensures |Top5(icd)| == 5 && |Top5(loinc)| == 3
  {
  }

  // ---------------------------------------------------------------------------
  // Summarisation node

  /** `summarize_results_node`: the summary on success; the summariser's error escapes with the summary untouched. */
  method SummarizeResultsNode(state: AgentState, llm: Completion.Prompt -> Completion.Reply) returns (failure: Option<string>)
    requires state.intent.Some?
    modifies state`summary
    ensures match Summarizer.SummarizeSpec(state.userQuery, state.filteredResults, state.intent.value, llm)
      case Ok(text) => failure == None && state.summary == text
      case Raised(e) => failure == Some(e) && state.summary == old(state.summary)
  {
    var r := Summarizer.Summarize(state.userQuery, state.filteredResults, state.intent.value, llm);
    if r.Raised? {
      return Some(r.error);
    }
    state.summary := r.value;
    failure := None;
  }

  // ---------------------------------------------------------------------------
  // Relevance scoring (present in the source, not wired into the graph)

  /** `set(s.split())`. */
  function WordSet(s: string): set<string> {
    set w | w in Words(s)
  }

  /** The Jaccard similarity of two word sets, the first non-empty. */
  function Jaccard(a: set<string>, b: set<string>): real
    requires a != {}
  {
    (|a * b| as real) / (|a + b| as real)
  }

  /** The text a result is scored against: `f"{display} {code}".lower()`. */
  function ScoreText(r: CodeResult): string {
    Lower(r.display + " " + Render(r.code))
  }

  /** `calculate_relevance_score`. */
  function RelevanceScore(r: CodeResult, query: string): (score: real)
    ensures 0.0 <= score <= 1.0
    ensures Contains(ScoreText(r), Lower(query)) ==> score == 1.0
    ensures !Contains(ScoreText(r), Lower(query)) ==>
      score == if WordSet(Lower(query)) == {} then 0.0 else Jaccard(WordSet(Lower(query)), WordSet(ScoreText(r)))
  {
    var q := Lower(query);
    var text := ScoreText(r);
    if Contains(text, q) then 1.0
    else
      var qw := WordSet(q);
      var tw := WordSet(text);
      if qw == {} then 0.0
      else
        JaccardBounds(qw, tw);
        Jaccard(qw, tw)
  }

  /** A subset is no larger than its superset, and equally large only when they are equal. */
  lemma {:induction false} SubsetCardinality(x: set<string>, y: set<string>)
    requires x <= y
    ensures |x| <= |y|
    ensures |x| == |y| ==> x == y
    decreases y
  {
    if x != y {
      var e :| e in y && e !in x;
      SubsetCardinality(x, y - {e});
    }
  }

  /** The Jaccard similarity lies in [0, 1]. */
  lemma JaccardBounds(a: set<string>, b: set<string>)
    requires a != {}
    ensures 0.0 <= Jaccard(a, b) <= 1.0
  {
    SubsetCardinality(a * b, a + b);
    SubsetCardinality(a, a + b);
  }

  /** A ratio of counts is 1 only when the counts are equal. */
  lemma RatioOne(x: nat, y: nat)
    requires y > 0 && (x as real) / (y as real) == 1.0
    ensures x == y
  {
    assert x as real == (x as real) / (y as real) * (y as real);
  }

  /** The Jaccard similarity is 1 exactly when the two word sets are equal. */
  lemma JaccardOneIffEqual(a: set<string>, b: set<string>)
    requires a != {}
    ensures Jaccard(a, b) == 1.0 <==> a == b
  {
    SubsetCardinality(a * b, a + b);
    SubsetCardinality(a, a + b);
    if a == b {
      assert a * b == a + b;
    }
    if Jaccard(a, b) == 1.0 {
      RatioOne(|a * b|, |a + b|);
      assert a * b == a + b;
      assert a == b by {
        forall x | x in a ensures x in b { assert x in a + b; }
        forall x | x in b ensures x in a { assert x in a + b; }
      }
    }
  }

  /** A result is kept when its score is strictly above this. */
  const Threshold: real := 0.3

  /** The relevance score a kept result carries; 0 for one without. */
  function ScoreOf(r: CodeResult): real {
    if r.relevance.Some? then r.relevance.value else 0.0
  }

  /** The list in `raw_results` after the scorer has written `relevance_score` into the results it keeps. */
  function Annotate(results: seq<CodeResult>, query: string): (r: seq<CodeResult>)
    ensures |r| == |results|
  {
    seq(|results|, i requires 0 <= i < |results| =>
      var s := RelevanceScore(results[i], query);
      if i < 5 && s > Threshold then results[i].(relevance := Some(s)) else results[i])
  }

  /** The results among the first five that score above the threshold, each carrying its score, in order. */
  function KeptScored(results: seq<CodeResult>, query: string): seq<CodeResult>
    decreases |results|
  {
    if results == [] then []
    else
      var prev := KeptScored(results[..|results| - 1], query);
      var last := results[|results| - 1];
      var s := RelevanceScore(last, query);
      if |results| - 1 < 5 && s > Threshold then prev + [last.(relevance := Some(s))] else prev
  }

  /** The inner loop of `aggregate_results_node1` over `results[:5]`. */
  method ScoreBatch(results: seq<CodeResult>, query: string) returns (kept: seq<CodeResult>, annotated: seq<CodeResult>)
    ensures kept == KeptScored(results, query)
    ensures annotated == Annotate(results, query)
  {
    kept := [];
    annotated := results;
    var top := Top5(results);
    var i := 0;
    while i < |top|
      invariant 0 <= i <= |top|
      invariant kept == KeptScored(results[..i], query)
      invariant |annotated| == |results|
      invariant forall j :: 0 <= j < |results| ==>
        annotated[j] == if j < i then Annotate(results, query)[j] else results[j]
    {
      assert results[..i + 1][..i] == results[..i];
      var result := top[i];
      var score := RelevanceScore(result, query);
      if score > Threshold {
        annotated := annotated[i := result.(relevance := Some(score))];
        kept := kept + [annotated[i]];
      }
      i := i + 1;
    }
    KeptScoredIgnoresTail(results, i, query);
  }

  /** Results past the fifth are never kept. */
  lemma {:induction false} KeptScoredIgnoresTail(results: seq<CodeResult>, n: nat, query: string)
    requires n == |Top5(results)|
    ensures KeptScored(results, query) == KeptScored(results[..n], query)
    decreases |results|
  {
    if |results| > n {
      assert results[..|results| - 1][..n] == results[..n];
      KeptScoredIgnoresTail(results[..|results| - 1], n, query);
    } else {
      assert results[..n] == results;
    }
  }

  /** At most five results are kept, and never more than there are. */
  lemma {:induction false} KeptScoredAtMostFive(results: seq<CodeResult>, query: string)
    ensures |KeptScored(results, query)| <= |Top5(results)|
    decreases |results|
  {
    if results != [] {
      KeptScoredAtMostFive(results[..|results| - 1], query);
    }
  }

  /** Every kept result carries its score, which is above the threshold. */
  lemma {:induction false} KeptScoredAboveThreshold(results: seq<CodeResult>, query: string)
    ensures forall r :: r in KeptScored(results, query) ==>
      r.relevance.Some? && Threshold < r.relevance.value <= 1.0
    decreases |results|
  {
    if results != [] {
      KeptScoredAboveThreshold(results[..|results| - 1], query);
    }
  }

  /** `x` belongs before all of `s` in a descending order. */
  function InsertByScore(x: CodeResult, s: seq<CodeResult>): (r: seq<CodeResult>)
    ensures multiset(r) == multiset(s) + multiset{x}
    ensures |r| == |s| + 1
  {
    if s == [] || ScoreOf(s[0]) < ScoreOf(x) then [x] + s
    else
      assert s == [s[0]] + s[1..];
      [s[0]] + InsertByScore(x, s[1..])
  }

  /** `sorted(kept, key=relevance_score, reverse=True)`. */
  function SortByScore(s: seq<CodeResult>): (r: seq<CodeResult>)
    ensures multiset(r) == multiset(s)
    ensures |r| == |s|
  {
    if s == [] then []
    else
      assert s == s[..|s| - 1] + [s[|s| - 1]];
      InsertByScore(s[|s| - 1], SortByScore(s[..|s| - 1]))
  }

  /** Scores never increase along the sequence. */
  predicate Descending(s: seq<CodeResult>) {
    forall i, j :: 0 <= i < j < |s| ==> ScoreOf(s[i]) >= ScoreOf(s[j])
  }

  /** Inserting into a descending sequence keeps it descending. */
  lemma {:induction false} InsertKeepsDescending(x: CodeResult, s: seq<CodeResult>)
    requires Descending(s)
    ensures Descending(InsertByScore(x, s))
    decreases |s|
  {
    if s != [] && ScoreOf(s[0]) >= ScoreOf(x) {
      InsertKeepsDescending(x, s[1..]);
      var r := InsertByScore(x, s);
      forall i, j | 0 <= i < j < |r| ensures ScoreOf(r[i]) >= ScoreOf(r[j]) {
        if i == 0 {
          assert r[j] in multiset(s[1..]) + multiset{x};
          assert r[j] in s[1..] || r[j] == x;
        }
      }
    }
  }

  /** Sorting yields a descending permutation. */
  lemma {:induction false} SortIsDescending(s: seq<CodeResult>)
    ensures Descending(SortByScore(s))
    decreases |s|
  {
    if s != [] {
      SortIsDescending(s[..|s| - 1]);
      InsertKeepsDescending(s[|s| - 1], SortByScore(s[..|s| - 1]));
    }
  }

  /** `max(r.relevance_score for r in kept)`. */
  function MaxScore(s: seq<CodeResult>): (m: real)
    requires s != []
    ensures forall r :: r in s ==> ScoreOf(r) <= m
    ensures exists r :: r in s && ScoreOf(r) == m
  {
    if |s| == 1 then ScoreOf(s[0])
    else
      var rest := MaxScore(s[1..]);
      if ScoreOf(s[0]) >= rest then ScoreOf(s[0]) else rest
  }

  /** The confidence the relevance aggregator gives one system: its best kept score, or 0 if nothing is kept. */
  function RelevanceConfidence(results: seq<CodeResult>, query: string): real {
    var kept := KeptScored(results, query);
    if kept == [] then 0.0 else MaxScore(kept)
  }

  /** The three maps the relevance aggregator leaves: filtered results, confidences and the annotated raw lists. */
  datatype Scored = Scored(filtered: Dict<seq<CodeResult>>, confidence: Dict<real>, annotated: Dict<seq<CodeResult>>)

  /** One iteration of `aggregate_results_node1`'s outer loop: scoring `system`'s raw list into the three maps. */
  function Visit(prev: Scored, system: string, results: seq<CodeResult>, query: string): (r: Scored)
    requires prev.filtered.Valid() && prev.confidence.Valid() && prev.annotated.Valid()
    ensures r.filtered.Valid() && r.confidence.Valid() && r.annotated.Valid()
    ensures r.confidence.entries == prev.confidence.entries[system := RelevanceConfidence(results, query)]
    ensures r.annotated.entries == prev.annotated.entries[system := Annotate(results, query)]
    ensures KeptScored(results, query) != [] ==> r.filtered.entries == prev.filtered.entries[system := SortByScore(KeptScored(results, query))]
    ensures KeptScored(results, query) == [] ==> r.filtered == prev.filtered
  {
    var kept := KeptScored(results, query);
    var annotated := prev.annotated.Put(system, Annotate(results, query));
    var confidence := prev.confidence.Put(system, RelevanceConfidence(results, query));
    if kept != [] then Scored(prev.filtered.Put(system, SortByScore(kept)), confidence, annotated)
    else Scored(prev.filtered, confidence, annotated)
  }

  /** What `aggregate_results_node1` has built after visiting `keys` of the raw map. */
  function RelevanceAggregate(keys: seq<string>, raw: Dict<seq<CodeResult>>, query: string): (r: Scored)
    requires raw.Valid()
    ensures r.filtered.Valid() && r.confidence.Valid() && r.annotated.Valid()
    ensures r.annotated.keys == raw.keys
    ensures forall k :: k in r.filtered.entries ==> k in r.confidence.entries
    decreases |keys|
  {
    if keys == [] then Scored(Empty(), Empty(), raw)
    else
      var prev := RelevanceAggregate(keys[..|keys| - 1], raw, query);
      var system := keys[|keys| - 1];
      if system !in raw.entries then prev else Visit(prev, system, raw.entries[system], query)
  }

  /** The body of the outer loop of `aggregate_results_node1` for one system. */
  method VisitSystem(filtered: Dict<seq<CodeResult>>, confidence: Dict<real>, annotated: Dict<seq<CodeResult>>,
                     system: string, results: seq<CodeResult>, query: string)
    returns (filtered': Dict<seq<CodeResult>>, confidence': Dict<real>, annotated': Dict<seq<CodeResult>>)
    requires filtered.Valid() && confidence.Valid() && annotated.Valid()
    ensures Scored(filtered', confidence', annotated') == Visit(Scored(filtered, confidence, annotated), system, results, query)
  {
    var kept, written := ScoreBatch(results, query);
    annotated' := annotated.Put(system, written);
    filtered' := filtered;
    if kept != [] {
      filtered' := filtered.Put(system, SortByScore(kept));
      confidence' := confidence.Put(system, MaxScore(kept));
    } else {
      confidence' := confidence.Put(system, 0.0);
    }
  }

  /** Visiting the raw map's keys one more step applies `Visit` to that key. */
  lemma RelevanceAggregateNext(raw: Dict<seq<CodeResult>>, i: nat, query: string)
    requires raw.Valid() && i < |raw.keys|
    ensures raw.keys[i] in raw.entries
    ensures RelevanceAggregate(raw.keys[..i + 1], raw, query)
      == Visit(RelevanceAggregate(raw.keys[..i], raw, query), raw.keys[i], raw.entries[raw.keys[i]], query)
  {
    var keys := raw.keys[..i + 1];
    assert keys[..|keys| - 1] == raw.keys[..i];
    assert keys[|keys| - 1] == raw.keys[i];
  }

  /** `aggregate_results_node1`: also returns `raw_results` as its in-place writes leave it. */
  method AggregateByRelevance(raw: Dict<seq<CodeResult>>, query: string)
    returns (filtered: Dict<seq<CodeResult>>, confidence: Dict<real>, annotated: Dict<seq<CodeResult>>)
    requires raw.Valid()
    ensures Scored(filtered, confidence, annotated) == RelevanceAggregate(raw.keys, raw, query)
  {
    filtered, confidence, annotated := Empty(), Empty(), raw;
    var i := 0;
    while i < |raw.keys|
      invariant 0 <= i <= |raw.keys|
      invariant Scored(filtered, confidence, annotated) == RelevanceAggregate(raw.keys[..i], raw, query)
    {
      RelevanceAggregateNext(raw, i, query);
      var system := raw.keys[i];
      filtered, confidence, annotated := VisitSystem(filtered, confidence, annotated, system, raw.entries[system], query);
      i := i + 1;
    }
    assert raw.keys[..i] == raw.keys;
  }

  /** Over distinct keys, the confidence map has exactly the visited raw keys, in order; the annotated map keeps the raw keys. */
  lemma {:induction false} RelevanceAggregateKeys(keys: seq<string>, raw: Dict<seq<CodeResult>>, query: string)
    requires raw.Valid()
    requires Distinct(keys)
    ensures var r := RelevanceAggregate(keys, raw, query);
      r.confidence.keys == KeysIn(keys, raw.entries)
    decreases |keys|
  {
    if keys != [] {
      DistinctLast(keys);
      RelevanceAggregateKeys(keys[..|keys| - 1], raw, query);
    }
  }

  /**
   * Every visited key's confidence is its best kept score (0 when nothing is
   * kept), its annotated list is the scored raw list, and it is filtered
   * exactly when it kept a hit, with its hits sorted by score.
   */
  ghost predicate VisitedScored(r: Scored, raw: Dict<seq<CodeResult>>, query: string)
    requires raw.Valid()
  {
    forall k :: k in r.confidence.entries ==> ScoredAt(r, raw, query, k)
  }

  /** Key `k` carries in all three maps what its raw list's scores give. */
  ghost predicate ScoredAt(r: Scored, raw: Dict<seq<CodeResult>>, query: string, k: string)
    requires raw.Valid()
  {
    && k in raw.entries && k in r.confidence.entries && k in r.annotated.entries
    && r.confidence.entries[k] == RelevanceConfidence(raw.entries[k], query)
    && r.annotated.entries[k] == Annotate(raw.entries[k], query)
    && (k in r.filtered.entries <==> KeptScored(raw.entries[k], query) != [])
    && (k in r.filtered.entries ==> r.filtered.entries[k] == SortByScore(KeptScored(raw.entries[k], query)))
  }

  /** Visiting one more raw key updates the three maps at that key only. */
  lemma RelevanceAggregateStep(keys: seq<string>, raw: Dict<seq<CodeResult>>, query: string)
    requires raw.Valid() && keys != [] && keys[|keys| - 1] in raw.entries
    ensures var prev, r := RelevanceAggregate(keys[..|keys| - 1], raw, query), RelevanceAggregate(keys, raw, query);
      var last := keys[|keys| - 1];
      var results := raw.entries[last];
      && r.confidence.entries == prev.confidence.entries[last := RelevanceConfidence(results, query)]
      && r.annotated.entries == prev.annotated.entries[last := Annotate(results, query)]
      && r.filtered.entries == if KeptScored(results, query) != [] then prev.filtered.entries[last := SortByScore(KeptScored(results, query))]
                               else prev.filtered.entries
  {
  }

  /** Updating the maps at one raw key by that key's scores keeps every visited key correctly scored. */
  lemma VisitedScoredStep(prev: Scored, r: Scored, raw: Dict<seq<CodeResult>>, query: string, last: string)
    requires raw.Valid() && last in raw.entries && VisitedScored(prev, raw, query)
    requires last !in prev.confidence.entries
    requires forall k :: k in prev.filtered.entries ==> k in prev.confidence.entries
    requires r.confidence.entries == prev.confidence.entries[last := RelevanceConfidence(raw.entries[last], query)]
    requires r.annotated.entries == prev.annotated.entries[last := Annotate(raw.entries[last], query)]
    requires r.filtered.entries == if KeptScored(raw.entries[last], query) != [] then prev.filtered.entries[last := SortByScore(KeptScored(raw.entries[last], query))]
                                   else prev.filtered.entries
    ensures VisitedScored(r, raw, query)
  {
    forall k | k in r.confidence.entries ensures ScoredAt(r, raw, query, k) {
      if k != last {
        assert ScoredAt(prev, raw, query, k);
      }
    }
  }

  /** Every key the relevance aggregator has visited is scored as its raw list demands. */
  lemma {:induction false} RelevanceAggregateVisited(keys: seq<string>, raw: Dict<seq<CodeResult>>, query: string)
    requires raw.Valid()
    requires Distinct(keys)
    ensures VisitedScored(RelevanceAggregate(keys, raw, query), raw, query)
    decreases |keys|
  {
    if keys != [] {
      var init, last := keys[..|keys| - 1], keys[|keys| - 1];
      DistinctLast(keys);
      RelevanceAggregateVisited(init, raw, query);
      if last in raw.entries {
        RelevanceAggregateKeys(init, raw, query);
        RelevanceAggregateStep(keys, raw, query);
        VisitedScoredStep(RelevanceAggregate(init, raw, query), RelevanceAggregate(keys, raw, query), raw, query, last);
      }
    }
  }

  /** A raw list the aggregator has not visited is left as it was. */
  lemma {:induction false} RelevanceAggregateUnvisited(keys: seq<string>, raw: Dict<seq<CodeResult>>, query: string)
    requires raw.Valid()
    ensures var r := RelevanceAggregate(keys, raw, query);
      forall k :: k in raw.entries && k !in r.confidence.entries ==> r.annotated.entries[k] == raw.entries[k]
    decreases |keys|
  {
    if keys != [] {
      RelevanceAggregateUnvisited(keys[..|keys| - 1], raw, query);
    }
  }

  /** On the whole raw map: every key gets a confidence and its annotated list, and the filtered map holds exactly the keys with a kept hit. */
  lemma RelevanceAggregateKeeps(raw: Dict<seq<CodeResult>>, query: string)
    requires raw.Valid()
    ensures var r := RelevanceAggregate(raw.keys, raw, query);
      && r.confidence.keys == raw.keys && r.annotated.keys == raw.keys
      && (forall k :: k in raw.entries ==>
            && r.confidence.entries[k] == RelevanceConfidence(raw.entries[k], query)
            && r.annotated.entries[k] == Annotate(raw.entries[k], query)
            && (k in r.filtered.entries <==> KeptScored(raw.entries[k], query) != []))
      && (forall k :: k in r.filtered.entries ==>
            k in raw.entries && r.filtered.entries[k] == SortByScore(KeptScored(raw.entries[k], query)))
  {
    RelevanceAggregateKeys(raw.keys, raw, query);
    KeysInAll(raw.keys, raw.entries);
    RelevanceAggregateVisited(raw.keys, raw, query);
  }

  /** What the relevance aggregator keeps for one system is sorted by score, a permutation of the kept results, and its confidence is the best score. */
  lemma RelevanceFilteredSortedAndScored(results: seq<CodeResult>, query: string)
    requires KeptScored(results, query) != []
    ensures var kept := KeptScored(results, query);
      && Descending(SortByScore(kept))
      && multiset(SortByScore(kept)) == multiset(kept)
      && Threshold < MaxScore(kept) <= 1.0
      && MaxScore(kept) == ScoreOf(SortByScore(kept)[0])
  {
    var kept := KeptScored(results, query);
    SortIsDescending(kept);
    KeptScoredAboveThreshold(results, query);
    var sorted := SortByScore(kept);
    var m := MaxScore(kept);
    var r :| r in kept && ScoreOf(r) == m;
    assert sorted[0] in multiset(kept);
    assert r in multiset(sorted);
    var j :| 0 <= j < |sorted| && sorted[j] == r;
  }
}
