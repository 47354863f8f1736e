/**
 * The pipeline: five nodes with one conditional edge, driven from the entry
 * node to the end, and the caller-facing entry point that builds the initial
 * state, runs the pipeline and records the turn in the caller's history.
 */
module Graph {
  import opened Wrappers
  import opened Strings
  import opened Json
  import opened Dicts
  import opened State
  import ClinicalTables
  import Completion
  import Intent
  import Nodes
  import Summarizer

  /** The services a run consults: the vocabulary search service, the completion service and the JSON decoder. */
  datatype Services = Services(
    server: ClinicalTables.Request -> ClinicalTables.Reply,
    llm: Completion.Prompt -> Completion.Reply,
    decode: string -> Option<Json>)

  /** The pipeline's nodes and its end marker. */
  datatype Node = ClassifyIntent | SearchPrimary | SearchSecondary | AggregateResults | Summarize | End

  /** `should_search_secondary`: the branch taken after the primary search. */
  function ShouldSearchSecondary(intent: SearchIntent): (r: Node)
    ensures r == SearchSecondary || r == AggregateResults
    ensures r == SearchSecondary <==> |intent.secondaries| > 0
  {
    if intent.secondaries != [] then SearchSecondary else AggregateResults
  }

  /** The edges of the graph. */
  function Next(n: Node, intent: SearchIntent): (r: Node)
    ensures r != ClassifyIntent
    ensures n != End ==> Rank(r) < Rank(n)
    ensures n == End ==> r == End
  {
    match n
    case ClassifyIntent => SearchPrimary
    case SearchPrimary => ShouldSearchSecondary(intent)
    case SearchSecondary => AggregateResults
    case AggregateResults => Summarize
    case Summarize => End
    case End => End
  }

  /** The longest distance to the end; every edge lowers it. */
  function Rank(n: Node): nat {
    match n
    case ClassifyIntent => 5
    case SearchPrimary => 4
    case SearchSecondary => 3
    case AggregateResults => 2
    case Summarize => 1
    case End => 0
  }

  /** The nodes a run visits from `n` on, for a given intent. */
  function Path(n: Node, intent: SearchIntent): seq<Node>
    decreases Rank(n)
  {
    if n == End then [] else [n] + Path(Next(n, intent), intent)
  }

  /**
   * From the entry node a run visits classification, the primary search, the
   * secondary search exactly when there are secondaries, aggregation and
   * summarisation, each once, and then ends.
   */
  lemma Topology(intent: SearchIntent)
    ensures Path(ClassifyIntent, intent) ==
      if intent.secondaries != [] then [ClassifyIntent, SearchPrimary, SearchSecondary, AggregateResults, Summarize]
      else [ClassifyIntent, SearchPrimary, AggregateResults, Summarize]
    ensures forall i, j :: 0 <= i < j < |Path(ClassifyIntent, intent)| ==>
      Path(ClassifyIntent, intent)[i] != Path(ClassifyIntent, intent)[j]
  {
    var path := Path(ClassifyIntent, intent);
    assert path == [ClassifyIntent, SearchPrimary] + Path(ShouldSearchSecondary(intent), intent);
  }

  /** The state a node after classification may run on: valid maps and an intent. */
  ghost predicate Ready(s: Snapshot) {
    && s.rawResults.Valid() && s.filteredResults.Valid() && s.confidence.Valid()
    && s.intent.Some?
  }

  /** The entry node's effect: the intent classification settles on, which is never an error. */
  function Classified(s: Snapshot, env: Services): (r: Snapshot)
    ensures r == s.(intent := r.intent) && r.intent.Some?
  {
    var outcome := Intent.ClassifySpec(s.userQuery, s.history, env.llm, env.decode);
    s.(intent := Some(Nodes.NodeIntent(s.userQuery, outcome)))
  }

  /** The effect of one node after classification on the state, or the error it raises. */
  function Step(n: Node, s: Snapshot, env: Services): (r: Result<Snapshot>)
    requires n != ClassifyIntent && n != End && Ready(s)
    ensures r.Ok? ==> Ready(r.value) && r.value.intent == s.intent
    ensures r.Raised? ==> n == Summarize
  {
    match n
    case SearchPrimary =>
      var d := Nodes.PrimaryStep(Nodes.Dispatch(s.apiCalls, s.rawResults), s.intent.value, env.server);
      Ok(s.(apiCalls := d.calls, rawResults := d.raw))
    case SearchSecondary =>
      var d := Nodes.SecondaryStep(Nodes.Dispatch(s.apiCalls, s.rawResults), s.intent.value, env.server);
      Ok(s.(apiCalls := d.calls, rawResults := d.raw))
    case AggregateResults =>
      var a := Nodes.CountAggregate(s.rawResults.keys, s.rawResults.entries);
      Ok(s.(filteredResults := a.filtered, confidence := a.confidence))
    case Summarize =>
      match Summarizer.SummarizeSpec(s.userQuery, s.filteredResults, s.intent.value, env.llm)
      case Raised(e) => Raised(e)
      case Ok(text) => Ok(s.(summary := text))
  }

  /** The outcome of running the graph from node `n`, past classification, on state `s`. */
  function RunFrom(n: Node, s: Snapshot, env: Services): Result<Snapshot>
    requires n != ClassifyIntent && Ready(s)
    decreases Rank(n)
  {
    if n == End then Ok(s)
    else
      match Step(n, s, env)
      case Raised(e) => Raised(e)
      case Ok(t) => RunFrom(Next(n, t.intent.value), t, env)
  }

  /** The outcome of running the graph from the entry node on state `s`. */
  function Outcome(s: Snapshot, env: Services): Result<Snapshot>
    requires s.rawResults.Valid() && s.filteredResults.Valid() && s.confidence.Valid()
  {
    RunFrom(Next(ClassifyIntent, Classified(s, env).intent.value), Classified(s, env), env)
  }

  /** The outcome of `app.ainvoke` on the initial state for `query` and the caller's turns. */
  function Run(query: string, history: seq<HistoryEntry>, env: Services): Result<Snapshot> {
    Outcome(InitialSnapshot(query, history), env)
  }

  /** Runs one node after classification on the state record: its effect, or the error it raises. */
  method RunNode(n: Node, state: AgentState, env: Services) returns (failure: Option<string>)
    requires n != ClassifyIntent && n != End && Ready(state.Snap())
    modifies state
    ensures match Step(n, old(state.Snap()), env)
      case Ok(s) => failure == None && state.Snap() == s
      case Raised(e) => failure == Some(e)
  {
    failure := None;
    match n {
      case SearchPrimary =>
        Nodes.SearchPrimaryNode(state, env.server);
      case SearchSecondary =>
        Nodes.SearchSecondaryNode(state, env.server);
      case AggregateResults =>
        var filtered, confidence := Nodes.AggregateResults(state.rawResults);
        state.filteredResults, state.confidence := filtered, confidence;
      case Summarize =>
        failure := Nodes.SummarizeResultsNode(state, env.llm);
    }
  }

  /**
   * Runs node `n` and follows its outgoing edge: the rest of the run from the
   * node taken is the rest of the run from `n`, or `n` raised what the run raises.
   */
  method Advance(n: Node, state: AgentState, env: Services) returns (failure: Option<string>, next: Node)
    requires n != ClassifyIntent && n != End && Ready(state.Snap())
    modifies state
    ensures next != ClassifyIntent && Rank(next) < Rank(n)
    ensures failure.None? ==> Ready(state.Snap()) && RunFrom(next, state.Snap(), env) == RunFrom(n, old(state.Snap()), env)
    ensures failure.Some? ==> RunFrom(n, old(state.Snap()), env) == Raised(failure.value)
  {
    var intent := state.intent.value;
    failure := RunNode(n, state, env);
    next := Next(n, intent);
  }

  /** Drives the graph from the node after classification until the end, or until a node raises. */
  method Drive(state: AgentState, env: Services) returns (failure: Option<string>)
    requires Ready(state.Snap())
    modifies state
    ensures match RunFrom(SearchPrimary, old(state.Snap()), env)
      case Ok(s) => failure == None && state.Snap() == s
      case Raised(e) => failure == Some(e)
  {
    var node := SearchPrimary;
    while node != End
      invariant node != ClassifyIntent && Ready(state.Snap())
      invariant RunFrom(node, state.Snap(), env) == RunFrom(SearchPrimary, old(state.Snap()), env)
      decreases Rank(node)
    {
      failure, node := Advance(node, state, env);
      if failure.Some? {
        return;
      }
    }
    failure := None;
  }

  /** Runs the compiled graph over the state record: classification, then the remaining nodes. */
  method Invoke(state: AgentState, env: Services) returns (failure: Option<string>)
    requires state.rawResults.Valid() && state.filteredResults.Valid() && state.confidence.Valid()
    modifies state
    ensures match Outcome(old(state.Snap()), env)
      case Ok(s) => failure == None && state.Snap() == s
      case Raised(e) => failure == Some(e)
  {
    Nodes.ClassifyIntentNode(state, env.llm, env.decode);
    assert state.Snap() == Classified(old(state.Snap()), env);
    failure := Drive(state, env);
  }

  /** The caller's list of turns, which `run_agent` may extend in place. */
  class Trail {
    var entries: seq<HistoryEntry>

    constructor (initial: seq<HistoryEntry>)
      ensures entries == initial
    {
      entries := initial;
    }
  }

  /** The turn `run_agent` records for a completed run. */
  function TurnFor(query: string, s: Snapshot): (e: HistoryEntry)
    ensures e.query == query && e.intent == s.intent
    ensures var n := |e.resultsSummary| - |Suffix|;
      && 1 <= n
      && e.resultsSummary[n..] == Suffix
      && (forall i :: 0 <= i < n ==> '0' <= e.resultsSummary[i] <= '9')
      && DecimalValue(e.resultsSummary[..n]) == |s.filteredResults.keys|
  {
    NumberThenText(s.filteredResults.Size(), Suffix);
    HistoryEntry(query, s.intent, NatToString(s.filteredResults.Size()) + Suffix)
  }

  /** The text after the count in a recorded turn. */
  const Suffix := " systems with results"

  /**
   * `run_agent`: a missing or empty caller list is replaced by a fresh one,
   * a non-empty one is extended in place; a completed run appends exactly one
   * turn, and a run whose summarisation fails appends nothing.
   */
  method RunAgent(query: string, caller: Trail?, env: Services)
    returns (failure: Option<string>, state: AgentState, trail: Trail)
    modifies caller
    ensures caller != null && old(caller.entries) != [] ==> trail == caller
    ensures caller == null || old(caller.entries) == [] ==>
      fresh(trail) && (caller != null ==> caller.entries == old(caller.entries))
    ensures fresh(state)
    ensures var before := if caller != null then old(caller.entries) else [];
      match Run(query, before, env)
      case Ok(s) => failure == None && state.Snap() == s && trail.entries == before + [TurnFor(query, s)]
      case Raised(e) => failure == Some(e) && trail.entries == before
  {
    if caller != null && caller.entries != [] {
      trail := caller;
    } else {
      trail := new Trail([]);
    }
    state := new AgentState.Initial(query, trail.entries);
    failure := Invoke(state, env);
    if failure.Some? {
      return;
    }
    trail.entries := trail.entries + [HistoryEntry(query, state.intent, NatToString(state.filteredResults.Size()) + Suffix)];
  }

  // ---------------------------------------------------------------------------
  // The run as an explicit composition of the nodes

  /** The intent a run settles on. */
  function RunIntent(query: string, history: seq<HistoryEntry>, env: Services): SearchIntent {
    Nodes.NodeIntent(query, Intent.ClassifySpec(query, history, env.llm, env.decode))
  }

  /** The audit list and raw results the searches leave for `intent`, starting from nothing. */
  function Searched(intent: SearchIntent, server: ClinicalTables.Request -> ClinicalTables.Reply): (d: Nodes.Dispatch)
    ensures d.raw.Valid()
  {
    var d := Nodes.PrimaryStep(Nodes.Dispatch([], Empty()), intent, server);
    if intent.secondaries != [] then Nodes.SecondaryStep(d, intent, server) else d
  }

  /** The filtered results and confidences aggregation derives from the searches for `intent`. */
  function Aggregated(intent: SearchIntent, server: ClinicalTables.Request -> ClinicalTables.Reply): Nodes.Aggregate {
    var d := Searched(intent, server);
    Nodes.CountAggregate(d.raw.keys, d.raw.entries)
  }

  /** Past classification, the run is the searches, aggregation and summarisation composed in that order. */
  lemma DriveIsComposition(s: Snapshot, env: Services)
    requires Ready(s) && s.apiCalls == [] && s.rawResults == Empty()
    ensures var intent := s.intent.value;
      var d := Searched(intent, env.server);
      var a := Aggregated(intent, env.server);
      RunFrom(SearchPrimary, s, env) ==
        match Summarizer.SummarizeSpec(s.userQuery, a.filtered, intent, env.llm)
        case Raised(e) => Raised(e)
        case Ok(text) => Ok(s.(apiCalls := d.calls, rawResults := d.raw, filteredResults := a.filtered,
                               confidence := a.confidence, summary := text))
  {
    var d := Searched(s.intent.value, env.server);
    SearchesAreComposition(s, env);
    TailIsComposition(s.(apiCalls := d.calls, rawResults := d.raw), env);
  }

  /** Past classification, the run goes through the searches to aggregation on the state they leave. */
  lemma SearchesAreComposition(s: Snapshot, env: Services)
    requires Ready(s) && s.apiCalls == [] && s.rawResults == Empty()
    ensures var d := Searched(s.intent.value, env.server);
      RunFrom(SearchPrimary, s, env) == RunFrom(AggregateResults, s.(apiCalls := d.calls, rawResults := d.raw), env)
  {
    var s2 := Step(SearchPrimary, s, env).value;
    var next := ShouldSearchSecondary(s.intent.value);
    assert RunFrom(SearchPrimary, s, env) == RunFrom(next, s2, env);
    if next == SearchSecondary {
      var s3 := Step(SearchSecondary, s2, env).value;
      assert RunFrom(next, s2, env) == RunFrom(AggregateResults, s3, env);
    }
  }

  /** From aggregation on, the run is aggregation followed by summarisation. */
  lemma TailIsComposition(s: Snapshot, env: Services)
    requires Ready(s)
    ensures var a := Nodes.CountAggregate(s.rawResults.keys, s.rawResults.entries);
      RunFrom(AggregateResults, s, env) ==
        match Summarizer.SummarizeSpec(s.userQuery, a.filtered, s.intent.value, env.llm)
        case Raised(e) => Raised(e)
        case Ok(text) => Ok(s.(filteredResults := a.filtered, confidence := a.confidence, summary := text))
  {
    var s4 := Step(AggregateResults, s, env).value;
    assert RunFrom(AggregateResults, s, env) == RunFrom(Summarize, s4, env);
  }

  /** Running the graph is classification, the searches, aggregation and summarisation composed in that order. */
  lemma RunIsComposition(query: string, history: seq<HistoryEntry>, env: Services)
    ensures var intent := RunIntent(query, history, env);
      var d := Searched(intent, env.server);
      var a := Aggregated(intent, env.server);
      Run(query, history, env) ==
        match Summarizer.SummarizeSpec(query, a.filtered, intent, env.llm)
        case Raised(e) => Raised(e)
        case Ok(text) => Ok(Snapshot(query, history, Some(intent), d.calls, d.raw, a.filtered, a.confidence, text))
  {
    DriveIsComposition(Classified(InitialSnapshot(query, history), env), env);
  }

  /**
   * A run fails only in summarisation: it fails exactly when the completion
   * service fails on the summary prompt, and then with the summariser's error.
   */
  lemma RunFailsOnlyInSummary(query: string, history: seq<HistoryEntry>, env: Services)
    ensures var intent := RunIntent(query, history, env);
      var prompt := Summarizer.PromptFor(query, Aggregated(intent, env.server).filtered, intent);
      && (Run(query, history, env).Raised? <==> env.llm(prompt).Failed?)
      && (Run(query, history, env).Raised? ==> Run(query, history, env).error == "completion failed")
  {
    RunIsComposition(query, history, env);
  }

  /**
   * For any intent, the searches record one audit entry for the primary search
   * followed by one per searched secondary (at most three); the primary's key
   * is always in the raw results; the filtered results and the confidences
   * share their keys, each a raw key with a non-empty list, and each filtered
   * list has at most five results.
   */
  lemma SearchShape(intent: SearchIntent, server: ClinicalTables.Request -> ClinicalTables.Reply)
    ensures var d := Searched(intent, server);
      var a := Aggregated(intent, server);
      && |d.calls| == 1 + (if |intent.secondaries| < 3 then |intent.secondaries| else 3)
      && d.calls[0].system == intent.primary.Value()
      && intent.primary.Value() in d.raw.entries
      && a.filtered.keys == a.confidence.keys
      && (forall k :: k in a.filtered.entries <==> k in d.raw.entries && d.raw.entries[k] != [])
      && (forall k :: k in a.filtered.entries ==> |a.filtered.entries[k]| <= 5)
  {
    var d0 := Nodes.Dispatch([], Empty());
    var d1 := Nodes.PrimaryStep(d0, intent, server);
    Nodes.PrimaryAlwaysRecorded(d0, intent, server);
    if intent.secondaries != [] {
      Nodes.SecondaryVisitsFirstThree(d1, intent, server);
      Nodes.SecondaryKeys(d1, Nodes.FirstThree(intent.secondaries), intent.refinedQuery,
                          Nodes.SecondarySearch(intent.refinedQuery, server));
    }
    var d := Searched(intent, server);
    Nodes.CountAggregateKeeps(d.raw);
    Nodes.CountAggregateMeaning(d.raw.keys, d.raw.entries);
  }

  /**
   * The shape `SearchShape` describes, read off a snapshot: one audit entry
   * for the primary search followed by one per searched secondary, the
   * primary's key among the raw results, and the filtered results and
   * confidences keyed by exactly the raw keys with non-empty lists, at most
   * five results each.
   */
  ghost predicate WellShaped(s: Snapshot)
    requires s.intent.Some?
  {
    var intent := s.intent.value;
    && |s.apiCalls| == 1 + (if |intent.secondaries| < 3 then |intent.secondaries| else 3)
    && s.apiCalls[0].system == intent.primary.Value()
    && intent.primary.Value() in s.rawResults.entries
    && s.filteredResults.keys == s.confidence.keys
    && (forall k :: k in s.filteredResults.entries <==> k in s.rawResults.entries && s.rawResults.entries[k] != [])
    && (forall k :: k in s.filteredResults.entries ==> |s.filteredResults.entries[k]| <= 5)
  }

  /** A snapshot whose searches and aggregation are those for its intent is well shaped. */
  lemma SnapshotShape(s: Snapshot, server: ClinicalTables.Request -> ClinicalTables.Reply)
    requires s.intent.Some?
    requires s.apiCalls == Searched(s.intent.value, server).calls && s.rawResults == Searched(s.intent.value, server).raw
    requires s.filteredResults == Aggregated(s.intent.value, server).filtered
    requires s.confidence == Aggregated(s.intent.value, server).confidence
    ensures WellShaped(s)
  {
    SearchShape(s.intent.value, server);
  }

  /** A completed run carries the intent classification settled on and is well shaped. */
  lemma CompletedRunShape(query: string, history: seq<HistoryEntry>, env: Services)
    ensures Run(query, history, env).Ok? ==>
      Run(query, history, env).value.intent == Some(RunIntent(query, history, env)) && WellShaped(Run(query, history, env).value)
  {
    RunIsComposition(query, history, env);
    if Run(query, history, env).Ok? {
      SnapshotShape(Run(query, history, env).value, env.server);
    }
  }
}
