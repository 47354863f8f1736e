/**
 * The pipeline's data model: the six coding systems, the resolved search
 * intent, the normalised code record, the audit record, a conversation turn,
 * and the state record threaded through the pipeline.
 */
module State {
  import opened Wrappers
  import opened Json
  import opened Dicts

  /** The six coding systems a query can be resolved against. */
  datatype CodingSystem = ICD10 | LOINC | RXNORM | HCPCS | UCUM | HPO {
    /** The enum member's value, which is also its key in the result maps. */
    function Value(): string {
      match this
      case ICD10 => "icd10cm"
      case LOINC => "loinc"
      case RXNORM => "rxnorm"
      case HCPCS => "hcpcs"
      case UCUM => "ucum"
      case HPO => "hpo"
    }

    /** The member's attribute name, as in `CodingSystem.LOINC`. */
    function Name(): string {
      match this
      case ICD10 => "ICD10"
      case LOINC => "LOINC"
      case RXNORM => "RXNORM"
      case HCPCS => "HCPCS"
      case UCUM => "UCUM"
      case HPO => "HPO"
    }
  }

  /** Every member, in declaration order. */
  const AllSystems: seq<CodingSystem> := [ICD10, LOINC, RXNORM, HCPCS, UCUM, HPO]

  /** `CodingSystem(v)`: lookup by value; `None` where Python raises `ValueError`. */
  function FromValue(v: string): (r: Option<CodingSystem>)
    ensures r.Some? ==> r.value.Value() == v
    ensures r.None? <==> forall s: CodingSystem :: s.Value() != v
  {
    if v == "icd10cm" then Some(ICD10)
    else if v == "loinc" then Some(LOINC)
    else if v == "rxnorm" then Some(RXNORM)
    else if v == "hcpcs" then Some(HCPCS)
    else if v == "ucum" then Some(UCUM)
    else if v == "hpo" then Some(HPO)
    else None
  }

  /** `CodingSystem.<name>`: attribute lookup; `None` where Python raises `AttributeError`. */
  function FromName(n: string): (r: Option<CodingSystem>)
    ensures r.Some? ==> r.value.Name() == n
    ensures r.None? <==> forall s: CodingSystem :: s.Name() != n
  {
    if n == "ICD10" then Some(ICD10)
    else if n == "LOINC" then Some(LOINC)
    else if n == "RXNORM" then Some(RXNORM)
    else if n == "HCPCS" then Some(HCPCS)
    else if n == "UCUM" then Some(UCUM)
    else if n == "HPO" then Some(HPO)
    else None
  }

  /** `CodingSystem(j)` on a decoded JSON value: only a string equal to a member's value succeeds. */
  function FromJson(j: Json): (r: Option<CodingSystem>)
    ensures r.Some? <==> j.String? && FromValue(j.s).Some?
  {
    if j.String? then FromValue(j.s) else None
  }

  /** A resolved intent: one primary system, an ordered list of secondaries, the search text and a concept tag. */
  datatype SearchIntent = SearchIntent(
    primary: CodingSystem,
    secondaries: seq<CodingSystem>,
    refinedQuery: string,
    conceptType: string)

  /**
   * A normalised search hit. `code` is whatever JSON value the service put in
   * the code column; `system` is the endpoint name the hit came from;
   * `relevance` is set only by the relevance-scoring aggregator.
   */
  datatype CodeResult = CodeResult(code: Json, display: string, system: string, relevance: Option<real>)

  /** `results[:5]`: the first five results, in order. */
  function Top5(results: seq<CodeResult>): (r: seq<CodeResult>)
    ensures |r| == if |results| < 5 then |results| else 5
    ensures r == results[..|r|]
  {
    if |results| <= 5 then results else results[..5]
  }

  /** One audit record per search issued. */
  datatype ApiCall = ApiCall(system: string, query: string, resultCount: nat)

  /** One conversation turn kept by the caller between runs. */
  datatype HistoryEntry = HistoryEntry(query: string, intent: Option<SearchIntent>, resultsSummary: string)

  /** The value the state record holds at one moment of a run. */
  datatype Snapshot = Snapshot(
    userQuery: string,
    history: seq<HistoryEntry>,
    intent: Option<SearchIntent>,
    apiCalls: seq<ApiCall>,
    rawResults: Dict<seq<CodeResult>>,
    filteredResults: Dict<seq<CodeResult>>,
    confidence: Dict<real>,
    summary: string)

  /** The snapshot a run starts from: nothing classified, searched or summarised yet. */
  function InitialSnapshot(query: string, turns: seq<HistoryEntry>): Snapshot {
    Snapshot(query, turns, None, [], Empty(), Empty(), Empty(), "")
  }

  /** The state record threaded through the pipeline's nodes. */
  class AgentState {
    var userQuery: string
    var history: seq<HistoryEntry>
    var intent: Option<SearchIntent>
    var apiCalls: seq<ApiCall>
    var rawResults: Dict<seq<CodeResult>>
    var filteredResults: Dict<seq<CodeResult>>
    var confidence: Dict<real>
    var summary: string

    /** Valid dicts throughout. */
    ghost predicate Valid()
      reads this
    {
      rawResults.Valid() && filteredResults.Valid() && confidence.Valid()
    }

    /** The record's current value. */
    function Snap(): Snapshot
      reads this
    {
      Snapshot(userQuery, history, intent, apiCalls, rawResults, filteredResults, confidence, summary)
    }

    /** The state a run starts from: the query and the caller's turns, nothing classified, searched or summarised yet. */
    constructor Initial(query: string, turns: seq<HistoryEntry>)
      ensures Valid()
      ensures Snap() == InitialSnapshot(query, turns)
    {
      userQuery := query;
      history := turns;
      intent := None;
      apiCalls := [];
      rawResults := Empty();
      filteredResults := Empty();
      confidence := Empty();
      summary := "";
    }
  }

  /** The six values are pairwise distinct, so a value names exactly one member. */
  lemma ValuesDistinct(s: CodingSystem, t: CodingSystem)
    ensures s.Value() == t.Value() ==> s == t
  {
  }

  /** Lookup by value inverts `Value`. */
  lemma FromValueInvertsValue(s: CodingSystem)
    ensures FromValue(s.Value()) == Some(s)
  {
  }

  /** There are exactly six members; none of them is named `RXTERMS` or has the value `rxterms`. */
  lemma SixMembersNoRxterms()
    ensures |AllSystems| == 6
    ensures forall s: CodingSystem :: s in AllSystems
    ensures forall i, j :: 0 <= i < j < |AllSystems| ==> AllSystems[i].Value() != AllSystems[j].Value()
    ensures FromValue("rxterms") == None
    ensures FromName("RXTERMS") == None
  {
    forall s: CodingSystem ensures s in AllSystems {
      match s
      case ICD10 => assert AllSystems[0] == s;
      case LOINC => assert AllSystems[1] == s;
      case RXNORM => assert AllSystems[2] == s;
      case HCPCS => assert AllSystems[3] == s;
      case UCUM => assert AllSystems[4] == s;
      case HPO => assert AllSystems[5] == s;
    }
  }
}
