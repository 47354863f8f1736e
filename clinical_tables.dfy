/**
 * The vocabulary search adapter: the per-endpoint configuration table, the
 * request it builds, and the normalisation of the service's positional JSON
 * reply into code records. The HTTP exchange is the `server` parameter.
 */
module ClinicalTables {
  import opened Wrappers
  import opened Strings
  import opened Json
  import opened State

  /** One row of the configuration table. */
  datatype Config = Config(
    searchFields: string,
    displayFields: string,
    resultIndex: nat,
    codeField: nat,
    displayField: nat)

  /** The endpoints the table configures, in table order. */
  const Endpoints: seq<string> := ["icd10cm", "loinc_items", "rxterms", "hcpcs", "ucum", "hpo"]

  /** The table's `icd10cm` row, which also serves as the fallback. */
  const IcdConfig: Config := Config("code,name", "code,name", 3, 0, 1)

  /** The table itself: `API_CONFIG.get(endpoint)`. */
  function TableEntry(endpoint: string): Option<Config> {
    if endpoint == "icd10cm" then Some(IcdConfig)
    else if endpoint == "loinc_items" then
      Some(Config("text,COMPONENT,CONSUMER_NAME,RELATEDNAMES2,METHOD_TYP,SHORTNAME,LONG_COMMON_NAME,LOINC_NUM",
                  "LOINC_NUM,LONG_COMMON_NAME", 3, 0, 1))
    else if endpoint == "rxterms" then
      Some(Config("DISPLAY_NAME,STRENGTHS_AND_FORMS,DISPLAY_NAME_SYNONYM", "RXCUIS,DISPLAY_NAME", 3, 0, 1))
    else if endpoint == "hcpcs" then Some(Config("code,short_desc,long_desc", "code,display", 3, 0, 1))
    else if endpoint == "ucum" then Some(Config("cs_code,name,synonyms,cs_code_tokens", "cs_code,name", 3, 0, 1))
    else if endpoint == "hpo" then Some(Config("id,name,synonym.term", "id,name", 3, 0, 1))
    else None
  }

  /** `API_CONFIG.get(endpoint, API_CONFIG["icd10cm"])`. */
  function ConfigFor(endpoint: string): Config {
    TableEntry(endpoint).GetOr(IcdConfig)
  }

  /** A query-string parameter value. */
  datatype Param = Text(s: string) | Int(n: int)

  /** A search request: the endpoint in the URL path and the query-string parameters, in order. */
  datatype Request = Request(endpoint: string, params: seq<(string, Param)>)

  /** The request `search` issues. */
  function BuildRequest(endpoint: string, query: string, limit: int): Request {
    var config := ConfigFor(endpoint);
    Request(endpoint, [
      ("sf", Text(config.searchFields)),
      ("df", Text(config.displayFields)),
      ("maxList", Int(limit)),
      ("terms", Text(query))])
  }

  /** What the HTTP exchange yields: the decoded body, or a failure (transport error, non-2xx status, undecodable body). */
  datatype Reply = Failure | Body(data: Json)

  /** What one row contributes: nothing, one record, or an exception that aborts the whole call. */
  datatype RowOutcome = Skip | Emit(result: CodeResult) | Raise

  /** A row the loop looks at: a list with at least two elements. */
  predicate IsRow(item: Json) {
    item.Array? && |item.items| >= 2
  }

  /** The display synthesised for a hit without one: `f"{endpoint.upper()}: {code}"`. */
  function FallbackDisplay(endpoint: string, code: Json): (d: string)
    ensures !IsBlank(d)
    ensures Upper(endpoint) + ": " <= d && d[|endpoint| + 2..] == Render(code)
  {
    var d := Upper(endpoint) + ": " + Render(code);
    assert d[|endpoint|] == ':';
    d
  }

  /**
   * The rows that abort `search`: a configured column past the end of the row (`IndexError`),
   * or a truthy display that is not a string (`.strip()` raises).
   */
  predicate RowRaises(config: Config, item: Json) {
    && IsRow(item)
    && (|| config.codeField >= |item.items|
        || config.displayField >= |item.items|
        || (Truthy(item.items[config.displayField]) && !item.items[config.displayField].String?))
  }

  /** The loop body for one row of the reply. */
  function ParseRow(endpoint: string, config: Config, item: Json): (r: RowOutcome)
    ensures r.Skip? <==> !IsRow(item)
    ensures r.Raise? <==> RowRaises(config, item)
    ensures r.Emit? ==> && config.codeField < |item.items|
                        && config.displayField < |item.items|
                        && r.result.system == endpoint
                        && r.result.relevance == None
                        && !IsBlank(r.result.display)
                        && r.result.code == item.items[config.codeField]
    ensures r.Emit? ==>
      var display := item.items[config.displayField];
      r.result.display == if display.String? && !IsBlank(display.s) then display.s
                          else FallbackDisplay(endpoint, r.result.code)
  {
    if !IsRow(item) then Skip
    else if config.codeField >= |item.items| || config.displayField >= |item.items| then Raise
    else
      var code := item.items[config.codeField];
      var display := item.items[config.displayField];
      if !Truthy(display) then Emit(CodeResult(code, FallbackDisplay(endpoint, code), endpoint, None))
      else if !display.String? then Raise  // `.strip()` on a non-string
      else if IsBlank(display.s) then Emit(CodeResult(code, FallbackDisplay(endpoint, code), endpoint, None))
      else Emit(CodeResult(code, display.s, endpoint, None))
  }

  /** The records the loop collects from `rows`, or `None` if some row raises. */
  function ParseRowsSpec(endpoint: string, config: Config, rows: seq<Json>): Option<seq<CodeResult>>
    decreases |rows|
  {
    if rows == [] then Some([])
    else
      match ParseRowsSpec(endpoint, config, rows[..|rows| - 1])
      case None => None
      case Some(prev) =>
        match ParseRow(endpoint, config, rows[|rows| - 1])
        case Skip => Some(prev)
        case Emit(r) => Some(prev + [r])
        case Raise => None
  }

  /** The rows the loop keeps, in order. */
  function Kept(rows: seq<Json>): seq<Json>
    decreases |rows|
  {
    if rows == [] then []
    else Kept(rows[..|rows| - 1]) + (if IsRow(rows[|rows| - 1]) then [rows[|rows| - 1]] else [])
  }

  /** Once a prefix of the rows raises, the whole call raises. */
  lemma {:induction false} RaiseIsFinal(endpoint: string, config: Config, rows: seq<Json>, k: nat)
    requires k <= |rows|
    requires ParseRowsSpec(endpoint, config, rows[..k]) == None
    ensures ParseRowsSpec(endpoint, config, rows) == None
    decreases |rows| - k
  {
    if k < |rows| {
      assert rows[..k + 1][..k] == rows[..k];
      RaiseIsFinal(endpoint, config, rows, k + 1);
    } else {
      assert rows[..k] == rows;
    }
  }

  /** The row loop of `search`. */
  method ParseRows(endpoint: string, config: Config, rows: seq<Json>) returns (r: Option<seq<CodeResult>>)
    ensures r == ParseRowsSpec(endpoint, config, rows)
  {
    var results: seq<CodeResult> := [];
    var i := 0;
    while i < |rows|
      invariant 0 <= i <= |rows|
      invariant ParseRowsSpec(endpoint, config, rows[..i]) == Some(results)
    {
      assert rows[..i + 1][..i] == rows[..i];
      var item := rows[i];
      if item.Array? && |item.items| >= 2 {
        if config.codeField >= |item.items| || config.displayField >= |item.items| {
          RaiseIsFinal(endpoint, config, rows, i + 1);
          return None;
        }
        var code := item.items[config.codeField];
        var display := item.items[config.displayField];
        var text: string;
        if !Truthy(display) {
          text := FallbackDisplay(endpoint, code);
        } else if !display.String? {
          RaiseIsFinal(endpoint, config, rows, i + 1);
          return None;
        } else if IsBlank(display.s) {
          text := FallbackDisplay(endpoint, code);
        } else {
          text := display.s;
        }
        results := results + [CodeResult(code, text, endpoint, None)];
      }
      i := i + 1;
    }
    assert rows[..i] == rows;
    r := Some(results);
  }

  /** How a call ends: records, an unexpected envelope (logged, no records), or an exception (no records). */
  datatype Outcome = Parsed(results: seq<CodeResult>) | Malformed | Failed

  /** The reply normalisation of `search`, given what the HTTP exchange yielded. */
  function Normalize(endpoint: string, reply: Reply): Outcome {
    match reply
    case Failure => Failed
    case Body(data) =>
      var config := ConfigFor(endpoint);
      match Len(data)
      case None => Failed                                   // `len()` of a number, boolean or null
      case Some(n) =>
        if n <= config.resultIndex then Malformed
        else if data.Object? then Failed                    // integer index into a dict
        else if data.Array? && data.items[config.resultIndex].Array? then
          match ParseRowsSpec(endpoint, config, data.items[config.resultIndex].items)
          case None => Failed
          case Some(rs) => Parsed(rs)
        else Malformed                                      // element is not a list (or `data` is a string)
  }

  /** The list `search` returns for an outcome. */
  function Results(o: Outcome): seq<CodeResult> {
    if o.Parsed? then o.results else []
  }

  /** The list `search(endpoint, query, limit)` returns when the service answers requests with `server`. */
  function SearchSpec(endpoint: string, query: string, limit: int, server: Request -> Reply): seq<CodeResult> {
    Results(Normalize(endpoint, server(BuildRequest(endpoint, query, limit))))
  }

  /** `ClinicalTablesAPI.search`. */
  method Search(endpoint: string, query: string, limit: int, server: Request -> Reply)
    returns (results: seq<CodeResult>)
    ensures results == SearchSpec(endpoint, query, limit, server)
  {
    var config := ConfigFor(endpoint);
    var request := BuildRequest(endpoint, query, limit);
    var reply := server(request);
    if reply.Failure? {
      return [];
    }
    var data := reply.data;
    var n := Len(data);
    if n.None? || (data.Object? && n.value > config.resultIndex) {
      return [];
    }
    if n.value > config.resultIndex && data.Array? && data.items[config.resultIndex].Array? {
      var parsed := ParseRows(endpoint, config, data.items[config.resultIndex].items);
      results := if parsed.Some? then parsed.value else [];
    } else {
      results := [];
    }
  }

  // ---------------------------------------------------------------------------
  // Properties of the adapter

  /** Every configuration reads rows from index 3, the code from column 0 and the display from column 1. */
  lemma ConfigLayout(endpoint: string)
    ensures ConfigFor(endpoint).resultIndex == 3
    ensures ConfigFor(endpoint).codeField == 0 && ConfigFor(endpoint).displayField == 1
  {
  }

  /** An endpoint missing from the table is searched with the `icd10cm` fields. */
  lemma UnknownEndpointUsesIcd(endpoint: string, query: string, limit: int)
    requires endpoint !in Endpoints
    ensures TableEntry(endpoint) == None
    ensures ConfigFor(endpoint) == ConfigFor("icd10cm")
    ensures BuildRequest(endpoint, query, limit).params == BuildRequest("icd10cm", query, limit).params
    ensures BuildRequest(endpoint, query, limit).endpoint == endpoint
  {
    assert endpoint != Endpoints[0] && endpoint != Endpoints[1] && endpoint != Endpoints[2];
    assert endpoint != Endpoints[3] && endpoint != Endpoints[4] && endpoint != Endpoints[5];
  }

  /** The request carries exactly `sf`, `df`, `maxList` and `terms`, taken from the configuration, the limit and the query. */
  lemma RequestParameters(endpoint: string, query: string, limit: int)
    ensures var p := BuildRequest(endpoint, query, limit).params;
      && |p| == 4
      && p[0] == ("sf", Text(ConfigFor(endpoint).searchFields))
      && p[1] == ("df", Text(ConfigFor(endpoint).displayFields))
      && p[2] == ("maxList", Int(limit))
      && p[3] == ("terms", Text(query))
  {
  }

  /** The row loop raises exactly when one of the rows is a list row with a bad column index or a truthy non-string display. */
  lemma {:induction false} RowsRaiseIffSomeRowRaises(endpoint: string, config: Config, rows: seq<Json>)
    ensures ParseRowsSpec(endpoint, config, rows).None?
        <==> exists i :: 0 <= i < |rows| && RowRaises(config, rows[i])
    decreases |rows|
  {
    if rows != [] {
      var init := rows[..|rows| - 1];
      RowsRaiseIffSomeRowRaises(endpoint, config, init);
      if exists i :: 0 <= i < |init| && RowRaises(config, init[i]) {
        var i :| 0 <= i < |init| && RowRaises(config, init[i]);
        assert rows[i] == init[i];
      }
      if exists i :: 0 <= i < |rows| && RowRaises(config, rows[i]) {
        var i :| 0 <= i < |rows| && RowRaises(config, rows[i]);
        if i < |init| { assert init[i] == rows[i]; }
      }
    }
  }

  /** When no row raises, each kept row yields exactly one record, in the order of the rows. */
  lemma {:induction false} RowsYieldOneRecordEach(endpoint: string, config: Config, rows: seq<Json>, rs: seq<CodeResult>)
    requires ParseRowsSpec(endpoint, config, rows) == Some(rs)
    ensures |rs| == |Kept(rows)|
    ensures forall j :: 0 <= j < |rs| ==> ParseRow(endpoint, config, Kept(rows)[j]) == Emit(rs[j])
    decreases |rows|
  {
    if rows != [] {
      var init := rows[..|rows| - 1];
      var prev := ParseRowsSpec(endpoint, config, init).value;
      RowsYieldOneRecordEach(endpoint, config, init, prev);
    }
  }

  /** Kept rows are the list rows with at least two elements. */
  lemma {:induction false} KeptAreRows(rows: seq<Json>)
    ensures forall j :: 0 <= j < |Kept(rows)| ==> IsRow(Kept(rows)[j]) && Kept(rows)[j] in rows
    ensures |Kept(rows)| <= |rows|
    decreases |rows|
  {
    if rows != [] {
      KeptAreRows(rows[..|rows| - 1]);
    }
  }

  /** Every record `search` returns names the endpoint it came from and has a non-blank display. */
  lemma SearchRecordsWellFormed(endpoint: string, query: string, limit: int, server: Request -> Reply)
    ensures forall r :: r in SearchSpec(endpoint, query, limit, server) ==>
      r.system == endpoint && !IsBlank(r.display) && r.relevance == None
  {
    var o := Normalize(endpoint, server(BuildRequest(endpoint, query, limit)));
    if o.Parsed? {
      var data := server(BuildRequest(endpoint, query, limit)).data;
      var config := ConfigFor(endpoint);
      var rows := data.items[config.resultIndex].items;
      RowsYieldOneRecordEach(endpoint, config, rows, o.results);
      forall r | r in o.results ensures r.system == endpoint && !IsBlank(r.display) && r.relevance == None {
        var j :| 0 <= j < |o.results| && o.results[j] == r;
        assert ParseRow(endpoint, config, Kept(rows)[j]) == Emit(r);
      }
    }
  }

  /**
   * How a call ends, by the reply: records exactly for a list whose element 3 is a list of rows none of
   * which raises; the logged "unexpected structure" exactly for a string, a list of at most three elements
   * or without a list at index 3, or a dict of at most three keys; an exception otherwise.
   */
  lemma NormalizeOutcomes(endpoint: string, reply: Reply)
    ensures Normalize(endpoint, reply).Parsed? <==>
      && reply.Body? && reply.data.Array? && |reply.data.items| > 3 && reply.data.items[3].Array?
      && forall i :: 0 <= i < |reply.data.items[3].items| ==> !RowRaises(ConfigFor(endpoint), reply.data.items[3].items[i])
    ensures Normalize(endpoint, reply).Malformed? <==>
      && reply.Body?
      && match reply.data
         case String(_) => true
         case Array(items) => |items| <= 3 || !items[3].Array?
         case Object(fields) => |fields| <= 3
         case _ => false
  {
    ConfigLayout(endpoint);
    if reply.Body? && reply.data.Array? && |reply.data.items| > 3 && reply.data.items[3].Array? {
      RowsRaiseIffSomeRowRaises(endpoint, ConfigFor(endpoint), reply.data.items[3].items);
    }
  }

  /** A reply without a list at index 3 yields no records. */
  lemma MissingEnvelopeYieldsNothing(endpoint: string, data: Json)
    requires !(data.Array? && |data.items| > 3 && data.items[3].Array?)
    ensures Results(Normalize(endpoint, Body(data))) == []
  {
    ConfigLayout(endpoint);
  }

  /** One row that raises, anywhere in the list at index 3 of the reply, empties the whole call, whatever the other rows hold. */
  lemma RaisingRowEmptiesCall(endpoint: string, data: Json, row: Json)
    requires data.Array? && |data.items| > 3 && data.items[3].Array?
    requires row in data.items[3].items && RowRaises(ConfigFor(endpoint), row)
    ensures Results(Normalize(endpoint, Body(data))) == []
  {
    ConfigLayout(endpoint);
    var rows := data.items[3].items;
    var i :| 0 <= i < |rows| && rows[i] == row;
    RowsRaiseIffSomeRowRaises(endpoint, ConfigFor(endpoint), rows);
  }

  /**
   * The service's list is not cut to `limit`: when the list at index 3 holds more than `limit` rows
   * and every one is a good row, `search` returns one record per row.
   */
  lemma NoLocalTruncation(endpoint: string, query: string, limit: nat, head: seq<Json>, rows: seq<Json>)
    requires |head| == 3 && |rows| > limit
    requires forall i :: 0 <= i < |rows| ==> IsRow(rows[i]) && !RowRaises(ConfigFor(endpoint), rows[i])
    ensures var server := (req: Request) => Body(Array(head + [Array(rows)]));
            |SearchSpec(endpoint, query, limit, server)| == |rows|
  {
    var config := ConfigFor(endpoint);
    ConfigLayout(endpoint);
    AllGoodRows(endpoint, config, rows);
    var rs := ParseRowsSpec(endpoint, config, rows).value;
    RowsYieldOneRecordEach(endpoint, config, rows, rs);
    assert (head + [Array(rows)])[3] == Array(rows);
  }

  /** Rows that are all list rows and none of which raises are all kept, and the loop completes. */
  lemma {:induction false} AllGoodRows(endpoint: string, config: Config, rows: seq<Json>)
    requires forall i :: 0 <= i < |rows| ==> IsRow(rows[i]) && !RowRaises(config, rows[i])
    ensures ParseRowsSpec(endpoint, config, rows).Some?
    ensures Kept(rows) == rows
    decreases |rows|
  {
    RowsRaiseIffSomeRowRaises(endpoint, config, rows);
    if rows != [] {
      var init := rows[..|rows| - 1];
      assert forall i :: 0 <= i < |init| ==> init[i] == rows[i];
      AllGoodRows(endpoint, config, init);
      assert IsRow(rows[|rows| - 1]);
      assert init + [rows[|rows| - 1]] == rows;
    }
  }
}
