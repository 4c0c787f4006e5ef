// HTTP client of the compliance service (pkg/compliance/client/compliance.go):
// the URL each call requests, the findings request it posts, and the
// catalog records (benchmarks, policies, queries) the calls return.  The
// HTTP round trip itself is not modelled; `ComplianceService` stands for
// whatever the remote service answers.

module ComplianceClient {
  import opened Common

  // ---------------------------------------------------------------------
  // Records served by the compliance service
  // ---------------------------------------------------------------------

  /** A benchmark: child benchmarks and the policies evaluated directly under it. */
  datatype Benchmark = Benchmark(id: string, children: seq<string>, policies: seq<string>)

  /** A policy; its query is optional (manual policies have none). */
  datatype Policy = Policy(id: string, severity: string, queryId: Option<string>)

  /** A query of the catalog, bound to one connector (cloud provider). */
  datatype Query = Query(id: string, connector: string, queryToExecute: string)

  /**
   * The answers of the remote service: a lookup succeeds when the ID is
   * present and fails (the HTTP call returns an error) otherwise.
   */
  datatype ComplianceService = ComplianceService(
    benchmarks: map<string, Benchmark>,
    policies: map<string, Policy>,
    queries: map<string, Query>)
  {
    function GetBenchmark(id: string): Result<Benchmark>
    {
      if id in benchmarks then Ok(benchmarks[id]) else Err("benchmark " + id + " not found")
    }

    function GetPolicy(id: string): Result<Policy>
    {
      if id in policies then Ok(policies[id]) else Err("policy " + id + " not found")
    }

    function GetQuery(id: string): Result<Query>
    {
      if id in queries then Ok(queries[id]) else Err("query " + id + " not found")
    }
  }

  // ---------------------------------------------------------------------
  // Per-call URLs
  // ---------------------------------------------------------------------

  /** The calls that address one resource by ID. */
  datatype Endpoint =
    | AssignmentsByConnection(sourceId: string)
    | BenchmarkById(benchmarkId: string)
    | PolicyById(policyId: string)
    | QueryById(queryId: string)
    | InsightById(insightId: nat)

  const AssignmentsPath: string := "/api/v1/assignments/connection/"
  const BenchmarksPath: string := "/api/v1/benchmarks/"
  const PoliciesPath: string := "/api/v1/benchmarks/policies/"
  const QueriesPath: string := "/api/v1/queries/"
  const InsightPath: string := "/api/v1/metadata/insight"
  const FindingsPath: string := "/api/v1/findings"

  /** The URL a call requests: base URL, the call's fixed path, then the ID. */
  function EndpointURL(baseURL: string, e: Endpoint): string
  {
    baseURL + match e
      case AssignmentsByConnection(id) => AssignmentsPath + id
      case BenchmarkById(id) => BenchmarksPath + id
      case PolicyById(id) => PoliciesPath + id
      case QueryById(id) => QueriesPath + id
      case InsightById(id) => InsightPath + "/" + NatToString(id)
  }

  predicate NoSlash(s: string) { forall i :: 0 <= i < |s| ==> s[i] != '/' }

  /** An ID that is a single path segment. */
  predicate SegmentIds(e: Endpoint)
  {
    match e
    case AssignmentsByConnection(id) => NoSlash(id)
    case BenchmarkById(id) => NoSlash(id)
    case PolicyById(id) => NoSlash(id)
    case QueryById(id) => NoSlash(id)
    case InsightById(_) => true
  }

  /** Recovers the call from the path that follows the base URL. */
  function ParsePath(path: string): (r: Option<Endpoint>)
    ensures r.Some? ==> SegmentIds(r.value)
  {
    if HasPrefix(path, AssignmentsPath) && NoSlash(path[|AssignmentsPath|..]) then
      Some(AssignmentsByConnection(path[|AssignmentsPath|..]))
    else if HasPrefix(path, PoliciesPath) && NoSlash(path[|PoliciesPath|..]) then
      Some(PolicyById(path[|PoliciesPath|..]))
    else if HasPrefix(path, BenchmarksPath) && NoSlash(path[|BenchmarksPath|..]) then
      Some(BenchmarkById(path[|BenchmarksPath|..]))
    else if HasPrefix(path, QueriesPath) && NoSlash(path[|QueriesPath|..]) then
      Some(QueryById(path[|QueriesPath|..]))
    else if HasPrefix(path, InsightPath + "/") && |path| > |InsightPath| + 1
         && (forall i :: |InsightPath| + 1 <= i < |path| ==> IsDigit(path[i])) then
      Some(InsightById(DigitsValue(path[|InsightPath| + 1..])))
    else None
  }

  /** A path made of `p` followed by a slash-free `id` starts with `q` only if `q` is a prefix of `p`, or `q` is `p` plus slash-free text. */
  lemma PrefixOfSegmentPath(p: string, id: string, q: string)
    requires NoSlash(id) && |q| > |p| && q[|q| - 1] == '/'
    ensures !HasPrefix(p + id, q)
  {
    if |q| <= |p + id| {
      assert (p + id)[|q| - 1] == id[|q| - 1 - |p|];
    }
  }

  /** Every URL decodes back to the call that produced it, so distinct calls request distinct URLs. */
  lemma EndpointURLRoundTrip(baseURL: string, e: Endpoint)
    requires SegmentIds(e)
    ensures HasPrefix(EndpointURL(baseURL, e), baseURL)
    ensures ParsePath(EndpointURL(baseURL, e)[|baseURL|..]) == Some(e)
  {
    var url := EndpointURL(baseURL, e);
    var path := url[|baseURL|..];
    match e {
      case AssignmentsByConnection(id) =>
        assert path == AssignmentsPath + id;
        assert path[|AssignmentsPath|..] == id;
      case PolicyById(id) =>
        assert path == PoliciesPath + id;
        assert !HasPrefix(path, AssignmentsPath) by {
          assert path[8] != AssignmentsPath[8];
        }
        assert path[|PoliciesPath|..] == id;
      case BenchmarkById(id) =>
        assert path == BenchmarksPath + id;
        assert !HasPrefix(path, AssignmentsPath) by {
          assert path[8] != AssignmentsPath[8];
        }
        PrefixOfSegmentPath(BenchmarksPath, id, PoliciesPath);
        assert path[|BenchmarksPath|..] == id;
      case QueryById(id) =>
        assert path == QueriesPath + id;
        assert path[8] == 'q';
        assert !HasPrefix(path, AssignmentsPath) by { assert AssignmentsPath[8] == 'a'; }
        assert !HasPrefix(path, PoliciesPath) by { assert PoliciesPath[8] == 'b'; }
        assert !HasPrefix(path, BenchmarksPath) by { assert BenchmarksPath[8] == 'b'; }
        assert path[|QueriesPath|..] == id;
      case InsightById(n) =>
        var digits := NatToString(n);
        assert path == InsightPath + "/" + digits;
        assert path[8] == 'm';
        assert !HasPrefix(path, AssignmentsPath) by { assert AssignmentsPath[8] == 'a'; }
        assert !HasPrefix(path, PoliciesPath) by { assert PoliciesPath[8] == 'b'; }
        assert !HasPrefix(path, BenchmarksPath) by { assert BenchmarksPath[8] == 'b'; }
        assert !HasPrefix(path, QueriesPath) by { assert QueriesPath[8] == 'q'; }
        assert path[|InsightPath| + 1..] == digits;
        NatToStringValue(n);
    }
  }

  // ---------------------------------------------------------------------
  // ListInsightsMetadata query string
  // ---------------------------------------------------------------------

  /** Joins the parts with `sep` between consecutive ones. */
  function Join(parts: seq<string>, sep: char): string
  {
    if parts == [] then ""
    else if |parts| == 1 then parts[0]
    else parts[0] + [sep] + Join(parts[1..], sep)
  }

  /** The `connector=<c>` parameter for each connector, in input order. */
  function ConnectorParams(connectors: seq<string>): (r: seq<string>)
    ensures |r| == |connectors|
    ensures forall i :: 0 <= i < |r| ==> r[i] == "connector=" + connectors[i]
  {
    if connectors == [] then [] else ["connector=" + connectors[0]] + ConnectorParams(connectors[1..])
  }

  /**
   * ListInsightsMetadata's URL: the first parameter is introduced by "?",
   * every later one by "&".
   */
  method ListInsightsMetadataURL(baseURL: string, connectors: seq<string>) returns (url: string)
    ensures connectors == [] ==> url == baseURL + InsightPath
    ensures connectors != [] ==> url == baseURL + InsightPath + "?" + Join(ConnectorParams(connectors), '&')
  {
    url := baseURL + InsightPath;
    var firstParamAttached := false;
    ghost var params: string := "";
    var i := 0;
    while i < |connectors|
      invariant 0 <= i <= |connectors|
      invariant firstParamAttached <==> i > 0
      invariant i == 0 ==> url == baseURL + InsightPath
      invariant i > 0 ==> url == baseURL + InsightPath + "?" + Join(ConnectorParams(connectors[..i]), '&')
    {
      if !firstParamAttached {
        url := url + "?";
        firstParamAttached := true;
      } else {
        url := url + "&";
      }
      url := url + "connector=" + connectors[i];
      JoinSnoc(ConnectorParams(connectors[..i]), "connector=" + connectors[i], '&');
      ConnectorParamsSnoc(connectors[..i], connectors[i]);
      assert connectors[..i + 1] == connectors[..i] + [connectors[i]];
      i := i + 1;
    }
    assert connectors[..i] == connectors;
  }

  lemma {:induction false} ConnectorParamsSnoc(cs: seq<string>, c: string)
    ensures ConnectorParams(cs + [c]) == ConnectorParams(cs) + ["connector=" + c]
  {
    var l := ConnectorParams(cs + [c]);
    var r := ConnectorParams(cs) + ["connector=" + c];
    assert |l| == |r|;
    forall i | 0 <= i < |l| ensures l[i] == r[i] {
      if i < |cs| { assert (cs + [c])[i] == cs[i]; }
    }
  }

  lemma {:induction false} JoinSnoc(parts: seq<string>, p: string, sep: char)
    ensures parts == [] ==> Join(parts + [p], sep) == p
    ensures parts != [] ==> Join(parts + [p], sep) == Join(parts, sep) + [sep] + p
    decreases |parts|
  {
    if |parts| == 1 {
      assert parts + [p] == [parts[0], p];
      assert (parts + [p])[1..] == [p];
    } else if |parts| > 1 {
      JoinSnoc(parts[1..], p, sep);
      assert (parts + [p])[1..] == parts[1..] + [p];
    }
  }

  /** strings.Split on one separator character. */
  function Split(s: string, sep: char): (r: seq<string>)
    ensures |r| >= 1
    decreases |s|
  {
    var i := IndexOfChar(s, sep);
    if i == |s| then [s] else [s[..i]] + Split(s[i + 1..], sep)
  }

  /** Splitting a joined list at the separator gives the parts back, when no part contains it. */
  lemma {:induction false} SplitJoin(parts: seq<string>, sep: char)
    requires parts != []
    requires forall k :: 0 <= k < |parts| ==> sep !in parts[k]
    ensures Split(Join(parts, sep), sep) == parts
    decreases |parts|
  {
    var p0 := parts[0];
    if |parts| == 1 {
      assert forall k :: 0 <= k < |p0| ==> p0[k] != sep;
    } else {
      var rest := Join(parts[1..], sep);
      var s := p0 + [sep] + rest;
      assert s[|p0|] == sep;
      assert forall k :: 0 <= k < |p0| ==> s[k] == p0[k] && p0[k] != sep;
      var i := IndexOfChar(s, sep);
      assert i == |p0|;
      assert s[..i] == p0;
      assert s[i + 1..] == rest;
      SplitJoin(parts[1..], sep);
    }
  }

  lemma ParamHasNoAmpersand(c: string)
    requires '&' !in c
    ensures '&' !in "connector=" + c
  {
    var param := "connector=" + c;
    forall j | 0 <= j < |param| ensures param[j] != '&' {
      if j >= 10 {
        assert param[j] == c[j - 10];
      }
    }
  }

  /** The query string carries exactly one connector parameter per connector, in order. */
  lemma InsightQueryRoundTrip(connectors: seq<string>)
    requires connectors != []
    requires forall k :: 0 <= k < |connectors| ==> '&' !in connectors[k]
    ensures Split(Join(ConnectorParams(connectors), '&'), '&') == ConnectorParams(connectors)
  {
    var ps := ConnectorParams(connectors);
    forall k | 0 <= k < |ps| ensures '&' !in ps[k] {
      ParamHasNoAmpersand(connectors[k]);
    }
    SplitJoin(ps, '&');
  }

  // ---------------------------------------------------------------------
  // GetFindings request
  // ---------------------------------------------------------------------

  datatype FindingFilters = FindingFilters(connectionId: seq<string>, benchmarkId: seq<string>, resourceId: seq<string>)
  datatype FindingSortItem = FindingSortItem(field: string, direction: string)
  datatype Page = Page(no: nat, size: nat)
  datatype GetFindingsRequest = GetFindingsRequest(filters: FindingFilters, sorts: seq<FindingSortItem>, page: Page)

  /** The body GetFindings posts to base + "/api/v1/findings". */
  function GetFindingsRequestFor(sourceIds: seq<string>, benchmarkId: string, resourceIds: seq<string>)
    : (r: GetFindingsRequest)
    ensures r.filters.connectionId == sourceIds && r.filters.resourceId == resourceIds
    ensures r.filters.benchmarkId == [benchmarkId]
    ensures r.sorts == [FindingSortItem("status", "desc")]
    ensures r.page.no == 1 && r.page.size == 100
  {
    GetFindingsRequest(
      FindingFilters(sourceIds, [benchmarkId], resourceIds),
      [FindingSortItem("status", "desc")],
      Page(1, 100))
  }
}
