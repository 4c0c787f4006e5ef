// The compliance report worker (pkg/compliance/worker/job.go): it evaluates
// a benchmark tree against one connection and turns the rows each policy's
// query returns into findings.  The compliance service is the map-backed
// `ComplianceService`; the steampipe database is the `queryAll` oracle; the
// onboard client, steampipe configuration and start-up, and the Kafka send
// are parameters of `Run`.

module ComplianceWorker {
  import opened Common
  import opened ComplianceClient

  /** A cell of a query row: only string values are read by the worker. */
  datatype Value = VStr(s: string) | VOther

  /** steampipe.Result: column headers and rows. */
  datatype QueryResult = QueryResult(headers: seq<string>, data: seq<seq<Value>>)

  /** worker.Job */
  datatype WorkerJob = WorkerJob(
    jobId: nat,
    scheduleJobId: nat,
    describedAt: int,
    evaluatedAt: int,
    connectionId: string,
    benchmarkId: string,
    connector: string)

  /** es.Finding (without the service name and category, see README). */
  datatype Finding = Finding(
    id: string,
    complianceJobId: nat,
    scheduleJobId: nat,
    resourceId: string,
    resourceName: string,
    resourceType: string,
    resourceLocation: string,
    reason: string,
    status: string,
    describedAt: int,
    evaluatedAt: int,
    connectionId: string,
    connector: string,
    benchmarkId: string,
    policyId: string,
    policySeverity: string)

  datatype ReportStatus = Completed | CompletedWithFailure

  /** worker.JobResult */
  datatype JobResult = JobResult(jobId: nat, status: ReportStatus, reportCreatedAt: int, error: string)

  // ---------------------------------------------------------------------
  // ExtractFindings
  // ---------------------------------------------------------------------

  /** The header → cell map of one record; for a repeated header the last column wins. */
  function RecordValue(headers: seq<string>, record: seq<Value>): (m: map<string, Value>)
    requires |record| == |headers|
  {
    if headers == [] then map[]
    else
      var n := |headers| - 1;
      RecordValue(headers[..n], record[..n])[headers[n] := record[n]]
  }

  /** The map's keys are exactly the headers. */
  lemma {:induction false} RecordValueKeys(headers: seq<string>, record: seq<Value>)
    requires |record| == |headers|
    ensures forall k :: k in RecordValue(headers, record) <==> k in headers
    decreases |headers|
  {
    if |headers| > 0 {
      var n := |headers| - 1;
      RecordValueKeys(headers[..n], record[..n]);
      assert headers == headers[..n] + [headers[n]];
    }
  }

  /** The value a header maps to is the cell of its last column. */
  lemma {:induction false} RecordValueLastWins(headers: seq<string>, record: seq<Value>, i: nat)
    requires |record| == |headers| && i < |headers|
    requires forall j :: i < j < |headers| ==> headers[j] != headers[i]
    ensures headers[i] in RecordValue(headers, record)
    ensures RecordValue(headers, record)[headers[i]] == record[i]
  {
    var n := |headers| - 1;
    if i < n {
      RecordValueLastWins(headers[..n], record[..n], i);
    }
  }

  /** `recordValue[name].(string)`: the string, or "" when missing or not a string. */
  function StringField(rv: map<string, Value>, name: string): (r: string)
    ensures name in rv && rv[name].VStr? ==> r == rv[name].s
    ensures !(name in rv && rv[name].VStr?) ==> r == ""
  {
    if name in rv && rv[name].VStr? then rv[name].s else ""
  }

  function FindingId(resourceId: string, policyId: string, scheduleJobId: nat): string
  {
    resourceId + "-" + policyId + "-" + NatToString(scheduleJobId)
  }

  /** Within one policy and one schedule job, the finding ID determines the resource ID. */
  lemma FindingIdInjective(r1: string, r2: string, policyId: string, scheduleJobId: nat)
    requires FindingId(r1, policyId, scheduleJobId) == FindingId(r2, policyId, scheduleJobId)
    ensures r1 == r2
  {
    var suffix := "-" + policyId + "-" + NatToString(scheduleJobId);
    assert FindingId(r1, policyId, scheduleJobId) == r1 + suffix;
    assert FindingId(r2, policyId, scheduleJobId) == r2 + suffix;
    assert |r1| == |r2|;
    assert r1 == (r1 + suffix)[..|r1|];
  }

  /** The finding built from one record of a policy's query result. */
  function FindingOf(job: WorkerJob, policy: Policy, rv: map<string, Value>): (f: Finding)
    ensures f.id == FindingId(f.resourceId, policy.id, job.scheduleJobId)
    ensures f.policyId == policy.id && f.policySeverity == policy.severity
    ensures f.complianceJobId == job.jobId && f.scheduleJobId == job.scheduleJobId
    ensures f.connectionId == job.connectionId && f.connector == job.connector
    ensures f.benchmarkId == job.benchmarkId
  {
    var resourceId := StringField(rv, "resource");
    Finding(
      FindingId(resourceId, policy.id, job.scheduleJobId),
      job.jobId, job.scheduleJobId,
      resourceId,
      StringField(rv, "name"),
      StringField(rv, "resourceType"),
      StringField(rv, "location"),
      StringField(rv, "reason"),
      StringField(rv, "status"),
      job.describedAt, job.evaluatedAt,
      job.connectionId, job.connector, job.benchmarkId,
      policy.id, policy.severity)
  }

  /** Index of the first record whose length differs from the header count, |data| if none. */
  function FirstBadRecord(headers: seq<string>, data: seq<seq<Value>>): (k: nat)
    ensures k <= |data|
    ensures k < |data| ==> |data[k]| != |headers|
    ensures forall i :: 0 <= i < k ==> |data[i]| == |headers|
  {
    if data == [] || |data[0]| != |headers| then 0 else 1 + FirstBadRecord(headers, data[1..])
  }

  function LengthError(recordLen: nat, headerLen: nat): string
  {
    "invalid record length, record=" + NatToString(recordLen) + " headers=" + NatToString(headerLen)
  }

  /** The findings of records that all have the header count, in record order. */
  function RecordFindings(job: WorkerJob, policy: Policy, headers: seq<string>, data: seq<seq<Value>>): (fs: seq<Finding>)
    requires forall i :: 0 <= i < |data| ==> |data[i]| == |headers|
    ensures |fs| == |data|
    ensures forall i :: 0 <= i < |fs| ==> fs[i].policyId == policy.id
    decreases |data|
  {
    if |data| == 0 then []
    else
      var n := |data| - 1;
      RecordFindings(job, policy, headers, data[..n]) + [FindingOf(job, policy, RecordValue(headers, data[n]))]
  }

  /** The finding at `i` is the one built from record `i`. */
  lemma {:induction false} RecordFindingsAt(job: WorkerJob, policy: Policy, headers: seq<string>, data: seq<seq<Value>>, i: nat)
    requires forall k :: 0 <= k < |data| ==> |data[k]| == |headers|
    requires i < |data|
    ensures RecordFindings(job, policy, headers, data)[i] == FindingOf(job, policy, RecordValue(headers, data[i]))
    decreases |data|
  {
    var n := |data| - 1;
    if i < n {
      RecordFindingsAt(job, policy, headers, data[..n], i);
    }
  }

  /** What ExtractFindings returns for one query result. */
  function Findings(job: WorkerJob, policy: Policy, res: QueryResult): (r: Result<seq<Finding>>)
    ensures r.Err? <==> exists i :: 0 <= i < |res.data| && |res.data[i]| != |res.headers|
    ensures r.Ok? ==> |r.value| == |res.data|
  {
    var k := FirstBadRecord(res.headers, res.data);
    if k < |res.data| then Err(LengthError(|res.data[k]|, |res.headers|))
    else Ok(RecordFindings(job, policy, res.headers, res.data))
  }

  /** One finding per record, in record order, each with the record's string columns. */
  lemma FindingsPerRecord(job: WorkerJob, policy: Policy, res: QueryResult, i: nat)
    requires Findings(job, policy, res).Ok? && i < |res.data|
    ensures |res.data[i]| == |res.headers|
    ensures var f := Findings(job, policy, res).value[i];
      var rv := RecordValue(res.headers, res.data[i]);
      f.resourceId == StringField(rv, "resource") && f.resourceName == StringField(rv, "name") &&
      f.resourceType == StringField(rv, "resourceType") && f.resourceLocation == StringField(rv, "location") &&
      f.reason == StringField(rv, "reason") && f.status == StringField(rv, "status")
  {
    RecordFindingsAt(job, policy, res.headers, res.data, i);
  }

  /** The failure reports the first record of the wrong length, and no finding is returned. */
  lemma FindingsErrorIsFirstBadRecord(job: WorkerJob, policy: Policy, res: QueryResult, k: nat)
    requires k < |res.data| && |res.data[k]| != |res.headers|
    requires forall i :: 0 <= i < k ==> |res.data[i]| == |res.headers|
    ensures Findings(job, policy, res) == Err(LengthError(|res.data[k]|, |res.headers|))
  {
    var b := FirstBadRecord(res.headers, res.data);
    assert b == k by {
      assert !(b < k);
    }
  }

  /** The header loop of ExtractFindings. */
  method BuildRecordValue(headers: seq<string>, record: seq<Value>) returns (m: map<string, Value>)
    requires |record| == |headers|
    ensures m == RecordValue(headers, record)
  {
    m := map[];
    var idx := 0;
    while idx < |headers|
      invariant 0 <= idx <= |headers|
      invariant m == RecordValue(headers[..idx], record[..idx])
    {
      assert headers[..idx + 1][..idx] == headers[..idx];
      assert record[..idx + 1][..idx] == record[..idx];
      m := m[headers[idx] := record[idx]];
      idx := idx + 1;
    }
    assert headers[..idx] == headers && record[..idx] == record;
  }

  /** The finding of one record of the header count. */
  method RecordFinding(job: WorkerJob, policy: Policy, headers: seq<string>, record: seq<Value>) returns (f: Finding)
    requires |record| == |headers|
    ensures f == FindingOf(job, policy, RecordValue(headers, record))
  {
    var rv := BuildRecordValue(headers, record);
    f := FindingOf(job, policy, rv);
  }

  /** The record loop of ExtractFindings: it stops at the first record of the wrong length, at `n`. */
  method CollectFindings(job: WorkerJob, policy: Policy, res: QueryResult) returns (findings: seq<Finding>, n: nat)
    ensures n <= |res.data|
    ensures forall i :: 0 <= i < n ==> |res.data[i]| == |res.headers|
    ensures n < |res.data| ==> |res.data[n]| != |res.headers|
    ensures findings == RecordFindings(job, policy, res.headers, res.data[..n])
  {
    findings := [];
    n := 0;
    while n < |res.data|
      invariant 0 <= n <= |res.data|
      invariant forall i :: 0 <= i < n ==> |res.data[i]| == |res.headers|
      invariant findings == RecordFindings(job, policy, res.headers, res.data[..n])
    {
      var record := res.data[n];
      if |record| != |res.headers| {
        return;
      }
      assert res.data[..n + 1][..n] == res.data[..n];
      var f := RecordFinding(job, policy, res.headers, record);
      findings := findings + [f];
      n := n + 1;
    }
  }

  /** ExtractFindings: the findings of every record, or the length error of the first bad one. */
  method ExtractFindings(job: WorkerJob, policy: Policy, res: QueryResult) returns (r: Result<seq<Finding>>)
    ensures r == Findings(job, policy, res)
  {
    var findings, n := CollectFindings(job, policy, res);
    if n < |res.data| {
      FindingsErrorIsFirstBadRecord(job, policy, res, n);
      return Err(LengthError(|res.data[n]|, |res.headers|));
    }
    assert res.data[..n] == res.data;
    var k := FirstBadRecord(res.headers, res.data);
    assert !(k < |res.data|);
    r := Ok(findings);
  }

  // ---------------------------------------------------------------------
  // RunBenchmark
  // ---------------------------------------------------------------------

  /**
   * How a benchmark evaluation ends: with its findings, with an error, or
   * in a panic (a nil query result dereferenced by ExtractFindings).
   */
  datatype Outcome<T> = Found(value: T) | Failed(error: string) | Panicked
  {
    predicate IsFailure() { !Found? }

    function PropagateFailure<U>(): Outcome<U>
      requires !Found?
    {
      if Failed? then Failed(error) else Panicked
    }

    function Extract(): T
      requires Found?
    {
      value
    }
  }

  /** The answer of a call that can fail but not panic. */
  function Lift<T>(r: Result<T>): Outcome<T>
  {
    if r.Ok? then Found(r.value) else Failed(r.error)
  }

  /**
   * What the worker talks to: the compliance service and the steampipe
   * database, whose QueryAll may answer a nil result (`None`) without an error.
   */
  datatype WorkerEnv = WorkerEnv(svc: ComplianceService, queryAll: string -> Result<Option<QueryResult>>)

  /**
   * The benchmark tree is finite: every child present in the catalog has a
   * smaller rank than its parent.  (On a cyclic catalog the source recurses
   * without end.)
   */
  predicate Ranked(svc: ComplianceService, rank: map<string, nat>)
  {
    (forall b :: b in svc.benchmarks ==> b in rank) &&
    forall b, i ::
      (b in svc.benchmarks && 0 <= i < |svc.benchmarks[b].children| &&
       svc.benchmarks[b].children[i] in svc.benchmarks) ==>
      (svc.benchmarks[b].children[i] in rank && rank[svc.benchmarks[b].children[i]] < rank[b])
  }

  function Height(svc: ComplianceService, rank: map<string, nat>, id: string): nat
    requires Ranked(svc, rank)
  {
    if id in svc.benchmarks then rank[id] + 1 else 0
  }

  /** The finding's policy ID belongs to a catalog policy whose query targets `connector`. */
  ghost predicate FromMatchingPolicy(svc: ComplianceService, connector: string, policyId: string)
  {
    exists k :: k in svc.policies && svc.policies[k].id == policyId &&
      svc.policies[k].queryId.Some? && svc.policies[k].queryId.value in svc.queries &&
      svc.queries[svc.policies[k].queryId.value].connector == connector
  }

  ghost predicate AllFromMatchingPolicies(svc: ComplianceService, connector: string, fs: seq<Finding>)
  {
    forall i :: 0 <= i < |fs| ==> FromMatchingPolicy(svc, connector, fs[i].policyId)
  }

  lemma AllFromMatchingPoliciesAppend(svc: ComplianceService, connector: string, a: seq<Finding>, b: seq<Finding>)
    requires AllFromMatchingPolicies(svc, connector, a) && AllFromMatchingPolicies(svc, connector, b)
    ensures AllFromMatchingPolicies(svc, connector, a + b)
  {
    forall i | 0 <= i < |a + b|
      ensures FromMatchingPolicy(svc, connector, (a + b)[i].policyId)
    {
      if i < |a| { assert (a + b)[i] == a[i]; } else { assert (a + b)[i] == b[i - |a|]; }
    }
  }

  /** RunBenchmark: the children's findings first, in child order, then the policies'. */
  function RunBenchmark(env: WorkerEnv, rank: map<string, nat>, job: WorkerJob, id: string, connector: string)
    : (r: Outcome<seq<Finding>>)
    requires Ranked(env.svc, rank)
    ensures r.Found? ==> AllFromMatchingPolicies(env.svc, connector, r.value)
    ensures r.Found? ==>
      && id in env.svc.benchmarks
      && RunChildren(env, rank, job, id, env.svc.benchmarks[id].children, connector).Found?
      && RunPolicies(env, job, env.svc.benchmarks[id].policies, connector).Found?
      && r.value == RunChildren(env, rank, job, id, env.svc.benchmarks[id].children, connector).value
                    + RunPolicies(env, job, env.svc.benchmarks[id].policies, connector).value
    decreases Height(env.svc, rank, id), 2, 0
  {
    var b :- Lift(env.svc.GetBenchmark(id));
    var fromChildren :- RunChildren(env, rank, job, id, b.children, connector);
    var fromPolicies :- RunPolicies(env, job, b.policies, connector);
    AllFromMatchingPoliciesAppend(env.svc, connector, fromChildren, fromPolicies);
    Found(fromChildren + fromPolicies)
  }

  /** The child loop of RunBenchmark: the first failing child aborts the benchmark. */
  function RunChildren(env: WorkerEnv, rank: map<string, nat>, job: WorkerJob, parent: string,
                       children: seq<string>, connector: string): (r: Outcome<seq<Finding>>)
    requires Ranked(env.svc, rank) && parent in env.svc.benchmarks
    requires forall c :: c in children && c in env.svc.benchmarks ==> c in rank && rank[c] < rank[parent]
    ensures r.Found? ==> AllFromMatchingPolicies(env.svc, connector, r.value)
    decreases Height(env.svc, rank, parent), 1, |children|
  {
    if children == [] then Found([])
    else
      var first :- RunBenchmark(env, rank, job, children[0], connector);
      var rest :- RunChildren(env, rank, job, parent, children[1..], connector);
      AllFromMatchingPoliciesAppend(env.svc, connector, first, rest);
      Found(first + rest)
  }

  /** The policy loop of RunBenchmark. */
  function RunPolicies(env: WorkerEnv, job: WorkerJob, policies: seq<string>, connector: string)
    : (r: Outcome<seq<Finding>>)
    ensures r.Found? ==> AllFromMatchingPolicies(env.svc, connector, r.value)
  {
    if policies == [] then Found([])
    else
      var policy :- Lift(env.svc.GetPolicy(policies[0]));
      if policy.queryId.None? then RunPolicies(env, job, policies[1..], connector)
      else
        var query :- Lift(env.svc.GetQuery(policy.queryId.value));
        if query.connector != connector then Failed("connector doesn't match")
        else
          var res :- Lift(env.queryAll(query.queryToExecute));
          if res.None? then Panicked
          else
          var f :- Lift(Findings(job, policy, res.value));
          var rest :- RunPolicies(env, job, policies[1..], connector);
          assert AllFromMatchingPolicies(env.svc, connector, f) by {
            assert FromMatchingPolicy(env.svc, connector, policy.id) by {
              assert env.svc.policies[policies[0]] == policy;
            }
          }
          AllFromMatchingPoliciesAppend(env.svc, connector, f, rest);
          Found(f + rest)
  }

  /** A policy without a query contributes no findings and no error. */
  lemma PolicyWithoutQuerySkipped(env: WorkerEnv, job: WorkerJob, policies: seq<string>, connector: string)
    requires |policies| > 0 && policies[0] in env.svc.policies && env.svc.policies[policies[0]].queryId.None?
    ensures RunPolicies(env, job, policies, connector) == RunPolicies(env, job, policies[1..], connector)
  {
  }

  /** A policy whose query targets another connector aborts the whole policy loop. */
  lemma ConnectorMismatchAborts(env: WorkerEnv, job: WorkerJob, policies: seq<string>, connector: string)
    requires |policies| > 0 && policies[0] in env.svc.policies
    requires env.svc.policies[policies[0]].queryId.Some?
    requires env.svc.policies[policies[0]].queryId.value in env.svc.queries
    requires env.svc.queries[env.svc.policies[policies[0]].queryId.value].connector != connector
    ensures RunPolicies(env, job, policies, connector) == Failed("connector doesn't match")
  {
  }

  /** A nil query result with no error reaches ExtractFindings, which panics on it. */
  lemma NilQueryResultPanics(env: WorkerEnv, job: WorkerJob, policies: seq<string>, connector: string)
    requires |policies| > 0 && policies[0] in env.svc.policies
    requires env.svc.policies[policies[0]].queryId.Some?
    requires env.svc.policies[policies[0]].queryId.value in env.svc.queries
    requires env.svc.queries[env.svc.policies[policies[0]].queryId.value].connector == connector
    requires env.queryAll(env.svc.queries[env.svc.policies[policies[0]].queryId.value].queryToExecute) == Ok(None)
    ensures RunPolicies(env, job, policies, connector) == Panicked
  {
  }

  /**
   * A policy with a query for the connector whose result comes back
   * contributes its findings, in record order, ahead of the rest of the
   * policies' findings; a record of the wrong length fails the loop with
   * that error.
   */
  lemma RunPoliciesCons(env: WorkerEnv, job: WorkerJob, policies: seq<string>, connector: string, res: QueryResult)
    requires |policies| > 0 && policies[0] in env.svc.policies
    requires env.svc.policies[policies[0]].queryId.Some?
    requires env.svc.policies[policies[0]].queryId.value in env.svc.queries
    requires env.svc.queries[env.svc.policies[policies[0]].queryId.value].connector == connector
    requires env.queryAll(env.svc.queries[env.svc.policies[policies[0]].queryId.value].queryToExecute) == Ok(Some(res))
    ensures var r := RunPolicies(env, job, policies, connector);
      var f := Findings(job, env.svc.policies[policies[0]], res);
      var rest := RunPolicies(env, job, policies[1..], connector);
      && (r.Found? <==> f.Ok? && rest.Found?)
      && (r.Found? ==> r.value == f.value + rest.value)
      && (f.Err? ==> r == Failed(f.error))
  {
  }

  /** One child's evaluation is the child loop over that child alone. */
  lemma RunChildrenSingle(env: WorkerEnv, rank: map<string, nat>, job: WorkerJob,
                          parent: string, child: string, connector: string)
    requires Ranked(env.svc, rank) && parent in env.svc.benchmarks
    requires child in env.svc.benchmarks ==> child in rank && rank[child] < rank[parent]
    ensures RunChildren(env, rank, job, parent, [child], connector) == RunBenchmark(env, rank, job, child, connector)
  {
    var r := RunBenchmark(env, rank, job, child, connector);
    if r.Found? {
      assert [child][1..] == [];
      assert r.value + [] == r.value;
    }
  }

  /**
   * The child loop over `a + b` succeeds iff it succeeds over `a` and over
   * `b`, and then its findings are those of `a` followed by those of `b`:
   * findings come in child order.
   */
  lemma {:induction false} RunChildrenAppend(env: WorkerEnv, rank: map<string, nat>, job: WorkerJob,
                                             parent: string, a: seq<string>, b: seq<string>, connector: string)
    requires Ranked(env.svc, rank) && parent in env.svc.benchmarks
    requires forall c :: c in a + b && c in env.svc.benchmarks ==> c in rank && rank[c] < rank[parent]
    ensures RunChildren(env, rank, job, parent, a + b, connector).Found? <==>
      RunChildren(env, rank, job, parent, a, connector).Found? && RunChildren(env, rank, job, parent, b, connector).Found?
    ensures RunChildren(env, rank, job, parent, a + b, connector).Found? ==>
      RunChildren(env, rank, job, parent, a + b, connector).value ==
      RunChildren(env, rank, job, parent, a, connector).value + RunChildren(env, rank, job, parent, b, connector).value
    decreases |a|
  {
    if a == [] {
      assert a + b == b;
    } else {
      var ab := a + b;
      assert ab[0] == a[0] && ab[1..] == a[1..] + b;
      RunChildrenAppend(env, rank, job, parent, a[1..], b, connector);
      RunChildrenCons(env, rank, job, parent, ab, connector);
      RunChildrenCons(env, rank, job, parent, a, connector);
      SequencedAssoc(RunBenchmark(env, rank, job, a[0], connector), RunChildren(env, rank, job, parent, a[1..], connector),
                     RunChildren(env, rank, job, parent, b, connector), RunChildren(env, rank, job, parent, a[1..] + b, connector),
                     RunChildren(env, rank, job, parent, a, connector), RunChildren(env, rank, job, parent, ab, connector));
    }
  }

  /**
   * The outcome algebra behind RunChildrenAppend: with `ra` the first
   * outcome followed by `x`, `xy` the concatenation of `x` and `y`, and
   * `r` the first outcome followed by `xy`, `r` is `ra` followed by `y`.
   */
  lemma SequencedAssoc(first: Outcome<seq<Finding>>, x: Outcome<seq<Finding>>, y: Outcome<seq<Finding>>,
                       xy: Outcome<seq<Finding>>, ra: Outcome<seq<Finding>>, r: Outcome<seq<Finding>>)
    requires xy.Found? <==> x.Found? && y.Found?
    requires xy.Found? ==> xy.value == x.value + y.value
    requires ra.Found? <==> first.Found? && x.Found?
    requires ra.Found? ==> ra.value == first.value + x.value
    requires r.Found? <==> first.Found? && xy.Found?
    requires r.Found? ==> r.value == first.value + xy.value
    ensures r.Found? <==> ra.Found? && y.Found?
    ensures r.Found? ==> r.value == ra.value + y.value
  {
    if r.Found? {
      assert first.value + (x.value + y.value) == (first.value + x.value) + y.value;
    }
  }

  /** One unfolding of the child loop: the first child, then the rest. */
  lemma RunChildrenCons(env: WorkerEnv, rank: map<string, nat>, job: WorkerJob,
                        parent: string, children: seq<string>, connector: string)
    requires Ranked(env.svc, rank) && parent in env.svc.benchmarks
    requires forall c :: c in children && c in env.svc.benchmarks ==> c in rank && rank[c] < rank[parent]
    requires children != []
    ensures var r := RunChildren(env, rank, job, parent, children, connector);
      var first := RunBenchmark(env, rank, job, children[0], connector);
      var rest := RunChildren(env, rank, job, parent, children[1..], connector);
      && (r.Found? <==> first.Found? && rest.Found?)
      && (r.Found? ==> r.value == first.value + rest.value)
  {
  }

  /** A failing child makes the whole benchmark fail, whatever its siblings do. */
  lemma {:induction false} FailingChildAborts(env: WorkerEnv, rank: map<string, nat>, job: WorkerJob,
                                              parent: string, children: seq<string>, connector: string, k: nat)
    requires Ranked(env.svc, rank) && parent in env.svc.benchmarks
    requires forall c :: c in children && c in env.svc.benchmarks ==> c in rank && rank[c] < rank[parent]
    requires k < |children| && RunBenchmark(env, rank, job, children[k], connector).Failed?
    ensures !RunChildren(env, rank, job, parent, children, connector).Found?
    decreases k
  {
    if k > 0 && RunBenchmark(env, rank, job, children[0], connector).Found? {
      assert children[1..][k - 1] == children[k];
      FailingChildAborts(env, rank, job, parent, children[1..], connector, k - 1);
    }
  }

  // ---------------------------------------------------------------------
  // Run and Do
  // ---------------------------------------------------------------------

  /** The connection as the onboard service reports it. */
  datatype Source = Source(healthy: bool, connector: string)

  /**
   * The outside world of Run: the onboard lookup, the steampipe
   * configuration and connection, and the Kafka send.
   */
  datatype RunEnv = RunEnv(
    worker: WorkerEnv,
    rank: map<string, nat>,
    source: Result<Source>,
    configError: Option<string>,
    connectError: Option<string>,
    send: seq<Finding> -> Option<string>)

  /** The error Run returns before it reaches RunBenchmark, if any. */
  function SetupError(env: RunEnv): Option<string>
  {
    if env.source.Err? then Some(env.source.error)
    else if !env.source.value.healthy then Some("connection not healthy")
    else if env.configError.Some? then env.configError
    else env.connectError
  }

  /** How Run ends: it returns an error or nil, or it panics. */
  datatype RunEnd = Returned(err: Option<string>) | RunPanicked

  /**
   * Run as written: the error of RunBenchmark is overwritten, so only the
   * send of whatever findings came back decides the outcome; a panic of
   * the evaluation ends Run.
   */
  function RunAsWritten(env: RunEnv, job: WorkerJob): (e: RunEnd)
    requires Ranked(env.worker.svc, env.rank)
    ensures SetupError(env).Some? ==> e == Returned(SetupError(env))
    ensures SetupError(env).None? ==>
      (e.RunPanicked? <==> RunBenchmark(env.worker, env.rank, job, job.benchmarkId, env.source.value.connector).Panicked?)
  {
    if SetupError(env).Some? then Returned(SetupError(env))
    else
      var r := RunBenchmark(env.worker, env.rank, job, job.benchmarkId, env.source.value.connector);
      if r.Panicked? then RunPanicked
      else Returned(env.send(if r.Found? then r.value else []))
  }

  /** Run with the RunBenchmark error returned, as evidently intended. */
  function Run(env: RunEnv, job: WorkerJob): (e: RunEnd)
    requires Ranked(env.worker.svc, env.rank)
    ensures SetupError(env).Some? ==> e == Returned(SetupError(env))
    ensures SetupError(env).None? ==>
      var r := RunBenchmark(env.worker, env.rank, job, job.benchmarkId, env.source.value.connector);
      && (r.Panicked? <==> e.RunPanicked?)
      && (r.Failed? ==> e == Returned(Some(r.error)))
      && (r.Found? ==> e == Returned(env.send(r.value)))
  {
    if SetupError(env).Some? then Returned(SetupError(env))
    else
      var r := RunBenchmark(env.worker, env.rank, job, job.benchmarkId, env.source.value.connector);
      if r.Panicked? then RunPanicked
      else if r.Failed? then Returned(Some(r.error))
      else Returned(env.send(r.value))
  }

  /** Do: Completed with no error iff Run succeeds, otherwise CompletedWithFailure with its text. */
  function Do(job: WorkerJob, runError: Option<string>, now: int): (r: JobResult)
    ensures r.jobId == job.jobId && r.reportCreatedAt == now
    ensures r.status == Completed <==> runError.None?
    ensures runError.None? ==> r.error == ""
    ensures runError.Some? ==> r.error == runError.value
  {
    if runError.Some? then JobResult(job.jobId, CompletedWithFailure, now, runError.value)
    else JobResult(job.jobId, Completed, now, "")
  }

  /** With the corrected Run, a failing benchmark evaluation is never reported as Completed. */
  lemma FailedBenchmarkIsReported(env: RunEnv, job: WorkerJob, now: int)
    requires Ranked(env.worker.svc, env.rank) && SetupError(env).None?
    requires RunBenchmark(env.worker, env.rank, job, job.benchmarkId, env.source.value.connector).Failed?
    ensures Run(env, job).Returned?
    ensures Do(job, Run(env, job).err, now).status == CompletedWithFailure
  {
  }

  /**
   * As written, a benchmark whose query targets another connector is
   * reported as Completed with no error once the (empty) send succeeds.
   */
  lemma RunAsWrittenHidesBenchmarkError()
    ensures exists env: RunEnv, job: WorkerJob ::
      Ranked(env.worker.svc, env.rank) && SetupError(env).None? &&
      RunBenchmark(env.worker, env.rank, job, job.benchmarkId, env.source.value.connector).Failed? &&
      RunAsWritten(env, job).Returned? && Do(job, RunAsWritten(env, job).err, 0).status == Completed
  {
    var svc := ComplianceService(
      map["b" := Benchmark("b", [], ["p"])],
      map["p" := Policy("p", "high", Some("q"))],
      map["q" := Query("q", "Azure", "select 1")]);
    var worker := WorkerEnv(svc, (s: string) => Ok(Some(QueryResult([], []))));
    var env := RunEnv(worker, map["b" := 0], Ok(Source(true, "AWS")), None, None, (fs: seq<Finding>) => None);
    var job := WorkerJob(1, 2, 0, 0, "c", "b", "AWS");
    assert RunPolicies(worker, job, ["p"], "AWS") == Failed("connector doesn't match");
    assert RunBenchmark(env.worker, env.rank, job, job.benchmarkId, env.source.value.connector).Failed?;
    assert Do(job, RunAsWritten(env, job).err, 0).status == Completed;
  }
}
