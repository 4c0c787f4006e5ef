// The compliance job scheduler's publisher (pkg/describe/schedulers/compliance/publisher.go).
// One run loads the connection and query catalogs, then repeats a batch step
// at most ten times: sweep timed-out runners, fetch the runners still in
// CREATED, and for each of them publish a runner job on the job queue and
// record the runner as QUEUED (or FAILED when the job cannot be encoded or
// sent).  After the batches the failed runners are scheduled for a retry.
//
// The database statements the publisher calls are not part of this model;
// they appear here as operations on the runner table whose effect is stated
// by the specification functions below.  The remote catalogs, JSON encoding
// and the queue producer are inputs (`PublisherEnv`).

module CompliancePublisher {
  import opened Common
  import opened ComplianceJobs
  import opened ComplianceClient
  import opened ComplianceRunnerService

  /** onboard Connection: `id` is the platform's connection UUID, `connectionId` the provider account ID. */
  datatype Connection = Connection(id: string, connectionId: string)

  /** A message handed to the queue producer. */
  datatype QueueMessage = QueueMessage(topic: string, key: string, job: Job)

  /** The database statements a run issues, in order. */
  datatype DbCall =
    | SweepQueued
    | SweepInProgress
    | FetchCreated
    | UpdateRunner(runnerId: nat, status: TaskStatus, message: string)
    | RetryFailed

  /** What a run sees of the world outside the runner table. */
  datatype PublisherEnv = PublisherEnv(
    sources: Result<seq<Connection>>,
    queries: Result<seq<Query>>,
    decodeCallers: string -> Result<seq<string>>,
    marshalError: Job -> Option<string>,
    produceError: QueueMessage -> Option<string>,
    fetchFails: nat -> bool,
    queuedCutoff: int,
    inProgressCutoff: int,
    retryError: Option<string>)

  /** How a run ends: normally with its error, or by a nil-pointer panic. */
  datatype PublisherOutcome = Finished(err: Option<string>) | Crashed

  /** The at-most-once key of a runner job on the queue. */
  function MessageKey(id: nat, retryCount: nat): string
  {
    "job-" + NatToString(id) + "-" + NatToString(retryCount)
  }

  /** A key starts with "job-", then the runner ID, then "-": the first dash after the prefix ends the ID. */
  lemma MessageKeyIdEnd(id: nat, retryCount: nat)
    ensures var key := MessageKey(id, retryCount);
      |key| > 4 && IndexOfChar(key[4..], '-') == |NatToString(id)|
  {
    var a := NatToString(id);
    var key := MessageKey(id, retryCount);
    assert key[4..] == a + "-" + NatToString(retryCount);
    assert key[4..][|a|] == '-';
    assert forall k :: 0 <= k < |a| ==> key[4..][k] == a[k] && IsDigit(a[k]);
  }

  /** Distinct (runner, attempt) pairs get distinct message keys. */
  lemma MessageKeyInjective(id1: nat, retry1: nat, id2: nat, retry2: nat)
    requires MessageKey(id1, retry1) == MessageKey(id2, retry2)
    ensures id1 == id2 && retry1 == retry2
  {
    var a, b := NatToString(id1), NatToString(retry1);
    var c, d := NatToString(id2), NatToString(retry2);
    var key := MessageKey(id1, retry1);
    MessageKeyIdEnd(id1, retry1);
    MessageKeyIdEnd(id2, retry2);
    assert |a| == |c|;
    assert key == "job-" + a + "-" + b == "job-" + c + "-" + d;
    assert a == key[4..4 + |a|] == c;
    assert b == key[5 + |a|..] == d;
    NatToStringInjective(id1, id2);
    NatToStringInjective(retry1, retry2);
  }

  // ---------------------------------------------------------------------
  // Catalog maps
  // ---------------------------------------------------------------------

  /** The lookup map keyed by `key`: each element in turn is stored under its key, so the last one wins. */
  function IndexMap<T>(xs: seq<T>, key: T -> string): map<string, T>
  {
    if xs == [] then map[] else IndexMap(xs[..|xs| - 1], key)[key(xs[|xs| - 1]) := xs[|xs| - 1]]
  }

  function ConnectionKey(c: Connection): string { c.id }

  function QueryKey(q: Query): string { q.id }

  /** Every element's key is in the lookup map, and each key maps to the last element with that key. */
  lemma {:induction false} IndexMapLastWins<T>(xs: seq<T>, key: T -> string)
    ensures forall i :: 0 <= i < |xs| ==> key(xs[i]) in IndexMap(xs, key)
    ensures forall k :: k in IndexMap(xs, key) ==> exists i ::
      (0 <= i < |xs| && key(xs[i]) == k && IndexMap(xs, key)[k] == xs[i] && forall j :: i < j < |xs| ==> key(xs[j]) != k)
    decreases |xs|
  {
    if xs != [] {
      var init, last := xs[..|xs| - 1], xs[|xs| - 1];
      IndexMapLastWins(init, key);
      var m0, m := IndexMap(init, key), IndexMap(xs, key);
      assert m == m0[key(last) := last];
      forall i | 0 <= i < |xs|
        ensures key(xs[i]) in m
      {
        if i < |init| {
          assert xs[i] == init[i];
        }
      }
      forall k | k in m
        ensures exists i :: 0 <= i < |xs| && key(xs[i]) == k && m[k] == xs[i] && forall j :: i < j < |xs| ==> key(xs[j]) != k
      {
        if k == key(last) {
          assert m[k] == xs[|xs| - 1];
        } else {
          var i :| 0 <= i < |init| && key(init[i]) == k && m0[k] == init[i] && forall j :: i < j < |init| ==> key(init[j]) != k;
          assert xs[i] == init[i];
          forall j | i < j < |xs|
            ensures key(xs[j]) != k
          {
            if j < |init| {
              assert xs[j] == init[j];
            }
          }
        }
      }
    }
  }

  /**
   * Builds a lookup map keyed by `key`, as the catalog loops do: every
   * element's key is present and a repeated key keeps the last element.
   */
  method IndexBy<T>(xs: seq<T>, key: T -> string) returns (m: map<string, T>)
    ensures m == IndexMap(xs, key)
    ensures forall i :: 0 <= i < |xs| ==> key(xs[i]) in m
    ensures forall k :: k in m ==> exists i ::
      (0 <= i < |xs| && key(xs[i]) == k && m[k] == xs[i] && forall j :: i < j < |xs| ==> key(xs[j]) != k)
  {
    m := map[];
    var n := 0;
    while n < |xs|
      invariant 0 <= n <= |xs|
      invariant m == IndexMap(xs[..n], key)
    {
      assert xs[..n + 1][..n] == xs[..n];
      m := m[key(xs[n]) := xs[n]];
      n := n + 1;
    }
    assert xs[..n] == xs;
    IndexMapLastWins(xs, key);
  }

  // ---------------------------------------------------------------------
  // The runner table statements used by the publisher
  // ---------------------------------------------------------------------

  /** A timeout sweep: runners in `from` not updated since `cutoff` become TIMEOUT. */
  function SweepTimedOut(runners: seq<ComplianceRunner>, from: TaskStatus, cutoff: int): (r: seq<ComplianceRunner>)
    ensures |r| == |runners|
  {
    seq(|runners|, i requires 0 <= i < |runners| =>
      if runners[i].status == from && runners[i].updatedAt < cutoff then runners[i].(status := TaskTimeOut)
      else runners[i])
  }

  /** UpdateRunnerJob: the runner with this ID gets the status and failure message. */
  function WithRunnerStatus(runners: seq<ComplianceRunner>, id: nat, status: TaskStatus, message: string)
    : (r: seq<ComplianceRunner>)
    ensures |r| == |runners|
  {
    seq(|runners|, i requires 0 <= i < |runners| =>
      if runners[i].id == id then runners[i].(status := status, failureMessage := message) else runners[i])
  }

  /** RetryFailedRunners: a failed runner with retries left goes back to CREATED with one more attempt. */
  function RetriedRunners(runners: seq<ComplianceRunner>): (r: seq<ComplianceRunner>)
    ensures |r| == |runners|
  {
    seq(|runners|, i requires 0 <= i < |runners| =>
      if runners[i].status == TaskFailed && runners[i].retryCount < MaxRetryCount
      then runners[i].(status := TaskCreated, retryCount := runners[i].retryCount + 1)
      else runners[i])
  }

  /** Retrying never touches a runner that is done, so the fan-in of a job is unaffected. */
  lemma RetryKeepsDoneRunners(runners: seq<ComplianceRunner>, k: nat)
    requires k < |runners| && RunnerDone(runners[k])
    ensures RetriedRunners(runners)[k] == runners[k]
  {
  }

  /** A retried runner's attempt count stays within the limit. */
  lemma RetryBoundsAttempts(runners: seq<ComplianceRunner>, k: nat)
    requires k < |runners| && runners[k].retryCount <= MaxRetryCount
    ensures RetriedRunners(runners)[k].retryCount <= MaxRetryCount
  {
  }

  /** The runners FetchCreatedRunners returns: those in CREATED, in table order. */
  function CreatedRunners(runners: seq<ComplianceRunner>): (r: seq<ComplianceRunner>)
    ensures forall i :: 0 <= i < |r| ==> r[i].status == TaskCreated && r[i] in runners
    ensures forall i :: 0 <= i < |runners| && runners[i].status == TaskCreated ==> runners[i] in r
  {
    Filter(runners, (x: ComplianceRunner) => x.status == TaskCreated)
  }

  /**
   * Table order: the created runners of a table with one more row are those
   * of the shorter table followed by the new row when it is CREATED.
   */
  lemma CreatedRunnersSnoc(runners: seq<ComplianceRunner>, x: ComplianceRunner)
    ensures CreatedRunners([]) == []
    ensures CreatedRunners(runners + [x]) == CreatedRunners(runners) + (if x.status == TaskCreated then [x] else [])
  {
    FilterAppend(runners, [x], (y: ComplianceRunner) => y.status == TaskCreated);
  }

  // ---------------------------------------------------------------------
  // Job construction
  // ---------------------------------------------------------------------

  predicate HasConnection(it: ComplianceRunner)
  {
    it.connectionId.Some? && it.connectionId.value != ""
  }

  /** The provider connection lookup dereferences the map entry, which panics when it is missing. */
  predicate ProviderLookupPanics(it: ComplianceRunner, connections: map<string, Connection>)
  {
    HasConnection(it) && it.connectionId.value !in connections
  }

  /** The runner job published for `it`. */
  function BuildJob(it: ComplianceRunner, query: Query, callers: seq<string>, connections: map<string, Connection>)
    : (job: Job)
    requires !ProviderLookupPanics(it, connections)
    ensures job.id == it.id && job.retryCount == it.retryCount
    ensures job.parentJobId == it.parentJobId && job.createdAt == it.createdAt
    ensures job.plan.callers == callers && job.plan.query == query && job.plan.connectionId == it.connectionId
    ensures job.plan.providerConnectionId.Some? <==> HasConnection(it)
    ensures HasConnection(it) ==>
      job.plan.providerConnectionId == Some(connections[it.connectionId.value].connectionId)
  {
    var provider := if HasConnection(it) then Some(connections[it.connectionId.value].connectionId) else None;
    Job(it.id, it.retryCount, it.parentJobId, it.createdAt, ExecutionPlan(callers, query, it.connectionId, provider))
  }

  // ---------------------------------------------------------------------
  // Call log
  // ---------------------------------------------------------------------

  function CountCalls(calls: seq<DbCall>, c: DbCall): nat
  {
    if calls == [] then 0
    else CountCalls(calls[..|calls| - 1], c) + (if calls[|calls| - 1] == c then 1 else 0)
  }

  /** Every fetch of created runners comes right after the two timeout sweeps. */
  ghost predicate SweepsBeforeFetch(calls: seq<DbCall>)
  {
    forall k :: 0 <= k < |calls| && calls[k] == FetchCreated ==>
      2 <= k && calls[k - 2] == SweepQueued && calls[k - 1] == SweepInProgress
  }

  /** The messages produced after `before` all go to the job queue under their runner's key. */
  ghost predicate WellKeyedSince(before: seq<QueueMessage>, produced: seq<QueueMessage>)
  {
    |produced| >= |before| && produced[..|before|] == before
    && forall k :: |before| <= k < |produced| ==>
      produced[k].topic == JobQueueTopic && produced[k].key == MessageKey(produced[k].job.id, produced[k].job.retryCount)
  }

  lemma WellKeyedStep(a: seq<QueueMessage>, b: seq<QueueMessage>, c: seq<QueueMessage>)
    requires WellKeyedSince(a, b) && WellKeyedSince(b, c)
    ensures WellKeyedSince(a, c)
  {
    assert c[..|a|] == c[..|b|][..|a|];
  }

  /** `b` is `a` followed by more calls. */
  ghost predicate Extends(a: seq<DbCall>, b: seq<DbCall>)
  {
    |b| >= |a| && b[..|a|] == a
  }

  lemma ExtendsTrans(a: seq<DbCall>, b: seq<DbCall>, c: seq<DbCall>)
    requires Extends(a, b) && Extends(b, c)
    ensures Extends(a, c)
  {
    assert c[..|a|] == c[..|b|][..|a|];
  }

  /** How one batch iteration ends. */
  datatype BatchEnd = NextBatch | NoMoreRunners | Panicked

  // ---------------------------------------------------------------------
  // What a batch and a run do, as functions of the tables
  // ---------------------------------------------------------------------

  /** The runner table, the messages produced so far and the statement log. */
  datatype TableState = TableState(runners: seq<ComplianceRunner>, produced: seq<QueueMessage>, calls: seq<DbCall>)

  /** What the per-runner loop body does with one fetched runner. */
  datatype RunnerOutcome = Skipped | LookupPanic | FailedWith(message: string) | Queued(msg: QueueMessage)

  /**
   * A runner whose query is not in the catalog, or whose callers do not
   * decode, is skipped; a missing provider connection panics; otherwise the
   * job is encoded and produced, and the first error met is the runner's
   * failure message.
   */
  function OutcomeOf(it: ComplianceRunner, connections: map<string, Connection>, queries: map<string, Query>,
                     env: PublisherEnv): (o: RunnerOutcome)
    ensures o.Skipped? <==> it.queryId !in queries || env.decodeCallers(it.callers).Err?
    ensures o.LookupPanic? <==> !o.Skipped? && ProviderLookupPanics(it, connections)
    ensures o.Queued? ==>
      (o.msg.topic == JobQueueTopic && o.msg.key == MessageKey(it.id, it.retryCount)
       && o.msg.job.id == it.id && o.msg.job.plan.query == queries[it.queryId])
  {
    if it.queryId !in queries || env.decodeCallers(it.callers).Err? then Skipped
    else if ProviderLookupPanics(it, connections) then LookupPanic
    else
      var job := BuildJob(it, queries[it.queryId], env.decodeCallers(it.callers).value, connections);
      var msg := QueueMessage(JobQueueTopic, MessageKey(it.id, it.retryCount), job);
      if env.marshalError(job).Some? then FailedWith(env.marshalError(job).value)
      else if env.produceError(msg).Some? then FailedWith(env.produceError(msg).value)
      else Queued(msg)
  }

  /** A table row after UpdateRunnerJob has recorded an outcome for it; other outcomes leave it alone. */
  function Applied(r: ComplianceRunner, o: RunnerOutcome): ComplianceRunner
  {
    match o
    case FailedWith(m) => r.(status := TaskFailed, failureMessage := m)
    case Queued(_) => r.(status := TaskQueued, failureMessage := "")
    case _ => r
  }

  /** The tables after publishing one runner, and whether it panicked. */
  datatype Published = Published(crashed: bool, state: TableState)

  function PublishStep(it: ComplianceRunner, connections: map<string, Connection>, queries: map<string, Query>,
                       env: PublisherEnv, s: TableState): Published
  {
    match OutcomeOf(it, connections, queries, env)
    case Skipped => Published(false, s)
    case LookupPanic => Published(true, s)
    case FailedWith(m) =>
      Published(false, s.(runners := WithRunnerStatus(s.runners, it.id, TaskFailed, m),
                          calls := s.calls + [UpdateRunner(it.id, TaskFailed, m)]))
    case Queued(msg) =>
      Published(false, TableState(WithRunnerStatus(s.runners, it.id, TaskQueued, ""), s.produced + [msg],
                                  s.calls + [UpdateRunner(it.id, TaskQueued, "")]))
  }

  /** The per-runner loop over a fetched batch: each runner in turn, with a panic ending the loop. */
  function PublishAll(batch: seq<ComplianceRunner>, connections: map<string, Connection>, queries: map<string, Query>,
                      env: PublisherEnv, s: TableState): Published
  {
    if batch == [] then Published(false, s)
    else
      var p := PublishAll(batch[..|batch| - 1], connections, queries, env, s);
      if p.crashed then p else PublishStep(batch[|batch| - 1], connections, queries, env, p.state)
  }

  /** The outcome recorded last for runner `id` in the batch, or Skipped when none was recorded. */
  function LastEffect(batch: seq<ComplianceRunner>, id: nat, connections: map<string, Connection>,
                      queries: map<string, Query>, env: PublisherEnv): RunnerOutcome
  {
    if batch == [] then Skipped
    else
      var it := batch[|batch| - 1];
      var o := OutcomeOf(it, connections, queries, env);
      if it.id == id && (o.FailedWith? || o.Queued?) then o
      else LastEffect(batch[..|batch| - 1], id, connections, queries, env)
  }

  /** The messages of the queued runners of the batch, in batch order. */
  function QueuedMessages(batch: seq<ComplianceRunner>, connections: map<string, Connection>,
                          queries: map<string, Query>, env: PublisherEnv): seq<QueueMessage>
  {
    if batch == [] then []
    else
      QueuedMessages(batch[..|batch| - 1], connections, queries, env)
      + MessagesOf(OutcomeOf(batch[|batch| - 1], connections, queries, env))
  }

  lemma AppliedTwice(r: ComplianceRunner, o1: RunnerOutcome, o2: RunnerOutcome)
    requires o2.FailedWith? || o2.Queued?
    ensures Applied(Applied(r, o1), o2) == Applied(r, o2)
  {
  }

  /** The messages one runner's outcome adds to the queue. */
  function MessagesOf(o: RunnerOutcome): seq<QueueMessage>
  {
    match o case Queued(msg) => [msg] case _ => []
  }

  /** Publishing one runner that does not panic applies its outcome to the rows with its ID and queues its message. */
  lemma PublishStepEffect(it: ComplianceRunner, connections: map<string, Connection>, queries: map<string, Query>,
                          env: PublisherEnv, s: TableState)
    requires !OutcomeOf(it, connections, queries, env).LookupPanic?
    ensures var p, o := PublishStep(it, connections, queries, env, s), OutcomeOf(it, connections, queries, env);
      && !p.crashed
      && |p.state.runners| == |s.runners|
      && (forall j :: 0 <= j < |s.runners| ==>
            p.state.runners[j] == if s.runners[j].id == it.id then Applied(s.runners[j], o) else s.runners[j])
      && p.state.produced == s.produced + MessagesOf(o)
  {
  }

  /** A batch panics iff one of its runners' provider connection lookups does. */
  lemma {:induction false} PublishAllCrashes(batch: seq<ComplianceRunner>, connections: map<string, Connection>,
                                             queries: map<string, Query>, env: PublisherEnv, s: TableState)
    ensures PublishAll(batch, connections, queries, env, s).crashed <==>
      exists k :: 0 <= k < |batch| && OutcomeOf(batch[k], connections, queries, env).LookupPanic?
  {
    if batch != [] {
      var front := batch[..|batch| - 1];
      PublishAllCrashes(front, connections, queries, env, s);
      assert forall k :: 0 <= k < |front| ==> batch[k] == front[k];
    }
  }

  /** A batch that does not panic leaves every row with the outcome recorded last for its ID. */
  lemma {:induction false} PublishAllRunners(batch: seq<ComplianceRunner>, connections: map<string, Connection>,
                                             queries: map<string, Query>, env: PublisherEnv, s: TableState)
    ensures var p := PublishAll(batch, connections, queries, env, s);
      !p.crashed ==>
        |p.state.runners| == |s.runners|
        && forall j :: 0 <= j < |s.runners| ==>
             p.state.runners[j] == Applied(s.runners[j], LastEffect(batch, s.runners[j].id, connections, queries, env))
  {
    if batch != [] {
      var front, it := batch[..|batch| - 1], batch[|batch| - 1];
      PublishAllRunners(front, connections, queries, env, s);
      var p0 := PublishAll(front, connections, queries, env, s);
      var o := OutcomeOf(it, connections, queries, env);
      if !p0.crashed && !o.LookupPanic? {
        PublishStepEffect(it, connections, queries, env, p0.state);
        var p := PublishStep(it, connections, queries, env, p0.state);
        forall j | 0 <= j < |s.runners|
          ensures p.state.runners[j] == Applied(s.runners[j], LastEffect(batch, s.runners[j].id, connections, queries, env))
        {
          var before := LastEffect(front, s.runners[j].id, connections, queries, env);
          if it.id == s.runners[j].id && (o.FailedWith? || o.Queued?) {
            AppliedTwice(s.runners[j], before, o);
          }
        }
      }
    }
  }

  /** A batch that does not panic queues the messages of its queued runners, in batch order. */
  lemma {:induction false} PublishAllProduced(batch: seq<ComplianceRunner>, connections: map<string, Connection>,
                                              queries: map<string, Query>, env: PublisherEnv, s: TableState)
    ensures var p := PublishAll(batch, connections, queries, env, s);
      !p.crashed ==> p.state.produced == s.produced + QueuedMessages(batch, connections, queries, env)
  {
    if batch != [] {
      var front, it := batch[..|batch| - 1], batch[|batch| - 1];
      PublishAllProduced(front, connections, queries, env, s);
      var p0 := PublishAll(front, connections, queries, env, s);
      if !p0.crashed && !OutcomeOf(it, connections, queries, env).LookupPanic? {
        PublishStepEffect(it, connections, queries, env, p0.state);
      }
    }
  }

  /**
   * The effect of a batch: it panics iff some fetched runner's provider
   * connection is missing; otherwise every runner of the table carries the
   * outcome recorded last for its ID (QUEUED, or FAILED with the error
   * text; a skipped runner is untouched), and the queue receives the
   * messages of the queued runners in batch order.
   */
  lemma PublishAllOutcome(batch: seq<ComplianceRunner>, connections: map<string, Connection>,
                          queries: map<string, Query>, env: PublisherEnv, s: TableState)
    ensures var p := PublishAll(batch, connections, queries, env, s);
      (p.crashed <==> exists k :: 0 <= k < |batch| && OutcomeOf(batch[k], connections, queries, env).LookupPanic?)
      && (!p.crashed ==>
        |p.state.runners| == |s.runners|
        && (forall j :: 0 <= j < |s.runners| ==>
              p.state.runners[j] == Applied(s.runners[j], LastEffect(batch, s.runners[j].id, connections, queries, env)))
        && p.state.produced == s.produced + QueuedMessages(batch, connections, queries, env))
  {
    PublishAllCrashes(batch, connections, queries, env, s);
    PublishAllRunners(batch, connections, queries, env, s);
    PublishAllProduced(batch, connections, queries, env, s);
  }

  /** The per-runner loop over the first n + 1 runners: that over the first n, then runner n unless it panicked. */
  lemma PublishAllPrefix(batch: seq<ComplianceRunner>, n: nat, connections: map<string, Connection>,
                         queries: map<string, Query>, env: PublisherEnv, s: TableState)
    requires n < |batch|
    ensures var p := PublishAll(batch[..n], connections, queries, env, s);
      PublishAll(batch[..n + 1], connections, queries, env, s)
      == if p.crashed then p else PublishStep(batch[n], connections, queries, env, p.state)
  {
    assert batch[..n + 1][..n] == batch[..n];
  }

  /** Once a runner has panicked, the rest of the batch is never looked at. */
  lemma {:induction false} CrashEndsBatch(batch: seq<ComplianceRunner>, k: nat, connections: map<string, Connection>,
                                          queries: map<string, Query>, env: PublisherEnv, s: TableState)
    requires k <= |batch| && PublishAll(batch[..k], connections, queries, env, s).crashed
    ensures PublishAll(batch, connections, queries, env, s) == PublishAll(batch[..k], connections, queries, env, s)
    decreases |batch|
  {
    if k < |batch| {
      var front := batch[..|batch| - 1];
      assert front[..k] == batch[..k];
      CrashEndsBatch(front, k, connections, queries, env, s);
    } else {
      assert batch[..k] == batch;
    }
  }

  /** The two timeout sweeps that open a batch. */
  function Swept(runners: seq<ComplianceRunner>, env: PublisherEnv): seq<ComplianceRunner>
  {
    SweepTimedOut(SweepTimedOut(runners, TaskQueued, env.queuedCutoff), TaskInProgress, env.inProgressCutoff)
  }

  datatype BatchResult = BatchResult(end: BatchEnd, state: TableState)

  /**
   * One iteration of the batch loop: the sweeps and the fetch; a failed
   * fetch goes on to the next iteration, an empty one ends the loop, and
   * otherwise the fetched runners are published.
   */
  function BatchOf(iteration: nat, connections: map<string, Connection>, queries: map<string, Query>,
                   env: PublisherEnv, s: TableState): BatchResult
  {
    var start := TableState(Swept(s.runners, env), s.produced, s.calls + [SweepQueued, SweepInProgress, FetchCreated]);
    if env.fetchFails(iteration) then BatchResult(NextBatch, start)
    else
      var batch := CreatedRunners(start.runners);
      if batch == [] then BatchResult(NoMoreRunners, start)
      else
        var p := PublishAll(batch, connections, queries, env, start);
        BatchResult(if p.crashed then Panicked else NextBatch, p.state)
  }

  /** The batch loop from iteration `i` on: at most ten iterations, ended early by an empty fetch or a panic. */
  function BatchLoop(i: nat, connections: map<string, Connection>, queries: map<string, Query>,
                     env: PublisherEnv, s: TableState): BatchResult
    requires i <= 10
    decreases 10 - i
  {
    if i == 10 then BatchResult(NextBatch, s)
    else
      var b := BatchOf(i, connections, queries, env, s);
      if b.end == NextBatch then BatchLoop(i + 1, connections, queries, env, b.state) else b
  }

  /** The fetches the loop issues from iteration `i` on: one per iteration it runs. */
  function FetchesFrom(i: nat, connections: map<string, Connection>, queries: map<string, Query>,
                       env: PublisherEnv, s: TableState): nat
    requires i <= 10
    decreases 10 - i
  {
    if i == 10 then 0
    else
      var b := BatchOf(i, connections, queries, env, s);
      1 + if b.end == NextBatch then FetchesFrom(i + 1, connections, queries, env, b.state) else 0
  }

  lemma {:induction false} CountCallsAppend(a: seq<DbCall>, b: seq<DbCall>, c: DbCall)
    ensures CountCalls(a + b, c) == CountCalls(a, c) + CountCalls(b, c)
    decreases |b|
  {
    if b == [] {
      assert a + b == a;
    } else {
      assert (a + b)[..|a + b| - 1] == a + b[..|b| - 1];
      CountCallsAppend(a, b[..|b| - 1], c);
    }
  }

  lemma CountCallsSnoc(a: seq<DbCall>, x: DbCall, c: DbCall)
    ensures CountCalls(a + [x], c) == CountCalls(a, c) + (if x == c then 1 else 0)
  {
    assert (a + [x])[..|a|] == a;
  }

  /** Publishing one runner appends at most a runner update to the log: no other statement is issued. */
  lemma PublishStepAddsOnlyUpdates(it: ComplianceRunner, connections: map<string, Connection>, queries: map<string, Query>,
                                   env: PublisherEnv, s: TableState, c: DbCall)
    requires !c.UpdateRunner?
    ensures var p := PublishStep(it, connections, queries, env, s);
      Extends(s.calls, p.state.calls) && CountCalls(p.state.calls, c) == CountCalls(s.calls, c)
  {
    match OutcomeOf(it, connections, queries, env)
    case FailedWith(m) =>
      CountCallsSnoc(s.calls, UpdateRunner(it.id, TaskFailed, m), c);
      assert (s.calls + [UpdateRunner(it.id, TaskFailed, m)])[..|s.calls|] == s.calls;
    case Queued(_) =>
      CountCallsSnoc(s.calls, UpdateRunner(it.id, TaskQueued, ""), c);
      assert (s.calls + [UpdateRunner(it.id, TaskQueued, "")])[..|s.calls|] == s.calls;
    case _ =>
      assert s.calls[..|s.calls|] == s.calls;
  }

  /** Publishing a batch adds runner updates only: never a fetch, a sweep or a retry. */
  lemma {:induction false} PublishAllAddsOnlyUpdates(batch: seq<ComplianceRunner>, connections: map<string, Connection>,
                                                     queries: map<string, Query>, env: PublisherEnv, s: TableState, c: DbCall)
    requires !c.UpdateRunner?
    ensures var p := PublishAll(batch, connections, queries, env, s);
      Extends(s.calls, p.state.calls) && CountCalls(p.state.calls, c) == CountCalls(s.calls, c)
  {
    if batch == [] {
      assert s.calls[..|s.calls|] == s.calls;
    } else {
      var front := batch[..|batch| - 1];
      PublishAllAddsOnlyUpdates(front, connections, queries, env, s, c);
      var p0 := PublishAll(front, connections, queries, env, s);
      if !p0.crashed {
        PublishStepAddsOnlyUpdates(batch[|batch| - 1], connections, queries, env, p0.state, c);
        ExtendsTrans(s.calls, p0.state.calls, PublishStep(batch[|batch| - 1], connections, queries, env, p0.state).state.calls);
      }
    }
  }

  /** Every batch issues exactly one fetch. */
  lemma BatchOfFetchesOnce(i: nat, connections: map<string, Connection>, queries: map<string, Query>,
                           env: PublisherEnv, s: TableState)
    ensures CountCalls(BatchOf(i, connections, queries, env, s).state.calls, FetchCreated)
      == CountCalls(s.calls, FetchCreated) + 1
  {
    var start := TableState(Swept(s.runners, env), s.produced, s.calls + [SweepQueued, SweepInProgress, FetchCreated]);
    assert start.calls == s.calls + [SweepQueued] + [SweepInProgress] + [FetchCreated];
    CountCallsSnoc(s.calls, SweepQueued, FetchCreated);
    CountCallsSnoc(s.calls + [SweepQueued], SweepInProgress, FetchCreated);
    CountCallsSnoc(s.calls + [SweepQueued] + [SweepInProgress], FetchCreated, FetchCreated);
    if !env.fetchFails(i) && CreatedRunners(start.runners) != [] {
      PublishAllAddsOnlyUpdates(CreatedRunners(start.runners), connections, queries, env, start, FetchCreated);
    }
  }

  /** One unfolding of the loop specification at iteration `i`. */
  lemma LoopUnfold(i: nat, connections: map<string, Connection>, queries: map<string, Query>,
                   env: PublisherEnv, s: TableState)
    requires i < 10
    ensures var b := BatchOf(i, connections, queries, env, s);
      && BatchLoop(i, connections, queries, env, s)
         == (if b.end == NextBatch then BatchLoop(i + 1, connections, queries, env, b.state) else b)
      && FetchesFrom(i, connections, queries, env, s)
         == 1 + (if b.end == NextBatch then FetchesFrom(i + 1, connections, queries, env, b.state) else 0)
  {
  }

  /**
   * The loop fetches exactly once per iteration it runs: an empty fetch or a
   * panic ends it, so no further fetch follows.
   */
  lemma {:induction false} LoopFetchCount(i: nat, connections: map<string, Connection>, queries: map<string, Query>,
                                          env: PublisherEnv, s: TableState)
    requires i <= 10
    ensures CountCalls(BatchLoop(i, connections, queries, env, s).state.calls, FetchCreated)
      == CountCalls(s.calls, FetchCreated) + FetchesFrom(i, connections, queries, env, s)
    ensures FetchesFrom(i, connections, queries, env, s) <= 10 - i
    decreases 10 - i
  {
    if i < 10 {
      var b := BatchOf(i, connections, queries, env, s);
      BatchOfFetchesOnce(i, connections, queries, env, s);
      LoopUnfold(i, connections, queries, env, s);
      if b.end == NextBatch {
        LoopFetchCount(i + 1, connections, queries, env, b.state);
      }
    }
  }

  /** An empty fetch ends the loop at once: the batch publishes nothing and no later iteration runs. */
  lemma EmptyFetchEndsLoop(i: nat, connections: map<string, Connection>, queries: map<string, Query>,
                           env: PublisherEnv, s: TableState)
    requires i < 10 && !env.fetchFails(i) && CreatedRunners(Swept(s.runners, env)) == []
    ensures var b := BatchLoop(i, connections, queries, env, s);
      b.end == NoMoreRunners && b.state.produced == s.produced && b.state.runners == Swept(s.runners, env)
      && FetchesFrom(i, connections, queries, env, s) == 1
  {
  }

  // ---------------------------------------------------------------------
  // The scheduler
  // ---------------------------------------------------------------------

  class JobScheduler {
    var runners: seq<ComplianceRunner>
    var produced: seq<QueueMessage>
    var calls: seq<DbCall>

    ghost predicate Valid()
      reads this
    {
      SweepsBeforeFetch(calls)
    }

    function State(): TableState
      reads this
    {
      TableState(runners, produced, calls)
    }

    constructor (runners0: seq<ComplianceRunner>)
      ensures Valid()
      ensures runners == runners0 && produced == [] && calls == []
    {
      runners, produced, calls := runners0, [], [];
    }

    method Record(c: DbCall)
      requires Valid()
      requires c == FetchCreated ==>
        |calls| >= 2 && calls[|calls| - 2] == SweepQueued && calls[|calls| - 1] == SweepInProgress
      modifies this`calls
      ensures Valid()
      ensures calls == old(calls) + [c]
      ensures forall d :: CountCalls(calls, d) == CountCalls(old(calls), d) + (if d == c then 1 else 0)
    {
      calls := calls + [c];
      assert calls[..|calls| - 1] == old(calls);
    }

    /** UpdateTimeoutQueuedRunnerJobs */
    method UpdateTimeoutQueuedRunnerJobs(cutoff: int)
      requires Valid()
      modifies this`runners, this`calls
      ensures Valid()
      ensures runners == SweepTimedOut(old(runners), TaskQueued, cutoff)
      ensures calls == old(calls) + [SweepQueued]
      ensures forall d :: CountCalls(calls, d) == CountCalls(old(calls), d) + (if d == SweepQueued then 1 else 0)
    {
      runners := SweepTimedOut(runners, TaskQueued, cutoff);
      Record(SweepQueued);
    }

    /** UpdateTimedOutInProgressRunners */
    method UpdateTimedOutInProgressRunners(cutoff: int)
      requires Valid()
      modifies this`runners, this`calls
      ensures Valid()
      ensures runners == SweepTimedOut(old(runners), TaskInProgress, cutoff)
      ensures calls == old(calls) + [SweepInProgress]
      ensures forall d :: CountCalls(calls, d) == CountCalls(old(calls), d) + (if d == SweepInProgress then 1 else 0)
    {
      runners := SweepTimedOut(runners, TaskInProgress, cutoff);
      Record(SweepInProgress);
    }

    /** FetchCreatedRunners; `fails` is whether the query errors. */
    method FetchCreatedRunners(fails: bool) returns (r: Result<seq<ComplianceRunner>>)
      requires Valid()
      requires |calls| >= 2 && calls[|calls| - 2] == SweepQueued && calls[|calls| - 1] == SweepInProgress
      modifies this`calls
      ensures Valid()
      ensures calls == old(calls) + [FetchCreated]
      ensures forall d :: CountCalls(calls, d) == CountCalls(old(calls), d) + (if d == FetchCreated then 1 else 0)
      ensures fails <==> r.Err?
      ensures r.Ok? ==> r.value == CreatedRunners(runners)
    {
      Record(FetchCreated);
      if fails {
        r := Err("failed to fetch created runners");
      } else {
        r := Ok(CreatedRunners(runners));
      }
    }

    /** UpdateRunnerJob */
    method UpdateRunnerJob(id: nat, status: TaskStatus, message: string)
      requires Valid()
      modifies this`runners, this`calls
      ensures Valid()
      ensures runners == WithRunnerStatus(old(runners), id, status, message)
      ensures calls == old(calls) + [UpdateRunner(id, status, message)]
      ensures forall d :: CountCalls(calls, d) == CountCalls(old(calls), d) + (if d == UpdateRunner(id, status, message) then 1 else 0)
    {
      runners := WithRunnerStatus(runners, id, status, message);
      Record(UpdateRunner(id, status, message));
    }

    /** RetryFailedRunners */
    method RetryFailedRunners(fails: Option<string>) returns (err: Option<string>)
      requires Valid()
      modifies this`runners, this`calls
      ensures Valid()
      ensures err == fails
      ensures fails.None? ==> runners == RetriedRunners(old(runners))
      ensures fails.Some? ==> runners == old(runners)
      ensures calls == old(calls) + [RetryFailed]
      ensures forall d :: CountCalls(calls, d) == CountCalls(old(calls), d) + (if d == RetryFailed then 1 else 0)
    {
      if fails.None? {
        runners := RetriedRunners(runners);
      }
      Record(RetryFailed);
      err := fails;
    }

    /**
     * The body of the per-runner loop.  A runner whose query is not in the
     * catalog, or whose callers do not decode, is skipped and left as it
     * is.  Otherwise its job is encoded and produced under the key
     * "job-<id>-<retry>"; the runner becomes QUEUED with an empty message,
     * or FAILED with the error text when encoding or producing fails.
     */
    method PublishRunner(it: ComplianceRunner, connections: map<string, Connection>, queries: map<string, Query>,
                         env: PublisherEnv) returns (crashed: bool)
      requires Valid()
      modifies this`runners, this`calls, this`produced
      ensures Valid()
      ensures Published(crashed, State()) == PublishStep(it, connections, queries, env, old(State()))
      ensures it.queryId !in queries || env.decodeCallers(it.callers).Err? ==>
        !crashed && runners == old(runners) && produced == old(produced) && calls == old(calls)
      ensures it.queryId in queries && env.decodeCallers(it.callers).Ok? && ProviderLookupPanics(it, connections) ==>
        crashed && runners == old(runners) && produced == old(produced) && calls == old(calls)
      ensures it.queryId in queries && env.decodeCallers(it.callers).Ok? && !ProviderLookupPanics(it, connections) ==>
        var job := BuildJob(it, queries[it.queryId], env.decodeCallers(it.callers).value, connections);
        var msg := QueueMessage(JobQueueTopic, MessageKey(it.id, it.retryCount), job);
        !crashed &&
        if env.marshalError(job).Some? then
          produced == old(produced)
          && runners == WithRunnerStatus(old(runners), it.id, TaskFailed, env.marshalError(job).value)
          && calls == old(calls) + [UpdateRunner(it.id, TaskFailed, env.marshalError(job).value)]
        else if env.produceError(msg).Some? then
          produced == old(produced)
          && runners == WithRunnerStatus(old(runners), it.id, TaskFailed, env.produceError(msg).value)
          && calls == old(calls) + [UpdateRunner(it.id, TaskFailed, env.produceError(msg).value)]
        else
          produced == old(produced) + [msg]
          && runners == WithRunnerStatus(old(runners), it.id, TaskQueued, "")
          && calls == old(calls) + [UpdateRunner(it.id, TaskQueued, "")]
      ensures CountCalls(calls, FetchCreated) == CountCalls(old(calls), FetchCreated)
      ensures CountCalls(calls, RetryFailed) == CountCalls(old(calls), RetryFailed)
      ensures Extends(old(calls), calls)
    {
      crashed := false;
      if it.queryId !in queries {
        return;
      }
      var query := queries[it.queryId];
      var callers := env.decodeCallers(it.callers);
      if callers.Err? {
        return;
      }
      if ProviderLookupPanics(it, connections) {
        crashed := true;
        return;
      }
      var job := BuildJob(it, query, callers.value, connections);
      var marshalErr := env.marshalError(job);
      if marshalErr.Some? {
        UpdateRunnerJob(job.id, TaskFailed, marshalErr.value);
        return;
      }
      var msg := QueueMessage(JobQueueTopic, MessageKey(job.id, it.retryCount), job);
      var produceErr := env.produceError(msg);
      if produceErr.Some? {
        UpdateRunnerJob(job.id, TaskFailed, produceErr.value);
        return;
      }
      produced := produced + [msg];
      UpdateRunnerJob(job.id, TaskQueued, "");
    }

    /** The inner loop of one batch: publish each fetched runner in turn, stopping at a panic. */
    method PublishBatch(batch: seq<ComplianceRunner>, connections: map<string, Connection>, queries: map<string, Query>,
                        env: PublisherEnv) returns (crashed: bool)
      requires Valid()
      modifies this`runners, this`calls, this`produced
      ensures Valid()
      ensures Published(crashed, State()) == PublishAll(batch, connections, queries, env, old(State()))
      ensures CountCalls(calls, FetchCreated) == CountCalls(old(calls), FetchCreated)
      ensures CountCalls(calls, RetryFailed) == CountCalls(old(calls), RetryFailed)
      ensures WellKeyedSince(old(produced), produced)
      ensures Extends(old(calls), calls)
    {
      crashed := false;
      var n := 0;
      while n < |batch|
        invariant 0 <= n <= |batch|
        invariant Valid()
        invariant WellKeyedSince(old(produced), produced)
        invariant PublishAll(batch[..n], connections, queries, env, old(State())) == Published(false, State())
      {
        ghost var before := produced;
        PublishAllPrefix(batch, n, connections, queries, env, old(State()));
        crashed := PublishRunner(batch[n], connections, queries, env);
        WellKeyedStep(old(produced), before, produced);
        if crashed {
          CrashEndsBatch(batch, n + 1, connections, queries, env, old(State()));
          break;
        }
        n := n + 1;
      }
      if !crashed {
        assert batch[..n] == batch;
      }
      PublishAllAddsOnlyUpdates(batch, connections, queries, env, old(State()), FetchCreated);
      PublishAllAddsOnlyUpdates(batch, connections, queries, env, old(State()), RetryFailed);
    }

    /** The head of each batch iteration: the two timeout sweeps, then the fetch of created runners. */
    method OpenBatch(queuedCutoff: int, inProgressCutoff: int, fails: bool) returns (batch: Result<seq<ComplianceRunner>>)
      requires Valid()
      modifies this`runners, this`calls
      ensures Valid()
      ensures calls == old(calls) + [SweepQueued, SweepInProgress, FetchCreated]
      ensures CountCalls(calls, FetchCreated) == CountCalls(old(calls), FetchCreated) + 1
      ensures CountCalls(calls, RetryFailed) == CountCalls(old(calls), RetryFailed)
      ensures runners == SweepTimedOut(SweepTimedOut(old(runners), TaskQueued, queuedCutoff), TaskInProgress, inProgressCutoff)
      ensures fails <==> batch.Err?
      ensures batch.Ok? ==> batch.value == CreatedRunners(runners)
    {
      UpdateTimeoutQueuedRunnerJobs(queuedCutoff);
      UpdateTimedOutInProgressRunners(inProgressCutoff);
      batch := FetchCreatedRunners(fails);
    }

    /**
     * One iteration of the batch loop: both timeout sweeps, then the fetch.
     * A failed fetch goes on to the next iteration, an empty one ends the
     * loop, and otherwise the batch is published.
     */
    method BatchStep(iteration: nat, connections: map<string, Connection>, queries: map<string, Query>,
                     env: PublisherEnv) returns (step: BatchEnd)
      requires Valid()
      modifies this`runners, this`calls, this`produced
      ensures Valid()
      ensures |calls| >= |old(calls)| + 3
      ensures calls[|old(calls)|..|old(calls)| + 3] == [SweepQueued, SweepInProgress, FetchCreated]
      ensures CountCalls(calls, FetchCreated) == CountCalls(old(calls), FetchCreated) + 1
      ensures CountCalls(calls, RetryFailed) == CountCalls(old(calls), RetryFailed)
      ensures WellKeyedSince(old(produced), produced)
      ensures env.fetchFails(iteration) ==> step == NextBatch && produced == old(produced)
      ensures !env.fetchFails(iteration) && CreatedRunners(Swept(old(runners), env)) == [] ==>
        step == NoMoreRunners && produced == old(produced)
      ensures BatchResult(step, State()) == BatchOf(iteration, connections, queries, env, old(State()))
    {
      var batch := OpenBatch(env.queuedCutoff, env.inProgressCutoff, env.fetchFails(iteration));
      ghost var afterFetch := calls;
      if batch.Err? {
        return NextBatch;
      }
      if |batch.value| == 0 {
        return NoMoreRunners;
      }
      var crashed := PublishBatch(batch.value, connections, queries, env);
      assert calls[..|afterFetch|] == afterFetch;
      assert calls[|old(calls)|..|old(calls)| + 3] == afterFetch[|old(calls)|..];
      step := if crashed then Panicked else NextBatch;
    }

    /** The batch loop of runPublisher: at most ten batches, ending at an empty fetch or a panic. */
    method RunBatches(connections: map<string, Connection>, queries: map<string, Query>, env: PublisherEnv)
      returns (end: BatchEnd)
      requires Valid()
      modifies this`runners, this`calls, this`produced
      ensures Valid()
      ensures CountCalls(calls, RetryFailed) == CountCalls(old(calls), RetryFailed)
      ensures WellKeyedSince(old(produced), produced)
      ensures BatchResult(end, State()) == BatchLoop(0, connections, queries, env, old(State()))
    {
      ghost var b := BatchLoop(0, connections, queries, env, old(State()));
      end := NextBatch;
      var i := 0;
      while i < 10
        invariant 0 <= i <= 10
        invariant Valid()
        invariant CountCalls(calls, RetryFailed) == CountCalls(old(calls), RetryFailed)
        invariant WellKeyedSince(old(produced), produced)
        invariant end == NextBatch
        invariant BatchLoop(i, connections, queries, env, State()) == b
      {
        ghost var before := produced;
        ghost var s := State();
        LoopUnfold(i, connections, queries, env, s);
        end := BatchStep(i, connections, queries, env);
        WellKeyedStep(old(produced), before, produced);
        if end != NextBatch {
          return;
        }
        i := i + 1;
      }
    }

    /** runPublisher */
    method RunPublisher(env: PublisherEnv) returns (outcome: PublisherOutcome)
      requires Valid()
      modifies this`runners, this`calls, this`produced
      ensures Valid()
      // a catalog error aborts before any runner changes
      ensures env.sources.Err? ==>
        outcome == Finished(Some(env.sources.error))
        && runners == old(runners) && produced == old(produced) && calls == old(calls)
      ensures env.sources.Ok? && env.queries.Err? ==>
        outcome == Finished(Some(env.queries.error))
        && runners == old(runners) && produced == old(produced) && calls == old(calls)
      // at most ten batches, each opened by the two sweeps (Valid)
      ensures CountCalls(calls, FetchCreated) <= CountCalls(old(calls), FetchCreated) + 10
      // the retry runs exactly once, last, and its error is the run's result
      ensures env.sources.Ok? && env.queries.Ok? && outcome.Finished? ==>
        outcome.err == env.retryError
        && |calls| > 0 && calls[|calls| - 1] == RetryFailed
        && CountCalls(calls, RetryFailed) == CountCalls(old(calls), RetryFailed) + 1
      ensures outcome.Crashed? ==> CountCalls(calls, RetryFailed) == CountCalls(old(calls), RetryFailed)
      // every message goes to the job queue under its runner's key
      ensures WellKeyedSince(old(produced), produced)
      // the batches, then the retry, as the loop specification says
      ensures env.sources.Ok? && env.queries.Ok? ==>
        var b := BatchLoop(0, IndexMap(env.sources.value, ConnectionKey), IndexMap(env.queries.value, QueryKey),
                           env, old(State()));
        (outcome.Crashed? <==> b.end == Panicked)
        && (outcome.Crashed? ==> State() == b.state)
        && (outcome.Finished? ==>
              runners == (if env.retryError.None? then RetriedRunners(b.state.runners) else b.state.runners)
              && produced == b.state.produced && calls == b.state.calls + [RetryFailed])
    {
      if env.sources.Err? {
        return Finished(Some(env.sources.error));
      }
      var connections := IndexBy(env.sources.value, ConnectionKey);
      if env.queries.Err? {
        return Finished(Some(env.queries.error));
      }
      var queries := IndexBy(env.queries.value, QueryKey);
      ghost var start := State();
      var end := RunBatches(connections, queries, env);
      LoopFetchCount(0, connections, queries, env, start);
      if end == Panicked {
        return Crashed;
      }
      var err := RetryFailedRunners(env.retryError);
      return Finished(err);
    }
  }
}
