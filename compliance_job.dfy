// The compliance job / runner lifecycle as stored in the describe database
// (pkg/describe/db/compliance_job.go).  A compliance job fans out into
// runners, one per (query, connection); once every runner is done the job
// moves on to its sink and summarizer stages.  Each SQL statement of the
// source is modelled as a function over a snapshot of the tables (queries)
// or as a method of `ComplianceDb` that rewrites the job table (updates and
// deletes).  Times are seconds since the epoch; `now` is a parameter.

module ComplianceJobs {
  import opened Common

  /** compliance_jobs.status */
  datatype JobStatus =
    | Created | RunnersInProgress | SinkInProgress | SummarizerInProgress
    | Succeeded | Failed | TimeOut

  /** Status column shared by compliance_runners and compliance_summarizers. */
  datatype TaskStatus =
    | TaskCreated | TaskQueued | TaskInProgress | TaskSucceeded | TaskFailed | TaskTimeOut

  datatype TriggerType = Manual | Scheduled

  datatype ComplianceJob = ComplianceJob(
    id: nat,
    benchmarkId: string,
    connectionIds: seq<string>,
    status: JobStatus,
    failureMessage: string,
    areAllRunnersQueued: bool,
    triggerType: TriggerType,
    createdAt: int,
    updatedAt: int)

  datatype ComplianceRunner = ComplianceRunner(
    id: nat,
    parentJobId: nat,
    benchmarkId: string,
    queryId: string,
    connectionId: Option<string>,
    callers: string,
    status: TaskStatus,
    failureMessage: string,
    retryCount: nat,
    totalFindingCount: Option<int>,
    createdAt: int,
    updatedAt: int)

  datatype ComplianceSummarizer = ComplianceSummarizer(
    id: nat,
    parentJobId: nat,
    status: TaskStatus,
    retryCount: nat)

  /** The most attempts a runner or summarizer gets before FAILED is final. */
  const MaxRetryCount: nat := 3

  const TimedOutMessage: string := "Job timed out"

  // ---------------------------------------------------------------------
  // Runner completion and fan-in (ListJobsWithRunnersCompleted)
  // ---------------------------------------------------------------------

  /** A runner no longer needs work: it succeeded, timed out, or failed for the last time. */
  predicate RunnerDone(r: ComplianceRunner)
  {
    r.status == TaskSucceeded || r.status == TaskTimeOut
    || (r.status == TaskFailed && r.retryCount >= MaxRetryCount)
  }

  /** `select count(*) from compliance_runners where parent_job_id = id and not done` */
  function NotDoneCount(runners: seq<ComplianceRunner>, jobId: nat): nat
  {
    if runners == [] then 0
    else
      var last := runners[|runners| - 1];
      NotDoneCount(runners[..|runners| - 1], jobId)
        + (if last.parentJobId == jobId && !RunnerDone(last) then 1 else 0)
  }

  predicate AllRunnersDone(runners: seq<ComplianceRunner>, jobId: nat)
  {
    forall i :: 0 <= i < |runners| && runners[i].parentJobId == jobId ==> RunnerDone(runners[i])
  }

  /** The SQL count is zero exactly when every runner of the job is done. */
  lemma {:induction false} NotDoneCountZero(runners: seq<ComplianceRunner>, jobId: nat)
    ensures NotDoneCount(runners, jobId) == 0 <==> AllRunnersDone(runners, jobId)
  {
    if runners != [] {
      var init := runners[..|runners| - 1];
      NotDoneCountZero(init, jobId);
      assert forall i :: 0 <= i < |init| ==> init[i] == runners[i];
    }
  }

  predicate MatchesTrigger(j: ComplianceJob, manuals: bool)
  {
    if manuals then j.triggerType == Manual else j.triggerType != Manual
  }

  /** The WHERE clause of ListJobsWithRunnersCompleted. */
  predicate RunnersCompleted(j: ComplianceJob, runners: seq<ComplianceRunner>, manuals: bool)
  {
    (j.status == RunnersInProgress || j.status == SinkInProgress)
    && j.areAllRunnersQueued
    && NotDoneCount(runners, j.id) == 0
    && MatchesTrigger(j, manuals)
  }

  function ListJobsWithRunnersCompleted(jobs: seq<ComplianceJob>, runners: seq<ComplianceRunner>, manuals: bool)
    : (r: seq<ComplianceJob>)
    ensures forall j :: j in r <==>
      (j in jobs
       && (j.status == RunnersInProgress || j.status == SinkInProgress)
       && j.areAllRunnersQueued
       && AllRunnersDone(runners, j.id)
       && MatchesTrigger(j, manuals))
  {
    var r := Filter(jobs, j => RunnersCompleted(j, runners, manuals));
    forall j ensures j in r <==> j in jobs && RunnersCompleted(j, runners, manuals) {
      if j in jobs && RunnersCompleted(j, runners, manuals) {
        var i :| 0 <= i < |jobs| && jobs[i] == j;
      }
    }
    forall j ensures RunnersCompleted(j, runners, manuals) <==>
      (j.status == RunnersInProgress || j.status == SinkInProgress) && j.areAllRunnersQueued
      && AllRunnersDone(runners, j.id) && MatchesTrigger(j, manuals)
    {
      NotDoneCountZero(runners, j.id);
    }
    r
  }

  /** A queued job with no runners at all has nothing left to wait for. */
  lemma JobWithoutRunnersIsCompleted(j: ComplianceJob, runners: seq<ComplianceRunner>, manuals: bool)
    requires j.status == RunnersInProgress && j.areAllRunnersQueued && MatchesTrigger(j, manuals)
    requires forall i :: 0 <= i < |runners| ==> runners[i].parentJobId != j.id
    ensures j in ListJobsWithRunnersCompleted([j], runners, manuals)
  {
  }

  /** One unfinished runner keeps its job out of the fan-in. */
  lemma UnfinishedRunnerBlocksJob(j: ComplianceJob, jobs: seq<ComplianceJob>, runners: seq<ComplianceRunner>,
                                  k: nat, manuals: bool)
    requires k < |runners| && runners[k].parentJobId == j.id && !RunnerDone(runners[k])
    ensures j !in ListJobsWithRunnersCompleted(jobs, runners, manuals)
  {
  }

  // ---------------------------------------------------------------------
  // Finding total (FetchTotalFindingCountForComplianceJob)
  // ---------------------------------------------------------------------

  function FindingCount(r: ComplianceRunner): int
  {
    match r.totalFindingCount
    case None => 0
    case Some(n) => n
  }

  /** coalesce(sum(coalesce(total_finding_count, 0)), 0) over the job's runners */
  function TotalFindingCount(runners: seq<ComplianceRunner>, jobId: nat): int
  {
    if runners == [] then 0
    else
      var last := runners[|runners| - 1];
      TotalFindingCount(runners[..|runners| - 1], jobId)
        + (if last.parentJobId == jobId then FindingCount(last) else 0)
  }

  /** The total splits over any split of the runner table, so row order does not matter. */
  lemma {:induction false} TotalFindingCountAppend(a: seq<ComplianceRunner>, b: seq<ComplianceRunner>, jobId: nat)
    ensures TotalFindingCount(a + b, jobId) == TotalFindingCount(a, jobId) + TotalFindingCount(b, jobId)
    decreases |b|
  {
    if b == [] {
      assert a + b == a;
    } else {
      var init := b[..|b| - 1];
      assert (a + b)[..|a + b| - 1] == a + init;
      TotalFindingCountAppend(a, init, jobId);
    }
  }

  /** A job none of whose runners is present has total 0, and NULL counts contribute 0. */
  lemma {:induction false} TotalFindingCountOfOtherJobs(runners: seq<ComplianceRunner>, jobId: nat)
    requires forall i :: 0 <= i < |runners| ==>
      runners[i].parentJobId != jobId || runners[i].totalFindingCount.None?
    ensures TotalFindingCount(runners, jobId) == 0
  {
    if runners != [] {
      TotalFindingCountOfOtherJobs(runners[..|runners| - 1], jobId);
    }
  }

  /** With non-negative counts, each runner's count is bounded by the job total. */
  lemma {:induction false} RunnerCountBoundedByTotal(runners: seq<ComplianceRunner>, jobId: nat, k: nat)
    requires forall i :: 0 <= i < |runners| ==> FindingCount(runners[i]) >= 0
    requires k < |runners| && runners[k].parentJobId == jobId
    ensures FindingCount(runners[k]) <= TotalFindingCount(runners, jobId)
  {
    TotalFindingCountAppend(runners[..k], runners[k..], jobId);
    assert runners == runners[..k] + runners[k..];
    TotalFindingCountAppend([runners[k]], runners[k + 1..], jobId);
    assert runners[k..] == [runners[k]] + runners[k + 1..];
    NonNegativeTotal(runners[..k], jobId);
    NonNegativeTotal(runners[k + 1..], jobId);
    assert [runners[k]][..0] == [];
  }

  lemma {:induction false} NonNegativeTotal(runners: seq<ComplianceRunner>, jobId: nat)
    requires forall i :: 0 <= i < |runners| ==> FindingCount(runners[i]) >= 0
    ensures TotalFindingCount(runners, jobId) >= 0
  {
    if runners != [] {
      NonNegativeTotal(runners[..|runners| - 1], jobId);
    }
  }

  // ---------------------------------------------------------------------
  // Summarizer completion (ListJobsToFinish)
  // ---------------------------------------------------------------------

  predicate SummarizerFinished(s: ComplianceSummarizer)
  {
    s.status == TaskSucceeded || (s.status == TaskFailed && s.retryCount >= MaxRetryCount)
  }

  function FinishedSummarizerCount(summarizers: seq<ComplianceSummarizer>, jobId: nat): nat
  {
    if summarizers == [] then 0
    else
      var last := summarizers[|summarizers| - 1];
      FinishedSummarizerCount(summarizers[..|summarizers| - 1], jobId)
        + (if last.parentJobId == jobId && SummarizerFinished(last) then 1 else 0)
  }

  /** The SQL count is positive exactly when some summarizer of the job has finished. */
  lemma {:induction false} FinishedSummarizerCountPositive(summarizers: seq<ComplianceSummarizer>, jobId: nat)
    ensures FinishedSummarizerCount(summarizers, jobId) > 0 <==>
      exists i :: 0 <= i < |summarizers| && summarizers[i].parentJobId == jobId && SummarizerFinished(summarizers[i])
  {
    if summarizers != [] {
      var init := summarizers[..|summarizers| - 1];
      FinishedSummarizerCountPositive(init, jobId);
      assert forall i :: 0 <= i < |init| ==> init[i] == summarizers[i];
    }
  }

  predicate ReadyToFinish(j: ComplianceJob, summarizers: seq<ComplianceSummarizer>)
  {
    j.status == SummarizerInProgress && FinishedSummarizerCount(summarizers, j.id) > 0
  }

  function ListJobsToFinish(jobs: seq<ComplianceJob>, summarizers: seq<ComplianceSummarizer>): (r: seq<ComplianceJob>)
    ensures forall j :: j in r <==>
      (j in jobs && j.status == SummarizerInProgress
       && exists i :: 0 <= i < |summarizers| && summarizers[i].parentJobId == j.id && SummarizerFinished(summarizers[i]))
  {
    var r := Filter(jobs, j => ReadyToFinish(j, summarizers));
    forall j ensures j in r <==> j in jobs && ReadyToFinish(j, summarizers) {
      FinishedSummarizerCountPositive(summarizers, j.id);
      if j in jobs && ReadyToFinish(j, summarizers) {
        var i :| 0 <= i < |jobs| && jobs[i] == j;
      }
    }
    forall j ensures ReadyToFinish(j, summarizers) <==>
      (j.status == SummarizerInProgress
       && exists i :: 0 <= i < |summarizers| && summarizers[i].parentJobId == j.id && SummarizerFinished(summarizers[i]))
    {
      FinishedSummarizerCountPositive(summarizers, j.id);
    }
    r
  }

  // ---------------------------------------------------------------------
  // Counting and listing by date / filters
  // ---------------------------------------------------------------------

  predicate SucceededWithin(j: ComplianceJob, start: int, end: int)
  {
    j.status == Succeeded && start <= j.updatedAt < end
  }

  /** CountComplianceJobsByDate: SUCCEEDED jobs with updated_at in [start, end). */
  function CountComplianceJobsByDate(jobs: seq<ComplianceJob>, start: int, end: int): (n: nat)
    ensures n <= |jobs|
    ensures n > 0 <==> exists i :: 0 <= i < |jobs| && SucceededWithin(jobs[i], start, end)
  {
    if jobs == [] then 0
    else
      var front, last := jobs[..|jobs| - 1], jobs[|jobs| - 1];
      assert forall i :: 0 <= i < |front| ==> front[i] == jobs[i];
      CountComplianceJobsByDate(front, start, end) + (if SucceededWithin(last, start, end) then 1 else 0)
  }

  /** The count is the number of rows the WHERE clause keeps. */
  lemma {:induction false} CountByDateIsMatchingRows(jobs: seq<ComplianceJob>, start: int, end: int)
    ensures CountComplianceJobsByDate(jobs, start, end) == |Filter(jobs, j => SucceededWithin(j, start, end))|
  {
    var keep := j => SucceededWithin(j, start, end);
    if jobs != [] {
      var front, last := jobs[..|jobs| - 1], jobs[|jobs| - 1];
      CountByDateIsMatchingRows(front, start, end);
      assert jobs == front + [last];
      FilterAppend(front, [last], keep);
      FilterSingle(last, keep);
    }
  }

  /** Counting [start, mid) and [mid, end) separately gives the count of [start, end). */
  lemma {:induction false} CountByDateSplit(jobs: seq<ComplianceJob>, start: int, mid: int, end: int)
    requires start <= mid <= end
    ensures CountComplianceJobsByDate(jobs, start, end)
         == CountComplianceJobsByDate(jobs, start, mid) + CountComplianceJobsByDate(jobs, mid, end)
  {
    if jobs != [] {
      CountByDateSplit(jobs[..|jobs| - 1], start, mid, end);
    }
  }

  /** The WHERE clauses of ListComplianceJobsByFilters; an empty list imposes no condition. */
  predicate MatchesFilters(j: ComplianceJob, connectionIds: seq<string>, benchmarkIds: seq<string>,
                           statuses: seq<JobStatus>, start: int, end: Option<int>)
  {
    (|connectionIds| > 0 ==> exists c :: c in connectionIds && c in j.connectionIds)
    && (|benchmarkIds| > 0 ==> j.benchmarkId in benchmarkIds)
    && (|statuses| > 0 ==> j.status in statuses)
    && start <= j.updatedAt
    && (end.Some? ==> j.updatedAt <= end.value)
  }

  function ListComplianceJobsByFilters(jobs: seq<ComplianceJob>, connectionIds: seq<string>, benchmarkIds: seq<string>,
                                       statuses: seq<JobStatus>, start: int, end: Option<int>)
    : (r: seq<ComplianceJob>)
    ensures forall j :: j in r <==> j in jobs && MatchesFilters(j, connectionIds, benchmarkIds, statuses, start, end)
    ensures |connectionIds| == 0 && |benchmarkIds| == 0 && |statuses| == 0 && end.None? ==>
      forall j :: j in r <==> j in jobs && start <= j.updatedAt
  {
    var keep := j => MatchesFilters(j, connectionIds, benchmarkIds, statuses, start, end);
    var r := Filter(jobs, keep);
    forall j ensures j in r <==> j in jobs && keep(j) {
      if j in jobs && keep(j) {
        var i :| 0 <= i < |jobs| && jobs[i] == j;
      }
    }
    r
  }

  // ---------------------------------------------------------------------
  // Row rewrites used by the updates
  // ---------------------------------------------------------------------

  /** The rows UpdateComplianceJobsTimedOut selects. */
  predicate TimeoutCandidate(j: ComplianceJob, cutoff: int)
  {
    j.createdAt < cutoff && (j.status == Created || j.status == RunnersInProgress || j.status == SummarizerInProgress)
  }

  /** Number of runners whose parent is `jobId`. */
  function RunnerCount(runners: seq<ComplianceRunner>, jobId: nat): nat
  {
    if runners == [] then 0
    else
      RunnerCount(runners[..|runners| - 1], jobId) + (if runners[|runners| - 1].parentJobId == jobId then 1 else 0)
  }

  lemma {:induction false} RunnerCountPositive(runners: seq<ComplianceRunner>, jobId: nat)
    ensures RunnerCount(runners, jobId) > 0 <==> exists i :: 0 <= i < |runners| && runners[i].parentJobId == jobId
  {
    if runners != [] {
      var init := runners[..|runners| - 1];
      RunnerCountPositive(init, jobId);
      assert forall i :: 0 <= i < |init| ==> init[i] == runners[i];
    }
  }

  /** The rows ListComplianceJobsWithUnqueuedRunners selects. */
  predicate HasUnqueuedRunners(j: ComplianceJob)
  {
    !j.areAllRunnersQueued && (j.status == Created || j.status == RunnersInProgress)
  }

  /** The jobs a retention cleanup at time `t` keeps, in table order. */
  function JobsUpdatedSince(jobs: seq<ComplianceJob>, t: int): (r: seq<ComplianceJob>)
    ensures |r| <= |jobs|
  {
    if jobs == [] then []
    else
      var init := JobsUpdatedSince(jobs[..|jobs| - 1], t);
      var last := jobs[|jobs| - 1];
      assert jobs == jobs[..|jobs| - 1] + [last];
      if last.updatedAt >= t then init + [last] else init
  }

  /** The cleanup keeps exactly the jobs updated at or after the cutoff. */
  lemma {:induction false} CleanupKeepsRecentJobs(jobs: seq<ComplianceJob>, t: int)
    ensures forall j :: j in JobsUpdatedSince(jobs, t) <==> j in jobs && j.updatedAt >= t
  {
    if jobs != [] {
      var init := jobs[..|jobs| - 1];
      CleanupKeepsRecentJobs(init, t);
      assert jobs == init + [jobs[|jobs| - 1]];
    }
  }

  /** Cleaning up twice with the same cutoff deletes nothing the second time. */
  lemma {:induction false} CleanupIdempotent(jobs: seq<ComplianceJob>, t: int)
    ensures JobsUpdatedSince(JobsUpdatedSince(jobs, t), t) == JobsUpdatedSince(jobs, t)
  {
    if jobs != [] {
      var init := jobs[..|jobs| - 1];
      CleanupIdempotent(init, t);
      var r := JobsUpdatedSince(init, t);
      if jobs[|jobs| - 1].updatedAt >= t {
        assert (r + [jobs[|jobs| - 1]])[..|r|] == r;
      }
    }
  }

  // ---------------------------------------------------------------------
  // The job table as mutable state
  // ---------------------------------------------------------------------

  class ComplianceDb {
    var jobs: seq<ComplianceJob>
    var runners: seq<ComplianceRunner>
    var summarizers: seq<ComplianceSummarizer>

    constructor (jobs0: seq<ComplianceJob>, runners0: seq<ComplianceRunner>, summarizers0: seq<ComplianceSummarizer>)
      ensures jobs == jobs0 && runners == runners0 && summarizers == summarizers0
    {
      jobs, runners, summarizers := jobs0, runners0, summarizers0;
    }

    /**
     * UpdateComplianceJobsTimedOut: every CREATED, RUNNERS_IN_PROGRESS or
     * SUMMARIZER_IN_PROGRESS job created more than `intervalHours` hours
     * before `now` becomes TIMEOUT with message "Job timed out"; the ORM
     * update also stamps updated_at.  All other rows stay as they were.
     */
    method UpdateComplianceJobsTimedOut(now: int, intervalHours: int)
      modifies this
      ensures runners == old(runners) && summarizers == old(summarizers)
      ensures |jobs| == |old(jobs)|
      ensures forall i :: 0 <= i < |jobs| && TimeoutCandidate(old(jobs)[i], now - intervalHours * 3600) ==>
        jobs[i] == old(jobs)[i].(status := TimeOut, failureMessage := TimedOutMessage, updatedAt := now)
      ensures forall i :: 0 <= i < |jobs| && !TimeoutCandidate(old(jobs)[i], now - intervalHours * 3600) ==>
        jobs[i] == old(jobs)[i]
    {
      var cutoff := now - intervalHours * 3600;
      var i := 0;
      while i < |jobs|
        invariant 0 <= i <= |jobs| == |old(jobs)|
        invariant runners == old(runners) && summarizers == old(summarizers)
        invariant forall k :: 0 <= k < i && TimeoutCandidate(old(jobs)[k], cutoff) ==>
          jobs[k] == old(jobs)[k].(status := TimeOut, failureMessage := TimedOutMessage, updatedAt := now)
        invariant forall k :: 0 <= k < i && !TimeoutCandidate(old(jobs)[k], cutoff) ==> jobs[k] == old(jobs)[k]
        invariant forall k :: i <= k < |jobs| ==> jobs[k] == old(jobs)[k]
      {
        if TimeoutCandidate(jobs[i], cutoff) {
          jobs := jobs[i := jobs[i].(status := TimeOut, failureMessage := TimedOutMessage, updatedAt := now)];
        }
        i := i + 1;
      }
    }

    /**
     * SetJobToRunnersInProgress: a CREATED job with at least one runner
     * becomes RUNNERS_IN_PROGRESS.  The raw SQL statement leaves
     * updated_at alone, and no other job changes.
     */
    method SetJobToRunnersInProgress()
      modifies this
      ensures runners == old(runners) && summarizers == old(summarizers)
      ensures |jobs| == |old(jobs)|
      ensures forall i :: 0 <= i < |jobs| ==>
        if old(jobs)[i].status == Created && (exists k :: 0 <= k < |runners| && runners[k].parentJobId == old(jobs)[i].id)
        then jobs[i] == old(jobs)[i].(status := RunnersInProgress)
        else jobs[i] == old(jobs)[i]
    {
      var i := 0;
      while i < |jobs|
        invariant 0 <= i <= |jobs| == |old(jobs)|
        invariant runners == old(runners) && summarizers == old(summarizers)
        invariant forall k :: 0 <= k < i ==>
          if old(jobs)[k].status == Created && RunnerCount(runners, old(jobs)[k].id) > 0
          then jobs[k] == old(jobs)[k].(status := RunnersInProgress)
          else jobs[k] == old(jobs)[k]
        invariant forall k :: i <= k < |jobs| ==> jobs[k] == old(jobs)[k]
      {
        if jobs[i].status == Created && RunnerCount(runners, jobs[i].id) > 0 {
          jobs := jobs[i := jobs[i].(status := RunnersInProgress)];
        }
        i := i + 1;
      }
      forall i | 0 <= i < |jobs| {
        RunnerCountPositive(runners, old(jobs)[i].id);
      }
    }

    /**
     * CleanupComplianceJobsOlderThan: hard-deletes (Unscoped) every job
     * whose updated_at is before `t`, whatever its status; the remaining
     * jobs keep their order.  Runners and summarizers are not touched.
     */
    method CleanupComplianceJobsOlderThan(t: int)
      modifies this
      ensures runners == old(runners) && summarizers == old(summarizers)
      ensures jobs == JobsUpdatedSince(old(jobs), t)
    {
      var kept: seq<ComplianceJob> := [];
      var i := 0;
      while i < |jobs|
        invariant 0 <= i <= |jobs|
        invariant jobs == old(jobs) && runners == old(runners) && summarizers == old(summarizers)
        invariant kept == JobsUpdatedSince(jobs[..i], t)
      {
        assert jobs[..i + 1][..i] == jobs[..i];
        if jobs[i].updatedAt >= t {
          kept := kept + [jobs[i]];
        }
        i := i + 1;
      }
      assert jobs[..i] == jobs;
      jobs := kept;
    }

    /**
     * ListComplianceJobsWithUnqueuedRunners: the jobs that still have
     * runners to queue (are_all_runners_queued = false, status CREATED or
     * RUNNERS_IN_PROGRESS), in a random order.  `rand.Shuffle` is the
     * Fisher-Yates shuffle; each random index is an arbitrary choice.
     */
    method ListComplianceJobsWithUnqueuedRunners() returns (r: seq<ComplianceJob>)
      ensures multiset(r) == multiset(Filter(jobs, HasUnqueuedRunners))
      ensures forall j :: j in r <==> j in jobs && HasUnqueuedRunners(j)
    {
      var selected := Filter(jobs, HasUnqueuedRunners);
      var a := new ComplianceJob[|selected|](k requires 0 <= k < |selected| => selected[k]);
      assert a[..] == selected;
      Shuffle(a);
      r := a[..];
      forall j ensures j in r <==> j in selected {
        assert j in r <==> j in multiset(r);
        assert j in selected <==> j in multiset(selected);
      }
      forall j | j in jobs && HasUnqueuedRunners(j) ensures j in selected {
        var k :| 0 <= k < |jobs| && jobs[k] == j;
      }
    }
  }

  /** rand.Shuffle: Fisher-Yates over the array; each random index is an arbitrary choice. */
  method Shuffle<T>(a: array<T>)
    modifies a
    ensures multiset(a[..]) == multiset(old(a[..]))
  {
    var i := a.Length - 1;
    while i > 0
      invariant -1 <= i < a.Length
      invariant multiset(a[..]) == multiset(old(a[..]))
    {
      var j :| 0 <= j <= i;
      a[i], a[j] := a[j], a[i];
      i := i - 1;
    }
  }
}
