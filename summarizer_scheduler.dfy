// The must-summarize scheduling rule of the describe scheduler
// (pkg/describe/scheduler_inventory_summarizer.go).  The summarizer job
// table and the summarizer queue are fields of `SummarizerScheduler`; the
// schedule-job lookups, the database's write errors and the queue's
// publish error are parameters.  Times are seconds.

module InventorySummarizerScheduler {
  import opened Common

  datatype SummarizerJobStatus = InProgress | Succeeded | Failed

  datatype SummarizerJobType = ResourceSummarizer | ResourceMustSummarizer

  /** A row of the summarizer job table. */
  datatype SummarizerJob = SummarizerJob(
    id: nat,
    createdAt: int,
    status: SummarizerJobStatus,
    scheduleJobId: Option<nat>,
    jobType: SummarizerJobType,
    failureMessage: string)

  /** summarizer.ResourceJob: the message put on the summarizer queue. */
  datatype ResourceJob = ResourceJob(
    jobId: nat,
    lastDayScheduleJobId: nat,
    lastWeekScheduleJobId: nat,
    lastQuarterScheduleJobId: nat,
    lastYearScheduleJobId: nat,
    jobType: SummarizerJobType)

  const OngoingMessage: string := "there is ongoing MustSummarizerJob skipping this schedule"

  /** How far back, in days, each of the four comparison schedule jobs lies. */
  const LastDay: nat := 1
  const LastWeek: nat := 7
  const LastQuarter: nat := 93
  const LastYear: nat := 428

  /**
   * The per-tick rule of RunMustSummerizeJobScheduler: schedule when there
   * is no previous summarizer job, or the last one was created more than
   * `intervalHours` before now.
   */
  predicate ShouldSchedule(lastJob: Option<SummarizerJob>, intervalHours: nat, now: int)
  {
    lastJob.None? || lastJob.value.createdAt + intervalHours * 3600 < now
  }

  lemma ShouldScheduleMonotone(lastJob: Option<SummarizerJob>, intervalHours: nat, now: int, later: int)
    requires ShouldSchedule(lastJob, intervalHours, now) && now <= later
    ensures ShouldSchedule(lastJob, intervalHours, later)
  {
  }

  /** A job created at `t` blocks scheduling for the whole interval after it, inclusive. */
  lemma RecentJobBlocks(job: SummarizerJob, intervalHours: nat, now: int)
    requires job.createdAt <= now <= job.createdAt + intervalHours * 3600
    ensures !ShouldSchedule(Some(job), intervalHours, now)
  {
  }

  /** newMustSummarizerJob (before the database assigns ID and creation time). */
  function NewMustSummarizerJob(id: nat, createdAt: int, scheduleJobId: Option<nat>): (j: SummarizerJob)
    ensures j.status == InProgress && j.jobType == ResourceMustSummarizer
    ensures j.scheduleJobId == scheduleJobId && j.failureMessage == ""
    ensures j.id == id && j.createdAt == createdAt
  {
    SummarizerJob(id, createdAt, InProgress, scheduleJobId, ResourceMustSummarizer, "")
  }

  predicate Ongoing(j: SummarizerJob)
  {
    j.jobType == ResourceMustSummarizer && j.status == InProgress
  }

  /** GetOngoingSummarizerJobsByType(ResourceMustSummarizer), as a count. */
  function OngoingCount(jobs: seq<SummarizerJob>): (n: nat)
    ensures n <= |jobs|
    ensures n == 0 <==> forall i :: 0 <= i < |jobs| ==> !Ongoing(jobs[i])
  {
    if jobs == [] then 0
    else OngoingCount(jobs[..|jobs| - 1]) + (if Ongoing(jobs[|jobs| - 1]) then 1 else 0)
  }

  lemma {:induction false} OngoingCountSnoc(jobs: seq<SummarizerJob>, j: SummarizerJob)
    ensures OngoingCount(jobs + [j]) == OngoingCount(jobs) + (if Ongoing(j) then 1 else 0)
  {
    assert (jobs + [j])[..|jobs|] == jobs;
  }

  /** An ID larger than every ID in the table (the database's auto-increment). */
  function NextId(jobs: seq<SummarizerJob>): (id: nat)
    ensures forall i :: 0 <= i < |jobs| ==> jobs[i].id < id
  {
    if jobs == [] then 1
    else
      var rest := NextId(jobs[..|jobs| - 1]);
      if jobs[|jobs| - 1].id < rest then rest else jobs[|jobs| - 1].id + 1
  }

  /** GetOldCompletedScheduleJob(days) answered: the schedule job ID, 0 when none. */
  function Lookback(lookup: nat -> Result<Option<nat>>, days: nat): Result<nat>
  {
    match lookup(days)
    case Err(e) => Err(e)
    case Ok(None) => Ok(0)
    case Ok(Some(id)) => Ok(id)
  }

  /** All four lookbacks succeed. */
  predicate LookbacksSucceed(lookup: nat -> Result<Option<nat>>)
  {
    Lookback(lookup, LastDay).Ok? && Lookback(lookup, LastWeek).Ok? &&
    Lookback(lookup, LastQuarter).Ok? && Lookback(lookup, LastYear).Ok?
  }

  /** `id` is what a successful lookback answered: the schedule job found, or 0 when there was none. */
  predicate ScheduleJobIdOf(answer: Result<Option<nat>>, id: nat)
  {
    answer == Ok(Some(id)) || (answer == Ok(None) && id == 0)
  }

  /** The message published for summarizer job `jobId`. */
  function ResourceJobFor(jobId: nat, lookup: nat -> Result<Option<nat>>): (m: ResourceJob)
    requires LookbacksSucceed(lookup)
    ensures m.jobId == jobId && m.jobType == ResourceMustSummarizer
    ensures ScheduleJobIdOf(lookup(LastDay), m.lastDayScheduleJobId)
    ensures ScheduleJobIdOf(lookup(LastWeek), m.lastWeekScheduleJobId)
    ensures ScheduleJobIdOf(lookup(LastQuarter), m.lastQuarterScheduleJobId)
    ensures ScheduleJobIdOf(lookup(LastYear), m.lastYearScheduleJobId)
  {
    ResourceJob(jobId,
      Lookback(lookup, LastDay).value, Lookback(lookup, LastWeek).value,
      Lookback(lookup, LastQuarter).value, Lookback(lookup, LastYear).value,
      ResourceMustSummarizer)
  }

  /** Only the lookbacks of 1, 7, 93 and 428 days decide the message. */
  lemma ResourceJobUsesFourLookbacks(jobId: nat, lookup1: nat -> Result<Option<nat>>, lookup2: nat -> Result<Option<nat>>)
    requires LookbacksSucceed(lookup1)
    requires lookup1(LastDay) == lookup2(LastDay) && lookup1(LastWeek) == lookup2(LastWeek)
    requires lookup1(LastQuarter) == lookup2(LastQuarter) && lookup1(LastYear) == lookup2(LastYear)
    ensures LookbacksSucceed(lookup2)
    ensures ResourceJobFor(jobId, lookup1) == ResourceJobFor(jobId, lookup2)
  {
  }

  /** The error enqueueMustSummarizerJobs returns: the first failing lookup, then the publish. */
  function EnqueueError(lookup: nat -> Result<Option<nat>>, publishError: Option<string>): (e: Option<string>)
    ensures e.None? <==> LookbacksSucceed(lookup) && publishError.None?
  {
    if Lookback(lookup, LastDay).Err? then Some(Lookback(lookup, LastDay).error)
    else if Lookback(lookup, LastWeek).Err? then Some(Lookback(lookup, LastWeek).error)
    else if Lookback(lookup, LastQuarter).Err? then Some(Lookback(lookup, LastQuarter).error)
    else if Lookback(lookup, LastYear).Err? then Some(Lookback(lookup, LastYear).error)
    else publishError
  }

  /** Summarizer job table plus the summarizer job queue. */
  class SummarizerScheduler {
    var jobs: seq<SummarizerJob>
    var published: seq<ResourceJob>

    /** Single job at a time: at most one must-summarizer job is in progress. */
    ghost predicate Valid()
      reads this
    {
      OngoingCount(jobs) <= 1
    }

    constructor(jobs: seq<SummarizerJob>)
      requires OngoingCount(jobs) <= 1
      ensures this.jobs == jobs && published == [] && Valid()
    {
      this.jobs := jobs;
      published := [];
    }

    /** enqueueMustSummarizerJobs: four lookbacks, then one publish. */
    method EnqueueMustSummarizerJobs(job: SummarizerJob, lookup: nat -> Result<Option<nat>>, publishError: Option<string>)
      returns (err: Option<string>)
      modifies this`published
      ensures err == EnqueueError(lookup, publishError)
      ensures err.None? ==> published == old(published) + [ResourceJobFor(job.id, lookup)]
      ensures err.Some? ==> published == old(published)
    {
      var lastDay := Lookback(lookup, LastDay);
      if lastDay.Err? { return Some(lastDay.error); }
      var lastWeek := Lookback(lookup, LastWeek);
      if lastWeek.Err? { return Some(lastWeek.error); }
      var lastQuarter := Lookback(lookup, LastQuarter);
      if lastQuarter.Err? { return Some(lastQuarter.error); }
      var lastYear := Lookback(lookup, LastYear);
      if lastYear.Err? { return Some(lastYear.error); }
      if publishError.Some? { return publishError; }
      published := published + [ResourceJob(job.id, lastDay.value, lastWeek.value, lastQuarter.value,
        lastYear.value, ResourceMustSummarizer)];
      err := None;
    }

    /**
     * The steps of scheduleMustSummarizerJob up to the enqueue: returns the
     * error before the job exists (`early`), or the created job together
     * with the enqueue error and the status-update error.
     */
    method CreateAndEnqueue(scheduleJobId: Option<nat>, now: int, readError: Option<string>,
                            addError: Option<string>, lookup: nat -> Result<Option<nat>>,
                            publishError: Option<string>, updateError: Option<string>)
      returns (early: Option<string>, enqueueError: Option<string>)
      modifies this
      requires Valid()
      ensures Valid()
      ensures early.Some? ==> jobs == old(jobs) && published == old(published) && enqueueError.None?
      ensures early.Some? <==> readError.Some? || OngoingCount(old(jobs)) > 0 || addError.Some?
      ensures readError.Some? ==> early == readError
      ensures readError.None? && OngoingCount(old(jobs)) > 0 ==> early == Some(OngoingMessage)
      ensures early.None? ==> enqueueError == EnqueueError(lookup, publishError)
      ensures early.None? && enqueueError.None? ==>
        jobs == old(jobs) + [NewMustSummarizerJob(NextId(old(jobs)), now, scheduleJobId)] &&
        published == old(published) + [ResourceJobFor(NextId(old(jobs)), lookup)]
      ensures early.None? && enqueueError.Some? ==>
        (published == old(published) &&
         jobs == old(jobs) + [NewMustSummarizerJob(NextId(old(jobs)), now, scheduleJobId)
           .(status := if updateError.None? then Failed else InProgress)])
    {
      enqueueError := None;
      if readError.Some? { return readError, None; }
      if OngoingCount(jobs) > 0 { return Some(OngoingMessage), None; }
      var job := NewMustSummarizerJob(NextId(jobs), now, scheduleJobId);
      if addError.Some? { return addError, None; }
      OngoingCountSnoc(jobs, job);
      jobs := jobs + [job];
      early := None;
      enqueueError := EnqueueMustSummarizerJobs(job, lookup, publishError);
      if enqueueError.Some? && updateError.None? {
        OngoingCountSnoc(jobs[..|jobs| - 1], job.(status := Failed));
        jobs := jobs[..|jobs| - 1] + [job.(status := Failed)];
      }
    }

    /**
     * scheduleMustSummarizerJob as written: after a failed enqueue the error
     * of the status update replaces the enqueue error, so the failure is
     * reported as success once the update succeeds.
     */
    method ScheduleMustSummarizerJobAsWritten(scheduleJobId: Option<nat>, now: int, readError: Option<string>,
                                              addError: Option<string>, lookup: nat -> Result<Option<nat>>,
                                              publishError: Option<string>, updateError: Option<string>)
      returns (err: Option<string>)
      modifies this
      requires Valid()
      ensures Valid()
      ensures (readError.None? && OngoingCount(old(jobs)) == 0 && addError.None? &&
               EnqueueError(lookup, publishError).Some? && updateError.None?) ==>
        (err.None? && published == old(published))
    {
      var early, enqueueError := CreateAndEnqueue(scheduleJobId, now, readError, addError, lookup,
        publishError, updateError);
      if early.Some? { return early; }
      if enqueueError.Some? { return updateError; }
      err := None;
    }

    /** scheduleMustSummarizerJob with the enqueue error returned, as evidently intended. */
    method ScheduleMustSummarizerJob(scheduleJobId: Option<nat>, now: int, readError: Option<string>,
                                     addError: Option<string>, lookup: nat -> Result<Option<nat>>,
                                     publishError: Option<string>, updateError: Option<string>)
      returns (err: Option<string>)
      modifies this
      requires Valid()
      ensures Valid()
      ensures err.None? <==>
        (readError.None? && OngoingCount(old(jobs)) == 0 && addError.None? && EnqueueError(lookup, publishError).None?)
      ensures err.None? ==>
        jobs == old(jobs) + [NewMustSummarizerJob(NextId(old(jobs)), now, scheduleJobId)] &&
        published == old(published) + [ResourceJobFor(NextId(old(jobs)), lookup)]
      ensures err.Some? ==> published == old(published)
      ensures OngoingCount(old(jobs)) > 0 ==> jobs == old(jobs)
      // a read or add error leaves the table alone; a failed enqueue leaves the new job FAILED,
      // or IN_PROGRESS when the status update fails too
      ensures readError.Some? || OngoingCount(old(jobs)) > 0 || addError.Some? ==> jobs == old(jobs)
      ensures readError.None? && OngoingCount(old(jobs)) == 0 && addError.None? && err.Some? ==>
        jobs == old(jobs) + [NewMustSummarizerJob(NextId(old(jobs)), now, scheduleJobId)
          .(status := if updateError.None? then Failed else InProgress)]
    {
      var early, enqueueError := CreateAndEnqueue(scheduleJobId, now, readError, addError, lookup,
        publishError, updateError);
      if early.Some? { return early; }
      err := enqueueError;
    }
  }

  /**
   * The discrepancy of the as-written method on concrete inputs: the day
   * lookback fails, the status update succeeds, and no error is returned.
   */
  method EnqueueFailureReportedAsSuccess() returns (err: Option<string>)
    ensures err.None?
  {
    var s := new SummarizerScheduler([]);
    var failingLookup := (days: nat) => Err("database is down");
    assert EnqueueError(failingLookup, None) == Some("database is down");
    err := s.ScheduleMustSummarizerJobAsWritten(None, 0, None, None, failingLookup, None, None);
  }
}
