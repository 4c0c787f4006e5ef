// The compliance runner worker (pkg/compliance/runner/service.go): it takes a
// runner job off the job queue, runs it, and publishes a job result on the
// result queue.  `ProcessMessage` decides whether the queue message is
// committed (acked) or requeued (nak'd); the deferred block of the source
// that publishes the result is the tail of the method here.  The job's own
// execution (`RunJob`), JSON decoding and encoding and the clock are inputs.

module ComplianceRunnerService {
  import opened Common
  import opened ComplianceJobs
  import opened ComplianceClient

  const JobQueueTopic: string := "compliance-runner-job-queue"
  const ResultQueueTopic: string := "compliance-runner-job-result"

  /** What a runner needs to execute one query on one connection. */
  datatype ExecutionPlan = ExecutionPlan(
    callers: seq<string>,
    query: Query,
    connectionId: Option<string>,
    providerConnectionId: Option<string>)

  /** runner.Job: the message body on the job queue. */
  datatype Job = Job(id: nat, retryCount: nat, parentJobId: nat, createdAt: int, plan: ExecutionPlan)

  /** runner.JobResult: the message body on the result queue. */
  datatype JobResult = JobResult(
    job: Job,
    startedAt: int,
    status: TaskStatus,
    error: string,
    totalFindingCount: Option<int>)

  /** The acknowledgement sent back for a queue message. */
  datatype Delivery = Ack | Nak

  /**
   * ProcessMessage.  `decoded` is the outcome of unmarshalling the message,
   * `runJob` the outcome of RunJob (the finding count or an error),
   * `resultMarshals` whether the result encodes to JSON.  `published` is
   * the result handed to the producer for ResultQueueTopic, if any (a
   * produce failure is only logged, so it does not change the outcome).
   */
  method ProcessMessage(startTime: int, decoded: Result<Job>, runJob: Result<nat>, resultMarshals: bool)
    returns (commit: bool, requeue: bool, err: Option<string>, published: Option<JobResult>)
    ensures commit && !requeue
    ensures decoded.Err? ==> err == Some(decoded.error) && published.None?
    ensures decoded.Ok? ==> (err.Some? <==> runJob.Err?)
    ensures decoded.Ok? && runJob.Err? ==> err == Some(runJob.error)
    ensures decoded.Ok? ==> (published.Some? <==> resultMarshals)
    ensures published.Some? ==> published.value.job == decoded.value && published.value.startedAt == startTime
    ensures published.Some? ==>
      (published.value.status == TaskFailed <==> runJob.Err?) &&
      (published.value.status == TaskSucceeded <==> runJob.Ok?)
    ensures published.Some? && runJob.Err? ==> published.value.error == runJob.error
    ensures published.Some? && runJob.Ok? ==> published.value.error == ""
    ensures published.Some? ==>
      (published.value.totalFindingCount.Some? <==> runJob.Ok?) &&
      (runJob.Ok? ==> published.value.totalFindingCount == Some(runJob.value as int))
  {
    published := None;
    if decoded.Err? {
      // returns before the deferred publisher is registered
      return true, false, Some(decoded.error), None;
    }
    var job := decoded.value;
    var result := JobResult(job, startTime, TaskSucceeded, "", None);

    if runJob.Err? {
      commit, requeue, err := true, false, Some(runJob.error);
    } else {
      result := result.(totalFindingCount := Some(runJob.value as int));
      commit, requeue, err := true, false, None;
    }

    // deferred block
    if err.Some? {
      result := result.(error := err.value, status := TaskFailed);
    }
    if resultMarshals {
      published := Some(result);
    }
  }

  /** The consumer callback of Run: nak when requeue is asked for, ack when commit is. */
  function Acknowledgements(commit: bool, requeue: bool): (acks: seq<Delivery>)
    ensures Nak in acks <==> requeue
    ensures Ack in acks <==> commit
    ensures |acks| <= 2
  {
    (if requeue then [Nak] else []) + (if commit then [Ack] else [])
  }

  /** One delivery of a job-queue message: every message is acked exactly once and never nak'd. */
  method HandleMessage(startTime: int, decoded: Result<Job>, runJob: Result<nat>, resultMarshals: bool)
    returns (acks: seq<Delivery>, published: Option<JobResult>)
    ensures acks == [Ack]
    ensures decoded.Err? ==> published.None?
    ensures decoded.Ok? ==> (published.Some? <==> resultMarshals)
  {
    var commit, requeue, err;
    commit, requeue, err, published := ProcessMessage(startTime, decoded, runJob, resultMarshals);
    acks := Acknowledgements(commit, requeue);
  }
}
