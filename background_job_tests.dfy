/** The job's test suite as verified client code: each method makes the calls one test makes
    on a fresh job and promises, for every identity, timestamp and payload, what that test
    asserts. */
module BackgroundJobTests {
  import opened Wrappers
  import opened BackgroundJob

  /** An invalid status token is refused, and a fresh job stays queued. */
  method SetStatusFalseForInvalidStatus(id: nat) returns (result: bool, after: Status)
    ensures !result
    ensures after == Queued
  {
    var job := new Job(id, "test", map[]);
    result := job.SetStatus("invalid_status");
    after := job.status;
  }

  /** Running, partial, failed and complete are each accepted, in that order, with no
      transition rule in between. */
  method SetStatusTrueForValidStatuses(id: nat)
    returns (running: bool, partial: bool, failed: bool, complete: bool)
    ensures running && partial && failed && complete
  {
    var job := new Job(id, "test", map[]);
    running := job.SetStatus(JobStatusRunning);
    partial := job.SetStatus(JobStatusPartial);
    failed := job.SetStatus(JobStatusFailed);
    complete := job.SetStatus(JobStatusComplete);
  }

  /** A created job keeps its name and data and starts queued, unlocked, without errors. */
  method CreateJob(id: nat, name: string, data: Payload) returns (job: Job)
    ensures job.TermMeta(MetaKeyJobName) == Text(name)
    ensures job.TermMeta(MetaKeyJobData) == Record(data)
    ensures job.TermMeta(MetaKeyJobStatus) == Text(JobStatusQueued)
    ensures job.GetAttempts() == 0 && job.GetStartTime() == None
    ensures job.TermMeta(MetaKeyJobErrors) == Empty
  {
    job := new Job(id, name, data);
  }

  /** The data attached under the failure code is what the errors key holds afterwards,
      and one attempt is counted. */
  method SetError(id: nat, errorData: Payload, jobData: Payload)
    returns (errorMetadata: MetaValue, attempts: nat)
    ensures errorMetadata == Record(errorData)
    ensures attempts == 1
  {
    var error := WpError(map[]).AddData(errorData, FailureCode);
    var job := new Job(id, "tecdcdcdst", jobData);
    job.SetError(error);
    errorMetadata := job.TermMeta(MetaKeyJobErrors);
    attempts := job.GetAttempts();
  }

  /** Each failure is counted: three errors make three attempts, and the last payload wins. */
  method RepeatedErrors(id: nat, first: Payload, second: Payload, third: Payload)
    returns (errorMetadata: MetaValue, attempts: nat)
    ensures errorMetadata == Record(third)
    ensures attempts == 3
  {
    var job := new Job(id, "test", map[]);
    job.SetError(WpError(map[]).AddData(first, FailureCode));
    job.SetError(WpError(map[]).AddData(second, FailureCode));
    job.SetError(WpError(map[]).AddData(third, FailureCode));
    errorMetadata := job.TermMeta(MetaKeyJobErrors);
    attempts := job.GetAttempts();
  }

  /** A fresh job should run. */
  method JobShouldRunForJob(id: nat) returns (run: bool)
    ensures run
  {
    var job := new Job(id, "test", map[]);
    run := job.ShouldRun();
  }

  /** A job marked complete should not run. */
  method JobShouldNotRunForCompletedJob(id: nat) returns (run: bool)
    ensures !run
  {
    var job := new Job(id, "test", map[]);
    var _ := job.SetStatus(JobStatusComplete);
    run := job.ShouldRun();
  }

  /** Locking stores the timestamp under the lock key; unlocking empties it. */
  method LockUnlock(id: nat, time: nat) returns (locked: MetaValue, unlocked: MetaValue)
    ensures locked == Number(time)
    ensures unlocked == Empty
  {
    var job := new Job(id, "test", map[]);
    job.Lock(time);
    locked := job.TermMeta(MetaKeyJobLock);
    job.Unlock();
    unlocked := job.TermMeta(MetaKeyJobLock);
  }

  /** After locking, the start time is the lock timestamp. */
  method GetStartTime(id: nat, time: nat) returns (lockTime: MetaValue, startTime: Option<nat>)
    ensures lockTime == Number(time)
    ensures startTime == Some(time)
  {
    var job := new Job(id, "test", map[]);
    job.Lock(time);
    lockTime := job.TermMeta(MetaKeyJobLock);
    startTime := job.GetStartTime();
  }
}
