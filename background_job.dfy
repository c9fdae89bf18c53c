/** The background job record of the "regenerate existing images" module: a persisted unit
    of work whose status, attempt counter, advisory lock timestamp and error payload live in
    the job's term metadata. Only the behaviour the job's test suite asserts is modelled. */
module BackgroundJob {
  import opened Wrappers

  // Term-meta keys under which a job's fields are stored.
  const MetaKeyJobName := "perflab_job_name"
  const MetaKeyJobData := "perflab_job_data"
  const MetaKeyJobAttempts := "perflab_job_attempts"
  const MetaKeyJobLock := "perflab_job_lock"
  const MetaKeyJobErrors := "perflab_job_errors"
  const MetaKeyJobStatus := "perflab_job_status"

  // The status tokens stored under MetaKeyJobStatus.
  const JobStatusQueued := "perflab_job_queued"
  const JobStatusRunning := "perflab_job_running"
  const JobStatusPartial := "perflab_job_partial"
  const JobStatusComplete := "perflab_job_complete"
  const JobStatusFailed := "perflab_job_failed"

  /** The error code under which a job failure carries its data. */
  const FailureCode := "perflab_job_failure"

  const MetaKeys := [MetaKeyJobName, MetaKeyJobData, MetaKeyJobAttempts,
                     MetaKeyJobLock, MetaKeyJobErrors, MetaKeyJobStatus]
  const StatusTokens := [JobStatusQueued, JobStatusRunning, JobStatusPartial,
                         JobStatusComplete, JobStatusFailed]

  /** No two of the six meta keys are the same string. */
  lemma MetaKeysDistinct()
    ensures forall i, j :: 0 <= i < j < |MetaKeys| ==> MetaKeys[i] != MetaKeys[j]
  {
  }

  /** No two of the five status tokens are the same string. */
  lemma StatusTokensDistinct()
    ensures forall i, j :: 0 <= i < j < |StatusTokens| ==> StatusTokens[i] != StatusTokens[j]
  {
  }

  datatype Status = Queued | Running | Partial | Complete | Failed

  /** The token a status is persisted as. */
  function Token(s: Status): (t: string)
    ensures t in StatusTokens
  {
    match s
    case Queued => JobStatusQueued
    case Running => JobStatusRunning
    case Partial => JobStatusPartial
    case Complete => JobStatusComplete
    case Failed => JobStatusFailed
  }

  /** The validation `set_status` performs: a string names a status exactly when it is one
      of the five tokens. */
  function ParseStatus(t: string): (r: Option<Status>)
    ensures r.Some? <==> t in StatusTokens
    ensures r.Some? ==> Token(r.value) == t
  {
    if t == JobStatusQueued then Some(Queued)
    else if t == JobStatusRunning then Some(Running)
    else if t == JobStatusPartial then Some(Partial)
    else if t == JobStatusComplete then Some(Complete)
    else if t == JobStatusFailed then Some(Failed)
    else None
  }

  /** Every status survives being persisted and read back, and distinct statuses are
      persisted as distinct tokens. */
  lemma TokenRoundTrip(s: Status, s': Status)
    ensures ParseStatus(Token(s)) == Some(s)
    ensures Token(s) == Token(s') ==> s == s'
  {
  }

  /** A scalar inside a payload (PHP arrays of ints and strings in the tests). */
  datatype Scalar = Int(i: int) | Str(s: string)

  /** A job's data or an error's data: a string-keyed PHP array. */
  type Payload = map<string, Scalar>

  /** What `get_term_meta( $id, $key, true )` returns: "" for a key that is not set. */
  datatype MetaValue = Empty | Number(n: nat) | Text(s: string) | Record(p: Payload)

  /** A `WP_Error`, reduced to the data attached to each error code. */
  datatype WpError = WpError(data: map<string, Payload>) {

    /** `$error->add_data( $d, $code )`. */
    function AddData(d: Payload, code: string): (e: WpError)
      ensures e.GetErrorData(code) == Some(d)
      ensures forall c :: c != code ==> e.GetErrorData(c) == GetErrorData(c)
    {
      WpError(data[code := d])
    }

    /** `$error->get_error_data( $code )`, None where PHP gives null. */
    function GetErrorData(code: string): (r: Option<Payload>)
      ensures r.Some? <==> code in data
      ensures r.Some? ==> r.value == data[code]
    {
      if code in data then Some(data[code]) else None
    }
  }

  /** A `Perflab_Background_Job`. The identity, name and data are fixed at creation; the
      status, attempts, lock and errors are what the job's methods update in place. */
  class Job {
    const id: nat
    const name: string
    const data: Payload
    var status: Status
    var attempts: nat
    var lock: Option<nat>
    var errors: Option<Payload>

    /** Creation: a new term whose status is queued and whose attempts are 0. */
    constructor (id: nat, name: string, data: Payload)
      ensures this.id == id && this.name == name && this.data == data
      ensures status == Queued && attempts == 0 && lock == None && errors == None
    {
      this.id := id;
      this.name := name;
      this.data := data;
      status := Queued;
      attempts := 0;
      lock := None;
      errors := None;
    }

    /** The persisted view: `get_term_meta( $job->get_id(), key, true )`. */
    function TermMeta(key: string): (v: MetaValue)
      reads this
      ensures key !in MetaKeys ==> v == Empty
      ensures v == Empty ==> key !in MetaKeys || key == MetaKeyJobLock || key == MetaKeyJobErrors
      ensures key == MetaKeyJobStatus ==> v.Text? && v.s in StatusTokens
    {
      if key == MetaKeyJobName then Text(name)
      else if key == MetaKeyJobData then Record(data)
      else if key == MetaKeyJobAttempts then Number(attempts)
      else if key == MetaKeyJobLock then
        (match lock case Some(t) => Number(t) case None => Empty)
      else if key == MetaKeyJobErrors then
        (match errors case Some(p) => Record(p) case None => Empty)
      else if key == MetaKeyJobStatus then Text(Token(status))
      else Empty
    }

    /** `get_attempts()`: the count stored under the attempts key. */
    function GetAttempts(): (n: nat)
      reads this
      ensures TermMeta(MetaKeyJobAttempts) == Number(n)
    {
      attempts
    }

    /** `get_start_time()`: the timestamp stored under the lock key, absent when unlocked. */
    function GetStartTime(): (t: Option<nat>)
      reads this
      ensures t.None? <==> TermMeta(MetaKeyJobLock) == Empty
      ensures t.Some? ==> TermMeta(MetaKeyJobLock) == Number(t.value)
    {
      lock
    }

    /** `should_run()`: false exactly when the stored status token is the complete one. */
    function ShouldRun(): (r: bool)
      reads this
      ensures !r <==> TermMeta(MetaKeyJobStatus) == Text(JobStatusComplete)
    {
      status != Complete
    }

    /** `set_status( $status )`: accepts exactly the five tokens. That an invalid token
        leaves the status as it was is an assumption; only the false result is asserted. */
    method SetStatus(newStatus: string) returns (ok: bool)
      modifies this`status
      ensures ok <==> newStatus in StatusTokens
      ensures ok ==> TermMeta(MetaKeyJobStatus) == Text(newStatus)
      ensures !ok ==> status == old(status)
    {
      var parsed := ParseStatus(newStatus);
      ok := parsed.Some?;
      if ok {
        status := parsed.value;
      }
    }

    /** `set_error( $error )`: stores the data attached to the failure code as the job's
        errors, replacing any earlier payload, and counts one more attempt. */
    method SetError(e: WpError)
      modifies this`attempts, this`errors
      ensures attempts == old(attempts) + 1
      ensures errors == e.GetErrorData(FailureCode)
    {
      errors := e.GetErrorData(FailureCode);
      attempts := attempts + 1;
    }

    /** `lock( $time )`: records the lock timestamp. */
    method Lock(time: nat)
      modifies this`lock
      ensures lock == Some(time)
    {
      lock := Some(time);
    }

    /** `unlock()`: removes the lock timestamp; unlocking an unlocked job changes nothing. */
    method Unlock()
      modifies this`lock
      ensures lock == None
    {
      lock := None;
    }
  }
}
