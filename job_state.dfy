/** `OpenShiftManager.state`: derives the normalized state of a job from
    the status the cluster reports for it. Reading the job from the cluster
    is not part of this model; its status is the input. */
module JobState {
  import opened Options

  /** A cluster timestamp, passed through without interpretation. */
  type Timestamp = string

  /** One entry of `status.conditions`. */
  datatype Condition = Condition(condType: string, status: string, reason: Option<string>)

  /** `job.status`. An absent condition list is the empty sequence. */
  datatype JobStatus = JobStatus(
    active: nat,
    failed: nat,
    succeeded: nat,
    startTime: Option<Timestamp>,
    completionTime: Option<Timestamp>,
    conditions: seq<Condition>)

  /** The four values of `State`: 'inactive', 'running', 'complete', 'failed'. */
  datatype State = Inactive | Running | Complete | Failed

  /** The `Status` dictionary the source returns. */
  datatype NormalizedStatus = NormalizedStatus(
    message: string,
    state: State,
    reason: Option<string>,
    active: nat,
    failed: nat,
    succeeded: nat,
    startTime: Option<Timestamp>,
    completionTime: Option<Timestamp>)

  /** A condition that reports the job as failed. */
  predicate IsFailure(c: Condition) {
    c.condType == "Failed" && c.status == "True"
  }

  /** Condition `k` is the first failure in `cs`. */
  predicate FirstFailure(cs: seq<Condition>, k: int) {
    0 <= k < |cs| && IsFailure(cs[k]) && forall j :: 0 <= j < k ==> !IsFailure(cs[j])
  }

  /** Some condition in `cs` reports a failure. */
  predicate AnyFailure(cs: seq<Condition>) {
    exists k :: 0 <= k < |cs| && IsFailure(cs[k])
  }

  /** The job has finished with at least one success. */
  predicate Finished(s: JobStatus) {
    s.completionTime.Some? && s.succeeded > 0
  }

  /** Scans the conditions in order and stops at the first failure; without
      one, completion beats activity, which beats inactivity. The counters
      and timestamps pass through unchanged. */
  method DeriveState(status: JobStatus) returns (r: NormalizedStatus)
    ensures r.active == status.active && r.failed == status.failed && r.succeeded == status.succeeded
    ensures r.startTime == status.startTime && r.completionTime == status.completionTime
    // a failure condition takes precedence over every counter
    ensures r.state == Failed <==> AnyFailure(status.conditions)
    ensures r.state == Failed ==>
              r.message == "started" &&
              exists k :: FirstFailure(status.conditions, k) && r.reason == status.conditions[k].reason
    ensures r.state != Failed ==> r.reason == None
    ensures r.state == Complete <==> !AnyFailure(status.conditions) && Finished(status)
    ensures r.state == Complete ==> r.message == "finished"
    ensures r.state == Running <==>
              !AnyFailure(status.conditions) && !Finished(status) && status.active > 0
    ensures r.state == Running ==> r.message == "started"
    ensures r.state == Inactive ==> r.message == "inactive"
  {
    var cs := status.conditions;
    var message := "";
    var state: Option<State> := None;
    var reason: Option<string> := None;
    var i := 0;
    while i < |cs|
      invariant 0 <= i <= |cs|
      invariant forall j :: 0 <= j < i ==> !IsFailure(cs[j])
      invariant state == None && reason == None
    {
      if IsFailure(cs[i]) {
        message := "started";
        reason := cs[i].reason;
        state := Some(Failed);
        assert FirstFailure(cs, i);
        break;
      }
      i := i + 1;
    }
    if state == None {
      if Finished(status) {
        message := "finished";
        state := Some(Complete);
      } else if status.active > 0 {
        message := "started";
        state := Some(Running);
      } else {
        message := "inactive";
        state := Some(Inactive);
      }
    }
    r := NormalizedStatus(message, state.value, reason, status.active, status.failed,
                          status.succeeded, status.startTime, status.completionTime);
  }
}
