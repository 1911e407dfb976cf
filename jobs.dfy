/**
 * A job's record of its visits through the chain of queues and the per-visit
 * statistics derived from it once the run is over.
 */
module Jobs {
  import opened Common

  /** The value of a Job object's fields. */
  datatype JobRec = JobRec(
    jobId: nat,
    queueIds: seq<nat>,
    arrivalTimes: seq<real>,
    departureTimes: seq<real>,
    serviceTimes: seq<real>,
    waitTimes: seq<real>,
    sojournTimes: seq<real>,
    overallSojournTime: real)

  /** A job as it is created: no visits yet, no statistics. */
  function NewJobRec(jobId: nat): JobRec
  {
    JobRec(jobId, [], [], [], [], [], [], 0.0)
  }

  /** The per-visit lists the statistics read are at least as long as the list of visited queues. */
  predicate HasVisitTimes(j: JobRec)
  {
    && |j.departureTimes| >= |j.queueIds|
    && |j.serviceTimes| >= |j.queueIds|
    && |j.arrivalTimes| >= |j.queueIds|
  }

  function Max0(x: real): real
  {
    if 0.0 >= x then 0.0 else x
  }

  /** Time from arrival to departure, per visit. */
  function Sojourns(j: JobRec): seq<real>
    requires HasVisitTimes(j)
  {
    seq(|j.queueIds|, i requires 0 <= i < |j.queueIds| => j.departureTimes[i] - j.arrivalTimes[i])
  }

  /** Time spent waiting before service, per visit, clamped at zero. */
  function Waits(j: JobRec): seq<real>
    requires HasVisitTimes(j)
  {
    seq(|j.queueIds|, i requires 0 <= i < |j.queueIds| =>
      Max0(j.departureTimes[i] - j.serviceTimes[i] - j.arrivalTimes[i]))
  }

  /** The record after the statistics pass: both lists filled, total sojourn increased by their sum. */
  function WithStats(j: JobRec): JobRec
    requires HasVisitTimes(j)
  {
    j.(waitTimes := Waits(j), sojournTimes := Sojourns(j),
       overallSojournTime := j.overallSojournTime + Sum(Sojourns(j)))
  }

  /** Every visit's departure is at least its arrival plus its service, and service is non-negative. */
  predicate ServedInTime(j: JobRec)
    requires HasVisitTimes(j)
  {
    forall i :: 0 <= i < |j.queueIds| ==>
      j.serviceTimes[i] >= 0.0 && j.departureTimes[i] >= j.arrivalTimes[i] + j.serviceTimes[i]
  }

  /** In a tandem chain the job arrives at the next queue the instant it departs the current one. */
  predicate Chained(j: JobRec)
    requires HasVisitTimes(j)
  {
    forall i :: 0 <= i < |j.queueIds| - 1 ==> j.arrivalTimes[i + 1] == j.departureTimes[i]
  }

  /**
   * The statistics pass produces one wait and one sojourn per visited queue;
   * waits are never negative, and for a job that was served in time the clamp
   * is inactive: the wait is exactly sojourn minus service and at most the sojourn.
   */
  lemma WithStatsFacts(j: JobRec)
    requires HasVisitTimes(j)
    ensures var r := WithStats(j);
      && |r.waitTimes| == |j.queueIds| && |r.sojournTimes| == |j.queueIds|
      && (forall i :: 0 <= i < |j.queueIds| ==> r.waitTimes[i] >= 0.0)
      && (ServedInTime(j) ==> forall i :: 0 <= i < |j.queueIds| ==>
            r.waitTimes[i] == r.sojournTimes[i] - j.serviceTimes[i] && 0.0 <= r.waitTimes[i] <= r.sojournTimes[i])
  {
  }

  /** On a chained job the per-visit sojourns telescope between the first arrival and the i-th departure. */
  lemma {:induction false} SojournsTelescope(j: JobRec, m: nat)
    requires HasVisitTimes(j) && Chained(j)
    requires 0 < m <= |j.queueIds|
    ensures Sum(Sojourns(j)[..m]) == j.departureTimes[m - 1] - j.arrivalTimes[0]
  {
    var s := Sojourns(j);
    if m == 1 {
      assert s[..1] == [s[0]];
      assert s[..1][1..] == [];
    } else {
      SojournsTelescope(j, m - 1);
      assert s[..m] == s[..m - 1] + [s[m - 1]];
      SumAppend(s[..m - 1], [s[m - 1]]);
      assert [s[m - 1]][1..] == [];
    }
  }

  /**
   * The total sojourn the statistics pass leaves on a fresh, chained job that
   * visited at least one queue is its last departure minus its first arrival.
   */
  lemma TotalSojournOfChainedJob(j: JobRec)
    requires HasVisitTimes(j) && Chained(j) && |j.queueIds| > 0
    requires j.overallSojournTime == 0.0
    ensures WithStats(j).overallSojournTime == j.departureTimes[|j.queueIds| - 1] - j.arrivalTimes[0]
  {
    var s := Sojourns(j);
    SojournsTelescope(j, |j.queueIds|);
    assert s[..|j.queueIds|] == s;
  }

  lemma SumPrefixStep(s: seq<real>, i: nat)
    requires i < |s|
    ensures Sum(s[..i + 1]) == Sum(s[..i]) + s[i]
  {
    assert s[..i + 1] == s[..i] + [s[i]];
    SumAppend(s[..i], [s[i]]);
    assert [s[i]][1..] == [];
  }

  /** The Job object: visits are appended by the simulator, statistics computed at the end. */
  class Job {
    const jobId: nat
    var queueIds: seq<nat>
    var arrivalTimes: seq<real>
    var departureTimes: seq<real>
    var serviceTimes: seq<real>
    var waitTimes: seq<real>
    var sojournTimes: seq<real>
    var overallSojournTime: real

    constructor (jobId: nat)
      ensures Rec() == NewJobRec(jobId)
    {
      this.jobId := jobId;
      queueIds := [];
      arrivalTimes := [];
      departureTimes := [];
      serviceTimes := [];
      waitTimes := [];
      sojournTimes := [];
      overallSojournTime := 0.0;
    }

    function Rec(): JobRec
      reads this
    {
      JobRec(jobId, queueIds, arrivalTimes, departureTimes, serviceTimes,
             waitTimes, sojournTimes, overallSojournTime)
    }

    /** Fills the wait and sojourn lists, one entry per visited queue, and accumulates the total sojourn. */
    method CalculateJobStats()
      requires HasVisitTimes(Rec())
      modifies this`waitTimes, this`sojournTimes, this`overallSojournTime
      ensures Rec() == WithStats(old(Rec()))
      ensures |waitTimes| == |queueIds| && |sojournTimes| == |queueIds|
      ensures forall i :: 0 <= i < |queueIds| ==>
        && waitTimes[i] == Max0(departureTimes[i] - serviceTimes[i] - arrivalTimes[i]) >= 0.0
        && sojournTimes[i] == departureTimes[i] - arrivalTimes[i]
      ensures overallSojournTime == old(overallSojournTime) + Sum(sojournTimes)
    {
      var n := |queueIds|;
      ghost var w, soj := Waits(Rec()), Sojourns(Rec());
      waitTimes, sojournTimes := seq(n, _ => 0.0), seq(n, _ => 0.0);
      for i := 0 to n
        invariant |waitTimes| == n && |sojournTimes| == n
        invariant forall k :: 0 <= k < i ==> waitTimes[k] == w[k] && sojournTimes[k] == soj[k]
        invariant overallSojournTime == old(overallSojournTime) + Sum(soj[..i])
      {
        var sojourn := departureTimes[i] - arrivalTimes[i];
        waitTimes, sojournTimes, overallSojournTime :=
          waitTimes[i := Max0(departureTimes[i] - serviceTimes[i] - arrivalTimes[i])],
          sojournTimes[i := sojourn],
          overallSojournTime + sojourn;
        SumPrefixStep(soj, i);
      }
      assert waitTimes == w;
      assert sojournTimes == soj == soj[..n];
    }
  }
}
