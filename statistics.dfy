/**
 * The statistics computed once a run is over, and the closed-form values of a
 * tandem Jackson network the simulated ones are compared with.
 */
module Statistics {
  import opened Common
  import opened Jobs
  import opened Kernel
  import opened Invariant

  /** The arithmetic mean of a non-empty sequence. */
  function Mean(s: seq<real>): real
    requires |s| > 0
  {
    Sum(s) / |s| as real
  }

  /** The i-th entry of every row. */
  function Column(m: seq<seq<real>>, i: nat): (r: seq<real>)
    requires forall j :: 0 <= j < |m| ==> i < |m[j]|
    ensures |r| == |m|
  {
    seq(|m|, j requires 0 <= j < |m| => m[j][i])
  }

  function RowSums(m: seq<seq<real>>): (r: seq<real>)
    ensures |r| == |m|
  {
    seq(|m|, j requires 0 <= j < |m| => Sum(m[j]))
  }

  function ColumnSums(m: seq<seq<real>>, n: nat): (r: seq<real>)
    requires forall j :: 0 <= j < |m| ==> |m[j]| == n
    ensures |r| == n
  {
    seq(n, i requires 0 <= i < n => Sum(Column(m, i)))
  }

  /** Summing two sequences entry by entry sums their sums. */
  lemma {:induction false} SumPointwise(a: seq<real>, b: seq<real>, c: seq<real>)
    requires |a| == |b| == |c|
    requires forall i :: 0 <= i < |c| ==> c[i] == a[i] + b[i]
    ensures Sum(c) == Sum(a) + Sum(b)
  {
    if c != [] {
      SumPointwise(a[1..], b[1..], c[1..]);
    }
  }

  /** A matrix's entries sum to the same total by rows as by columns. */
  lemma {:induction false} SumExchange(m: seq<seq<real>>, n: nat)
    requires forall j :: 0 <= j < |m| ==> |m[j]| == n
    ensures Sum(RowSums(m)) == Sum(ColumnSums(m, n))
  {
    if m == [] {
      assert ColumnSums(m, n) == seq(n, _ => 0.0);
      ZeroSum(n);
    } else {
      var rest := m[1..];
      SumExchange(rest, n);
      assert RowSums(m)[1..] == RowSums(rest);
      forall i | 0 <= i < n
        ensures ColumnSums(m, n)[i] == m[0][i] + ColumnSums(rest, n)[i]
      {
        assert Column(m, i)[1..] == Column(rest, i);
      }
      SumPointwise(m[0], ColumnSums(rest, n), ColumnSums(m, n));
    }
  }

  lemma {:induction false} ZeroSum(n: nat)
    ensures Sum(seq(n, _ => 0.0)) == 0.0
  {
    if n > 0 {
      assert seq(n, _ => 0.0)[1..] == seq(n - 1, _ => 0.0);
      ZeroSum(n - 1);
    }
  }

  /** Every job's per-queue sojourn times, one row per job. */
  function SojournMatrix(jobs: seq<JobRec>): (r: seq<seq<real>>)
    ensures |r| == |jobs|
  {
    seq(|jobs|, j requires 0 <= j < |jobs| => jobs[j].sojournTimes)
  }

  /** Every job's total sojourn time. */
  function TotalSojourns(jobs: seq<JobRec>): (r: seq<real>)
    ensures |r| == |jobs|
  {
    seq(|jobs|, j requires 0 <= j < |jobs| => jobs[j].overallSojournTime)
  }

  /** Every entry divided by t. */
  function Fractions(xs: seq<real>, t: real): (r: seq<real>)
    requires t != 0.0
    ensures |r| == |xs|
  {
    seq(|xs|, i requires 0 <= i < |xs| => xs[i] / t)
  }

  /** What the statistics pass leaves in the simulator's result fields, besides the utilizations. */
  datatype Summary = Summary(
    meanJobCounts: seq<real>,
    overallMeanJobCount: real,
    meanSojournTimePerQueue: seq<real>,
    overallMeanSojournTime: real,
    throughput: real)

  /**
   * The throughput the statistics pass stores: jobs per unit time for
   * presampled runs; for on-demand runs the simulated time per job, and only
   * when the arrivals are Poisson, the previous value being kept otherwise.
   */
  function Throughput(cfg: Config, elapsed: real, before: real): (r: real)
    requires elapsed != 0.0 && cfg.numJobs >= 1
    ensures cfg.sampling.Presampled? ==> r * elapsed == cfg.numJobs as real
    ensures cfg.sampling.OnDemand? ==>
      if cfg.sampling.nonPoisson then r == before else r * cfg.numJobs as real == elapsed
  {
    match cfg.sampling
    case Presampled(_, _) => cfg.numJobs as real / elapsed
    case OnDemand(_, nonPoisson) => if nonPoisson then before else elapsed / cfg.numJobs as real
  }

  /**
   * The statistics of a finished run: the time-weighted job count per queue
   * divided by the simulated time, their sum over the queues added to the
   * previous overall count, the mean sojourn per queue and overall over all
   * jobs, and the throughput. A run that took no time has no statistics. (The
   * utilizations, busy time over simulated time, are Fractions of the busy
   * times.)
   */
  function Summarize(cfg: Config, s: SimState, overallBefore: real, throughputBefore: real): Result<Summary>
    requires cfg.numJobs >= 1 && Sized(cfg, s) && |s.jobs| >= 1
    requires forall j :: 0 <= j < |s.jobs| ==> |s.jobs[j].sojournTimes| >= cfg.numQueues
  {
    var t := s.currentTime;
    if t == 0.0 then Err(DivisionByZero)
    else
      var q := cfg.numQueues;
      var means := Fractions(s.timeWeightedJobCounts, t);
      Ok(Summary(
        means,
        overallBefore + Sum(means),
        seq(q, i requires 0 <= i < q => Mean(Column(SojournMatrix(s.jobs), i))),
        Mean(TotalSojourns(s.jobs)),
        Throughput(cfg, t, throughputBefore)))
  }

  lemma FractionBounded(a: real, t: real)
    requires 0.0 <= a <= t && t > 0.0
    ensures 0.0 <= a / t <= 1.0
  {
    assert a / t * t == a;
  }

  /** The statistics of a finished run exist exactly when the simulated time is not zero. */
  lemma SummaryExists(cfg: Config, s: SimState, overallBefore: real, throughputBefore: real)
    requires Finalized(cfg, s)
    ensures Summarize(cfg, s, overallBefore, throughputBefore).Ok? <==> s.currentTime > 0.0
  {
  }

  /**
   * At the end of a run, every utilization lies between zero and one, every
   * mean job count is non-negative, and the overall mean job count grows by the
   * total time-weighted count divided by the simulated time.
   */
  lemma SummaryOfQueues(cfg: Config, s: SimState, overallBefore: real, throughputBefore: real)
    requires Finalized(cfg, s)
    ensures var sm := Summarize(cfg, s, overallBefore, throughputBefore);
      sm.Ok? ==>
        && |sm.value.meanJobCounts| == cfg.numQueues
        && (forall q :: 0 <= q < cfg.numQueues ==>
              0.0 <= Fractions(s.queueUtilizations, s.currentTime)[q] <= 1.0 && sm.value.meanJobCounts[q] >= 0.0)
        && sm.value.overallMeanJobCount == overallBefore + Sum(s.timeWeightedJobCounts) / s.currentTime
  {
    var sm := Summarize(cfg, s, overallBefore, throughputBefore);
    if sm.Ok? {
      var t := s.currentTime;
      forall q | 0 <= q < cfg.numQueues
        ensures 0.0 <= Fractions(s.queueUtilizations, t)[q] <= 1.0 && sm.value.meanJobCounts[q] >= 0.0
      {
        FractionBounded(s.queueUtilizations[q], t);
        assert s.timeWeightedJobCounts[q] / t >= 0.0;
      }
      SumDivided(s.timeWeightedJobCounts, sm.value.meanJobCounts, t);
    }
  }

  /**
   * At the end of a run, the overall mean sojourn time is the sum over the
   * queues of the mean sojourn time per queue: a job's total sojourn is the sum
   * of its per-queue sojourns, and averaging commutes with that sum.
   */
  lemma SummaryOfSojourns(cfg: Config, s: SimState, overallBefore: real, throughputBefore: real)
    requires Finalized(cfg, s)
    ensures var sm := Summarize(cfg, s, overallBefore, throughputBefore);
      sm.Ok? ==> sm.value.overallMeanSojournTime == Sum(sm.value.meanSojournTimePerQueue)
  {
    var sm := Summarize(cfg, s, overallBefore, throughputBefore);
    if sm.Ok? {
      var m := SojournMatrix(s.jobs);
      var n := |s.jobs| as real;
      assert TotalSojourns(s.jobs) == RowSums(m);
      SumExchange(m, cfg.numQueues);
      SumDivided(ColumnSums(m, cfg.numQueues), sm.value.meanSojournTimePerQueue, n);
    }
  }
}
