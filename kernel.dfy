/**
 * The discrete-event kernel as pure functions over a value of the simulator's
 * state: what one popped event does to queue lengths, the server-free
 * watermarks, busy times, the time-weighted job counts, the job records and the
 * event list. Both simulator variants run this kernel; they differ only in where
 * the random samples come from (Sampling).
 */
module Kernel {
  import opened Common
  import opened Events
  import opened Jobs

  /** What a fresh draw of the random source is for. */
  datatype Draw = InterArrival | Service(queueId: nat)

  /**
   * Where samples come from. Presampled: one inter-arrival time per job and one
   * service time per queue and job, drawn before the run and indexed by job id.
   * OnDemand: the k-th draw of one random stream, whichever purpose asks for it;
   * nonPoisson says the stream draws uniform rather than exponential gaps, which
   * also switches off the comparison with Jackson's formulas.
   */
  datatype Sampling =
    | Presampled(interArrivalTimes: seq<real>, serviceTimes: seq<seq<real>>)
    | OnDemand(draw: (nat, Draw) -> real, nonPoisson: bool)

  datatype Config = Config(numJobs: nat, numQueues: nat, sampling: Sampling)

  /**
   * At least one job and one queue (the first job is created unconditionally and
   * the first queue always exists), samples non-negative, presampled arrays of
   * the sizes the simulator indexes.
   */
  ghost predicate ValidConfig(cfg: Config)
  {
    && cfg.numJobs >= 1
    && cfg.numQueues >= 1
    && match cfg.sampling
       case Presampled(ia, st) =>
         && |ia| == cfg.numJobs
         && |st| == cfg.numQueues
         && (forall k :: 0 <= k < |ia| ==> ia[k] >= 0.0)
         && (forall q :: 0 <= q < |st| ==> |st[q]| == cfg.numJobs)
         && (forall q, k :: 0 <= q < |st| && 0 <= k < |st[q]| ==> st[q][k] >= 0.0)
       case OnDemand(draw, _) =>
         forall k, d :: draw(k, d) >= 0.0
  }

  /** The simulator's run state: clocks, counters, per-queue lists, the jobs and the pending events. */
  datatype SimState = SimState(
    currentTime: real,
    prevEventTime: real,
    nextJobId: nat,
    jobsDone: nat,
    queueLengths: seq<int>,
    queueIdleTimes: seq<real>,
    queueUtilizations: seq<real>,
    timeWeightedJobCounts: seq<real>,
    jobs: seq<JobRec>,
    events: seq<EventRec>,
    draws: nat)

  function Zeros(n: nat): seq<real>
  {
    seq(n, _ => 0.0)
  }

  /** The state right after construction: clocks at zero, every per-queue list all zeros, no jobs, no events. */
  function InitialState(cfg: Config): SimState
  {
    SimState(0.0, 0.0, 0, 0, seq(cfg.numQueues, _ => 0), Zeros(cfg.numQueues),
             Zeros(cfg.numQueues), Zeros(cfg.numQueues), [], [], 0)
  }

  predicate Sized(cfg: Config, s: SimState)
  {
    && |s.queueLengths| == cfg.numQueues
    && |s.queueIdleTimes| == cfg.numQueues
    && |s.queueUtilizations| == cfg.numQueues
    && |s.timeWeightedJobCounts| == cfg.numQueues
  }

  /** The service time of job jobId at queue q. */
  function ServiceSample(cfg: Config, draws: nat, q: nat, jobId: nat): (r: real)
    requires ValidConfig(cfg) && q < cfg.numQueues && jobId < cfg.numJobs
    ensures r >= 0.0
  {
    match cfg.sampling
    case Presampled(_, st) => st[q][jobId]
    case OnDemand(draw, _) => draw(draws, Service(q))
  }

  /** The gap before the arrival of the job about to be created, job jobId. */
  function InterArrivalSample(cfg: Config, draws: nat, jobId: nat): (r: real)
    requires ValidConfig(cfg) && jobId < cfg.numJobs
    ensures r >= 0.0
  {
    match cfg.sampling
    case Presampled(ia, _) => ia[jobId]
    case OnDemand(draw, _) => draw(draws, InterArrival)
  }

  /** The position of the random stream after one sample was taken: an on-demand stream moves on by one draw. */
  function DrawsAfter(cfg: Config, draws: nat): nat
  {
    if cfg.sampling.OnDemand? then draws + 1 else draws
  }

  function Drawn(cfg: Config, s: SimState): SimState
  {
    s.(draws := DrawsAfter(cfg, s.draws))
  }

  /** Every queue's time-weighted count grows by the elapsed time times its current length. */
  function Accumulate(counts: seq<real>, lengths: seq<int>, timeSpent: real): seq<real>
    requires |counts| == |lengths|
  {
    seq(|counts|, i requires 0 <= i < |counts| => counts[i] + timeSpent * lengths[i] as real)
  }

  /** What processing ev indexes: its queue and job exist, and job ids are positions in the job list. */
  ghost predicate CanProcess(cfg: Config, s: SimState, ev: EventRec)
  {
    && ValidConfig(cfg)
    && Sized(cfg, s)
    && ev.eventType.queueId < cfg.numQueues
    && ev.jobId < |s.jobs|
    && |s.jobs| == s.nextJobId <= cfg.numJobs
  }

  /**
   * A new job enters the chain: it records queue 0 and its arrival time, gets the
   * next job id, and its arrival at queue 0 is scheduled one inter-arrival gap
   * after the current time.
   */
  function Admit(cfg: Config, s: SimState): SimState
    requires ValidConfig(cfg) && s.nextJobId < cfg.numJobs
  {
    var t := s.currentTime + InterArrivalSample(cfg, s.draws, s.nextJobId);
    var job := NewJobRec(s.nextJobId).(queueIds := [0], arrivalTimes := [t]);
    Drawn(cfg, s).(
      jobs := s.jobs + [job],
      events := Insert(s.events, EventRec(t, EventType(Arrival, 0), s.nextJobId)),
      nextJobId := s.nextJobId + 1)
  }

  /** The departure time of a job that arrives now and needs service svc at a server free at freeAt. */
  function DepartureTime(now: real, freeAt: real, svc: real): real
  {
    if freeAt > now then freeAt + svc else now + svc
  }

  /**
   * Arrival of a job at queue q, before any admission: one more job there, its
   * service time recorded and added to the queue's busy time, its departure
   * scheduled when the server has finished everything that arrived before it plus
   * this service, and the watermark moved to that time.
   */
  function Serve(cfg: Config, s: SimState, ev: EventRec): SimState
    requires CanProcess(cfg, s, ev)
  {
    var q := ev.eventType.queueId;
    var j := ev.jobId;
    var svc := ServiceSample(cfg, s.draws, q, j);
    var dep := DepartureTime(s.currentTime, s.queueIdleTimes[q], svc);
    var job := s.jobs[j];
    Drawn(cfg, s).(
      queueLengths := s.queueLengths[q := s.queueLengths[q] + 1],
      jobs := s.jobs[j := job.(serviceTimes := job.serviceTimes + [svc])],
      queueUtilizations := s.queueUtilizations[q := s.queueUtilizations[q] + svc],
      queueIdleTimes := s.queueIdleTimes[q := dep],
      events := Insert(s.events, EventRec(dep, EventType(Departure, q), j)))
  }

  /** Arrival of a job: it is served, and an arrival at queue 0 admits the next job while fewer than numJobs exist. */
  function Arrive(cfg: Config, s: SimState, ev: EventRec): SimState
    requires CanProcess(cfg, s, ev)
  {
    var served := Serve(cfg, s, ev);
    if ev.eventType.queueId == 0 && served.nextJobId < cfg.numJobs then Admit(cfg, served) else served
  }

  /**
   * Departure of a job from queue q: one job fewer there, the departure time
   * recorded; the job arrives at queue q + 1 at the same instant, or, at the last
   * queue, counts as done.
   */
  function Depart(cfg: Config, s: SimState, ev: EventRec): SimState
    requires CanProcess(cfg, s, ev)
  {
    var q := ev.eventType.queueId;
    var j := ev.jobId;
    var job := s.jobs[j].(departureTimes := s.jobs[j].departureTimes + [s.currentTime]);
    var left := s.(queueLengths := s.queueLengths[q := s.queueLengths[q] - 1], jobs := s.jobs[j := job]);
    if q != cfg.numQueues - 1 then
      left.(
        events := Insert(s.events, EventRec(s.currentTime, EventType(Arrival, q + 1), j)),
        jobs := s.jobs[j := job.(queueIds := job.queueIds + [q + 1],
                                 arrivalTimes := job.arrivalTimes + [s.currentTime])])
    else
      left.(jobsDone := s.jobsDone + 1)
  }

  /** The state once the time-weighted counts have absorbed timeSpent at the current queue lengths. */
  function Integrated(s: SimState, timeSpent: real): SimState
    requires |s.timeWeightedJobCounts| == |s.queueLengths|
  {
    s.(timeWeightedJobCounts := Accumulate(s.timeWeightedJobCounts, s.queueLengths, timeSpent))
  }

  /** Processing one event: first the integrals over the elapsed time, then the event's effect. */
  function Process(cfg: Config, s: SimState, ev: EventRec, timeSpent: real): SimState
    requires CanProcess(cfg, s, ev)
  {
    var s1 := Integrated(s, timeSpent);
    match ev.eventType.kind
    case Arrival => Arrive(cfg, s1, ev)
    case Departure => Depart(cfg, s1, ev)
  }

  /** The state once the head event is popped and the clock moved to its time. */
  function Popped(s: SimState): SimState
    requires s.events != []
  {
    var ev := s.events[0];
    s.(events := s.events[1..], currentTime := ev.time, prevEventTime := ev.time)
  }

  ghost predicate StepReady(cfg: Config, s: SimState)
  {
    s.events != [] && CanProcess(cfg, s, s.events[0])
  }

  /** One iteration of the event loop: pop the head event, advance the clock, process it. */
  function Step(cfg: Config, s: SimState): SimState
    requires StepReady(cfg, s)
  {
    var ev := s.events[0];
    Process(cfg, Popped(s), ev, ev.time - s.prevEventTime)
  }

  /** The state once the first job is admitted at the start of a run. */
  function Started(cfg: Config): SimState
    requires ValidConfig(cfg)
  {
    Admit(cfg, InitialState(cfg))
  }

  /** The job records after the statistics pass over every job. */
  function JobsWithStats(jobs: seq<JobRec>): seq<JobRec>
    requires forall i :: 0 <= i < |jobs| ==> HasVisitTimes(jobs[i])
  {
    seq(|jobs|, i requires 0 <= i < |jobs| => WithStats(jobs[i]))
  }
}
