/**
 * The simulator object: its fields hold the run state, its event stack is the
 * linked list of pending events, and every method is proved to change the
 * fields exactly as the kernel's function for that step says.
 */
module Simulation {
  import opened Common
  import opened Events
  import opened Jobs
  import opened Kernel
  import opened Invariant
  import opened Statistics
  import opened Jackson

  lemma AdmitUnfolded(cfg: Config, s: SimState, t: real)
    requires ValidConfig(cfg) && s.nextJobId < cfg.numJobs
    requires t == s.currentTime + InterArrivalSample(cfg, s.draws, s.nextJobId)
    ensures Admit(cfg, s) == Drawn(cfg, s).(
      jobs := s.jobs + [NewJobRec(s.nextJobId).(queueIds := [0], arrivalTimes := [t])],
      events := Insert(s.events, EventRec(t, EventType(Arrival, 0), s.nextJobId)),
      nextJobId := s.nextJobId + 1)
  {
  }

  lemma ServeUnfolded(cfg: Config, s: SimState, ev: EventRec, svc: real, dep: real)
    requires CanProcess(cfg, s, ev)
    requires svc == ServiceSample(cfg, s.draws, ev.eventType.queueId, ev.jobId)
    requires dep == DepartureTime(s.currentTime, s.queueIdleTimes[ev.eventType.queueId], svc)
    ensures var q := ev.eventType.queueId; var j := ev.jobId;
      Serve(cfg, s, ev) == Drawn(cfg, s).(
        queueLengths := s.queueLengths[q := s.queueLengths[q] + 1],
        jobs := s.jobs[j := s.jobs[j].(serviceTimes := s.jobs[j].serviceTimes + [svc])],
        queueUtilizations := s.queueUtilizations[q := s.queueUtilizations[q] + svc],
        queueIdleTimes := s.queueIdleTimes[q := dep],
        events := Insert(s.events, EventRec(dep, EventType(Departure, q), j)))
  {
  }

  lemma DepartUnfolded(cfg: Config, s: SimState, ev: EventRec)
    requires CanProcess(cfg, s, ev)
    ensures var q := ev.eventType.queueId; var j := ev.jobId;
      var job := s.jobs[j].(departureTimes := s.jobs[j].departureTimes + [s.currentTime]);
      var lengths := s.queueLengths[q := s.queueLengths[q] - 1];
      Depart(cfg, s, ev) ==
        if q != cfg.numQueues - 1 then
          s.(queueLengths := lengths,
             jobs := s.jobs[j := job.(queueIds := job.queueIds + [q + 1],
                                      arrivalTimes := job.arrivalTimes + [s.currentTime])],
             events := Insert(s.events, EventRec(s.currentTime, EventType(Arrival, q + 1), j)))
        else
          s.(queueLengths := lengths, jobs := s.jobs[j := job], jobsDone := s.jobsDone + 1)
  {
  }

  /** A step is the head event's arrival or departure effect on the popped, integrated state. */
  lemma StepUnfolded(cfg: Config, before: SimState, s: SimState)
    requires StepReady(cfg, before)
    requires s == Integrated(Popped(before), before.events[0].time - before.prevEventTime)
    ensures CanProcess(cfg, s, before.events[0])
    ensures Step(cfg, before) == if before.events[0].eventType.kind == Arrival then Arrive(cfg, s, before.events[0])
                                 else Depart(cfg, s, before.events[0])
  {
  }

  /** While jobs remain, the run from a state is the run from its successor. */
  lemma RunStep(cfg: Config, s: SimState)
    requires Inv(cfg, s) && s.jobsDone < cfg.numJobs
    ensures StepReady(cfg, s) && Inv(cfg, Step(cfg, s))
    ensures Measure(cfg, Step(cfg, s)) < Measure(cfg, s)
    ensures RunFrom(cfg, s) == RunFrom(cfg, Step(cfg, s))
  {
    StepPreserves(cfg, s);
  }

  /** Once every job is done, every job record holds the per-visit lists its statistics read. */
  lemma DoneJobsHaveVisitTimes(cfg: Config, s: SimState)
    requires Inv(cfg, s) && s.jobsDone >= cfg.numJobs
    ensures forall j :: 0 <= j < |s.jobs| ==> HasVisitTimes(s.jobs[j])
  {
    Finished(cfg, s);
  }

  /** A whole run is the loop's final state with every job's statistics computed. */
  lemma SimulatedUnfolded(cfg: Config, fin: SimState)
    requires ValidConfig(cfg) && Inv(cfg, Started(cfg)) && fin == RunFrom(cfg, Started(cfg))
    requires forall i :: 0 <= i < |fin.jobs| ==> HasVisitTimes(fin.jobs[i])
    ensures Simulated(cfg) == fin.(jobs := JobsWithStats(fin.jobs))
  {
  }

  /**
   * The comparison with the analytic network the statistics pass makes: only
   * for on-demand runs with Poisson arrivals; other runs compare nothing.
   */
  function Comparisons(cfg: Config, arrivalRates: seq<Option<real>>, serviceRates: seq<Option<real>>,
                       utils: seq<real>, means: seq<real>, sojourns: seq<real>): (r: Result<seq<Comparison>>)
    requires cfg.numQueues <= |utils| && cfg.numQueues <= |means| && cfg.numQueues <= |sojourns|
    ensures !(cfg.sampling.OnDemand? && !cfg.sampling.nonPoisson) ==> r == Ok([])
    ensures cfg.sampling.OnDemand? && !cfg.sampling.nonPoisson && cfg.numQueues > 0 ==>
      (r.Ok? <==>
         && arrivalRates != [] && arrivalRates[0].Some? && |serviceRates| >= cfg.numQueues
         && forall i :: 0 <= i < cfg.numQueues ==>
              serviceRates[i].Some? && serviceRates[i].value != 0.0 && serviceRates[i].value != arrivalRates[0].value)
  {
    if cfg.sampling.OnDemand? && !cfg.sampling.nonPoisson then
      if cfg.numQueues > 0 then
        JacksonCheckMatches(arrivalRates, serviceRates, cfg.numQueues, utils, means, sojourns);
        JacksonCheck(arrivalRates, serviceRates, cfg.numQueues, utils, means, sojourns)
      else JacksonCheck(arrivalRates, serviceRates, cfg.numQueues, utils, means, sojourns)
    else Ok([])
  }

  /**
   * What the statistics pass yields: the comparisons, and for on-demand Poisson
   * runs the expected inter-arrival time 1 / lambda must exist as well.
   */
  function Outcome(cfg: Config, check: Result<seq<Comparison>>, arrivalRates: seq<Option<real>>): Result<seq<Comparison>>
  {
    match check
    case Err(e) => Err(e)
    case Ok(cs) =>
      if cfg.sampling.OnDemand? && !cfg.sampling.nonPoisson then
        match InterArrivalMean(arrivalRates)
        case Err(e) => Err(e)
        case Ok(_) => Ok(cs)
      else Ok(cs)
  }

  class TandemQueueSimulator {
    const cfg: Config
    const arrivalRates: seq<Option<real>>
    const serviceRates: seq<Option<real>>
    const jacksonSystemThroughput: Option<real>
    const eventStack: EventStack

    var currentTime: real
    var prevEventTime: real
    var nextJobId: nat
    var jobsDone: nat
    var queueLengths: seq<int>
    var queueIdleTimes: seq<real>
    var queueUtilizations: seq<real>
    var timeWeightedJobCounts: seq<real>
    var jobs: seq<JobRec>
    var draws: nat

    var meanJobCounts: seq<real>
    var overallMeanJobCount: real
    var meanSojournTimePerQueue: seq<real>
    var overallMeanSojournTime: real
    var throughput: real

    var jacksonUtilization: seq<real>
    var jacksonAvgQueueLength: seq<real>
    var jacksonMeanSojournTimePerQueue: seq<real>
    var jacksonAvgJobsInSystem: real
    var jacksonMeanSojournTimeInSystem: real

    /** The event stack is well formed and does not contain the simulator. */
    ghost predicate Valid()
      reads eventStack, eventStack.Repr
    {
      this !in eventStack.Repr && eventStack.Valid()
    }

    /** The run state the fields and the event stack hold. */
    ghost function State(): SimState
      reads this, eventStack
    {
      SimState(currentTime, prevEventTime, nextJobId, jobsDone, queueLengths, queueIdleTimes,
               queueUtilizations, timeWeightedJobCounts, jobs, eventStack.Contents(), draws)
    }

    /** The statistics fields besides the utilizations. */
    function Stats(): Summary
      reads this
    {
      Summary(meanJobCounts, overallMeanJobCount, meanSojournTimePerQueue, overallMeanSojournTime, throughput)
    }

    /** The analytic fields. */
    function JacksonValues(): Network
      reads this
    {
      Network(jacksonUtilization, jacksonAvgQueueLength, jacksonMeanSojournTimePerQueue,
              jacksonAvgJobsInSystem, jacksonMeanSojournTimeInSystem)
    }

    /**
     * A simulator with the given configuration and rates: clocks at zero, all
     * per-queue lists zero, no jobs, an empty event stack, every statistic zero.
     */
    constructor (cfg: Config, arrivalRates: seq<Option<real>>, serviceRates: seq<Option<real>>,
                 jacksonSystemThroughput: Option<real>)
      ensures Valid() && fresh(eventStack) && fresh(eventStack.Repr)
      ensures this.cfg == cfg && this.arrivalRates == arrivalRates && this.serviceRates == serviceRates
      ensures this.jacksonSystemThroughput == jacksonSystemThroughput
      ensures State() == InitialState(cfg)
      ensures Stats() == Summary(Zeros(cfg.numQueues), 0.0, Zeros(cfg.numQueues), 0.0, 0.0)
      ensures JacksonValues() == Network(Zeros(cfg.numQueues), Zeros(cfg.numQueues), Zeros(cfg.numQueues), 0.0, 0.0)
    {
      this.cfg := cfg;
      this.arrivalRates := arrivalRates;
      this.serviceRates := serviceRates;
      this.jacksonSystemThroughput := jacksonSystemThroughput;
      eventStack := new EventStack();
      currentTime := 0.0;
      prevEventTime := 0.0;
      nextJobId := 0;
      jobsDone := 0;
      jobs := [];
      draws := 0;
      queueLengths := seq(cfg.numQueues, _ => 0);
      queueIdleTimes := Zeros(cfg.numQueues);
      queueUtilizations := Zeros(cfg.numQueues);
      timeWeightedJobCounts := Zeros(cfg.numQueues);
      meanJobCounts := Zeros(cfg.numQueues);
      overallMeanJobCount := 0.0;
      meanSojournTimePerQueue := Zeros(cfg.numQueues);
      overallMeanSojournTime := 0.0;
      throughput := 0.0;
      jacksonUtilization := Zeros(cfg.numQueues);
      jacksonAvgQueueLength := Zeros(cfg.numQueues);
      jacksonMeanSojournTimePerQueue := Zeros(cfg.numQueues);
      jacksonAvgJobsInSystem := 0.0;
      jacksonMeanSojournTimeInSystem := 0.0;
    }

    /** Links a fresh event into the stack; nothing else changes. */
    method Schedule(e: Event)
      requires Valid() && e !in eventStack.Repr && e.next == null && e.prev == null
      modifies eventStack.Repr, e
      ensures Valid() && eventStack.Repr == old(eventStack.Repr) + {e}
      ensures State() == old(State()).(events := Insert(old(State()).events, e.Rec()))
    {
      eventStack.InsertEvent(e);
    }

    /**
     * Admission of the next job: a job with the next id, visiting queue 0 and
     * arriving one inter-arrival gap after the current time, and its arrival
     * event.
     */
    method AdmitJob()
      requires Valid() && ValidConfig(cfg) && nextJobId < cfg.numJobs
      modifies this`draws, this`jobs, this`nextJobId, eventStack.Repr
      ensures Valid() && fresh(eventStack.Repr - old(eventStack.Repr))
      ensures State() == Admit(cfg, old(State()))
    {
      ghost var s := State();
      var t := currentTime + InterArrivalSample(cfg, draws, nextJobId);
      var e := new Event(t, EventType(Arrival, 0), nextJobId);
      Schedule(e);
      draws, jobs, nextJobId :=
        DrawsAfter(cfg, draws), jobs + [NewJobRec(nextJobId).(queueIds := [0], arrivalTimes := [t])], nextJobId + 1;
      AdmitUnfolded(cfg, s, t);
    }

    /**
     * The queue's side of an arrival: one more job at the event's queue, the
     * service time drawn, recorded on the job and added to the busy time, and
     * the server's free time moved to the departure time returned.
     */
    method AcceptArrival(event: Event) returns (serviceTime: real, departureTime: real)
      requires Valid() && CanProcess(cfg, State(), event.Rec())
      modifies this`queueLengths, this`draws, this`jobs, this`queueUtilizations, this`queueIdleTimes
      ensures Valid()
      ensures var q := event.eventType.queueId;
        && serviceTime == ServiceSample(cfg, old(draws), q, event.jobId)
        && departureTime == DepartureTime(old(currentTime), old(queueIdleTimes)[q], serviceTime)
      ensures var s := old(State()); var q := event.eventType.queueId; var j := event.jobId;
        State() == Drawn(cfg, s).(
          queueLengths := s.queueLengths[q := s.queueLengths[q] + 1],
          jobs := s.jobs[j := s.jobs[j].(serviceTimes := s.jobs[j].serviceTimes + [serviceTime])],
          queueUtilizations := s.queueUtilizations[q := s.queueUtilizations[q] + serviceTime],
          queueIdleTimes := s.queueIdleTimes[q := departureTime])
    {
      var q := event.eventType.queueId;
      var j := event.jobId;
      serviceTime := ServiceSample(cfg, draws, q, j);
      departureTime := currentTime + serviceTime;
      if queueIdleTimes[q] > currentTime {
        departureTime := queueIdleTimes[q] + serviceTime;
      }
      queueLengths, draws, jobs, queueUtilizations, queueIdleTimes :=
        queueLengths[q := queueLengths[q] + 1],
        DrawsAfter(cfg, draws),
        jobs[j := jobs[j].(serviceTimes := jobs[j].serviceTimes + [serviceTime])],
        queueUtilizations[q := queueUtilizations[q] + serviceTime],
        queueIdleTimes[q := departureTime];
    }

    /**
     * Arrival of job j at queue q: the queue accepts the job, and its
     * departure is scheduled for when the server has finished.
     */
    method ServeJob(event: Event)
      requires Valid() && CanProcess(cfg, State(), event.Rec())
      modifies this`queueLengths, this`draws, this`jobs, this`queueUtilizations, this`queueIdleTimes, eventStack.Repr
      ensures Valid() && fresh(eventStack.Repr - old(eventStack.Repr))
      ensures State() == Serve(cfg, old(State()), event.Rec())
    {
      ghost var s := State();
      var serviceTime, departureTime := AcceptArrival(event);
      var e := new Event(departureTime, EventType(Departure, event.eventType.queueId), event.jobId);
      Schedule(e);
      ServeUnfolded(cfg, s, event.Rec(), serviceTime, departureTime);
    }

    /** Arrival of a job: it is served, and an arrival at queue 0 admits the next job while fewer than numJobs exist. */
    method ArriveJob(event: Event)
      requires Valid() && CanProcess(cfg, State(), event.Rec())
      modifies this`queueLengths, this`draws, this`jobs, this`queueUtilizations, this`queueIdleTimes, this`nextJobId
      modifies eventStack.Repr
      ensures Valid() && fresh(eventStack.Repr - old(eventStack.Repr))
      ensures State() == Arrive(cfg, old(State()), event.Rec())
    {
      ServeJob(event);
      if event.eventType.queueId == 0 && nextJobId < cfg.numJobs {
        AdmitJob();
      }
    }

    /** The queue's side of a departure: one job fewer at the event's queue and the departure time recorded on the job. */
    method LeaveQueue(event: Event)
      requires Valid() && CanProcess(cfg, State(), event.Rec())
      modifies this`queueLengths, this`jobs
      ensures Valid()
      ensures var s := old(State()); var q := event.eventType.queueId; var j := event.jobId;
        State() == s.(
          queueLengths := s.queueLengths[q := s.queueLengths[q] - 1],
          jobs := s.jobs[j := s.jobs[j].(departureTimes := s.jobs[j].departureTimes + [s.currentTime])])
    {
      var q := event.eventType.queueId;
      var j := event.jobId;
      queueLengths, jobs :=
        queueLengths[q := queueLengths[q] - 1],
        jobs[j := jobs[j].(departureTimes := jobs[j].departureTimes + [currentTime])];
    }

    /** Records on job j a visit of queue q starting at the current time. */
    method EnterQueue(j: nat, q: nat)
      requires Valid() && j < |jobs|
      modifies this`jobs
      ensures Valid()
      ensures var s := old(State());
        State() == s.(jobs := s.jobs[j := s.jobs[j].(queueIds := s.jobs[j].queueIds + [q],
                                                     arrivalTimes := s.jobs[j].arrivalTimes + [s.currentTime])])
    {
      jobs := jobs[j := jobs[j].(queueIds := jobs[j].queueIds + [q], arrivalTimes := jobs[j].arrivalTimes + [currentTime])];
    }

    /** A job leaving queue q arrives at queue q + 1 at once: its arrival is scheduled and the visit recorded. */
    method Forward(event: Event)
      requires Valid() && CanProcess(cfg, State(), event.Rec())
      modifies this`jobs, eventStack.Repr
      ensures Valid() && fresh(eventStack.Repr - old(eventStack.Repr))
      ensures var s := old(State()); var q := event.eventType.queueId; var j := event.jobId;
        State() == s.(
          jobs := s.jobs[j := s.jobs[j].(queueIds := s.jobs[j].queueIds + [q + 1],
                                         arrivalTimes := s.jobs[j].arrivalTimes + [s.currentTime])],
          events := Insert(s.events, EventRec(s.currentTime, EventType(Arrival, q + 1), j)))
    {
      var q := event.eventType.queueId;
      var j := event.jobId;
      var e := new Event(currentTime, EventType(Arrival, q + 1), j);
      Schedule(e);
      EnterQueue(j, q + 1);
    }

    /**
     * Departure of job j from queue q: the queue lets the job go; the job then
     * arrives at queue q + 1 at once, or, at the last queue, counts as done.
     */
    method DepartJob(event: Event)
      requires Valid() && CanProcess(cfg, State(), event.Rec())
      modifies this`queueLengths, this`jobs, this`jobsDone, eventStack.Repr
      ensures Valid() && fresh(eventStack.Repr - old(eventStack.Repr))
      ensures State() == Depart(cfg, old(State()), event.Rec())
    {
      ghost var s := State();
      var q := event.eventType.queueId;
      LeaveQueue(event);
      if q != cfg.numQueues - 1 {
        Forward(event);
      }
      if q == cfg.numQueues - 1 {
        jobsDone := jobsDone + 1;
      }
      DepartUnfolded(cfg, s, event.Rec());
    }

    /** Every queue's time-weighted count absorbs timeSpent at the queue's current length. */
    method Integrate(timeSpent: real)
      requires Valid() && Sized(cfg, State())
      modifies this`timeWeightedJobCounts
      ensures Valid()
      ensures State() == Integrated(old(State()), timeSpent)
    {
      ghost var s0 := State();
      for i := 0 to cfg.numQueues
        invariant |timeWeightedJobCounts| == cfg.numQueues
        invariant forall k :: 0 <= k < i ==>
          timeWeightedJobCounts[k] == s0.timeWeightedJobCounts[k] + timeSpent * s0.queueLengths[k] as real
        invariant forall k :: i <= k < cfg.numQueues ==> timeWeightedJobCounts[k] == s0.timeWeightedJobCounts[k]
      {
        timeWeightedJobCounts := timeWeightedJobCounts[i := timeWeightedJobCounts[i] + timeSpent * queueLengths[i] as real];
      }
      ghost var acc := Accumulate(s0.timeWeightedJobCounts, s0.queueLengths, timeSpent);
      assert |acc| == |timeWeightedJobCounts|;
      assert forall k :: 0 <= k < |acc| ==> timeWeightedJobCounts[k] == acc[k];
      assert timeWeightedJobCounts == acc;
    }

    /**
     * Processing one event: every queue's time-weighted count absorbs the
     * elapsed time at its current length, then the event's arrival or
     * departure takes effect. The event was just popped off the state before,
     * timeSpent has passed since the previous event, and the result is
     * Step(cfg, before), which is Process applied to exactly these.
     */
    method ProcessEvent(event: Event, timeSpent: real, ghost before: SimState)
      requires Valid() && StepReady(cfg, before)
      requires State() == Popped(before) && event.Rec() == before.events[0]
      requires timeSpent == event.time - before.prevEventTime && CanProcess(cfg, State(), event.Rec())
      modifies this`timeWeightedJobCounts, this`queueLengths, this`draws, this`jobs, this`queueUtilizations
      modifies this`queueIdleTimes, this`nextJobId, this`jobsDone, eventStack.Repr
      ensures Valid() && fresh(eventStack.Repr - old(eventStack.Repr))
      ensures State() == Step(cfg, before)
    {
      Integrate(timeSpent);
      StepUnfolded(cfg, before, State());
      ApplyEvent(event);
    }

    /** The event's arrival or departure takes effect. */
    method ApplyEvent(event: Event)
      requires Valid() && CanProcess(cfg, State(), event.Rec())
      modifies this`queueLengths, this`draws, this`jobs, this`queueUtilizations
      modifies this`queueIdleTimes, this`nextJobId, this`jobsDone, eventStack.Repr
      ensures Valid() && fresh(eventStack.Repr - old(eventStack.Repr))
      ensures State() == if event.eventType.kind == Arrival then Arrive(cfg, old(State()), event.Rec())
                         else Depart(cfg, old(State()), event.Rec())
    {
      if event.eventType.kind == Arrival {
        ArriveJob(event);
      } else {
        DepartJob(event);
      }
    }

    /** The head event is popped and the clock moves to its time; the time elapsed since the previous event is returned. */
    method PopNext() returns (event: Event, timeSpent: real)
      requires Valid() && State().events != []
      modifies this`currentTime, this`prevEventTime, eventStack.Repr
      ensures Valid() && eventStack.Repr <= old(eventStack.Repr)
      ensures event.Rec() == old(State()).events[0]
      ensures timeSpent == event.time - old(prevEventTime)
      ensures State() == Popped(old(State()))
    {
      ghost var s := State();
      var e := eventStack.PopEvent();
      event := e;
      assert event.Rec() == s.events[0];
      timeSpent := event.time - prevEventTime;
      currentTime, prevEventTime := event.time, event.time;
    }

    /**
     * One iteration of the event loop: the head event is popped, the clock
     * moves to its time, and the event is processed. While jobs remain the
     * stack is not empty, so the pop yields an event.
     */
    method HandleNext()
      requires Valid() && StepReady(cfg, State())
      modifies this`currentTime, this`prevEventTime, this`nextJobId, this`jobsDone, this`queueLengths
      modifies this`queueIdleTimes, this`queueUtilizations, this`timeWeightedJobCounts, this`jobs, this`draws
      modifies eventStack.Repr
      ensures Valid() && fresh(eventStack.Repr - old(eventStack.Repr))
      ensures State() == Step(cfg, old(State()))
    {
      var event, timeSpent := PopNext();
      ProcessEvent(event, timeSpent, old(State()));
    }

    /** The events are handled until every job is done. */
    method RunEvents()
      requires Valid() && Inv(cfg, State())
      modifies this`currentTime, this`prevEventTime, this`nextJobId, this`jobsDone, this`queueLengths
      modifies this`queueIdleTimes, this`queueUtilizations, this`timeWeightedJobCounts, this`jobs, this`draws
      modifies eventStack.Repr
      ensures Valid() && fresh(eventStack.Repr - old(eventStack.Repr))
      ensures State() == RunFrom(cfg, old(State()))
    {
      while jobsDone < cfg.numJobs
        invariant Valid() && fresh(eventStack.Repr - old(eventStack.Repr))
        invariant Inv(cfg, State())
        invariant RunFrom(cfg, State()) == RunFrom(cfg, old(State()))
        decreases Measure(cfg, State())
      {
        RunStep(cfg, State());
        HandleNext();
      }
    }

    /** Every job computes its statistics. */
    method FinishJobs()
      requires forall j :: 0 <= j < |jobs| ==> HasVisitTimes(jobs[j])
      modifies this`jobs
      ensures jobs == JobsWithStats(old(jobs))
    {
      for i := 0 to |jobs|
        invariant |jobs| == |old(jobs)|
        invariant forall k :: 0 <= k < i ==> jobs[k] == WithStats(old(jobs)[k])
        invariant forall k :: i <= k < |jobs| ==> jobs[k] == old(jobs)[k]
      {
        jobs := jobs[i := WithStats(jobs[i])];
      }
      assert jobs == JobsWithStats(old(jobs));
    }

    /** The first job is admitted at queue 0: the run state is then the start state, which satisfies the invariant. */
    method StartRun()
      requires Valid() && ValidConfig(cfg) && State() == InitialState(cfg)
      modifies this`draws, this`jobs, this`nextJobId, eventStack.Repr
      ensures Valid() && fresh(eventStack.Repr - old(eventStack.Repr))
      ensures State() == Started(cfg) && Inv(cfg, State())
    {
      AdmitJob();
      StartEstablishes(cfg);
    }

    /** The first job is admitted, then the events are handled until every job is done. */
    method RunJobs()
      requires Valid() && ValidConfig(cfg) && State() == InitialState(cfg)
      modifies this`currentTime, this`prevEventTime, this`nextJobId, this`jobsDone, this`queueLengths
      modifies this`queueIdleTimes, this`queueUtilizations, this`timeWeightedJobCounts, this`jobs, this`draws
      modifies eventStack.Repr
      ensures Valid() && fresh(eventStack.Repr - old(eventStack.Repr))
      ensures Inv(cfg, Started(cfg)) && State() == RunFrom(cfg, Started(cfg))
    {
      StartRun();
      RunEvents();
    }

    /**
     * A whole run: the first job is admitted at queue 0, the events are
     * handled until every job is done, then every job computes its
     * statistics.
     */
    method RunSimulation()
      requires Valid() && ValidConfig(cfg) && State() == InitialState(cfg)
      modifies this`currentTime, this`prevEventTime, this`nextJobId, this`jobsDone, this`queueLengths
      modifies this`queueIdleTimes, this`queueUtilizations, this`timeWeightedJobCounts, this`jobs, this`draws
      modifies eventStack.Repr
      ensures Valid() && fresh(eventStack.Repr - old(eventStack.Repr))
      ensures State() == Simulated(cfg)
    {
      RunJobs();
      ghost var fin := State();
      DoneJobsHaveVisitTimes(cfg, fin);
      FinishJobs();
      SimulatedUnfolded(cfg, fin);
    }

    /**
     * Queue i's statistics: its busy time and time-weighted job count divided
     * by the simulated time, the mean job count added to the overall count, and
     * the mean over all jobs of their sojourn time at queue i.
     */
    method AverageQueue(i: nat)
      requires currentTime != 0.0 && |jobs| >= 1
      requires i < |queueUtilizations| && i < |timeWeightedJobCounts| && i < |meanJobCounts| && i < |meanSojournTimePerQueue|
      requires forall j :: 0 <= j < |jobs| ==> i < |jobs[j].sojournTimes|
      modifies this`queueUtilizations, this`meanJobCounts, this`overallMeanJobCount, this`meanSojournTimePerQueue
      ensures queueUtilizations == old(queueUtilizations)[i := old(queueUtilizations)[i] / currentTime]
      ensures meanJobCounts == old(meanJobCounts)[i := timeWeightedJobCounts[i] / currentTime]
      ensures overallMeanJobCount == old(overallMeanJobCount) + meanJobCounts[i]
      ensures meanSojournTimePerQueue == old(meanSojournTimePerQueue)[i := Mean(Column(SojournMatrix(jobs), i))]
    {
      var m := timeWeightedJobCounts[i] / currentTime;
      queueUtilizations, meanJobCounts, overallMeanJobCount, meanSojournTimePerQueue :=
        queueUtilizations[i := queueUtilizations[i] / currentTime],
        meanJobCounts[i := m],
        overallMeanJobCount + m,
        meanSojournTimePerQueue[i := Mean(Column(SojournMatrix(jobs), i))];
    }

    /**
     * The per-queue part of the statistics pass: utilization and time-weighted
     * job count divided by the simulated time, each mean job count added to the
     * overall count, and the mean sojourn time at each queue over all jobs.
     */
    method PerQueueStatistics()
      requires cfg.numJobs >= 1 && Sized(cfg, State()) && currentTime != 0.0
      requires |jobs| >= 1 && forall j :: 0 <= j < |jobs| ==> |jobs[j].sojournTimes| >= cfg.numQueues
      requires |meanJobCounts| == cfg.numQueues && |meanSojournTimePerQueue| == cfg.numQueues
      modifies this`queueUtilizations, this`meanJobCounts, this`overallMeanJobCount, this`meanSojournTimePerQueue
      ensures queueUtilizations == Fractions(old(queueUtilizations), currentTime)
      ensures meanJobCounts == Fractions(timeWeightedJobCounts, currentTime)
      ensures overallMeanJobCount == old(overallMeanJobCount) + Sum(meanJobCounts)
      ensures |meanSojournTimePerQueue| == cfg.numQueues
      ensures forall i :: 0 <= i < cfg.numQueues ==> meanSojournTimePerQueue[i] == Mean(Column(SojournMatrix(jobs), i))
    {
      var q := cfg.numQueues;
      for i := 0 to q
        invariant |queueUtilizations| == |meanJobCounts| == |meanSojournTimePerQueue| == q
        invariant forall k :: 0 <= k < i ==> queueUtilizations[k] == old(queueUtilizations)[k] / currentTime
        invariant forall k :: i <= k < q ==> queueUtilizations[k] == old(queueUtilizations)[k]
        invariant meanJobCounts[..i] == Fractions(timeWeightedJobCounts, currentTime)[..i]
        invariant overallMeanJobCount == old(overallMeanJobCount) + Sum(meanJobCounts[..i])
        invariant forall k :: 0 <= k < i ==> meanSojournTimePerQueue[k] == Mean(Column(SojournMatrix(jobs), k))
      {
        AverageQueue(i);
        assert meanJobCounts[..i + 1] == meanJobCounts[..i] + [meanJobCounts[i]];
        SumAppend(meanJobCounts[..i], [meanJobCounts[i]]);
        assert Sum([meanJobCounts[i]]) == meanJobCounts[i];
      }
      assert meanJobCounts == meanJobCounts[..q];
      assert queueUtilizations == Fractions(old(queueUtilizations), currentTime);
    }

    /**
     * The comparison of every queue with its analytic station, in queue order,
     * stopping at the first queue that cannot be compared. Nothing changes.
     */
    method CompareWithJackson() returns (r: Result<seq<Comparison>>)
      requires cfg.numQueues <= |queueUtilizations| && cfg.numQueues <= |meanJobCounts|
      requires cfg.numQueues <= |meanSojournTimePerQueue|
      ensures r == JacksonCheck(arrivalRates, serviceRates, cfg.numQueues,
                                queueUtilizations, meanJobCounts, meanSojournTimePerQueue)
    {
      var comparisons := [];
      if cfg.numQueues > 0 {
        if arrivalRates == [] {
          return Err(NoArrivalRate);
        }
        if arrivalRates[0].None? {
          return Err(MissingRate);
        }
        var lambda := arrivalRates[0].value;
        for i := 0 to cfg.numQueues
          invariant Checks(lambda, serviceRates, queueUtilizations, meanJobCounts, meanSojournTimePerQueue, i) == Ok(comparisons)
        {
          var c := CompareAt(lambda, serviceRates, i, queueUtilizations[i], meanJobCounts[i], meanSojournTimePerQueue[i]);
          if c.Err? {
            ChecksStop(lambda, serviceRates, queueUtilizations, meanJobCounts, meanSojournTimePerQueue, i, cfg.numQueues, comparisons);
            return Err(c.error);
          }
          comparisons := comparisons + [c.value];
        }
      }
      r := Ok(comparisons);
    }

    /**
     * The statistics pass: the per-queue statistics, the mean sojourn time
     * over all jobs, then the throughput. A presampled run stores jobs per unit
     * time. An on-demand run with Poisson arrivals first compares every queue
     * with its analytic station, then stores the simulated time per job and
     * needs the expected inter-arrival time; a failing comparison stops the
     * pass before the throughput is stored. A run that took no time fails
     * before anything is written.
     */
    method CalculateStatistics() returns (r: Result<seq<Comparison>>)
      requires cfg.numJobs >= 1 && Sized(cfg, State())
      requires |jobs| >= 1 && forall j :: 0 <= j < |jobs| ==> |jobs[j].sojournTimes| >= cfg.numQueues
      requires |meanJobCounts| == cfg.numQueues && |meanSojournTimePerQueue| == cfg.numQueues
      modifies this`queueUtilizations, this`meanJobCounts, this`overallMeanJobCount, this`meanSojournTimePerQueue
      modifies this`overallMeanSojournTime, this`throughput
      ensures |queueUtilizations| == |meanJobCounts| == |meanSojournTimePerQueue| == cfg.numQueues
      ensures currentTime == 0.0 ==>
        r == Err(DivisionByZero) && queueUtilizations == old(queueUtilizations) && Stats() == old(Stats())
      ensures currentTime != 0.0 ==>
        var s := old(State());
        var sm := Summarize(cfg, s, old(overallMeanJobCount), old(throughput)).value;
        var check := Comparisons(cfg, arrivalRates, serviceRates, queueUtilizations, meanJobCounts, meanSojournTimePerQueue);
        && queueUtilizations == Fractions(s.queueUtilizations, s.currentTime)
        && Stats() == sm.(throughput := if check.Err? then old(throughput) else sm.throughput)
        && r == Outcome(cfg, check, arrivalRates)
    {
      var t := currentTime;
      if t == 0.0 {
        return Err(DivisionByZero);
      }
      PerQueueStatistics();
      overallMeanSojournTime := Mean(TotalSojourns(jobs));
      match cfg.sampling {
        case Presampled(_, _) =>
          throughput := cfg.numJobs as real / t;
          r := Ok([]);
        case OnDemand(_, nonPoisson) =>
          if nonPoisson {
            r := Ok([]);
          } else {
            var check := CompareWithJackson();
            if check.Err? {
              return check;
            }
            throughput := t / cfg.numJobs as real;
            match InterArrivalMean(arrivalRates) {
              case Err(e) => r := Err(e);
              case Ok(_) => r := check;
            }
          }
      }
    }

    /** Station i's analytic values are stored, its average length added to the number in the system. */
    method StoreStation(i: nat, x: Station)
      requires i < |jacksonUtilization| && i < |jacksonAvgQueueLength| && i < |jacksonMeanSojournTimePerQueue|
      modifies this`jacksonUtilization, this`jacksonAvgQueueLength, this`jacksonMeanSojournTimePerQueue
      modifies this`jacksonAvgJobsInSystem
      ensures jacksonUtilization == old(jacksonUtilization)[i := x.utilization]
      ensures jacksonAvgQueueLength == old(jacksonAvgQueueLength)[i := x.avgQueueLength]
      ensures jacksonAvgJobsInSystem == old(jacksonAvgJobsInSystem) + x.avgQueueLength
      ensures jacksonMeanSojournTimePerQueue == old(jacksonMeanSojournTimePerQueue)[i := x.meanSojournTime]
    {
      jacksonUtilization, jacksonAvgQueueLength, jacksonAvgJobsInSystem, jacksonMeanSojournTimePerQueue :=
        jacksonUtilization[i := x.utilization],
        jacksonAvgQueueLength[i := x.avgQueueLength],
        jacksonAvgJobsInSystem + x.avgQueueLength,
        jacksonMeanSojournTimePerQueue[i := x.meanSojournTime];
    }

    /**
     * The analytic values of the network, station by station in queue order;
     * the average number in the system accumulates onto its previous value.
     * On success the analytic fields hold exactly the network's values.
     */
    method DetermineStatsWithJackson() returns (r: Result<Network>)
      requires |jacksonUtilization| == |jacksonAvgQueueLength| == |jacksonMeanSojournTimePerQueue| == cfg.numQueues
      modifies this`jacksonUtilization, this`jacksonAvgQueueLength, this`jacksonMeanSojournTimePerQueue
      modifies this`jacksonAvgJobsInSystem, this`jacksonMeanSojournTimeInSystem
      ensures r == Determine(arrivalRates, serviceRates, cfg.numQueues, old(jacksonAvgJobsInSystem))
      ensures r.Ok? ==> JacksonValues() == r.value
    {
      if arrivalRates == [] {
        return Err(NoArrivalRate);
      }
      if arrivalRates[0].None? {
        return Err(MissingRate);
      }
      var lambda := arrivalRates[0].value;
      var q := cfg.numQueues;
      ghost var xs: seq<Station> := [];
      for i := 0 to q
        invariant Stations(lambda, serviceRates, i) == Ok(xs)
        invariant |jacksonUtilization| == |jacksonAvgQueueLength| == |jacksonMeanSojournTimePerQueue| == q
        invariant forall k :: 0 <= k < i ==>
          && jacksonUtilization[k] == xs[k].utilization
          && jacksonAvgQueueLength[k] == xs[k].avgQueueLength
          && jacksonMeanSojournTimePerQueue[k] == xs[k].meanSojournTime
        invariant jacksonAvgJobsInSystem == old(jacksonAvgJobsInSystem) + Sum(Lengths(xs))
      {
        var st := StationAt(lambda, serviceRates, i);
        if st.Err? {
          StationsStop(lambda, serviceRates, i, q, xs);
          return Err(st.error);
        }
        var x := st.value;
        StoreStation(i, x);
        LengthsAppend(xs, x);
        xs := xs + [x];
      }
      if lambda == 0.0 {
        return Err(DivisionByZero);
      }
      jacksonMeanSojournTimeInSystem := jacksonAvgJobsInSystem / lambda;
      assert jacksonUtilization == Utilizations(xs);
      assert jacksonAvgQueueLength == Lengths(xs);
      assert jacksonMeanSojournTimePerQueue == SojournTimes(xs);
      r := Ok(JacksonValues());
    }
  }
}
