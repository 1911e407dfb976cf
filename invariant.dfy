/**
 * What every state reached by the event loop satisfies, and the proof that
 * starting a run establishes it and every loop iteration keeps it while a
 * measure of the remaining work drops. From it: the loop never pops an empty
 * stack, it stops, and when it stops every job has visited every queue.
 */
module Invariant {
  import opened Common
  import opened Events
  import opened Jobs
  import opened Kernel

  /** The sum of a per-event weight over a list of events. */
  function Weight(s: seq<EventRec>, w: EventRec -> nat): nat
  {
    if s == [] then 0 else w(s[0]) + Weight(s[1..], w)
  }

  lemma {:induction false} WeightAppend(a: seq<EventRec>, b: seq<EventRec>, w: EventRec -> nat)
    ensures Weight(a + b, w) == Weight(a, w) + Weight(b, w)
  {
    if a == [] {
      assert a + b == b;
    } else {
      assert (a + b)[1..] == a[1..] + b;
      WeightAppend(a[1..], b, w);
    }
  }

  lemma WeightInsert(s: seq<EventRec>, e: EventRec, w: EventRec -> nat)
    ensures Weight(Insert(s, e), w) == Weight(s, w) + w(e)
  {
    var k := FirstLater(s, e.time);
    WeightAppend(s[..k] + [e], s[k..], w);
    WeightAppend(s[..k], [e], w);
    WeightAppend(s[..k], s[k..], w);
    assert s[..k] + s[k..] == s;
    assert [e][1..] == [];
  }

  /** One for each departure from queue q. */
  function DepartureMark(q: nat): EventRec -> nat
  {
    (ev: EventRec) => if ev.eventType == EventType(Departure, q) then 1 else 0
  }

  function CountDepartures(s: seq<EventRec>, q: nat): nat
  {
    Weight(s, DepartureMark(q))
  }

  /**
   * How many events the job of ev still causes in a chain of numQueues queues:
   * an arrival at q is followed by its departure and by the visits of the queues
   * after q, each an arrival and a departure.
   */
  function RemainingWork(numQueues: nat): EventRec -> nat
  {
    (ev: EventRec) =>
      if ev.eventType.queueId >= numQueues then 0
      else if ev.eventType.kind == Arrival then 2 * (numQueues - ev.eventType.queueId)
      else 2 * (numQueues - ev.eventType.queueId) - 1
  }

  /** The events the loop will still process: those of the jobs not yet created, then those already scheduled. */
  function Measure(cfg: Config, s: SimState): nat
  {
    (if s.nextJobId <= cfg.numJobs then cfg.numJobs - s.nextJobId else 0) * (2 * cfg.numQueues)
    + Weight(s.events, RemainingWork(cfg.numQueues))
  }

  /** The jobs an event list mentions. */
  function JobIds(s: seq<EventRec>): set<nat>
  {
    if s == [] then {} else {s[0].jobId} + JobIds(s[1..])
  }

  lemma {:induction false} JobIdsAppend(a: seq<EventRec>, b: seq<EventRec>)
    ensures JobIds(a + b) == JobIds(a) + JobIds(b)
  {
    if a == [] {
      assert a + b == b;
    } else {
      assert (a + b)[1..] == a[1..] + b;
      JobIdsAppend(a[1..], b);
    }
  }

  lemma JobIdsInsert(s: seq<EventRec>, e: EventRec)
    ensures JobIds(Insert(s, e)) == JobIds(s) + {e.jobId}
  {
    var k := FirstLater(s, e.time);
    JobIdsAppend(s[..k] + [e], s[k..]);
    JobIdsAppend(s[..k], [e]);
    JobIdsAppend(s[..k], s[k..]);
    assert s[..k] + s[k..] == s;
    assert [e][1..] == [];
  }

  lemma {:induction false} JobIdsMember(s: seq<EventRec>)
    ensures forall ev :: ev in s ==> ev.jobId in JobIds(s)
  {
    if s != [] {
      JobIdsMember(s[1..]);
      forall ev | ev in s ensures ev.jobId in JobIds(s) {
        if ev != s[0] {
          assert ev in s[1..];
        }
      }
    }
  }

  lemma {:induction false} JobIdsBelow(s: seq<EventRec>, n: nat)
    requires forall ev :: ev in s ==> ev.jobId < n
    ensures n !in JobIds(s)
  {
    if s != [] {
      assert s[0] in s;
      forall ev | ev in s[1..] ensures ev.jobId < n {
        assert ev in s;
      }
      JobIdsBelow(s[1..], n);
    }
  }

  lemma {:induction false} JobIdsCard(s: seq<EventRec>)
    ensures |JobIds(s)| <= |s|
  {
    if s != [] {
      JobIdsCard(s[1..]);
    }
  }

  /** In a list whose jobs are all distinct, the head's job appears nowhere in the tail, which is distinct too. */
  lemma HeadJobFresh(s: seq<EventRec>)
    requires s != [] && |JobIds(s)| == |s|
    ensures s[0].jobId !in JobIds(s[1..]) && |JobIds(s[1..])| == |s[1..]|
  {
    JobIdsCard(s[1..]);
  }

  lemma SortedTail(s: seq<EventRec>)
    requires Sorted(s) && s != []
    ensures Sorted(s[1..])
    ensures forall ev :: ev in s[1..] ==> s[0].time <= ev.time
  {
    forall ev | ev in s[1..] ensures s[0].time <= ev.time {
      var i :| 0 <= i < |s[1..]| && s[1..][i] == ev;
      assert s[i + 1] == ev;
    }
  }

  /** The record shape of the job of a pending event, which says how far the job has got. */
  ghost predicate Pending(jr: JobRec, ev: EventRec)
  {
    var q := ev.eventType.queueId;
    && |jr.queueIds| == q + 1
    && |jr.arrivalTimes| == q + 1
    && |jr.departureTimes| == q
    && match ev.eventType.kind
       case Arrival => |jr.serviceTimes| == q && jr.arrivalTimes[q] == ev.time
       case Departure => |jr.serviceTimes| == q + 1 && ev.time >= jr.arrivalTimes[q] + jr.serviceTimes[q]
  }

  /**
   * What the simulator's appends keep true of every job: it visits queues
   * 0, 1, ... in order, it records a service before the departure of the same
   * visit, it leaves no earlier than arrival plus service, it arrives at the next
   * queue the instant it leaves the previous one, and it has no statistics yet.
   */
  ghost predicate VisitsOk(jr: JobRec)
  {
    && |jr.arrivalTimes| == |jr.queueIds| >= 1
    && |jr.departureTimes| <= |jr.serviceTimes| <= |jr.queueIds|
    && (forall i :: 0 <= i < |jr.queueIds| ==> jr.queueIds[i] == i)
    && (forall i :: 0 <= i < |jr.serviceTimes| ==> jr.serviceTimes[i] >= 0.0)
    && (forall i :: 0 <= i < |jr.departureTimes| ==> jr.departureTimes[i] >= jr.arrivalTimes[i] + jr.serviceTimes[i])
    && (forall i :: 0 <= i < |jr.departureTimes| && i + 1 < |jr.arrivalTimes| ==> jr.arrivalTimes[i + 1] == jr.departureTimes[i])
    && jr.waitTimes == [] && jr.sojournTimes == [] && jr.overallSojournTime == 0.0
  }

  /** A job that has left the last queue: one queue id, arrival, service and departure per queue. */
  ghost predicate Complete(cfg: Config, jr: JobRec)
  {
    |jr.queueIds| == cfg.numQueues && |jr.serviceTimes| == cfg.numQueues && |jr.departureTimes| == cfg.numQueues
  }

  /** A pending event is in the future, names an existing queue and job, and matches that job's progress. */
  ghost predicate EventFits(cfg: Config, now: real, jobs: seq<JobRec>, ev: EventRec)
  {
    && ev.time >= now
    && ev.eventType.queueId < cfg.numQueues
    && ev.jobId < |jobs|
    && Pending(jobs[ev.jobId], ev)
  }

  ghost predicate AllFit(cfg: Config, now: real, jobs: seq<JobRec>, events: seq<EventRec>)
  {
    forall ev :: ev in events ==> EventFits(cfg, now, jobs, ev)
  }

  ghost predicate JobsOk(jobs: seq<JobRec>)
  {
    forall i :: 0 <= i < |jobs| ==> jobs[i].jobId == i && VisitsOk(jobs[i])
  }

  /** Every job without a pending event (its id is not in ids) has finished its last queue. */
  ghost predicate RestComplete(cfg: Config, jobs: seq<JobRec>, ids: set<nat>)
  {
    forall j :: 0 <= j < |jobs| && j !in ids ==> Complete(cfg, jobs[j])
  }

  ghost predicate HasFirstQueueArrival(s: seq<EventRec>)
  {
    exists ev :: ev in s && ev.eventType == EventType(Arrival, 0)
  }

  ghost predicate HasDepartureAt(s: seq<EventRec>, q: nat, t: real)
  {
    exists ev :: ev in s && ev.eventType == EventType(Departure, q) && ev.time == t
  }

  /** Each queue's length is the number of its pending departures, counting ev as pending too. */
  ghost predicate LengthsWith(lengths: seq<int>, events: seq<EventRec>, ev: EventRec)
  {
    forall q :: 0 <= q < |lengths| ==> lengths[q] == CountDepartures(events, q) + DepartureMark(q)(ev)
  }

  ghost predicate LengthsMatch(lengths: seq<int>, events: seq<EventRec>)
  {
    forall q :: 0 <= q < |lengths| ==> lengths[q] == CountDepartures(events, q)
  }

  ghost predicate BusyBounded(busy: seq<real>, idle: seq<real>)
  {
    |busy| == |idle| && forall q :: 0 <= q < |busy| ==> 0.0 <= busy[q] <= idle[q]
  }

  ghost predicate NonNegative(counts: seq<real>)
  {
    forall q :: 0 <= q < |counts| ==> counts[q] >= 0.0
  }

  /** A queue's server-free time is in the past, or it is the time of one of its pending departures. */
  ghost predicate Watermarks(idle: seq<real>, now: real, events: seq<EventRec>)
  {
    forall q :: 0 <= q < |idle| ==> idle[q] <= now || HasDepartureAt(events, q, idle[q])
  }

  /** Configuration, sizes, job ids as positions in the job list, well-formed job records. */
  ghost predicate Shape(cfg: Config, s: SimState)
  {
    && ValidConfig(cfg)
    && Sized(cfg, s)
    && |s.jobs| == s.nextJobId
    && 1 <= s.nextJobId <= cfg.numJobs
    && JobsOk(s.jobs)
  }

  /**
   * The event list is sorted, holds exactly one event for every job not yet
   * done, every event fits its job, and a job without a pending event has
   * finished its last queue.
   */
  ghost predicate EventsOk(cfg: Config, s: SimState)
  {
    && Sorted(s.events)
    && s.jobsDone + |s.events| == s.nextJobId
    && |JobIds(s.events)| == |s.events|
    && AllFit(cfg, s.currentTime, s.jobs, s.events)
    && RestComplete(cfg, s.jobs, JobIds(s.events))
  }

  /**
   * A queue's length is its number of pending departures; busy time is within
   * the watermark; time-weighted counts are non-negative; the watermark is in
   * the past or is a pending departure's time.
   */
  ghost predicate QueuesOk(s: SimState)
  {
    && LengthsMatch(s.queueLengths, s.events)
    && BusyBounded(s.queueUtilizations, s.queueIdleTimes)
    && NonNegative(s.timeWeightedJobCounts)
    && Watermarks(s.queueIdleTimes, s.currentTime, s.events)
  }

  /** All of the invariant but admission. */
  ghost predicate InvBut(cfg: Config, s: SimState)
  {
    && Shape(cfg, s)
    && s.prevEventTime == s.currentTime >= 0.0
    && EventsOk(cfg, s)
    && QueuesOk(s)
  }

  /**
   * What every state the event loop reaches satisfies: the above, and, while
   * jobs remain to be created, the pending arrival at queue 0 that will create
   * the next one is scheduled.
   */
  ghost predicate Inv(cfg: Config, s: SimState)
  {
    && InvBut(cfg, s)
    && (s.nextJobId < cfg.numJobs ==> HasFirstQueueArrival(s.events))
  }

  /** EventsOk with ev just removed from the list. */
  ghost predicate TakenEvents(cfg: Config, s: SimState, ev: EventRec)
  {
    && EventFits(cfg, s.currentTime, s.jobs, ev)
    && Sorted(s.events)
    && s.jobsDone + |s.events| + 1 == s.nextJobId
    && |JobIds(s.events)| == |s.events|
    && ev.jobId !in JobIds(s.events)
    && AllFit(cfg, s.currentTime, s.jobs, s.events)
    && RestComplete(cfg, s.jobs, {ev.jobId} + JobIds(s.events))
  }

  /** QueuesOk with ev just removed from the list. */
  ghost predicate TakenQueues(s: SimState, ev: EventRec)
  {
    && LengthsWith(s.queueLengths, s.events, ev)
    && BusyBounded(s.queueUtilizations, s.queueIdleTimes)
    && NonNegative(s.timeWeightedJobCounts)
    && Watermarks(s.queueIdleTimes, s.currentTime, s.events)
  }

  /**
   * The state just after the head event ev was popped, the clock moved to its
   * time and the integrals advanced: the invariant with ev missing.
   */
  ghost predicate Taken(cfg: Config, s: SimState, ev: EventRec)
  {
    && Shape(cfg, s)
    && s.prevEventTime == s.currentTime == ev.time >= 0.0
    && TakenEvents(cfg, s, ev)
    && TakenQueues(s, ev)
    && (s.nextJobId < cfg.numJobs ==> HasFirstQueueArrival(s.events) || ev.eventType == EventType(Arrival, 0))
  }

  /** The state the loop body hands to process_event: head popped, clock moved, integrals advanced. */
  function Advanced(s: SimState): SimState
    requires s.events != [] && |s.timeWeightedJobCounts| == |s.queueLengths|
  {
    Integrated(Popped(s), s.events[0].time - s.prevEventTime)
  }

  // Record-level steps

  lemma ServeVisit(jr: JobRec, ev: EventRec, svc: real, dep: real)
    requires VisitsOk(jr) && Pending(jr, ev) && ev.eventType.kind == Arrival
    requires svc >= 0.0 && dep >= ev.time + svc
    ensures var jr2 := jr.(serviceTimes := jr.serviceTimes + [svc]);
      && VisitsOk(jr2)
      && Pending(jr2, EventRec(dep, EventType(Departure, ev.eventType.queueId), ev.jobId))
  {
  }

  lemma DepartVisit(cfg: Config, jr: JobRec, ev: EventRec, now: real)
    requires VisitsOk(jr) && Pending(jr, ev) && ev.eventType.kind == Departure
    requires now == ev.time && ev.eventType.queueId < cfg.numQueues
    ensures var q := ev.eventType.queueId;
      var jr1 := jr.(departureTimes := jr.departureTimes + [now]);
      && VisitsOk(jr1)
      && (q == cfg.numQueues - 1 ==> Complete(cfg, jr1))
      && (q != cfg.numQueues - 1 ==>
            var jr2 := jr1.(queueIds := jr1.queueIds + [q + 1], arrivalTimes := jr1.arrivalTimes + [now]);
            VisitsOk(jr2) && Pending(jr2, EventRec(now, EventType(Arrival, q + 1), ev.jobId)))
  {
    var q := ev.eventType.queueId;
    var jr1 := jr.(departureTimes := jr.departureTimes + [now]);
    assert jr1.departureTimes[q] == now;
    if q != cfg.numQueues - 1 {
      var jr2 := jr1.(queueIds := jr1.queueIds + [q + 1], arrivalTimes := jr1.arrivalTimes + [now]);
      assert jr2.arrivalTimes[q + 1] == jr2.departureTimes[q];
    }
  }

  // List-level steps

  lemma FitsUpdate(cfg: Config, now: real, jobs: seq<JobRec>, events: seq<EventRec>, j: nat, jr: JobRec)
    requires AllFit(cfg, now, jobs, events) && j < |jobs| && j !in JobIds(events)
    ensures AllFit(cfg, now, jobs[j := jr], events)
  {
    JobIdsMember(events);
    forall ev | ev in events ensures EventFits(cfg, now, jobs[j := jr], ev) {
      assert EventFits(cfg, now, jobs, ev);
    }
  }

  lemma FitsAppend(cfg: Config, now: real, jobs: seq<JobRec>, events: seq<EventRec>, jr: JobRec)
    requires AllFit(cfg, now, jobs, events)
    ensures AllFit(cfg, now, jobs + [jr], events)
  {
    forall ev | ev in events ensures EventFits(cfg, now, jobs + [jr], ev) {
      assert EventFits(cfg, now, jobs, ev);
    }
  }

  lemma FitsInsert(cfg: Config, now: real, jobs: seq<JobRec>, events: seq<EventRec>, e: EventRec)
    requires AllFit(cfg, now, jobs, events) && EventFits(cfg, now, jobs, e)
    ensures AllFit(cfg, now, jobs, Insert(events, e))
  {
    InsertContents(events, e);
  }

  lemma RestUpdate(cfg: Config, jobs: seq<JobRec>, ids: set<nat>, j: nat, jr: JobRec)
    requires RestComplete(cfg, jobs, ids) && j in ids && j < |jobs|
    ensures RestComplete(cfg, jobs[j := jr], ids)
  {
  }

  lemma RestFinish(cfg: Config, jobs: seq<JobRec>, ids: set<nat>, j: nat, jr: JobRec)
    requires RestComplete(cfg, jobs, {j} + ids) && j < |jobs| && Complete(cfg, jr)
    ensures RestComplete(cfg, jobs[j := jr], ids)
  {
  }

  lemma RestAppend(cfg: Config, jobs: seq<JobRec>, ids: set<nat>, jr: JobRec)
    requires RestComplete(cfg, jobs, ids)
    ensures RestComplete(cfg, jobs + [jr], ids + {|jobs|})
  {
  }

  lemma LengthsServe(lengths: seq<int>, events: seq<EventRec>, ev: EventRec, d: EventRec)
    requires LengthsWith(lengths, events, ev) && ev.eventType.kind == Arrival
    requires d.eventType.kind == Departure && d.eventType.queueId < |lengths|
    ensures var q := d.eventType.queueId;
      LengthsMatch(lengths[q := lengths[q] + 1], Insert(events, d))
  {
    forall p | 0 <= p < |lengths| ensures CountDepartures(Insert(events, d), p) == CountDepartures(events, p) + DepartureMark(p)(d) {
      WeightInsert(events, d, DepartureMark(p));
    }
  }

  lemma LengthsDepart(lengths: seq<int>, events: seq<EventRec>, ev: EventRec)
    requires LengthsWith(lengths, events, ev) && ev.eventType.kind == Departure && ev.eventType.queueId < |lengths|
    ensures var q := ev.eventType.queueId;
      LengthsMatch(lengths[q := lengths[q] - 1], events)
  {
  }

  lemma LengthsArrival(lengths: seq<int>, events: seq<EventRec>, a: EventRec)
    requires LengthsMatch(lengths, events) && a.eventType.kind == Arrival
    ensures LengthsMatch(lengths, Insert(events, a))
  {
    forall p | 0 <= p < |lengths| ensures CountDepartures(Insert(events, a), p) == CountDepartures(events, p) {
      WeightInsert(events, a, DepartureMark(p));
    }
  }

  lemma WatermarksInsert(idle: seq<real>, now: real, events: seq<EventRec>, e: EventRec)
    requires Watermarks(idle, now, events)
    ensures Watermarks(idle, now, Insert(events, e))
  {
    InsertContents(events, e);
    forall q | 0 <= q < |idle| && idle[q] > now ensures HasDepartureAt(Insert(events, e), q, idle[q]) {
      var w :| w in events && w.eventType == EventType(Departure, q) && w.time == idle[q];
      assert w in Insert(events, e);
    }
  }

  lemma WatermarksServe(idle: seq<real>, now: real, events: seq<EventRec>, q: nat, d: EventRec)
    requires Watermarks(idle, now, events) && q < |idle|
    requires d.eventType == EventType(Departure, q)
    ensures Watermarks(idle[q := d.time], now, Insert(events, d))
  {
    WatermarksInsert(idle, now, events, d);
    InsertContents(events, d);
    assert d in Insert(events, d);
  }

  lemma WatermarksPop(idle: seq<real>, now: real, events: seq<EventRec>)
    requires Watermarks(idle, now, events) && events != [] && now <= events[0].time
    ensures Watermarks(idle, events[0].time, events[1..])
  {
    forall q | 0 <= q < |idle| && idle[q] > events[0].time
      ensures HasDepartureAt(events[1..], q, idle[q])
    {
      var w :| w in events && w.eventType == EventType(Departure, q) && w.time == idle[q];
      assert w != events[0];
      assert w in events[1..];
    }
  }

  lemma BusyServe(busy: seq<real>, idle: seq<real>, now: real, q: nat, svc: real)
    requires BusyBounded(busy, idle) && q < |busy| && svc >= 0.0
    ensures BusyBounded(busy[q := busy[q] + svc], idle[q := DepartureTime(now, idle[q], svc)])
  {
  }

  lemma CountsAdvance(counts: seq<real>, lengths: seq<int>, dt: real)
    requires NonNegative(counts) && |counts| == |lengths| && dt >= 0.0
    requires forall q :: 0 <= q < |lengths| ==> lengths[q] >= 0
    ensures NonNegative(Accumulate(counts, lengths, dt))
  {
    forall q | 0 <= q < |counts| ensures dt * lengths[q] as real >= 0.0 {
      assert lengths[q] as real >= 0.0;
    }
  }

  /** Replacing job j's record and scheduling its next event keeps the event facts. */
  lemma EventsReplace(cfg: Config, now: real, jobs: seq<JobRec>, events: seq<EventRec>, j: nat, jr: JobRec, e: EventRec)
    requires Sorted(events) && |JobIds(events)| == |events| && j !in JobIds(events) && j < |jobs|
    requires AllFit(cfg, now, jobs, events) && RestComplete(cfg, jobs, {j} + JobIds(events))
    requires e.jobId == j && EventFits(cfg, now, jobs[j := jr], e)
    ensures var evs := Insert(events, e);
      && Sorted(evs) && |evs| == |events| + 1 && |JobIds(evs)| == |evs|
      && AllFit(cfg, now, jobs[j := jr], evs) && RestComplete(cfg, jobs[j := jr], JobIds(evs))
  {
    InsertContents(events, e);
    InsertPreservesSorted(events, e);
    JobIdsInsert(events, e);
    FitsUpdate(cfg, now, jobs, events, j, jr);
    FitsInsert(cfg, now, jobs[j := jr], events, e);
    RestUpdate(cfg, jobs, {j} + JobIds(events), j, jr);
  }

  /** Appending a new job's record and scheduling its first arrival keeps the event facts. */
  lemma EventsAdmit(cfg: Config, now: real, jobs: seq<JobRec>, events: seq<EventRec>, jr: JobRec, e: EventRec)
    requires Sorted(events) && |JobIds(events)| == |events|
    requires AllFit(cfg, now, jobs, events) && RestComplete(cfg, jobs, JobIds(events))
    requires e.jobId == |jobs| && EventFits(cfg, now, jobs + [jr], e)
    ensures var evs := Insert(events, e);
      && Sorted(evs) && |evs| == |events| + 1 && |JobIds(evs)| == |evs|
      && AllFit(cfg, now, jobs + [jr], evs) && RestComplete(cfg, jobs + [jr], JobIds(evs))
  {
    InsertContents(events, e);
    InsertPreservesSorted(events, e);
    JobIdsInsert(events, e);
    forall ev | ev in events ensures ev.jobId < |jobs| {
      assert EventFits(cfg, now, jobs, ev);
    }
    JobIdsBelow(events, |jobs|);
    FitsAppend(cfg, now, jobs, events, jr);
    FitsInsert(cfg, now, jobs + [jr], events, e);
    RestAppend(cfg, jobs, JobIds(events), jr);
  }

  /** Completing job j, which has no pending event, keeps the event facts. */
  lemma EventsFinish(cfg: Config, now: real, jobs: seq<JobRec>, events: seq<EventRec>, j: nat, jr: JobRec)
    requires j !in JobIds(events) && j < |jobs| && Complete(cfg, jr)
    requires AllFit(cfg, now, jobs, events) && RestComplete(cfg, jobs, {j} + JobIds(events))
    ensures AllFit(cfg, now, jobs[j := jr], events) && RestComplete(cfg, jobs[j := jr], JobIds(events))
  {
    FitsUpdate(cfg, now, jobs, events, j, jr);
    RestFinish(cfg, jobs, JobIds(events), j, jr);
  }

  lemma JobsUpdate(jobs: seq<JobRec>, j: nat, jr: JobRec)
    requires JobsOk(jobs) && j < |jobs| && jr.jobId == j && VisitsOk(jr)
    ensures JobsOk(jobs[j := jr])
  {
  }

  lemma JobsAppend(jobs: seq<JobRec>, jr: JobRec)
    requires JobsOk(jobs) && jr.jobId == |jobs| && VisitsOk(jr)
    ensures JobsOk(jobs + [jr])
  {
  }

  // State-level steps

  lemma TakeEvents(cfg: Config, s: SimState)
    requires Inv(cfg, s) && s.events != []
    ensures var ev := s.events[0]; var s2 := Advanced(s);
      && Shape(cfg, s2)
      && s2.prevEventTime == s2.currentTime == ev.time >= 0.0
      && TakenEvents(cfg, s2, ev)
      && (s2.nextJobId < cfg.numJobs ==> HasFirstQueueArrival(s2.events) || ev.eventType == EventType(Arrival, 0))
  {
    var ev := s.events[0];
    var tail := s.events[1..];
    var s2 := Advanced(s);
    assert s2.events == tail && s2.jobs == s.jobs && s2.currentTime == ev.time;
    assert ev in s.events;
    assert EventFits(cfg, s.currentTime, s.jobs, ev);
    SortedTail(s.events);
    HeadJobFresh(s.events);
    forall e | e in tail ensures EventFits(cfg, ev.time, s.jobs, e) {
      assert e in s.events;
      assert EventFits(cfg, s.currentTime, s.jobs, e);
    }
    if s.nextJobId < cfg.numJobs && ev.eventType != EventType(Arrival, 0) {
      var w :| w in s.events && w.eventType == EventType(Arrival, 0);
      assert w != s.events[0];
      assert w in tail;
    }
  }

  lemma TakeQueues(cfg: Config, s: SimState)
    requires Inv(cfg, s) && s.events != []
    ensures TakenQueues(Advanced(s), s.events[0])
  {
    var ev := s.events[0];
    var s2 := Advanced(s);
    assert ev in s.events;
    assert EventFits(cfg, s.currentTime, s.jobs, ev);
    assert LengthsWith(s.queueLengths, s.events[1..], ev);
    forall q | 0 <= q < |s.queueLengths| ensures s.queueLengths[q] >= 0 {
      assert s.queueLengths[q] == CountDepartures(s.events, q);
    }
    CountsAdvance(s.timeWeightedJobCounts, s.queueLengths, ev.time - s.prevEventTime);
    WatermarksPop(s.queueIdleTimes, s.currentTime, s.events);
  }

  /** Popping the head event and advancing the integrals leaves a Taken state, with the head's work removed. */
  lemma TakeHead(cfg: Config, s: SimState)
    requires Inv(cfg, s) && s.events != []
    ensures StepReady(cfg, s)
    ensures Taken(cfg, Advanced(s), s.events[0])
    ensures Advanced(s).nextJobId == s.nextJobId
    ensures Measure(cfg, Advanced(s)) + RemainingWork(cfg.numQueues)(s.events[0]) == Measure(cfg, s)
  {
    assert s.events[0] in s.events;
    TakeEvents(cfg, s);
    TakeQueues(cfg, s);
  }

  lemma ServeEvents(cfg: Config, s: SimState, ev: EventRec)
    requires Taken(cfg, s, ev) && ev.eventType.kind == Arrival
    ensures CanProcess(cfg, s, ev)
    ensures var r := Serve(cfg, s, ev);
      && Shape(cfg, r) && r.prevEventTime == r.currentTime == s.currentTime && EventsOk(cfg, r)
      && Measure(cfg, r) + 1 == Measure(cfg, s) + RemainingWork(cfg.numQueues)(ev)
  {
    var q := ev.eventType.queueId;
    var j := ev.jobId;
    var svc := ServiceSample(cfg, s.draws, q, j);
    var dep := DepartureTime(s.currentTime, s.queueIdleTimes[q], svc);
    var d := EventRec(dep, EventType(Departure, q), j);
    var jr := s.jobs[j].(serviceTimes := s.jobs[j].serviceTimes + [svc]);
    var r := Serve(cfg, s, ev);
    assert r.events == Insert(s.events, d) && r.jobs == s.jobs[j := jr];
    ServeVisit(s.jobs[j], ev, svc, dep);
    JobsUpdate(s.jobs, j, jr);
    EventsReplace(cfg, s.currentTime, s.jobs, s.events, j, jr, d);
    WeightInsert(s.events, d, RemainingWork(cfg.numQueues));
  }

  lemma ServeQueues(cfg: Config, s: SimState, ev: EventRec)
    requires Taken(cfg, s, ev) && ev.eventType.kind == Arrival
    ensures CanProcess(cfg, s, ev)
    ensures var r := Serve(cfg, s, ev);
      && QueuesOk(r)
      && (r.nextJobId < cfg.numJobs && ev.eventType.queueId != 0 ==> HasFirstQueueArrival(r.events))
  {
    var q := ev.eventType.queueId;
    var j := ev.jobId;
    var svc := ServiceSample(cfg, s.draws, q, j);
    var dep := DepartureTime(s.currentTime, s.queueIdleTimes[q], svc);
    var d := EventRec(dep, EventType(Departure, q), j);
    var r := Serve(cfg, s, ev);
    assert r.events == Insert(s.events, d);
    LengthsServe(s.queueLengths, s.events, ev, d);
    BusyServe(s.queueUtilizations, s.queueIdleTimes, s.currentTime, q, svc);
    WatermarksServe(s.queueIdleTimes, s.currentTime, s.events, q, d);
    if q != 0 && r.nextJobId < cfg.numJobs {
      var w :| w in s.events && w.eventType == EventType(Arrival, 0);
      InsertContents(s.events, d);
      assert w in r.events;
    }
  }

  /** Serving an arriving job restores the invariant but admission; its work drops by one. */
  lemma ServeRestores(cfg: Config, s: SimState, ev: EventRec)
    requires Taken(cfg, s, ev) && ev.eventType.kind == Arrival
    ensures CanProcess(cfg, s, ev)
    ensures var r := Serve(cfg, s, ev);
      && InvBut(cfg, r)
      && r.nextJobId == s.nextJobId
      && (r.nextJobId < cfg.numJobs && ev.eventType.queueId != 0 ==> HasFirstQueueArrival(r.events))
      && Measure(cfg, r) + 1 == Measure(cfg, s) + RemainingWork(cfg.numQueues)(ev)
  {
    ServeEvents(cfg, s, ev);
    ServeQueues(cfg, s, ev);
  }

  lemma AdmitEvents(cfg: Config, s: SimState)
    requires InvBut(cfg, s) && s.nextJobId < cfg.numJobs
    ensures var r := Admit(cfg, s);
      && Shape(cfg, r) && r.prevEventTime == r.currentTime == s.currentTime && EventsOk(cfg, r)
  {
    var n := s.nextJobId;
    var t := s.currentTime + InterArrivalSample(cfg, s.draws, s.nextJobId);
    var a := EventRec(t, EventType(Arrival, 0), n);
    var jr := NewJobRec(n).(queueIds := [0], arrivalTimes := [t]);
    var r := Admit(cfg, s);
    assert r.events == Insert(s.events, a) && r.jobs == s.jobs + [jr];
    JobsAppend(s.jobs, jr);
    EventsAdmit(cfg, s.currentTime, s.jobs, s.events, jr, a);
  }

  lemma AdmitQueues(cfg: Config, s: SimState)
    requires InvBut(cfg, s) && s.nextJobId < cfg.numJobs
    ensures var r := Admit(cfg, s);
      && QueuesOk(r)
      && HasFirstQueueArrival(r.events)
      && Measure(cfg, r) == Measure(cfg, s)
  {
    var n := s.nextJobId;
    var t := s.currentTime + InterArrivalSample(cfg, s.draws, s.nextJobId);
    var a := EventRec(t, EventType(Arrival, 0), n);
    var r := Admit(cfg, s);
    assert r.events == Insert(s.events, a);
    LengthsArrival(s.queueLengths, s.events, a);
    WatermarksInsert(s.queueIdleTimes, s.currentTime, s.events, a);
    InsertContents(s.events, a);
    assert a in r.events;
    WeightInsert(s.events, a, RemainingWork(cfg.numQueues));
    assert RemainingWork(cfg.numQueues)(a) == 2 * cfg.numQueues;
    MeasureShift(cfg.numJobs - (n + 1), 2 * cfg.numQueues);
  }

  /** Between two states with the same number of created jobs, the measure changes as the scheduled work does. */
  lemma MeasureSameJobs(cfg: Config, s: SimState, r: SimState)
    requires r.nextJobId == s.nextJobId
    ensures Measure(cfg, r) - Weight(r.events, RemainingWork(cfg.numQueues))
         == Measure(cfg, s) - Weight(s.events, RemainingWork(cfg.numQueues))
  {
  }

  lemma MeasureShift(m: nat, k: nat)
    ensures (m + 1) * k == m * k + k
  {
  }

  /** Admitting the next job keeps the invariant, schedules the next arrival at queue 0, and keeps the measure. */
  lemma AdmitRestores(cfg: Config, s: SimState)
    requires InvBut(cfg, s) && s.nextJobId < cfg.numJobs
    ensures Inv(cfg, Admit(cfg, s))
    ensures Measure(cfg, Admit(cfg, s)) == Measure(cfg, s)
  {
    AdmitEvents(cfg, s);
    AdmitQueues(cfg, s);
  }

  lemma DepartOnEvents(cfg: Config, s: SimState, ev: EventRec)
    requires Taken(cfg, s, ev) && ev.eventType.kind == Departure
    requires ev.eventType.queueId != cfg.numQueues - 1
    ensures CanProcess(cfg, s, ev)
    ensures var r := Depart(cfg, s, ev);
      && Shape(cfg, r) && r.prevEventTime == r.currentTime == s.currentTime && EventsOk(cfg, r)
  {
    var q := ev.eventType.queueId;
    var j := ev.jobId;
    var now := s.currentTime;
    var jr1 := s.jobs[j].(departureTimes := s.jobs[j].departureTimes + [now]);
    var a := EventRec(now, EventType(Arrival, q + 1), j);
    var jr2 := jr1.(queueIds := jr1.queueIds + [q + 1], arrivalTimes := jr1.arrivalTimes + [now]);
    var r := Depart(cfg, s, ev);
    assert r.events == Insert(s.events, a) && r.jobs == s.jobs[j := jr2];
    DepartVisit(cfg, s.jobs[j], ev, now);
    JobsUpdate(s.jobs, j, jr2);
    EventsReplace(cfg, now, s.jobs, s.events, j, jr2, a);
  }

  lemma DepartOnQueues(cfg: Config, s: SimState, ev: EventRec)
    requires Taken(cfg, s, ev) && ev.eventType.kind == Departure
    requires ev.eventType.queueId != cfg.numQueues - 1
    ensures CanProcess(cfg, s, ev)
    ensures var r := Depart(cfg, s, ev);
      && QueuesOk(r)
      && (r.nextJobId < cfg.numJobs ==> HasFirstQueueArrival(r.events))
      && Measure(cfg, r) + 1 == Measure(cfg, s) + RemainingWork(cfg.numQueues)(ev)
  {
    var q := ev.eventType.queueId;
    var j := ev.jobId;
    var now := s.currentTime;
    var a := EventRec(now, EventType(Arrival, q + 1), j);
    var r := Depart(cfg, s, ev);
    assert r.events == Insert(s.events, a);
    LengthsDepart(s.queueLengths, s.events, ev);
    LengthsArrival(r.queueLengths, s.events, a);
    WatermarksInsert(s.queueIdleTimes, now, s.events, a);
    WeightInsert(s.events, a, RemainingWork(cfg.numQueues));
    assert RemainingWork(cfg.numQueues)(a) + 1 == RemainingWork(cfg.numQueues)(ev);
    MeasureSameJobs(cfg, s, r);
    if r.nextJobId < cfg.numJobs {
      var w :| w in s.events && w.eventType == EventType(Arrival, 0);
      InsertContents(s.events, a);
      assert w in r.events;
    }
  }

  /** A departure to the next queue restores the invariant; its work drops by one. */
  lemma DepartOn(cfg: Config, s: SimState, ev: EventRec)
    requires Taken(cfg, s, ev) && ev.eventType.kind == Departure
    requires ev.eventType.queueId != cfg.numQueues - 1
    ensures CanProcess(cfg, s, ev)
    ensures Inv(cfg, Depart(cfg, s, ev))
    ensures Measure(cfg, Depart(cfg, s, ev)) + 1 == Measure(cfg, s) + RemainingWork(cfg.numQueues)(ev)
  {
    DepartOnEvents(cfg, s, ev);
    DepartOnQueues(cfg, s, ev);
  }

  /** A departure from the last queue completes the job and restores the invariant; its work drops by one. */
  lemma DepartLast(cfg: Config, s: SimState, ev: EventRec)
    requires Taken(cfg, s, ev) && ev.eventType.kind == Departure
    requires ev.eventType.queueId == cfg.numQueues - 1
    ensures CanProcess(cfg, s, ev)
    ensures var r := Depart(cfg, s, ev);
      && Inv(cfg, r)
      && Measure(cfg, r) + 1 == Measure(cfg, s) + RemainingWork(cfg.numQueues)(ev)
  {
    var j := ev.jobId;
    var now := s.currentTime;
    var jr1 := s.jobs[j].(departureTimes := s.jobs[j].departureTimes + [now]);
    var r := Depart(cfg, s, ev);
    assert r.events == s.events && r.jobs == s.jobs[j := jr1];
    DepartVisit(cfg, s.jobs[j], ev, now);
    JobsUpdate(s.jobs, j, jr1);
    EventsFinish(cfg, now, s.jobs, s.events, j, jr1);
    LengthsDepart(s.queueLengths, s.events, ev);
  }

  /** Starting a run establishes the invariant. */
  lemma StartEstablishes(cfg: Config)
    requires ValidConfig(cfg)
    ensures Inv(cfg, Started(cfg))
  {
    var s := InitialState(cfg);
    var t := s.currentTime + InterArrivalSample(cfg, s.draws, s.nextJobId);
    var a := EventRec(t, EventType(Arrival, 0), 0);
    var r := Started(cfg);
    assert r.events == [a];
    assert [a][1..] == [];
    assert JobIds(r.events) == {0};
    assert a in r.events;
    forall p | 0 <= p < cfg.numQueues ensures r.queueLengths[p] == CountDepartures(r.events, p) {
      assert DepartureMark(p)(a) == 0;
      assert CountDepartures(r.events, p) == DepartureMark(p)(a) + Weight([a][1..], DepartureMark(p));
      assert r.queueLengths[p] == 0;
    }
  }

  /**
   * While fewer than numJobs jobs are done, the event list is not empty, so the
   * pop at the head of the loop finds an event; processing it keeps the
   * invariant and the remaining work drops by exactly one.
   */
  lemma StepPreserves(cfg: Config, s: SimState)
    requires Inv(cfg, s) && s.jobsDone < cfg.numJobs
    ensures s.events != [] && StepReady(cfg, s)
    ensures Inv(cfg, Step(cfg, s))
    ensures Measure(cfg, Step(cfg, s)) + 1 == Measure(cfg, s)
  {
    var ev := s.events[0];
    TakeHead(cfg, s);
    var s2 := Advanced(s);
    assert Step(cfg, s) == Process(cfg, Popped(s), ev, ev.time - s.prevEventTime);
    match ev.eventType.kind
    case Arrival =>
      ServeRestores(cfg, s2, ev);
      var served := Serve(cfg, s2, ev);
      if ev.eventType.queueId == 0 && served.nextJobId < cfg.numJobs {
        AdmitRestores(cfg, served);
      }
    case Departure =>
      if ev.eventType.queueId == cfg.numQueues - 1 {
        DepartLast(cfg, s2, ev);
      } else {
        DepartOn(cfg, s2, ev);
      }
  }

  /**
   * The clocks only move forward: a step never moves the current time back,
   * and no queue's departure watermark decreases.
   */
  lemma StepMonotone(cfg: Config, s: SimState)
    requires Inv(cfg, s) && s.jobsDone < cfg.numJobs
    ensures StepReady(cfg, s)
    ensures Step(cfg, s).currentTime >= s.currentTime
    ensures forall q :: 0 <= q < cfg.numQueues ==> Step(cfg, s).queueIdleTimes[q] >= s.queueIdleTimes[q]
  {
    StepPreserves(cfg, s);
    assert s.events[0] in s.events;
    assert EventFits(cfg, s.currentTime, s.jobs, s.events[0]);
  }

  /** When the loop stops, no event is pending and every job has passed every queue, served in time and chained. */
  lemma Finished(cfg: Config, s: SimState)
    requires Inv(cfg, s) && s.jobsDone >= cfg.numJobs
    ensures s.events == [] && s.jobsDone == cfg.numJobs && |s.jobs| == cfg.numJobs
    ensures forall j :: 0 <= j < |s.jobs| ==>
      && s.jobs[j].jobId == j
      && |s.jobs[j].queueIds| == cfg.numQueues
      && HasVisitTimes(s.jobs[j])
      && ServedInTime(s.jobs[j])
      && Chained(s.jobs[j])
      && s.jobs[j].overallSojournTime == 0.0
    ensures forall q :: 0 <= q < cfg.numQueues ==> s.queueLengths[q] == 0
    ensures s.currentTime >= 0.0 && Sized(cfg, s)
    ensures forall q :: 0 <= q < cfg.numQueues ==>
      && 0.0 <= s.queueUtilizations[q] <= s.queueIdleTimes[q] <= s.currentTime
      && s.timeWeightedJobCounts[q] >= 0.0
  {
    forall q | 0 <= q < cfg.numQueues
      ensures s.queueIdleTimes[q] <= s.currentTime
    {
      assert !HasDepartureAt(s.events, q, s.queueIdleTimes[q]);
    }
    forall j | 0 <= j < |s.jobs|
      ensures && |s.jobs[j].queueIds| == cfg.numQueues
              && HasVisitTimes(s.jobs[j]) && ServedInTime(s.jobs[j]) && Chained(s.jobs[j])
    {
      assert Complete(cfg, s.jobs[j]);
      assert VisitsOk(s.jobs[j]);
    }
  }

  /** The state the event loop stops in, from a state satisfying the invariant: every job done. */
  ghost function RunFrom(cfg: Config, s: SimState): (r: SimState)
    requires Inv(cfg, s)
    ensures Inv(cfg, r) && r.jobsDone >= cfg.numJobs
    decreases Measure(cfg, s)
  {
    if s.jobsDone >= cfg.numJobs then s
    else
      StepPreserves(cfg, s);
      RunFrom(cfg, Step(cfg, s))
  }

  /** A whole run: the first job admitted, the event loop until every job is done, then the statistics pass over every job. */
  ghost function Simulated(cfg: Config): (r: SimState)
    requires ValidConfig(cfg)
    ensures r.events == [] && r.jobsDone == cfg.numJobs && |r.jobs| == cfg.numJobs && Sized(cfg, r)
    ensures forall j :: 0 <= j < |r.jobs| ==> |r.jobs[j].sojournTimes| == cfg.numQueues
  {
    StartEstablishes(cfg);
    var fin := RunFrom(cfg, Started(cfg));
    Finished(cfg, fin);
    fin.(jobs := JobsWithStats(fin.jobs))
  }

  /**
   * A job record at the end of a run: it has visited every queue in order, with
   * one wait and one sojourn per queue; waits are never negative and are
   * exactly sojourn minus service; its total sojourn is its last departure minus
   * its first arrival and the sum of its per-queue sojourns.
   */
  ghost predicate JobFinal(cfg: Config, j: nat, jr: JobRec)
  {
    && cfg.numQueues >= 1
    && jr.jobId == j
    && jr.queueIds == seq(cfg.numQueues, i => i)
    && HasVisitTimes(jr)
    && |jr.waitTimes| == cfg.numQueues && |jr.sojournTimes| == cfg.numQueues
    && (forall i :: 0 <= i < cfg.numQueues ==>
          && 0.0 <= jr.waitTimes[i] <= jr.sojournTimes[i]
          && jr.waitTimes[i] == jr.sojournTimes[i] - jr.serviceTimes[i])
    && jr.overallSojournTime == Sum(jr.sojournTimes)
    && jr.overallSojournTime == jr.departureTimes[cfg.numQueues - 1] - jr.arrivalTimes[0]
  }

  /**
   * A state at the end of a run: numJobs final job records, the clock not
   * negative, every queue empty, its busy time at most its last departure,
   * which is at most the final clock, and its time-weighted count not negative.
   */
  ghost predicate Finalized(cfg: Config, r: SimState)
  {
    && cfg.numJobs >= 1 && cfg.numQueues >= 1
    && r.currentTime >= 0.0 && Sized(cfg, r)
    && r.events == [] && r.jobsDone == cfg.numJobs && |r.jobs| == cfg.numJobs
    && (forall q :: 0 <= q < cfg.numQueues ==>
          && r.queueLengths[q] == 0
          && 0.0 <= r.queueUtilizations[q] <= r.queueIdleTimes[q] <= r.currentTime
          && r.timeWeightedJobCounts[q] >= 0.0)
    && forall j :: 0 <= j < |r.jobs| ==> JobFinal(cfg, j, r.jobs[j])
  }

  /** A job record that went through every queue in order, served in time and chained, is final once its statistics are computed. */
  lemma FinalJob(cfg: Config, j: nat, f: JobRec)
    requires cfg.numQueues >= 1 && f.jobId == j && |f.queueIds| == cfg.numQueues
    requires HasVisitTimes(f) && ServedInTime(f) && Chained(f) && f.overallSojournTime == 0.0
    requires forall i :: 0 <= i < |f.queueIds| ==> f.queueIds[i] == i
    ensures JobFinal(cfg, j, WithStats(f))
  {
    WithStatsFacts(f);
    TotalSojournOfChainedJob(f);
    assert f.queueIds == seq(cfg.numQueues, i => i);
  }

  /** What a whole run guarantees about the jobs and the queues. */
  lemma SimulatedFacts(cfg: Config)
    requires ValidConfig(cfg)
    ensures Finalized(cfg, Simulated(cfg))
  {
    StartEstablishes(cfg);
    var fin := RunFrom(cfg, Started(cfg));
    Finished(cfg, fin);
    var r := Simulated(cfg);
    assert r == fin.(jobs := JobsWithStats(fin.jobs));
    forall j | 0 <= j < |r.jobs|
      ensures JobFinal(cfg, j, r.jobs[j])
    {
      var f := fin.jobs[j];
      assert VisitsOk(f);
      FinalJob(cfg, j, f);
    }
  }
}
