# Tandem queue simulator

A discrete-event simulator of a chain of single-server queues. Jobs enter the
first queue, are served, and move on to the next queue the instant they leave.
After leaving the last queue, a job is done. The simulator keeps its pending
events in a doubly linked list ordered by time. Events with equal times stay
in arrival order, first in, first out: a departure and the arrival it causes
at the next queue share one timestamp.

Each event updates four things:
- the queue lengths;
- the server-free watermark of each queue;
- the busy times;
- the time-weighted job counts.

When every job is done, the simulator computes:
- per-job waits and sojourns;
- per-queue utilization, mean job count and mean sojourn;
- the overall means and the throughput.

It then compares these with the closed-form values of a tandem Jackson
network, in which every station is an M/M/1 queue fed at the external arrival
rate.

There are two variants of the simulator:

- **Presampled** (`tandemqueuesimulator2.py`). All inter-arrival and service
  times are drawn before the run, from distribution descriptors, and indexed by
  job id. Throughput is jobs per unit time. A separate method computes the
  Jackson values into fields.
- **On demand** (`tandemqueuesimulator.py`). Every time is drawn from one
  random stream when it is needed. Throughput is stored as time per job, and
  only for Poisson arrivals. The Jackson comparison is part of the statistics
  pass.

The project has these modules:

- `Events` (`events.dfy`): the event records and the sorted-insertion
  specification `Insert`. Its lemmas prove sortedness, contents and FIFO
  stability. `EventStack` is the linked list of `Event` nodes, with a ghost
  node sequence, and its insert and pop are proved against `Insert`.
- `Jobs` (`jobs.dfy`): the job record, the statistics pass as a function
  (`WithStats`), and the `Job` class whose `CalculateJobStats` loop is proved
  against it.
- `Kernel` (`kernel.dfy`): the simulator's state as a value (`SimState`) and
  one pure function per step of the event loop (`Admit`, `Serve`, `Arrive`,
  `Depart`, `Integrated`, `Step`). Datatype `Sampling` says where samples come
  from. Both variants run this kernel.
- `Invariant` (`invariant.dfy`): the invariant every state of the event loop
  satisfies. Starting a run establishes it. Each iteration keeps it while a
  measure of remaining work drops by one. From it: the pop never meets an
  empty list, the loop stops, and at its end every job has visited every
  queue in order.
- `Statistics` (`statistics.dfy`): the statistics pass as a function, and its
  bounds and sums.
- `Jackson` (`jackson.dfy`): the closed-form station and network values, with
  their error cases, and the per-queue comparison of the on-demand variant.
- `Distributions` (`distributions.dfy`): the sampler's dispatch on a
  distribution type name, and the set-up of a presampled run.
- `Simulation` (`simulator.dfy`): the simulator class. Its fields hold the run
  state. Each method is proved to change exactly the fields it names, as the
  kernel function for that step says.
- `Common` (`common.dfy`): errors, `Result`, `Option`, `Sum`.

Random numbers are inputs. The presampled variant's sample arrays are part of
its configuration. The on-demand variant's stream is a function
`draw(k, purpose)` giving the k-th draw. Clocks, printing and plotting have no
counterpart in the model.

## Model

| member | source | states |
|---|---|---|
| Events.FirstLater | eventstack.py:68-69 | The scan stops in front of the first event strictly later than the new one; every event before that point is not later |
| Events.InsertContents | eventstack.py:55-75 | Insertion adds exactly the new event: the length grows by one and the multiset of events grows by that event |
| Events.InsertPreservesSorted | eventstack.py:55-75 | Inserting into a list sorted by time leaves it sorted |
| Events.InsertAfterEqualTimes | eventstack.py:61-69 | In a sorted list, the new event is placed after every event not later than it and before every later one |
| Events.AtTimeInsert | eventstack.py:68-75 | FIFO tie-break: after an insertion, the events with any one timestamp are the old ones followed by the new event if it has that timestamp |
| Events.InsertAllSorted | eventstack.py:55-75 | Any sequence of insertions into a sorted list leaves it sorted |
| Events.InsertAllStable | eventstack.py:55-75 | Stability: after any sequence of insertions, the events with one timestamp are those already present, then the inserted ones in insertion order |
| Events.Event.constructor | eventstack.py:43-49 | A new event carries the given time, type and job id, with no links |
| Events.EventStack.constructor | eventstack.py:51-53 | A new event stack is empty |
| Events.EventStack.InsertEvent | eventstack.py:55-75 | Links the node in at the position of the sorted insertion; the list stays well linked and its contents are Insert of the old contents |
| Events.EventStack.PopEvent | eventstack.py:77-84 | On an empty list, returns null and changes nothing. Otherwise it unlinks and returns the first node, which no event of a sorted list precedes in time, and the links stay consistent |
| Events.EventStack.UnlinkHead | eventstack.py:80-84 | Removing the head leaves a well-linked list of the remaining nodes with the new head's back link cleared |
| Jobs.Job.constructor | eventstack.py:8-17 | A new job has its id, no visits and no statistics |
| Jobs.Job.CalculateJobStats | eventstack.py:19-26 | One wait and one sojourn per visited queue: the wait is departure minus service minus arrival, clamped at zero; the sojourn is departure minus arrival; the total grows by the sum of the sojourns |
| Jobs.WithStatsFacts | eventstack.py:19-26 | Waits are never negative; for a job served no earlier than arrival plus service, the clamp is inactive and the wait is sojourn minus service, at most the sojourn |
| Jobs.SojournsTelescope | eventstack.py:23-26 | On a chained job, the first m sojourns add up to the m-th departure minus the first arrival |
| Jobs.TotalSojournOfChainedJob | eventstack.py:19-26 | A chained job's total sojourn is its last departure minus its first arrival |
| Distributions.ParseKind | tandemqueuesimulator2.py:14-45 | A recognised name is the name of the kind returned; any other name is the unsupported-distribution error |
| Distributions.ParseKindName | tandemqueuesimulator2.py:14-43 | Each of the five kinds is recognised by its own name |
| Distributions.ParseKindAccepts | tandemqueuesimulator2.py:14-45 | The dispatch accepts a name exactly when it is one of the five names |
| Distributions.GenerateTimes | tandemqueuesimulator2.py:10-47 | Yields the drawn samples, one per requested sample, exactly when the type is supported, and fails with the unsupported-distribution error otherwise |
| Distributions.RateSum | tandemqueuesimulator2.py:88 | The sum of the rates exists exactly when every descriptor has a rate, and it is then the sum of their values |
| Distributions.SystemThroughput | tandemqueuesimulator2.py:88 | The analytic system throughput as numpy sums the arrival rates collected at line 56: a single rate is returned as it is, even when absent; the empty list sums to zero; over two or more rates the sum fails exactly when one is absent, and otherwise it is the sum of the values |
| Distributions.FirstUnsupported | tandemqueuesimulator2.py:84-85 | Finds the first service descriptor with an unsupported type, or says that all are supported |
| Distributions.SetUpSucceeds | tandemqueuesimulator2.py:51-93 | Construction succeeds exactly when an arrival descriptor exists, one service descriptor per queue exists, all have supported types and, with jackson and two or more arrival descriptors, every one of them has a rate. A single arrival descriptor without a rate is accepted and gives an absent throughput. Then the rates, their sum and the samples are stored, and the configuration is valid exactly when there are jobs and queues and no sample is negative |
| Kernel.InterArrivalSample | tandemqueuesimulator.py:36-42 | The gap before a job's arrival is its presampled entry or the stream's next draw, and is never negative |
| Kernel.ServiceSample | tandemqueuesimulator.py:45-46 | A job's service time at a queue is its presampled entry or the stream's next draw, and is never negative |
| Invariant.StartEstablishes | tandemqueuesimulator2.py:110-119 | Admitting the first job establishes the loop invariant: the one pending event is job 0's arrival at queue 0, the queues are empty and the job ids match list positions |
| Invariant.StepPreserves | tandemqueuesimulator2.py:138-195 | While fewer than all jobs are done, the event list is not empty, so the pop finds an event. Processing it keeps the invariant: queue lengths equal pending departures, one event per unfinished job, busy time within the watermark, admission while jobs remain. The remaining work drops by one |
| Invariant.StepMonotone | tandemqueuesimulator2.py:124-160 | While jobs remain, a step never moves the clock back and no queue's departure watermark (queue_idletimes) decreases, because each event lies at or after the current time and each departure at or after the watermark |
| Invariant.RunFrom | tandemqueuesimulator2.py:123-129 | The event loop terminates, in a state that satisfies the invariant with every job done |
| Invariant.Finished | tandemqueuesimulator2.py:123 | At loop exit the event list is empty and exactly the N jobs exist. Each has visited queues 0..Q-1 in order, arriving at each next queue the instant it left the last one. Every queue is empty, and busy time is at most the last departure, which is at most the clock |
| Invariant.Simulated | tandemqueuesimulator2.py:110-136 | A whole run ends with no events, all N jobs done and one sojourn per queue on every job |
| Invariant.FinalJob | eventstack.py:19-26 | A job that went through every queue in order, served in time and chained, ends with waits between zero and its sojourns, and with a total sojourn equal to both the sum of its sojourns and last departure minus first arrival |
| Invariant.SimulatedFacts | tandemqueuesimulator2.py:110-136 | After a whole run every job record is final in the above sense and every queue's length is zero, with busy time at most the clock and a non-negative time-weighted count |
| Simulation.RunStep | tandemqueuesimulator2.py:123-129 | One loop iteration is ready to run, keeps the invariant, lowers the measure and does not change where the run ends |
| Simulation.Comparisons | tandemqueuesimulator.py:151-174 | The Jackson comparison is made only for on-demand runs with Poisson arrivals; other runs compare nothing. For Poisson runs it succeeds exactly when the first arrival rate is present and every queue has a service rate that is present, non-zero and different from it |
| Simulation.TandemQueueSimulator.constructor | tandemqueuesimulator2.py:51-93 | A new simulator has clocks at zero, all per-queue lists zero, no jobs, an empty event stack and every statistic and analytic value zero (the same initial state as tandemqueuesimulator.py:9-33) |
| Simulation.TandemQueueSimulator.AdmitJob | tandemqueuesimulator2.py:167-175 | Creates the next job at queue 0, arriving one inter-arrival gap after the current time, and schedules that arrival |
| Simulation.TandemQueueSimulator.AcceptArrival | tandemqueuesimulator2.py:143-160 | One more job at the queue; the service time is recorded and added to busy time. The departure is arrival plus service, or watermark plus service when the server is still busy, and becomes the new watermark |
| Simulation.TandemQueueSimulator.ServeJob | tandemqueuesimulator2.py:143-163 | The state after an arrival's service is scheduled is the kernel's Serve of the previous state |
| Simulation.TandemQueueSimulator.ArriveJob | tandemqueuesimulator2.py:143-175 | An arrival is served, and at queue 0 it admits the next job while jobs remain |
| Simulation.TandemQueueSimulator.LeaveQueue | tandemqueuesimulator2.py:180-184 | A departure shortens its queue by one and records the departure time |
| Simulation.TandemQueueSimulator.EnterQueue | tandemqueuesimulator2.py:190-191 | The job records the next queue and its arrival there at the current time |
| Simulation.TandemQueueSimulator.Forward | tandemqueuesimulator2.py:186-191 | Before the last queue, the job's arrival at the next queue is scheduled at the current time |
| Simulation.TandemQueueSimulator.DepartJob | tandemqueuesimulator2.py:180-194 | A departure forwards the job, or at the last queue counts it as done, and at no other queue |
| Simulation.TandemQueueSimulator.Integrate | tandemqueuesimulator2.py:140-141 | Every queue's time-weighted count grows by the elapsed time times its current length |
| Simulation.TandemQueueSimulator.ProcessEvent | tandemqueuesimulator2.py:138-195 | After the pop, processing the event yields exactly the kernel's next state |
| Simulation.TandemQueueSimulator.ApplyEvent | tandemqueuesimulator2.py:143-194 | The event's effect is the arrival or departure effect, according to its type |
| Simulation.TandemQueueSimulator.PopNext | tandemqueuesimulator2.py:124-128 | The head event is removed and the clock moves to its time; the elapsed time is measured from the previous event |
| Simulation.TandemQueueSimulator.HandleNext | tandemqueuesimulator2.py:124-129 | One iteration of the loop body is one kernel step |
| Simulation.TandemQueueSimulator.RunEvents | tandemqueuesimulator2.py:123-129 | The loop ends in the state where the kernel's run from the current state ends |
| Simulation.TandemQueueSimulator.FinishJobs | tandemqueuesimulator2.py:133-134 | Every job record gets its statistics |
| Simulation.TandemQueueSimulator.StartRun | tandemqueuesimulator2.py:111-119 | The first job is admitted and the loop invariant holds |
| Simulation.TandemQueueSimulator.RunJobs | tandemqueuesimulator2.py:110-129 | The admission and the loop together leave the state where the run from the first admission ends |
| Simulation.TandemQueueSimulator.RunSimulation | tandemqueuesimulator2.py:110-136 | A whole run leaves the state of a complete simulation, for which SimulatedFacts holds; for the on-demand variant (tandemqueuesimulator.py:49-74) the stream is drawn in the order that run draws: service before the next inter-arrival gap |
| Simulation.TandemQueueSimulator.AverageQueue | tandemqueuesimulator2.py:202-206 | For one queue: the utilization becomes busy time over the clock, the mean job count becomes time-weighted count over the clock and is added to the overall count, and the mean sojourn is the mean over all jobs |
| Simulation.TandemQueueSimulator.PerQueueStatistics | tandemqueuesimulator2.py:202-206 | The same for every queue, with the overall count growing by the sum of the means |
| Simulation.TandemQueueSimulator.CompareWithJackson | tandemqueuesimulator.py:151-174 | The per-queue check is the Jackson comparison of the simulated utilizations, counts and sojourns |
| Simulation.TandemQueueSimulator.CalculateStatistics | tandemqueuesimulator.py:132-180 | With zero simulated time, it fails and changes no statistic. Otherwise the fields hold the statistics summary. For presampled runs (tandemqueuesimulator2.py:201-209) the throughput is N / T. For on-demand runs it is T / N, set only for Poisson arrivals and only once the per-queue check has passed, and the result reports the check, then whether 1 / lambda exists |
| Simulation.TandemQueueSimulator.StoreStation | tandemqueuesimulator2.py:230-237 | One station's analytic utilization, length and sojourn are stored, and its length is added to the number in the system |
| Simulation.TandemQueueSimulator.DetermineStatsWithJackson | tandemqueuesimulator2.py:222-242 | The result is the closed-form network from the first arrival rate, with its error cases; on success the analytic fields hold exactly those values |
| Statistics.Throughput | tandemqueuesimulator.py:151-178 | On demand: throughput times N is the simulated time for Poisson arrivals; for non-Poisson arrivals the old value stays. Presampled (tandemqueuesimulator2.py:209): throughput times the simulated time is N |
| Statistics.SummaryExists | tandemqueuesimulator2.py:201-209 | At the end of a run, the statistics exist exactly when the simulated time is positive |
| Statistics.SummaryOfQueues | tandemqueuesimulator2.py:202-205 | Every utilization lies in [0, 1] and every mean count is non-negative; the overall count grows by the total time-weighted count over the clock |
| Statistics.SummaryOfSojourns | tandemqueuesimulator2.py:206-208 | The overall mean sojourn equals the sum over queues of the per-queue mean sojourns |
| Jackson.SojournFormula | tandemqueuesimulator.py:161-166 | Length over lambda, with length rho / (1 - rho) and rho = lambda / mu, is 1 / (mu - lambda) |
| Jackson.StationAt | tandemqueuesimulator2.py:230-237 | A station's values exist exactly when its rate is present, non-zero and not equal to lambda, and lambda is non-zero. Then utilization is lambda / mu, sojourn is 1 / (mu - lambda) and length is lambda times sojourn. A missing rate and a zero divisor are distinct errors |
| Jackson.StableStation | tandemqueuesimulator2.py:230-237 | For 0 < lambda < mu the load is strictly between 0 and 1, and length and sojourn are positive |
| Jackson.Stations | tandemqueuesimulator2.py:227-238 | Stations are computed in queue order; all succeed exactly when each does, and otherwise the first failing station's error is the result |
| Jackson.StationsStop | tandemqueuesimulator2.py:227-238 | Once a station fails, the loop's result is that station's error, however many queues follow |
| Jackson.Determine | tandemqueuesimulator2.py:222-242 | No arrival rates and a first arrival descriptor without a rate are the two failures before any station |
| Jackson.DetermineSucceeds | tandemqueuesimulator2.py:222-242 | The network's values exist exactly when the first arrival rate is present and non-zero and every queue's service rate is present, non-zero and different from it |
| Jackson.DetermineSojourns | tandemqueuesimulator2.py:237-240 | Each station's sojourn is 1 / (mu - lambda), and from no jobs the system's sojourn is the sum of the stations' sojourns |
| Jackson.DetermineLittle | tandemqueuesimulator2.py:240 | Little's law for the chain: the number in the system is lambda times the system's sojourn |
| Jackson.CompareAt | tandemqueuesimulator.py:153-174 | One queue's comparison exists exactly when its rate is present, non-zero and not lambda. It pairs the simulated values with the analytic ones, which for non-zero lambda are StationAt's, and puts the two sides of Little's law side by side |
| Jackson.Checks | tandemqueuesimulator.py:153-174 | Queues are compared in order; the check passes exactly when each queue's does, one line per queue |
| Jackson.ChecksStop | tandemqueuesimulator.py:153-174 | Once a queue fails the check, the result is that queue's error, however many queues follow |
| Jackson.JacksonCheck | tandemqueuesimulator.py:151-174 | A passing check over at least one queue had a first arrival rate |
| Jackson.JacksonCheckMatches | tandemqueuesimulator.py:151-174 | The check passes exactly when the first arrival rate is present and every service rate is present, non-zero and not lambda. For non-zero lambda, its analytic columns are the presampled variant's network values |
| Jackson.InterArrivalMean | tandemqueuesimulator.py:179 | 1 / lambda exists exactly when the first arrival rate is present and non-zero, and then times lambda it is one |

## Left out

- Sampling numerics: the numpy generators behind the five distribution kinds, and their parameters other than `rate`, are not modelled. Samples are inputs, required to be non-negative.
- Floating point: times and rates are reals. `np.mean` is the exact mean, and rounding is not modelled.
- Statistics on zero simulated time are a failure in the model. The on-demand variant raises `ZeroDivisionError` there. In the presampled variant, numpy division gives infinities or NaN instead.
- Simulation.TandemQueueSimulator.CalculateStatistics: a job list with no jobs is excluded. Such a list exists only before a run, when the clock is still the integer 0, so the source raises `ZeroDivisionError` at the first division (tandemqueuesimulator.py:135, tandemqueuesimulator2.py:203) before `np.mean` is reached. A run always creates at least one job.
- `run_simulation`'s `first_queueid` parameter is fixed at its default, 0.
- The `if event:` guard in the loop is always true: the invariant proves that the pop never meets an empty list, so the spinning loop on an empty list is unreachable.
- Numbers of jobs and queues are required to be at least one. With zero jobs the presampled variant reads `inter_arrivaltimes[0]` of an empty sample list (tandemqueuesimulator2.py:112) and raises `IndexError`. The on-demand variant creates job 0, skips the loop, and raises `IndexError` in `calulate_jobstats` on job 0's empty departure list (eventstack.py:24). With zero queues both index queue 0.
- A missing `params` key, or a missing descriptor key, raises `KeyError` in the source; it is not modelled. Descriptors carry only their type name and their optional rate.
- Dead state is not modelled: `queue_waittimes` is written but never read, and variant 1's `queues` deques are never used.
- The presampled variant's `generate_interarrival_time` and `generate_service_time` (tandemqueuesimulator2.py:97-107) are never called. The first also reads a `non_poisson` field that variant never sets. Neither is modelled.
- Simulation.TandemQueueSimulator.DetermineStatsWithJackson: on failure its contract says nothing about the analytic fields. The source has by then written the earlier stations' values and part of the failing one.
- Events.EventStack.PopEvent: the popped node keeps its `next` link, as in the source, and the contract does not describe that link.
- Job records are held as values in the simulator's `jobs` field, not as shared `Job` objects. The statistics pass applies `WithStats` to each record, which is exactly what `Jobs.Job.CalculateJobStats` is proved to do to one object.
- Jobs.Job.CalculateJobStats requires the arrival, service and departure lists to be at least as long as the list of queues. On shorter lists the source raises `IndexError`. At the end of a run the lists always have that length.
- Within one event, the model checks the effect of the whole step rather than the source's order of field updates. The order is not observable by other code.
- Both variants are one class. The presampled variant's Jackson fields are present in the on-demand configuration too, and stay zero there unless `DetermineStatsWithJackson` is called.
- Printing, the wall-clock timing of runs, `print_stats`, `print_jobstats` and `get_total_simulationtime` are not modelled.
- `main.py`, `main2.py` and `simulationplot.py` (replications, confidence intervals, plots) are not part of this model.
