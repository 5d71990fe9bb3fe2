# Batch-service queue simulator, modelled in Dafny

This project models the core of `SimulationModel.py`, a discrete-event
simulator of a single server that serves customers ("demands") in fixed-size
batches.

- A `Simulation` object holds the event clock, the next arrival time
  `t_arrival`, the next departure time `t_depart` (infinity while the server is
  idle), the counters, the list of sampled service times and a LIFO queue of
  the customers present.
- `advance_time` moves the clock to the earlier of the two pending events and
  records the occupancy interval that just ended. It then dispatches an arrival
  (arrivals win ties) or a departure of the batch in service.
- A `Statistic` object keeps the id-to-record map and the occupancy intervals.
  Its readers compute the metrics: mean time in system `u`, mean wait `w`, the
  occupancy distribution `pk`, the expected number present `n` and the
  queue-delay rate `b`.
- `get_simulation_results` steps a fresh simulation a fixed number of times and
  assembles these metrics together with the utilization.

The files:

- `records.dfy` (module `Records`): the value types. These are the customer
  record, the occupancy sample, the `Infinite | At(t)` departure time, and the
  `Result` type whose two errors stand for Python's `ZeroDivisionError` and
  `KeyError`.
- `statistic.dfy` (module `Statistics`): the `Statistic` class and its readers.
  Each reader is a method proved equal to a specification function. The lemmas
  prove what the readers promise:
  - `pk` has one key per observed level and sums to 1;
  - `n` is the area under the occupancy curve over the model time;
  - the delay sums are non-negative, and the time in system dominates the wait.
- `simulation.dfy` (module `Simulations`): the `Simulation` class. Its
  transitions are also written as functions on a `SimState` snapshot. The
  invariant `Inv` covers counters, sentinel, queue shape, records, service and
  time accounting; lemmas prove that every step preserves it.
- `driver.dfy` (module `Driver`): `get_simulation_results`. The model proves
  when it fails, how its metrics relate to each other, and three concrete runs.

The model follows the code in these places:

- **The waiting line is a `queue.LifoQueue`.** A put appends and a get removes
  the newest entry. Batch stamping reads `queue.queue[0..batch_size-1]`, the
  oldest entries. The model keeps this LIFO removal; it does not remove
  oldest-first.
  - The customers stamped are then not the ones removed. This holds for every
    batch size, as soon as more than `batch_size` customers are present at a
    departure.
  - A record can be stamped more than once: the customer left at the front is
    stamped again when the next batch starts. The readers `u`, `w` and `b`
    therefore see only a customer's last stamp. A customer that is popped
    without ever being stamped contributes nothing to them.
  - `Driver.PairRunLeavesTheServedCustomer` shows this for batch size 2.
    After the first batch {1, 2} departs, customer 1 is still queued although
    stamped as departed. Customer 3 has left without ever being stamped.
  - `Driver.SlowRunRestampsTheServedCustomer` shows it for batch size 1. The
    departure at 1.5 pops the waiting customer 2, who was never stamped. The
    restart stamps customer 1 a second time, to depart at 3.0 with service
    starting at 1.5.
- **An arrival that starts a batch sets `t_depart = t_arrival + service_time`.**
  This equals `clock + service_time`, because an arrival is only dispatched
  when the clock has just reached `t_arrival` (`Simulations.TickInv`).
- **Unstamped service fields keep the value 0.0**, as in `Demand.__init__`. The
  readers sum only strictly positive differences, so such a record contributes
  nothing (`Statistics.UnstampedAddsNothing`).
- **Degenerate runs fail with a division by zero, as the code does.** No
  parameter check runs first. The model proves that a run fails exactly when
  no customer arrived or the clock is still 0, and never with a `KeyError`
  (`Driver.RunOutcome`).

The random draws become inputs. `Config` carries two sample streams
`nat -> real`: the k-th interarrival draw and the k-th service draw. The only
property assumed of them is that no sample is negative
(`Simulations.SamplesNonNegative`), which an exponential distribution
guarantees.

The specification functions, and the lemmas that state their properties:

- `Simulations.Initial` (SimulationModel.py:101-121): `Simulations.InitialInv`.
- `Simulations.Tick` (SimulationModel.py:124-135) and `Simulations.Advance`
  (SimulationModel.py:123-140): `Simulations.AdvanceStep`, `Simulations.TickInv`,
  `Simulations.AdvanceReady`, `Simulations.AdvanceInv`.
- `Simulations.Join` (SimulationModel.py:143-153), `Simulations.StartService`
  (SimulationModel.py:155-163) and `Simulations.Arrival`
  (SimulationModel.py:142-165): `Simulations.JoinStampable`,
  `Simulations.ArrivalStartsBatch`, `Simulations.ArrivalJoinsQueue`,
  `Simulations.ArrivalInv`.
- `Simulations.Leave` (SimulationModel.py:168-172) and `Simulations.Departure`
  (SimulationModel.py:167-184): `Simulations.LeaveStampable`,
  `Simulations.DepartureStartsBatch`, `Simulations.DepartureIdles`,
  `Simulations.DepartureInv`.
- `Simulations.StampAll` (SimulationModel.py:159-161): `Simulations.StampAllAt`.
- `Statistics.AddTo` (SimulationModel.py:74-77): the `Statistics.AddTo*` lemmas.
- `Statistics.Grouped` (SimulationModel.py:71-77): the `Statistics.Grouped*` lemmas.
- `Statistics.Scale` (SimulationModel.py:79): the `Statistics.Scale*` lemmas.
- `Statistics.Pk` (SimulationModel.py:70-79): `Statistics.PkShares`,
  `Statistics.PkSumsToOne`, `Statistics.PkSharesAreProbabilities`,
  `Statistics.NIsAreaOverTime`.
- `Statistics.DelaySum` (SimulationModel.py:51-55): `Statistics.DelayTotal`,
  `Statistics.DelaySumNonNegative`, `Statistics.InSystemDominatesInQueue`,
  `Statistics.UnstampedAddsNothing`.
- `Driver.Summarize` (SimulationModel.py:202-207): the `Driver.Summary*` lemmas.
- `Driver.Run` (SimulationModel.py:193-219): `Driver.RunOutcome`,
  `Driver.RunMetrics`, `Driver.GetSimulationResults`.

## Model

| member | source | states |
|---|---|---|
| Records.EarliestEvent | SimulationModel.py:124 | the next event time is at most t_arrival, at most a finite t_depart, and equal to one of them |
| Statistics.Statistic.constructor | SimulationModel.py:28-30 | a new accumulator has no records and no intervals |
| Statistics.Statistic.UpdateArrival | SimulationModel.py:37-38 | the record is stored under its id; nothing else changes |
| Statistics.Statistic.UpdateDeparture | SimulationModel.py:40-46 | the record is stored under its id with departure, service and start time overwritten; nothing else changes |
| Statistics.DelayTotal | SimulationModel.py:51-57 | succeeds iff ids 1..n all have records; otherwise a KeyError on the smallest missing id in 1..n; on success the sum of the strictly positive delays |
| Statistics.DelayAverage | SimulationModel.py:48-57 | succeeds iff ids 1..n are all registered and the denominator is nonzero; a missing id gives DelayTotal's KeyError, on the smallest missing id, even when the denominator is also 0; with every id registered, a zero denominator gives ZeroDivision, and ZeroDivision arises only then; on success the positive-delay sum over the denominator |
| Statistics.FirstMissing | SimulationModel.py:51-52 | yields the smallest id in the range without a record (everything below it present), or none when all are present |
| Statistics.Statistic.PositiveDelays | SimulationModel.py:49-55 | the collecting loop of get_u/get_w/get_b returns the same outcome as DelayTotal, including the KeyError at the first missing id |
| Statistics.Statistic.GetU | SimulationModel.py:48-57 | get_u equals the positive time-in-system sum of ids 1..n over n, with ZeroDivision for n = 0 and KeyError for a missing id |
| Statistics.Statistic.GetW | SimulationModel.py:59-68 | get_w equals the positive wait sum of ids 1..n over n, with the same error cases |
| Statistics.Statistic.GetB | SimulationModel.py:81-90 | get_b equals the positive wait sum of ids 1..n over the model time, with ZeroDivision for model time 0 |
| Statistics.Statistic.GetPk | SimulationModel.py:70-79 | the grouping loop and the division yield Pk: the empty dict with no intervals, ZeroDivision with intervals and model time 0, else the per-level shares |
| Statistics.Statistic.GetN | SimulationModel.py:92-97 | get_n returns the sum of level times share over pk's entries |
| Statistics.AddToKeys | SimulationModel.py:74-77 | one dict update makes the level a key, keeps the other keys distinct, and adds an entry exactly when the level is new |
| Statistics.AddToAmount | SimulationModel.py:74-77 | one dict update adds the duration to that level's value and to no other |
| Statistics.AddToSums | SimulationModel.py:74-77 | one dict update adds d to the total and d times the level to the weighted sum |
| Statistics.AddToNonNegative | SimulationModel.py:74-77 | non-negative durations keep every value non-negative |
| Statistics.GroupedKeys | SimulationModel.py:71-77 | pnSums has exactly the observed levels as keys, each once, and is empty iff there are no intervals |
| Statistics.GroupedAmount | SimulationModel.py:71-77 | pnSums[k] is the total time spent at level k |
| Statistics.GroupedSums | SimulationModel.py:71-77 | pnSums totals the recorded time, and its level-weighted sum is the area under the occupancy curve |
| Statistics.GroupedNonNegative | SimulationModel.py:71-77 | non-negative durations give non-negative pnSums values |
| Statistics.ScaleAt | SimulationModel.py:79 | the comprehension divides each entry's value by the model time and keeps its key and position |
| Statistics.ScaleKeys | SimulationModel.py:79 | the comprehension keeps the number of entries, the keys and their distinctness |
| Statistics.ScaleAmount | SimulationModel.py:79 | every level's value is divided by the model time |
| Statistics.ScaleTotal | SimulationModel.py:79 | the total is divided by the model time |
| Statistics.ScaleWeighted | SimulationModel.py:79 | the level-weighted sum is divided by the model time |
| Statistics.PkShares | SimulationModel.py:70-79 | get_pk fails iff intervals exist and model time is 0, always with ZeroDivision; otherwise its keys are the observed levels, each once, and pk[k] is the time at level k over the model time |
| Statistics.PkSumsToOne | SimulationModel.py:70-79 | when the intervals cover the model time, the shares sum to 1 |
| Statistics.PkSharesAreProbabilities | SimulationModel.py:70-79 | with non-negative intervals covering the model time, every share lies in [0, 1] |
| Statistics.NIsAreaOverTime | SimulationModel.py:92-97 | get_n of get_pk is the area under the occupancy curve over the model time |
| Statistics.BucketWithinTotal | SimulationModel.py:79 | with non-negative values, each pnSums value lies between 0 and the total |
| Statistics.TotalNonNegative | SimulationModel.py:79 | non-negative values have a non-negative total |
| Statistics.DelaySumNonNegative | SimulationModel.py:54-55 | keeping only positive delays makes every delay sum non-negative |
| Statistics.InSystemDominatesInQueue | SimulationModel.py:53-66 | when no record starts service after it departs, the positive time-in-system sum is at least the positive wait sum |
| Statistics.UnstampedAddsNothing | SimulationModel.py:53-55 | a record still at its 0.0 defaults with a non-negative arrival time adds nothing to either delay sum |
| Simulations.StampAllAt | SimulationModel.py:159-161 | stamping a batch keeps the set of ids; listed records get the batch's three fields, all other records are unchanged |
| Simulations.InitialInv | SimulationModel.py:101-121 | the fresh state satisfies the invariant, with clock 0, no departure scheduled and no intervals |
| Simulations.AdvanceStep | SimulationModel.py:123-140 | one advance_time appends exactly one interval (the level before the event, lasting from the old clock to min(t_arrival, t_depart)), moves the clock there, adds level times duration to total_wait, and handles an arrival iff t_arrival <= t_depart |
| Simulations.TickInv | SimulationModel.py:124-135 | the clock advance keeps the invariant, never moves the clock back, and lands on t_arrival when an arrival is dispatched |
| Simulations.ArrivalCounts | SimulationModel.py:142-165 | an arrival keeps the counters, the sentinel, the queue shape and the time accounting |
| Simulations.ArrivalRegistry | SimulationModel.py:147-161 | after an arrival the records are exactly ids 1..num_arrivals, each under its own id and consistently timed |
| Simulations.ArrivalInService | SimulationModel.py:155-163 | after an arrival the front batch of the queue carries the scheduled departure time and the last service time |
| Simulations.ArrivalInv | SimulationModel.py:142-165 | an arrival at the current clock keeps the whole invariant |
| Simulations.DepartureCounts | SimulationModel.py:167-184 | a departure keeps the counters, the sentinel, the queue shape and the time accounting |
| Simulations.DepartureRecords | SimulationModel.py:174-184 | after a departure the records stay consistent and a restarted batch is stamped at the front of the queue |
| Simulations.DepartureInv | SimulationModel.py:167-184 | a departure of the batch in service keeps the whole invariant |
| Simulations.InvReady | SimulationModel.py:137-140 | the invariant gives the handler preconditions: count equals queue length, a scheduled departure has a full batch, queued ids are registered under their own id |
| Simulations.JoinStampable | SimulationModel.py:147-153 | registering and queueing a new customer keeps queued ids registered and records self-keyed |
| Simulations.LeaveStampable | SimulationModel.py:171-172 | removing a batch from the queue keeps queued ids registered and records self-keyed |
| Simulations.AdvanceReady | SimulationModel.py:123-184 | every step keeps count equal to queue length and a full batch present while a departure is scheduled |
| Simulations.AdvanceInv | SimulationModel.py:123-140 | advance_time keeps the invariant and never moves the clock back |
| Simulations.ArrivalStartsBatch | SimulationModel.py:142-165 | an arrival that finds the server idle with a full batch sets t_depart to t_arrival plus the next service draw and appends the draw; it stamps queue entries 0..batch_size-1 with that departure, service time and the clock; all other records are unchanged; the next arrival is at the clock plus the next interarrival draw |
| Simulations.ArrivalJoinsQueue | SimulationModel.py:142-165 | an arrival that starts no batch only adds the new record and queue entry and schedules the next arrival at clock plus the next interarrival draw |
| Simulations.DepartureStartsBatch | SimulationModel.py:167-182 | a departure that leaves a full batch removes the last batch_size entries and restarts service from the clock, stamping the front of the remaining queue; other records are unchanged |
| Simulations.DepartureIdles | SimulationModel.py:167-184 | a departure that leaves less than a batch sets t_depart back to infinity and changes no record |
| Simulations.DeparturesInWholeBatches | SimulationModel.py:168-169 | departures never exceed arrivals and, for a positive batch size, are a multiple of it; a scheduled departure has a full batch in the queue |
| Simulations.Simulation.constructor | SimulationModel.py:101-121 | the new simulation is in the initial state (clock 0, t_arrival 0, t_depart infinite, empty queue and statistics) and satisfies the invariant |
| Simulations.Simulation.AdvanceTime | SimulationModel.py:123-140 | the new state is Advance of the old one, and the invariant is kept |
| Simulations.Simulation.HandleArrivalEvent | SimulationModel.py:142-165 | the new state is Arrival of the old one |
| Simulations.Simulation.HandleDepartEvent | SimulationModel.py:167-184 | the new state is Departure of the old one; the loop of batch_size gets drops the last entries |
| Simulations.Simulation.StartBatch | SimulationModel.py:155-163 | the new state is StartService of the old one: t_depart, the stamped front batch and the recorded service draw |
| Simulations.Simulation.StampBatch | SimulationModel.py:159-161 | the stamping loop leaves the map equal to StampAll of the front batch; the intervals are unchanged |
| Driver.Iterate | SimulationModel.py:194-200 | every state reached by stepping a fresh simulation meets the handlers' preconditions |
| Driver.IterateInv | SimulationModel.py:194-200 | every state reached by stepping a fresh simulation satisfies the invariant |
| Driver.Utilization | SimulationModel.py:206 | fails iff the clock is 0, with ZeroDivision; otherwise utilization times clock is the sum of the service times |
| Driver.GetSimulationResults | SimulationModel.py:193-219 | the loop of advance_time calls and the metric readers return Run of the inputs |
| Driver.InvSummaryFacts | SimulationModel.py:202-207 | in every reachable state ids 1..num_arrivals are registered, no record starts service after its departure, and time is accounted for |
| Driver.SummaryOutcome | SimulationModel.py:202-207 | with ids 1..num_arrivals registered, the summary succeeds iff num_arrivals > 0 and clock != 0, and fails only with ZeroDivision |
| Driver.SummaryDistribution | SimulationModel.py:204-205 | pk has the observed levels as keys, each once, sums to 1 and has every share in [0, 1]; n equals total_wait / clock |
| Driver.SummaryDelays | SimulationModel.py:202-203 | demands_count is num_arrivals and 0 <= w <= u |
| Driver.SummaryQueueRate | SimulationModel.py:202-207 | b times clock equals w times num_arrivals |
| Driver.SummaryUtilization | SimulationModel.py:206 | utilization times clock is the sum of the service times, and utilization is non-negative |
| Driver.RunOutcome | SimulationModel.py:193-219 | a run fails iff nobody arrived or the clock is still 0, and then only with ZeroDivision, never KeyError |
| Driver.RunMetrics | SimulationModel.py:193-219 | a successful run's pk sums to 1 with shares in [0, 1], n equals total_wait / clock, 0 <= w <= u and utilization >= 0 |
| Driver.UnitRunSteps | SimulationModel.py:123-184 | with batch 1, interarrival 1.0 and service 0.5, the three steps go arrival at 0, departure at 0.5, arrival at 1.0 |
| Driver.UnitRunSummary | SimulationModel.py:202-207 | the metrics of that state are u 0.5, w 0, pk {0: 0.5, 1: 0.5}, n 0.5, b 0, utilization 1.0 |
| Driver.UnitRunReaches | SimulationModel.py:199-200 | three advance_time calls of that run reach that state |
| Driver.UnitRunThreeSteps | SimulationModel.py:193-219 | that run gives 2 arrivals, 1 departure, clock 1.0, intervals (0, 0), (1, 0.5), (0, 0.5) and summary (2, 0.5, 0, {0: 0.5, 1: 0.5}, 0.5, 0, 1.0) |
| Driver.PairRunSteps | SimulationModel.py:123-184 | with batch 2, interarrival 1.0 and service 1.5, the four steps are arrivals at 0, 1.0 (batch {1, 2} to depart at 2.5) and 2.0, then the departure at 2.5 |
| Driver.PairRunReaches | SimulationModel.py:199-200 | four advance_time calls of that run reach that state |
| Driver.PairRunLeavesTheServedCustomer | SimulationModel.py:153-172 | after that departure the queue is [1], customer 1 is stamped to depart at 2.5, and customer 3 is off the queue and unstamped |
| Driver.SlowRunSteps | SimulationModel.py:123-184 | with batch 1, interarrival 1.0 and service 1.5, the three steps are arrivals at 0 (served until 1.5) and 1.0, then the departure at 1.5, which restarts service until 3.0 |
| Driver.SlowRunReaches | SimulationModel.py:199-200 | three advance_time calls of that run reach that state |
| Driver.SlowRunRestampsTheServedCustomer | SimulationModel.py:153-182 | after that departure the queue is [1], customer 2 is off the queue and unstamped, and customer 1 is stamped a second time, to depart at 3.0 with start 1.5 |

## Left out

- The random source: `generate_interarrival` and `generate_service` call
  `np.random.exponential`. They are replaced by two input streams of
  non-negative samples, indexed by how many draws of each kind were taken.
  `arrival_rate` and `service_rate` therefore do not appear.
- Floating point: times are exact reals. Rounding, NaN and the IEEE infinity
  are not modelled. `Infinite` stands for `float('inf')`.
- `queue.LifoQueue` locking and blocking: the model's queue is a plain
  sequence. A `get` on an empty queue, which would block, cannot happen:
  `Simulations.DeparturesInWholeBatches` shows a full batch is always queued
  when a departure is handled.
- Object identity: the Python queue and the id-to-record dict share the same
  `Demand` objects, and `updateStatistic_departure` mutates the queued object
  before storing it back. In the model the queue holds customer ids, and
  stamping rewrites the record stored under that id. This is the same effect,
  because every queued id is registered under its own id
  (`Simulations.InvReady`).
- `__repr__` of both record classes: string formatting only.
- The `u_result`, `w_result`, `pk_result` and `b_result` lists of
  `Statistic`: they are initialised but never used.
- The result dictionary: it is a `Results` datatype with the same seven
  entries. `pk` is a sequence of (level, share) buckets in the insertion order
  of the Python dict.
- Negative `batch_size` or `time_ticks`: both are natural numbers here.
  The code checks neither. A negative `range` would simply run no
  iterations.
- The utilization bound in the stability regime: it is a long-run statistical
  property of exponential samples and is not a property of any single run.
- Driver.RunMetrics: does not state the relation b * clock == w * demands_count.
  That relation is stated for every successful summary by
  Driver.SummaryQueueRate, which applies to runs because Run is Summarize of the
  final state.
