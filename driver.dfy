/** get_simulation_results: build a simulation, step it a fixed number of
    times, and read the summary metrics off the final state in the order the
    source computes them (u, w, pk, n, utilization, b). */
module Driver {
  import opened Records
  import opened Statistics
  import opened Simulations

  /** The summary dictionary's seven entries. `pk` keeps the insertion order
      of the Python dict built by get_pk. */
  datatype Results = Results(
    demandsCount: nat,
    u: real,
    w: real,
    pk: seq<Bucket>,
    n: real,
    b: real,
    utilization: real)

  /** The state after `k` calls of advance_time on a fresh simulation. */
  function Iterate(c: Config, k: nat): (s: SimState)
    ensures Ready(c, s)
  {
    if k == 0 then
      Initial()
    else
      var prev := Iterate(c, k - 1);
      AdvanceReady(c, prev);
      Advance(c, prev)
  }

  /** Every state of a run satisfies the invariant. */
  lemma {:induction false} IterateInv(c: Config, k: nat)
    requires SamplesNonNegative(c)
    ensures Inv(c, Iterate(c, k))
  {
    if k == 0 {
      InitialInv(c);
    } else {
      IterateInv(c, k - 1);
      AdvanceInv(c, Iterate(c, k - 1));
    }
  }

  /** sum(service_times) / clock. */
  function Utilization(serviceTimes: seq<real>, clock: real): (r: Result<real>)
    ensures r.Err? <==> clock == 0.0
    ensures r.Err? ==> r.error == ZeroDivision
    ensures r.Ok? ==> r.value * clock == Sum(serviceTimes)
  {
    if clock == 0.0 then Err(ZeroDivision) else Ok(Sum(serviceTimes) / clock)
  }

  /** The metric assembly: the first reader that fails decides the error. */
  function Summarize(s: SimState): Result<Results> {
    var u :- DelayAverage(s.demands, s.numArrivals, InSystem, s.numArrivals as real);
    var w :- DelayAverage(s.demands, s.numArrivals, InQueue, s.numArrivals as real);
    var pk :- Pk(s.intervals, s.clock);
    var n := Weighted(pk);
    var utilization :- Utilization(s.serviceTimes, s.clock);
    var b :- DelayAverage(s.demands, s.numArrivals, InQueue, s.clock);
    Ok(Results(s.numArrivals, u, w, pk, n, b, utilization))
  }

  /** get_simulation_results as a function of its inputs. */
  function Run(c: Config, timeTicks: nat): Result<Results> {
    Summarize(Iterate(c, timeTicks))
  }

  /** get_simulation_results. */
  method GetSimulationResults(timeTicks: nat, batchSize: nat, interarrival: nat -> real, service: nat -> real)
    returns (r: Result<Results>)
    requires SamplesNonNegative(Config(batchSize, interarrival, service))
    ensures r == Run(Config(batchSize, interarrival, service), timeTicks)
  {
    var s := new Simulation(batchSize, interarrival, service);
    for i := 0 to timeTicks
      invariant s.Valid() && s.Snapshot() == Iterate(s.Cfg(), i)
    {
      s.AdvanceTime();
    }
    var u :- s.statistic.GetU(s.numArrivals);
    var w :- s.statistic.GetW(s.numArrivals);
    var pk :- s.statistic.GetPk(s.clock);
    var n := s.statistic.GetN(pk);
    if s.clock == 0.0 {
      return Err(ZeroDivision);
    }
    var utilization := Sum(s.serviceTimes) / s.clock;
    var b :- s.statistic.GetB(s.numArrivals, s.clock);
    var demandsCount := s.numArrivals;
    return Ok(Results(demandsCount, u, w, pk, n, b, utilization));
  }

  // ---------------------------------------------------------------------------
  // Properties of a run.
  // ---------------------------------------------------------------------------

  /** Every id handed out so far has a record. */
  predicate Registered(s: SimState) {
    forall j :: 1 <= j <= s.numArrivals ==> j in s.demands
  }

  /** No record starts service after it departs. */
  predicate ServedBeforeDeparting(s: SimState) {
    forall j :: 1 <= j <= s.numArrivals && j in s.demands ==>
      s.demands[j].serviceStartTime <= s.demands[j].departureTime
  }

  /** What the metric readers rely on holds in every reachable state. */
  lemma InvSummaryFacts(c: Config, s: SimState)
    requires Inv(c, s)
    ensures Registered(s) && ServedBeforeDeparting(s) && Timing(s)
  {
    assert Registry(s);
    forall j | 1 <= j <= s.numArrivals && j in s.demands
      ensures s.demands[j].serviceStartTime <= s.demands[j].departureTime
    {
      assert WellTimed(s.demands[j], s.clock);
    }
  }

  /** The summary fails exactly when nobody arrived or no time passed, and
      then only with a division by zero: with every id 1..num_arrivals
      registered, the readers never raise a KeyError. */
  lemma SummaryOutcome(s: SimState)
    requires Registered(s)
    ensures Summarize(s).Ok? <==> s.numArrivals > 0 && s.clock != 0.0
    ensures Summarize(s).Err? ==> Summarize(s).error == ZeroDivision
  {
  }

  /** pk of a successful summary is a probability distribution over exactly
      the observed levels that sums to 1, and n is the time average
      total_wait / clock of the number present. */
  lemma SummaryDistribution(s: SimState)
    requires Timing(s) && Summarize(s).Ok?
    ensures var r := Summarize(s).value;
      DistinctLevels(r.pk) && Levels(r.pk) == LevelSet(s.intervals)
      && Total(r.pk) == 1.0
      && (forall j :: 0 <= j < |r.pk| ==> 0.0 <= r.pk[j].amount <= 1.0)
      && r.n == s.totalWait / s.clock
  {
    assert s.clock > 0.0;
    assert s.intervals != [];
    assert Summarize(s).value.pk == Pk(s.intervals, s.clock).value;
    PkShares(s.intervals, s.clock, 0);
    PkSumsToOne(s.intervals, s.clock);
    PkSharesAreProbabilities(s.intervals, s.clock);
    NIsAreaOverTime(s.intervals, s.clock);
  }

  /** The delay averages of a successful summary: 0 <= w <= u, since nobody
      starts service after departing. */
  lemma SummaryDelays(s: SimState)
    requires ServedBeforeDeparting(s) && Summarize(s).Ok?
    ensures Summarize(s).value.demandsCount == s.numArrivals
    ensures 0.0 <= Summarize(s).value.w <= Summarize(s).value.u
  {
    var n := s.numArrivals;
    InSystemDominatesInQueue(s.demands, n);
    DelaySumNonNegative(s.demands, n, InQueue);
    DivideMonotone(DelaySum(s.demands, n, InQueue), DelaySum(s.demands, n, InSystem), n as real);
  }

  /** b and w of a successful summary divide the same positive-wait sum, by
      the clock and by demands_count: b * clock == w * demands_count. */
  lemma SummaryQueueRate(s: SimState)
    requires Summarize(s).Ok?
    ensures Summarize(s).value.b * s.clock == Summarize(s).value.w * (s.numArrivals as real)
  {
    var r := Summarize(s).value;
    SameNumerator(DelaySum(s.demands, s.numArrivals, InQueue), s.numArrivals as real, s.clock, r.w, r.b);
  }

  /** Utilization of a successful summary is the non-negative total service
      time over the clock. */
  lemma SummaryUtilization(s: SimState)
    requires Timing(s) && Summarize(s).Ok?
    ensures Summarize(s).value.utilization * s.clock == Sum(s.serviceTimes)
    ensures Summarize(s).value.utilization >= 0.0
  {
    assert Summarize(s).value.utilization == Utilization(s.serviceTimes, s.clock).value;
    SumNonNegative(s.serviceTimes);
    DivideMonotone(0.0, Sum(s.serviceTimes), s.clock);
  }

  /** A run fails exactly when nobody arrived or no time passed, and then
      only with a division by zero. */
  lemma RunOutcome(c: Config, timeTicks: nat)
    requires SamplesNonNegative(c)
    ensures var s := Iterate(c, timeTicks);
      Run(c, timeTicks).Ok? <==> s.numArrivals > 0 && s.clock != 0.0
    ensures Run(c, timeTicks).Err? ==> Run(c, timeTicks).error == ZeroDivision
  {
    IterateInv(c, timeTicks);
    InvSummaryFacts(c, Iterate(c, timeTicks));
    SummaryOutcome(Iterate(c, timeTicks));
  }

  /** The metrics of every successful run agree with each other and with the
      final state. */
  lemma RunMetrics(c: Config, timeTicks: nat)
    requires SamplesNonNegative(c) && Run(c, timeTicks).Ok?
    ensures Run(c, timeTicks).value.demandsCount == Iterate(c, timeTicks).numArrivals
    ensures Total(Run(c, timeTicks).value.pk) == 1.0
    ensures forall j :: 0 <= j < |Run(c, timeTicks).value.pk| ==> 0.0 <= Run(c, timeTicks).value.pk[j].amount <= 1.0
    ensures Run(c, timeTicks).value.n == Iterate(c, timeTicks).totalWait / Iterate(c, timeTicks).clock
    ensures 0.0 <= Run(c, timeTicks).value.w <= Run(c, timeTicks).value.u
    ensures Run(c, timeTicks).value.utilization >= 0.0
  {
    var s := Iterate(c, timeTicks);
    assert Run(c, timeTicks) == Summarize(s);
    IterateInv(c, timeTicks);
    InvSummaryFacts(c, s);
    SummaryDistribution(s);
    SummaryDelays(s);
    SummaryUtilization(s);
  }

  // ---------------------------------------------------------------------------
  // Three concrete runs with constant sample streams.
  // ---------------------------------------------------------------------------

  /** Batch size 1, every interarrival draw 1.0, every service draw 0.5. */
  function UnitRun(): (c: Config)
    ensures SamplesNonNegative(c)
  {
    Config(1, (k: nat) => 1.0, (k: nat) => 0.5)
  }

  /** The states of UnitRun after one, two and three steps: arrival at 0
      (served until 0.5), departure at 0.5, arrival at 1.0 (served until 1.5). */
  function UnitState(k: nat): SimState {
    var d1 := Demand(1, 0.0, 0.5, 0.5, 0.0);
    var d2 := Demand(2, 1.0, 1.5, 0.5, 1.0);
    var a := DemandNumberTimeInterval(0, 0.0);
    var b := DemandNumberTimeInterval(1, 0.5);
    var i1 := [a];
    var i2 := [a, b];
    var i3 := [a, b, DemandNumberTimeInterval(0, 0.5)];
    if k == 0 then Initial()
    else if k == 1 then SimState(0.0, 1.0, At(0.5), 1, 1, 0, 1, 0.0, [0.5], [1], map[1 := d1], i1)
    else if k == 2 then SimState(0.5, 1.0, Infinite, 0, 1, 1, 1, 0.5, [0.5], [], map[1 := d1], i2)
    else SimState(1.0, 2.0, At(1.5), 1, 2, 1, 2, 0.5, [0.5, 0.5], [2], map[1 := d1, 2 := d2], i3)
  }

  lemma UnitRunSteps()
    ensures Ready(UnitRun(), UnitState(0)) && Advance(UnitRun(), UnitState(0)) == UnitState(1)
    ensures Ready(UnitRun(), UnitState(1)) && Advance(UnitRun(), UnitState(1)) == UnitState(2)
    ensures Ready(UnitRun(), UnitState(2)) && Advance(UnitRun(), UnitState(2)) == UnitState(3)
  {
  }

  lemma UnitRunSummary()
    ensures Summarize(UnitState(3)) == Ok(Results(2, 0.5, 0.0, [Bucket(0, 0.5), Bucket(1, 0.5)], 0.5, 0.0, 1.0))
  {
    var s := UnitState(3);
    assert DelaySum(s.demands, 2, InSystem) == 1.0;
    assert DelaySum(s.demands, 2, InQueue) == 0.0;
    var iv := s.intervals;
    assert iv[..2][..1] == iv[..1] && iv[..1][..0] == [] && iv[..3] == iv;
    assert Grouped(iv[..0]) == [];
    assert Grouped(iv[..1]) == [Bucket(0, 0.0)];
    assert Grouped(iv[..2]) == AddTo([Bucket(0, 0.0)], 1, 0.5) == [Bucket(0, 0.0), Bucket(1, 0.5)];
    assert Grouped(iv) == AddTo([Bucket(0, 0.0), Bucket(1, 0.5)], 0, 0.5) == [Bucket(0, 0.5), Bucket(1, 0.5)];
    var g := [Bucket(0, 0.5), Bucket(1, 0.5)];
    assert g[1..] == [Bucket(1, 0.5)] && g[1..][1..] == [];
    assert Scale(g, 1.0) == g;
    assert Pk(iv, 1.0) == Ok(g);
    assert Weighted([Bucket(0, 0.5), Bucket(1, 0.5)]) == 0.5;
    assert [0.5, 0.5][..1] == [0.5];
    assert Sum(s.serviceTimes) == 1.0;
    assert Utilization(s.serviceTimes, s.clock) == Ok(1.0);
  }

  lemma UnitRunReaches()
    ensures Iterate(UnitRun(), 3) == UnitState(3)
  {
    var c := UnitRun();
    UnitRunSteps();
    assert Iterate(c, 0) == UnitState(0);
    assert Iterate(c, 1) == UnitState(1);
    assert Iterate(c, 2) == UnitState(2);
  }

  /** Three steps of UnitRun: two arrivals, one departure, clock 1.0,
      intervals (level 0 for 0), (1 for 0.5), (0 for 0.5), and the summary
      u 0.5, w 0, pk {0: 0.5, 1: 0.5}, n 0.5, b 0, utilization 1.0. */
  lemma UnitRunThreeSteps()
    ensures var s := Iterate(UnitRun(), 3);
      s.numArrivals == 2 && s.numDeparts == 1 && s.clock == 1.0
      && s.intervals == [DemandNumberTimeInterval(0, 0.0), DemandNumberTimeInterval(1, 0.5), DemandNumberTimeInterval(0, 0.5)]
    ensures Run(UnitRun(), 3) == Ok(Results(2, 0.5, 0.0, [Bucket(0, 0.5), Bucket(1, 0.5)], 0.5, 0.0, 1.0))
  {
    UnitRunReaches();
    UnitRunSummary();
  }

  /** Batch size 2, every interarrival draw 1.0, every service draw 1.5. */
  function PairRun(): (c: Config)
    ensures SamplesNonNegative(c)
  {
    Config(2, (k: nat) => 1.0, (k: nat) => 1.5)
  }

  /** The states of PairRun after one to four steps: arrivals at 0, 1.0 (the
      batch {1, 2} enters service until 2.5) and 2.0, then the departure at 2.5. */
  function PairState(k: nat): SimState {
    var e1 := Demand(1, 0.0, 2.5, 1.5, 1.0);
    var e2 := Demand(2, 1.0, 2.5, 1.5, 1.0);
    var d3 := NewDemand(3, 2.0);
    var a := DemandNumberTimeInterval(0, 0.0);
    var b := DemandNumberTimeInterval(1, 1.0);
    var d := DemandNumberTimeInterval(2, 1.0);
    var i1 := [a];
    var i2 := [a, b];
    var i3 := [a, b, d];
    var i4 := [a, b, d, DemandNumberTimeInterval(3, 0.5)];
    if k == 0 then Initial()
    else if k == 1 then SimState(0.0, 1.0, Infinite, 1, 1, 0, 1, 0.0, [], [1], map[1 := NewDemand(1, 0.0)], i1)
    else if k == 2 then SimState(1.0, 2.0, At(2.5), 2, 2, 0, 2, 1.0, [1.5], [1, 2], map[1 := e1, 2 := e2], i2)
    else if k == 3 then SimState(2.0, 3.0, At(2.5), 3, 3, 0, 3, 3.0, [1.5], [1, 2, 3], map[1 := e1, 2 := e2, 3 := d3], i3)
    else SimState(2.5, 3.0, Infinite, 1, 3, 2, 3, 4.5, [1.5], [1], map[1 := e1, 2 := e2, 3 := d3], i4)
  }

  lemma PairRunSteps()
    ensures Ready(PairRun(), PairState(0)) && Advance(PairRun(), PairState(0)) == PairState(1)
    ensures Ready(PairRun(), PairState(1)) && Advance(PairRun(), PairState(1)) == PairState(2)
    ensures Ready(PairRun(), PairState(2)) && Advance(PairRun(), PairState(2)) == PairState(3)
    ensures Ready(PairRun(), PairState(3)) && Advance(PairRun(), PairState(3)) == PairState(4)
  {
    var ds := map[1 := NewDemand(1, 0.0), 2 := NewDemand(2, 1.0)];
    var q: seq<int> := [1, 2];
    assert q[..2] == q && q[..1] == [1] && q[..1][..0] == [];
    assert StampAll(ds, q[..1], 2.5, 1.5, 1.0) == ds[1 := Demand(1, 0.0, 2.5, 1.5, 1.0)];
    assert StampAll(ds, q, 2.5, 1.5, 1.0) == map[1 := Demand(1, 0.0, 2.5, 1.5, 1.0), 2 := Demand(2, 1.0, 2.5, 1.5, 1.0)];
  }

  lemma PairRunReaches()
    ensures Iterate(PairRun(), 4) == PairState(4)
  {
    var c := PairRun();
    PairRunSteps();
    assert Iterate(c, 0) == PairState(0);
    assert Iterate(c, 1) == PairState(1);
    assert Iterate(c, 2) == PairState(2);
    assert Iterate(c, 3) == PairState(3);
  }

  /** Four steps of PairRun show the source's stack discipline: customers 1
      and 2 are stamped as the batch served until 2.5, customer 3 arrives at
      2.0, and the departure at 2.5 takes the last two entries, 2 and 3, off
      the queue. Customer 1, stamped as departed, is still queued, and
      customer 3 has left without ever being stamped. */
  lemma PairRunLeavesTheServedCustomer()
    ensures var s := Iterate(PairRun(), 4);
      s.clock == 2.5 && s.numDeparts == 2 && s.queue == [1]
      && 1 in s.demands && s.demands[1].departureTime == 2.5
      && 3 in s.demands && 3 !in s.queue && Unstamped(s.demands[3])
  {
    PairRunReaches();
  }

  /** Batch size 1, every interarrival draw 1.0, every service draw 1.5. */
  function SlowRun(): (c: Config)
    ensures SamplesNonNegative(c)
  {
    Config(1, (k: nat) => 1.0, (k: nat) => 1.5)
  }

  /** The states of SlowRun after one to three steps: arrival at 0 (served
      until 1.5), arrival at 1.0 (waits), then the departure at 1.5. */
  function SlowState(k: nat): SimState {
    var d1 := Demand(1, 0.0, 1.5, 1.5, 0.0);
    var a := DemandNumberTimeInterval(0, 0.0);
    var b := DemandNumberTimeInterval(1, 1.0);
    var i1 := [a];
    var i2 := [a, b];
    var i3 := [a, b, DemandNumberTimeInterval(2, 0.5)];
    if k == 0 then Initial()
    else if k == 1 then SimState(0.0, 1.0, At(1.5), 1, 1, 0, 1, 0.0, [1.5], [1], map[1 := d1], i1)
    else if k == 2 then SimState(1.0, 2.0, At(1.5), 2, 2, 0, 2, 1.0, [1.5], [1, 2], map[1 := d1, 2 := NewDemand(2, 1.0)], i2)
    else SimState(1.5, 2.0, At(3.0), 1, 2, 1, 2, 2.0, [1.5, 1.5], [1], map[1 := Demand(1, 0.0, 3.0, 1.5, 1.5), 2 := NewDemand(2, 1.0)], i3)
  }

  lemma SlowRunSteps()
    ensures Ready(SlowRun(), SlowState(0)) && Advance(SlowRun(), SlowState(0)) == SlowState(1)
    ensures Ready(SlowRun(), SlowState(1)) && Advance(SlowRun(), SlowState(1)) == SlowState(2)
    ensures Ready(SlowRun(), SlowState(2)) && Advance(SlowRun(), SlowState(2)) == SlowState(3)
  {
    var q: seq<int> := [1, 2];
    assert q[..|q| - 1] == [1];
  }

  lemma SlowRunReaches()
    ensures Iterate(SlowRun(), 3) == SlowState(3)
  {
    var c := SlowRun();
    SlowRunSteps();
    assert Iterate(c, 0) == SlowState(0);
    assert Iterate(c, 1) == SlowState(1);
    assert Iterate(c, 2) == SlowState(2);
  }

  /** The stack discipline matters for batch size 1 too: customer 1 is in
      service until 1.5 and customer 2 waits from 1.0. The departure at 1.5
      pops customer 2, who was never stamped, and the restart stamps
      customer 1 a second time, to depart at 3.0 with service starting at 1.5. */
  lemma SlowRunRestampsTheServedCustomer()
    ensures var s := Iterate(SlowRun(), 3);
      s.clock == 1.5 && s.numDeparts == 1 && s.queue == [1] && s.tDepart == At(3.0)
      && 1 in s.demands && s.demands[1].departureTime == 3.0 && s.demands[1].serviceStartTime == 1.5
      && 2 in s.demands && 2 !in s.queue && Unstamped(s.demands[2])
  {
    SlowRunReaches();
  }

  lemma DivideMonotone(x: real, y: real, t: real)
    requires 0.0 <= x <= y && t > 0.0
    ensures 0.0 <= x / t <= y / t
  {
  }

  lemma SameNumerator(q: real, n: real, t: real, w: real, b: real)
    requires n != 0.0 && t != 0.0 && w == q / n && b == q / t
    ensures b * t == w * n
  {
    assert b * t == q;
    assert w * n == q;
  }

  lemma {:induction false} SumNonNegative(xs: seq<real>)
    requires forall j :: 0 <= j < |xs| ==> xs[j] >= 0.0
    ensures Sum(xs) >= 0.0
  {
    if xs != [] {
      SumNonNegative(xs[..|xs| - 1]);
    }
  }
}
