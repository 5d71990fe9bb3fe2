/** The event engine of the batch-service queue: the clock advance and the
    arrival and departure handlers. The ordered container of waiting customers
    behaves as the source's LIFO queue does: a put appends at the end, a get
    removes from the end, and batch stamping reads entries 0..batchSize-1 from
    the front. */
module Simulations {
  import opened Records
  import opened Statistics

  /** The run's fixed parameters. The exponential samples of the random source
      are supplied as two streams: the k-th interarrival draw (counting from 0)
      is interarrival(k), the k-th service draw is service(k). */
  datatype Config = Config(batchSize: nat, interarrival: nat -> real, service: nat -> real)

  /** The only property assumed of the random source: samples are never negative. */
  ghost predicate SamplesNonNegative(c: Config) {
    (forall k: nat :: c.interarrival(k) >= 0.0) && (forall k: nat :: c.service(k) >= 0.0)
  }

  /** A snapshot of the engine and of its statistics: the customer queue holds ids,
      and `demands` is the statistic's id-to-record map, the one place where the
      records live. */
  datatype SimState = SimState(
    clock: real,
    tArrival: real,
    tDepart: DepartureTime,
    numInSystem: int,
    numArrivals: nat,
    numDeparts: nat,
    arrivalId: nat,
    totalWait: real,
    serviceTimes: seq<real>,
    queue: seq<int>,
    demands: map<int, Demand>,
    intervals: seq<DemandNumberTimeInterval>)

  /** The state right after construction: clock and first arrival at 0, no departure scheduled. */
  function Initial(): SimState {
    SimState(0.0, 0.0, Infinite, 0, 0, 0, 0, 0.0, [], [], map[], [])
  }

  // ---------------------------------------------------------------------------
  // The transitions, as functions of the state.
  // ---------------------------------------------------------------------------

  /** The customers stamped when a batch enters service: every id in `ids`
      gets the batch's departure time, service time and start time. */
  function StampAll(ds: map<int, Demand>, ids: seq<int>, departureTime: real, serviceTime: real, start: real): map<int, Demand> {
    if ids == [] then ds
    else
      var prev := StampAll(ds, ids[..|ids| - 1], departureTime, serviceTime, start);
      var id := ids[|ids| - 1];
      if id in prev then prev[id := Stamp(prev[id], departureTime, serviceTime, start)] else prev
  }

  /** The first half of handle_arrival_event: the next id is handed out, its
      record (arrival time t_arrival, service fields unset) is registered and
      the customer is put on the queue. */
  function Join(s: SimState): SimState {
    var id := s.arrivalId + 1;
    s.(arrivalId := id, numInSystem := s.numInSystem + 1, numArrivals := s.numArrivals + 1,
       demands := s.demands[id := NewDemand(id, s.tArrival)], queue := s.queue + [id])
  }

  /** A batch enters service: the next service draw is taken, t_depart becomes
      `from` plus that draw, queue entries 0..batchSize-1 are stamped with the
      departure time, the service time and the current clock, and the draw is
      appended to service_times. */
  function StartService(c: Config, s: SimState, from: real): SimState
    requires c.batchSize <= |s.queue|
  {
    var serviceTime := c.service(|s.serviceTimes|);
    var departure := from + serviceTime;
    s.(tDepart := At(departure),
       demands := StampAll(s.demands, s.queue[..c.batchSize], departure, serviceTime, s.clock),
       serviceTimes := s.serviceTimes + [serviceTime])
  }

  /** The first half of handle_depart_event: the counters move by a batch and
      `batchSize` gets drop the last entries of the LIFO queue. */
  function Leave(c: Config, s: SimState): SimState
    requires c.batchSize <= |s.queue|
  {
    s.(numInSystem := s.numInSystem - c.batchSize, numDeparts := s.numDeparts + c.batchSize,
       queue := s.queue[..|s.queue| - c.batchSize])
  }

  /** handle_arrival_event: a batch starts, from t_arrival, when the server is
      idle and a full batch is present; then the next arrival is scheduled. */
  function Arrival(c: Config, s: SimState): SimState
    requires s.numInSystem == |s.queue|
  {
    var s1 := Join(s);
    var s2 := if s1.numInSystem >= c.batchSize && s1.tDepart == Infinite then StartService(c, s1, s1.tArrival) else s1;
    s2.(tArrival := s2.clock + c.interarrival(s.numArrivals))
  }

  /** handle_depart_event: the batch leaves, and the next one starts at once,
      from the clock, if a full batch remains; otherwise the server goes idle. */
  function Departure(c: Config, s: SimState): SimState
    requires s.numInSystem == |s.queue| >= c.batchSize
  {
    var s1 := Leave(c, s);
    if s1.numInSystem >= c.batchSize then StartService(c, s1, s1.clock) else s1.(tDepart := Infinite)
  }

  /** The first half of advance_time: move the clock to the next event and
      record the occupancy interval that just ended. */
  function Tick(s: SimState): SimState {
    var tEvent := EarliestEvent(s.tArrival, s.tDepart);
    s.(totalWait := s.totalWait + (s.numInSystem as real) * (tEvent - s.clock),
       clock := tEvent,
       intervals := s.intervals + [DemandNumberTimeInterval(s.numInSystem, tEvent - s.clock)])
  }

  /** The state conditions the handlers rely on: the counter matches the queue,
      and a scheduled departure has a full batch to remove. */
  predicate Ready(c: Config, s: SimState) {
    s.numInSystem == |s.queue| && (s.tDepart.At? ==> s.numInSystem >= c.batchSize)
  }

  /** What the stamping loop needs: every queued id is registered, and every
      record sits under its own id. */
  predicate Stampable(s: SimState) {
    (forall j :: 0 <= j < |s.queue| ==> s.queue[j] in s.demands)
    && (forall id :: id in s.demands ==> s.demands[id].id == id)
  }

  /** advance_time. */
  function Advance(c: Config, s: SimState): SimState
    requires Ready(c, s)
  {
    var s1 := Tick(s);
    if ArrivalFirst(s1.tArrival, s1.tDepart) then Arrival(c, s1) else Departure(c, s1)
  }

  // ---------------------------------------------------------------------------
  // The invariant.
  // ---------------------------------------------------------------------------

  function Busy(s: SimState): nat {
    if s.tDepart.At? then 1 else 0
  }

  /** Counting: ids are handed out in arrival order, arrivals minus departures is
      the number present and the queue length; every started batch but the one
      in service has left, `batchSize` customers each. */
  predicate Counters(c: Config, s: SimState) {
    s.arrivalId == s.numArrivals
    && s.numArrivals - s.numDeparts == s.numInSystem == |s.queue|
    && |s.serviceTimes| >= Busy(s)
    && s.numDeparts == (|s.serviceTimes| - Busy(s)) * c.batchSize
  }

  /** The sentinel: a departure is scheduled only with a full batch present, and
      the server is idle only while fewer than a batch are present (or before the
      first arrival). */
  predicate Sentinel(c: Config, s: SimState) {
    (s.tDepart.At? ==> s.numInSystem >= c.batchSize)
    && (s.tDepart == Infinite ==> s.numInSystem < c.batchSize || s.numArrivals == 0)
  }

  /** The queue holds known ids in increasing (arrival) order. */
  predicate QueueShape(s: SimState) {
    (forall j :: 0 <= j < |s.queue| ==> 1 <= s.queue[j] <= s.numArrivals)
    && (forall j, k :: 0 <= j < k < |s.queue| ==> s.queue[j] < s.queue[k])
  }

  /** A record arrived no later than now and is either unstamped or stamped
      consistently: service started after arrival and no later than now, and
      departure is service start plus a non-negative service time. */
  predicate WellTimed(d: Demand, clock: real) {
    0.0 <= d.arrivalTime <= clock
    && (Unstamped(d)
        || (d.arrivalTime <= d.serviceStartTime <= clock && d.serviceTime >= 0.0
            && d.departureTime == d.serviceStartTime + d.serviceTime))
  }

  /** The statistic's map has exactly the ids 1..numArrivals, each under its own id. */
  ghost predicate Registry(s: SimState) {
    (forall id :: id in s.demands <==> 1 <= id <= s.numArrivals)
    && (forall id :: id in s.demands ==> s.demands[id].id == id && WellTimed(s.demands[id], s.clock))
  }

  /** While a batch is in service, the front `batchSize` entries of the queue
      carry its departure time and its service time, the last one recorded. */
  predicate InService(c: Config, s: SimState) {
    s.tDepart.At? ==>
      |s.serviceTimes| > 0
      && forall j :: 0 <= j < c.batchSize && j < |s.queue| && s.queue[j] in s.demands ==>
           s.demands[s.queue[j]].departureTime == s.tDepart.time
           && s.demands[s.queue[j]].serviceTime == s.serviceTimes[|s.serviceTimes| - 1]
  }

  /** Time accounting: the clock is behind both pending events, the intervals
      are non-negative and cover [0, clock], and total_wait is their area. */
  predicate Timing(s: SimState) {
    0.0 <= s.clock <= s.tArrival
    && (s.tDepart.At? ==> s.clock <= s.tDepart.time)
    && Durations(s.intervals) == s.clock
    && Area(s.intervals) == s.totalWait
    && NonNegativeDurations(s.intervals)
    && (forall j :: 0 <= j < |s.intervals| ==> s.intervals[j].numberOfDemands >= 0)
    && (forall j :: 0 <= j < |s.serviceTimes| ==> s.serviceTimes[j] >= 0.0)
  }

  ghost predicate Inv(c: Config, s: SimState) {
    Counters(c, s) && Sentinel(c, s) && QueueShape(s) && Registry(s) && InService(c, s) && Timing(s)
  }

  // ---------------------------------------------------------------------------
  // Lemmas.
  // ---------------------------------------------------------------------------

  /** Stamping touches exactly the listed ids: they get the batch's three
      fields, every other record (and every id and arrival time) is kept. */
  lemma {:induction false} StampAllAt(ds: map<int, Demand>, ids: seq<int>, departureTime: real, serviceTime: real, start: real)
    ensures StampAll(ds, ids, departureTime, serviceTime, start).Keys == ds.Keys
    ensures forall id :: id in ds ==>
      StampAll(ds, ids, departureTime, serviceTime, start)[id]
        == if id in ids then Stamp(ds[id], departureTime, serviceTime, start) else ds[id]
  {
    if ids != [] {
      var init := ids[..|ids| - 1];
      StampAllAt(ds, init, departureTime, serviceTime, start);
      forall id | id in ds
        ensures id in ids <==> id in init || id == ids[|ids| - 1]
      {
        assert ids == init + [ids[|ids| - 1]];
      }
    }
  }

  lemma InitialInv(c: Config)
    ensures Inv(c, Initial())
    ensures Initial().clock == 0.0 && Initial().tDepart == Infinite && Initial().intervals == []
  {
  }

  /** One step of advance_time: exactly one interval is appended, of length
      min(t_arrival, t_depart) minus the old clock and at the level before the
      event; the clock moves to that minimum; an arrival is handled iff
      t_arrival <= t_depart, a departure otherwise. */
  lemma AdvanceStep(c: Config, s: SimState)
    requires Ready(c, s)
    ensures var r := Advance(c, s); var t := EarliestEvent(s.tArrival, s.tDepart);
      r.clock == t
      && r.intervals == s.intervals + [DemandNumberTimeInterval(s.numInSystem, t - s.clock)]
      && r.totalWait == s.totalWait + (s.numInSystem as real) * (t - s.clock)
      && (ArrivalFirst(s.tArrival, s.tDepart) ==> r.numArrivals == s.numArrivals + 1 && r.numDeparts == s.numDeparts)
      && (!ArrivalFirst(s.tArrival, s.tDepart) ==>
            r.numArrivals == s.numArrivals && r.numDeparts == s.numDeparts + c.batchSize)
  {
  }

  /** The clock advance keeps the invariant: the new interval is non-negative
      because both pending events lie ahead of the clock. */
  lemma TickInv(c: Config, s: SimState)
    requires Inv(c, s)
    ensures Inv(c, Tick(s))
    ensures Tick(s).clock >= s.clock
    ensures ArrivalFirst(Tick(s).tArrival, Tick(s).tDepart) ==> Tick(s).clock == Tick(s).tArrival
  {
    var r := Tick(s);
    var t := EarliestEvent(s.tArrival, s.tDepart);
    assert r.intervals[..|s.intervals|] == s.intervals;
    assert NonNegativeDurations(r.intervals) by {
      forall j | 0 <= j < |r.intervals| ensures r.intervals[j].timeInterval >= 0.0 {
        if j < |s.intervals| { assert r.intervals[j] == s.intervals[j]; }
      }
    }
    assert forall j :: 0 <= j < |r.intervals| ==> r.intervals[j].numberOfDemands >= 0 by {
      forall j | 0 <= j < |r.intervals| ensures r.intervals[j].numberOfDemands >= 0 {
        if j < |s.intervals| { assert r.intervals[j] == s.intervals[j]; }
      }
    }
    assert Registry(r) by {
      forall id | id in r.demands ensures WellTimed(r.demands[id], r.clock) {
        assert WellTimed(s.demands[id], s.clock);
      }
    }
  }

  /** An arrival registers the next id and appends it to the queue; the counters move by one. */
  lemma ArrivalCounts(c: Config, s: SimState)
    requires SamplesNonNegative(c) && Inv(c, s) && s.clock == s.tArrival
    ensures Counters(c, Arrival(c, s)) && Sentinel(c, Arrival(c, s)) && QueueShape(Arrival(c, s))
    ensures Timing(Arrival(c, s))
  {
  }

  /** The records after an arrival: the new customer's record, then the batch stamp if one starts. */
  lemma ArrivalRegistry(c: Config, s: SimState)
    requires SamplesNonNegative(c) && Inv(c, s) && s.clock == s.tArrival
    ensures Registry(Arrival(c, s))
  {
    var r := Arrival(c, s);
    var id := s.arrivalId + 1;
    var base := s.demands[id := NewDemand(id, s.tArrival)];
    var q := s.queue + [id];
    assert forall i :: i in base ==> base[i].id == i && WellTimed(base[i], s.clock);
    if s.numInSystem + 1 >= c.batchSize && s.tDepart == Infinite {
      var serviceTime := c.service(|s.serviceTimes|);
      StampAllAt(base, q[..c.batchSize], s.tArrival + serviceTime, serviceTime, s.clock);
      assert r.demands == StampAll(base, q[..c.batchSize], s.tArrival + serviceTime, serviceTime, s.clock);
      forall i | i in r.demands
        ensures r.demands[i].id == i && WellTimed(r.demands[i], r.clock)
      {
        assert WellTimed(base[i], s.clock);
      }
    } else {
      assert r.demands == base;
    }
  }

  /** After an arrival the front of the queue still carries the batch in service. */
  lemma ArrivalInService(c: Config, s: SimState)
    requires SamplesNonNegative(c) && Inv(c, s) && s.clock == s.tArrival
    ensures InService(c, Arrival(c, s))
  {
    var r := Arrival(c, s);
    var id := s.arrivalId + 1;
    var base := s.demands[id := NewDemand(id, s.tArrival)];
    var q := s.queue + [id];
    assert r.queue == q;
    if s.numInSystem + 1 >= c.batchSize && s.tDepart == Infinite {
      var serviceTime := c.service(|s.serviceTimes|);
      StampAllAt(base, q[..c.batchSize], s.tArrival + serviceTime, serviceTime, s.clock);
      assert r.demands == StampAll(base, q[..c.batchSize], s.tArrival + serviceTime, serviceTime, s.clock);
      forall j | 0 <= j < c.batchSize && j < |r.queue| && r.queue[j] in r.demands
        ensures r.demands[r.queue[j]].departureTime == r.tDepart.time
        ensures r.demands[r.queue[j]].serviceTime == r.serviceTimes[|r.serviceTimes| - 1]
      {
        assert q[j] in q[..c.batchSize];
      }
    } else if s.tDepart.At? {
      assert r.demands == base && r.tDepart == s.tDepart && r.serviceTimes == s.serviceTimes;
      forall j | 0 <= j < c.batchSize && j < |r.queue| && r.queue[j] in r.demands
        ensures r.demands[r.queue[j]] == s.demands[s.queue[j]]
      {
        assert r.queue[j] == s.queue[j];
        assert s.queue[j] <= s.numArrivals < id;
      }
    }
  }

  /** An arrival at the current clock keeps the invariant. */
  lemma ArrivalInv(c: Config, s: SimState)
    requires SamplesNonNegative(c) && Inv(c, s) && s.clock == s.tArrival
    ensures Inv(c, Arrival(c, s))
  {
    ArrivalCounts(c, s);
    ArrivalRegistry(c, s);
    ArrivalInService(c, s);
  }

  /** A departure removes a batch from the end of the queue; the counters move by a batch. */
  lemma DepartureCounts(c: Config, s: SimState)
    requires SamplesNonNegative(c) && Inv(c, s) && s.tDepart.At?
    ensures Counters(c, Departure(c, s)) && Sentinel(c, Departure(c, s)) && QueueShape(Departure(c, s))
    ensures Timing(Departure(c, s))
  {
    var r := Departure(c, s);
    assert r.numDeparts == s.numDeparts + c.batchSize;
    assert |r.serviceTimes| - Busy(r) == |s.serviceTimes| - Busy(s) + 1;
    assert (|s.serviceTimes| - Busy(s) + 1) * c.batchSize == (|s.serviceTimes| - Busy(s)) * c.batchSize + c.batchSize;
  }

  /** A departure that starts the next batch stamps the front of the remaining queue. */
  lemma DepartureRecords(c: Config, s: SimState)
    requires SamplesNonNegative(c) && Inv(c, s) && s.tDepart.At?
    ensures Registry(Departure(c, s)) && InService(c, Departure(c, s))
  {
    var r := Departure(c, s);
    var q := s.queue[..|s.queue| - c.batchSize];
    assert r.queue == q;
    if |q| >= c.batchSize {
      var serviceTime := c.service(|s.serviceTimes|);
      StampAllAt(s.demands, q[..c.batchSize], s.clock + serviceTime, serviceTime, s.clock);
      assert forall j :: 0 <= j < c.batchSize ==> q[j] in q[..c.batchSize];
    }
  }

  /** A departure of the batch in service keeps the invariant. */
  lemma DepartureInv(c: Config, s: SimState)
    requires SamplesNonNegative(c) && Inv(c, s) && s.tDepart.At?
    ensures Inv(c, Departure(c, s))
  {
    DepartureCounts(c, s);
    DepartureRecords(c, s);
  }

  /** The invariant gives the handlers what they rely on. */
  lemma InvReady(c: Config, s: SimState)
    requires Inv(c, s)
    ensures Ready(c, s) && Stampable(s)
  {
  }

  /** Registering a record and queueing its id keeps the stamping conditions. */
  lemma JoinStampable(s: SimState)
    requires Stampable(s)
    ensures Stampable(Join(s))
  {
  }

  /** Dropping entries from the end of the queue keeps the stamping conditions. */
  lemma LeaveStampable(c: Config, s: SimState)
    requires c.batchSize <= |s.queue| && Stampable(s)
    ensures Stampable(Leave(c, s))
  {
  }

  /** advance_time keeps the handlers' preconditions on its own: an arrival
      lengthens queue and count together and only starts a batch when one is
      present, a departure shortens both by a batch and only restarts when
      another is present. */
  lemma AdvanceReady(c: Config, s: SimState)
    requires Ready(c, s)
    ensures Ready(c, Advance(c, s))
  {
  }

  /** advance_time keeps the invariant, and the clock never moves back. */
  lemma AdvanceInv(c: Config, s: SimState)
    requires SamplesNonNegative(c) && Inv(c, s)
    ensures Inv(c, Advance(c, s))
    ensures Advance(c, s).clock >= s.clock
  {
    TickInv(c, s);
    var s1 := Tick(s);
    if ArrivalFirst(s1.tArrival, s1.tDepart) {
      ArrivalInv(c, s1);
    } else {
      DepartureInv(c, s1);
    }
  }

  /** An arrival that finds the server idle and a full batch present starts
      service at the arrival time: t_depart becomes t_arrival plus the next
      service draw, which is appended to service_times; the queue entries
      0..batchSize-1 get that departure time, that service time and the clock
      as start time, and every other record, like every id and arrival time,
      is left as it was. The next arrival is scheduled at the clock plus the
      next interarrival draw. */
  lemma ArrivalStartsBatch(c: Config, s: SimState)
    requires s.numInSystem == |s.queue| && Stampable(s)
    requires s.tDepart == Infinite && s.numInSystem + 1 >= c.batchSize
    ensures var r := Arrival(c, s); var serviceTime := c.service(|s.serviceTimes|);
      var id := s.arrivalId + 1; var base := s.demands[id := NewDemand(id, s.tArrival)];
      var departure := s.tArrival + serviceTime;
      r.tDepart == At(departure)
      && r.serviceTimes == s.serviceTimes + [serviceTime]
      && r.queue == s.queue + [id]
      && r.demands.Keys == base.Keys
      && (forall j :: 0 <= j < c.batchSize ==>
            r.queue[j] in base && r.demands[r.queue[j]] == Stamp(base[r.queue[j]], departure, serviceTime, s.clock))
      && (forall k :: k in base && k !in r.queue[..c.batchSize] ==> r.demands[k] == base[k])
      && r.tArrival == s.clock + c.interarrival(s.numArrivals)
  {
    var r := Arrival(c, s);
    var id := s.arrivalId + 1;
    var base := s.demands[id := NewDemand(id, s.tArrival)];
    var q := s.queue + [id];
    var serviceTime := c.service(|s.serviceTimes|);
    var departure := s.tArrival + serviceTime;
    assert r.queue == q;
    assert r.demands == StampAll(base, q[..c.batchSize], departure, serviceTime, s.clock);
    StampAllAt(base, q[..c.batchSize], departure, serviceTime, s.clock);
    forall j | 0 <= j < c.batchSize
      ensures q[j] in base && r.demands[q[j]] == Stamp(base[q[j]], departure, serviceTime, s.clock)
    {
      if j < |s.queue| {
        assert q[j] == s.queue[j];
      }
      assert q[..c.batchSize][j] == q[j];
      assert q[j] in q[..c.batchSize];
    }
  }

  /** An arrival that does not start a batch only adds the new record. */
  lemma ArrivalJoinsQueue(c: Config, s: SimState)
    requires s.numInSystem == |s.queue|
    requires s.tDepart.At? || s.numInSystem + 1 < c.batchSize
    ensures var r := Arrival(c, s); var id := s.arrivalId + 1;
      r.tDepart == s.tDepart && r.serviceTimes == s.serviceTimes
      && r.queue == s.queue + [id]
      && r.demands == s.demands[id := NewDemand(id, s.tArrival)]
      && r.tArrival == s.clock + c.interarrival(s.numArrivals)
  {
  }

  /** A departure that leaves a full batch starts the next one at once, from
      the clock, stamping the front entries of what remains in the queue after
      the batchSize gets; every other record is left as it was. */
  lemma DepartureStartsBatch(c: Config, s: SimState)
    requires s.numInSystem == |s.queue| >= 2 * c.batchSize && Stampable(s)
    ensures var r := Departure(c, s); var serviceTime := c.service(|s.serviceTimes|);
      var q := s.queue[..|s.queue| - c.batchSize]; var departure := s.clock + serviceTime;
      r.tDepart == At(departure)
      && r.serviceTimes == s.serviceTimes + [serviceTime]
      && r.queue == q
      && r.demands.Keys == s.demands.Keys
      && (forall j :: 0 <= j < c.batchSize ==>
            q[j] in s.demands && r.demands[q[j]] == Stamp(s.demands[q[j]], departure, serviceTime, s.clock))
      && (forall k :: k in s.demands && k !in q[..c.batchSize] ==> r.demands[k] == s.demands[k])
  {
    var r := Departure(c, s);
    var q := s.queue[..|s.queue| - c.batchSize];
    var serviceTime := c.service(|s.serviceTimes|);
    var departure := s.clock + serviceTime;
    assert r.queue == q;
    assert r.demands == StampAll(s.demands, q[..c.batchSize], departure, serviceTime, s.clock);
    StampAllAt(s.demands, q[..c.batchSize], departure, serviceTime, s.clock);
    forall j | 0 <= j < c.batchSize
      ensures q[j] in s.demands && r.demands[q[j]] == Stamp(s.demands[q[j]], departure, serviceTime, s.clock)
    {
      assert q[j] == s.queue[j];
      assert q[..c.batchSize][j] == q[j];
      assert q[j] in q[..c.batchSize];
    }
  }

  /** A departure that leaves fewer than a batch makes the server idle:
      t_depart returns to the infinite sentinel and no record changes. */
  lemma DepartureIdles(c: Config, s: SimState)
    requires s.numInSystem == |s.queue| >= c.batchSize
    requires s.numInSystem - c.batchSize < c.batchSize
    ensures var r := Departure(c, s);
      r.tDepart == Infinite && r.serviceTimes == s.serviceTimes && r.demands == s.demands
      && r.queue == s.queue[..|s.queue| - c.batchSize]
      && r.numInSystem == s.numInSystem - c.batchSize && r.numDeparts == s.numDeparts + c.batchSize
  {
  }

  /** The counting facts the invariant gives at every step: departures never
      outnumber arrivals and always come in whole batches. */
  lemma DeparturesInWholeBatches(c: Config, s: SimState)
    requires Inv(c, s)
    ensures s.numDeparts <= s.numArrivals
    ensures c.batchSize > 0 ==> s.numDeparts % c.batchSize == 0
    ensures s.tDepart.At? ==> s.numInSystem >= c.batchSize && |s.queue| >= c.batchSize
  {
    if c.batchSize > 0 {
      var k := |s.serviceTimes| - Busy(s);
      assert s.numDeparts == k * c.batchSize;
      MultipleMod(k, c.batchSize);
    }
  }

  /** A positive multiple of b is at least b. */
  lemma {:induction false} MultipleAtLeast(m: nat, b: nat)
    ensures m >= 1 ==> m * b >= b
  {
    if m > 1 {
      MultipleAtLeast(m - 1, b);
      assert m * b == (m - 1) * b + b;
    }
  }

  /** A multiple of b leaves no remainder (Euclidean division is unique). */
  lemma MultipleMod(k: nat, b: nat)
    requires b > 0
    ensures (k * b) % b == 0
  {
    var q := (k * b) / b;
    var r := (k * b) % b;
    assert k * b == q * b + r;
    assert (k - q) * b == r;
    if k > q {
      MultipleAtLeast(k - q, b);
    } else if k < q {
      MultipleAtLeast(q - k, b);
    }
  }

  // ---------------------------------------------------------------------------
  // The engine object.
  // ---------------------------------------------------------------------------

  class Simulation {
    const statistic: Statistic
    const batchSize: nat
    /** The random source's interarrival and service draws, in drawing order. */
    const interarrival: nat -> real
    const service: nat -> real

    var numInSystem: int
    var clock: real
    var tArrival: real
    var tDepart: DepartureTime
    var numArrivals: nat
    var numDeparts: nat
    var totalWait: real
    var serviceTimes: seq<real>
    var arrivalId: nat
    /** The LIFO queue of the customers present, by id. */
    var queue: seq<int>

    function Cfg(): Config {
      Config(batchSize, interarrival, service)
    }

    function Snapshot(): SimState
      reads this, statistic
    {
      SimState(clock, tArrival, tDepart, numInSystem, numArrivals, numDeparts, arrivalId,
               totalWait, serviceTimes, queue, statistic.demandsStatus, statistic.intervals)
    }

    ghost predicate Valid()
      reads this, statistic
    {
      SamplesNonNegative(Cfg()) && Inv(Cfg(), Snapshot())
    }

    constructor (batchSize: nat, interarrival: nat -> real, service: nat -> real)
      requires SamplesNonNegative(Config(batchSize, interarrival, service))
      ensures Valid() && fresh(statistic)
      ensures this.batchSize == batchSize && this.interarrival == interarrival && this.service == service
      ensures Snapshot() == Initial()
    {
      statistic := new Statistic();
      this.batchSize := batchSize;
      this.interarrival := interarrival;
      this.service := service;
      numInSystem := 0;
      clock := 0.0;
      tArrival := 0.0;
      tDepart := Infinite;
      numArrivals := 0;
      numDeparts := 0;
      totalWait := 0.0;
      serviceTimes := [];
      arrivalId := 0;
      queue := [];
      new;
      InitialInv(Cfg());
    }

    /** advance_time: moves the clock to the next event, records the interval
        that ended, and dispatches the event, arrivals winning ties. */
    method AdvanceTime()
      requires Valid()
      modifies this, statistic
      ensures Valid()
      ensures Snapshot() == Advance(Cfg(), old(Snapshot()))
    {
      ghost var before := Snapshot();
      var tEvent := EarliestEvent(tArrival, tDepart);
      totalWait := totalWait + (numInSystem as real) * (tEvent - clock);
      var previousClock := clock;
      clock := tEvent;
      var interval := DemandNumberTimeInterval(numInSystem, clock - previousClock);
      statistic.intervals := statistic.intervals + [interval];
      assert Snapshot() == Tick(before);
      AdvanceInv(Cfg(), before);
      TickInv(Cfg(), before);
      InvReady(Cfg(), Tick(before));
      if ArrivalFirst(tArrival, tDepart) {
        HandleArrivalEvent();
      } else {
        HandleDepartEvent();
      }
    }

    /** handle_arrival_event. */
    method HandleArrivalEvent()
      requires numInSystem == |queue| && Stampable(Snapshot())
      modifies this, statistic
      ensures Snapshot() == Arrival(Cfg(), old(Snapshot()))
    {
      ghost var before := Snapshot();
      JoinStampable(before);
      arrivalId := arrivalId + 1;
      numInSystem := numInSystem + 1;
      numArrivals := numArrivals + 1;
      var demand := NewDemand(arrivalId, tArrival);
      statistic.UpdateArrival(demand);
      queue := queue + [demand.id];
      assert Snapshot() == Join(before);
      if numInSystem >= batchSize && tDepart == Infinite {
        StartBatch(tArrival);
      }
      tArrival := clock + interarrival(numArrivals - 1);
    }

    /** handle_depart_event. */
    method HandleDepartEvent()
      requires numInSystem == |queue| >= batchSize && Stampable(Snapshot())
      modifies this, statistic
      ensures Snapshot() == Departure(Cfg(), old(Snapshot()))
    {
      ghost var before := Snapshot();
      LeaveStampable(Cfg(), before);
      numInSystem := numInSystem - batchSize;
      numDeparts := numDeparts + batchSize;
      for i := 0 to batchSize
        invariant queue == before.queue[..|before.queue| - i]
        modifies this`queue
      {
        queue := queue[..|queue| - 1];
      }
      assert Snapshot() == Leave(Cfg(), before);
      if numInSystem >= batchSize {
        StartBatch(clock);
      } else {
        tDepart := Infinite;
      }
    }

    /** The service start shared by both handlers: draw a service time, set
        t_depart to `from` plus it, stamp the front batch, record the draw. */
    method StartBatch(from: real)
      requires batchSize <= |queue| && Stampable(Snapshot())
      modifies this, statistic
      ensures Snapshot() == StartService(Cfg(), old(Snapshot()), from)
    {
      var serviceTime := service(|serviceTimes|);
      tDepart := At(from + serviceTime);
      StampBatch(tDepart.time, serviceTime);
      serviceTimes := serviceTimes + [serviceTime];
    }

    /** The stamping loop of both handlers: the records of queue entries
        0..batchSize-1 are stamped through updateStatistic_departure. */
    method StampBatch(departureTime: real, serviceTime: real)
      requires batchSize <= |queue|
      requires forall j :: 0 <= j < batchSize ==> queue[j] in statistic.demandsStatus
      requires forall id :: id in statistic.demandsStatus ==> statistic.demandsStatus[id].id == id
      modifies statistic
      ensures statistic.demandsStatus
        == StampAll(old(statistic.demandsStatus), queue[..batchSize], departureTime, serviceTime, clock)
      ensures statistic.intervals == old(statistic.intervals)
    {
      ghost var start := statistic.demandsStatus;
      for i := 0 to batchSize
        invariant statistic.demandsStatus == StampAll(start, queue[..i], departureTime, serviceTime, clock)
        invariant statistic.intervals == old(statistic.intervals)
      {
        StampAllAt(start, queue[..i], departureTime, serviceTime, clock);
        assert queue[..i + 1][..i] == queue[..i];
        statistic.UpdateDeparture(statistic.demandsStatus[queue[i]], departureTime, serviceTime, clock);
      }
    }
  }
}
