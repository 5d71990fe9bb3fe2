/** The statistics accumulator of the simulator: the id-to-record map, the
    occupancy intervals, and the readers that turn them into the mean time in
    system (u), the mean wait (w), the occupancy distribution (pk), the expected
    number in system (n) and the queue-delay rate (b). */
module Statistics {
  import opened Records

  // ---------------------------------------------------------------------------
  // Sums over the occupancy intervals (in recording order).
  // ---------------------------------------------------------------------------

  /** Total recorded time. */
  function Durations(iv: seq<DemandNumberTimeInterval>): real {
    if iv == [] then 0.0 else Durations(iv[..|iv| - 1]) + iv[|iv| - 1].timeInterval
  }

  /** Area under the occupancy curve: level times duration, summed. */
  function Area(iv: seq<DemandNumberTimeInterval>): real {
    if iv == [] then 0.0
    else Area(iv[..|iv| - 1]) + (iv[|iv| - 1].numberOfDemands as real) * iv[|iv| - 1].timeInterval
  }

  /** Recorded time during which exactly `k` customers were present. */
  function LevelTime(iv: seq<DemandNumberTimeInterval>, k: int): real {
    if iv == [] then 0.0
    else LevelTime(iv[..|iv| - 1], k) + (if iv[|iv| - 1].numberOfDemands == k then iv[|iv| - 1].timeInterval else 0.0)
  }

  /** The occupancy levels that occur in the intervals. */
  function LevelSet(iv: seq<DemandNumberTimeInterval>): set<int> {
    if iv == [] then {} else LevelSet(iv[..|iv| - 1]) + {iv[|iv| - 1].numberOfDemands}
  }

  predicate NonNegativeDurations(iv: seq<DemandNumberTimeInterval>) {
    forall j :: 0 <= j < |iv| ==> iv[j].timeInterval >= 0.0
  }

  // ---------------------------------------------------------------------------
  // The per-level dictionary of get_pk, kept in insertion order as Python's
  // dict is: one bucket per level, in the order the levels first occur.
  // ---------------------------------------------------------------------------

  datatype Bucket = Bucket(level: int, amount: real)

  function Levels(bs: seq<Bucket>): set<int> {
    if bs == [] then {} else {bs[0].level} + Levels(bs[1..])
  }

  /** No level has two buckets, as no dict has two equal keys. */
  predicate DistinctLevels(bs: seq<Bucket>) {
    bs == [] || (bs[0].level !in Levels(bs[1..]) && DistinctLevels(bs[1..]))
  }

  /** The value stored under level `k` (0.0 when `k` is no key). */
  function Amount(bs: seq<Bucket>, k: int): real {
    if bs == [] then 0.0 else (if bs[0].level == k then bs[0].amount else 0.0) + Amount(bs[1..], k)
  }

  /** Sum of the stored values. */
  function Total(bs: seq<Bucket>): real {
    if bs == [] then 0.0 else bs[0].amount + Total(bs[1..])
  }

  /** Sum of value times level, i.e. the quantity get_n accumulates. */
  function Weighted(bs: seq<Bucket>): real {
    if bs == [] then 0.0 else bs[0].amount * (bs[0].level as real) + Weighted(bs[1..])
  }

  predicate NonNegativeAmounts(bs: seq<Bucket>) {
    forall j :: 0 <= j < |bs| ==> bs[j].amount >= 0.0
  }

  /** One iteration of get_pk's loop: add `d` under level `k`, creating the
      key at the end when it is new. */
  function AddTo(bs: seq<Bucket>, k: int, d: real): seq<Bucket> {
    if bs == [] then [Bucket(k, d)]
    else if bs[0].level == k then [Bucket(k, bs[0].amount + d)] + bs[1..]
    else [bs[0]] + AddTo(bs[1..], k, d)
  }

  /** The dictionary pnSums that get_pk builds from the intervals. */
  function Grouped(iv: seq<DemandNumberTimeInterval>): seq<Bucket> {
    if iv == [] then []
    else AddTo(Grouped(iv[..|iv| - 1]), iv[|iv| - 1].numberOfDemands, iv[|iv| - 1].timeInterval)
  }

  /** get_pk's final comprehension: every value divided by the model time. */
  function Scale(bs: seq<Bucket>, t: real): seq<Bucket>
    requires t != 0.0
  {
    if bs == [] then [] else [Bucket(bs[0].level, bs[0].amount / t)] + Scale(bs[1..], t)
  }

  /** What get_pk returns: the per-level time shares, `{}` when nothing was
      recorded, and a division by zero when intervals exist but the model time
      is 0. */
  function Pk(iv: seq<DemandNumberTimeInterval>, modelTime: real): Result<seq<Bucket>> {
    var sums := Grouped(iv);
    if sums == [] then Ok([])
    else if modelTime == 0.0 then Err(ZeroDivision)
    else Ok(Scale(sums, modelTime))
  }

  /** Adding under a key makes it a key, keeps the others, and adds a bucket
      exactly when the key is new; keys stay distinct. */
  lemma {:induction false} AddToKeys(bs: seq<Bucket>, k: int, d: real)
    ensures Levels(AddTo(bs, k, d)) == Levels(bs) + {k}
    ensures |AddTo(bs, k, d)| == if k in Levels(bs) then |bs| else |bs| + 1
    ensures DistinctLevels(bs) ==> DistinctLevels(AddTo(bs, k, d))
  {
    if bs != [] && bs[0].level != k {
      AddToKeys(bs[1..], k, d);
      assert ([bs[0]] + AddTo(bs[1..], k, d))[1..] == AddTo(bs[1..], k, d);
    }
  }

  /** Adding under `k` adds `d` to the value of `k` and to no other key's value. */
  lemma {:induction false} AddToAmount(bs: seq<Bucket>, k: int, d: real, j: int)
    ensures Amount(AddTo(bs, k, d), j) == Amount(bs, j) + (if j == k then d else 0.0)
  {
    if bs != [] && bs[0].level != k {
      AddToAmount(bs[1..], k, d, j);
      assert ([bs[0]] + AddTo(bs[1..], k, d))[1..] == AddTo(bs[1..], k, d);
    }
  }

  /** Adding `d` under `k` adds `d` to the total and `d * k` to the weighted sum. */
  lemma {:induction false} AddToSums(bs: seq<Bucket>, k: int, d: real)
    ensures Total(AddTo(bs, k, d)) == Total(bs) + d
    ensures Weighted(AddTo(bs, k, d)) == Weighted(bs) + d * (k as real)
  {
    if bs == [] {
    } else if bs[0].level == k {
      assert ([Bucket(k, bs[0].amount + d)] + bs[1..])[1..] == bs[1..];
      assert (bs[0].amount + d) * (k as real) == bs[0].amount * (k as real) + d * (k as real);
    } else {
      AddToSums(bs[1..], k, d);
      assert ([bs[0]] + AddTo(bs[1..], k, d))[1..] == AddTo(bs[1..], k, d);
    }
  }

  lemma {:induction false} AddToNonNegative(bs: seq<Bucket>, k: int, d: real)
    requires NonNegativeAmounts(bs) && d >= 0.0
    ensures NonNegativeAmounts(AddTo(bs, k, d))
  {
    if bs != [] && bs[0].level != k {
      assert NonNegativeAmounts(bs[1..]) by {
        forall i | 0 <= i < |bs[1..]| ensures bs[1..][i].amount >= 0.0 { assert bs[1..][i] == bs[i + 1]; }
      }
      AddToNonNegative(bs[1..], k, d);
      var r := [bs[0]] + AddTo(bs[1..], k, d);
      forall i | 0 <= i < |r| ensures r[i].amount >= 0.0 {
        if i > 0 { assert r[i] == AddTo(bs[1..], k, d)[i - 1]; }
      }
    }
  }

  /** The keys of pnSums are exactly the occupancy levels seen, each once. */
  lemma {:induction false} GroupedKeys(iv: seq<DemandNumberTimeInterval>)
    ensures DistinctLevels(Grouped(iv))
    ensures Levels(Grouped(iv)) == LevelSet(iv)
    ensures Grouped(iv) == [] <==> iv == []
  {
    if iv != [] {
      var last := iv[|iv| - 1];
      GroupedKeys(iv[..|iv| - 1]);
      AddToKeys(Grouped(iv[..|iv| - 1]), last.numberOfDemands, last.timeInterval);
    }
  }

  /** pnSums[k] is the time spent at level k. */
  lemma {:induction false} GroupedAmount(iv: seq<DemandNumberTimeInterval>, k: int)
    ensures Amount(Grouped(iv), k) == LevelTime(iv, k)
  {
    if iv != [] {
      var last := iv[|iv| - 1];
      GroupedAmount(iv[..|iv| - 1], k);
      AddToAmount(Grouped(iv[..|iv| - 1]), last.numberOfDemands, last.timeInterval, k);
    }
  }

  /** pnSums adds up to the recorded time, and its level-weighted sum to the area. */
  lemma {:induction false} GroupedSums(iv: seq<DemandNumberTimeInterval>)
    ensures Total(Grouped(iv)) == Durations(iv)
    ensures Weighted(Grouped(iv)) == Area(iv)
  {
    if iv != [] {
      var last := iv[|iv| - 1];
      GroupedSums(iv[..|iv| - 1]);
      AddToSums(Grouped(iv[..|iv| - 1]), last.numberOfDemands, last.timeInterval);
    }
  }

  lemma {:induction false} GroupedNonNegative(iv: seq<DemandNumberTimeInterval>)
    requires NonNegativeDurations(iv)
    ensures NonNegativeAmounts(Grouped(iv))
  {
    if iv != [] {
      var last := iv[|iv| - 1];
      assert NonNegativeDurations(iv[..|iv| - 1]);
      GroupedNonNegative(iv[..|iv| - 1]);
      AddToNonNegative(Grouped(iv[..|iv| - 1]), last.numberOfDemands, last.timeInterval);
    }
  }

  /** Scaling divides each bucket in place. */
  lemma {:induction false} ScaleAt(bs: seq<Bucket>, t: real, j: nat)
    requires t != 0.0 && j < |bs|
    ensures j < |Scale(bs, t)| && Scale(bs, t)[j] == Bucket(bs[j].level, bs[j].amount / t)
  {
    if j > 0 {
      ScaleAt(bs[1..], t, j - 1);
    }
  }

  lemma {:induction false} ScaleKeys(bs: seq<Bucket>, t: real)
    requires t != 0.0
    ensures |Scale(bs, t)| == |bs|
    ensures Levels(Scale(bs, t)) == Levels(bs)
    ensures DistinctLevels(bs) ==> DistinctLevels(Scale(bs, t))
  {
    if bs != [] {
      ScaleKeys(bs[1..], t);
      assert Scale(bs, t)[1..] == Scale(bs[1..], t);
    }
  }

  lemma {:induction false} ScaleAmount(bs: seq<Bucket>, t: real, k: int)
    requires t != 0.0
    ensures Amount(Scale(bs, t), k) == Amount(bs, k) / t
  {
    if bs != [] {
      ScaleAmount(bs[1..], t, k);
      assert Scale(bs, t)[1..] == Scale(bs[1..], t);
    }
  }

  lemma DivideAtMost(a: real, t: real)
    requires 0.0 <= a <= t && t > 0.0
    ensures 0.0 <= a / t <= 1.0
  {
    assert (a / t) * t == a;
  }

  lemma DivideSum(x: real, y: real, t: real)
    requires t != 0.0
    ensures x / t + y / t == (x + y) / t
  {
    assert (x / t) * t == x;
    assert (y / t) * t == y;
    assert (x / t + y / t) * t == x + y;
  }

  lemma DivideProduct(a: real, k: real, t: real)
    requires t != 0.0
    ensures (a / t) * k == (a * k) / t
  {
    assert (a / t) * t == a;
    assert ((a / t) * k) * t == ((a / t) * t) * k;
  }

  lemma {:induction false} ScaleTotal(bs: seq<Bucket>, t: real)
    requires t != 0.0
    ensures Total(Scale(bs, t)) == Total(bs) / t
  {
    if bs != [] {
      ScaleTotal(bs[1..], t);
      assert Scale(bs, t)[1..] == Scale(bs[1..], t);
      DivideSum(bs[0].amount, Total(bs[1..]), t);
    }
  }

  lemma {:induction false} ScaleWeighted(bs: seq<Bucket>, t: real)
    requires t != 0.0
    ensures Weighted(Scale(bs, t)) == Weighted(bs) / t
  {
    if bs != [] {
      ScaleWeighted(bs[1..], t);
      assert Scale(bs, t)[1..] == Scale(bs[1..], t);
      DivideProduct(bs[0].amount, bs[0].level as real, t);
      DivideSum(bs[0].amount * (bs[0].level as real), Weighted(bs[1..]), t);
    }
  }

  /** get_pk fails exactly when intervals exist and the model time is 0;
      otherwise its keys are the levels seen, each once, and the value of
      level k is the time spent at k divided by the model time. */
  lemma PkShares(iv: seq<DemandNumberTimeInterval>, modelTime: real, k: int)
    ensures Pk(iv, modelTime).Err? <==> iv != [] && modelTime == 0.0
    ensures Pk(iv, modelTime).Err? ==> Pk(iv, modelTime).error == ZeroDivision
    ensures Pk(iv, modelTime).Ok? ==> DistinctLevels(Pk(iv, modelTime).value) && Levels(Pk(iv, modelTime).value) == LevelSet(iv)
    ensures Pk(iv, modelTime).Ok? && iv != [] ==> Amount(Pk(iv, modelTime).value, k) == LevelTime(iv, k) / modelTime
  {
    GroupedKeys(iv);
    GroupedAmount(iv, k);
    if iv != [] && modelTime != 0.0 {
      ScaleKeys(Grouped(iv), modelTime);
      ScaleAmount(Grouped(iv), modelTime, k);
    }
  }

  /** When the intervals cover the model time exactly, the shares of get_pk add up to 1. */
  lemma PkSumsToOne(iv: seq<DemandNumberTimeInterval>, modelTime: real)
    requires modelTime > 0.0 && Durations(iv) == modelTime
    ensures Pk(iv, modelTime).Ok? && Total(Pk(iv, modelTime).value) == 1.0
  {
    GroupedKeys(iv);
    GroupedSums(iv);
    assert iv != [];
    ScaleTotal(Grouped(iv), modelTime);
    assert Pk(iv, modelTime).value == Scale(Grouped(iv), modelTime);
    assert Total(Grouped(iv)) / modelTime == modelTime / modelTime == 1.0;
  }

  /** With non-negative durations that cover the model time, every share of get_pk is a probability. */
  lemma PkSharesAreProbabilities(iv: seq<DemandNumberTimeInterval>, modelTime: real)
    requires modelTime > 0.0 && Durations(iv) == modelTime && NonNegativeDurations(iv)
    ensures Pk(iv, modelTime).Ok?
    ensures forall j :: 0 <= j < |Pk(iv, modelTime).value| ==> 0.0 <= Pk(iv, modelTime).value[j].amount <= 1.0
  {
    var sums := Grouped(iv);
    GroupedKeys(iv);
    GroupedSums(iv);
    GroupedNonNegative(iv);
    assert iv != [];
    var pk := Pk(iv, modelTime).value;
    assert pk == Scale(sums, modelTime);
    ScaleKeys(sums, modelTime);
    forall j | 0 <= j < |pk|
      ensures 0.0 <= pk[j].amount <= 1.0
    {
      ScaleAt(sums, modelTime, j);
      BucketWithinTotal(sums, j);
      var a := sums[j].amount;
      assert 0.0 <= a <= modelTime;
      assert pk[j].amount == a / modelTime;
      DivideAtMost(a, modelTime);
    }
  }

  /** get_n applied to get_pk's result: the area under the occupancy curve over the model time. */
  lemma NIsAreaOverTime(iv: seq<DemandNumberTimeInterval>, modelTime: real)
    requires iv != [] && modelTime != 0.0
    ensures Pk(iv, modelTime).Ok? && Weighted(Pk(iv, modelTime).value) == Area(iv) / modelTime
  {
    GroupedKeys(iv);
    GroupedSums(iv);
    ScaleWeighted(Grouped(iv), modelTime);
  }

  /** A non-negative bucket amount never exceeds the total. */
  lemma {:induction false} BucketWithinTotal(bs: seq<Bucket>, j: nat)
    requires j < |bs| && NonNegativeAmounts(bs)
    ensures 0.0 <= bs[j].amount <= Total(bs)
  {
    assert NonNegativeAmounts(bs[1..]) by {
      forall i | 0 <= i < |bs[1..]| ensures bs[1..][i].amount >= 0.0 { assert bs[1..][i] == bs[i + 1]; }
    }
    TotalNonNegative(bs[1..]);
    if j > 0 {
      BucketWithinTotal(bs[1..], j - 1);
    }
  }

  lemma {:induction false} TotalNonNegative(bs: seq<Bucket>)
    requires NonNegativeAmounts(bs)
    ensures Total(bs) >= 0.0
  {
    if bs != [] {
      assert NonNegativeAmounts(bs[1..]) by {
        forall i | 0 <= i < |bs[1..]| ensures bs[1..][i].amount >= 0.0 { assert bs[1..][i] == bs[i + 1]; }
      }
      TotalNonNegative(bs[1..]);
    }
  }

  // ---------------------------------------------------------------------------
  // The per-customer delays of get_u, get_w and get_b.
  // ---------------------------------------------------------------------------

  /** Which difference a reader sums: time in system (get_u) or wait in queue (get_w, get_b). */
  datatype Measure = InSystem | InQueue

  function Delay(d: Demand, m: Measure): real {
    match m
    case InSystem => d.departureTime - d.arrivalTime
    case InQueue => d.serviceStartTime - d.arrivalTime
  }

  /** The contribution of one delay: kept when strictly positive, dropped otherwise. */
  function Positive(x: real): real {
    if x > 0.0 then x else 0.0
  }

  /** Sum of the strictly positive delays of the customers with ids 1..n. */
  function DelaySum(ds: map<int, Demand>, n: nat, m: Measure): real {
    if n == 0 then 0.0
    else DelaySum(ds, n - 1, m) + (if n in ds then Positive(Delay(ds[n], m)) else 0.0)
  }

  /** The smallest id in lo..hi that has no record, if any. */
  function FirstMissing(ds: map<int, Demand>, lo: int, hi: int): (r: Option<int>)
    ensures r.Some? ==> lo <= r.value <= hi && r.value !in ds && forall j :: lo <= j < r.value ==> j in ds
    ensures r.None? ==> forall j :: lo <= j <= hi ==> j in ds
    decreases hi - lo
  {
    if lo > hi then None
    else if lo !in ds then Some(lo)
    else FirstMissing(ds, lo + 1, hi)
  }

  /** The loop shared by get_u, get_w and get_b: a KeyError at the first id of
      1..n with no record, otherwise the sum of the positive delays. */
  function DelayTotal(ds: map<int, Demand>, n: nat, m: Measure): (r: Result<real>)
    ensures r.Ok? <==> forall j :: 1 <= j <= n ==> j in ds
    ensures r.Err? ==> r.error.KeyError? && 1 <= r.error.key <= n && r.error.key !in ds
    ensures r.Err? ==> forall j :: 1 <= j < r.error.key ==> j in ds
    ensures r.Ok? ==> r.value == DelaySum(ds, n, m)
  {
    match FirstMissing(ds, 1, n)
    case Some(k) => Err(KeyError(k))
    case None => Ok(DelaySum(ds, n, m))
  }

  /** get_u, get_w, get_b: the positive-delay sum divided by `denominator`. */
  function DelayAverage(ds: map<int, Demand>, n: nat, m: Measure, denominator: real): (r: Result<real>)
    ensures r.Ok? <==> (forall j :: 1 <= j <= n ==> j in ds) && denominator != 0.0
    ensures r.Err? && r.error == ZeroDivision ==> denominator == 0.0
    ensures !(forall j :: 1 <= j <= n ==> j in ds) ==> r.Err? && r.error.KeyError?
    ensures DelayTotal(ds, n, m).Err? ==> r == DelayTotal(ds, n, m)
    ensures (forall j :: 1 <= j <= n ==> j in ds) && denominator == 0.0 ==> r == Err(ZeroDivision)
    ensures r.Ok? ==> r.value == DelaySum(ds, n, m) / denominator
  {
    var total :- DelayTotal(ds, n, m);
    if denominator == 0.0 then Err(ZeroDivision) else Ok(total / denominator)
  }

  lemma {:induction false} DelaySumNonNegative(ds: map<int, Demand>, n: nat, m: Measure)
    ensures DelaySum(ds, n, m) >= 0.0
  {
    if n > 0 {
      DelaySumNonNegative(ds, n - 1, m);
    }
  }

  /** When every record departs no earlier than its service starts, the summed
      positive time in system is at least the summed positive wait. */
  lemma {:induction false} InSystemDominatesInQueue(ds: map<int, Demand>, n: nat)
    requires forall j :: 1 <= j <= n && j in ds ==> ds[j].serviceStartTime <= ds[j].departureTime
    ensures DelaySum(ds, n, InQueue) <= DelaySum(ds, n, InSystem)
  {
    if n > 0 {
      InSystemDominatesInQueue(ds, n - 1);
    }
  }

  /** A customer whose record was never stamped adds nothing to any delay sum:
      replacing an unstamped record by nothing leaves the sums unchanged. */
  lemma {:induction false} UnstampedAddsNothing(ds: map<int, Demand>, n: nat, m: Measure, id: int)
    requires id in ds && Unstamped(ds[id]) && ds[id].arrivalTime >= 0.0
    ensures DelaySum(ds, n, m) == DelaySum(ds - {id}, n, m)
  {
    if n > 0 {
      UnstampedAddsNothing(ds, n - 1, m, id);
    }
  }

  // ---------------------------------------------------------------------------
  // The accumulator object.
  // ---------------------------------------------------------------------------

  class Statistic {
    /** simulation_demands_status: customer id to record. */
    var demandsStatus: map<int, Demand>
    /** simulation_status_of_demands_number: the occupancy intervals in recording order. */
    var intervals: seq<DemandNumberTimeInterval>

    constructor ()
      ensures demandsStatus == map[] && intervals == []
    {
      demandsStatus := map[];
      intervals := [];
    }

    /** Registers an arriving customer under its id. */
    method UpdateArrival(demand: Demand)
      modifies this
      ensures demandsStatus == old(demandsStatus)[demand.id := demand]
      ensures intervals == old(intervals)
    {
      demandsStatus := demandsStatus[demand.id := demand];
    }

    /** Stamps a customer entering service and stores it back under its id. */
    method UpdateDeparture(demand: Demand, departureTime: real, serviceTime: real, serviceStartTime: real)
      modifies this
      ensures demandsStatus == old(demandsStatus)[demand.id := Stamp(demand, departureTime, serviceTime, serviceStartTime)]
      ensures intervals == old(intervals)
    {
      var stamped := demand.(departureTime := departureTime);
      stamped := stamped.(serviceTime := serviceTime);
      stamped := stamped.(serviceStartTime := serviceStartTime);
      demandsStatus := demandsStatus[demand.id := stamped];
    }

    /** The loop of get_u/get_w/get_b: collects the strictly positive delays of
        ids 1..n into a list and sums it; a missing id raises a KeyError. */
    method PositiveDelays(numOfDemands: nat, m: Measure) returns (r: Result<real>)
      ensures r == DelayTotal(demandsStatus, numOfDemands, m)
    {
      var tempTimes: seq<real> := [];
      for i := 1 to numOfDemands + 1
        invariant forall j :: 1 <= j < i ==> j in demandsStatus
        invariant Sum(tempTimes) == DelaySum(demandsStatus, i - 1, m)
      {
        if i !in demandsStatus {
          return Err(KeyError(i));
        }
        var demand := demandsStatus[i];
        var delay := Delay(demand, m);
        if delay > 0.0 {
          assert (tempTimes + [delay])[..|tempTimes|] == tempTimes;
          tempTimes := tempTimes + [delay];
        }
      }
      r := Ok(Sum(tempTimes));
    }

    /** get_u: mean time in system over `numOfDemands` customers. */
    method GetU(numOfDemands: nat) returns (r: Result<real>)
      ensures r == DelayAverage(demandsStatus, numOfDemands, InSystem, numOfDemands as real)
    {
      var total :- PositiveDelays(numOfDemands, InSystem);
      if numOfDemands == 0 {
        return Err(ZeroDivision);
      }
      r := Ok(total / numOfDemands as real);
    }

    /** get_w: mean wait in queue over `numOfDemands` customers. */
    method GetW(numOfDemands: nat) returns (r: Result<real>)
      ensures r == DelayAverage(demandsStatus, numOfDemands, InQueue, numOfDemands as real)
    {
      var total :- PositiveDelays(numOfDemands, InQueue);
      if numOfDemands == 0 {
        return Err(ZeroDivision);
      }
      r := Ok(total / numOfDemands as real);
    }

    /** get_b: the summed wait in queue divided by the model time. */
    method GetB(numOfDemands: nat, modelTime: real) returns (r: Result<real>)
      ensures r == DelayAverage(demandsStatus, numOfDemands, InQueue, modelTime)
    {
      var total :- PositiveDelays(numOfDemands, InQueue);
      if modelTime == 0.0 {
        return Err(ZeroDivision);
      }
      r := Ok(total / modelTime);
    }

    /** get_pk: groups the interval durations by level, then divides by the model time. */
    method GetPk(modelTime: real) returns (r: Result<seq<Bucket>>)
      ensures r == Pk(intervals, modelTime)
    {
      var pnSums: seq<Bucket> := [];
      for i := 0 to |intervals|
        invariant pnSums == Grouped(intervals[..i])
      {
        var ti := intervals[i];
        assert intervals[..i + 1][..i] == intervals[..i];
        pnSums := AddTo(pnSums, ti.numberOfDemands, ti.timeInterval);
      }
      assert intervals[..|intervals|] == intervals;
      if pnSums == [] {
        r := Ok([]);
      } else if modelTime == 0.0 {
        r := Err(ZeroDivision);
      } else {
        r := Ok(Scale(pnSums, modelTime));
      }
    }

    /** get_n: sum of level times share over the buckets of `pk`, in order. */
    method GetN(pk: seq<Bucket>) returns (n: real)
      ensures n == Weighted(pk)
    {
      n := 0.0;
      for i := 0 to |pk|
        invariant n + Weighted(pk[i..]) == Weighted(pk)
      {
        assert pk[i..][1..] == pk[i + 1..];
        n := n + pk[i].amount * (pk[i].level as real);
      }
    }
  }
}
