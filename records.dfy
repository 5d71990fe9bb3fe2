/** Value types shared by the batch-service queue simulator: customer records,
    occupancy samples, the "no departure scheduled" sentinel and the outcomes of
    the statistics readers, which can fail on a division by zero or a missing id. */
module Records {

  /** A customer ("demand"). The three service fields keep their 0.0 default
      until the customer's batch is stamped on entering service. */
  datatype Demand = Demand(
    id: int,
    arrivalTime: real,
    departureTime: real,
    serviceTime: real,
    serviceStartTime: real)

  /** The record created at an arrival: service fields at their 0.0 defaults. */
  function NewDemand(id: int, arrivalTime: real): Demand {
    Demand(id, arrivalTime, 0.0, 0.0, 0.0)
  }

  /** True of a record that no batch has stamped yet. */
  predicate Unstamped(d: Demand) {
    d.departureTime == 0.0 && d.serviceTime == 0.0 && d.serviceStartTime == 0.0
  }

  /** The record after its batch enters service: the three service fields are
      overwritten, identity and arrival time are kept. */
  function Stamp(d: Demand, departureTime: real, serviceTime: real, serviceStartTime: real): Demand {
    d.(departureTime := departureTime, serviceTime := serviceTime, serviceStartTime := serviceStartTime)
  }

  /** One occupancy sample: the system held `numberOfDemands` customers for
      `timeInterval` units of simulated time. */
  datatype DemandNumberTimeInterval = DemandNumberTimeInterval(numberOfDemands: int, timeInterval: real)

  /** The next departure time; `Infinite` stands for the float infinity the
      simulator uses when no batch is in service. */
  datatype DepartureTime = Infinite | At(time: real)

  /** min(t_arrival, t_depart), where an infinite departure time always loses. */
  function EarliestEvent(tArrival: real, tDepart: DepartureTime): (t: real)
    ensures t <= tArrival
    ensures tDepart.At? ==> t <= tDepart.time
    ensures t == tArrival || (tDepart.At? && t == tDepart.time)
  {
    match tDepart
    case Infinite => tArrival
    case At(d) => if tArrival <= d then tArrival else d
  }

  /** The dispatch test `t_arrival <= t_depart`: arrivals win ties, and any
      arrival precedes an infinite departure time. */
  predicate ArrivalFirst(tArrival: real, tDepart: DepartureTime) {
    match tDepart
    case Infinite => true
    case At(d) => tArrival <= d
  }

  /** Python's `sum` over a list of floats, here over exact reals. */
  function Sum(xs: seq<real>): real {
    if xs == [] then 0.0 else Sum(xs[..|xs| - 1]) + xs[|xs| - 1]
  }

  datatype Option<+T> = None | Some(value: T)

  /** The two exceptions the statistics readers can raise. */
  datatype Error = ZeroDivision | KeyError(key: int)

  datatype Result<+T> = Ok(value: T) | Err(error: Error) {
    predicate IsFailure() {
      Err?
    }

    function PropagateFailure<U>(): Result<U>
      requires Err?
    {
      Err(error)
    }

    function Extract(): T
      requires Ok?
    {
      value
    }
  }
}
