/** The driver record, its defaults and bounds (api-server/src/models/Driver.js). */
module DriverModel {
  import opened Wrappers
  import opened Text

  /** A driver document; `avgScore` is the running score, `totalFeedback` the count. */
  datatype Driver = Driver(
    driverId: string,
    name: string,
    phone: string,
    vehicleNumber: string,
    status: string,
    avgScore: real,
    totalFeedback: int)

  const Statuses: set<string> := {"active", "inactive"}

  /**
   * The schema's validators: required strings non-empty (`name` is stored
   * trimmed), `status` in the enum and `avg_score` within [0, 5].
   */
  predicate ValidDriver(d: Driver) {
    && d.driverId != ""
    && d.name != "" && d.name == Trim(d.name)
    && d.phone != ""
    && d.vehicleNumber != ""
    && d.status in Statuses
    && 0.0 <= d.avgScore <= 5.0
  }

  /** The driver collection keyed by the unique `driver_id`. */
  predicate ValidDrivers(drivers: map<string, Driver>) {
    forall id :: id in drivers ==> drivers[id].driverId == id && ValidDriver(drivers[id])
  }

  /**
   * `new Driver({...}).save()`: `None` is a validation error. An absent status
   * defaults to 'active'; the score and the count start at 0.
   */
  function NewDriver(driverId: string, name: string, phone: string, vehicleNumber: string,
                     status: Option<string>): (r: Option<Driver>)
    ensures r.Some? <==> driverId != "" && Trim(name) != "" && phone != "" && vehicleNumber != ""
                         && status.GetOr("active") in Statuses
    ensures r.Some? ==> ValidDriver(r.value) && r.value.driverId == driverId
    ensures r.Some? ==> r.value.avgScore == 0.0 && r.value.totalFeedback == 0
    ensures r.Some? ==> r.value.status == status.GetOr("active") && r.value.name == Trim(name)
    ensures r.Some? ==> r.value.phone == phone && r.value.vehicleNumber == vehicleNumber
  {
    var nm := Trim(name);
    var st := status.GetOr("active");
    if driverId != "" && nm != "" && phone != "" && vehicleNumber != "" && st in Statuses then
      TrimIdempotent(name);
      Some(Driver(driverId, nm, phone, vehicleNumber, st, 0.0, 0))
    else None
  }

  /** Trimming a trimmed string changes nothing. */
  lemma TrimIdempotent(s: string)
    ensures Trim(Trim(s)) == Trim(s)
  {
    var t := Trim(s);
    if t != [] {
      assert TrimStart(t) == t;
      assert TrimEnd(t) == t;
    }
  }
}
