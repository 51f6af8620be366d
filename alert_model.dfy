/** The alert record (api-server/src/models/Alert.js). */
module AlertModel {
  import opened Wrappers

  /** An alert document; times are milliseconds since the epoch. */
  datatype Alert = Alert(
    driverId: string,
    avgScore: real,
    threshold: real,
    lastAlertAt: int,
    createdAt: int)

  /** The schema's validators: `driver_id` is a required (non-empty) string. */
  predicate ValidAlert(a: Alert) {
    a.driverId != ""
  }

  /**
   * `Alert.create({...})` at time `now`: `None` is a validation error; an absent
   * `last_alert_at` defaults to the creation time.
   */
  function NewAlert(driverId: string, avgScore: real, threshold: real,
                    lastAlertAt: Option<int>, now: int): (r: Option<Alert>)
    ensures r.Some? <==> driverId != ""
    ensures r.Some? ==> ValidAlert(r.value) && r.value.createdAt == now
    ensures r.Some? ==> r.value.driverId == driverId && r.value.avgScore == avgScore
                        && r.value.threshold == threshold
    ensures r.Some? && lastAlertAt.None? ==> r.value.lastAlertAt == now
    ensures r.Some? && lastAlertAt.Some? ==> r.value.lastAlertAt == lastAlertAt.value
  {
    if driverId == "" then None
    else Some(Alert(driverId, avgScore, threshold, lastAlertAt.GetOr(now), now))
  }
}
