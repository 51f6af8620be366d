/**
 * The batch pipeline of consumer/src/consumer.js as functions of the state and
 * of the injected collaborators (configuration snapshot, scoring reply, clock,
 * store faults). `ConsumerPipeline.Consumer` performs the same steps in place
 * and is proved equal to `ProcessBatch` below.
 */
module ConsumerSpec {
  import opened Wrappers
  import opened Sequences
  import opened Numeric
  import opened ConfigModel
  import opened Events
  import opened FeedbackModel
  import opened DriverModel
  import opened AlertModel
  import opened SentimentService

  // ---------------------------------------------------------------------------
  // Running score

  /** `calculateEMA`: blend the new rating into the old average with weight alpha. */
  function CalculateEma(oldAvg: real, newRating: real, alpha: real): real {
    alpha * newRating + (1.0 - alpha) * oldAvg
  }

  /** One turn of the inner loop: a running value of exactly 0 is seeded, not blended. */
  function EmaStep(avg: real, rating: real, alpha: real): real {
    if avg == 0.0 then rating else CalculateEma(avg, rating, alpha)
  }

  /** The running value after folding `ratings` into `avg` in order (unrounded). */
  function Ema(avg: real, ratings: seq<real>, alpha: real): real
    decreases |ratings|
  {
    if ratings == [] then avg else Ema(EmaStep(avg, ratings[0], alpha), ratings[1..], alpha)
  }

  // ---------------------------------------------------------------------------
  // Classification

  /** The `driverFeedback` filter: driver messages, when driver feedback requires sentiment. */
  predicate IsDriverFeedback(m: Message, c: Config) {
    m.entityType == "driver" && RequiresSentiment(c, "driver")
  }

  /** The `otherFeedback` filter, as the source writes it. */
  predicate IsOtherFeedback(m: Message, c: Config) {
    m.entityType != "driver" || !RequiresSentiment(c, m.entityType)
  }

  /** `messages.filter(...)` with the driver predicate, order kept. */
  function DriverFeedback(msgs: seq<Message>, c: Config): seq<Message> {
    if msgs == [] then []
    else (if IsDriverFeedback(msgs[0], c) then [msgs[0]] else []) + DriverFeedback(msgs[1..], c)
  }

  /** `messages.filter(...)` with the other predicate, order kept. */
  function OtherFeedback(msgs: seq<Message>, c: Config): seq<Message> {
    if msgs == [] then []
    else (if IsOtherFeedback(msgs[0], c) then [msgs[0]] else []) + OtherFeedback(msgs[1..], c)
  }

  /** The driver filter keeps exactly the messages that satisfy its predicate. */
  lemma {:induction false} DriverFeedbackFilters(msgs: seq<Message>, c: Config)
    ensures |DriverFeedback(msgs, c)| <= |msgs|
    ensures forall m :: m in DriverFeedback(msgs, c) <==> m in msgs && IsDriverFeedback(m, c)
  {
    if msgs != [] {
      DriverFeedbackFilters(msgs[1..], c);
      assert forall m :: m in msgs <==> m == msgs[0] || m in msgs[1..];
    }
  }

  /** The other filter keeps exactly the messages that satisfy its predicate. */
  lemma {:induction false} OtherFeedbackFilters(msgs: seq<Message>, c: Config)
    ensures |OtherFeedback(msgs, c)| <= |msgs|
    ensures forall m :: m in OtherFeedback(msgs, c) <==> m in msgs && IsOtherFeedback(m, c)
  {
    if msgs != [] {
      OtherFeedbackFilters(msgs[1..], c);
      assert forall m :: m in msgs <==> m == msgs[0] || m in msgs[1..];
    }
  }

  // ---------------------------------------------------------------------------
  // Records

  /** `parseFloat(((starRating + modelRating) / 2).toFixed(2))`. */
  function CombinedScore(rating: int, prediction: real): real {
    Round2((rating as real + prediction) / 2.0)
  }

  /** The document `processDriverFeedback` creates for a message and its prediction. */
  function ScoredRecord(m: Message, prediction: real): FeedbackRecord {
    var combined := CombinedScore(m.rating, prediction);
    FeedbackRecord(m.messageId, m.entityType, m.entityId, m.userId, m.rating, m.text,
                   Some(prediction), Some(combined), Some(FixedLabel(combined)), m.timestamp)
  }

  /** The i-th driver message is paired with the i-th prediction. */
  function ScoredRecords(msgs: seq<Message>, predictions: seq<real>): (r: seq<FeedbackRecord>)
    requires |predictions| == |msgs|
    ensures |r| == |msgs|
    ensures forall i :: 0 <= i < |msgs| ==>
              && r[i].id == msgs[i].messageId && r[i].entityId == msgs[i].entityId
              && r[i].rating == msgs[i].rating && r[i].text == msgs[i].text
              && r[i].predictedScore == Some(predictions[i])
              && r[i].combinedScore == Some(CombinedScore(msgs[i].rating, predictions[i]))
              && r[i].sentiment == Some(FixedLabel(CombinedScore(msgs[i].rating, predictions[i])))
  {
    seq(|msgs|, i requires 0 <= i < |msgs| => ScoredRecord(msgs[i], predictions[i]))
  }

  /** The document `processOtherFeedback` creates: no prediction, no combined score, no label. */
  function UnscoredRecord(m: Message): FeedbackRecord {
    FeedbackRecord(m.messageId, m.entityType, m.entityId, m.userId, m.rating, m.text,
                   None, None, None, m.timestamp)
  }

  function UnscoredRecords(msgs: seq<Message>): (r: seq<FeedbackRecord>)
    ensures |r| == |msgs|
    ensures forall i :: 0 <= i < |msgs| ==>
              && r[i].id == msgs[i].messageId && r[i].entityType == msgs[i].entityType
              && r[i].entityId == msgs[i].entityId && r[i].rating == msgs[i].rating
              && r[i].predictedScore.None? && r[i].combinedScore.None? && r[i].sentiment.None?
  {
    seq(|msgs|, i requires 0 <= i < |msgs| => UnscoredRecord(msgs[i]))
  }

  // ---------------------------------------------------------------------------
  // Idempotent store

  /** How one `Feedback.create` ends: a non-duplicate error, code 11000, or a new document. */
  datatype WriteResult = WriteError | Duplicate | Inserted

  /** `failing` holds the ids whose write fails for a reason other than a duplicate key. */
  function WriteOutcome(store: map<string, FeedbackRecord>, failing: set<string>, id: string): WriteResult {
    if id in failing then WriteError else if id in store then Duplicate else Inserted
  }

  /** The store after a write loop, the records it inserted (in order), and whether it threw. */
  datatype Stored = Stored(store: map<string, FeedbackRecord>, inserted: seq<FeedbackRecord>, failed: bool)

  /**
   * The write loop shared by both processing functions: create each record in
   * turn, skip duplicates, stop at the first other error.
   */
  function StoreAll(store: map<string, FeedbackRecord>, recs: seq<FeedbackRecord>,
                    failing: set<string>): Stored
    decreases |recs|
  {
    if recs == [] then Stored(store, [], false)
    else
      match WriteOutcome(store, failing, recs[0].id)
      case WriteError => Stored(store, [], true)
      case Duplicate => StoreAll(store, recs[1..], failing)
      case Inserted =>
        var rest := StoreAll(store[recs[0].id := recs[0]], recs[1..], failing);
        Stored(rest.store, [recs[0]] + rest.inserted, rest.failed)
  }

  // ---------------------------------------------------------------------------
  // Driver groups

  /** An entry of `newFeedbackIds`. */
  datatype NewRating = NewRating(driverId: string, combinedRating: real)

  /** What the loop pushes for each inserted scored record. */
  function NewRatings(inserted: seq<FeedbackRecord>): (r: seq<NewRating>)
    requires forall x :: x in inserted ==> x.combinedScore.Some?
    ensures |r| == |inserted|
    ensures forall i :: 0 <= i < |inserted| ==>
              r[i] == NewRating(inserted[i].entityId, inserted[i].combinedScore.value)
  {
    seq(|inserted|, i requires 0 <= i < |inserted| =>
      NewRating(inserted[i].entityId, inserted[i].combinedScore.value))
  }

  /** The write loop never overwrites or removes an existing document. */
  lemma {:induction false} StoreAllKeeps(store: map<string, FeedbackRecord>, recs: seq<FeedbackRecord>,
                                         failing: set<string>)
    decreases |recs|
    ensures forall id :: id in store ==>
              id in StoreAll(store, recs, failing).store && StoreAll(store, recs, failing).store[id] == store[id]
  {
    if recs != [] {
      match WriteOutcome(store, failing, recs[0].id)
      case WriteError =>
      case Duplicate => StoreAllKeeps(store, recs[1..], failing);
      case Inserted => StoreAllKeeps(store[recs[0].id := recs[0]], recs[1..], failing);
    }
  }

  /** The write loop from record `i` on, one step unfolded. */
  lemma StoreAllAt(store: map<string, FeedbackRecord>, recs: seq<FeedbackRecord>, i: nat, failing: set<string>)
    requires i < |recs|
    ensures var rest := StoreAll(store, recs[i..], failing);
            match WriteOutcome(store, failing, recs[i].id)
            case WriteError => rest == Stored(store, [], true)
            case Duplicate => rest == StoreAll(store, recs[i + 1..], failing)
            case Inserted =>
              var after := StoreAll(store[recs[i].id := recs[i]], recs[i + 1..], failing);
              rest == Stored(after.store, [recs[i]] + after.inserted, after.failed)
  {
    assert recs[i..][0] == recs[i] && recs[i..][1..] == recs[i + 1..];
  }

  /**
   * The write loop has handled `recs[..i]`: `store` is the store so far and
   * `inserted` the records inserted so far, and finishing from record `i`
   * gives `goal`.
   */
  ghost predicate WritesUpTo(goal: Stored, store: map<string, FeedbackRecord>, recs: seq<FeedbackRecord>,
                             i: nat, inserted: seq<FeedbackRecord>, failing: set<string>)
    requires i <= |recs|
  {
    var rest := StoreAll(store, recs[i..], failing);
    goal.store == rest.store && goal.inserted == inserted + rest.inserted && goal.failed == rest.failed
  }

  /** One write of the loop: a failure ends it in `goal`, otherwise it moves on. */
  lemma WriteNext(goal: Stored, store: map<string, FeedbackRecord>, recs: seq<FeedbackRecord>,
                  i: nat, inserted: seq<FeedbackRecord>, failing: set<string>)
    requires i < |recs| && WritesUpTo(goal, store, recs, i, inserted, failing)
    ensures WriteOutcome(store, failing, recs[i].id) == WriteError ==>
              goal.store == store && goal.inserted == inserted && goal.failed
    ensures WriteOutcome(store, failing, recs[i].id) == Duplicate ==>
              WritesUpTo(goal, store, recs, i + 1, inserted, failing)
    ensures WriteOutcome(store, failing, recs[i].id) == Inserted ==>
              WritesUpTo(goal, store[recs[i].id := recs[i]], recs, i + 1, inserted + [recs[i]], failing)
  {
    StoreAllAt(store, recs, i, failing);
    var rest := StoreAll(store[recs[i].id := recs[i]], recs[i + 1..], failing);
    assert inserted + ([recs[i]] + rest.inserted) == (inserted + [recs[i]]) + rest.inserted;
  }

  /** A write loop that has handled every record has reached `goal`. */
  lemma WritesDone(goal: Stored, store: map<string, FeedbackRecord>, recs: seq<FeedbackRecord>,
                   inserted: seq<FeedbackRecord>, failing: set<string>)
    requires WritesUpTo(goal, store, recs, |recs|, inserted, failing)
    ensures goal == Stored(store, inserted, false)
  {
    assert recs[|recs|..] == [];
  }

  /**
   * Every record the loop inserted is one of its inputs, was new, and is stored
   * as is; the loop adds no other id.
   */
  lemma {:induction false} StoreAllInserts(store: map<string, FeedbackRecord>, recs: seq<FeedbackRecord>,
                                           failing: set<string>)
    decreases |recs|
    ensures var r := StoreAll(store, recs, failing);
            forall x :: x in r.inserted ==> x in recs && x.id !in store && x.id in r.store && r.store[x.id] == x
  {
    if recs != [] {
      var id := recs[0].id;
      match WriteOutcome(store, failing, id)
      case WriteError =>
      case Duplicate =>
        StoreAllInserts(store, recs[1..], failing);
        assert forall x :: x in recs[1..] ==> x in recs;
      case Inserted =>
        var store' := store[id := recs[0]];
        StoreAllInserts(store', recs[1..], failing);
        StoreAllKeeps(store', recs[1..], failing);
        var rest := StoreAll(store', recs[1..], failing);
        var r := StoreAll(store, recs, failing);
        assert r == Stored(rest.store, [recs[0]] + rest.inserted, rest.failed);
        forall x | x in r.inserted
          ensures x in recs && x.id !in store && x.id in r.store && r.store[x.id] == x
        {
          if x != recs[0] {
            assert x in rest.inserted && x in recs[1..];
          }
        }
    }
  }

  /** The loop adds to the store exactly the ids of the records it inserted. */
  lemma {:induction false} StoreAllKeys(store: map<string, FeedbackRecord>, recs: seq<FeedbackRecord>,
                                        failing: set<string>)
    decreases |recs|
    ensures var r := StoreAll(store, recs, failing);
            r.store.Keys == store.Keys + (set x | x in r.inserted :: x.id)
  {
    if recs != [] {
      var id := recs[0].id;
      match WriteOutcome(store, failing, id)
      case WriteError =>
      case Duplicate =>
        StoreAllKeys(store, recs[1..], failing);
      case Inserted =>
        var store' := store[id := recs[0]];
        StoreAllKeys(store', recs[1..], failing);
        var rest := StoreAll(store', recs[1..], failing);
        var r := StoreAll(store, recs, failing);
        assert r == Stored(rest.store, [recs[0]] + rest.inserted, rest.failed);
        assert (set x | x in r.inserted :: x.id) == {id} + (set x | x in rest.inserted :: x.id);
    }
  }

  /**
   * A loop that did not throw left every input's id in the store, none of them
   * failing; a loop that threw met a failing id.
   */
  lemma {:induction false} StoreAllCompletes(store: map<string, FeedbackRecord>, recs: seq<FeedbackRecord>,
                                             failing: set<string>)
    decreases |recs|
    ensures var r := StoreAll(store, recs, failing);
            && (!r.failed ==> forall i :: 0 <= i < |recs| ==> recs[i].id in r.store && recs[i].id !in failing)
            && (r.failed ==> exists i :: 0 <= i < |recs| && recs[i].id in failing)
  {
    if recs != [] {
      var id := recs[0].id;
      var r := StoreAll(store, recs, failing);
      match WriteOutcome(store, failing, id)
      case WriteError =>
        assert recs[0].id in failing;
      case Duplicate =>
        StoreAllCompletes(store, recs[1..], failing);
        StoreAllKeeps(store, recs[1..], failing);
        assert forall i :: 1 <= i < |recs| ==> recs[i] == recs[1..][i - 1];
        if r.failed {
          var i :| 0 <= i < |recs[1..]| && recs[1..][i].id in failing;
          assert recs[i + 1].id in failing;
        }
      case Inserted =>
        var store' := store[id := recs[0]];
        StoreAllCompletes(store', recs[1..], failing);
        StoreAllKeeps(store', recs[1..], failing);
        assert forall i :: 1 <= i < |recs| ==> recs[i] == recs[1..][i - 1];
        if r.failed {
          var i :| 0 <= i < |recs[1..]| && recs[1..][i].id in failing;
          assert recs[i + 1].id in failing;
        }
    }
  }

  /** The records the driver phase inserts all carry a combined score. */
  lemma ScoredInsertsAreScored(store: map<string, FeedbackRecord>, msgs: seq<Message>, predictions: seq<real>,
                               failing: set<string>)
    requires |predictions| == |msgs|
    ensures forall x :: x in StoreAll(store, ScoredRecords(msgs, predictions), failing).inserted ==>
              x.combinedScore.Some?
  {
    StoreAllInserts(store, ScoredRecords(msgs, predictions), failing);
    StoreAllKeys(store, ScoredRecords(msgs, predictions), failing);
  }

  lemma NewRatingsAppend(inserted: seq<FeedbackRecord>, x: FeedbackRecord)
    requires forall y :: y in inserted ==> y.combinedScore.Some?
    requires x.combinedScore.Some?
    ensures NewRatings(inserted + [x]) == NewRatings(inserted) + [NewRating(x.entityId, x.combinedScore.value)]
  {
    var l := inserted + [x];
    assert forall i :: 0 <= i < |inserted| ==> l[i] == inserted[i];
  }

  /** `driverGroups[d]`: the combined ratings of driver `d`, in batch order. */
  function Group(ratings: seq<NewRating>, d: string): seq<real> {
    if ratings == [] then []
    else
      var last := ratings[|ratings| - 1];
      Group(ratings[..|ratings| - 1], d) + (if last.driverId == d then [last.combinedRating] else [])
  }

  /** `Object.keys(driverGroups)`: each driver with a new rating once, by first appearance. */
  function DriverIds(ratings: seq<NewRating>): seq<string> {
    if ratings == [] then []
    else
      var prefix := DriverIds(ratings[..|ratings| - 1]);
      var d := ratings[|ratings| - 1].driverId;
      if d in prefix then prefix else prefix + [d]
  }

  /** Each driver with a rating appears once among the keys, and only those. */
  lemma {:induction false} DriverIdsFacts(ratings: seq<NewRating>)
    ensures Distinct(DriverIds(ratings))
    ensures forall d :: d in DriverIds(ratings) <==> Group(ratings, d) != []
  {
    if ratings != [] {
      DriverIdsFacts(ratings[..|ratings| - 1]);
    }
  }

  // ---------------------------------------------------------------------------
  // Alerts

  /** `cutoffTime`, in milliseconds. */
  function Cutoff(now: int, cooldownS: int): int {
    now - cooldownS * 1000
  }

  /** `Alert.findOne({ driver_id, last_alert_at: { $gte: cutoff } })` finds something. */
  predicate RecentAlert(alerts: seq<Alert>, driverId: string, cutoff: int) {
    exists i :: 0 <= i < |alerts| && alerts[i].driverId == driverId && alerts[i].lastAlertAt >= cutoff
  }

  /**
   * `checkAndGenerateAlert`'s decision: below the threshold, no query or write
   * error (`faulty`), and every earlier alert of the driver older than the cutoff.
   */
  function AlertGate(alerts: seq<Alert>, driverId: string, avgScore: real, threshold: real,
                     cooldownS: int, now: int, faulty: bool): (emit: bool)
    ensures emit <==> avgScore < threshold && !faulty
                      && forall i :: 0 <= i < |alerts| && alerts[i].driverId == driverId ==>
                           alerts[i].lastAlertAt < now - cooldownS * 1000
  {
    if avgScore >= threshold then false
    else if faulty then false
    else !RecentAlert(alerts, driverId, Cutoff(now, cooldownS))
  }

  /** The alert the consumer writes: all four fields supplied, stamped `now`. */
  function ConsumerAlert(driverId: string, avgScore: real, threshold: real, now: int): Alert {
    Alert(driverId, avgScore, threshold, now, now)
  }

  // ---------------------------------------------------------------------------
  // Score update

  /** A driver after one batch: the fold rounded once, the count raised by the batch's ratings. */
  function UpdatedDriver(dr: Driver, ratings: seq<real>, alpha: real): Driver {
    dr.(avgScore := Round2(Ema(dr.avgScore, ratings, alpha)),
        totalFeedback := dr.totalFeedback + |ratings|)
  }

  /** The drivers and the alert log after `updateDriverScores`, and the alerts it generated. */
  datatype Aggregate = Aggregate(drivers: map<string, Driver>, alerts: seq<Alert>, generated: nat)

  /** Tuning read from the configuration snapshot: `ema_alpha`, `alert_threshold`, `alert_cooldown_s`. */
  datatype Tuning = Tuning(alpha: real, threshold: real, cooldownS: int)

  function TuningOf(c: Config): Tuning {
    Tuning(c.emaAlpha, c.alertThreshold, c.alertCooldownS)
  }

  /**
   * One turn of the loop over `driverIds`: a missing driver is skipped;
   * otherwise its score and count are updated and the alert check runs on the
   * rounded average. `faulty` is an error in that check.
   */
  function DriverStep(drivers: map<string, Driver>, alerts: seq<Alert>, d: string, group: seq<real>,
                      t: Tuning, now: int, faulty: bool): (a: Aggregate)
    ensures a.drivers.Keys == drivers.Keys
    ensures |alerts| <= |a.alerts| <= |alerts| + 1 && a.alerts[..|alerts|] == alerts
    ensures a.generated == |a.alerts| - |alerts|
  {
    if d !in drivers then Aggregate(drivers, alerts, 0)
    else
      var dr := UpdatedDriver(drivers[d], group, t.alpha);
      var emit := AlertGate(alerts, d, dr.avgScore, t.threshold, t.cooldownS, now, faulty);
      Aggregate(drivers[d := dr],
                if emit then alerts + [ConsumerAlert(d, dr.avgScore, t.threshold, now)] else alerts,
                if emit then 1 else 0)
  }

  /** The loop over `driverIds`, each driver with its group of the batch's ratings. */
  function UpdateScores(drivers: map<string, Driver>, alerts: seq<Alert>, ids: seq<string>,
                        ratings: seq<NewRating>, t: Tuning, now: int,
                        failingAlerts: set<string>): (a: Aggregate)
    decreases |ids|
    ensures a.drivers.Keys == drivers.Keys
    ensures |alerts| <= |a.alerts| && a.alerts[..|alerts|] == alerts
    ensures a.generated == |a.alerts| - |alerts|
  {
    if ids == [] then Aggregate(drivers, alerts, 0)
    else
      var step := DriverStep(drivers, alerts, ids[0], Group(ratings, ids[0]), t, now, ids[0] in failingAlerts);
      var rest := UpdateScores(step.drivers, step.alerts, ids[1..], ratings, t, now, failingAlerts);
      assert rest.alerts[..|alerts|] == rest.alerts[..|step.alerts|][..|alerts|];
      Aggregate(rest.drivers, rest.alerts, rest.generated + step.generated)
  }

  // ---------------------------------------------------------------------------
  // The batch

  /** The module-level `stats` counters. */
  datatype Stats = Stats(totalProcessed: nat, driverFeedback: nat, otherFeedback: nat,
                         alertsGenerated: nat, errors: nat)

  /** The stores and counters the consumer acts on. */
  datatype State = State(feedback: map<string, FeedbackRecord>, drivers: map<string, Driver>,
                         alerts: seq<Alert>, stats: Stats)

  /**
   * The collaborators of one batch: the configuration snapshot (`None` when
   * `feedback_config` is missing), the scoring service's reply, the clock in
   * milliseconds, the message ids whose write fails with a non-duplicate
   * error, and the drivers whose alert query or write fails.
   */
  datatype Env = Env(config: Option<Config>, reply: HttpReply, now: int,
                     failingWrites: set<string>, failingAlerts: set<string>)

  /** Why a batch throws. */
  datatype Cause = ParseFailed | PredictionFailed | WriteFailed

  /** How `processBatch` ends: normally, by its early return, or by throwing. */
  datatype Outcome = Done | NoConfig | Failed(cause: Cause)

  /** A stream record: its offset and its payload, `None` when the payload is not valid JSON. */
  datatype StreamRecord = StreamRecord(offset: int, value: Option<Message>)

  /** `messages.map(msg => JSON.parse(msg.value.toString()))`: `None` when any payload fails. */
  function ParseAll(raw: seq<StreamRecord>): Option<seq<Message>> {
    if raw == [] then Some([])
    else if raw[0].value.None? then None
    else
      match ParseAll(raw[1..])
      case None => None
      case Some(rest) => Some([raw[0].value.value] + rest)
  }

  /** The batch parses exactly when every payload does, each message from its record. */
  lemma {:induction false} ParseAllFacts(raw: seq<StreamRecord>)
    ensures ParseAll(raw).Some? <==> forall i :: 0 <= i < |raw| ==> raw[i].value.Some?
    ensures ParseAll(raw).Some? ==>
              |ParseAll(raw).value| == |raw| && forall i :: 0 <= i < |raw| ==> ParseAll(raw).value[i] == raw[i].value.value
  {
    if raw != [] {
      ParseAllFacts(raw[1..]);
      if raw[0].value.Some? && ParseAll(raw[1..]).Some? {
        assert forall i :: 1 <= i < |raw| ==> raw[i] == raw[1..][i - 1];
      }
    }
  }

  /** The scoring reply, when it is a list of scores, has one score per text sent. */
  predicate PredictionsFit(reply: HttpReply, n: nat) {
    GetPredictions(reply).Scores? ==> |GetPredictions(reply).scores| == n
  }

  /** The reply fits the batch's driver feedback whenever the batch gets that far. */
  predicate BatchFits(raw: seq<StreamRecord>, env: Env) {
    env.config.Some? && ParseAll(raw).Some? ==>
      PredictionsFit(env.reply, |DriverFeedback(ParseAll(raw).value, env.config.value)|)
  }

  /** A phase's end state and, when it threw, why. */
  datatype Phase = Phase(error: Option<Cause>, state: State)

  /** `processDriverFeedback` on the (non-empty) driver feedback of a batch. */
  function DriverPhase(s: State, msgs: seq<Message>, t: Tuning, env: Env): Phase
    requires PredictionsFit(env.reply, |msgs|)
  {
    match GetPredictions(env.reply)
    case PredictionError => Phase(Some(PredictionFailed), s)
    case Scores(predictions) =>
      var w := StoreAll(s.feedback, ScoredRecords(msgs, predictions), env.failingWrites);
      ScoredInsertsAreScored(s.feedback, msgs, predictions, env.failingWrites);
      if w.failed then Phase(Some(WriteFailed), s.(feedback := w.store))
      else
        var ratings := NewRatings(w.inserted);
        if |ratings| == 0 then Phase(None, s.(feedback := w.store))
        else
          var a := UpdateScores(s.drivers, s.alerts, DriverIds(ratings), ratings, t, env.now, env.failingAlerts);
          Phase(None, State(w.store, a.drivers, a.alerts,
                            s.stats.(alertsGenerated := s.stats.alertsGenerated + a.generated)))
  }

  /** `processOtherFeedback` on the (non-empty) other feedback of a batch. */
  function OtherPhase(s: State, msgs: seq<Message>, env: Env): Phase {
    var w := StoreAll(s.feedback, UnscoredRecords(msgs), env.failingWrites);
    Phase(if w.failed then Some(WriteFailed) else None, s.(feedback := w.store))
  }

  /** The `catch` of `processBatch`: count the error (and re-throw). */
  function Errored(s: State): State {
    s.(stats := s.stats.(errors := s.stats.errors + 1))
  }

  /** `processBatch`: the outcome and the state it leaves behind. */
  function ProcessBatch(s: State, raw: seq<StreamRecord>, env: Env): (Outcome, State)
    requires BatchFits(raw, env)
  {
    if env.config.None? then (NoConfig, s)
    else
      var c := env.config.value;
      match ParseAll(raw)
      case None => (Failed(ParseFailed), Errored(s))
      case Some(msgs) =>
        var driverFeedback := DriverFeedback(msgs, c);
        var otherFeedback := OtherFeedback(msgs, c);
        var p1 := if |driverFeedback| > 0 then DriverPhase(s, driverFeedback, TuningOf(c), env)
                  else Phase(None, s);
        if p1.error.Some? then (Failed(p1.error.value), Errored(p1.state))
        else
          var p2 := if |otherFeedback| > 0 then OtherPhase(p1.state, otherFeedback, env)
                    else p1;
          if p2.error.Some? then (Failed(p2.error.value), Errored(p2.state))
          else
            var st := p2.state.stats;
            (Done, p2.state.(stats := st.(totalProcessed := st.totalProcessed + |raw|,
                                         driverFeedback := st.driverFeedback + |driverFeedback|,
                                         otherFeedback := st.otherFeedback + |otherFeedback|)))
  }

  /**
   * The offset `eachBatch` resolves: the last message's, and only when
   * `processBatch` did not throw; on an empty batch `lastMessage.offset` itself throws.
   */
  function ResolvedOffset(raw: seq<StreamRecord>, o: Outcome): (r: Option<int>)
    ensures r.Some? <==> !o.Failed? && raw != []
    ensures r.Some? ==> r.value == raw[|raw| - 1].offset
  {
    if o.Failed? || raw == [] then None else Some(raw[|raw| - 1].offset)
  }
}
