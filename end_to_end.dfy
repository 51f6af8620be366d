/**
 * Invariants that hold across the whole pipeline: what the feedback route
 * publishes and the scoring service answers is enough for the consumer to
 * keep its three collections valid, and the relabelling script's default
 * threshold agrees with the labels the consumer wrote.
 */
module EndToEnd {
  import opened Wrappers
  import opened Numeric
  import opened ConfigModel
  import opened Events
  import opened FeedbackModel
  import opened DriverModel
  import opened AlertModel
  import opened SentimentService
  import opened ModelServer
  import opened UpdateSentiments
  import opened FeedbackRoute
  import opened ConsumerSpec
  import opened ConsumerLemmas
  import opened BatchLemmas

  // ---------------------------------------------------------------------------
  // Scoring service to consumer

  /** The HTTP reply FastAPI sends for a `predict_batch` result: 200 with `scores`, or the error status. */
  function Transport(r: BatchReply): HttpReply {
    match r
    case Ok(scores) => Response(200, scores)
    case HttpError(status, _) => Response(status, [])
  }

  /** Every score a reply hands to the consumer is on the 1..5 scale. */
  predicate ScoresInRange(reply: HttpReply) {
    GetPredictions(reply).Scores? ==>
      forall i :: 0 <= i < |GetPredictions(reply).scores| ==> 1.0 <= GetPredictions(reply).scores[i] <= 5.0
  }

  /**
   * For the texts of a non-empty batch the service's answer is accepted by
   * `getPredictions`, one score in [1, 5] per text; an empty batch is an error.
   */
  lemma ServiceFeedsConsumer(texts: seq<string>, vader: string -> real)
    requires forall t :: -1.0 <= vader(t) <= 1.0
    ensures var p := GetPredictions(Transport(PredictBatch(texts, vader)));
            && (p.Scores? <==> texts != [])
            && PredictionsFit(Transport(PredictBatch(texts, vader)), |texts|)
            && ScoresInRange(Transport(PredictBatch(texts, vader)))
  {
  }

  // ---------------------------------------------------------------------------
  // Feedback records

  /** A record as the consumer writes it: schema-valid, and labelled by `getSentimentLabel` when scored. */
  predicate ConsumerRecord(r: FeedbackRecord) {
    && ValidFeedback(r)
    && (r.combinedScore.Some? ==> r.sentiment == Some(FixedLabel(r.combinedScore.value)))
  }

  /** Every stored record sits under its own id and is a consumer record. */
  predicate ConsumerStore(store: map<string, FeedbackRecord>) {
    forall id :: id in store ==> store[id].id == id && ConsumerRecord(store[id])
  }

  /** A published message with a score in [1, 5] gives a valid, labelled record. */
  lemma ScoredRecordIsConsumerRecord(m: Message, prediction: real)
    requires WellFormedMessage(m) && 1.0 <= prediction <= 5.0
    ensures ConsumerRecord(ScoredRecord(m, prediction))
    ensures 1.0 <= ScoredRecord(m, prediction).combinedScore.value <= 5.0
  {
    CombinedScoreWithin(m.rating, prediction);
  }

  /** The write loop stores only the records it is given, each under its id. */
  lemma {:induction false} StoreAllKeepsConsumerStore(store: map<string, FeedbackRecord>, recs: seq<FeedbackRecord>,
                                                      failing: set<string>)
    requires ConsumerStore(store)
    requires forall i :: 0 <= i < |recs| ==> ConsumerRecord(recs[i])
    decreases |recs|
    ensures ConsumerStore(StoreAll(store, recs, failing).store)
  {
    if recs != [] {
      assert forall i :: 0 <= i < |recs[1..]| ==> recs[1..][i] == recs[i + 1];
      match WriteOutcome(store, failing, recs[0].id)
      case WriteError =>
      case Duplicate =>
        StoreAllKeepsConsumerStore(store, recs[1..], failing);
      case Inserted =>
        StoreAllKeepsConsumerStore(store[recs[0].id := recs[0]], recs[1..], failing);
    }
  }

  // ---------------------------------------------------------------------------
  // Drivers and alerts

  /** The consumer's state is valid: records, drivers and every alert. */
  predicate Healthy(s: State) {
    && ConsumerStore(s.feedback)
    && ValidDrivers(s.drivers)
    && forall i :: 0 <= i < |s.alerts| ==> ValidAlert(s.alerts[i])
  }

  /** Every rating of a driver's group is one of the batch's ratings. */
  lemma {:induction false} GroupWithin(ratings: seq<NewRating>, d: string, lo: real, hi: real)
    requires forall k :: 0 <= k < |ratings| ==> lo <= ratings[k].combinedRating <= hi
    ensures forall k :: 0 <= k < |Group(ratings, d)| ==> lo <= Group(ratings, d)[k] <= hi
  {
    if ratings != [] {
      GroupWithin(ratings[..|ratings| - 1], d, lo, hi);
    }
  }

  /** One driver's update keeps the drivers and the alerts valid. */
  lemma DriverStepKeepsValid(drivers: map<string, Driver>, alerts: seq<Alert>, d: string, group: seq<real>,
                             t: Tuning, now: int, faulty: bool)
    requires ValidDrivers(drivers) && forall i :: 0 <= i < |alerts| ==> ValidAlert(alerts[i])
    requires 0.0 <= t.alpha <= 1.0
    requires forall k :: 0 <= k < |group| ==> 0.0 <= group[k] <= 5.0
    ensures var a := DriverStep(drivers, alerts, d, group, t, now, faulty);
            ValidDrivers(a.drivers) && forall i :: 0 <= i < |a.alerts| ==> ValidAlert(a.alerts[i])
  {
    if d in drivers {
      var dr := UpdatedDriver(drivers[d], group, t.alpha);
      UpdatedDriverValid(drivers[d], group, t.alpha);
      ReplaceKeepsValid(drivers, d, dr);
      var emit := AlertGate(alerts, d, dr.avgScore, t.threshold, t.cooldownS, now, faulty);
      AppendKeepsValid(alerts, emit, ConsumerAlert(d, dr.avgScore, t.threshold, now));
    }
  }

  /** Replacing a driver by a valid record with the same id keeps the collection valid. */
  lemma ReplaceKeepsValid(drivers: map<string, Driver>, d: string, dr: Driver)
    requires ValidDrivers(drivers) && d in drivers
    requires ValidDriver(dr) && dr.driverId == drivers[d].driverId
    ensures ValidDrivers(drivers[d := dr])
  {
  }

  /** Appending a valid alert, or nothing, keeps every alert valid. */
  lemma AppendKeepsValid(alerts: seq<Alert>, emit: bool, x: Alert)
    requires forall i :: 0 <= i < |alerts| ==> ValidAlert(alerts[i])
    requires emit ==> ValidAlert(x)
    ensures var r := if emit then alerts + [x] else alerts;
            forall i :: 0 <= i < |r| ==> ValidAlert(r[i])
  {
  }

  /** The score update keeps the drivers and the alerts valid, for any ratings in [0, 5]. */
  lemma {:induction false} UpdateScoresKeepsValid(drivers: map<string, Driver>, alerts: seq<Alert>, ids: seq<string>,
                                                  ratings: seq<NewRating>, t: Tuning, now: int,
                                                  failingAlerts: set<string>)
    requires ValidDrivers(drivers) && forall i :: 0 <= i < |alerts| ==> ValidAlert(alerts[i])
    requires 0.0 <= t.alpha <= 1.0
    requires forall k :: 0 <= k < |ratings| ==> 0.0 <= ratings[k].combinedRating <= 5.0
    decreases |ids|
    ensures var a := UpdateScores(drivers, alerts, ids, ratings, t, now, failingAlerts);
            ValidDrivers(a.drivers) && forall i :: 0 <= i < |a.alerts| ==> ValidAlert(a.alerts[i])
  {
    if ids != [] {
      var d := ids[0];
      GroupWithin(ratings, d, 0.0, 5.0);
      DriverStepKeepsValid(drivers, alerts, d, Group(ratings, d), t, now, d in failingAlerts);
      var step := DriverStep(drivers, alerts, d, Group(ratings, d), t, now, d in failingAlerts);
      UpdateScoresKeepsValid(step.drivers, step.alerts, ids[1..], ratings, t, now, failingAlerts);
    }
  }

  // ---------------------------------------------------------------------------
  // Whole batches

  /** The documents built for published messages and in-range scores are consumer records. */
  lemma ScoredRecordsAreConsumerRecords(msgs: seq<Message>, predictions: seq<real>)
    requires |predictions| == |msgs|
    requires forall i :: 0 <= i < |msgs| ==> WellFormedMessage(msgs[i])
    requires forall i :: 0 <= i < |predictions| ==> 1.0 <= predictions[i] <= 5.0
    ensures var recs := ScoredRecords(msgs, predictions);
            forall i :: 0 <= i < |recs| ==> ConsumerRecord(recs[i]) && 1.0 <= recs[i].combinedScore.value <= 5.0
  {
    var recs := ScoredRecords(msgs, predictions);
    forall i | 0 <= i < |recs|
      ensures ConsumerRecord(recs[i]) && 1.0 <= recs[i].combinedScore.value <= 5.0
    {
      ScoredRecordIsConsumerRecord(msgs[i], predictions[i]);
      assert recs[i] == ScoredRecord(msgs[i], predictions[i]);
    }
  }

  /** The records the driver phase inserts all carry a combined score in [1, 5]. */
  lemma InsertedRatingsWithin(store: map<string, FeedbackRecord>, msgs: seq<Message>, predictions: seq<real>,
                              failing: set<string>)
    requires |predictions| == |msgs|
    requires forall i :: 0 <= i < |msgs| ==> WellFormedMessage(msgs[i])
    requires forall i :: 0 <= i < |predictions| ==> 1.0 <= predictions[i] <= 5.0
    ensures forall x :: x in StoreAll(store, ScoredRecords(msgs, predictions), failing).inserted ==>
              x.combinedScore.Some? && 1.0 <= x.combinedScore.value <= 5.0
  {
    ScoredRecordsAreConsumerRecords(msgs, predictions);
    StoreAllInserts(store, ScoredRecords(msgs, predictions), failing);
    StoreAllKeys(store, ScoredRecords(msgs, predictions), failing);
  }

  /** The collections the driver phase leaves after the scores came back are valid. */
  lemma ScoredPhaseKeepsValid(s: State, msgs: seq<Message>, predictions: seq<real>, t: Tuning, env: Env)
    requires Healthy(s)
    requires |predictions| == |msgs|
    requires forall i :: 0 <= i < |msgs| ==> WellFormedMessage(msgs[i])
    requires forall i :: 0 <= i < |predictions| ==> 1.0 <= predictions[i] <= 5.0
    requires 0.0 <= t.alpha <= 1.0
    ensures var w := StoreAll(s.feedback, ScoredRecords(msgs, predictions), env.failingWrites);
            && ConsumerStore(w.store)
            && (forall x :: x in w.inserted ==> x.combinedScore.Some?)
            && var ratings := NewRatings(w.inserted);
               var a := UpdateScores(s.drivers, s.alerts, DriverIds(ratings), ratings, t, env.now, env.failingAlerts);
               ValidDrivers(a.drivers) && forall i :: 0 <= i < |a.alerts| ==> ValidAlert(a.alerts[i])
  {
    var recs := ScoredRecords(msgs, predictions);
    ScoredRecordsAreConsumerRecords(msgs, predictions);
    StoreAllKeepsConsumerStore(s.feedback, recs, env.failingWrites);
    var w := StoreAll(s.feedback, recs, env.failingWrites);
    InsertedRatingsWithin(s.feedback, msgs, predictions, env.failingWrites);
    var ratings := NewRatings(w.inserted);
    assert forall k :: 0 <= k < |ratings| ==> w.inserted[k] in w.inserted;
    UpdateScoresKeepsValid(s.drivers, s.alerts, DriverIds(ratings), ratings, t, env.now, env.failingAlerts);
  }

  /** The driver phase keeps the state healthy. */
  lemma DriverPhaseKeepsHealthy(s: State, msgs: seq<Message>, t: Tuning, env: Env)
    requires Healthy(s)
    requires forall i :: 0 <= i < |msgs| ==> WellFormedMessage(msgs[i])
    requires PredictionsFit(env.reply, |msgs|) && ScoresInRange(env.reply)
    requires 0.0 <= t.alpha <= 1.0
    ensures Healthy(DriverPhase(s, msgs, t, env).state)
  {
    DriverPhaseShape(s, msgs, t, env);
    if GetPredictions(env.reply).Scores? {
      ScoredPhaseKeepsValid(s, msgs, GetPredictions(env.reply).scores, t, env);
    }
  }

  /** The other phase keeps the state healthy. */
  lemma OtherPhaseKeepsHealthy(s: State, msgs: seq<Message>, env: Env)
    requires Healthy(s)
    requires forall i :: 0 <= i < |msgs| ==> WellFormedMessage(msgs[i])
    ensures Healthy(OtherPhase(s, msgs, env).state)
  {
    var recs := UnscoredRecords(msgs);
    assert forall i :: 0 <= i < |recs| ==> recs[i] == UnscoredRecord(msgs[i]);
    StoreAllKeepsConsumerStore(s.feedback, recs, env.failingWrites);
  }

  /** A batch of published messages parses into published messages, and so do both of its filters. */
  lemma ParsedMessagesWellFormed(raw: seq<StreamRecord>, c: Config)
    requires ParseAll(raw).Some?
    requires forall i :: 0 <= i < |raw| && raw[i].value.Some? ==> WellFormedMessage(raw[i].value.value)
    ensures var msgs := ParseAll(raw).value;
            && (forall i :: 0 <= i < |DriverFeedback(msgs, c)| ==> WellFormedMessage(DriverFeedback(msgs, c)[i]))
            && (forall i :: 0 <= i < |OtherFeedback(msgs, c)| ==> WellFormedMessage(OtherFeedback(msgs, c)[i]))
  {
    ParseAllFacts(raw);
    var msgs := ParseAll(raw).value;
    DriverFeedbackFilters(msgs, c);
    OtherFeedbackFilters(msgs, c);
    assert forall m :: m in msgs ==> WellFormedMessage(m) by {
      forall m | m in msgs
        ensures WellFormedMessage(m)
      {
        var i :| 0 <= i < |msgs| && msgs[i] == m;
        assert raw[i].value.value == m;
      }
    }
    assert forall i :: 0 <= i < |DriverFeedback(msgs, c)| ==> DriverFeedback(msgs, c)[i] in msgs;
    assert forall i :: 0 <= i < |OtherFeedback(msgs, c)| ==> OtherFeedback(msgs, c)[i] in msgs;
  }

  /** The counters do not take part in the state's validity. */
  lemma HealthyIgnoresStats(st: State, stats: Stats)
    requires Healthy(st)
    ensures Healthy(st.(stats := stats))
  {
  }

  /**
   * Every batch of published messages, scored by a service in range with a
   * smoothing factor in [0, 1], leaves the records, the drivers and the alerts
   * valid, whether it completes or throws.
   */
  lemma BatchKeepsHealthy(s: State, raw: seq<StreamRecord>, env: Env)
    requires BatchFits(raw, env)
    requires Healthy(s)
    requires forall i :: 0 <= i < |raw| && raw[i].value.Some? ==> WellFormedMessage(raw[i].value.value)
    requires ScoresInRange(env.reply)
    requires env.config.Some? ==> 0.0 <= env.config.value.emaAlpha <= 1.0
    ensures Healthy(ProcessBatch(s, raw, env).1)
  {
    if env.config.Some? && ParseAll(raw).Some? {
      var c := env.config.value;
      var msgs := ParseAll(raw).value;
      ParsedMessagesWellFormed(raw, c);
      BatchEndsInPhase(s, raw, env);
      var driverFeedback := DriverFeedback(msgs, c);
      var otherFeedback := OtherFeedback(msgs, c);
      var p1 := if |driverFeedback| > 0 then DriverPhase(s, driverFeedback, TuningOf(c), env) else Phase(None, s);
      if |driverFeedback| > 0 {
        DriverPhaseKeepsHealthy(s, driverFeedback, TuningOf(c), env);
      }
      var p2 := if |otherFeedback| > 0 then OtherPhase(p1.state, otherFeedback, env) else p1;
      if |otherFeedback| > 0 {
        OtherPhaseKeepsHealthy(p1.state, otherFeedback, env);
      }
      HealthyIgnoresStats(if p1.error.Some? then p1.state else p2.state, ProcessBatch(s, raw, env).1.stats);
    }
  }

  // ---------------------------------------------------------------------------
  // Relabelling

  /**
   * On records the consumer wrote, the relabelling script at its default
   * threshold 2.5 finds nothing to change.
   */
  lemma DefaultRelabelKeepsConsumerStore(store: map<string, FeedbackRecord>)
    requires ConsumerStore(store)
    ensures Relabeled(store, 2.5) == store
    ensures forall id :: id in store ==> !Stale(store[id], 2.5)
  {
    forall id | id in store && Selected(store[id])
      ensures Relabel(store[id], 2.5) == store[id]
    {
      FixedLabelIsDefaultThreshold(store[id].combinedScore.value);
    }
  }
}
