/**
 * consumer/src/consumer.js as it runs: the feedback store, the driver
 * collection, the alert log and the `stats` counters are fields that the
 * processing functions update step by step. Each method is proved to leave
 * exactly the state that the corresponding function of `ConsumerSpec` describes.
 */
module ConsumerPipeline {
  import opened Wrappers
  import opened Numeric
  import opened Events
  import opened FeedbackModel
  import opened DriverModel
  import opened AlertModel
  import opened SentimentService
  import opened ConsumerSpec

  /**
   * The grouping loop of `updateDriverScores`: `driverGroups` keyed by driver,
   * and the keys in the order they were first inserted.
   */
  method GroupByDriver(newFeedbackIds: seq<NewRating>)
    returns (driverGroups: map<string, seq<real>>, driverIds: seq<string>)
    ensures driverIds == DriverIds(newFeedbackIds)
    ensures forall d :: d in driverGroups <==> d in driverIds
    ensures forall d :: d in driverGroups ==> driverGroups[d] == Group(newFeedbackIds, d)
  {
    driverGroups := map[];
    driverIds := [];
    var k := 0;
    while k < |newFeedbackIds|
      invariant 0 <= k <= |newFeedbackIds|
      invariant GroupedUpTo(newFeedbackIds, k, driverGroups, driverIds)
    {
      var item := newFeedbackIds[k];
      GroupNext(newFeedbackIds, k, driverGroups, driverIds);
      if item.driverId !in driverGroups {
        driverGroups := driverGroups[item.driverId := []];
        driverIds := driverIds + [item.driverId];
      }
      driverGroups := driverGroups[item.driverId := driverGroups[item.driverId] + [item.combinedRating]];
      k := k + 1;
    }
    assert newFeedbackIds[..k] == newFeedbackIds;
  }

  /** After the first `k` ratings: the keys in first-appearance order, each with its group so far. */
  ghost predicate GroupedUpTo(ratings: seq<NewRating>, k: nat, driverGroups: map<string, seq<real>>,
                        driverIds: seq<string>)
    requires k <= |ratings|
  {
    && driverIds == DriverIds(ratings[..k])
    && (forall d :: d in driverGroups <==> d in driverIds)
    && (forall d :: d in driverGroups ==> driverGroups[d] == Group(ratings[..k], d))
  }

  /** One more rating: its driver joins the keys if new, and its group grows by the rating. */
  lemma GroupNext(ratings: seq<NewRating>, k: nat, driverGroups: map<string, seq<real>>, driverIds: seq<string>)
    requires k < |ratings| && GroupedUpTo(ratings, k, driverGroups, driverIds)
    ensures var d := ratings[k].driverId;
            var groups := if d in driverGroups then driverGroups else driverGroups[d := []];
            var ids := if d in driverGroups then driverIds else driverIds + [d];
            GroupedUpTo(ratings, k + 1, groups[d := groups[d] + [ratings[k].combinedRating]], ids)
  {
    assert ratings[..k + 1][..k] == ratings[..k];
    DriverIdsFacts(ratings[..k]);
  }

  /**
   * The inner loop over a driver's combined ratings: an average of exactly 0
   * takes the rating as is, otherwise `calculateEMA` blends it in.
   */
  method FoldRatings(avgScore: real, combinedRatings: seq<real>, alpha: real) returns (newAvg: real)
    ensures newAvg == Ema(avgScore, combinedRatings, alpha)
  {
    newAvg := avgScore;
    var j := 0;
    while j < |combinedRatings|
      invariant 0 <= j <= |combinedRatings|
      invariant Ema(newAvg, combinedRatings[j..], alpha) == Ema(avgScore, combinedRatings, alpha)
    {
      var rating := combinedRatings[j];
      assert combinedRatings[j..][1..] == combinedRatings[j + 1..];
      if newAvg == 0.0 {
        newAvg := rating;
      } else {
        newAvg := CalculateEma(newAvg, rating, alpha);
      }
      j := j + 1;
    }
  }

  class Consumer {
    var feedback: map<string, FeedbackRecord>
    var drivers: map<string, Driver>
    var alerts: seq<Alert>
    var stats: Stats

    /** The whole mutable state, as the specification functions see it. */
    function Snapshot(): State
      reads this
    {
      State(feedback, drivers, alerts, stats)
    }

    /** A consumer over existing collections, with the counters at zero. */
    constructor(feedback0: map<string, FeedbackRecord>, drivers0: map<string, Driver>, alerts0: seq<Alert>)
      ensures Snapshot() == State(feedback0, drivers0, alerts0, Stats(0, 0, 0, 0, 0))
    {
      feedback := feedback0;
      drivers := drivers0;
      alerts := alerts0;
      stats := Stats(0, 0, 0, 0, 0);
    }

    /**
     * `checkAndGenerateAlert`: returns whether an alert was written. `faulty`
     * stands for an error thrown by the alert query or write, which is caught
     * and reported as `false`.
     */
    method CheckAndGenerateAlert(driverId: string, avgScore: real, threshold: real,
                                 cooldownSeconds: int, now: int, faulty: bool)
      returns (generated: bool)
      modifies this`alerts
      ensures generated == AlertGate(old(alerts), driverId, avgScore, threshold, cooldownSeconds, now, faulty)
      ensures alerts == if generated then old(alerts) + [ConsumerAlert(driverId, avgScore, threshold, now)]
                        else old(alerts)
    {
      if avgScore >= threshold {
        return false;
      }
      var cutoffTime := now - cooldownSeconds * 1000;
      if faulty {
        return false;
      }
      if RecentAlert(alerts, driverId, cutoffTime) {
        return false;
      }
      alerts := alerts + [ConsumerAlert(driverId, avgScore, threshold, now)];
      return true;
    }

    /**
     * One turn of `updateDriverScores`' loop: fold the driver's group into its
     * average, round once, raise the count, save, run the alert check and count
     * the alert it generated.
     */
    method UpdateDriver(driverId: string, combinedRatings: seq<real>, t: Tuning, now: int, faulty: bool)
      modifies this`drivers, this`alerts, this`stats
      ensures var a := DriverStep(old(drivers), old(alerts), driverId, combinedRatings, t, now, faulty);
              && drivers == a.drivers && alerts == a.alerts
              && stats == old(stats).(alertsGenerated := old(stats).alertsGenerated + a.generated)
    {
      if driverId !in drivers {
        return;
      }
      var driver := drivers[driverId];
      var newAvg := FoldRatings(driver.avgScore, combinedRatings, t.alpha);
      driver := driver.(avgScore := Round2(newAvg), totalFeedback := driver.totalFeedback + |combinedRatings|);
      drivers := drivers[driverId := driver];
      var alertGenerated := CheckAndGenerateAlert(driverId, driver.avgScore, t.threshold, t.cooldownS, now, faulty);
      if alertGenerated {
        stats := stats.(alertsGenerated := stats.alertsGenerated + 1);
      }
    }

    /**
     * One turn of the loop over `driverIds`: when the scores still to apply from
     * driver `i` on lead to `goal`, so do driver `i`'s step followed by the rest.
     */
    static lemma UpdateScoresStep(goal: Aggregate, drivers: map<string, Driver>, alerts: seq<Alert>,
                                  ids: seq<string>, i: nat, generated: nat, group: seq<real>,
                                  ratings: seq<NewRating>, t: Tuning, now: int, failingAlerts: set<string>)
      requires i < |ids| && group == Group(ratings, ids[i])
      requires generated <= goal.generated
      requires UpdateScores(drivers, alerts, ids[i..], ratings, t, now, failingAlerts)
               == Aggregate(goal.drivers, goal.alerts, goal.generated - generated)
      ensures var step := DriverStep(drivers, alerts, ids[i], group, t, now, ids[i] in failingAlerts);
              && generated + step.generated <= goal.generated
              && UpdateScores(step.drivers, step.alerts, ids[i + 1..], ratings, t, now, failingAlerts)
                 == Aggregate(goal.drivers, goal.alerts, goal.generated - (generated + step.generated))
    {
      assert ids[i..][1..] == ids[i + 1..];
    }

    /**
     * The `for (const driverId of driverIds)` loop of `updateDriverScores`:
     * update each driver from its group, in order.
     */
    method UpdateEachDriver(driverGroups: map<string, seq<real>>, driverIds: seq<string>,
                            newFeedbackIds: seq<NewRating>, t: Tuning, now: int, failingAlerts: set<string>)
      requires forall d :: d in driverIds ==> d in driverGroups && driverGroups[d] == Group(newFeedbackIds, d)
      modifies this`drivers, this`alerts, this`stats
      ensures var a := UpdateScores(old(drivers), old(alerts), driverIds, newFeedbackIds, t, now, failingAlerts);
              && drivers == a.drivers && alerts == a.alerts
              && stats == old(stats).(alertsGenerated := old(stats).alertsGenerated + a.generated)
    {
      ghost var goal := UpdateScores(drivers, alerts, driverIds, newFeedbackIds, t, now, failingAlerts);
      ghost var generated: nat := 0;
      ghost var stats0 := stats;
      assert driverIds[0..] == driverIds;
      var i := 0;
      while i < |driverIds|
        invariant 0 <= i <= |driverIds|
        invariant generated <= goal.generated
        invariant UpdateScores(drivers, alerts, driverIds[i..], newFeedbackIds, t, now, failingAlerts)
                  == Aggregate(goal.drivers, goal.alerts, goal.generated - generated)
        invariant stats.alertsGenerated == stats0.alertsGenerated + generated
        invariant stats.totalProcessed == stats0.totalProcessed && stats.driverFeedback == stats0.driverFeedback
        invariant stats.otherFeedback == stats0.otherFeedback && stats.errors == stats0.errors
      {
        var driverId := driverIds[i];
        var combinedRatings := driverGroups[driverId];
        UpdateScoresStep(goal, drivers, alerts, driverIds, i, generated, combinedRatings, newFeedbackIds, t, now,
                         failingAlerts);
        ghost var step := DriverStep(drivers, alerts, driverId, combinedRatings, t, now, driverId in failingAlerts);
        UpdateDriver(driverId, combinedRatings, t, now, driverId in failingAlerts);
        generated := generated + step.generated;
        i := i + 1;
      }
    }

    /**
     * `updateDriverScores`: group the new ratings by driver, then update each
     * driver in the order it first appears.
     */
    method UpdateDriverScores(newFeedbackIds: seq<NewRating>, t: Tuning, now: int, failingAlerts: set<string>)
      modifies this`drivers, this`alerts, this`stats
      ensures var a := UpdateScores(old(drivers), old(alerts), DriverIds(newFeedbackIds), newFeedbackIds,
                                    t, now, failingAlerts);
              && drivers == a.drivers && alerts == a.alerts
              && stats == old(stats).(alertsGenerated := old(stats).alertsGenerated + a.generated)
    {
      var driverGroups, driverIds := GroupByDriver(newFeedbackIds);
      UpdateEachDriver(driverGroups, driverIds, newFeedbackIds, t, now, failingAlerts);
    }

    /**
     * The create loop of `processDriverFeedback`: one document per message with
     * its prediction, combined score and label; returns whether a create threw
     * and, otherwise, the `newFeedbackIds` of the documents actually inserted.
     */
    method StoreScored(driverFeedback: seq<Message>, predictions: seq<real>, failing: set<string>)
      returns (failed: bool, newFeedbackIds: seq<NewRating>)
      requires |predictions| == |driverFeedback|
      modifies this`feedback
      ensures var w := StoreAll(old(feedback), ScoredRecords(driverFeedback, predictions), failing);
              && feedback == w.store && failed == w.failed
              && (forall x :: x in w.inserted ==> x.combinedScore.Some?)
              && (!failed ==> newFeedbackIds == NewRatings(w.inserted))
    {
      ghost var recs := ScoredRecords(driverFeedback, predictions);
      ghost var goal := StoreAll(feedback, recs, failing);
      ScoredInsertsAreScored(feedback, driverFeedback, predictions, failing);
      ghost var inserted: seq<FeedbackRecord> := [];
      newFeedbackIds := [];
      assert recs[0..] == recs;
      var i := 0;
      while i < |driverFeedback|
        invariant 0 <= i <= |driverFeedback|
        invariant forall x :: x in inserted ==> x.combinedScore.Some?
        invariant newFeedbackIds == NewRatings(inserted)
        invariant WritesUpTo(goal, feedback, recs, i, inserted, failing)
      {
        var feedbackMsg := driverFeedback[i];
        var predictedScore := predictions[i];
        var combinedScore := CombinedScore(feedbackMsg.rating, predictedScore);
        var sentiment := FixedLabel(combinedScore);
        var record := FeedbackRecord(feedbackMsg.messageId, feedbackMsg.entityType, feedbackMsg.entityId,
                                     feedbackMsg.userId, feedbackMsg.rating, feedbackMsg.text,
                                     Some(predictedScore), Some(combinedScore), Some(sentiment),
                                     feedbackMsg.timestamp);
        assert record == recs[i];
        WriteNext(goal, feedback, recs, i, inserted, failing);
        var outcome := WriteOutcome(feedback, failing, feedbackMsg.messageId);
        if outcome == WriteError {
          return true, newFeedbackIds;
        }
        if outcome == Inserted {
          NewRatingsAppend(inserted, record);
          feedback := feedback[feedbackMsg.messageId := record];
          newFeedbackIds := newFeedbackIds + [NewRating(feedbackMsg.entityId, combinedScore)];
          inserted := inserted + [record];
        }
        i := i + 1;
      }
      WritesDone(goal, feedback, recs, inserted, failing);
      return false, newFeedbackIds;
    }

    /**
     * `processDriverFeedback`: one scoring request for the whole group, then
     * one create per message; returns the cause when the function throws.
     */
    method ProcessDriverFeedback(driverFeedback: seq<Message>, t: Tuning, env: Env)
      returns (error: Option<Cause>)
      requires PredictionsFit(env.reply, |driverFeedback|)
      modifies this
      ensures DriverPhase(old(Snapshot()), driverFeedback, t, env) == Phase(error, Snapshot())
    {
      var predictions := GetPredictions(env.reply);
      if predictions.PredictionError? {
        return Some(PredictionFailed);
      }
      var failed, newFeedbackIds := StoreScored(driverFeedback, predictions.scores, env.failingWrites);
      if failed {
        return Some(WriteFailed);
      }
      if |newFeedbackIds| > 0 {
        UpdateDriverScores(newFeedbackIds, t, env.now, env.failingAlerts);
      }
      return None;
    }

    /** `processOtherFeedback`: one create per message, no scoring. */
    method ProcessOtherFeedback(otherFeedback: seq<Message>, env: Env) returns (error: Option<Cause>)
      modifies this`feedback
      ensures OtherPhase(old(Snapshot()), otherFeedback, env) == Phase(error, Snapshot())
    {
      ghost var recs := UnscoredRecords(otherFeedback);
      ghost var goal := StoreAll(feedback, recs, env.failingWrites);
      ghost var inserted: seq<FeedbackRecord> := [];
      assert recs[0..] == recs;
      var i := 0;
      while i < |otherFeedback|
        invariant 0 <= i <= |otherFeedback|
        invariant WritesUpTo(goal, feedback, recs, i, inserted, env.failingWrites)
      {
        var feedbackMsg := otherFeedback[i];
        var record := FeedbackRecord(feedbackMsg.messageId, feedbackMsg.entityType, feedbackMsg.entityId,
                                     feedbackMsg.userId, feedbackMsg.rating, feedbackMsg.text,
                                     None, None, None, feedbackMsg.timestamp);
        assert record == recs[i];
        WriteNext(goal, feedback, recs, i, inserted, env.failingWrites);
        var outcome := WriteOutcome(feedback, env.failingWrites, feedbackMsg.messageId);
        if outcome == WriteError {
          return Some(WriteFailed);
        }
        if outcome == Inserted {
          feedback := feedback[feedbackMsg.messageId := record];
          inserted := inserted + [record];
        }
        i := i + 1;
      }
      WritesDone(goal, feedback, recs, inserted, env.failingWrites);
      return None;
    }

    /** `processBatch`: read the configuration, parse, split, run both phases, count. */
    method ProcessBatch(messages: seq<StreamRecord>, env: Env) returns (outcome: Outcome)
      requires BatchFits(messages, env)
      modifies this
      ensures (outcome, Snapshot()) == ConsumerSpec.ProcessBatch(old(Snapshot()), messages, env)
    {
      if env.config.None? {
        return NoConfig;
      }
      var config := env.config.value;
      var parsed := ParseAll(messages);
      if parsed.None? {
        stats := stats.(errors := stats.errors + 1);
        return Failed(ParseFailed);
      }
      var msgs := parsed.value;
      var driverFeedback := DriverFeedback(msgs, config);
      var otherFeedback := OtherFeedback(msgs, config);
      ghost var s0 := Snapshot();
      ghost var p1 := if |driverFeedback| > 0 then DriverPhase(s0, driverFeedback, TuningOf(config), env)
                      else Phase(None, s0);
      if |driverFeedback| > 0 {
        var error := ProcessDriverFeedback(driverFeedback, TuningOf(config), env);
        if error.Some? {
          stats := stats.(errors := stats.errors + 1);
          return Failed(error.value);
        }
      }
      assert p1 == Phase(None, Snapshot());
      ghost var p2 := if |otherFeedback| > 0 then OtherPhase(p1.state, otherFeedback, env) else p1;
      if |otherFeedback| > 0 {
        var error := ProcessOtherFeedback(otherFeedback, env);
        if error.Some? {
          stats := stats.(errors := stats.errors + 1);
          return Failed(error.value);
        }
      }
      assert p2 == Phase(None, Snapshot());
      stats := stats.(totalProcessed := stats.totalProcessed + |messages|,
                      driverFeedback := stats.driverFeedback + |driverFeedback|,
                      otherFeedback := stats.otherFeedback + |otherFeedback|);
      return Done;
    }

    /**
     * The `eachBatch` handler: process the batch, then resolve the last
     * message's offset; `None` when either step throws.
     */
    method EachBatch(messages: seq<StreamRecord>, env: Env) returns (resolved: Option<int>)
      requires BatchFits(messages, env)
      modifies this
      ensures var (o, s) := ConsumerSpec.ProcessBatch(old(Snapshot()), messages, env);
              Snapshot() == s && resolved == ResolvedOffset(messages, o)
    {
      var outcome := ProcessBatch(messages, env);
      if outcome.Failed? {
        return None;
      }
      if |messages| == 0 {
        return None;
      }
      var lastMessage := messages[|messages| - 1];
      return Some(lastMessage.offset);
    }
  }
}
