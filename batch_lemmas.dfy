/**
 * Properties of whole batches of consumer/src/consumer.js: what a failed batch
 * leaves behind, what a completed batch guarantees, how a redelivered batch
 * is absorbed, and where that guarantee stops.
 */
module BatchLemmas {
  import opened Wrappers
  import opened Sequences
  import opened ConfigModel
  import opened Events
  import opened FeedbackModel
  import opened DriverModel
  import opened AlertModel
  import opened SentimentService
  import opened ConsumerSpec
  import opened ConsumerLemmas

  /**
   * A missing configuration document ends the batch early with nothing
   * changed, and the handler still resolves the batch's last offset.
   */
  lemma MissingConfigSkipsBatch(s: State, raw: seq<StreamRecord>, env: Env)
    requires env.config.None?
    ensures BatchFits(raw, env)
    ensures ProcessBatch(s, raw, env) == (NoConfig, s)
    ensures raw != [] ==> ResolvedOffset(raw, ProcessBatch(s, raw, env).0) == Some(raw[|raw| - 1].offset)
  {
  }

  /** What the driver phase leaves in each collection, case by case. */
  lemma DriverPhaseShape(s: State, msgs: seq<Message>, t: Tuning, env: Env)
    requires PredictionsFit(env.reply, |msgs|)
    ensures var p := DriverPhase(s, msgs, t, env);
            && (GetPredictions(env.reply).PredictionError? ==> p.state == s)
            && (GetPredictions(env.reply).Scores? ==>
                  var w := StoreAll(s.feedback, ScoredRecords(msgs, GetPredictions(env.reply).scores), env.failingWrites);
                  && (forall x :: x in w.inserted ==> x.combinedScore.Some?)
                  && p.state.feedback == w.store
                  && (w.failed || |w.inserted| == 0 ==> p.state.drivers == s.drivers && p.state.alerts == s.alerts)
                  && (!w.failed && |w.inserted| > 0 ==>
                        var ratings := NewRatings(w.inserted);
                        var a := UpdateScores(s.drivers, s.alerts, DriverIds(ratings), ratings, t, env.now, env.failingAlerts);
                        p.state.drivers == a.drivers && p.state.alerts == a.alerts))
  {
    if GetPredictions(env.reply).Scores? {
      ScoredInsertsAreScored(s.feedback, msgs, GetPredictions(env.reply).scores, env.failingWrites);
    }
  }

  /** A parsed batch ends in the state of its last phase, counters aside. */
  lemma BatchEndsInPhase(s: State, raw: seq<StreamRecord>, env: Env)
    requires BatchFits(raw, env) && env.config.Some? && ParseAll(raw).Some?
    ensures var c := env.config.value;
            var msgs := ParseAll(raw).value;
            var p1 := if |DriverFeedback(msgs, c)| > 0 then DriverPhase(s, DriverFeedback(msgs, c), TuningOf(c), env)
                      else Phase(None, s);
            var p2 := if |OtherFeedback(msgs, c)| > 0 then OtherPhase(p1.state, OtherFeedback(msgs, c), env) else p1;
            var (o, r) := ProcessBatch(s, raw, env);
            && r == (if p1.error.Some? then p1.state else p2.state).(stats := r.stats)
            && o == (if p1.error.Some? then Failed(p1.error.value) else if p2.error.Some? then Failed(p2.error.value) else Done)
  {
  }

  /** The driver phase never overwrites or removes a stored document. */
  lemma DriverPhaseKeepsFeedback(s: State, msgs: seq<Message>, t: Tuning, env: Env)
    requires PredictionsFit(env.reply, |msgs|)
    ensures var p := DriverPhase(s, msgs, t, env);
            forall id :: id in s.feedback ==> id in p.state.feedback && p.state.feedback[id] == s.feedback[id]
  {
    if GetPredictions(env.reply).Scores? {
      StoreAllKeeps(s.feedback, ScoredRecords(msgs, GetPredictions(env.reply).scores), env.failingWrites);
    }
  }

  /**
   * A write error in the driver phase keeps the records written before it and
   * applies no score update: drivers, alerts and counters are as they were,
   * and every new document is the scored record of one of the messages.
   */
  lemma DriverWriteFailureSkipsScores(s: State, msgs: seq<Message>, t: Tuning, env: Env)
    requires PredictionsFit(env.reply, |msgs|)
    requires DriverPhase(s, msgs, t, env).error == Some(WriteFailed)
    ensures var p := DriverPhase(s, msgs, t, env);
            && p.state.drivers == s.drivers && p.state.alerts == s.alerts && p.state.stats == s.stats
            && (exists i :: 0 <= i < |msgs| && msgs[i].messageId in env.failingWrites)
            && forall id :: id in p.state.feedback && id !in s.feedback ==>
                 exists i :: 0 <= i < |msgs| && p.state.feedback[id] == ScoredRecord(msgs[i], GetPredictions(env.reply).scores[i])
  {
    var predictions := GetPredictions(env.reply).scores;
    var recs := ScoredRecords(msgs, predictions);
    StoreAllCompletes(s.feedback, recs, env.failingWrites);
    StoreAllInserts(s.feedback, recs, env.failingWrites);
    StoreAllKeys(s.feedback, recs, env.failingWrites);
    var w := StoreAll(s.feedback, recs, env.failingWrites);
    forall id | id in w.store && id !in s.feedback
      ensures exists i :: 0 <= i < |msgs| && w.store[id] == ScoredRecord(msgs[i], predictions[i])
    {
      var x :| x in w.inserted && x.id == id;
      var i :| 0 <= i < |recs| && recs[i] == x;
      assert recs[i] == ScoredRecord(msgs[i], predictions[i]);
    }
  }

  /** Whatever happens to a batch, every document stored before it is still there, unchanged. */
  lemma BatchKeepsFeedback(s: State, raw: seq<StreamRecord>, env: Env)
    requires BatchFits(raw, env)
    ensures var s' := ProcessBatch(s, raw, env).1;
            forall id :: id in s.feedback ==> id in s'.feedback && s'.feedback[id] == s.feedback[id]
  {
    if env.config.Some? && ParseAll(raw).Some? {
      var c := env.config.value;
      var msgs := ParseAll(raw).value;
      var driverFeedback := DriverFeedback(msgs, c);
      var otherFeedback := OtherFeedback(msgs, c);
      var p1 := if |driverFeedback| > 0 then DriverPhase(s, driverFeedback, TuningOf(c), env) else Phase(None, s);
      if |driverFeedback| > 0 {
        DriverPhaseKeepsFeedback(s, driverFeedback, TuningOf(c), env);
      }
      StoreAllKeeps(p1.state.feedback, UnscoredRecords(otherFeedback), env.failingWrites);
    }
  }

  /**
   * A batch that throws counts one error and none of its messages; when it
   * throws before anything is written (unparseable payload, scoring failure)
   * the feedback store, the drivers and the alerts are as they were, and no
   * offset is resolved.
   */
  lemma FailedBatchIsContained(s: State, raw: seq<StreamRecord>, env: Env)
    requires BatchFits(raw, env)
    ensures var (o, s') := ProcessBatch(s, raw, env);
            o.Failed? ==>
              && s'.stats.errors == s.stats.errors + 1
              && s'.stats.totalProcessed == s.stats.totalProcessed
              && s'.stats.driverFeedback == s.stats.driverFeedback
              && s'.stats.otherFeedback == s.stats.otherFeedback
              && ResolvedOffset(raw, o).None?
              && (o.cause != WriteFailed ==>
                    s'.feedback == s.feedback && s'.drivers == s.drivers && s'.alerts == s.alerts)
  {
  }

  /**
   * A batch that completes stored every one of its messages, counted each of
   * them once as processed and once as driver or other feedback, and kept
   * every earlier document.
   */
  lemma CompletedBatchIsStored(s: State, raw: seq<StreamRecord>, env: Env)
    requires BatchFits(raw, env)
    requires ProcessBatch(s, raw, env).0 == Done
    ensures var s' := ProcessBatch(s, raw, env).1;
            && (forall i :: 0 <= i < |raw| ==> raw[i].value.Some? && raw[i].value.value.messageId in s'.feedback)
            && s'.stats.totalProcessed == s.stats.totalProcessed + |raw|
            && s'.stats.driverFeedback + s'.stats.otherFeedback
               == s.stats.driverFeedback + s.stats.otherFeedback + |raw|
            && s'.stats.errors == s.stats.errors
  {
    var c := env.config.value;
    ParseAllFacts(raw);
    var msgs := ParseAll(raw).value;
    var driverFeedback := DriverFeedback(msgs, c);
    var otherFeedback := OtherFeedback(msgs, c);
    ClassificationPartition(msgs, c);
    var p1 := if |driverFeedback| > 0 then DriverPhase(s, driverFeedback, TuningOf(c), env) else Phase(None, s);
    assert p1.error.None?;
    if |driverFeedback| > 0 {
      var predictions := GetPredictions(env.reply).scores;
      ScoredIdsStored(s.feedback, driverFeedback, predictions, env.failingWrites);
    }
    var p2 := if |otherFeedback| > 0 then OtherPhase(p1.state, otherFeedback, env) else p1;
    assert p2.error.None?;
    StoreAllKeeps(p1.state.feedback, UnscoredRecords(otherFeedback), env.failingWrites);
    if |otherFeedback| > 0 {
      UnscoredIdsStored(p1.state.feedback, otherFeedback, env.failingWrites);
    }
    var s' := ProcessBatch(s, raw, env).1;
    assert s'.feedback == p2.state.feedback;
    forall i | 0 <= i < |raw|
      ensures raw[i].value.value.messageId in s'.feedback
    {
      assert msgs[i] in msgs;
    }
  }

  /** The messages of a completed batch are all stored, and none is among the given failing ids. */
  lemma CompletedMessagesStored(s: State, raw: seq<StreamRecord>, env: Env, failing: set<string>)
    requires BatchFits(raw, env)
    requires ProcessBatch(s, raw, env).0 == Done
    requires forall i :: 0 <= i < |raw| && raw[i].value.Some? ==> raw[i].value.value.messageId !in failing
    ensures ParseAll(raw).Some?
    ensures forall m :: m in ParseAll(raw).value ==>
              m.messageId in ProcessBatch(s, raw, env).1.feedback && m.messageId !in failing
  {
    CompletedBatchIsStored(s, raw, env);
    ParseAllFacts(raw);
    var msgs := ParseAll(raw).value;
    forall m | m in msgs
      ensures m.messageId in ProcessBatch(s, raw, env).1.feedback && m.messageId !in failing
    {
      var i :| 0 <= i < |msgs| && msgs[i] == m;
      assert raw[i].value.value == m;
    }
  }

  /** Both phases of a batch whose messages are all stored, none failing, change nothing. */
  lemma StoredMessagesAbsorbed(s: State, msgs: seq<Message>, c: Config, env: Env)
    requires forall m :: m in msgs ==> m.messageId in s.feedback && m.messageId !in env.failingWrites
    requires PredictionsFit(env.reply, |DriverFeedback(msgs, c)|) && GetPredictions(env.reply).Scores?
    ensures |DriverFeedback(msgs, c)| > 0 ==> DriverPhase(s, DriverFeedback(msgs, c), TuningOf(c), env) == Phase(None, s)
    ensures OtherPhase(s, OtherFeedback(msgs, c), env) == Phase(None, s)
  {
    var driverFeedback := DriverFeedback(msgs, c);
    var otherFeedback := OtherFeedback(msgs, c);
    DriverFeedbackFilters(msgs, c);
    OtherFeedbackFilters(msgs, c);
    var recs := ScoredRecords(driverFeedback, GetPredictions(env.reply).scores);
    assert forall i :: 0 <= i < |recs| ==> recs[i].id == driverFeedback[i].messageId && driverFeedback[i] in msgs;
    StoreAllAbsorbsStored(s.feedback, recs, env.failingWrites);
    var recs2 := UnscoredRecords(otherFeedback);
    assert forall i :: 0 <= i < |recs2| ==> recs2[i].id == otherFeedback[i].messageId && otherFeedback[i] in msgs;
    StoreAllAbsorbsStored(s.feedback, recs2, env.failingWrites);
    if |driverFeedback| > 0 {
      DriverPhaseShape(s, driverFeedback, TuningOf(c), env);
    }
  }

  /**
   * Redelivery: processing a completed batch again, with the scoring service
   * answering and every write possible, completes and changes no document, no
   * driver and no alert.
   */
  lemma RedeliveryIsAbsorbed(s: State, raw: seq<StreamRecord>, env: Env, env2: Env)
    requires BatchFits(raw, env) && BatchFits(raw, env2)
    requires ProcessBatch(s, raw, env).0 == Done
    requires env2.config == env.config
    requires GetPredictions(env2.reply).Scores?
    requires forall i :: 0 <= i < |raw| && raw[i].value.Some? ==> raw[i].value.value.messageId !in env2.failingWrites
    ensures var s1 := ProcessBatch(s, raw, env).1;
            var (o2, s2) := ProcessBatch(s1, raw, env2);
            && o2 == Done
            && s2.feedback == s1.feedback && s2.drivers == s1.drivers && s2.alerts == s1.alerts
  {
    var s1 := ProcessBatch(s, raw, env).1;
    CompletedMessagesStored(s, raw, env, env2.failingWrites);
    StoredMessagesAbsorbed(s1, ParseAll(raw).value, env.config.value, env2);
    BatchEndsInPhase(s1, raw, env2);
  }

  /** Every batch keeps the alert log spaced by the cooldown in force. */
  lemma BatchKeepsAlertsSpaced(s: State, raw: seq<StreamRecord>, env: Env)
    requires BatchFits(raw, env)
    requires env.config.Some? && Spaced(s.alerts, env.config.value.alertCooldownS)
    ensures Spaced(ProcessBatch(s, raw, env).1.alerts, env.config.value.alertCooldownS)
  {
    var c := env.config.value;
    if ParseAll(raw).Some? {
      BatchEndsInPhase(s, raw, env);
      var msgs := ParseAll(raw).value;
      var driverFeedback := DriverFeedback(msgs, c);
      if |driverFeedback| > 0 {
        DriverPhaseShape(s, driverFeedback, TuningOf(c), env);
        if GetPredictions(env.reply).Scores? {
          var w := StoreAll(s.feedback, ScoredRecords(driverFeedback, GetPredictions(env.reply).scores),
                            env.failingWrites);
          var ratings := NewRatings(w.inserted);
          UpdateScoresSpaced(s.drivers, s.alerts, DriverIds(ratings), ratings, TuningOf(c), env.now,
                             env.failingAlerts);
        }
      }
    }
  }

  // ---------------------------------------------------------------------------
  // A batch whose second write fails

  const Ann := Driver("d1", "Ann", "555-0100", "KA-01", "active", 0.0, 0)
  const FirstRating := Message("m1", "driver", "d1", "u1", 4, "fine", "2024-01-01T00:00:00Z", "web-ui")
  const SecondRating := Message("m2", "driver", "d1", "u1", 2, "late", "2024-01-01T00:00:01Z", "web-ui")
  const TwoRatings := [StreamRecord(7, Some(FirstRating)), StreamRecord(8, Some(SecondRating))]
  const Before := State(map[], map["d1" := Ann], [], Stats(0, 0, 0, 0, 0))
  /** The first delivery: the scoring service answers, the write of `m2` fails. */
  const FirstDelivery := Env(Some(DefaultConfig()), Response(200, [4.0, 2.0]), 0, {"m2"}, {})
  /** The redelivery, later, with every write possible. */
  const SecondDelivery := Env(Some(DefaultConfig()), Response(200, [4.0, 2.0]), 1000, {}, {})

  /** The two records parse into two driver ratings and no other feedback. */
  lemma TwoRatingsParse()
    ensures ParseAll(TwoRatings) == Some([FirstRating, SecondRating])
    ensures DriverFeedback([FirstRating, SecondRating], DefaultConfig()) == [FirstRating, SecondRating]
    ensures OtherFeedback([FirstRating, SecondRating], DefaultConfig()) == []
    ensures BatchFits(TwoRatings, FirstDelivery) && BatchFits(TwoRatings, SecondDelivery)
  {
    var raw := TwoRatings;
    var c := DefaultConfig();
    DefaultFeatureGates();
    assert raw[1..] == [StreamRecord(8, Some(SecondRating))];
    assert raw[1..][1..] == [];
    assert ParseAll(raw[1..][1..]) == Some([]);
    assert [SecondRating] + [] == [SecondRating];
    assert ParseAll(raw[1..]) == Some([SecondRating]);
    assert [FirstRating] + [SecondRating] == [FirstRating, SecondRating];
    var msgs := [FirstRating, SecondRating];
    assert msgs[1..] == [SecondRating];
    assert [SecondRating][1..] == [];
    assert IsDriverFeedback(FirstRating, c) && IsDriverFeedback(SecondRating, c);
    assert !IsOtherFeedback(FirstRating, c) && !IsOtherFeedback(SecondRating, c);
    assert DriverFeedback([SecondRating], c) == [SecondRating];
    assert OtherFeedback([SecondRating], c) == [];
  }

  /** The two ratings' scored records: the combined score of 4 and 4.0 is 4.0, of 2 and 2.0 is 2.0. */
  lemma TwoRatingsRecords()
    ensures ScoredRecords([FirstRating, SecondRating], [4.0, 2.0])
            == [ScoredRecord(FirstRating, 4.0), ScoredRecord(SecondRating, 2.0)]
    ensures ScoredRecord(FirstRating, 4.0).id == "m1" && ScoredRecord(SecondRating, 2.0).id == "m2"
    ensures ScoredRecord(SecondRating, 2.0).entityId == "d1"
    ensures ScoredRecord(SecondRating, 2.0).combinedScore == Some(2.0)
  {
    var recs := ScoredRecords([FirstRating, SecondRating], [4.0, 2.0]);
    assert recs[1..] == [recs[1]];
    assert CombinedScore(4, 4.0) == 4.0 && CombinedScore(2, 2.0) == 2.0;
  }

  /** First delivery: `m1` is stored, the write of `m2` throws, no driver is touched. */
  lemma FirstDeliveryFails()
    ensures PredictionsFit(FirstDelivery.reply, 2)
    ensures DriverPhase(Before, [FirstRating, SecondRating], TuningOf(DefaultConfig()), FirstDelivery)
            == Phase(Some(WriteFailed), Before.(feedback := map["m1" := ScoredRecord(FirstRating, 4.0)]))
  {
    TwoRatingsRecords();
    var r1 := ScoredRecord(FirstRating, 4.0);
    var r2 := ScoredRecord(SecondRating, 2.0);
    assert [r1, r2][1..] == [r2];
    assert StoreAll(map["m1" := r1], [r2], {"m2"}) == Stored(map["m1" := r1], [], true);
    assert StoreAll(map[], [r1, r2], {"m2"}) == Stored(map["m1" := r1], [r1], true);
  }

  /** Redelivery: `m1` is a duplicate, `m2` is stored, and Ann's score takes the one new rating. */
  lemma SecondDeliveryCountsOne(s: State)
    requires s.feedback == map["m1" := ScoredRecord(FirstRating, 4.0)] && s.drivers == map["d1" := Ann]
    ensures PredictionsFit(SecondDelivery.reply, 2)
    ensures var p := DriverPhase(s, [FirstRating, SecondRating], TuningOf(DefaultConfig()), SecondDelivery);
            && p.error == None
            && p.state.feedback == map["m1" := ScoredRecord(FirstRating, 4.0), "m2" := ScoredRecord(SecondRating, 2.0)]
            && p.state.drivers == map["d1" := Ann.(avgScore := 2.0, totalFeedback := 1)]
  {
    TwoRatingsRecords();
    var r1 := ScoredRecord(FirstRating, 4.0);
    var r2 := ScoredRecord(SecondRating, 2.0);
    var store1 := s.feedback;
    assert [r1, r2][1..] == [r2];
    assert [r2][1..] == [];
    assert StoreAll(store1["m2" := r2], [], {}) == Stored(store1["m2" := r2], [], false);
    assert StoreAll(store1, [r2], {}) == Stored(store1["m2" := r2], [r2], false);
    assert StoreAll(store1, [r1, r2], {}) == Stored(store1["m2" := r2], [r2], false);
    var ratings := NewRatings([r2]);
    assert ratings == [NewRating("d1", 2.0)];
    assert DriverIds(ratings) == ["d1"];
    assert Group(ratings, "d1") == [2.0];
    assert [2.0][1..] == [];
    assert Ema(0.0, [2.0], 0.25) == 2.0;
    assert UpdatedDriver(Ann, [2.0], 0.25) == Ann.(avgScore := 2.0, totalFeedback := 1);
    var t := TuningOf(DefaultConfig());
    assert t.alpha == 0.25;
    var step := DriverStep(s.drivers, s.alerts, "d1", [2.0], t, 1000, false);
    assert step.drivers == map["d1" := Ann.(avgScore := 2.0, totalFeedback := 1)];
    assert ["d1"][1..] == [];
    assert UpdateScores(s.drivers, s.alerts, ["d1"], ratings, t, 1000, {}).drivers == step.drivers;
  }

  /**
   * Where idempotent redelivery stops protecting the score: a batch of two
   * ratings for one driver whose second write fails stores the first record
   * and throws before the driver is updated; the redelivered batch skips that
   * record as a duplicate, so the driver ends with one rating counted although
   * two are stored, and the offset is then resolved.
   */
  lemma PartialFailureLosesRating()
    ensures BatchFits(TwoRatings, FirstDelivery) && BatchFits(TwoRatings, SecondDelivery)
    ensures var (o1, s1) := ProcessBatch(Before, TwoRatings, FirstDelivery);
            var (o2, s2) := ProcessBatch(s1, TwoRatings, SecondDelivery);
            && o1 == Failed(WriteFailed) && "m1" in s1.feedback && s1.drivers == Before.drivers
            && o2 == Done && "m1" in s2.feedback && "m2" in s2.feedback
            && s2.drivers["d1"].totalFeedback == 1 && s2.drivers["d1"].avgScore == 2.0
            && ResolvedOffset(TwoRatings, o2) == Some(8)
  {
    TwoRatingsParse();
    FirstDeliveryFails();
    BatchEndsInPhase(Before, TwoRatings, FirstDelivery);
    var s1 := ProcessBatch(Before, TwoRatings, FirstDelivery).1;
    SecondDeliveryCountsOne(s1);
    BatchEndsInPhase(s1, TwoRatings, SecondDelivery);
  }
}
