/**
 * Properties of the consumer pipeline (consumer/src/consumer.js), stated on
 * the functions of `ConsumerSpec` that `ConsumerPipeline.Consumer` is proved
 * to follow.
 */
module ConsumerLemmas {
  import opened Wrappers
  import opened Sequences
  import opened Numeric
  import opened ConfigModel
  import opened Events
  import opened FeedbackModel
  import opened DriverModel
  import opened AlertModel
  import opened SentimentService
  import opened ConsumerSpec

  // ---------------------------------------------------------------------------
  // Classification

  /**
   * The two filters split a batch: every message goes to exactly one of them,
   * and only driver messages are sent for scoring.
   */
  lemma {:induction false} ClassificationPartition(msgs: seq<Message>, c: Config)
    ensures |DriverFeedback(msgs, c)| + |OtherFeedback(msgs, c)| == |msgs|
    ensures forall m :: m in msgs ==> (m in DriverFeedback(msgs, c) <==> m !in OtherFeedback(msgs, c))
    ensures forall m :: m in DriverFeedback(msgs, c) ==> m.entityType == "driver"
  {
    DriverFeedbackFilters(msgs, c);
    OtherFeedbackFilters(msgs, c);
    if msgs != [] {
      ClassificationPartition(msgs[1..], c);
    }
  }

  /** Filtering a concatenation for driver feedback filters each part, in order. */
  lemma {:induction false} DriverFeedbackAppend(xs: seq<Message>, ys: seq<Message>, c: Config)
    decreases |xs|
    ensures DriverFeedback(xs + ys, c) == DriverFeedback(xs, c) + DriverFeedback(ys, c)
  {
    if xs == [] {
      assert xs + ys == ys;
    } else {
      var zs := xs + ys;
      assert zs[0] == xs[0] && zs[1..] == xs[1..] + ys;
      DriverFeedbackAppend(xs[1..], ys, c);
      var h := if IsDriverFeedback(xs[0], c) then [xs[0]] else [];
      assert DriverFeedback(zs, c) == h + (DriverFeedback(xs[1..], c) + DriverFeedback(ys, c));
      assert DriverFeedback(xs, c) == h + DriverFeedback(xs[1..], c);
    }
  }

  /** Filtering a concatenation for other feedback filters each part, in order. */
  lemma {:induction false} OtherFeedbackAppend(xs: seq<Message>, ys: seq<Message>, c: Config)
    decreases |xs|
    ensures OtherFeedback(xs + ys, c) == OtherFeedback(xs, c) + OtherFeedback(ys, c)
  {
    if xs == [] {
      assert xs + ys == ys;
    } else {
      var zs := xs + ys;
      assert zs[0] == xs[0] && zs[1..] == xs[1..] + ys;
      OtherFeedbackAppend(xs[1..], ys, c);
      var h := if IsOtherFeedback(xs[0], c) then [xs[0]] else [];
      assert OtherFeedback(zs, c) == h + (OtherFeedback(xs[1..], c) + OtherFeedback(ys, c));
      assert OtherFeedback(xs, c) == h + OtherFeedback(xs[1..], c);
    }
  }


  // ---------------------------------------------------------------------------
  // Running score

  /** Folding two runs of ratings one after the other is folding their concatenation. */
  lemma {:induction false} EmaAppend(avg: real, xs: seq<real>, ys: seq<real>, alpha: real)
    decreases |xs|
    ensures Ema(avg, xs + ys, alpha) == Ema(Ema(avg, xs, alpha), ys, alpha)
  {
    if xs == [] {
      assert xs + ys == ys;
    } else {
      assert (xs + ys)[1..] == xs[1..] + ys;
      EmaAppend(EmaStep(avg, xs[0], alpha), xs[1..], ys, alpha);
    }
  }

  /**
   * From 0 with alpha 0.25, the ratings 4.0, 2.0, 3.0 give the running values
   * 4.0, 3.5 and 3.375, stored as 3.38.
   */
  lemma EmaExample()
    ensures Ema(0.0, [4.0], 0.25) == 4.0
    ensures Ema(0.0, [4.0, 2.0], 0.25) == 3.5
    ensures Ema(0.0, [4.0, 2.0, 3.0], 0.25) == 3.375
    ensures Round2(Ema(0.0, [4.0, 2.0, 3.0], 0.25)) == 3.38
  {
    assert [4.0, 2.0, 3.0][1..] == [2.0, 3.0];
    assert [2.0, 3.0][1..] == [3.0];
    assert [4.0, 2.0][1..] == [2.0];
    assert [4.0][1..] == [];
    assert [2.0][1..] == [];
    assert [3.0][1..] == [];
  }

  /** The fold depends on the order of the ratings, not only on their multiset. */
  lemma EmaOrderMatters()
    ensures Ema(0.0, [4.0, 2.0], 0.25) == 3.5
    ensures Ema(0.0, [2.0, 4.0], 0.25) == 2.5
  {
    assert [4.0, 2.0][1..] == [2.0];
    assert [2.0, 4.0][1..] == [4.0];
    assert [4.0][1..] == [];
    assert [2.0][1..] == [];
  }

  /** One blend of two values in [lo, hi] stays in [lo, hi]. */
  lemma BlendWithin(avg: real, rating: real, alpha: real, lo: real, hi: real)
    requires 0.0 <= alpha <= 1.0
    requires lo <= avg <= hi && lo <= rating <= hi
    ensures lo <= CalculateEma(avg, rating, alpha) <= hi
  {
    var beta := 1.0 - alpha;
    ProductNonNegative(alpha, rating - lo);
    ProductNonNegative(beta, avg - lo);
    ProductNonNegative(alpha, hi - rating);
    ProductNonNegative(beta, hi - avg);
    assert CalculateEma(avg, rating, alpha) - lo == alpha * (rating - lo) + beta * (avg - lo);
    assert hi - CalculateEma(avg, rating, alpha) == alpha * (hi - rating) + beta * (hi - avg);
  }

  lemma ProductNonNegative(x: real, y: real)
    requires x >= 0.0 && y >= 0.0
    ensures x * y >= 0.0
  {
  }

  /**
   * With alpha in [0, 1] and every rating in [lo, hi], the running value stays
   * in [lo, hi]; a running value of 0 outside the range is replaced by the
   * first rating.
   */
  lemma {:induction false} EmaWithin(avg: real, ratings: seq<real>, alpha: real, lo: real, hi: real)
    requires 0.0 <= alpha <= 1.0
    requires lo <= avg <= hi || avg == 0.0
    requires forall i :: 0 <= i < |ratings| ==> lo <= ratings[i] <= hi
    decreases |ratings|
    ensures lo <= avg <= hi || ratings != [] ==> lo <= Ema(avg, ratings, alpha) <= hi
  {
    if ratings != [] {
      if avg != 0.0 {
        BlendWithin(avg, ratings[0], alpha, lo, hi);
      }
      EmaWithin(EmaStep(avg, ratings[0], alpha), ratings[1..], alpha, lo, hi);
    }
  }

  /** A combined score of a star rating and a prediction in [1, 5] is in [1, 5]. */
  lemma CombinedScoreWithin(rating: int, prediction: real)
    requires 1 <= rating <= 5 && 1.0 <= prediction <= 5.0
    ensures 1.0 <= CombinedScore(rating, prediction) <= 5.0
    ensures IsHundredth(CombinedScore(rating, prediction))
  {
    Round2Within((rating as real + prediction) / 2.0, 1.0, 5.0);
  }

  /** A valid driver stays valid after a batch of ratings in [0, 5] with alpha in [0, 1]. */
  lemma UpdatedDriverValid(dr: Driver, ratings: seq<real>, alpha: real)
    requires ValidDriver(dr)
    requires 0.0 <= alpha <= 1.0
    requires forall i :: 0 <= i < |ratings| ==> 0.0 <= ratings[i] <= 5.0
    ensures ValidDriver(UpdatedDriver(dr, ratings, alpha))
    ensures UpdatedDriver(dr, ratings, alpha).totalFeedback == dr.totalFeedback + |ratings|
  {
    EmaWithin(dr.avgScore, ratings, alpha, 0.0, 5.0);
    Round2Within(Ema(dr.avgScore, ratings, alpha), 0.0, 5.0);
  }

  /**
   * The score is rounded at the end of every batch, so where a batch boundary
   * falls can change the stored average: a driver at 4.01 given 1.0, 1.0 and
   * 3.5 in one batch ends at 2.89, but at 2.9 when the first rating comes in a
   * batch of its own (the intermediate 3.2575 is stored as 3.26).
   */
  lemma BatchBoundaryChangesScore(dr: Driver)
    requires dr.avgScore == 4.01
    ensures UpdatedDriver(dr, [1.0, 1.0, 3.5], 0.25).avgScore == 2.89
    ensures UpdatedDriver(UpdatedDriver(dr, [1.0], 0.25), [1.0, 3.5], 0.25).avgScore == 2.9
  {
    assert [1.0, 1.0, 3.5][1..] == [1.0, 3.5];
    assert [1.0, 3.5][1..] == [3.5];
    assert [3.5][1..] == [];
    assert [1.0][1..] == [];
    assert Ema(4.01, [1.0, 1.0, 3.5], 0.25) == 2.89484375;
    assert Ema(4.01, [1.0], 0.25) == 3.2575;
    assert Round2(3.2575) == 3.26;
    assert Ema(3.26, [1.0, 3.5], 0.25) == 2.89625;
  }

  // ---------------------------------------------------------------------------
  // Idempotent store

  /** Re-writing records whose ids are all stored, none failing, inserts nothing. */
  lemma {:induction false} StoreAllAbsorbsStored(store: map<string, FeedbackRecord>, recs: seq<FeedbackRecord>,
                                                 failing: set<string>)
    requires forall i :: 0 <= i < |recs| ==> recs[i].id in store && recs[i].id !in failing
    decreases |recs|
    ensures StoreAll(store, recs, failing) == Stored(store, [], false)
  {
    if recs != [] {
      assert forall i :: 0 <= i < |recs[1..]| ==> recs[1..][i] == recs[i + 1];
      StoreAllAbsorbsStored(store, recs[1..], failing);
    }
  }

  /** After a scored write loop that did not throw, every driver message's id is stored. */
  lemma ScoredIdsStored(store: map<string, FeedbackRecord>, msgs: seq<Message>, predictions: seq<real>,
                        failing: set<string>)
    requires |predictions| == |msgs|
    requires !StoreAll(store, ScoredRecords(msgs, predictions), failing).failed
    ensures forall m :: m in msgs ==>
              m.messageId in StoreAll(store, ScoredRecords(msgs, predictions), failing).store
  {
    var recs := ScoredRecords(msgs, predictions);
    StoreAllCompletes(store, recs, failing);
    forall m | m in msgs
      ensures m.messageId in StoreAll(store, recs, failing).store
    {
      var k :| 0 <= k < |msgs| && msgs[k] == m;
      assert recs[k].id == m.messageId;
    }
  }

  /** After an unscored write loop that did not throw, every message's id is stored. */
  lemma UnscoredIdsStored(store: map<string, FeedbackRecord>, msgs: seq<Message>, failing: set<string>)
    requires !StoreAll(store, UnscoredRecords(msgs), failing).failed
    ensures forall m :: m in msgs ==> m.messageId in StoreAll(store, UnscoredRecords(msgs), failing).store
  {
    var recs := UnscoredRecords(msgs);
    StoreAllCompletes(store, recs, failing);
    forall m | m in msgs
      ensures m.messageId in StoreAll(store, recs, failing).store
    {
      var k :| 0 <= k < |msgs| && msgs[k] == m;
      assert recs[k].id == m.messageId;
    }
  }

  // ---------------------------------------------------------------------------
  // Score update

  /** One driver's turn replaces that driver's record by its updated record and changes no other driver. */
  lemma DriverStepEffect(drivers: map<string, Driver>, alerts: seq<Alert>, d: string, group: seq<real>,
                         t: Tuning, now: int, faulty: bool)
    ensures var a := DriverStep(drivers, alerts, d, group, t, now, faulty);
            forall x :: x in drivers ==>
              a.drivers[x] == if x == d then UpdatedDriver(drivers[x], group, t.alpha) else drivers[x]
  {
  }

  /**
   * With each driver listed once, a listed driver ends as its old record
   * updated with its whole group, in batch order; every other driver is untouched.
   */
  lemma {:induction false} UpdateScoresEffect(drivers: map<string, Driver>, alerts: seq<Alert>, ids: seq<string>,
                                              ratings: seq<NewRating>, t: Tuning, now: int,
                                              failingAlerts: set<string>)
    requires Distinct(ids)
    decreases |ids|
    ensures var a := UpdateScores(drivers, alerts, ids, ratings, t, now, failingAlerts);
            forall d :: d in drivers ==>
              a.drivers[d] == if d in ids then UpdatedDriver(drivers[d], Group(ratings, d), t.alpha) else drivers[d]
  {
    if ids != [] {
      var d0 := ids[0];
      var step := DriverStep(drivers, alerts, d0, Group(ratings, d0), t, now, d0 in failingAlerts);
      assert Distinct(ids[1..]);
      UpdateScoresEffect(step.drivers, step.alerts, ids[1..], ratings, t, now, failingAlerts);
      assert d0 !in ids[1..];
      assert forall d :: d in ids <==> d == d0 || d in ids[1..];
    }
  }

  /** The total size of the groups of the listed drivers. */
  function GroupSizes(ratings: seq<NewRating>, ids: seq<string>): nat {
    if ids == [] then 0 else |Group(ratings, ids[0])| + GroupSizes(ratings, ids[1..])
  }

  lemma {:induction false} GroupSizesAppend(ratings: seq<NewRating>, ids: seq<string>, d: string)
    ensures GroupSizes(ratings, ids + [d]) == GroupSizes(ratings, ids) + |Group(ratings, d)|
  {
    if ids != [] {
      assert (ids + [d])[1..] == ids[1..] + [d];
      GroupSizesAppend(ratings, ids[1..], d);
    }
  }

  /** Adding a rating to the batch adds one to the group sizes of a list that names its driver once. */
  lemma {:induction false} GroupSizesLast(ratings: seq<NewRating>, ids: seq<string>)
    requires ratings != [] && Distinct(ids)
    ensures var d := ratings[|ratings| - 1].driverId;
            GroupSizes(ratings, ids) == GroupSizes(ratings[..|ratings| - 1], ids) + (if d in ids then 1 else 0)
  {
    if ids != [] {
      assert Distinct(ids[1..]);
      assert ids[0] !in ids[1..];
      GroupSizesLast(ratings, ids[1..]);
    }
  }

  /**
   * `Object.keys(driverGroups)` lists each driver with a rating once and no
   * other, and its groups together hold every rating of the batch.
   */
  lemma {:induction false} GroupsCoverRatings(ratings: seq<NewRating>)
    ensures Distinct(DriverIds(ratings))
    ensures forall d :: d in DriverIds(ratings) <==> |Group(ratings, d)| > 0
    ensures GroupSizes(ratings, DriverIds(ratings)) == |ratings|
  {
    DriverIdsFacts(ratings);
    if ratings != [] {
      var p := ratings[..|ratings| - 1];
      var d := ratings[|ratings| - 1].driverId;
      var ids0 := DriverIds(p);
      GroupsCoverRatings(p);
      if d in ids0 {
        GroupSizesLast(ratings, ids0);
      } else {
        GroupSizesLast(ratings, ids0);
        GroupSizesAppend(ratings, ids0, d);
        assert Group(p, d) == [];
      }
    }
  }

  // ---------------------------------------------------------------------------
  // Alert cooldown

  /** Any two alerts of one driver are more than the cooldown apart. */
  predicate Spaced(alerts: seq<Alert>, cooldownS: int) {
    forall i, j :: 0 <= i < j < |alerts| && alerts[i].driverId == alerts[j].driverId ==>
      alerts[j].lastAlertAt - alerts[i].lastAlertAt > cooldownS * 1000
  }

  /** One driver's update keeps the alert log spaced. */
  lemma DriverStepSpaced(drivers: map<string, Driver>, alerts: seq<Alert>, d: string, group: seq<real>,
                         t: Tuning, now: int, faulty: bool)
    requires Spaced(alerts, t.cooldownS)
    ensures Spaced(DriverStep(drivers, alerts, d, group, t, now, faulty).alerts, t.cooldownS)
  {
    var a := DriverStep(drivers, alerts, d, group, t, now, faulty);
    if |a.alerts| > |alerts| {
      var n := |alerts|;
      assert a.alerts == alerts + [a.alerts[n]];
      forall i | 0 <= i < n && alerts[i].driverId == a.alerts[n].driverId
        ensures a.alerts[n].lastAlertAt - alerts[i].lastAlertAt > t.cooldownS * 1000
      {
      }
    }
  }

  /** The loop over drivers keeps the alert log spaced. */
  lemma {:induction false} UpdateScoresSpaced(drivers: map<string, Driver>, alerts: seq<Alert>, ids: seq<string>,
                                              ratings: seq<NewRating>, t: Tuning, now: int,
                                              failingAlerts: set<string>)
    requires Spaced(alerts, t.cooldownS)
    decreases |ids|
    ensures Spaced(UpdateScores(drivers, alerts, ids, ratings, t, now, failingAlerts).alerts, t.cooldownS)
  {
    if ids != [] {
      var d0 := ids[0];
      DriverStepSpaced(drivers, alerts, d0, Group(ratings, d0), t, now, d0 in failingAlerts);
      var step := DriverStep(drivers, alerts, d0, Group(ratings, d0), t, now, d0 in failingAlerts);
      UpdateScoresSpaced(step.drivers, step.alerts, ids[1..], ratings, t, now, failingAlerts);
    }
  }

  /**
   * The alerts of `a` from index `from` on are for listed, known drivers whose
   * check did not fail; each carries that driver's new average, which is below
   * the threshold, the threshold itself, and `now` as both timestamps.
   */
  predicate LowScoreAlerts(a: Aggregate, from: nat, ids: seq<string>, drivers: map<string, Driver>,
                           t: Tuning, now: int, failingAlerts: set<string>)
  {
    forall k :: from <= k < |a.alerts| ==> LowScoreAlert(a.alerts[k], ids, drivers, a.drivers, t, now, failingAlerts)
  }

  /** One alert of a listed, known driver, carrying its new average (below the threshold) and `now`. */
  predicate LowScoreAlert(x: Alert, ids: seq<string>, drivers: map<string, Driver>, updated: map<string, Driver>,
                          t: Tuning, now: int, failingAlerts: set<string>)
  {
    && x.driverId in ids && x.driverId in drivers && x.driverId in updated
    && x.driverId !in failingAlerts
    && x.avgScore == updated[x.driverId].avgScore
    && x.avgScore < t.threshold && x.threshold == t.threshold
    && x.lastAlertAt == now && x.createdAt == now
  }

  /** Every alert a batch appends is a low-score alert of a driver it updated. */
  lemma {:induction false} NewAlertsAreLowScores(drivers: map<string, Driver>, alerts: seq<Alert>,
                                                 ids: seq<string>, ratings: seq<NewRating>, t: Tuning,
                                                 now: int, failingAlerts: set<string>)
    requires Distinct(ids)
    decreases |ids|
    ensures LowScoreAlerts(UpdateScores(drivers, alerts, ids, ratings, t, now, failingAlerts), |alerts|,
                           ids, drivers, t, now, failingAlerts)
  {
    if ids != [] {
      var d0 := ids[0];
      var step := DriverStep(drivers, alerts, d0, Group(ratings, d0), t, now, d0 in failingAlerts);
      assert Distinct(ids[1..]);
      NewAlertsAreLowScores(step.drivers, step.alerts, ids[1..], ratings, t, now, failingAlerts);
      UpdateScoresEffect(step.drivers, step.alerts, ids[1..], ratings, t, now, failingAlerts);
      var a := UpdateScores(drivers, alerts, ids, ratings, t, now, failingAlerts);
      var r := UpdateScores(step.drivers, step.alerts, ids[1..], ratings, t, now, failingAlerts);
      assert a.alerts == r.alerts && a.drivers == r.drivers;
      assert d0 !in ids[1..];
      forall k | |alerts| <= k < |a.alerts|
        ensures LowScoreAlert(a.alerts[k], ids, drivers, a.drivers, t, now, failingAlerts)
      {
        if k < |step.alerts| {
          assert d0 in drivers;
          var dr := UpdatedDriver(drivers[d0], Group(ratings, d0), t.alpha);
          assert AlertGate(alerts, d0, dr.avgScore, t.threshold, t.cooldownS, now, d0 in failingAlerts);
          assert step.alerts == alerts + [ConsumerAlert(d0, dr.avgScore, t.threshold, now)];
          assert k == |alerts|;
          assert step.alerts[k] == ConsumerAlert(d0, dr.avgScore, t.threshold, now);
          assert r.alerts[..|step.alerts|] == step.alerts;
          assert r.alerts[k] == r.alerts[..|step.alerts|][k];
          assert a.drivers[d0] == step.drivers[d0] == dr;
        } else {
          var x := r.alerts[k];
          assert LowScoreAlert(x, ids[1..], step.drivers, r.drivers, t, now, failingAlerts);
          assert x.driverId in ids;
        }
      }
    }
  }


  /**
   * The cooldown example at threshold 2.5 and 3600 s: an average of 2.0 at
   * t = 0 alerts; 1.5 at t = 1800 s does not; at exactly 3600 s it still
   * does not; 1.8 at t = 3601 s alerts again.
   */
  lemma CooldownExample(d: string)
    ensures AlertGate([], d, 2.0, 2.5, 3600, 0, false)
    ensures !AlertGate([ConsumerAlert(d, 2.0, 2.5, 0)], d, 1.5, 2.5, 3600, 1800000, false)
    ensures !AlertGate([ConsumerAlert(d, 2.0, 2.5, 0)], d, 1.5, 2.5, 3600, 3600000, false)
    ensures AlertGate([ConsumerAlert(d, 2.0, 2.5, 0)], d, 1.8, 2.5, 3600, 3601000, false)
  {
    assert [ConsumerAlert(d, 2.0, 2.5, 0)][0].lastAlertAt == 0;
  }

  /** At or above the threshold no alert is written, whatever the history. */
  lemma NoAlertAtOrAboveThreshold(drivers: map<string, Driver>, alerts: seq<Alert>, d: string,
                                  group: seq<real>, t: Tuning, now: int, faulty: bool)
    requires d in drivers
    requires UpdatedDriver(drivers[d], group, t.alpha).avgScore >= t.threshold
    ensures DriverStep(drivers, alerts, d, group, t, now, faulty).alerts == alerts
  {
  }
}
