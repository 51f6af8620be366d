/**
 * The relabelling script consumer/src/scripts/update-sentiments.js: recompute
 * every scored driver record's label from its combined score and the
 * configured threshold.
 */
module UpdateSentiments {
  import opened Wrappers
  import opened Sequences
  import opened ConfigModel
  import opened FeedbackModel
  import opened SentimentService

  /** `getSentimentLabel(score, threshold)`: boundaries at `threshold` and `threshold + 1`. */
  function ThresholdLabel(score: real, threshold: real): (l: Label)
    ensures l == Positive <==> score >= threshold + 1.0
    ensures l == Neutral <==> threshold <= score < threshold + 1.0
    ensures l == Negative <==> score < threshold
  {
    if score >= threshold + 1.0 then Positive
    else if score >= threshold then Neutral
    else Negative
  }

  /** The consumer's fixed label is the threshold label at the default threshold 2.5. */
  lemma FixedLabelIsDefaultThreshold(score: real)
    ensures FixedLabel(score) == ThresholdLabel(score, 2.5)
  {
  }

  /** `config.alert_threshold || 2.5`: a falsy (zero) threshold falls back to 2.5. */
  function ScriptThreshold(c: Config): (t: real)
    ensures c.alertThreshold != 0.0 ==> t == c.alertThreshold
    ensures c.alertThreshold == 0.0 ==> t == 2.5
  {
    if c.alertThreshold == 0.0 then 2.5 else c.alertThreshold
  }

  /** The query `{ combined_score: { $exists: true, $ne: null }, entity_type: 'driver' }`. */
  predicate Selected(r: FeedbackRecord) {
    r.combinedScore.Some? && r.entityType == "driver"
  }

  /** The label the script gives a selected record. */
  function NewLabel(r: FeedbackRecord, threshold: real): Label
    requires Selected(r)
  {
    ThresholdLabel(r.combinedScore.value, threshold)
  }

  /** The record needs a save: `feedback.sentiment !== newSentiment`. */
  predicate Stale(r: FeedbackRecord, threshold: real) {
    Selected(r) && r.sentiment != Some(NewLabel(r, threshold))
  }

  /** A selected record with its label recomputed. */
  function Relabel(r: FeedbackRecord, threshold: real): FeedbackRecord
    requires Selected(r)
  {
    r.(sentiment := Some(NewLabel(r, threshold)))
  }

  /** The collection after the script: every selected record relabelled, the rest as they were. */
  function Relabeled(store: map<string, FeedbackRecord>, threshold: real): (r: map<string, FeedbackRecord>)
    ensures r.Keys == store.Keys
    ensures forall id :: id in store && Selected(store[id]) ==> r[id] == Relabel(store[id], threshold)
    ensures forall id :: id in store && !Selected(store[id]) ==> r[id] == store[id]
  {
    map id | id in store ::
      if Selected(store[id]) then Relabel(store[id], threshold) else store[id]
  }

  /** How many of the listed records need a save. */
  function CountStale(store: map<string, FeedbackRecord>, ids: seq<string>, threshold: real): (n: nat)
    requires forall i :: 0 <= i < |ids| ==> ids[i] in store
    ensures n <= |ids|
  {
    if ids == [] then 0
    else CountStale(store, ids[..|ids| - 1], threshold)
         + (if Stale(store[ids[|ids| - 1]], threshold) then 1 else 0)
  }

  /** `ids` is what `Feedback.find` returned: each selected record once, in some order. */
  predicate FindResult(store: map<string, FeedbackRecord>, ids: seq<string>) {
    && Distinct(ids)
    && (forall i :: 0 <= i < |ids| ==> ids[i] in store && Selected(store[ids[i]]))
    && (forall id :: id in store && Selected(store[id]) ==> id in ids)
  }

  /** How the script ends: a missing configuration exits with status 1. */
  datatype Run = ConfigMissing | Finished(total: nat, updated: nat, kept: nat)

  /**
   * `updateSentiments`: read the threshold, then walk the found records and
   * save each one whose label changes, counting the saves in `updated`.
   */
  method RunUpdate(store: map<string, FeedbackRecord>, config: Option<Config>, found: seq<string>)
    returns (result: map<string, FeedbackRecord>, run: Run)
    requires FindResult(store, found)
    ensures config.None? ==> run == ConfigMissing && result == store
    ensures config.Some? ==> result == Relabeled(store, ScriptThreshold(config.value))
    ensures config.Some? ==> run.Finished? && run.total == |found|
    ensures config.Some? ==> run.updated == CountStale(store, found, ScriptThreshold(config.value))
    ensures run.Finished? ==> run.kept == run.total - run.updated
  {
    if config.None? {
      return store, ConfigMissing;
    }
    var threshold := ScriptThreshold(config.value);
    var updated;
    result, updated := SaveRelabeled(store, found, threshold);
    run := Finished(|found|, updated, |found| - updated);
  }

  /** After the first `i` found records: those relabelled, every other record as stored. */
  predicate RelabeledUpTo(store: map<string, FeedbackRecord>, found: seq<string>, threshold: real,
                          result: map<string, FeedbackRecord>, i: nat)
    requires FindResult(store, found) && i <= |found|
  {
    && result.Keys == store.Keys
    && (forall j :: 0 <= j < i ==> result[found[j]] == Relabel(store[found[j]], threshold))
    && (forall j :: i <= j < |found| ==> result[found[j]] == store[found[j]])
    && (forall id :: id in store && !Selected(store[id]) ==> result[id] == store[id])
  }

  /**
   * The next found record is still as stored; saving it exactly when it is
   * stale moves the boundary by one and adds one to the count exactly then.
   */
  lemma RelabelNext(store: map<string, FeedbackRecord>, found: seq<string>, threshold: real,
                    result: map<string, FeedbackRecord>, i: nat)
    requires FindResult(store, found) && i < |found|
    requires RelabeledUpTo(store, found, threshold, result, i)
    ensures found[i] in result && result[found[i]] == store[found[i]]
    ensures var next := if Stale(store[found[i]], threshold)
                        then result[found[i] := Relabel(store[found[i]], threshold)] else result;
            RelabeledUpTo(store, found, threshold, next, i + 1)
    ensures CountStale(store, found[..i + 1], threshold)
            == CountStale(store, found[..i], threshold) + if Stale(store[found[i]], threshold) then 1 else 0
  {
    assert found[..i + 1][..i] == found[..i] && found[..i + 1][i] == found[i];
    forall j | 0 <= j < |found| && j != i
      ensures found[j] != found[i]
    {
      if j < i { assert found[j] != found[i]; } else { assert found[i] != found[j]; }
    }
  }

  /** The loop of `updateSentiments`: relabel each found record, saving and counting the changed ones. */
  method SaveRelabeled(store: map<string, FeedbackRecord>, found: seq<string>, threshold: real)
    returns (result: map<string, FeedbackRecord>, updated: nat)
    requires FindResult(store, found)
    ensures result == Relabeled(store, threshold)
    ensures updated == CountStale(store, found, threshold)
  {
    result := store;
    updated := 0;
    var i := 0;
    while i < |found|
      invariant 0 <= i <= |found|
      invariant RelabeledUpTo(store, found, threshold, result, i)
      invariant updated == CountStale(store, found[..i], threshold)
    {
      RelabelNext(store, found, threshold, result, i);
      var id := found[i];
      var feedback := result[id];
      var newSentiment := NewLabel(feedback, threshold);
      if feedback.sentiment != Some(newSentiment) {
        result := result[id := feedback.(sentiment := Some(newSentiment))];
        updated := updated + 1;
      }
      i := i + 1;
    }
    assert found[..i] == found;
    RelabeledMatches(store, found, threshold, result);
  }

  lemma RelabeledMatches(store: map<string, FeedbackRecord>, found: seq<string>, threshold: real,
                         result: map<string, FeedbackRecord>)
    requires FindResult(store, found)
    requires result.Keys == store.Keys
    requires forall j :: 0 <= j < |found| ==> result[found[j]] == Relabel(store[found[j]], threshold)
    requires forall id :: id in store && !Selected(store[id]) ==> result[id] == store[id]
    ensures result == Relabeled(store, threshold)
  {
    forall id | id in store
      ensures result[id] == Relabeled(store, threshold)[id]
    {
      if Selected(store[id]) {
        var j :| 0 <= j < |found| && found[j] == id;
      }
    }
  }

  /** After one run every selected record carries the label of its combined score. */
  lemma RelabeledIsFinal(store: map<string, FeedbackRecord>, threshold: real)
    ensures forall id :: id in store ==> !Stale(Relabeled(store, threshold)[id], threshold)
  {
  }

  /** The count is zero exactly when none of the listed records needs a save. */
  lemma {:induction false} CountStaleZero(store: map<string, FeedbackRecord>, ids: seq<string>, threshold: real)
    requires forall i :: 0 <= i < |ids| ==> ids[i] in store
    ensures CountStale(store, ids, threshold) == 0
            <==> forall i :: 0 <= i < |ids| ==> !Stale(store[ids[i]], threshold)
  {
    if ids != [] {
      CountStaleZero(store, ids[..|ids| - 1], threshold);
    }
  }

  /** A second run with the same threshold saves nothing. */
  lemma SecondRunUpdatesNothing(store: map<string, FeedbackRecord>, found: seq<string>, threshold: real)
    requires FindResult(Relabeled(store, threshold), found)
    ensures CountStale(Relabeled(store, threshold), found, threshold) == 0
  {
    RelabeledIsFinal(store, threshold);
    CountStaleZero(Relabeled(store, threshold), found, threshold);
  }

  /** Relabelling a relabelled collection changes nothing. */
  lemma RelabelIdempotent(store: map<string, FeedbackRecord>, threshold: real)
    ensures Relabeled(Relabeled(store, threshold), threshold) == Relabeled(store, threshold)
  {
  }
}
