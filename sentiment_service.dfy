/**
 * The consumer's client of the scoring service and its fixed-constant label
 * (consumer/src/sentimentService.js).
 */
module SentimentService {
  import opened FeedbackModel

  /** The order of the labels, from worst to best. */
  function Rank(l: Label): nat {
    match l
    case Negative => 0
    case Neutral => 1
    case Positive => 2
  }

  /** `getSentimentLabel`: boundaries at the constants 3.5 and 2.5. */
  function FixedLabel(score: real): (l: Label)
    ensures l == Positive <==> score >= 3.5
    ensures l == Neutral <==> 2.5 <= score < 3.5
    ensures l == Negative <==> score < 2.5
  {
    if score >= 3.5 then Positive
    else if score >= 2.5 then Neutral
    else Negative
  }

  /** A higher score never gets a worse label. */
  lemma FixedLabelMonotone(x: real, y: real)
    requires x <= y
    ensures Rank(FixedLabel(x)) <= Rank(FixedLabel(y))
  {
  }

  /** What the HTTP call to `/predict_batch` yields: no answer, or a status and `scores`. */
  datatype HttpReply = Unreachable | Response(status: int, scores: seq<real>)

  /** What `getPredictions` gives its caller: the scores, or a thrown error. */
  datatype Predictions = Scores(scores: seq<real>) | PredictionError

  /**
   * `getPredictions`: axios rejects a missing reply and any status outside
   * 200..299; otherwise the reply's `scores` list is returned whole.
   */
  function GetPredictions(reply: HttpReply): (p: Predictions)
    ensures p.Scores? <==> reply.Response? && 200 <= reply.status < 300
    ensures p.Scores? ==> p.scores == reply.scores
  {
    match reply
    case Unreachable => PredictionError
    case Response(status, scores) =>
      if 200 <= status < 300 then Scores(scores) else PredictionError
  }
}
