/**
 * The scoring service model-server/main.py: VADER's compound value, taken as a
 * given function of the text with values in [-1, 1], is mapped onto the 1..5
 * rating scale.
 */
module ModelServer {
  import opened Numeric
  import opened Text

  /** `((compound + 1) / 2) * 4 + 1`: [-1, 1] onto [1, 5]. */
  function Normalize(compound: real): real {
    ((compound + 1.0) / 2.0) * 4.0 + 1.0
  }

  /** The ends and the midpoint of the compound scale land on 1, 3 and 5. */
  lemma NormalizeLandmarks()
    ensures Normalize(-1.0) == 1.0 && Normalize(0.0) == 3.0 && Normalize(1.0) == 5.0
  {
  }

  /** `predict_score`: 3.0 for empty or whitespace-only text, else the rounded normalised compound. */
  function PredictScore(text: string, compound: real): (r: real)
    requires -1.0 <= compound <= 1.0
    ensures 1.0 <= r <= 5.0 && IsHundredth(r)
    ensures IsBlank(text) ==> r == 3.0
    ensures !IsBlank(text) ==> Normalize(compound) - 0.005 < r <= Normalize(compound) + 0.005
  {
    if IsBlank(text) then
      assert IsHundredth(3.0);
      3.0
    else
      assert IsHundredth(1.0) && IsHundredth(5.0);
      Round2Within(Normalize(compound), 1.0, 5.0);
      Round2(Normalize(compound))
  }

  /** For a non-blank text a more positive compound never lowers the score. */
  lemma PredictScoreMonotone(text: string, c1: real, c2: real)
    requires -1.0 <= c1 <= c2 <= 1.0
    ensures PredictScore(text, c1) <= PredictScore(text, c2)
  {
    if !IsBlank(text) {
      Round2Monotone(Normalize(c1), Normalize(c2));
    }
  }

  /** The answer of `POST /predict_batch`. */
  datatype BatchReply = Ok(scores: seq<real>) | HttpError(status: int, detail: string)

  /**
   * `predict_batch`: one score per text, in order. The 400 raised for an empty
   * list is caught by the handler's own `except Exception` and re-raised as 500.
   */
  function PredictBatch(texts: seq<string>, vader: string -> real): (r: BatchReply)
    requires forall t :: -1.0 <= vader(t) <= 1.0
    ensures r.HttpError? <==> texts == []
    ensures r.HttpError? ==> r.status == 500
    ensures r.Ok? ==> |r.scores| == |texts|
    ensures r.Ok? ==> forall i :: 0 <= i < |texts| ==> r.scores[i] == PredictScore(texts[i], vader(texts[i]))
    ensures r.Ok? ==> forall i :: 0 <= i < |texts| ==> 1.0 <= r.scores[i] <= 5.0
  {
    if texts == [] then
      HttpError(500, "Prediction failed: 400: texts array cannot be empty")
    else
      Ok(seq(|texts|, i requires 0 <= i < |texts| => PredictScore(texts[i], vader(texts[i]))))
  }
}
