/** The feedback record and its field constraints (api-server/src/models/Feedback.js). */
module FeedbackModel {
  import opened Wrappers

  /** The three sentiment labels; `null` is `None` of an `Option<Label>`. */
  datatype Label = Positive | Neutral | Negative

  /** The values the `entity_type` enum admits. */
  const EntityTypes: set<string> := {"driver", "trip", "app", "marshal"}

  /** A stored feedback document; `id` is `_id`, the message id. */
  datatype FeedbackRecord = FeedbackRecord(
    id: string,
    entityType: string,
    entityId: string,
    userId: string,
    rating: int,
    text: string,
    predictedScore: Option<real>,
    combinedScore: Option<real>,
    sentiment: Option<Label>,
    timestamp: string)

  /** A nullable score field: `null`, or a number in [1, 5]. */
  predicate NullOrScore(x: Option<real>) {
    x.None? || 1.0 <= x.value <= 5.0
  }

  /**
   * The schema's validators: required strings are non-empty (Mongoose's
   * `required` rejects ''), `entity_type` is in the enum, `rating` is in [1, 5],
   * `text` has at most 500 characters and the two scores are null or in [1, 5].
   */
  predicate ValidFeedback(r: FeedbackRecord) {
    && r.id != ""
    && r.entityType in EntityTypes
    && r.entityId != ""
    && r.userId != ""
    && 1 <= r.rating <= 5
    && r.text != "" && |r.text| <= 500
    && NullOrScore(r.predictedScore)
    && NullOrScore(r.combinedScore)
    && r.timestamp != ""
  }

  /** Every record in a collection keyed by `_id` is valid and stored under its own id. */
  predicate ValidStore(store: map<string, FeedbackRecord>) {
    forall id :: id in store ==> store[id].id == id && ValidFeedback(store[id])
  }
}
