/**
 * `POST /` of api-server/src/routes/feedback.js: validate the body, gate on the
 * configuration's feature flag, and publish one message to the stream.
 */
module FeedbackRoute {
  import opened Wrappers
  import opened Text
  import opened ConfigModel
  import opened FeedbackModel
  import opened Events

  /** The request body; `rating` is the JSON number as sent. */
  datatype SubmitBody = SubmitBody(entityType: string, entityId: string, rating: real, text: string)

  /** `isInt({ min: 1, max: 5 })`. */
  predicate IsRating(r: real) {
    r.Floor as real == r && 1.0 <= r <= 5.0
  }

  /** The validation chain; `trim()` sanitises before `notEmpty` and `isLength` look. */
  predicate ValidBody(b: SubmitBody) {
    && b.entityType in EntityTypes
    && Trim(b.entityId) != ""
    && IsRating(b.rating)
    && 1 <= |Trim(b.text)| <= 500
  }

  /** The HTTP answer. */
  datatype Response =
    | BadRequest                          // 400, the validation errors
    | ConfigNotFound                      // 500 'Configuration not found'
    | FeatureDisabled(entityType: string) // 403 '<entity_type> feedback is currently disabled'
    | SubmitFailed                        // 500 'Failed to submit feedback'
    | Created(messageId: string, entityType: string, entityId: string) // 201

  /** A message handed to `sendMessage`, with its partition key. */
  datatype Publication = Publication(key: string, message: Message)

  datatype Submission = Submission(response: Response, published: Option<Publication>)

  /**
   * The handler. `messageId` is the fresh `uuidv4()`, `userId` the authenticated
   * employee, `now` the ISO text of the current time and `sendFails` whether the
   * producer's send throws. The sanitised (trimmed) id and text are what is sent.
   */
  function Submit(body: SubmitBody, config: Option<Config>, userId: string, messageId: string,
                  now: string, sendFails: bool): (s: Submission)
    ensures s.response.BadRequest? <==> !ValidBody(body)
    ensures s.response.ConfigNotFound? <==> ValidBody(body) && config.None?
    ensures s.response.FeatureDisabled? <==>
              ValidBody(body) && config.Some? && !Enabled(config.value, body.entityType)
    ensures s.response.FeatureDisabled? ==> s.response.entityType == body.entityType
    ensures s.response.SubmitFailed? <==>
              ValidBody(body) && config.Some? && Enabled(config.value, body.entityType) && sendFails
    ensures s.published.Some? <==> s.response.Created?
    ensures s.response.Created? ==>
              s.response == Created(messageId, body.entityType, Trim(body.entityId))
    ensures s.published.Some? ==>
              s.published.value.key == Trim(body.entityId)
              && s.published.value.message ==
                 Message(messageId, body.entityType, Trim(body.entityId), userId,
                         body.rating.Floor, Trim(body.text), now, "web-ui")
  {
    if !ValidBody(body) then Submission(BadRequest, None)
    else if config.None? then Submission(ConfigNotFound, None)
    else if !Enabled(config.value, body.entityType) then
      Submission(FeatureDisabled(body.entityType), None)
    else
      var entityId := Trim(body.entityId);
      var message := Message(messageId, body.entityType, entityId, userId,
                             body.rating.Floor, Trim(body.text), now, "web-ui");
      if sendFails then Submission(SubmitFailed, None)
      else Submission(Created(messageId, body.entityType, entityId), Some(Publication(entityId, message)))
  }

  /** What every published message satisfies, whatever the request was. */
  predicate WellFormedMessage(m: Message) {
    && m.messageId != ""
    && m.entityType in EntityTypes
    && m.entityId != ""
    && m.userId != ""
    && 1 <= m.rating <= 5
    && m.text != "" && |m.text| <= 500
    && m.timestamp != ""
  }

  /** Only validated, enabled feedback reaches the stream, and it is well formed. */
  lemma PublishedIsWellFormed(body: SubmitBody, config: Option<Config>, userId: string,
                              messageId: string, now: string, sendFails: bool)
    requires userId != "" && messageId != "" && now != ""
    requires Submit(body, config, userId, messageId, now, sendFails).published.Some?
    ensures var m := Submit(body, config, userId, messageId, now, sendFails).published.value.message;
            WellFormedMessage(m) && m.source == "web-ui"
    ensures config.Some? && Enabled(config.value, body.entityType)
  {
  }
}
