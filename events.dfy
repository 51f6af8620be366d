/**
 * The stream payload: the flat message that `POST /feedback` publishes and the
 * consumer parses (api-server/src/routes/feedback.js, consumer/src/consumer.js).
 */
module Events {

  /** A feedback event; `timestamp` is the ISO-8601 text of the submission time. */
  datatype Message = Message(
    messageId: string,
    entityType: string,
    entityId: string,
    userId: string,
    rating: int,
    text: string,
    timestamp: string,
    source: string)
}
