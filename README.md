# Driver Sentiment — a Dafny model of the feedback pipeline

Employees submit ratings and comments about drivers, trips, the app and
marshals. The API server validates each submission against the live
configuration and publishes it on the `feedback` stream. The consumer reads
the stream in batches:
- driver feedback is scored by the sentiment model server, stored with a
  combined score and a label, and folded into each driver's running score
  (an exponential moving average);
- the score is checked against an alert threshold with a per-driver cooldown;
- every other kind of feedback is stored unscored.

Stores are idempotent by message id, so a redelivered batch is absorbed. A
maintenance script relabels stored driver feedback against the configured
threshold. The API server also issues and rotates the employees' session
tokens.

The project models that core:

| module | file | models |
|---|---|---|
| `Wrappers`, `Sequences`, `Numeric`, `Text` | `wrappers.dfy`, `sequences.dfy`, `numeric.dfy`, `text.dfy` | `Option`, `Distinct`, two-decimal rounding (`toFixed(2)`, `round(x, 2)`), JavaScript and Python trimming |
| `ConfigModel`, `FeedbackModel`, `DriverModel`, `AlertModel` | `config_model.dfy`, `feedback_model.dfy`, `driver_model.dfy`, `alert_model.dfy` | the four Mongoose schemas: defaults, enums, required fields, bounds |
| `Events` | `events.dfy` | the stream message |
| `FeedbackRoute`, `ConfigRoutes`, `Auth` | `feedback_route.dfy`, `config_routes.dfy`, `auth.dfy` | the `feedback`, `config` and `auth` routes of the API server |
| `ModelServer`, `SentimentService` | `model_server.dfy`, `sentiment_service.dfy` | `predict_score` and `predict_batch`; the consumer's HTTP client and fixed label |
| `ConsumerSpec` | `consumer_spec.dfy` | the consumer's batch processing as functions of the state |
| `ConsumerPipeline` | `consumer_pipeline.dfy` | the consumer as a class whose methods update the stores step by step, each proved equal to `ConsumerSpec` |
| `ConsumerLemmas`, `BatchLemmas`, `EndToEnd` | `consumer_lemmas.dfy`, `batch_lemmas.dfy`, `end_to_end.dfy` | properties of the pipeline, of single batches and of the system as a whole |
| `UpdateSentiments` | `update_sentiments.dfy` | the relabelling script |

How the environment is represented:
- Collections are maps keyed by document id. The alert log is a sequence in
  insertion order. The employee collection is a sequence, so that
  `findOne` returns the first match.
- The clock is a parameter in milliseconds.
- The scoring service's HTTP reply is a parameter. So is VADER's compound
  value, a function of the text with values in [-1, 1].
- Database failures are parameters: the message ids whose insert throws
  something other than a duplicate-key error, and the drivers whose alert
  query or insert throws.
- The payload of a stream record is `None` when `JSON.parse` would throw.
- Signed tokens are opaque strings supplied by the caller, and the outcome
  of `jwt.verify` is a parameter.

Where the code and the written design disagree, the model follows the code:
- **A missing `feedback_config` document commits the batch.** `processBatch`
  returns normally, so `eachBatch` resolves the last offset and the batch is
  never retried (`BatchLemmas.MissingConfigSkipsBatch`).
- **One payload that is not JSON fails the whole batch.** It is counted as
  one error, and no offset is resolved.
- **Batch boundaries change driver scores.** The running score is rounded to
  two decimals once per batch, so the same ratings split over two batches
  can give a different score (`ConsumerLemmas.BatchBoundaryChangesScore`).
- **Redelivery does not repair a partial failure.** A batch whose second write
  fails keeps the first record but never updates the driver. On redelivery
  that record is a duplicate and its rating is never applied
  (`BatchLemmas.PartialFailureLosesRating`).
- **The relabelling script agrees with the consumer only at 2.5.** The script
  relabels with the configured `alert_threshold`, while the consumer always
  labels at 2.5 and 3.5. Records are modelled as the fields the consumer
  passes to `Feedback.create`. If `combined_score` is stored, the two agree on
  the consumer's records only when that threshold is 2.5
  (`EndToEnd.DefaultRelabelKeepsConsumerStore`). The consumer's own schema
  does not declare that field, so under Mongoose's strict mode (see
  "## Left out") the script would select none of the consumer's records.

## Model

| member | source | states |
|---|---|---|
| Numeric.Round2 | consumer/src/consumer.js:130 | the two-decimal rounding of a score is a whole number of hundredths within 0.005 of it |
| Numeric.Round2Within | consumer/src/consumer.js:209 | rounding a value between two two-decimal bounds stays between them |
| Numeric.Round2Monotone | consumer/src/consumer.js:209 | rounding preserves order |
| Numeric.Round2Exact | consumer/src/consumer.js:209 | a value that already has two decimals is not changed by rounding |
| Numeric.Round2Idempotent | consumer/src/consumer.js:209 | rounding twice is rounding once |
| Text.Trim | api-server/src/routes/feedback.js:40-42 | trimming removes leading and trailing whitespace and nothing else |
| ConfigModel.DefaultConfig | api-server/src/models/Config.js:3-45 | the default document: threshold 2.5, alpha 0.25, batch 200, timeout 10 s, cooldown 3600 s |
| ConfigModel.DefaultFeatureGates | api-server/src/models/Config.js:8-25 | by default app feedback is disabled, and only driver feedback requires sentiment |
| DriverModel.NewDriver | api-server/src/models/Driver.js:3-39 | a driver is created iff its required fields are present and its status is in the enum; status defaults to 'active', the name is trimmed, phone and vehicle number are stored as given, and score and count start at 0 |
| DriverModel.TrimIdempotent | api-server/src/models/Driver.js:10-14 | a stored (trimmed) name is a fixed point of trimming |
| AlertModel.NewAlert | api-server/src/models/Alert.js:3-22 | an alert is created iff it has a driver id; `last_alert_at` defaults to the creation time |
| FeedbackRoute.Submit | api-server/src/routes/feedback.js:38-107 | 400 iff the body fails validation; 500 iff there is no configuration; 403 iff the entity's feature is disabled; otherwise exactly one message is published, keyed by entity id, and 201 is returned |
| FeedbackRoute.PublishedIsWellFormed | api-server/src/routes/feedback.js:63-88 | every published message is well formed (non-empty ids, entity type in the enum, integer rating 1..5, trimmed text of 1..500 characters) and its feature is enabled |
| ConfigRoutes.BuildUpdate | api-server/src/routes/config.js:33-52 | exactly the fields present in the PATCH body are set; `features` only when it is truthy |
| ConfigRoutes.ApplySet | api-server/src/routes/config.js:54-58 | `$set` replaces the set fields and keeps every other field and the id |
| ConfigRoutes.EmptyPatchKeepsConfig | api-server/src/routes/config.js:33-58 | a PATCH with no fields leaves the configuration unchanged |
| ConfigRoutes.PatchIdempotent | api-server/src/routes/config.js:33-58 | applying the same PATCH twice is applying it once |
| ConfigRoutes.ConfigStore.Get | api-server/src/routes/config.js:8-20 | GET returns the stored document, or creates, stores and returns the default one |
| ConfigRoutes.ConfigStore.Patch | api-server/src/routes/config.js:31-65 | PATCH upserts: it applies the update to the stored or default document and stores the result |
| ModelServer.NormalizeLandmarks | model-server/main.py:36 | compound values −1, 0 and 1 map to 1, 3 and 5 |
| ModelServer.PredictScore | model-server/main.py:29-38 | 3.0 for empty or whitespace-only text; otherwise the normalised compound rounded to two decimals; always within [1, 5] |
| ModelServer.PredictScoreMonotone | model-server/main.py:33-38 | a more positive compound never lowers the score |
| ModelServer.PredictBatch | model-server/main.py:55-66 | an empty list is a 500; otherwise one score per text, in order, each the text's score |
| SentimentService.FixedLabel | consumer/src/sentimentService.js:18-22 | positive iff the score is ≥ 3.5; neutral iff it is in [2.5, 3.5); negative iff it is < 2.5 |
| SentimentService.FixedLabelMonotone | consumer/src/sentimentService.js:18-22 | a higher score never gets a worse label |
| SentimentService.GetPredictions | consumer/src/sentimentService.js:5-16 | the scores are returned whole iff a reply has a 2xx status; otherwise an error is thrown |
| ConsumerSpec.DriverFeedbackFilters | consumer/src/consumer.js:81-84 | the driver filter keeps exactly the driver messages, when driver feedback requires sentiment |
| ConsumerSpec.OtherFeedbackFilters | consumer/src/consumer.js:86-89 | the other filter keeps exactly the messages of another type or of a type that does not require sentiment |
| ConsumerSpec.ScoredRecords | consumer/src/consumer.js:124-150 | the i-th driver message is stored with the i-th prediction, its combined score, and the label of that score |
| ConsumerSpec.UnscoredRecords | consumer/src/consumer.js:237-249 | other feedback is stored with no prediction, no combined score and no label |
| ConsumerSpec.NewRatings | consumer/src/consumer.js:152-155 | one (driver, combined rating) entry per inserted record, in insertion order |
| ConsumerSpec.StoreAllKeeps | consumer/src/consumer.js:138-163 | the write loop never overwrites or removes a stored document |
| ConsumerSpec.StoreAllInserts | consumer/src/consumer.js:138-163 | the loop inserts only input records whose ids were new, and stores each unchanged |
| ConsumerSpec.StoreAllKeys | consumer/src/consumer.js:138-163 | the store gains exactly the ids of the records the loop inserted |
| ConsumerSpec.StoreAllCompletes | consumer/src/consumer.js:157-163 | a loop that completes has every input id stored; a loop that throws met a failing write |
| ConsumerSpec.ScoredInsertsAreScored | consumer/src/consumer.js:147 | every record the driver phase inserts carries a combined score |
| ConsumerSpec.NewRatingsAppend | consumer/src/consumer.js:152-155 | inserting one more record appends exactly its rating |
| ConsumerSpec.DriverIdsFacts | consumer/src/consumer.js:180-188 | `Object.keys(driverGroups)` lists each driver once, exactly the drivers with a rating |
| ConsumerSpec.AlertGate | consumer/src/consumer.js:33-65 | an alert is written iff the score is below the threshold, the alert operations do not fail, and every earlier alert of the driver is older than the cooldown |
| ConsumerSpec.DriverStep | consumer/src/consumer.js:191-224 | one driver's turn keeps the set of drivers, appends at most one alert and counts exactly the alerts it appends |
| ConsumerLemmas.DriverStepEffect | consumer/src/consumer.js:191-212 | one driver's turn replaces that driver's record by the record updated with its group and changes no other driver |
| ConsumerSpec.UpdateScores | consumer/src/consumer.js:178-231 | the loop over drivers keeps the drivers' keys, only appends to the alert log, and counts exactly the alerts it appends |
| ConsumerSpec.ParseAllFacts | consumer/src/consumer.js:79 | a batch parses iff every payload does, and then gives one message per record, in order |
| ConsumerSpec.ResolvedOffset | consumer/src/consumer.js:293-306 | an offset is resolved iff the batch did not throw and is non-empty, and it is the last record's offset |
| ConsumerPipeline.GroupByDriver | consumer/src/consumer.js:180-188 | the grouping loop builds, for each driver, its ratings in batch order, and lists the drivers by first appearance |
| ConsumerPipeline.FoldRatings | consumer/src/consumer.js:200-207 | the fold loop computes the running score seeded by the first rating when the score is 0 |
| ConsumerPipeline.Consumer.constructor | consumer/src/consumer.js:21-27 | the counters start at zero |
| ConsumerPipeline.Consumer.CheckAndGenerateAlert | consumer/src/consumer.js:33-65 | the result is the alert gate, and the log gains exactly that alert when the result is true |
| ConsumerPipeline.Consumer.UpdateDriver | consumer/src/consumer.js:192-224 | one turn of the driver loop leaves the drivers and alerts its specification gives, and adds to the alert counter exactly the alerts it appended |
| ConsumerPipeline.Consumer.UpdateEachDriver | consumer/src/consumer.js:191-225 | the loop over `driverIds` leaves the drivers and alerts of the score update, and the alert counter grows by the alerts it generated |
| ConsumerPipeline.Consumer.UpdateDriverScores | consumer/src/consumer.js:178-231 | the drivers and the alert log become the score update, and the alert counter grows by the alerts generated |
| ConsumerPipeline.Consumer.StoreScored | consumer/src/consumer.js:122-164 | the write loop leaves the store of the write specification and returns its ratings, or throws where it does |
| ConsumerPipeline.Consumer.ProcessDriverFeedback | consumer/src/consumer.js:115-176 | the driver phase: the state and the error the phase specification gives |
| ConsumerPipeline.Consumer.ProcessOtherFeedback | consumer/src/consumer.js:233-268 | the other phase: the state and the error the phase specification gives |
| ConsumerPipeline.Consumer.ProcessBatch | consumer/src/consumer.js:67-113 | the batch: outcome and new state equal the batch specification |
| ConsumerPipeline.Consumer.EachBatch | consumer/src/consumer.js:293-306 | the batch is processed, then the last offset is resolved only if nothing threw |
| ConsumerLemmas.ClassificationPartition | consumer/src/consumer.js:81-89 | the two filters split a batch: every message goes to exactly one of them, and only driver messages are scored |
| ConsumerLemmas.DriverFeedbackAppend | consumer/src/consumer.js:81-84 | filtering a concatenation for driver feedback concatenates the filtered parts, so batch order is kept |
| ConsumerLemmas.OtherFeedbackAppend | consumer/src/consumer.js:86-89 | filtering a concatenation for other feedback concatenates the filtered parts, so batch order is kept |
| ConsumerLemmas.EmaAppend | consumer/src/consumer.js:200-207 | folding two runs of ratings one after the other is folding their concatenation |
| ConsumerLemmas.EmaExample | consumer/src/consumer.js:29-31 | from 0 with alpha 0.25, the ratings 4, 2, 3 give 4, 3.5 and 3.375 |
| ConsumerLemmas.EmaOrderMatters | consumer/src/consumer.js:200-207 | the same ratings in another order give another score |
| ConsumerLemmas.BlendWithin | consumer/src/consumer.js:29-31 | one step of the average, with alpha in [0, 1], stays within any interval holding both inputs |
| ConsumerLemmas.EmaWithin | consumer/src/consumer.js:200-207 | the fold stays within any interval holding the start and every rating |
| ConsumerLemmas.CombinedScoreWithin | consumer/src/consumer.js:130 | the combined score of a star rating in 1..5 and a prediction in [1, 5] is a two-decimal value in [1, 5] |
| ConsumerLemmas.UpdatedDriverValid | consumer/src/consumer.js:209-211 | with alpha in [0, 1] and ratings in [0, 5], the driver stays within the schema's bounds, and its count grows by the group size |
| ConsumerLemmas.BatchBoundaryChangesScore | consumer/src/consumer.js:200-209 | ratings 1, 1, 3.5 in one batch and split across two batches give different stored scores |
| ConsumerLemmas.StoreAllAbsorbsStored | consumer/src/consumer.js:157-163 | records whose ids are all stored are all skipped as duplicates |
| ConsumerLemmas.ScoredIdsStored | consumer/src/consumer.js:138-163 | a driver write loop that completes has every message's id stored |
| ConsumerLemmas.UnscoredIdsStored | consumer/src/consumer.js:238-259 | an other write loop that completes has every message's id stored |
| ConsumerLemmas.UpdateScoresEffect | consumer/src/consumer.js:191-211 | each listed driver ends as its old record updated with its whole group; unlisted drivers are untouched |
| ConsumerLemmas.GroupsCoverRatings | consumer/src/consumer.js:180-188 | the keys are distinct, exactly the drivers with ratings, and their groups together hold every rating of the batch |
| ConsumerLemmas.DriverStepSpaced | consumer/src/consumer.js:39-56 | one driver's turn keeps any two alerts of a driver more than the cooldown apart |
| ConsumerLemmas.UpdateScoresSpaced | consumer/src/consumer.js:191-224 | the score update keeps the alert log spaced by the cooldown |
| ConsumerLemmas.NewAlertsAreLowScores | consumer/src/consumer.js:35-56 | every alert the score update appends names a listed driver whose new score is below the threshold, stamped now |
| ConsumerLemmas.CooldownExample | consumer/src/consumer.js:39-49 | with the default cooldown, a second low score is not alerted 30 and 60 minutes after an alert, and is alerted one second later |
| ConsumerLemmas.NoAlertAtOrAboveThreshold | consumer/src/consumer.js:35-37 | a score at or above the threshold never appends an alert |
| BatchLemmas.MissingConfigSkipsBatch | consumer/src/consumer.js:71-75 | without a configuration the batch changes nothing and its last offset is still resolved |
| BatchLemmas.DriverPhaseShape | consumer/src/consumer.js:115-176 | the driver phase keeps the state when scoring fails; otherwise it stores what the write loop stores, and updates drivers and alerts exactly when the loop completed with at least one insert |
| BatchLemmas.BatchEndsInPhase | consumer/src/consumer.js:67-113 | a parsed batch with a configuration ends in the state of its driver phase, or of its other phase after that, with the outcome of the first phase that threw |
| BatchLemmas.DriverPhaseKeepsFeedback | consumer/src/consumer.js:115-176 | the driver phase never changes or removes a stored document |
| BatchLemmas.DriverWriteFailureSkipsScores | consumer/src/consumer.js:157-170 | a write error in the driver phase keeps the records written before it (each a message's scored record) and updates no driver, alert or counter |
| BatchLemmas.BatchKeepsFeedback | consumer/src/consumer.js:67-113 | no batch changes or removes a stored document |
| BatchLemmas.FailedBatchIsContained | consumer/src/consumer.js:108-112 | a failed batch counts one error and no messages, resolves no offset, and, unless a write failed, changes no store |
| BatchLemmas.CompletedBatchIsStored | consumer/src/consumer.js:94-104 | a completed batch stored every message and counted each once as processed and once as driver or other feedback |
| BatchLemmas.CompletedMessagesStored | consumer/src/consumer.js:79-104 | a completed batch parsed, and every one of its messages is stored |
| BatchLemmas.StoredMessagesAbsorbed | consumer/src/consumer.js:115-268 | when every message is already stored and no write fails, both phases complete and change nothing |
| BatchLemmas.RedeliveryIsAbsorbed | consumer/src/consumer.js:138-163 | reprocessing a completed batch completes and changes no document, driver or alert |
| BatchLemmas.BatchKeepsAlertsSpaced | consumer/src/consumer.js:33-65 | every batch keeps the alert log spaced by the cooldown |
| BatchLemmas.PartialFailureLosesRating | consumer/src/consumer.js:157-170 | a failure on the second write, followed by redelivery, leaves a driver with one of its two stored ratings, and the offset is resolved |
| BatchLemmas.FirstDeliveryFails | consumer/src/consumer.js:157-170 | two ratings of one driver whose second write fails: the phase throws, keeping the first record and leaving the driver unchanged |
| BatchLemmas.SecondDeliveryCountsOne | consumer/src/consumer.js:138-211 | on redelivery the first rating is a duplicate, so the driver is updated with the second rating alone |
| EndToEnd.ServiceFeedsConsumer | model-server/main.py:55-66 | the service's reply to a non-empty batch is accepted by the client, with one score in [1, 5] per text; an empty batch is an error |
| EndToEnd.ScoredRecordIsConsumerRecord | consumer/src/consumer.js:124-150 | a published message with a score in [1, 5] gives a schema-valid record labelled by its combined score |
| EndToEnd.ScoredRecordsAreConsumerRecords | consumer/src/consumer.js:124-150 | every record built from published messages and in-range scores is a consumer record with a combined score in [1, 5] |
| EndToEnd.InsertedRatingsWithin | consumer/src/consumer.js:124-163 | every record the driver phase inserts carries a combined score in [1, 5] |
| EndToEnd.StoreAllKeepsConsumerStore | consumer/src/consumer.js:138-163 | the write loop keeps every document under its own id and consumer-valid |
| EndToEnd.GroupWithin | consumer/src/consumer.js:180-186 | every rating in a driver's group is within the bounds of the batch's ratings |
| EndToEnd.DriverStepKeepsValid | consumer/src/consumer.js:191-224 | one driver's turn keeps the drivers and the alerts valid |
| EndToEnd.ReplaceKeepsValid | consumer/src/consumer.js:209-211 | saving a valid driver under its own id keeps the collection valid |
| EndToEnd.UpdateScoresKeepsValid | consumer/src/consumer.js:178-231 | the score update keeps the drivers and the alerts valid |
| EndToEnd.ScoredPhaseKeepsValid | consumer/src/consumer.js:138-211 | after the scores came back, the stored records, the drivers and the alerts the driver phase leaves are valid |
| EndToEnd.ParsedMessagesWellFormed | consumer/src/consumer.js:79-89 | a batch of published messages parses into published messages, and both filters keep only those |
| EndToEnd.DriverPhaseKeepsHealthy | consumer/src/consumer.js:115-176 | the driver phase keeps records, drivers and alerts valid |
| EndToEnd.OtherPhaseKeepsHealthy | consumer/src/consumer.js:233-268 | the other phase keeps records, drivers and alerts valid |
| EndToEnd.BatchKeepsHealthy | consumer/src/consumer.js:67-113 | every batch of published messages, with scores in range and alpha in [0, 1], keeps records, drivers and alerts valid, whether it completes or throws |
| EndToEnd.DefaultRelabelKeepsConsumerStore | consumer/src/scripts/update-sentiments.js:6-11 | on records built from the fields the consumer passes to `Feedback.create`, relabelling at the default threshold 2.5 changes nothing |
| UpdateSentiments.ThresholdLabel | consumer/src/scripts/update-sentiments.js:6-11 | positive iff the score is ≥ threshold + 1; neutral iff it is in [threshold, threshold + 1); negative iff it is below the threshold |
| UpdateSentiments.FixedLabelIsDefaultThreshold | consumer/src/sentimentService.js:18-22 | the consumer's fixed label is the script's label at threshold 2.5 |
| UpdateSentiments.ScriptThreshold | consumer/src/scripts/update-sentiments.js:25 | a zero threshold falls back to 2.5; any other is used as configured |
| UpdateSentiments.Relabeled | consumer/src/scripts/update-sentiments.js:32-52 | every selected record is relabelled, other records are kept, and no key is added |
| UpdateSentiments.CountStale | consumer/src/scripts/update-sentiments.js:40-47 | the number of saves is at most the number of records found |
| UpdateSentiments.RunUpdate | consumer/src/scripts/update-sentiments.js:13-65 | without a configuration the script exits and changes nothing; otherwise it relabels everything, reports the number of records found, the saves and the records kept, and the last two add up to the first |
| UpdateSentiments.SaveRelabeled | consumer/src/scripts/update-sentiments.js:39-52 | the loop leaves the relabelled collection and counts exactly the records whose label changed |
| UpdateSentiments.RelabeledMatches | consumer/src/scripts/update-sentiments.js:39-52 | a collection with each found record relabelled and the rest kept is the relabelled collection |
| UpdateSentiments.RelabeledIsFinal | consumer/src/scripts/update-sentiments.js:41-43 | after a run no selected record's label differs from its recomputed label |
| UpdateSentiments.CountStaleZero | consumer/src/scripts/update-sentiments.js:43-47 | zero saves iff no listed record needs one |
| UpdateSentiments.SecondRunUpdatesNothing | consumer/src/scripts/update-sentiments.js:39-52 | a second run with the same threshold saves nothing |
| UpdateSentiments.RelabelIdempotent | consumer/src/scripts/update-sentiments.js:39-52 | relabelling twice is relabelling once |
| Auth.Status | api-server/src/routes/auth.js:98-183 | the status is 401 exactly for bad credentials, a missing refresh token, an unknown or stale token, and a malformed or expired token |
| Auth.FindBy | api-server/src/routes/auth.js:42 | the lookup by email (and, the same search, by id at line 153) finds an employee holding the value, or none exists |
| Auth.RegisterStep | api-server/src/routes/auth.js:25-81 | 400 iff validation fails or the email is registered, and then nothing is created; otherwise one employee is appended, role defaulting to 'employee', storing the refresh token it returns, and the response hides the password and token |
| Auth.LoginStep | api-server/src/routes/auth.js:83-136 | the same 401 for an unknown email and a wrong password; on success the stored token becomes the one returned and nothing else changes |
| Auth.RefreshStep | api-server/src/routes/auth.js:138-185 | 401 for a missing or empty token; 401 for a malformed or expired one; 500 for other verify errors; 401 'Invalid refresh token' iff the token verifies but no employee has its id or the stored token differs; succeeds iff the token verifies and equals the stored one, and then rotates it |
| Auth.LogoutStep | api-server/src/routes/auth.js:187-203 | logout clears the authenticated employee's stored token and changes nothing else |
| Auth.FindByIdUnique | api-server/src/routes/auth.js:153 | with unique ids, the id lookup finds the one employee with that id |
| Auth.TokenUpdateKeepsValid | api-server/src/routes/auth.js:116-117 | changing a stored token keeps ids, emails and roles valid |
| Auth.RegisterKeepsValid | api-server/src/models/Employee.js:4-27 | registering keeps emails and ids unique and roles in the enum |
| Auth.SessionStepsKeepValid | api-server/src/routes/auth.js:83-203 | login, refresh and logout keep the collection valid |
| Auth.LogoutRevokesRefresh | api-server/src/routes/auth.js:150-189 | after logout no refresh for that employee succeeds, whatever token is presented |
| Auth.FindByIdStable | api-server/src/routes/auth.js:163-164 | changing only a token does not change what the id lookup finds |
| Auth.FindByFirst | api-server/src/routes/auth.js:153 | no employee before the found one holds the value |
| Auth.FindByOfFirst | api-server/src/routes/auth.js:153 | the first employee holding a value is found |
| Auth.RotatedTokenIsSingleUse | api-server/src/routes/auth.js:154-164 | after a refresh issues a different token, the old one is rejected |
| Auth.LoginTokenRefreshes | api-server/src/routes/auth.js:114-164 | the token a login returns is accepted by the next refresh |
| Auth.AuthService.Register | api-server/src/routes/auth.js:25-81 | the route's two saves leave the state and response of the register specification |
| Auth.AuthService.Login | api-server/src/routes/auth.js:83-136 | the route leaves the state and response of the login specification |
| Auth.AuthService.Refresh | api-server/src/routes/auth.js:138-185 | the route leaves the state and response of the refresh specification |
| Auth.AuthService.Logout | api-server/src/routes/auth.js:187-203 | the route leaves the state and response of the logout specification |

## Left out

- Kafka plumbing is not modelled: connection, subscription, heartbeats, consumer groups, `printStats`, and the shutdown handlers. `eachBatch` is kept only for its choice of offset.
- The HTTP transport is not modelled: axios, FastAPI and CORS. The reply is a parameter; the root and health endpoints return constants.
- VADER is a parameter, not a model: its compound value is a given function of the text.
- Floating point: scores are exact reals, and `toFixed(2)` and `round(x, 2)` both round ties upward. Binary representation, banker's rounding in Python and NaN are not modelled.
- `Driver.findOne` and `driver.save()` failures are not modelled: a driver lookup that throws, or a save that fails validation, would throw out of `updateDriverScores`. A missing driver is modelled and skipped.
- The order of `Object.keys` is first appearance. That holds for the non-numeric driver ids the system uses; integer-like keys would be enumerated numerically first.
- Message fields arrive as typed values: a JSON `null`, a string rating or a missing field in a payload is not modelled, only a payload that fails to parse.
- FeedbackRoute.Submit: covers only a numeric JSON `rating`. A string such as "3" passes `isInt` and is forwarded unconverted (api-server/src/routes/feedback.js:41, 53, 78), so the published message would carry a string; the model publishes the integer.
- A `Config.findById` call that throws is not modelled: the configuration is present or absent. In the consumer (consumer/src/consumer.js:71) such an error is caught at lines 108-111 (one error counted, rethrown, no offset resolved); in `POST /feedback` (api-server/src/routes/feedback.js:55) it gives the 500 of lines 100-104.
- ConsumerSpec.PredictionsFit and ConsumerSpec.BatchFits require a 2xx scoring reply to carry one score per driver message. A reply with too few scores, or none, would make consumer/src/consumer.js:126-135 read `undefined` (a TypeError or NaN scores); that case is not modelled. EndToEnd.ServiceFeedsConsumer proves the model server's own reply always meets the requirement.
- Date conversion (`new Date(feedback.timestamp)`, ISO strings) is not modelled. Timestamps are non-empty strings in records and milliseconds in alerts.
- Email format (`isEmail`) and `normalizeEmail` are taken as given: the register and login bodies carry the normalised email and whether it passed the check.
- JWT signing and verification and bcrypt hashing are not modelled. Tokens are opaque strings, the verify outcome is a parameter, and a password matches when it equals the stored one.
- Auth.RegisterStep, Auth.LoginStep, Auth.RefreshStep, Auth.LogoutStep: database errors (the 500 responses of register, login, refresh and logout) are not modelled. In refresh, a throwing `Employee.findById` or `employee.save()` (api-server/src/routes/auth.js:153, 164) gives the 500 of lines 171-183; the model's `ServerError` arises only from a verify error of another name. The new employee's id is a parameter, assumed fresh as MongoDB guarantees.
- `authMiddleware` and `adminMiddleware` are not modelled: logout receives the authenticated id, and PATCH /config is assumed to be called by an admin.
- `GET /feedback/drivers` (search and sort) and `GET /auth/me` return stored data and are not modelled. `admin.js`, `server.js`, the UI and `consumer/src/models.js` are not part of this model.
- The `createdAt` index order of alerts and the `timestamps` fields of the schemas are not modelled.
- UpdateSentiments.RunUpdate: failing saves in the script and its process exit codes are not modelled.
- ConfigRoutes.ConfigStore.Patch: Mongoose schema casting of the patched values is not modelled; values are stored as given.
- ConfigRoutes.BuildUpdate: a PATCH body is modelled with each numeric field present or undefined, and `features` as undefined, falsy or an object. A JSON `null` for a numeric field is `!== undefined`, so api-server/src/routes/config.js:38-52 puts it in `$set`; a truthy non-object `features` (`true`, `"x"`) is set as given. Neither can be represented.
- Feedback records are modelled as the fields the consumer passes to `Feedback.create` (consumer/src/consumer.js:138-150, 238-249). The consumer's Feedback schema (consumer/src/models.js:13-23) declares no `combined_score`. Under Mongoose's default strict mode that field would be dropped, and the relabelling script's `combined_score: { $exists: true, $ne: null }` query (consumer/src/scripts/update-sentiments.js:32-35) would then select none of the consumer's records, at any threshold. The model assumes the field is stored.
