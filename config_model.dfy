/**
 * The single configuration document `feedback_config` and its defaults
 * (api-server/src/models/Config.js).
 */
module ConfigModel {

  /** One entry of `features`; an absent sub-field reads as false in every check. */
  datatype Feature = Feature(enabled: bool, requiresSentiment: bool)

  /**
   * The configuration record. `features` is keyed by `<entity_type>_feedback`;
   * a key that is absent models `config.features[key]` being undefined.
   * Cooldown and batch sizes are whole numbers of seconds / messages.
   */
  datatype Config = Config(
    id: string,
    features: map<string, Feature>,
    alertThreshold: real,
    emaAlpha: real,
    batchSize: int,
    batchTimeoutS: int,
    alertCooldownS: int)

  const ConfigId: string := "feedback_config"

  /** The `features` key of an entity type: `${entity_type}_feedback`. */
  function FeatureKey(entityType: string): string {
    entityType + "_feedback"
  }

  /** `config.features[key]?.enabled` is truthy. */
  predicate Enabled(c: Config, entityType: string) {
    FeatureKey(entityType) in c.features && c.features[FeatureKey(entityType)].enabled
  }

  /** `config.features[key]?.requires_sentiment` is truthy. */
  predicate RequiresSentiment(c: Config, entityType: string) {
    FeatureKey(entityType) in c.features && c.features[FeatureKey(entityType)].requiresSentiment
  }

  /** The document `new Config({ _id: 'feedback_config' })` holds once schema defaults apply. */
  function DefaultConfig(): (c: Config)
    ensures c.id == ConfigId
    ensures c.alertThreshold == 2.5 && c.emaAlpha == 0.25 && c.alertCooldownS == 3600
    ensures c.batchSize == 200 && c.batchTimeoutS == 10
    ensures 0.0 < c.emaAlpha <= 1.0
  {
    Config(
      ConfigId,
      map[
        "driver_feedback" := Feature(true, true),
        "trip_feedback" := Feature(true, false),
        "app_feedback" := Feature(false, false),
        "marshal_feedback" := Feature(true, false)],
      2.5, 0.25, 200, 10, 3600)
  }

  /**
   * Under the defaults driver feedback is enabled and scored, trip and marshal
   * feedback are enabled and stored as they are, and app feedback is disabled.
   */
  lemma DefaultFeatureGates()
    ensures Enabled(DefaultConfig(), "driver") && RequiresSentiment(DefaultConfig(), "driver")
    ensures Enabled(DefaultConfig(), "trip") && !RequiresSentiment(DefaultConfig(), "trip")
    ensures Enabled(DefaultConfig(), "marshal") && !RequiresSentiment(DefaultConfig(), "marshal")
    ensures !Enabled(DefaultConfig(), "app") && !RequiresSentiment(DefaultConfig(), "app")
  {
    assert FeatureKey("driver") == "driver_feedback";
    assert FeatureKey("trip") == "trip_feedback";
    assert FeatureKey("marshal") == "marshal_feedback";
    assert FeatureKey("app") == "app_feedback";
  }
}
