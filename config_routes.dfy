/**
 * `GET /` (find or create the default) and `PATCH /` (selective `$set` with
 * upsert) of api-server/src/routes/config.js.
 */
module ConfigRoutes {
  import opened Wrappers
  import opened ConfigModel

  /** The value of `req.body.features`: an object (always truthy) or a falsy value. */
  datatype FeaturesInput = Absent | Falsy | Object(features: map<string, Feature>)

  /**
   * A PATCH body, restricted to the six fields the handler reads; every other
   * key of the body has no place here because the handler never looks at it.
   * For the numeric fields `None` is `undefined`.
   */
  datatype PatchBody = PatchBody(
    features: FeaturesInput,
    alertThreshold: Option<real>,
    emaAlpha: Option<real>,
    batchSize: Option<int>,
    batchTimeoutS: Option<int>,
    alertCooldownS: Option<int>)

  /** `updateData`: the fields that go into `$set`; `None` means the key is not set. */
  datatype UpdateData = UpdateData(
    features: Option<map<string, Feature>>,
    alertThreshold: Option<real>,
    emaAlpha: Option<real>,
    batchSize: Option<int>,
    batchTimeoutS: Option<int>,
    alertCooldownS: Option<int>)

  /**
   * Builds `updateData` field by field: `features` only when truthy, the other
   * five whenever they are not undefined. No range check is made.
   */
  function BuildUpdate(body: PatchBody): (u: UpdateData)
    ensures u.features.Some? <==> body.features.Object?
    ensures body.features.Object? ==> u.features.value == body.features.features
    ensures u.alertThreshold == body.alertThreshold && u.emaAlpha == body.emaAlpha
    ensures u.batchSize == body.batchSize && u.batchTimeoutS == body.batchTimeoutS
    ensures u.alertCooldownS == body.alertCooldownS
  {
    var features := match body.features
      case Object(f) => Some(f)
      case _ => None;
    UpdateData(features, body.alertThreshold, body.emaAlpha, body.batchSize,
               body.batchTimeoutS, body.alertCooldownS)
  }

  /** `$set: updateData` on a stored document: listed fields replaced, the rest kept. */
  function ApplySet(c: Config, u: UpdateData): (r: Config)
    ensures r.id == c.id
    ensures u.features.None? ==> r.features == c.features
    ensures u.features.Some? ==> r.features == u.features.value
    ensures u.alertThreshold.None? ==> r.alertThreshold == c.alertThreshold
    ensures u.alertThreshold.Some? ==> r.alertThreshold == u.alertThreshold.value
    ensures u.emaAlpha.None? ==> r.emaAlpha == c.emaAlpha
    ensures u.emaAlpha.Some? ==> r.emaAlpha == u.emaAlpha.value
    ensures u.batchSize.None? ==> r.batchSize == c.batchSize
    ensures u.batchSize.Some? ==> r.batchSize == u.batchSize.value
    ensures u.batchTimeoutS.None? ==> r.batchTimeoutS == c.batchTimeoutS
    ensures u.batchTimeoutS.Some? ==> r.batchTimeoutS == u.batchTimeoutS.value
    ensures u.alertCooldownS.None? ==> r.alertCooldownS == c.alertCooldownS
    ensures u.alertCooldownS.Some? ==> r.alertCooldownS == u.alertCooldownS.value
  {
    Config(
      c.id,
      u.features.GetOr(c.features),
      u.alertThreshold.GetOr(c.alertThreshold),
      u.emaAlpha.GetOr(c.emaAlpha),
      u.batchSize.GetOr(c.batchSize),
      u.batchTimeoutS.GetOr(c.batchTimeoutS),
      u.alertCooldownS.GetOr(c.alertCooldownS))
  }

  /** A body that provides nothing leaves the stored document as it is. */
  lemma EmptyPatchKeepsConfig(c: Config, body: PatchBody)
    requires !body.features.Object? && body.alertThreshold.None? && body.emaAlpha.None?
    requires body.batchSize.None? && body.batchTimeoutS.None? && body.alertCooldownS.None?
    ensures ApplySet(c, BuildUpdate(body)) == c
  {
  }

  /** Sending the same PATCH twice has the effect of sending it once. */
  lemma PatchIdempotent(c: Config, body: PatchBody)
    ensures ApplySet(ApplySet(c, BuildUpdate(body)), BuildUpdate(body)) == ApplySet(c, BuildUpdate(body))
  {
  }

  /** The single-document configuration collection. */
  class ConfigStore {
    var doc: Option<Config>

    /** The stored document, when there is one, is the one with `_id` `feedback_config`. */
    predicate Valid()
      reads this
    {
      doc.Some? ==> doc.value.id == ConfigId
    }

    constructor (initial: Option<Config>)
      requires initial.Some? ==> initial.value.id == ConfigId
      ensures Valid() && doc == initial
    {
      doc := initial;
    }

    /** `GET /`: the stored document, or a freshly saved default when absent. */
    method Get() returns (c: Config)
      requires Valid()
      modifies this
      ensures Valid()
      ensures old(doc).Some? ==> c == old(doc).value && doc == old(doc)
      ensures old(doc).None? ==> c == DefaultConfig() && doc == Some(c)
    {
      if doc.None? {
        doc := Some(DefaultConfig());
      }
      c := doc.value;
    }

    /**
     * `PATCH /`: `findByIdAndUpdate` with `$set: updateData`, `upsert` and `new`.
     * An upsert inserts the schema defaults overlaid with `updateData`.
     */
    method Patch(body: PatchBody) returns (c: Config)
      requires Valid()
      modifies this
      ensures Valid()
      ensures c == ApplySet(old(doc).GetOr(DefaultConfig()), BuildUpdate(body))
      ensures doc == Some(c)
    {
      var updateData := BuildUpdate(body);
      var stored := if doc.Some? then doc.value else DefaultConfig();
      c := ApplySet(stored, updateData);
      doc := Some(c);
    }
  }
}
