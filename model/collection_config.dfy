/**
  * The collection configuration context: the collection being edited, the
  * configuration last saved, and whether the two differ. Updates merge into
  * the configuration the way object spreads do; the dirty flag compares the
  * two configurations' JSON texts.
  */
module CollectionConfig {
  import opened Wrappers

  /** A JSON value; a configuration is a JSON object. */
  datatype Json =
    | JNull
    | JBool(b: bool)
    | JNum(n: real)
    | JStr(s: string)
    | JArr(items: seq<Json>)
    | JObj(fields: map<string, Json>)

  type Config = map<string, Json>

  /** A collection; `config` is `None` when the collection has none (`undefined`). */
  datatype Collection = Collection(slug: string, details: map<string, Json>, config: Option<Config>)

  /** What `JSON.stringify` gives: `undefined` for `undefined`, else a text standing for the value. */
  datatype Stringified = Undefined | Text(value: Json)

  /** `JSON.stringify(collection.config)`: an absent configuration is `undefined`. */
  function StringifyConfig(config: Option<Config>): Stringified {
    if config.None? then Undefined else Text(JObj(config.value))
  }

  /** `JSON.stringify(savedConfig)`: the saved configuration is `null` when there was none. */
  function StringifyNullable(config: Option<Config>): Stringified {
    if config.None? then Text(JNull) else Text(JObj(config.value))
  }

  /** The dirty test as written: the current configuration's text against the saved one's. */
  function DirtyAsWritten(config: Option<Config>, saved: Option<Config>): bool {
    StringifyConfig(config) != StringifyNullable(saved)
  }

  /** The dirty test on `collection.config || null`, the configuration the context exposes. */
  function Dirty(config: Option<Config>, saved: Option<Config>): bool {
    StringifyNullable(config) != StringifyNullable(saved)
  }

  /** The context is dirty exactly when the configuration differs from the saved one. */
  lemma DirtySpec(config: Option<Config>, saved: Option<Config>)
    ensures Dirty(config, saved) <==> config != saved
  {
    if config.Some? && saved.Some? && config != saved {
      assert JObj(config.value).fields != JObj(saved.value).fields;
    }
  }

  /** Both tests agree on a collection that has a configuration. */
  lemma DirtyAgreesWithConfig(config: Option<Config>, saved: Option<Config>)
    requires config.Some?
    ensures DirtyAsWritten(config, saved) == Dirty(config, saved)
  {
  }

  /**
    * As written, a collection without a configuration is always dirty: its
    * text is `undefined` and the saved one's is `"null"`, though nothing was changed.
    */
  lemma NoConfigAlwaysDirty(saved: Option<Config>)
    ensures DirtyAsWritten(None, saved)
    ensures DirtyAsWritten(None, None) && !Dirty(None, None)
  {
  }

  // ---------------------------------------------------------------------------
  // Merges

  /** `{ ...m[key] }`: the fields of an object member, none when it is missing. */
  function Field(m: Config, key: string): Config {
    if key in m && m[key].JObj? then m[key].fields else map[]
  }

  /** `{ ...config, ...updates }` */
  function Merged(config: Option<Config>, updates: Config): Config {
    config.GetOr(map[]) + updates
  }

  /** The updates win, every other key keeps its value, and no key is lost or invented. */
  lemma MergedSpec(config: Option<Config>, updates: Config)
    ensures var base := config.GetOr(map[]);
      var r := Merged(config, updates);
      r.Keys == base.Keys + updates.Keys &&
      (forall k :: k in updates ==> r[k] == updates[k]) &&
      (forall k :: k in base && k !in updates ==> r[k] == base[k])
  {
  }

  /** Updates that repeat the current values change nothing. */
  lemma MergeOfSameValues(config: Config, updates: Config)
    requires forall k :: k in updates ==> k in config && config[k] == updates[k]
    ensures Merged(Some(config), updates) == config
  {
    var r := Merged(Some(config), updates);
    assert r.Keys == config.Keys;
    assert forall k :: k in r ==> r[k] == config[k];
  }

  /** `{ ...config, dynamicSettings: { ...ds, carouselDefaults: { ...cd, ...updates } } }` */
  function WithCarouselDefaults(config: Option<Config>, updates: Config): Config {
    var base := config.GetOr(map[]);
    var ds := Field(base, "dynamicSettings");
    base["dynamicSettings" := JObj(ds["carouselDefaults" := JObj(Field(ds, "carouselDefaults") + updates)])]
  }

  /**
    * Only the carousel defaults change: every other key at the top and inside
    * the dynamic settings keeps its value, and the defaults are the old ones
    * overridden by the updates.
    */
  lemma CarouselDefaultsSpec(config: Option<Config>, updates: Config)
    ensures var base := config.GetOr(map[]);
      var r := WithCarouselDefaults(config, updates);
      var ds := Field(base, "dynamicSettings");
      r.Keys == base.Keys + {"dynamicSettings"} &&
      (forall k :: k in base && k != "dynamicSettings" ==> r[k] == base[k]) &&
      Field(r, "dynamicSettings").Keys == ds.Keys + {"carouselDefaults"} &&
      (forall k :: k in ds && k != "carouselDefaults" ==> Field(r, "dynamicSettings")[k] == ds[k]) &&
      Field(Field(r, "dynamicSettings"), "carouselDefaults") == Field(ds, "carouselDefaults") + updates
  {
  }

  /** `{ ...config, projection: { ...config.projection, ...updates } }` */
  function WithProjection(config: Option<Config>, updates: Config): Config {
    var base := config.GetOr(map[]);
    base["projection" := JObj(Field(base, "projection") + updates)]
  }

  /** Only the projection settings change, and they are the old ones overridden by the updates. */
  lemma ProjectionSpec(config: Option<Config>, updates: Config)
    ensures var base := config.GetOr(map[]);
      var r := WithProjection(config, updates);
      r.Keys == base.Keys + {"projection"} &&
      (forall k :: k in base && k != "projection" ==> r[k] == base[k]) &&
      Field(r, "projection") == Field(base, "projection") + updates
  {
  }

  // ---------------------------------------------------------------------------
  // The provider's state

  class ConfigContext {
    var collection: Collection
    var savedConfig: Option<Config>
    var isDirty: bool

    /** The dirty effect has run since the last change. */
    ghost predicate Valid()
      reads this
    {
      isDirty == Dirty(collection.config, savedConfig)
    }

    /** Mounting with a collection: nothing to save yet, so the context is clean. */
    constructor (initial: Collection)
      ensures collection == initial && savedConfig == initial.config && !isDirty && Valid()
    {
      collection := initial;
      savedConfig := initial.config;
      isDirty := false;
    }

    /** The provider receives a collection: a new slug replaces the collection and the saved configuration. */
    method CollectionReceived(initial: Collection)
      requires Valid()
      modifies this
      ensures initial.slug != old(collection.slug) ==>
        collection == initial && savedConfig == initial.config && !isDirty
      ensures initial.slug == old(collection.slug) ==>
        collection == old(collection) && savedConfig == old(savedConfig) && isDirty == old(isDirty)
      ensures Valid()
    {
      if initial.slug != collection.slug {
        collection := initial;
        savedConfig := initial.config;
        isDirty := false;
      }
    }

    /** `updateConfig(updates)` and the dirty effect it sets off. */
    method UpdateConfig(updates: Config)
      modifies this
      ensures collection == old(collection).(config := Some(Merged(old(collection.config), updates)))
      ensures savedConfig == old(savedConfig)
      ensures Valid()
    {
      collection := collection.(config := Some(Merged(collection.config, updates)));
      isDirty := Dirty(collection.config, savedConfig);
    }

    /** `updateCarouselDefaults(updates)` and the dirty effect. */
    method UpdateCarouselDefaults(updates: Config)
      modifies this
      ensures collection == old(collection).(config := Some(WithCarouselDefaults(old(collection.config), updates)))
      ensures savedConfig == old(savedConfig)
      ensures Valid()
    {
      collection := collection.(config := Some(WithCarouselDefaults(collection.config, updates)));
      isDirty := Dirty(collection.config, savedConfig);
    }

    /** `updateProjectionSettings(updates)` and the dirty effect. */
    method UpdateProjectionSettings(updates: Config)
      modifies this
      ensures collection == old(collection).(config := Some(WithProjection(old(collection.config), updates)))
      ensures savedConfig == old(savedConfig)
      ensures Valid()
    {
      collection := collection.(config := Some(WithProjection(collection.config, updates)));
      isDirty := Dirty(collection.config, savedConfig);
    }

    /** `resetToSaved()`: with a saved configuration, it is restored and the context is clean; else nothing changes. */
    method ResetToSaved()
      requires Valid()
      modifies this
      ensures old(savedConfig).Some? ==>
        collection == old(collection).(config := old(savedConfig)) && !isDirty
      ensures old(savedConfig).None? ==>
        collection == old(collection) && isDirty == old(isDirty)
      ensures savedConfig == old(savedConfig)
      ensures Valid()
    {
      if savedConfig.Some? {
        collection := collection.(config := savedConfig);
        isDirty := false;
      }
    }
  }
}
