// The chart-source factory registries: a map from source type to factory,
// filled once at start-up, that detects the type of a configuration and
// hands the configuration to the matching factory.  `Registry` works on a
// whole component configuration; `CompositeRegistry` on the source section.
module SourceRegistry {
  import opened Wrappers
  import opened Strings
  import opened Json
  import opened SourceDetect

  /** A chart-source factory, known by the type it reports from `Type()`. */
  datatype Factory = Factory(kind: string, id: nat)

  /** What `CreateSource` does on success: call this factory with this configuration. */
  datatype Delegation = Delegation(factory: Factory, rawConfig: JsonText)

  /** `ts` lists every element of `keys` exactly once, in some order. */
  ghost predicate ListsKeys(ts: seq<string>, keys: set<string>)
  {
    |ts| == |keys| && (forall t :: t in ts <==> t in keys) &&
    (forall i, j :: 0 <= i < j < |ts| ==> ts[i] != ts[j])
  }

  /** `%v` of a `[]string`: the elements separated by spaces, in brackets. */
  function FormatList(ts: seq<string>): string
  {
    "[" + JoinWith(ts, " ") + "]"
  }

  function UnknownTypeMessage(sourceType: string, available: seq<string>): string
  {
    "unknown source type: " + sourceType + " (available types: " + FormatList(available) + ")"
  }

  /**
   * `availableTypes` / `slices.Collect(maps.Keys(r))`: the registered types
   * in map iteration order, which Go leaves unspecified; every order is allowed.
   */
  method KeysInSomeOrder(factories: map<string, Factory>) returns (types: seq<string>)
    ensures ListsKeys(types, factories.Keys)
  {
    types := [];
    var rest := factories.Keys;
    while rest != {}
      invariant rest <= factories.Keys
      invariant forall t :: t in types <==> t in factories.Keys && t !in rest
      invariant forall i, j :: 0 <= i < j < |types| ==> types[i] != types[j]
      invariant |types| + |rest| == |factories.Keys|
      decreases |rest|
    {
      var t :| t in rest;
      types := types + [t];
      rest := rest - {t};
    }
  }

  /** Looking a type up: the factory, or the "unknown source type" error for some order of the keys. */
  method Lookup(factories: map<string, Factory>, sourceType: string) returns (r: Result<Factory>)
    ensures sourceType in factories ==> r == Ok(factories[sourceType])
    ensures sourceType !in factories ==>
              r.Err? && exists ts :: ListsKeys(ts, factories.Keys) && r.error == UnknownTypeMessage(sourceType, ts)
  {
    if sourceType in factories {
      return Ok(factories[sourceType]);
    }
    var types := KeysInSomeOrder(factories);
    return Err(UnknownTypeMessage(sourceType, types));
  }

  /** `sources.Registry`: dispatch on `source.type` of a whole component configuration. */
  class Registry {
    var factories: map<string, Factory>

    /** `NewRegistry`: empty. */
    constructor ()
      ensures factories == map[]
    {
      factories := map[];
    }

    /** `Register`: stored under its own type; a second factory of the same type replaces the first. */
    method Register(factory: Factory)
      modifies this
      ensures factories == old(factories)[factory.kind := factory]
    {
      factories := factories[factory.kind := factory];
    }

    function Type(): (t: string)
      ensures t == "registry"
    {
      "registry"
    }

    /** `Get`: the registered factory, or an error naming the type and the registered ones. */
    method Get(sourceType: string) returns (r: Result<Factory>)
      ensures sourceType in factories ==> r == Ok(factories[sourceType])
      ensures sourceType !in factories ==>
                r.Err? && exists ts :: ListsKeys(ts, factories.Keys) && r.error == UnknownTypeMessage(sourceType, ts)
    {
      r := Lookup(factories, sourceType);
    }

    /** `AvailableTypes`: exactly the registered types. */
    method AvailableTypes() returns (types: seq<string>)
      ensures ListsKeys(types, factories.Keys)
    {
      types := KeysInSomeOrder(factories);
    }

    /**
     * `CreateSource`: a detection error is returned as is, an unregistered
     * type is an error, and otherwise the matching factory is called with the
     * unchanged configuration.
     */
    method CreateSource(rawConfig: JsonText) returns (r: Result<Delegation>)
      ensures DetectSourceType(rawConfig).Err? ==> r == Err(DetectSourceType(rawConfig).error)
      ensures DetectSourceType(rawConfig).Ok? && DetectSourceType(rawConfig).value !in factories ==>
                r.Err? && HasPrefix(r.error, "unknown source type: " + DetectSourceType(rawConfig).value)
      ensures r.Ok? <==> DetectSourceType(rawConfig).Ok? && DetectSourceType(rawConfig).value in factories
      ensures r.Ok? ==> r.value == Delegation(factories[DetectSourceType(rawConfig).value], rawConfig)
    {
      var detected := DetectSourceType(rawConfig);
      if detected.Err? {
        return Err(detected.error);
      }
      var found := Lookup(factories, detected.value);
      if found.Err? {
        UnknownPrefix(detected.value, factories.Keys, found.error);
        return Err(found.error);
      }
      return Ok(Delegation(found.value, rawConfig));
    }
  }

  lemma UnknownPrefix(sourceType: string, keys: set<string>, msg: string)
    requires exists ts :: ListsKeys(ts, keys) && msg == UnknownTypeMessage(sourceType, ts)
    ensures HasPrefix(msg, "unknown source type: " + sourceType)
  {
    var ts :| ListsKeys(ts, keys) && msg == UnknownTypeMessage(sourceType, ts);
    var p := "unknown source type: " + sourceType;
    assert msg == p + (" (available types: " + FormatList(ts) + ")");
  }

  /** `composite.Registry`: dispatch on `type` of the source section itself. */
  class CompositeRegistry {
    var factories: map<string, Factory>

    /** `NewFactory`: empty. */
    constructor ()
      ensures factories == map[]
    {
      factories := map[];
    }

    /** `Register`: keyed by the factory's type, replacing an earlier one. */
    method Register(factory: Factory)
      modifies this
      ensures factories == old(factories)[factory.kind := factory]
    {
      factories := factories[factory.kind := factory];
    }

    /** `Type`: always "composite". */
    function Type(): (t: string)
      ensures t == "composite"
    {
      "composite"
    }

    method Get(sourceType: string) returns (r: Result<Factory>)
      ensures sourceType in factories ==> r == Ok(factories[sourceType])
      ensures sourceType !in factories ==>
                r.Err? && exists ts :: ListsKeys(ts, factories.Keys) && r.error == UnknownTypeMessage(sourceType, ts)
    {
      r := Lookup(factories, sourceType);
    }

    /** `CreateSource` on a source section: detect `type`, look it up, delegate with the same section. */
    method CreateSource(rawSection: JsonText) returns (r: Result<Delegation>)
      ensures DetectSectionType(rawSection).Err? ==> r == Err(DetectSectionType(rawSection).error)
      ensures DetectSectionType(rawSection).Ok? && DetectSectionType(rawSection).value !in factories ==>
                r.Err? && HasPrefix(r.error, "unknown source type: " + DetectSectionType(rawSection).value)
      ensures r.Ok? <==> DetectSectionType(rawSection).Ok? && DetectSectionType(rawSection).value in factories
      ensures r.Ok? ==> r.value == Delegation(factories[DetectSectionType(rawSection).value], rawSection)
    {
      var detected := DetectSectionType(rawSection);
      if detected.Err? {
        return Err(detected.error);
      }
      var found := Lookup(factories, detected.value);
      if found.Err? {
        UnknownPrefix(detected.value, factories.Keys, found.error);
        return Err(found.error);
      }
      return Ok(Delegation(found.value, rawSection));
    }
  }
}
