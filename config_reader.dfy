// The config-reader controller: a component that copies keys out of
// ConfigMaps into its handler status, and the watch that re-reconciles
// every config-reader component naming a ConfigMap when it changes.
// ConfigMap reads and the component listing enter as functions of their
// arguments.
module ConfigReader {
  import opened Wrappers
  import opened Strings
  import opened Json
  import opened OperationResults

  /** `ExportMapping`: a ConfigMap key and the optional name to export it as. */
  datatype ExportMapping = ExportMapping(key: string, asName: string)

  /** `ConfigMapSource`: one ConfigMap and the keys taken from it. */
  datatype ConfigMapSource = ConfigMapSource(name: string, namespace: string, exports: seq<ExportMapping>)

  /** `ConfigReaderConfig`. */
  datatype ConfigReaderConfig = ConfigReaderConfig(sources: seq<ConfigMapSource>)

  /** `ConfigReaderStatus`: exported name to value. */
  type ConfigReaderStatus = map<string, string>

  // ---------------------------------------------------------------------
  // Decoding and validation

  function DecodeExport(m: map<string, Json>): Result<ExportMapping>
  {
    var key :- StringField(m, "key");
    var asName :- StringField(m, "as");
    Ok(ExportMapping(key, asName))
  }

  function DecodeSource(m: map<string, Json>): Result<ConfigMapSource>
  {
    var name :- StringField(m, "name");
    var namespace :- StringField(m, "namespace");
    var items :- ObjectListField(m, "exports");
    var exports :- DecodeEach(items, DecodeExport);
    Ok(ConfigMapSource(name, namespace, exports))
  }

  /** `json.Unmarshal` of a component's config into `ConfigReaderConfig`. */
  function DecodeConfig(raw: JsonText): Result<ConfigReaderConfig>
  {
    var m :- DecodeObject(raw);
    var items :- ObjectListField(m, "sources");
    var sources :- DecodeEach(items, DecodeSource);
    Ok(ConfigReaderConfig(sources))
  }

  /** An omitted `as` decodes as the empty name. */
  lemma OmittedAsIsEmpty(key: string)
    ensures DecodeExport(map["key" := JStr(key)]) == Ok(ExportMapping(key, ""))
  {
  }

  predicate ValidSource(s: ConfigMapSource)
  {
    s.name != "" && s.namespace != "" && |s.exports| >= 1 && forall j :: 0 <= j < |s.exports| ==> s.exports[j].key != ""
  }

  /** The struct-tag rules: at least one source, each named, namespaced and exporting at least one named key. */
  predicate ValidConfig(c: ConfigReaderConfig)
  {
    |c.sources| >= 1 && forall i :: 0 <= i < |c.sources| ==> ValidSource(c.sources[i])
  }

  function FirstEmptyKey(exports: seq<ExportMapping>): (j: nat)
    requires exists j :: 0 <= j < |exports| && exports[j].key == ""
    ensures j < |exports| && exports[j].key == "" && forall k :: 0 <= k < j ==> exports[k].key != ""
  {
    if exports[0].key == "" then 0
    else
      assert exists j :: 0 <= j < |exports[1..]| && exports[1..][j].key == "" by {
        var j :| 0 <= j < |exports| && exports[j].key == "";
        assert exports[1..][j - 1] == exports[j];
      }
      1 + FirstEmptyKey(exports[1..])
  }

  function FirstInvalidSource(sources: seq<ConfigMapSource>): (i: nat)
    requires exists i :: 0 <= i < |sources| && !ValidSource(sources[i])
    ensures i < |sources| && !ValidSource(sources[i]) && forall k :: 0 <= k < i ==> ValidSource(sources[k])
  {
    if !ValidSource(sources[0]) then 0
    else
      assert exists i :: 0 <= i < |sources[1..]| && !ValidSource(sources[1..][i]) by {
        var i :| 0 <= i < |sources| && !ValidSource(sources[i]);
        assert sources[1..][i - 1] == sources[i];
      }
      1 + FirstInvalidSource(sources[1..])
  }

  /** The first field, in declaration order, that breaks a rule. */
  function Violation(c: ConfigReaderConfig): string
    requires !ValidConfig(c)
  {
    if |c.sources| == 0 then "ConfigReaderConfig.Sources: min=1"
    else
      var i := FirstInvalidSource(c.sources);
      var s := c.sources[i];
      var path := "ConfigReaderConfig.Sources[" + IntToString(i) + "]";
      if s.name == "" then path + ".Name: required"
      else if s.namespace == "" then path + ".Namespace: required"
      else if |s.exports| == 0 then path + ".Exports: min=1"
      else path + ".Exports[" + IntToString(FirstEmptyKey(s.exports)) + "].Key: required"
  }

  /** `resolveConfigReaderConfig`: decode, then validate; the configuration itself is not changed. */
  function ResolveConfigReaderConfig(raw: JsonText): (r: Result<ConfigReaderConfig>)
    ensures DecodeConfig(raw).Err? ==> r == Err("failed to parse config-reader config: " + DecodeConfig(raw).error)
    ensures DecodeConfig(raw).Ok? && !ValidConfig(DecodeConfig(raw).value) ==>
      r == Err("config-reader config validation failed: " + Violation(DecodeConfig(raw).value))
    ensures r.Ok? <==> DecodeConfig(raw).Ok? && ValidConfig(DecodeConfig(raw).value)
    ensures r.Ok? ==> r.value == DecodeConfig(raw).value
  {
    match DecodeConfig(raw)
    case Err(e) => Err("failed to parse config-reader config: " + e)
    case Ok(c) => if !ValidConfig(c) then Err("config-reader config validation failed: " + Violation(c)) else Ok(c)
  }

  /** `resolveConfigReaderStatus`: no status is an empty map; otherwise a JSON object of strings. */
  function ResolveConfigReaderStatus(raw: JsonText): (r: Result<ConfigReaderStatus>)
    ensures raw.text == "" ==> r == Ok(map[])
    ensures raw.text != "" && raw.decoded == Some(JNull) ==> r == Ok(map[])
    ensures raw.text != "" && raw.decoded.Some? && raw.decoded.value.JObj? && r.Ok? ==>
      r.value.Keys == raw.decoded.value.fields.Keys
    ensures raw.text != "" && raw.decoded.None? ==> r.Err?
  {
    if raw.text == "" then Ok(map[])
    else
      match raw.decoded
      case None => Err("failed to parse config-reader status: invalid character in JSON input")
      case Some(j) =>
        match StringMapField(map["status" := j], "status")
        case Err(e) => Err("failed to parse config-reader status: " + e)
        case Ok(m) => Ok(m)
  }

  // ---------------------------------------------------------------------
  // Deploy: the export fold

  /** The name a value is exported under: `as` when given, otherwise the key. */
  function OutputKey(e: ExportMapping): (k: string)
    ensures e.asName != "" ==> k == e.asName
    ensures e.asName == "" ==> k == e.key
  {
    if e.asName != "" then e.asName else e.key
  }

  /** `%q` of a string, without escaping. */
  function Quote(s: string): string
  {
    "\"" + s + "\""
  }

  function SourcePath(src: ConfigMapSource): string
  {
    src.namespace + "/" + src.name
  }

  /** The missing-key error, listing the keys the ConfigMap does have, sorted and joined by ", ". */
  ghost function MissingKeyError(key: string, src: ConfigMapSource, data: map<string, string>): string
  {
    "key " + Quote(key) + " not found in ConfigMap " + SourcePath(src) + " (available keys: " +
      JoinWith(SortedOf(data.Keys), ", ") + ")"
  }

  /** The status exported so far, and the error that stopped the fold, if any. */
  datatype ReadOutcome = ReadOutcome(status: ConfigReaderStatus, error: Option<string>)

  /** Exporting `exports` from one ConfigMap's data into `s`, stopping at the first missing key. */
  ghost function ExportKeys(s: ConfigReaderStatus, src: ConfigMapSource, exports: seq<ExportMapping>,
                            data: map<string, string>): ReadOutcome
    decreases |exports|
  {
    if |exports| == 0 then ReadOutcome(s, None)
    else if exports[0].key !in data then ReadOutcome(s, Some(MissingKeyError(exports[0].key, src, data)))
    else ExportKeys(s[OutputKey(exports[0]) := data[exports[0].key]], src, exports[1..], data)
  }

  /** Reading `sources` in order into `s`, stopping at the first unreadable ConfigMap or missing key. */
  ghost function ReadSources(s: ConfigReaderStatus, sources: seq<ConfigMapSource>,
                             read: (string, string) -> Result<map<string, string>>): ReadOutcome
    decreases |sources|
  {
    if |sources| == 0 then ReadOutcome(s, None)
    else
      match read(sources[0].namespace, sources[0].name)
      case Err(e) => ReadOutcome(s, Some("failed to read ConfigMap " + SourcePath(sources[0]) + ": " + e))
      case Ok(data) =>
        var r := ExportKeys(s, sources[0], sources[0].exports, data);
        if r.error.Some? then r else ReadSources(r.status, sources[1..], read)
  }

  /** Every output name of `exports`. */
  function ExportNames(exports: seq<ExportMapping>): set<string>
  {
    set j | 0 <= j < |exports| :: OutputKey(exports[j])
  }

  function OutputNames(sources: seq<ConfigMapSource>): set<string>
    decreases |sources|
  {
    if |sources| == 0 then {} else ExportNames(sources[0].exports) + OutputNames(sources[1..])
  }

  lemma {:induction false} ExportKeysNames(s: ConfigReaderStatus, src: ConfigMapSource, exports: seq<ExportMapping>,
                                           data: map<string, string>)
    requires ExportKeys(s, src, exports, data).error.None?
    ensures ExportKeys(s, src, exports, data).status.Keys == s.Keys + ExportNames(exports)
    decreases |exports|
  {
    if |exports| > 0 {
      var s' := s[OutputKey(exports[0]) := data[exports[0].key]];
      ExportKeysNames(s', src, exports[1..], data);
      assert ExportNames(exports) == {OutputKey(exports[0])} + ExportNames(exports[1..]) by {
        forall x | x in ExportNames(exports) ensures x in {OutputKey(exports[0])} + ExportNames(exports[1..]) {
          var j :| 0 <= j < |exports| && OutputKey(exports[j]) == x;
          if j > 0 { assert exports[1..][j - 1] == exports[j]; }
        }
        forall x | x in ExportNames(exports[1..]) ensures x in ExportNames(exports) {
          var j :| 0 <= j < |exports[1..]| && OutputKey(exports[1..][j]) == x;
          assert exports[j + 1] == exports[1..][j];
        }
      }
    } else {
      assert ExportNames(exports) == {};
    }
  }

  /** A complete read exports exactly the output names of all sources, on top of the starting status. */
  lemma {:induction false} ReadSourcesNames(s: ConfigReaderStatus, sources: seq<ConfigMapSource>,
                                            read: (string, string) -> Result<map<string, string>>)
    requires ReadSources(s, sources, read).error.None?
    ensures ReadSources(s, sources, read).status.Keys == s.Keys + OutputNames(sources)
    decreases |sources|
  {
    if |sources| > 0 {
      var data := read(sources[0].namespace, sources[0].name).value;
      var r := ExportKeys(s, sources[0], sources[0].exports, data);
      ExportKeysNames(s, sources[0], sources[0].exports, data);
      ReadSourcesNames(r.status, sources[1..], read);
    }
  }

  /** Of two exports to the same name, the later one's value is kept. */
  lemma LaterExportWins(s: ConfigReaderStatus, src: ConfigMapSource, e1: ExportMapping, e2: ExportMapping,
                        data: map<string, string>)
    requires e1.key in data && e2.key in data && OutputKey(e1) == OutputKey(e2)
    ensures ExportKeys(s, src, [e1, e2], data) == ReadOutcome(s[OutputKey(e2) := data[e2.key]], None)
  {
    var k := OutputKey(e2);
    assert [e1, e2][1..] == [e2];
    assert [e2][1..] == [];
    assert ExportKeys(s, src, [e1, e2], data) == ExportKeys(s[k := data[e1.key]], src, [e2], data);
    assert ExportKeys(s[k := data[e1.key]], src, [e2], data) == ExportKeys(s[k := data[e1.key]][k := data[e2.key]], src, [], data);
    assert s[k := data[e1.key]][k := data[e2.key]] == s[k := data[e2.key]];
  }

  /** An export under a new name leaves the ConfigMap key's own name unexported. */
  lemma RenamedExport(src: ConfigMapSource, key: string, asName: string, data: map<string, string>)
    requires key in data && asName != "" && asName != key
    ensures ExportKeys(map[], src, [ExportMapping(key, asName)], data) == ReadOutcome(map[asName := data[key]], None)
    ensures key !in ExportKeys(map[], src, [ExportMapping(key, asName)], data).status
  {
    assert [ExportMapping(key, asName)][1..] == [];
  }

  /** Three exports with distinct names give a status of three entries. */
  lemma ThreeExportsThreeEntries(src: ConfigMapSource, a: string, b: string, c: string, data: map<string, string>)
    requires a in data && b in data && c in data && a != b && b != c && a != c
    ensures |ExportKeys(map[], src, [ExportMapping(a, ""), ExportMapping(b, ""), ExportMapping(c, "")], data).status| == 3
  {
    var exports := [ExportMapping(a, ""), ExportMapping(b, ""), ExportMapping(c, "")];
    assert exports[1..] == [ExportMapping(b, ""), ExportMapping(c, "")];
    assert exports[1..][1..] == [ExportMapping(c, "")];
    assert exports[1..][1..][1..] == [];
    var r := map[a := data[a], b := data[b], c := data[c]];
    assert ExportKeys(map[], src, exports, data) == ExportKeys(map[a := data[a]], src, exports[1..], data);
    assert ExportKeys(map[a := data[a]], src, exports[1..], data) ==
           ExportKeys(map[a := data[a], b := data[b]], src, exports[1..][1..], data);
    assert ExportKeys(map[a := data[a], b := data[b]], src, exports[1..][1..], data) ==
           ExportKeys(r, src, exports[1..][1..][1..], data);
    assert ExportKeys(map[], src, exports, data).status == r;
    assert r.Keys == {a, b, c};
  }

  /** The config-reader operations: the resolved configuration and the status `Deploy` rebuilds. */
  class ConfigReaderOperations {
    const config: ConfigReaderConfig
    var status: ConfigReaderStatus

    constructor (config: ConfigReaderConfig, status: ConfigReaderStatus)
      ensures this.config == config && this.status == status
    {
      this.config := config;
      this.status := status;
    }

    /**
     * `Deploy`: start from an empty status and export every configured
     * key of every source in order; a failure is reported with the
     * exports made so far.
     */
    method Deploy(read: (string, string) -> Result<map<string, string>>) returns (result: ActionResult)
      modifies this
      ensures status == ReadSources(map[], config.sources, read).status
      ensures ReadSources(map[], config.sources, read).error.None? ==> result == ActionSuccess("")
      ensures ReadSources(map[], config.sources, read).error.Some? ==>
        result == ActionError(ReadSources(map[], config.sources, read).error.value)
    {
      status := map[];
      var i := 0;
      while i < |config.sources|
        invariant 0 <= i <= |config.sources|
        invariant ReadSources(status, config.sources[i..], read) == ReadSources(map[], config.sources, read)
      {
        var source := config.sources[i];
        assert config.sources[i..][1..] == config.sources[i + 1..];
        var data := read(source.namespace, source.name);
        if data.Err? {
          return ActionError("failed to read ConfigMap " + source.namespace + "/" + source.name + ": " + data.error);
        }
        ghost var before := status;
        var j := 0;
        while j < |source.exports|
          invariant 0 <= j <= |source.exports|
          invariant ExportKeys(status, source, source.exports[j..], data.value) ==
                    ExportKeys(before, source, source.exports, data.value)
        {
          var mapping := source.exports[j];
          assert source.exports[j..][1..] == source.exports[j + 1..];
          if mapping.key !in data.value {
            var keys := SortedKeys(data.value.Keys);
            return ActionError("key " + Quote(mapping.key) + " not found in ConfigMap " + source.namespace + "/" +
                               source.name + " (available keys: " + JoinWith(keys, ", ") + ")");
          }
          var outputKey := mapping.key;
          if mapping.asName != "" {
            outputKey := mapping.asName;
          }
          status := status[outputKey := data.value[mapping.key]];
          j := j + 1;
        }
        i := i + 1;
      }
      return ActionSuccess("");
    }

    /** `CheckDeployment`: reading is synchronous, so a deployment is always complete. */
    method CheckDeployment() returns (result: CheckResult)
      ensures result.CheckComplete?
    {
      return CheckComplete("");
    }
  }

  /** `Deploy` forgets the previous status: what it leaves depends only on the configuration and the reads. */
  lemma DeployIgnoresPreviousStatus(c: ConfigReaderConfig, read: (string, string) -> Result<map<string, string>>)
    requires ReadSources(map[], c.sources, read).error.None?
    ensures ReadSources(map[], c.sources, read).status.Keys == OutputNames(c.sources)
  {
    ReadSourcesNames(map[], c.sources, read);
  }

  /** An unreadable first ConfigMap fails with the read error and exports nothing. */
  lemma UnreadableConfigMap(c: ConfigReaderConfig, read: (string, string) -> Result<map<string, string>>)
    requires |c.sources| > 0 && read(c.sources[0].namespace, c.sources[0].name).Err?
    ensures ReadSources(map[], c.sources, read) ==
      ReadOutcome(map[], Some("failed to read ConfigMap " + SourcePath(c.sources[0]) + ": " +
                              read(c.sources[0].namespace, c.sources[0].name).error))
  {
  }

  // ---------------------------------------------------------------------
  // The ConfigMap watch

  /** A component as listed: its key and its raw configuration. */
  datatype Component = Component(namespace: string, name: string, config: JsonText)

  /** `reconcile.Request`. */
  datatype Request = Request(namespace: string, name: string)

  /** The object a watch event carries. */
  datatype WatchedObject = ConfigMapObject(namespace: string, name: string) | OtherObject(kind: string)

  /** Whether a decoded configuration names the ConfigMap among its sources. */
  predicate Names(c: ConfigReaderConfig, namespace: string, name: string)
  {
    exists i :: 0 <= i < |c.sources| && c.sources[i].namespace == namespace && c.sources[i].name == name
  }

  /** The source scan of `componentReferencesConfigMap`: whether a decoded configuration names the ConfigMap. */
  method NamesConfigMap(c: ConfigReaderConfig, namespace: string, name: string) returns (b: bool)
    ensures b <==> Names(c, namespace, name)
  {
    var sources := c.sources;
    var i := 0;
    while i < |sources|
      invariant 0 <= i <= |sources|
      invariant forall k :: 0 <= k < i ==> !(sources[k].namespace == namespace && sources[k].name == name)
    {
      if sources[i].namespace == namespace && sources[i].name == name {
        return true;
      }
      i := i + 1;
    }
    return false;
  }

  /**
   * `componentReferencesConfigMap`: a configuration that does not decode
   * references nothing; otherwise the sources are scanned for the ConfigMap.
   */
  method ComponentReferencesConfigMap(component: Component, namespace: string, name: string) returns (b: bool)
    ensures b <==> DecodeConfig(component.config).Ok? && Names(DecodeConfig(component.config).value, namespace, name)
  {
    var decoded := DecodeConfig(component.config);
    if decoded.Err? {
      return false;
    }
    b := NamesConfigMap(decoded.value, namespace, name);
  }

  /** Whether a component's configuration decodes and names the ConfigMap. */
  predicate References(c: Component, namespace: string, name: string)
  {
    DecodeConfig(c.config).Ok? && Names(DecodeConfig(c.config).value, namespace, name)
  }

  /** The requests for the components, in list order, that reference the ConfigMap. */
  function Referencing(components: seq<Component>, namespace: string, name: string): seq<Request>
    decreases |components|
  {
    if |components| == 0 then []
    else
      var rest := Referencing(components[..|components| - 1], namespace, name);
      var c := components[|components| - 1];
      if References(c, namespace, name) then rest + [Request(c.namespace, c.name)]
      else rest
  }

  /** The positions of the referencing components, in list order. */
  ghost function ReferencingPositions(components: seq<Component>, namespace: string, name: string): seq<nat>
    decreases |components|
  {
    if |components| == 0 then []
    else
      var rest := ReferencingPositions(components[..|components| - 1], namespace, name);
      if References(components[|components| - 1], namespace, name) then rest + [|components| - 1] else rest
  }

  /** Whether `ks` lists, in increasing order, exactly the positions of the referencing components. */
  ghost predicate EnumeratesReferencing(ks: seq<nat>, components: seq<Component>, namespace: string, name: string)
  {
    && (forall i :: 0 <= i < |ks| ==> ks[i] < |components| && References(components[ks[i]], namespace, name))
    && (forall i, j :: 0 <= i < j < |ks| ==> ks[i] < ks[j])
    && (forall k :: 0 <= k < |components| && References(components[k], namespace, name) ==> k in ks)
  }

  /** Each listed position is a referencing component's, and the positions increase. */
  lemma {:induction false} PositionsSound(components: seq<Component>, namespace: string, name: string)
    ensures forall i :: 0 <= i < |ReferencingPositions(components, namespace, name)| ==>
      ReferencingPositions(components, namespace, name)[i] < |components|
    ensures forall i :: 0 <= i < |ReferencingPositions(components, namespace, name)| ==>
      References(components[ReferencingPositions(components, namespace, name)[i]], namespace, name)
    ensures forall i, j :: 0 <= i < j < |ReferencingPositions(components, namespace, name)| ==>
      ReferencingPositions(components, namespace, name)[i] < ReferencingPositions(components, namespace, name)[j]
    decreases |components|
  {
    if |components| > 0 {
      var init := components[..|components| - 1];
      PositionsSound(init, namespace, name);
      var ks0 := ReferencingPositions(init, namespace, name);
      assert forall i :: 0 <= i < |ks0| ==> ks0[i] < |init|;
      assert forall i :: 0 <= i < |ks0| ==> components[ks0[i]] == init[ks0[i]];
      var ks := ReferencingPositions(components, namespace, name);
      assert ks == ks0 || ks == ks0 + [|components| - 1];
    }
  }

  /** Every referencing component's position is listed. */
  lemma {:induction false} PositionsComplete(components: seq<Component>, namespace: string, name: string)
    ensures forall k :: 0 <= k < |components| && References(components[k], namespace, name) ==>
      k in ReferencingPositions(components, namespace, name)
    decreases |components|
  {
    if |components| > 0 {
      var last := |components| - 1;
      var init := components[..last];
      PositionsComplete(init, namespace, name);
      forall k | 0 <= k < |components| && References(components[k], namespace, name)
        ensures k in ReferencingPositions(components, namespace, name)
      {
        if k < last {
          assert components[k] == init[k];
        }
      }
    }
  }

  /** The i-th request is that of the component at the i-th listed position. */
  lemma {:induction false} RequestsAtPositions(components: seq<Component>, namespace: string, name: string)
    ensures |Referencing(components, namespace, name)| == |ReferencingPositions(components, namespace, name)|
    ensures forall i :: 0 <= i < |ReferencingPositions(components, namespace, name)| ==>
      var k := ReferencingPositions(components, namespace, name)[i];
      k < |components| && Referencing(components, namespace, name)[i] == Request(components[k].namespace, components[k].name)
    decreases |components|
  {
    if |components| > 0 {
      var init := components[..|components| - 1];
      RequestsAtPositions(init, namespace, name);
      var ks0 := ReferencingPositions(init, namespace, name);
      assert forall i :: 0 <= i < |ks0| ==> ks0[i] < |init|;
      assert forall i :: 0 <= i < |ks0| ==> components[ks0[i]] == init[ks0[i]];
    }
  }

  /**
   * The requests are the referencing components' requests, one per
   * component and in list order: the i-th request is that of the i-th
   * referencing component.
   */
  lemma ReferencingInOrder(components: seq<Component>, namespace: string, name: string)
    ensures var ks := ReferencingPositions(components, namespace, name);
      var rs := Referencing(components, namespace, name);
      EnumeratesReferencing(ks, components, namespace, name) && |rs| == |ks| &&
      forall i :: 0 <= i < |ks| ==> rs[i] == Request(components[ks[i]].namespace, components[ks[i]].name)
  {
    PositionsSound(components, namespace, name);
    PositionsComplete(components, namespace, name);
    RequestsAtPositions(components, namespace, name);
  }

  /**
   * There are no more requests than components, and a request is present
   * exactly when some referencing component has its namespace and name.
   * Their order is stated by `ReferencingInOrder`.
   */
  lemma {:induction false} ReferencingMeaning(components: seq<Component>, namespace: string, name: string)
    ensures |Referencing(components, namespace, name)| <= |components|
    ensures forall r :: r in Referencing(components, namespace, name) <==>
      exists k :: 0 <= k < |components| && References(components[k], namespace, name) &&
                  r == Request(components[k].namespace, components[k].name)
    decreases |components|
  {
    if |components| > 0 {
      var init := components[..|components| - 1];
      ReferencingMeaning(init, namespace, name);
      forall r | r in Referencing(components, namespace, name)
        ensures exists k :: 0 <= k < |components| && References(components[k], namespace, name) &&
                            r == Request(components[k].namespace, components[k].name)
      {
        if r in Referencing(init, namespace, name) {
          var k :| 0 <= k < |init| && References(init[k], namespace, name) && r == Request(init[k].namespace, init[k].name);
          assert components[k] == init[k];
        }
      }
      forall k | 0 <= k < |components| && References(components[k], namespace, name)
        ensures Request(components[k].namespace, components[k].name) in Referencing(components, namespace, name)
      {
        if k < |init| {
          assert components[k] == init[k];
        }
      }
    }
  }

  /** `mapConfigMapToComponents`: one request per referencing component; none for other objects or a failed listing. */
  method MapConfigMapToComponents(obj: WatchedObject, listed: Result<seq<Component>>) returns (requests: seq<Request>)
    ensures obj.OtherObject? || listed.Err? ==> requests == []
    ensures obj.ConfigMapObject? && listed.Ok? ==> requests == Referencing(listed.value, obj.namespace, obj.name)
  {
    if obj.OtherObject? {
      return [];
    }
    if listed.Err? {
      return [];
    }
    var components := listed.value;
    requests := [];
    var i := 0;
    while i < |components|
      invariant 0 <= i <= |components|
      invariant requests == Referencing(components[..i], obj.namespace, obj.name)
    {
      assert components[..i + 1][..i] == components[..i];
      var references := ComponentReferencesConfigMap(components[i], obj.namespace, obj.name);
      if references {
        requests := requests + [Request(components[i].namespace, components[i].name)];
      }
      i := i + 1;
    }
    assert components[..|components|] == components;
  }

  /** A component whose configuration does not decode is never re-reconciled by the watch. */
  lemma InvalidConfigNotMapped(c: Component, namespace: string, name: string)
    requires c.config.decoded.None?
    ensures Referencing([c], namespace, name) == []
  {
  }
}
