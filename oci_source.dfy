// The OCI chart source of the plugin architecture: a long-lived object that
// is configured per reconciliation by `ParseAndValidate` and then locates the
// chart with the stored configuration.
module OciSource {
  import opened Wrappers
  import opened Strings
  import opened Json
  import opened OciReference
  import opened OciChart

  const SourceType := "oci"

  datatype AuthenticationConfig = AuthenticationConfig(authMethod: string, secretRef: SecretRef)

  /** The `source` section of an OCI helm component. */
  datatype OciConfig = OciConfig(chart: string, authentication: Option<AuthenticationConfig>)

  /** Decoding the `source` section into `Config`. */
  function DecodeOciConfig(j: Json): (r: Result<OciConfig>)
    ensures r.Ok? ==> ObjectOf(j).Ok? && StringField(ObjectOf(j).value, "chart") == Ok(r.value.chart)
  {
    var m :- ObjectOf(j);
    var chart :- StringField(m, "chart");
    var auth :- OptionalObjectField(m, "authentication");
    match auth
    case None => Ok(OciConfig(chart, None))
    case Some(a) =>
      var authMethod :- StringField(a, "method");
      var secret :- ObjectField(a, "secretRef");
      var name :- StringField(secret, "name");
      var namespace :- StringField(secret, "namespace");
      Ok(OciConfig(chart, Some(AuthenticationConfig(authMethod, SecretRef(name, namespace)))))
  }

  /**
   * The struct-tag rules of `Config`: the chart is a valid OCI reference
   * (which makes it non-empty) and, when authentication is given, its method
   * is "registry" and the secret has a name and a namespace.
   */
  predicate ValidOciConfig(c: OciConfig)
  {
    c.chart != "" && ValidOciReference(c.chart) &&
    (c.authentication.Some? ==>
       c.authentication.value.authMethod == "registry" &&
       c.authentication.value.secretRef.name != "" &&
       c.authentication.value.secretRef.namespace != "")
  }

  /** The first rule a configuration breaks, named by field and rule. */
  function Violation(c: OciConfig): (v: string)
    requires !ValidOciConfig(c)
  {
    if c.chart == "" then "Config.Chart: required"
    else if !ValidOciReference(c.chart) then "Config.Chart: oci_reference"
    else if c.authentication.value.authMethod == "" then "Config.Authentication.Method: required"
    else if c.authentication.value.authMethod != "registry" then "Config.Authentication.Method: eq"
    else if c.authentication.value.secretRef.name == "" then "Config.Authentication.SecretRef.Name: required"
    else "Config.Authentication.SecretRef.Namespace: required"
  }

  const ErrNoSource := "source field is required"

  /** The checks of `ParseAndValidate`, in order, ending in the configuration it stores. */
  function ParseSourceConfig(raw: JsonText): (r: Result<OciConfig>)
    ensures r.Ok? ==> ValidOciConfig(r.value)
  {
    match DecodeObject(raw)
    case Err(e) => Err("failed to parse config: " + e)
    case Ok(m) =>
      if "source" !in m then Err(ErrNoSource)
      else match DecodeOciConfig(m["source"])
        case Err(e) => Err("failed to parse OCI source configuration: " + e)
        case Ok(c) =>
          if !ValidOciConfig(c) then Err("OCI source validation failed: " + Violation(c))
          else Ok(c)
  }

  /** A configuration without a `source` key fails with "source field is required". */
  lemma MissingSourceRejected(raw: JsonText)
    requires raw.decoded.Some? && raw.decoded.value.JObj? && "source" !in raw.decoded.value.fields
    ensures ParseSourceConfig(raw) == Err(ErrNoSource)
  {
  }

  /** A stored configuration is exactly the decoded `source` section, and it passed the rules. */
  lemma ParseSourceConfigMeaning(raw: JsonText)
    ensures ParseSourceConfig(raw).Ok? <==>
      DecodeObject(raw).Ok? && "source" in DecodeObject(raw).value &&
      DecodeOciConfig(DecodeObject(raw).value["source"]).Ok? &&
      ValidOciConfig(DecodeOciConfig(DecodeObject(raw).value["source"]).value)
    ensures ParseSourceConfig(raw).Ok? ==>
      ParseSourceConfig(raw).value == DecodeOciConfig(DecodeObject(raw).value["source"]).value
  {
  }

  const ErrNotParsed := "ParseAndValidate must be called before LocateChart"

  /** `Source`: the configuration of the last successful `ParseAndValidate`, if any. */
  class Source {
    var config: Option<OciConfig>

    /** `NewSource`: no configuration yet. */
    constructor ()
      ensures config.None?
    {
      config := None;
    }

    /** `Type`: the registry key of this source. */
    function Type(): (t: string)
      ensures t == SourceType
    {
      "oci"
    }

    /**
     * `ParseAndValidate`: the configuration is stored only after every check
     * passed, so a failed call leaves the previous one in place.
     */
    method ParseAndValidate(raw: JsonText) returns (err: Option<string>)
      modifies this
      ensures ParseSourceConfig(raw).Ok? ==> err.None? && config == Some(ParseSourceConfig(raw).value)
      ensures ParseSourceConfig(raw).Err? ==> err == Some(ParseSourceConfig(raw).error) && config == old(config)
    {
      var parsed := ParseSourceConfig(raw);
      if parsed.Err? {
        return Some(parsed.error);
      }
      config := Some(parsed.value);
      return None;
    }

    /**
     * `LocateChart`: refuses to run before a configuration was stored; then
     * fetches the configured chart, authenticating when the configuration
     * names a secret, and returns the downloaded path.
     */
    function LocateChart(env: RegistryEnv): (t: PullTrace)
      reads this
      ensures config.None? ==> t == PullTrace(None, Err(ErrNotParsed))
      ensures config.Some? && config.value.authentication.None? ==> t.login.None?
      ensures t.result.Ok? ==> config.Some? && t.result == env.pull
    {
      match config
      case None => PullTrace(None, Err(ErrNotParsed))
      case Some(c) =>
        var secret := if c.authentication.Some? then Some(c.authentication.value.secretRef) else None;
        FetchChart(c.chart, secret, env)
    }

    /** `GetVersion`: the version of the configured reference, "" when there is none. */
    function GetVersion(): (v: string)
      reads this
      ensures config.None? ==> v == ""
      ensures config.Some? && ParseOciReference(config.value.chart).Err? ==> v == ""
      ensures config.Some? && ParseOciReference(config.value.chart).Ok? ==>
                v == ParseOciReference(config.value.chart).value.version
      ensures ':' !in v
    {
      match config
      case None => ""
      case Some(c) =>
        match ParseOciReference(c.chart)
        case Err(_) => ""
        case Ok(o) =>
          ParseRoundTrip(c.chart);
          o.version
    }
  }

  /** A source configured with a well-formed reference reports that reference's version. */
  lemma GetVersionOfReference(s: Source, o: OciRef, auth: Option<AuthenticationConfig>)
    requires '/' !in o.registry && ':' !in o.registry && ':' !in o.chartPath && ':' !in o.version
    requires s.config == Some(OciConfig(Render(o), auth))
    ensures s.GetVersion() == o.version
  {
    RenderParse(o);
  }
}
