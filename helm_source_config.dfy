// The polymorphic `source` configuration of a Helm component: the `type`
// field is read first, then the whole section is decoded and checked as an
// HTTP repository source or as an OCI registry source.
module HelmSourceConfig {
  import opened Wrappers
  import opened Json
  import opened OciReference
  import opened OciChart
  import opened OciSource
  import opened HelmReleaseConfig

  /** `HTTPSource` and `OCISource`, the two implementations of `SourceConfig`. */
  datatype SourceConfig =
    | HttpSource(sourceType: string, repository: HelmRepository, chart: HelmChart, hasAuthentication: bool)
    | OciSourceConfig(sourceType: string, reference: string, authentication: Option<AuthenticationConfig>)

  /** `GetType()` of either implementation. */
  function GetType(c: SourceConfig): string
  {
    c.sourceType
  }

  const ErrTypeRequired := "source type is required (must be 'http' or 'oci')"

  /** Stage one: only the `type` field. */
  function DetectType(raw: JsonText): (r: Result<string>)
    ensures r.Ok? <==> DecodeObject(raw).Ok? && StringField(DecodeObject(raw).value, "type").Ok?
  {
    var m :- DecodeObject(raw);
    StringField(m, "type")
  }

  function DecodeHttpSource(raw: JsonText): (r: Result<SourceConfig>)
    ensures r.Ok? ==> r.value.HttpSource?
  {
    var m :- DecodeObject(raw);
    var t :- StringField(m, "type");
    var repository :- ObjectField(m, "repository");
    var url :- StringField(repository, "url");
    var name :- StringField(repository, "name");
    var chart :- ObjectField(m, "chart");
    var chartName :- StringField(chart, "name");
    var version :- StringField(chart, "version");
    var auth :- OptionalObjectField(m, "authentication");
    Ok(HttpSource(t, HelmRepository(url, name), HelmChart(chartName, version), auth.Some?))
  }

  function DecodeOciSource(raw: JsonText): (r: Result<SourceConfig>)
    ensures r.Ok? ==> r.value.OciSourceConfig?
  {
    var m :- DecodeObject(raw);
    var t :- StringField(m, "type");
    var c :- DecodeOciConfig(JObj(m));
    Ok(OciSourceConfig(t, c.chart, c.authentication))
  }

  /** The struct-tag rules of the two source types. */
  predicate ValidSource(c: SourceConfig)
  {
    match c
    case HttpSource(t, repo, chart, _) =>
      t == "http" && IsUrl(repo.url) && repo.name != "" && chart.name != "" && chart.version != ""
    case OciSourceConfig(t, reference, auth) =>
      t == "oci" && ValidOciConfig(OciConfig(reference, auth))
  }

  /** The first rule a source breaks, by field and rule. */
  function SourceViolation(c: SourceConfig): string
    requires !ValidSource(c)
  {
    match c
    case HttpSource(t, repo, chart, _) =>
      if t != "http" then "HTTPSource.Type: eq"
      else if repo.url == "" then "HTTPSource.Repository.URL: required"
      else if !IsUrl(repo.url) then "HTTPSource.Repository.URL: url"
      else if repo.name == "" then "HTTPSource.Repository.Name: required"
      else if chart.name == "" then "HTTPSource.Chart.Name: required"
      else "HTTPSource.Chart.Version: required"
    case OciSourceConfig(t, reference, auth) =>
      if t != "oci" then "OCISource.Type: eq"
      else "OCISource." + OciSource.Violation(OciConfig(reference, auth))
  }

  /** `resolveSourceConfig`: detect the type, then decode and check the matching schema. */
  function ResolveSourceConfig(raw: JsonText): (r: Result<SourceConfig>)
    ensures r.Ok? ==> ValidSource(r.value)
  {
    match DetectType(raw)
    case Err(e) => Err("failed to detect source type: " + e)
    case Ok(t) =>
      if t == "" then Err(ErrTypeRequired)
      else if t == "http" then
        match DecodeHttpSource(raw)
        case Err(e) => Err("failed to parse HTTP source configuration: " + e)
        case Ok(c) =>
          if !ValidSource(c) then Err("HTTP source validation failed: " + SourceViolation(c)) else Ok(c)
      else if t == "oci" then
        match DecodeOciSource(raw)
        case Err(e) => Err("failed to parse OCI source configuration: " + e)
        case Ok(c) =>
          if !ValidSource(c) then Err("OCI source validation failed: " + SourceViolation(c)) else Ok(c)
      else Err("unsupported source type: " + t + " (must be 'http' or 'oci')")
  }

  /** An absent, null or empty `type` is rejected before any schema is tried. */
  lemma TypeRequired(raw: JsonText)
    requires DetectType(raw) == Ok("")
    ensures ResolveSourceConfig(raw) == Err(ErrTypeRequired)
  {
  }

  /**
   * On success the configuration's kind and `GetType()` agree with the
   * detected type: "http" gives an HTTP source, "oci" an OCI source.
   */
  lemma ResolvedTypeMatches(raw: JsonText)
    requires ResolveSourceConfig(raw).Ok?
    ensures DetectType(raw).Ok?
    ensures GetType(ResolveSourceConfig(raw).value) == DetectType(raw).value
    ensures ResolveSourceConfig(raw).value.HttpSource? <==> DetectType(raw).value == "http"
    ensures ResolveSourceConfig(raw).value.OciSourceConfig? <==> DetectType(raw).value == "oci"
  {
  }

  /** Any type other than "http" and "oci" is reported as unsupported. */
  lemma UnsupportedType(raw: JsonText, t: string)
    requires DetectType(raw) == Ok(t) && t != "" && t != "http" && t != "oci"
    ensures ResolveSourceConfig(raw) == Err("unsupported source type: " + t + " (must be 'http' or 'oci')")
  {
  }

  /** An OCI source whose authentication method is not "registry" never resolves. */
  lemma OciMethodMustBeRegistry(raw: JsonText)
    requires DetectType(raw) == Ok("oci") && DecodeOciSource(raw).Ok?
    requires DecodeOciSource(raw).value.authentication.Some?
    requires DecodeOciSource(raw).value.authentication.value.authMethod != "registry"
    ensures ResolveSourceConfig(raw).Err?
  {
  }

  /** A resolved OCI source carries a reference the validator accepts. */
  lemma OciReferenceValidated(raw: JsonText)
    requires ResolveSourceConfig(raw).Ok? && ResolveSourceConfig(raw).value.OciSourceConfig?
    ensures ValidOciReference(ResolveSourceConfig(raw).value.reference)
  {
  }
}
