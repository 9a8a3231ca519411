// The Helm operations' configuration: decoded from the component, checked
// against its validation rules, and completed with defaults for the
// timeouts and for namespace management.  Durations are whole seconds; the
// duration parser is a parameter.
module HelmReleaseConfig {
  import opened Wrappers
  import opened Json
  import opened Strings

  datatype HelmRepository = HelmRepository(url: string, name: string)
  datatype HelmChart = HelmChart(name: string, version: string)

  /** `HelmTimeouts`: each timeout may be absent. */
  datatype HelmTimeouts = HelmTimeouts(deployment: Option<nat>, deletion: Option<nat>)

  datatype HelmConfig = HelmConfig(
    releaseName: string,
    releaseNamespace: string,
    manageNamespace: Option<bool>,
    repository: HelmRepository,
    chart: HelmChart,
    values: map<string, Json>,
    timeouts: Option<HelmTimeouts>)

  /** Five minutes, the default for both timeouts. */
  const DefaultTimeout: nat := 300

  /** Reading a `*Duration` field: a JSON string handed to the duration parser. */
  function DurationField(m: map<string, Json>, key: string, parseDuration: string -> Result<nat>): (r: Result<Option<nat>>)
    ensures key !in m ==> r == Ok(None)
    ensures key in m && m[key].JStr? ==> (r.Ok? <==> parseDuration(m[key].s).Ok?)
  {
    if key !in m then Ok(None)
    else match m[key]
      case JNull => Ok(None)
      case JStr(s) =>
        var d :- parseDuration(s);
        Ok(Some(d))
      case _ => Err(TypeMismatch)
  }

  /** Unmarshalling the raw configuration into `HelmConfig`. */
  function DecodeHelmConfig(raw: JsonText, parseDuration: string -> Result<nat>): (r: Result<HelmConfig>)
    ensures r.Ok? ==> DecodeObject(raw).Ok?
  {
    var m :- DecodeObject(raw);
    var releaseName :- StringField(m, "releaseName");
    var releaseNamespace :- StringField(m, "releaseNamespace");
    var manageNamespace :- OptionalBoolField(m, "manageNamespace");
    var repository :- ObjectField(m, "repository");
    var url :- StringField(repository, "url");
    var name :- StringField(repository, "name");
    var chart :- ObjectField(m, "chart");
    var chartName :- StringField(chart, "name");
    var version :- StringField(chart, "version");
    var values :- ObjectField(m, "values");
    var timeouts :- OptionalObjectField(m, "timeouts");
    var t :- match timeouts
      case None => Ok(None)
      case Some(tm) =>
        (var deployment :- DurationField(tm, "deployment", parseDuration);
         var deletion :- DurationField(tm, "deletion", parseDuration);
         Ok(Some(HelmTimeouts(deployment, deletion))));
    Ok(HelmConfig(releaseName, releaseNamespace, manageNamespace, HelmRepository(url, name),
                  HelmChart(chartName, version), values, t))
  }

  predicate IsSchemeChar(c: char)
  {
    ('a' <= c <= 'z') || ('A' <= c <= 'Z') || ('0' <= c <= '9') || c == '+' || c == '-' || c == '.'
  }

  predicate IsLetter(c: char)
  {
    ('a' <= c <= 'z') || ('A' <= c <= 'Z')
  }

  /**
   * The `url` rule on the lower-cased text: a `file:/` URL, or one that
   * `url.Parse` reads with a scheme and whose host, fragment or opaque part
   * is not empty.
   */
  predicate IsUrl(s: string)
  {
    UrlShape(ToLower(s))
  }

  /** A scheme as `url.Parse` reads one: a letter, then scheme characters, ended by the first `:`. */
  predicate HasScheme(u: string)
  {
    var i := IndexOf(u, ':');
    1 <= i < |u| && IsLetter(u[0]) && forall k :: 0 <= k < i ==> IsSchemeChar(u[k])
  }

  /** The text after the scheme's `:`. */
  function AfterScheme(u: string): string
    requires HasScheme(u)
  {
    u[IndexOf(u, ':') + 1..]
  }

  /** The text before the query's `?`. */
  function BeforeQuery(r: string): string
  {
    r[..IndexOf(r, '?')]
  }

  /**
   * Whether what follows the scheme, without its query, gives a host (an
   * authority after `//`, whose host follows its last `@`) or an opaque part
   * (text not starting with `/`); a path starting with one `/` gives neither.
   */
  predicate HasHostOrOpaque(rest: string)
  {
    if HasPrefix(rest, "//") then
      var authority := rest[2..][..IndexOf(rest[2..], '/')];
      |authority| > 0 && authority[|authority| - 1] != '@'
    else rest != "" && rest[0] != '/'
  }

  /**
   * The rule on lower-cased text: a `file:/` URL is accepted; otherwise the
   * text before the first `#` must have a scheme, and the fragment after
   * the `#`, the host or the opaque part must be non-empty.
   */
  predicate UrlShape(s: string)
  {
    && |s| > 0
    && (|| HasPrefix(s, "file:/")
        || var h := IndexOf(s, '#');
           HasScheme(s[..h]) && (h < |s| - 1 || HasHostOrOpaque(BeforeQuery(AfterScheme(s[..h])))))
  }

  /** The struct-tag rules of `HelmConfig`. */
  predicate ValidHelmConfig(c: HelmConfig)
  {
    c.releaseName != "" && c.releaseNamespace != "" && IsUrl(c.repository.url) &&
    c.repository.name != "" && c.chart.name != "" && c.chart.version != ""
  }

  /** The first rule a configuration breaks, in field order. */
  function Violation(c: HelmConfig): string
    requires !ValidHelmConfig(c)
  {
    if c.releaseName == "" then "HelmConfig.ReleaseName: required"
    else if c.releaseNamespace == "" then "HelmConfig.ReleaseNamespace: required"
    else if c.repository.url == "" then "HelmConfig.Repository.URL: required"
    else if !IsUrl(c.repository.url) then "HelmConfig.Repository.URL: url"
    else if c.repository.name == "" then "HelmConfig.Repository.Name: required"
    else if c.chart.name == "" then "HelmConfig.Chart.Name: required"
    else "HelmConfig.Chart.Version: required"
  }

  /** The defaults `resolveHelmConfig` fills in, as a function of the validated configuration. */
  function Defaulted(c: HelmConfig): (d: HelmConfig)
  {
    var t := c.timeouts.UnwrapOr(HelmTimeouts(None, None));
    c.(timeouts := Some(HelmTimeouts(Some(t.deployment.UnwrapOr(DefaultTimeout)), Some(t.deletion.UnwrapOr(DefaultTimeout)))),
       manageNamespace := Some(c.manageNamespace.UnwrapOr(true)))
  }

  /** After defaulting every optional setting is present, explicit ones unchanged, missing ones defaulted. */
  lemma DefaultedMeaning(c: HelmConfig)
    ensures var d := Defaulted(c);
      d.timeouts.Some? && d.timeouts.value.deployment.Some? && d.timeouts.value.deletion.Some? &&
      d.manageNamespace.Some? &&
      (c.timeouts.Some? && c.timeouts.value.deployment.Some? ==> d.timeouts.value.deployment == c.timeouts.value.deployment) &&
      (c.timeouts.Some? && c.timeouts.value.deletion.Some? ==> d.timeouts.value.deletion == c.timeouts.value.deletion) &&
      (c.timeouts.None? || c.timeouts.value.deployment.None? ==> d.timeouts.value.deployment == Some(DefaultTimeout)) &&
      (c.timeouts.None? || c.timeouts.value.deletion.None? ==> d.timeouts.value.deletion == Some(DefaultTimeout)) &&
      (c.manageNamespace.Some? ==> d.manageNamespace == c.manageNamespace) &&
      (c.manageNamespace.None? ==> d.manageNamespace == Some(true)) &&
      d.(timeouts := c.timeouts, manageNamespace := c.manageNamespace) == c
  {
  }

  /** Defaulting again changes nothing. */
  lemma DefaultedIdempotent(c: HelmConfig)
    ensures Defaulted(Defaulted(c)) == Defaulted(c)
  {
  }

  /** Defaulting keeps the configuration valid. */
  lemma DefaultedValid(c: HelmConfig)
    requires ValidHelmConfig(c)
    ensures ValidHelmConfig(Defaulted(c))
  {
  }

  /** The configuration being completed, with its pointer fields filled in place. */
  class ConfigBuilder {
    var config: HelmConfig

    constructor (c: HelmConfig)
      ensures config == c
    {
      config := c;
    }

    /** The defaulting steps of `resolveHelmConfig`, one field at a time. */
    method ApplyDefaults()
      modifies this
      ensures config == Defaulted(old(config))
    {
      if config.timeouts.None? {
        config := config.(timeouts := Some(HelmTimeouts(None, None)));
      }
      if config.timeouts.value.deployment.None? {
        config := config.(timeouts := Some(config.timeouts.value.(deployment := Some(DefaultTimeout))));
      }
      if config.timeouts.value.deletion.None? {
        config := config.(timeouts := Some(config.timeouts.value.(deletion := Some(DefaultTimeout))));
      }
      if config.manageNamespace.None? {
        config := config.(manageNamespace := Some(true));
      }
    }
  }

  /**
   * `resolveHelmConfig`: decode, validate, then default.  A decoding error
   * and a rule violation are reported with their own prefixes.
   */
  method ResolveHelmConfig(raw: JsonText, parseDuration: string -> Result<nat>) returns (r: Result<HelmConfig>)
    ensures DecodeHelmConfig(raw, parseDuration).Err? ==>
              r == Err("failed to parse helm config: " + DecodeHelmConfig(raw, parseDuration).error)
    ensures DecodeHelmConfig(raw, parseDuration).Ok? && !ValidHelmConfig(DecodeHelmConfig(raw, parseDuration).value) ==>
              r == Err("helm config validation failed: " + Violation(DecodeHelmConfig(raw, parseDuration).value))
    ensures r.Ok? <==> DecodeHelmConfig(raw, parseDuration).Ok? && ValidHelmConfig(DecodeHelmConfig(raw, parseDuration).value)
    ensures r.Ok? ==> r.value == Defaulted(DecodeHelmConfig(raw, parseDuration).value) && ValidHelmConfig(r.value)
  {
    var decoded := DecodeHelmConfig(raw, parseDuration);
    if decoded.Err? {
      return Err("failed to parse helm config: " + decoded.error);
    }
    if !ValidHelmConfig(decoded.value) {
      return Err("helm config validation failed: " + Violation(decoded.value));
    }
    var builder := new ConfigBuilder(decoded.value);
    builder.ApplyDefaults();
    DefaultedValid(decoded.value);
    return Ok(builder.config);
  }

  /** An explicit `manageNamespace: false` survives defaulting. */
  lemma ExplicitFalseKept(c: HelmConfig)
    requires c.manageNamespace == Some(false)
    ensures Defaulted(c).manageNamespace == Some(false)
  {
  }

  /** Accepted and rejected repository URLs. */
  /** Text already in lower case is its own lower-casing. */
  lemma {:induction false} LowerCaseUnchanged(s: string)
    requires forall k :: 0 <= k < |s| ==> LowerChar(s[k]) == s[k]
    ensures ToLower(s) == s
  {
  }

  /** A scheme's text: a letter, then scheme characters. */
  predicate SchemeText(scheme: string)
  {
    |scheme| > 0 && IsLetter(scheme[0]) && forall k :: 0 <= k < |scheme| ==> IsSchemeChar(scheme[k])
  }

  /**
   * A scheme, `://` and a host free of `#`, `?`, `/` and `@` pass the rule
   * exactly when the host is not empty, or the scheme is `file`.
   */
  lemma HostRequired(scheme: string, host: string)
    requires SchemeText(scheme)
    requires forall k :: 0 <= k < |host| ==> host[k] != '#' && host[k] != '?' && host[k] != '/' && host[k] != '@'
    ensures UrlShape(scheme + "://" + host) <==> host != "" || scheme == "file"
  {
    var s := scheme + "://" + host;
    assert forall k :: 0 <= k < |scheme| ==> scheme[k] != '#' && scheme[k] != ':' && scheme[k] != '?';
    IndexOfAbsent(s, '#');
    assert s[..|s|] == s;
    assert s == scheme + ("://" + host);
    assert ("://" + host)[0] == ':';
    IndexOfAppend(scheme, "://" + host, ':');
    assert IndexOf(s, ':') == |scheme|;
    assert AfterScheme(s) == "//" + host;
    IndexOfAbsent("//" + host, '?');
    assert ("//" + host)[..|"//" + host|] == "//" + host;
    assert ("//" + host)[2..] == host;
    IndexOfAbsent(host, '/');
    assert host[..|host|] == host;
    FilePrefix(scheme, host);
  }

  /** Only the `file` scheme makes a `://` address start with `file:/`. */
  lemma FilePrefix(scheme: string, host: string)
    requires SchemeText(scheme)
    ensures HasPrefix(scheme + "://" + host, "file:/") <==> scheme == "file"
  {
    var s := scheme + "://" + host;
    if |scheme| == 4 {
      assert s[..6] == scheme + ":/";
      assert (scheme + ":/")[..4] == scheme && "file:/"[..4] == "file";
    } else if |scheme| < 4 {
      assert s[|scheme|] == ':' && "file:/"[|scheme|] != ':';
    } else {
      assert s[4] == scheme[4] && scheme[4] != ':';
    }
  }

  /** Text without a `:` has no scheme and fails the rule. */
  lemma SchemeRequired(s: string)
    requires forall k :: 0 <= k < |s| ==> s[k] != ':'
    ensures !UrlShape(s)
  {
    IndexOfAbsent(s[..IndexOf(s, '#')], ':');
    if |s| >= 6 {
      assert s[4] != "file:/"[4];
    }
  }

  lemma ShapeWithHost() ensures UrlShape("https://c.io")
  {
    HostRequired("https", "c.io");
    assert "https" + "://" + "c.io" == "https://c.io";
  }

  lemma ShapeWithoutHost() ensures !UrlShape("https://")
  {
    HostRequired("https", "");
    assert "https" + "://" + "" == "https://";
  }

  lemma ShapeWithoutScheme() ensures !UrlShape("charts")
  {
    SchemeRequired("charts");
  }

  /** A web address with a host passes the rule. */
  lemma UrlWithHost()
    ensures IsUrl("https://c.io")
  {
    LowerCaseUnchanged("https://c.io");
    ShapeWithHost();
  }

  /** A scheme with an empty host fails the rule: it has no host, fragment or opaque part. */
  lemma UrlWithoutHost()
    ensures !IsUrl("https://")
  {
    LowerCaseUnchanged("https://");
    ShapeWithoutHost();
  }

  /** A bare word has no scheme and fails the rule, as does the empty text. */
  lemma UrlWithoutScheme()
    ensures !IsUrl("charts")
    ensures !IsUrl("")
  {
    LowerCaseUnchanged("charts");
    ShapeWithoutScheme();
  }
}
