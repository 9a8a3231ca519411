// The IAM policy component's configuration and status.  The policy name
// and document are required and the document must be valid JSON; the
// first failing check is reported.  Defaults then fill in the path and,
// in the controller's variant, the region.  Whether a string holds valid
// JSON is decided by the decoder, which is a parameter.
module IamPolicyConfig {
  import opened Wrappers
  import opened Json

  /**
   * `IamPolicyConfig`.  The configuration read by the policy package has
   * no region; the controller's adds one.  Both are this datatype, the
   * first with `region` unused.
   */
  datatype PolicyConfig = PolicyConfig(
    policyName: string,
    policyDocument: JsonText,
    description: string,
    path: string,
    tags: map<string, string>,
    region: string)

  /** `IamPolicyStatus`. */
  datatype IamPolicyStatus = IamPolicyStatus(policyArn: string, policyId: string, policyName: string, currentVersionId: string)

  const EmptyStatus := IamPolicyStatus("", "", "", "")

  const DefaultPath := "/"
  /** IAM is global, but its API is reached through a regional endpoint. */
  const DefaultRegion := "us-east-1"

  const ErrPolicyName := "policyName is required and cannot be empty"
  const ErrPolicyDocument := "policyDocument is required and cannot be empty"
  const ErrPolicyJson := "policyDocument must be valid JSON"

  /** The required-field checks, in order: the first that fails is the error. */
  function CheckRequired(c: PolicyConfig): (err: Option<string>)
    ensures err.None? <==> c.policyName != "" && c.policyDocument.text != "" && Valid(c.policyDocument)
    ensures c.policyName == "" ==> err == Some(ErrPolicyName)
    ensures c.policyName != "" && c.policyDocument.text == "" ==> err == Some(ErrPolicyDocument)
    ensures c.policyName != "" && c.policyDocument.text != "" && !Valid(c.policyDocument) ==> err == Some(ErrPolicyJson)
  {
    if c.policyName == "" then Some(ErrPolicyName)
    else if c.policyDocument.text == "" then Some(ErrPolicyDocument)
    else if !Valid(c.policyDocument) then Some(ErrPolicyJson)
    else None
  }

  /** The configuration after the policy package's `applyDefaults`: only the path. */
  function PathDefaulted(c: PolicyConfig): PolicyConfig
  {
    c.(path := if c.path == "" then DefaultPath else c.path)
  }

  /** The configuration after the controller's `applyIamPolicyConfigDefaults`: the path, then the region. */
  function Defaulted(c: PolicyConfig): PolicyConfig
  {
    var p := PathDefaulted(c);
    p.(region := if c.region == "" then DefaultRegion else c.region)
  }

  /** Each default fills in only an empty field; explicit values and every other field are kept. */
  lemma DefaultedMeaning(c: PolicyConfig)
    ensures var p := PathDefaulted(c);
      p.path != "" && (c.path != "" ==> p.path == c.path) && (c.path == "" ==> p.path == "/") &&
      p.(path := c.path) == c
    ensures var d := Defaulted(c);
      d.path == PathDefaulted(c).path && d.region != "" &&
      (c.region != "" ==> d.region == c.region) && (c.region == "" ==> d.region == "us-east-1") &&
      d.(path := c.path, region := c.region) == c
  {
  }

  lemma DefaultedIdempotent(c: PolicyConfig)
    ensures PathDefaulted(PathDefaulted(c)) == PathDefaulted(c)
    ensures Defaulted(Defaulted(c)) == Defaulted(c)
  {
  }

  /** Defaulting touches neither required field, so a checked configuration stays checked. */
  lemma DefaultedKeepsChecks(c: PolicyConfig)
    ensures CheckRequired(PathDefaulted(c)) == CheckRequired(c)
    ensures CheckRequired(Defaulted(c)) == CheckRequired(c)
  {
  }

  /** A configuration being checked and completed in place. */
  class PolicySpec {
    var config: PolicyConfig

    constructor (c: PolicyConfig)
      ensures config == c
    {
      config := c;
    }

    /** The policy package's `applyDefaults`. */
    method ApplyDefaults()
      modifies this
      ensures config == PathDefaulted(old(config))
    {
      if config.path == "" {
        config := config.(path := DefaultPath);
      }
    }

    /** The controller's `applyIamPolicyConfigDefaults`. */
    method ApplyControllerDefaults()
      modifies this
      ensures config == Defaulted(old(config))
    {
      if config.path == "" {
        config := config.(path := DefaultPath);
      }
      if config.region == "" {
        config := config.(region := DefaultRegion);
      }
    }

    /** `resolveSpec`: a failed check leaves the configuration as it was. */
    method ResolveSpec() returns (err: Option<string>)
      modifies this
      ensures err == CheckRequired(old(config))
      ensures err.Some? ==> config == old(config)
      ensures err.None? ==> config == PathDefaulted(old(config))
    {
      if config.policyName == "" {
        return Some(ErrPolicyName);
      }
      if config.policyDocument.text == "" {
        return Some(ErrPolicyDocument);
      }
      if !Valid(config.policyDocument) {
        return Some(ErrPolicyJson);
      }
      ApplyDefaults();
      return None;
    }
  }

  /** Unmarshalling the raw configuration; the document is a string whose JSON validity `parse` decides. */
  function DecodePolicyConfig(raw: JsonText, parse: string -> Option<Json>): (r: Result<PolicyConfig>)
    ensures r.Ok? ==> r.value.policyDocument.decoded == parse(r.value.policyDocument.text)
  {
    var m :- DecodeObject(raw);
    var name :- StringField(m, "policyName");
    var document :- StringField(m, "policyDocument");
    var description :- StringField(m, "description");
    var path :- StringField(m, "path");
    var tags :- StringMapField(m, "tags");
    var region :- StringField(m, "region");
    Ok(PolicyConfig(name, JsonText(document, parse(document)), description, path, tags, region))
  }

  /** `resolveIamPolicyConfig`: decode, check, default. */
  function ResolveIamPolicyConfig(raw: JsonText, parse: string -> Option<Json>): (r: Result<PolicyConfig>)
    ensures DecodePolicyConfig(raw, parse).Err? ==>
      r == Err("failed to parse iam-policy config: " + DecodePolicyConfig(raw, parse).error)
    ensures DecodePolicyConfig(raw, parse).Ok? && CheckRequired(DecodePolicyConfig(raw, parse).value).Some? ==>
      r == Err(CheckRequired(DecodePolicyConfig(raw, parse).value).value)
    ensures r.Ok? <==> DecodePolicyConfig(raw, parse).Ok? && CheckRequired(DecodePolicyConfig(raw, parse).value).None?
    ensures r.Ok? ==> r.value == Defaulted(DecodePolicyConfig(raw, parse).value)
  {
    match DecodePolicyConfig(raw, parse)
    case Err(e) => Err("failed to parse iam-policy config: " + e)
    case Ok(c) =>
      match CheckRequired(c)
      case Some(e) => Err(e)
      case None => Ok(Defaulted(c))
  }

  /** A resolved configuration passes every check and is left alone by defaulting again. */
  lemma ResolvedIsFixedPoint(raw: JsonText, parse: string -> Option<Json>)
    requires ResolveIamPolicyConfig(raw, parse).Ok?
    ensures var c := ResolveIamPolicyConfig(raw, parse).value;
      CheckRequired(c).None? && Defaulted(c) == c && c.path != "" && c.region != ""
  {
    var d := DecodePolicyConfig(raw, parse).value;
    DefaultedKeepsChecks(d);
    DefaultedIdempotent(d);
    DefaultedMeaning(d);
  }

  /**
   * A configuration holding only a name and a valid document resolves to
   * the root path and the default region, with no description and no tags.
   */
  lemma MinimalConfig(raw: JsonText, parse: string -> Option<Json>, name: string, document: string)
    requires name != "" && document != "" && parse(document).Some?
    requires raw.decoded == Some(JObj(map["policyName" := JStr(name), "policyDocument" := JStr(document)]))
    ensures ResolveIamPolicyConfig(raw, parse) ==
      Ok(PolicyConfig(name, JsonText(document, parse(document)), "", "/", map[], "us-east-1"))
  {
  }

  /**
   * `resolveIamPolicyStatus`: no stored status gives the empty status.  The
   * status is unmarshalled through a pointer, so a stored `null` yields a
   * nil status (`None`).
   */
  function ResolveIamPolicyStatus(raw: JsonText): (r: Result<Option<IamPolicyStatus>>)
    ensures raw.text == "" ==> r == Ok(Some(EmptyStatus))
    ensures raw.text != "" && raw.decoded == Some(JNull) ==> r == Ok(None)
    ensures raw.text != "" && raw.decoded.None? ==> r.Err?
  {
    if raw.text == "" then Ok(Some(EmptyStatus))
    else match raw.decoded
      case Some(JNull) => Ok(None)
      case _ =>
        match DecodeStatus(raw)
        case Err(e) => Err("failed to parse iam-policy status: " + e)
        case Ok(s) => Ok(Some(s))
  }

  function DecodeStatus(raw: JsonText): Result<IamPolicyStatus>
  {
    var m :- DecodeObject(raw);
    var arn :- StringField(m, "policyArn");
    var id :- StringField(m, "policyId");
    var name :- StringField(m, "policyName");
    var version :- StringField(m, "currentVersionId");
    Ok(IamPolicyStatus(arn, id, name, version))
  }

  /** A stored status keeps every recorded field; absent ones stay empty. */
  lemma StatusFieldsRead(raw: JsonText, arn: string, version: string)
    requires raw.text != ""
    requires raw.decoded == Some(JObj(map["policyArn" := JStr(arn), "currentVersionId" := JStr(version)]))
    ensures ResolveIamPolicyStatus(raw) == Ok(Some(IamPolicyStatus(arn, "", "", version)))
  {
  }
}
