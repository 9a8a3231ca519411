// The IAM role component's configuration and status: the required fields
// are checked in a fixed order (the first failure is reported), then the
// optional path and session duration get their defaults.  Two variants
// exist: one checks an already decoded configuration in place, the other
// decodes the raw configuration first.  Whether a string holds valid JSON
// is decided by the decoder, which is a parameter.
module IamRoleConfig {
  import opened Wrappers
  import opened Json
  import opened IamRole

  /** `IamRoleConfig`. */
  datatype RoleConfig = RoleConfig(
    roleName: string,
    assumeRolePolicy: JsonText,
    description: string,
    maxSessionDuration: int,
    path: string,
    managedPolicyArns: seq<string>,
    tags: map<string, string>)

  const DefaultPath := "/"
  /** One hour, in seconds. */
  const DefaultMaxSessionDuration := 3600

  const ErrRoleName := "roleName is required and cannot be empty"
  const ErrAssumeRolePolicy := "assumeRolePolicy is required and cannot be empty"
  const ErrManagedPolicyArns := "managedPolicyArns is required and must contain at least one policy ARN"
  const ErrPolicyJson := "assumeRolePolicy must be valid JSON"

  /** The required-field checks, in order: the first that fails is the error. */
  function CheckRequired(c: RoleConfig): (err: Option<string>)
    ensures err.None? <==>
      c.roleName != "" && c.assumeRolePolicy.text != "" && |c.managedPolicyArns| > 0 && Valid(c.assumeRolePolicy)
    ensures c.roleName == "" ==> err == Some(ErrRoleName)
    ensures c.roleName != "" && c.assumeRolePolicy.text == "" ==> err == Some(ErrAssumeRolePolicy)
    ensures c.roleName != "" && c.assumeRolePolicy.text != "" && |c.managedPolicyArns| == 0 ==> err == Some(ErrManagedPolicyArns)
  {
    if c.roleName == "" then Some(ErrRoleName)
    else if c.assumeRolePolicy.text == "" then Some(ErrAssumeRolePolicy)
    else if |c.managedPolicyArns| == 0 then Some(ErrManagedPolicyArns)
    else if !Valid(c.assumeRolePolicy) then Some(ErrPolicyJson)
    else None
  }

  /** The configuration after `applyDefaults`. */
  function Defaulted(c: RoleConfig): RoleConfig
  {
    c.(path := if c.path == "" then DefaultPath else c.path,
       maxSessionDuration := if c.maxSessionDuration == 0 then DefaultMaxSessionDuration else c.maxSessionDuration)
  }

  /** Defaults fill in only what is unset: explicit values and every other field are kept. */
  lemma DefaultedMeaning(c: RoleConfig)
    ensures var d := Defaulted(c);
      d.path != "" && d.maxSessionDuration != 0 &&
      (c.path != "" ==> d.path == c.path) && (c.path == "" ==> d.path == "/") &&
      (c.maxSessionDuration != 0 ==> d.maxSessionDuration == c.maxSessionDuration) &&
      (c.maxSessionDuration == 0 ==> d.maxSessionDuration == 3600) &&
      d.(path := c.path, maxSessionDuration := c.maxSessionDuration) == c
  {
  }

  lemma DefaultedIdempotent(c: RoleConfig)
    ensures Defaulted(Defaulted(c)) == Defaulted(c)
  {
  }

  /** The required fields are untouched by defaulting, so a checked configuration stays checked. */
  lemma DefaultedKeepsChecks(c: RoleConfig)
    ensures CheckRequired(Defaulted(c)) == CheckRequired(c)
  {
  }

  /** An already decoded configuration, checked and defaulted in place (`resolveSpec`). */
  class RoleSpec {
    var config: RoleConfig

    constructor (c: RoleConfig)
      ensures config == c
    {
      config := c;
    }

    /** `applyDefaults`: one field at a time. */
    method ApplyDefaults()
      modifies this
      ensures config == Defaulted(old(config))
    {
      if config.path == "" {
        config := config.(path := DefaultPath);
      }
      if config.maxSessionDuration == 0 {
        config := config.(maxSessionDuration := DefaultMaxSessionDuration);
      }
    }

    /** `resolveSpec`: a failed check leaves the configuration as it was. */
    method ResolveSpec() returns (err: Option<string>)
      modifies this
      ensures err == CheckRequired(old(config))
      ensures err.Some? ==> config == old(config)
      ensures err.None? ==> config == Defaulted(old(config))
    {
      if config.roleName == "" {
        return Some(ErrRoleName);
      }
      if config.assumeRolePolicy.text == "" {
        return Some(ErrAssumeRolePolicy);
      }
      if |config.managedPolicyArns| == 0 {
        return Some(ErrManagedPolicyArns);
      }
      if !Valid(config.assumeRolePolicy) {
        return Some(ErrPolicyJson);
      }
      ApplyDefaults();
      return None;
    }
  }

  /** Unmarshalling the raw configuration; the trust policy is a string whose JSON validity `parse` decides. */
  function DecodeRoleConfig(raw: JsonText, parse: string -> Option<Json>): (r: Result<RoleConfig>)
    ensures r.Ok? ==> r.value.assumeRolePolicy.decoded == parse(r.value.assumeRolePolicy.text)
    ensures r.Ok? ==> InInt32(r.value.maxSessionDuration)
  {
    var m :- DecodeObject(raw);
    var roleName :- StringField(m, "roleName");
    var policy :- StringField(m, "assumeRolePolicy");
    var description :- StringField(m, "description");
    var duration :- Int32Field(m, "maxSessionDuration");
    var path :- StringField(m, "path");
    var arns :- StringListField(m, "managedPolicyArns");
    var tags :- StringMapField(m, "tags");
    Ok(RoleConfig(roleName, JsonText(policy, parse(policy)), description, duration, path, arns, tags))
  }

  /** `resolveIamRoleConfig`: decode, check, default. */
  function ResolveIamRoleConfig(raw: JsonText, parse: string -> Option<Json>): (r: Result<RoleConfig>)
    ensures DecodeRoleConfig(raw, parse).Err? ==>
      r == Err("failed to parse iam-role config: " + DecodeRoleConfig(raw, parse).error)
    ensures DecodeRoleConfig(raw, parse).Ok? && CheckRequired(DecodeRoleConfig(raw, parse).value).Some? ==>
      r == Err(CheckRequired(DecodeRoleConfig(raw, parse).value).value)
    ensures r.Ok? <==> DecodeRoleConfig(raw, parse).Ok? && CheckRequired(DecodeRoleConfig(raw, parse).value).None?
    ensures r.Ok? ==> r.value == Defaulted(DecodeRoleConfig(raw, parse).value)
  {
    match DecodeRoleConfig(raw, parse)
    case Err(e) => Err("failed to parse iam-role config: " + e)
    case Ok(c) =>
      match CheckRequired(c)
      case Some(e) => Err(e)
      case None => Ok(Defaulted(c))
  }

  /** A resolved configuration passes every check and is left alone by defaulting again. */
  lemma ResolvedIsFixedPoint(raw: JsonText, parse: string -> Option<Json>)
    requires ResolveIamRoleConfig(raw, parse).Ok?
    ensures var c := ResolveIamRoleConfig(raw, parse).value;
      CheckRequired(c).None? && Defaulted(c) == c && c.path != "" && c.maxSessionDuration != 0
  {
    var d := DecodeRoleConfig(raw, parse).value;
    DefaultedKeepsChecks(d);
    DefaultedIdempotent(d);
    DefaultedMeaning(d);
  }

  /** Both variants apply the same checks followed by the same defaults. */
  lemma VariantsAgree(raw: JsonText, parse: string -> Option<Json>)
    requires DecodeRoleConfig(raw, parse).Ok?
    ensures var c := DecodeRoleConfig(raw, parse).value;
      (ResolveIamRoleConfig(raw, parse).Err? <==> CheckRequired(c).Some?) &&
      (ResolveIamRoleConfig(raw, parse).Ok? ==> ResolveIamRoleConfig(raw, parse).value == Defaulted(c))
  {
  }

  /**
   * `resolveIamRoleStatus`: no stored status gives the zero status.  The
   * status is unmarshalled through a pointer, so a stored `null` yields a
   * nil status (`None`).
   */
  function ResolveIamRoleStatus(raw: JsonText): (r: Result<Option<IamRoleStatus>>)
    ensures raw.text == "" ==> r == Ok(Some(IamRoleStatus("", "", "", [])))
    ensures raw.text != "" && raw.decoded == Some(JNull) ==> r == Ok(None)
    ensures raw.text != "" && raw.decoded.None? ==> r.Err?
  {
    if raw.text == "" then Ok(Some(IamRoleStatus("", "", "", [])))
    else match raw.decoded
      case Some(JNull) => Ok(None)
      case _ =>
        match DecodeStatus(raw)
        case Err(e) => Err("failed to parse iam-role status: " + e)
        case Ok(s) => Ok(Some(s))
  }

  function DecodeStatus(raw: JsonText): Result<IamRoleStatus>
  {
    var m :- DecodeObject(raw);
    var arn :- StringField(m, "roleArn");
    var id :- StringField(m, "roleId");
    var name :- StringField(m, "roleName");
    var policies :- StringListField(m, "attachedPolicies");
    Ok(IamRoleStatus(arn, id, name, policies))
  }

  /** A stored status keeps every recorded field. */
  lemma StatusFieldsRead(raw: JsonText, arn: string)
    requires raw.text != "" && raw.decoded == Some(JObj(map["roleArn" := JStr(arn)]))
    ensures ResolveIamRoleStatus(raw) == Ok(Some(IamRoleStatus(arn, "", "", [])))
  {
  }

  /** A session duration written `3600.0` or `3.6e3` is not an integer literal, so decoding the configuration fails. */
  lemma FractionalDurationRejected(raw: JsonText, parse: string -> Option<Json>, n: real)
    requires raw.decoded == Some(JObj(map["maxSessionDuration" := JNum(n, false)]))
    ensures DecodeRoleConfig(raw, parse).Err?
    ensures ResolveIamRoleConfig(raw, parse).Err?
  {
  }

  /** A session duration beyond 32 bits fails to decode. */
  lemma WideDurationRejected(raw: JsonText, parse: string -> Option<Json>)
    requires raw.decoded == Some(JObj(map["maxSessionDuration" := JNum(Int32Half as real, true)]))
    ensures ResolveIamRoleConfig(raw, parse).Err?
  {
  }
}
