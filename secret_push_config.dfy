// The secret-push component's configuration and status.  A secret has a
// name and at least one field; each field holds either a literal value or
// the parameters of a generated password, never both and never neither.
// The update and deletion policies default to "IfNotExists" and "Delete"
// and must otherwise be one of their two allowed values.  The decoded
// configuration is an input; fields are checked in map iteration order,
// so which bad field is reported is left open.
module SecretPushConfig {
  import opened Wrappers
  import opened Strings
  import opened Json

  const UpdatePolicyIfNotExists := "IfNotExists"
  const UpdatePolicyAlwaysUpdate := "AlwaysUpdate"
  const DeletionPolicyDelete := "Delete"
  const DeletionPolicyRetain := "Retain"
  const DefaultUpdatePolicy := UpdatePolicyIfNotExists
  const DefaultDeletionPolicy := DeletionPolicyDelete

  /** The longest password Secrets Manager generates. */
  const MaxPasswordLength := 4096

  const ErrSecretName := "secretName is required and cannot be empty"
  const ErrNoFields := "at least one field is required"

  /** `GeneratorSpec`: the `GetRandomPassword` parameters. */
  datatype GeneratorSpec = GeneratorSpec(
    passwordLength: int,
    requireEachIncludedType: bool,
    excludePunctuation: bool,
    excludeNumbers: bool,
    excludeLowercase: bool,
    excludeUppercase: bool,
    includeSpace: bool,
    excludeCharacters: string)

  /** `FieldSpec`: a literal value, a generator, or (invalidly) both or neither. */
  datatype FieldSpec = FieldSpec(value: string, generator: Option<GeneratorSpec>)

  /** `SecretPushConfig` (and the package's `SecretPushSpec`, which has the same fields). */
  datatype SecretPushConfig = SecretPushConfig(
    secretName: string,
    kmsKeyId: string,
    fields: map<string, FieldSpec>,
    updatePolicy: string,
    deletionPolicy: string)

  /** `SecretPushStatus`. */
  datatype SecretPushStatus = SecretPushStatus(
    secretArn: string,
    secretName: string,
    versionId: string,
    region: string,
    lastSyncTime: string,
    fieldCount: int)

  const EmptyStatus := SecretPushStatus("", "", "", "", "", 0)

  /** `validateGeneratorSpec`: the length must lie between 1 and 4096. */
  function GeneratorError(name: string, gen: GeneratorSpec): (err: Option<string>)
    ensures err.None? <==> 1 <= gen.passwordLength <= MaxPasswordLength
    ensures gen.passwordLength <= 0 ==> err == Some("field " + name + ": passwordLength must be positive")
  {
    if gen.passwordLength <= 0 then Some("field " + name + ": passwordLength must be positive")
    else if gen.passwordLength > MaxPasswordLength then Some("field " + name + ": passwordLength cannot exceed 4096 (AWS limit)")
    else None
  }

  /** The checks on one field: exactly one of a non-empty value and a generator, and a valid generator. */
  function FieldError(name: string, f: FieldSpec): (err: Option<string>)
    ensures err.None? <==>
      ((f.value != "") != f.generator.Some?) && (f.generator.Some? ==> 1 <= f.generator.value.passwordLength <= MaxPasswordLength)
    ensures f.value != "" && f.generator.Some? ==> err == Some("field " + name + ": cannot have both value and generator")
    ensures f.value == "" && f.generator.None? ==> err == Some("field " + name + ": must have either value or generator")
  {
    var hasValue := f.value != "";
    var hasGenerator := f.generator.Some?;
    if hasValue && hasGenerator then Some("field " + name + ": cannot have both value and generator")
    else if !hasValue && !hasGenerator then Some("field " + name + ": must have either value or generator")
    else if hasGenerator then GeneratorError(name, f.generator.value)
    else None
  }

  predicate ValidFields(fields: map<string, FieldSpec>)
  {
    forall k :: k in fields ==> FieldError(k, fields[k]).None?
  }

  /** The field loop: the error of some bad field, in map iteration order, or none when all are good. */
  method CheckFields(fields: map<string, FieldSpec>) returns (err: Option<string>)
    ensures err.None? <==> ValidFields(fields)
    ensures err.Some? ==> exists k :: k in fields && FieldError(k, fields[k]) == err
  {
    var remaining := fields.Keys;
    while remaining != {}
      invariant remaining <= fields.Keys
      invariant forall k :: k in fields && k !in remaining ==> FieldError(k, fields[k]).None?
      decreases remaining
    {
      var k :| k in remaining;
      var e := FieldError(k, fields[k]);
      if e.Some? {
        return e;
      }
      remaining := remaining - {k};
    }
    return None;
  }

  /** `resolveEnumValue`: empty gives the default, an allowed value is kept, anything else is an error. */
  function ResolveEnumValue(value: string, fieldName: string, defaultValue: string, validValues: seq<string>): (r: Result<string>)
    ensures value == "" ==> r == Ok(defaultValue)
    ensures value != "" ==> (r.Ok? <==> value in validValues)
    ensures value != "" && r.Ok? ==> r.value == value
    ensures r.Err? ==> r.error == fieldName + " must be one of [" + Join(validValues, ' ') + "], got: " + value
  {
    if value == "" then Ok(defaultValue)
    else if value in validValues then Ok(value)
    else Err(fieldName + " must be one of [" + Join(validValues, ' ') + "], got: " + value)
  }

  /** Resolving an already resolved value changes nothing, when the default is itself allowed. */
  lemma ResolveEnumIdempotent(value: string, fieldName: string, defaultValue: string, validValues: seq<string>)
    requires defaultValue in validValues && ResolveEnumValue(value, fieldName, defaultValue, validValues).Ok?
    ensures var v := ResolveEnumValue(value, fieldName, defaultValue, validValues).value;
      v in validValues && ResolveEnumValue(v, fieldName, defaultValue, validValues) == Ok(v)
  {
  }

  /**
   * The policy step of `resolveSpec`: each policy is overwritten by the
   * outcome of `resolveEnumValue`, which is "" when it fails.
   */
  function PoliciesResolved(c: SecretPushConfig): (Option<string>, SecretPushConfig)
  {
    match ResolveEnumValue(c.updatePolicy, "updatePolicy", DefaultUpdatePolicy, [UpdatePolicyIfNotExists, UpdatePolicyAlwaysUpdate])
    case Err(e) => (Some(e), c.(updatePolicy := ""))
    case Ok(u) =>
      var c1 := c.(updatePolicy := u);
      match ResolveEnumValue(c.deletionPolicy, "deletionPolicy", DefaultDeletionPolicy, [DeletionPolicyDelete, DeletionPolicyRetain])
      case Err(e) => (Some(e), c1.(deletionPolicy := ""))
      case Ok(d) => (None, c1.(deletionPolicy := d))
  }

  /**
   * The policies resolve exactly when each is empty or allowed; then both
   * are allowed values, explicit ones are kept, empty ones defaulted, and
   * nothing else changes.
   */
  lemma PoliciesResolvedMeaning(c: SecretPushConfig)
    ensures var (err, r) := PoliciesResolved(c);
      (err.None? <==>
        (c.updatePolicy in {"", "IfNotExists", "AlwaysUpdate"} && c.deletionPolicy in {"", "Delete", "Retain"})) &&
      (err.None? ==>
        r.updatePolicy in {"IfNotExists", "AlwaysUpdate"} && r.deletionPolicy in {"Delete", "Retain"} &&
        (c.updatePolicy != "" ==> r.updatePolicy == c.updatePolicy) &&
        (c.updatePolicy == "" ==> r.updatePolicy == "IfNotExists") &&
        (c.deletionPolicy != "" ==> r.deletionPolicy == c.deletionPolicy) &&
        (c.deletionPolicy == "" ==> r.deletionPolicy == "Delete")) &&
      r.(updatePolicy := c.updatePolicy, deletionPolicy := c.deletionPolicy) == c
  {
  }

  /** A resolved specification resolves again unchanged. */
  lemma PoliciesResolvedIdempotent(c: SecretPushConfig)
    requires PoliciesResolved(c).0.None?
    ensures PoliciesResolved(PoliciesResolved(c).1) == (None, PoliciesResolved(c).1)
  {
    PoliciesResolvedMeaning(c);
  }

  /** The controller's `applySecretPushConfigDefaults`: default each policy, then check it. */
  function ControllerDefaulted(c: SecretPushConfig): (r: Result<SecretPushConfig>)
  {
    var u := if c.updatePolicy == "" then DefaultUpdatePolicy else c.updatePolicy;
    if u != UpdatePolicyIfNotExists && u != UpdatePolicyAlwaysUpdate then
      Err("updatePolicy must be 'IfNotExists' or 'AlwaysUpdate', got: " + u)
    else
      var d := if c.deletionPolicy == "" then DefaultDeletionPolicy else c.deletionPolicy;
      if d != DeletionPolicyDelete && d != DeletionPolicyRetain then
        Err("deletionPolicy must be 'Delete' or 'Retain', got: " + d)
      else Ok(c.(updatePolicy := u, deletionPolicy := d))
  }

  /** The package's and the controller's policy rules accept the same values and resolve them alike. */
  lemma VariantsAgree(c: SecretPushConfig)
    ensures ControllerDefaulted(c).Ok? <==> PoliciesResolved(c).0.None?
    ensures ControllerDefaulted(c).Ok? ==> ControllerDefaulted(c).value == PoliciesResolved(c).1
  {
    PoliciesResolvedMeaning(c);
  }

  /**
   * An invalid update policy is reported before the deletion policy is
   * looked at; the package's variant also clears the update policy it
   * could not resolve.
   */
  lemma UpdatePolicyReportedFirst(c: SecretPushConfig)
    requires c.updatePolicy !in {"", "IfNotExists", "AlwaysUpdate"}
    ensures ControllerDefaulted(c) == Err("updatePolicy must be 'IfNotExists' or 'AlwaysUpdate', got: " + c.updatePolicy)
    ensures PoliciesResolved(c).0.Some? && PoliciesResolved(c).1 == c.(updatePolicy := "")
  {
    assert c.updatePolicy !in [UpdatePolicyIfNotExists, UpdatePolicyAlwaysUpdate];
  }

  /** A configuration being checked and completed in place. */
  class SecretSpec {
    var config: SecretPushConfig

    constructor (c: SecretPushConfig)
      ensures config == c
    {
      config := c;
    }

    /**
     * `resolveSpec`: the name, then at least one field, then every field,
     * then the policies.  A failed field check leaves the configuration
     * as it was.
     */
    method ResolveSpec() returns (err: Option<string>)
      modifies this
      ensures old(config).secretName == "" ==> err == Some(ErrSecretName) && config == old(config)
      ensures old(config).secretName != "" && |old(config).fields| == 0 ==> err == Some(ErrNoFields) && config == old(config)
      ensures old(config).secretName != "" && |old(config).fields| > 0 && !ValidFields(old(config).fields) ==>
        err.Some? && config == old(config) && exists k :: k in old(config).fields && FieldError(k, old(config).fields[k]) == err
      ensures old(config).secretName != "" && |old(config).fields| > 0 && ValidFields(old(config).fields) ==>
        (err, config) == PoliciesResolved(old(config))
    {
      if config.secretName == "" {
        return Some(ErrSecretName);
      }
      if |config.fields| == 0 {
        return Some(ErrNoFields);
      }
      err := CheckFields(config.fields);
      if err.Some? {
        return;
      }
      var u := ResolveEnumValue(config.updatePolicy, "updatePolicy", DefaultUpdatePolicy,
                                [UpdatePolicyIfNotExists, UpdatePolicyAlwaysUpdate]);
      config := config.(updatePolicy := if u.Ok? then u.value else "");
      if u.Err? {
        return Some(u.error);
      }
      var d := ResolveEnumValue(config.deletionPolicy, "deletionPolicy", DefaultDeletionPolicy,
                                [DeletionPolicyDelete, DeletionPolicyRetain]);
      config := config.(deletionPolicy := if d.Ok? then d.value else "");
      if d.Err? {
        return Some(d.error);
      }
      return None;
    }

    /** `applySecretPushConfigDefaults`: each policy is defaulted in place, then checked. */
    method ApplyDefaults() returns (err: Option<string>)
      modifies this
      ensures err.None? <==> ControllerDefaulted(old(config)).Ok?
      ensures err.Some? ==> err.value == ControllerDefaulted(old(config)).error
      ensures err.None? ==> config == ControllerDefaulted(old(config)).value
    {
      if config.updatePolicy == "" {
        config := config.(updatePolicy := DefaultUpdatePolicy);
      }
      if config.updatePolicy != UpdatePolicyIfNotExists && config.updatePolicy != UpdatePolicyAlwaysUpdate {
        return Some("updatePolicy must be 'IfNotExists' or 'AlwaysUpdate', got: " + config.updatePolicy);
      }
      if config.deletionPolicy == "" {
        config := config.(deletionPolicy := DefaultDeletionPolicy);
      }
      if config.deletionPolicy != DeletionPolicyDelete && config.deletionPolicy != DeletionPolicyRetain {
        return Some("deletionPolicy must be 'Delete' or 'Retain', got: " + config.deletionPolicy);
      }
      return None;
    }
  }

  /** `resolveSecretPushConfig`, given the outcome of unmarshalling the raw configuration. */
  method ResolveSecretPushConfig(decoded: Result<SecretPushConfig>) returns (r: Result<SecretPushConfig>)
    ensures decoded.Err? ==> r == Err("failed to parse secret-push config: " + decoded.error)
    ensures decoded.Ok? && decoded.value.secretName == "" ==> r == Err(ErrSecretName)
    ensures decoded.Ok? && decoded.value.secretName != "" && |decoded.value.fields| == 0 ==> r == Err(ErrNoFields)
    ensures decoded.Ok? && decoded.value.secretName != "" && |decoded.value.fields| > 0 && !ValidFields(decoded.value.fields) ==>
      r.Err? && exists k :: k in decoded.value.fields && FieldError(k, decoded.value.fields[k]) == Some(r.error)
    ensures decoded.Ok? && decoded.value.secretName != "" && |decoded.value.fields| > 0 && ValidFields(decoded.value.fields) ==>
      r == (match ControllerDefaulted(decoded.value)
            case Err(e) => Err("failed to apply configuration defaults: " + e)
            case Ok(c) => Ok(c))
  {
    if decoded.Err? {
      return Err("failed to parse secret-push config: " + decoded.error);
    }
    var config := decoded.value;
    if config.secretName == "" {
      return Err(ErrSecretName);
    }
    if |config.fields| == 0 {
      return Err(ErrNoFields);
    }
    var err := CheckFields(config.fields);
    if err.Some? {
      return Err(err.value);
    }
    var spec := new SecretSpec(config);
    err := spec.ApplyDefaults();
    if err.Some? {
      return Err("failed to apply configuration defaults: " + err.value);
    }
    return Ok(spec.config);
  }

  /** A resolved configuration has a name, at least one field, valid fields and allowed policies. */
  lemma ResolvedIsValid(c: SecretPushConfig)
    requires c.secretName != "" && |c.fields| > 0 && ValidFields(c.fields) && ControllerDefaulted(c).Ok?
    ensures var r := ControllerDefaulted(c).value;
      r.secretName != "" && r.fields == c.fields &&
      r.updatePolicy in {"IfNotExists", "AlwaysUpdate"} && r.deletionPolicy in {"Delete", "Retain"} &&
      PoliciesResolved(r) == (None, r)
  {
    VariantsAgree(c);
    PoliciesResolvedIdempotent(c);
    PoliciesResolvedMeaning(c);
  }

  /**
   * `resolveSecretPushStatus`: no stored status gives the empty status.  The
   * status is unmarshalled through a pointer, so a stored `null` yields a
   * nil status (`None`).
   */
  function ResolveSecretPushStatus(raw: JsonText): (r: Result<Option<SecretPushStatus>>)
    ensures raw.text == "" ==> r == Ok(Some(EmptyStatus))
    ensures raw.text != "" && raw.decoded == Some(JNull) ==> r == Ok(None)
    ensures raw.text != "" && raw.decoded.None? ==> r.Err?
    ensures raw.text != "" && raw.decoded != Some(JNull) ==> (r.Err? <==> DecodeStatus(raw).Err?)
  {
    if raw.text == "" then Ok(Some(EmptyStatus))
    else match raw.decoded
      case Some(JNull) => Ok(None)
      case _ =>
        match DecodeStatus(raw)
        case Err(e) => Err("failed to parse secret-push status: " + e)
        case Ok(s) => Ok(Some(s))
  }

  function DecodeStatus(raw: JsonText): Result<SecretPushStatus>
  {
    var m :- DecodeObject(raw);
    var arn :- StringField(m, "secretArn");
    var name :- StringField(m, "secretName");
    var version :- StringField(m, "versionId");
    var region :- StringField(m, "region");
    var sync :- StringField(m, "lastSyncTime");
    var count :- IntField(m, "fieldCount");
    Ok(SecretPushStatus(arn, name, version, region, sync, count))
  }

  /** A stored status keeps every recorded field; absent ones stay empty. */
  lemma StatusFieldsRead(raw: JsonText, arn: string)
    requires raw.text != "" && raw.decoded == Some(JObj(map["secretArn" := JStr(arn), "fieldCount" := JNum(3.0, true)]))
    ensures ResolveSecretPushStatus(raw) == Ok(Some(SecretPushStatus(arn, "", "", "", "", 3)))
  {
  }

  /** A field count that is not an integer literal, or does not fit in 64 bits, makes the stored status unreadable. */
  lemma FieldCountLiteralChecked(raw: JsonText, n: real)
    requires raw.text != ""
    requires raw.decoded == Some(JObj(map["fieldCount" := JNum(n, false)])) ||
             raw.decoded == Some(JObj(map["fieldCount" := JNum(Int64Half as real, true)]))
    ensures ResolveSecretPushStatus(raw).Err?
  {
  }
}
