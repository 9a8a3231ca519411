// Stage one of the two-stage configuration parsing: reading only the source
// type, either from a whole helm component configuration (`source.type`) or
// from the source section alone (`type`).
module SourceDetect {
  import opened Wrappers
  import opened Strings
  import opened Json

  const ErrNoSource := "config validation failed: source field is required"
  const ErrNoType := "source.type is required (must be 'http', 'oci', etc.)"

  /** The `type` of a decoded source section. */
  function SectionType(section: Json): (r: Result<string>)
    ensures r.Ok? ==> r.value != ""
    ensures r.Ok? <==> ObjectOf(section).Ok? && StringField(ObjectOf(section).value, "type").Ok? &&
                       StringField(ObjectOf(section).value, "type").value != ""
    ensures r.Ok? ==> r == StringField(ObjectOf(section).value, "type")
  {
    match ObjectOf(section)
    case Err(e) => Err("failed to parse source section: " + e)
    case Ok(m) =>
      match StringField(m, "type")
      case Err(e) => Err("failed to parse source section: " + e)
      case Ok(t) => if t == "" then Err(ErrNoType) else Ok(t)
  }

  /** `DetectSourceType` / `detectSourceType` on a whole component configuration. */
  function DetectSourceType(raw: JsonText): (r: Result<string>)
  {
    match DecodeObject(raw)
    case Err(e) => Err("failed to parse config: " + e)
    case Ok(m) =>
      if "source" !in m then Err(ErrNoSource)
      else SectionType(m["source"])
  }

  /** The composite registry's `detectSourceType`: the given text is the source section itself. */
  function DetectSectionType(raw: JsonText): (r: Result<string>)
    ensures raw.decoded.Some? ==> r == SectionType(raw.decoded.value)
    ensures raw.decoded.None? ==> r.Err? && HasPrefix(r.error, "failed to parse source section: ")
  {
    match raw.decoded
    case None => Err("failed to parse source section: invalid character in JSON input")
    case Some(j) => SectionType(j)
  }

  /** The three ways detection fails, with their messages. */
  lemma DetectSourceTypeErrors(raw: JsonText)
    ensures !Valid(raw) ==>
              DetectSourceType(raw).Err? && HasPrefix(DetectSourceType(raw).error, "failed to parse config: ")
    ensures Valid(raw) && raw.decoded.value.JObj? && "source" !in raw.decoded.value.fields ==>
              DetectSourceType(raw) == Err(ErrNoSource)
    ensures Valid(raw) && raw.decoded.value.JObj? && "source" in raw.decoded.value.fields &&
            raw.decoded.value.fields["source"].JObj? &&
            ("type" !in raw.decoded.value.fields["source"].fields ||
             raw.decoded.value.fields["source"].fields["type"] in {JNull, JStr("")}) ==>
              DetectSourceType(raw) == Err(ErrNoType)
  {
  }

  /** On success the detected type is exactly the non-empty `source.type` string. */
  lemma DetectSourceTypeResult(raw: JsonText)
    ensures DetectSourceType(raw).Ok? <==>
      Valid(raw) && raw.decoded.value.JObj? && "source" in raw.decoded.value.fields &&
      SectionType(raw.decoded.value.fields["source"]).Ok?
    ensures DetectSourceType(raw).Ok? ==>
      var section := raw.decoded.value.fields["source"];
      (section.JObj? && "type" in section.fields && section.fields["type"] == JStr(DetectSourceType(raw).value)) &&
      DetectSourceType(raw).value != ""
  {
  }

  /** Detecting on a whole configuration is detecting on its `source` section. */
  lemma DetectThroughSection(raw: JsonText, sectionText: string)
    requires Valid(raw) && raw.decoded.value.JObj? && "source" in raw.decoded.value.fields
    ensures DetectSourceType(raw) == DetectSectionType(JsonText(sectionText, Some(raw.decoded.value.fields["source"])))
  {
  }

  /** The composite detection reads `type` at the top level and errors on an empty one. */
  lemma DetectSectionTypeErrors(raw: JsonText)
    ensures Valid(raw) && raw.decoded.value.JObj? &&
            ("type" !in raw.decoded.value.fields || raw.decoded.value.fields["type"] in {JNull, JStr("")}) ==>
              DetectSectionType(raw) == Err(ErrNoType)
    ensures Valid(raw) && raw.decoded.value.JObj? && "type" in raw.decoded.value.fields &&
            raw.decoded.value.fields["type"].JStr? && raw.decoded.value.fields["type"].s != "" ==>
              DetectSectionType(raw) == Ok(raw.decoded.value.fields["type"].s)
  {
  }
}
