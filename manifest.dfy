// The manifest provider's data: raw Kubernetes manifests as decoded JSON
// objects, the references the provider records for what it applied, the
// configuration and status it reads from a component, and the small
// helpers shared by its operations.
module Manifest {
  import opened Wrappers
  import opened Strings
  import opened Json

  /** A manifest: the decoded JSON object (`map[string]interface{}`). */
  type Object = map<string, Json>

  // ---------------------------------------------------------------------
  // What `unstructured.Unstructured` reads from an object

  /** A string field, or "" when it is absent or not a string. */
  function StringAt(m: Object, key: string): (r: string)
    ensures key in m && m[key].JStr? ==> r == m[key].s
    ensures !(key in m && m[key].JStr?) ==> r == ""
  {
    if key in m && m[key].JStr? then m[key].s else ""
  }

  /** `metadata`, or nothing when it is absent or not an object. */
  function MetadataOf(m: Object): Object
  {
    if "metadata" in m && m["metadata"].JObj? then m["metadata"].fields else map[]
  }

  function ApiVersionOf(m: Object): string { StringAt(m, "apiVersion") }
  function KindOf(m: Object): string { StringAt(m, "kind") }
  function NameOf(m: Object): string { StringAt(MetadataOf(m), "name") }
  function NamespaceOf(m: Object): string { StringAt(MetadataOf(m), "namespace") }

  /** `GetLabels`: `metadata.labels` when it is an object of strings, and no labels otherwise. */
  function LabelsOf(m: Object): map<string, string>
  {
    var md := MetadataOf(m);
    if "labels" in md && md["labels"].JObj? && forall k :: k in md["labels"].fields ==> md["labels"].fields[k].JStr? then
      map k | k in md["labels"].fields :: md["labels"].fields[k].s
    else map[]
  }

  function LabelsJson(labels: map<string, string>): Json
  {
    JObj(map k | k in labels :: JStr(labels[k]))
  }

  /** `SetLabels`: replace `metadata.labels`, creating `metadata` when needed. */
  function WithLabels(m: Object, labels: map<string, string>): Object
  {
    m["metadata" := JObj(MetadataOf(m)["labels" := LabelsJson(labels)])]
  }

  const TrackingLabelKey := "manifest.deployment-orchestrator.io/component"

  /** The manifest as `Deploy` applies it: with the tracking label added to its labels. */
  function WithTrackingLabel(m: Object): Object
  {
    WithLabels(m, LabelsOf(m)[TrackingLabelKey := "true"])
  }

  /**
   * Labelling adds the tracking label, keeps every existing label, and
   * changes nothing else the operations read: identity fields are the
   * same and every other top-level field is untouched.
   */
  lemma TrackingLabelMeaning(m: Object)
    ensures LabelsOf(WithTrackingLabel(m)) == LabelsOf(m)[TrackingLabelKey := "true"]
    ensures ApiVersionOf(WithTrackingLabel(m)) == ApiVersionOf(m) && KindOf(WithTrackingLabel(m)) == KindOf(m)
    ensures NameOf(WithTrackingLabel(m)) == NameOf(m) && NamespaceOf(WithTrackingLabel(m)) == NamespaceOf(m)
    ensures forall k :: k in m && k != "metadata" ==> k in WithTrackingLabel(m) && WithTrackingLabel(m)[k] == m[k]
  {
    var labels := LabelsOf(m)[TrackingLabelKey := "true"];
    var md := WithTrackingLabel(m)["metadata"].fields;
    assert MetadataOf(WithTrackingLabel(m)) == md;
    assert md["labels"] == LabelsJson(labels);
    assert LabelsOf(WithTrackingLabel(m)) == labels;
  }

  /** Labelling twice is labelling once. */
  lemma TrackingLabelIdempotent(m: Object)
    ensures WithTrackingLabel(WithTrackingLabel(m)) == WithTrackingLabel(m)
  {
    TrackingLabelMeaning(m);
    var once := WithTrackingLabel(m);
    var labels := LabelsOf(m)[TrackingLabelKey := "true"];
    assert LabelsOf(once)[TrackingLabelKey := "true"] == labels;
    assert MetadataOf(once) == MetadataOf(m)["labels" := LabelsJson(labels)];
    assert MetadataOf(once)["labels" := LabelsJson(labels)] == MetadataOf(once);
  }

  // ---------------------------------------------------------------------
  // Group, version and kind

  datatype GroupVersion = GroupVersion(group: string, version: string)

  datatype GroupVersionKind = GroupVersionKind(group: string, version: string, kind: string)

  /**
   * `schema.ParseGroupVersion`: "" and "/" are the empty group-version; a
   * string without "/" is a version of the core group; one "/" separates
   * group from version; more than one is an error.
   */
  function ParseGroupVersion(s: string): (r: Result<GroupVersion>)
    ensures '/' !in s ==> r == Ok(GroupVersion("", s))
    ensures r.Err? <==> s != "/" && |Split(s, '/')| > 2
  {
    if s == "" || s == "/" then Ok(GroupVersion("", ""))
    else
      var parts := Split(s, '/');
      if |parts| == 1 then Ok(GroupVersion("", s))
      else if |parts| == 2 then Ok(GroupVersion(parts[0], parts[1]))
      else Err("unexpected GroupVersion string: " + s)
  }

  /** `GroupVersion.String`: the version alone for the core group. */
  function GroupVersionString(gv: GroupVersion): string
  {
    if gv.group != "" then gv.group + "/" + gv.version else gv.version
  }

  /** Printing a group-version and parsing it back gives it again. */
  lemma ParseGroupVersionString(gv: GroupVersion)
    requires '/' !in gv.group && '/' !in gv.version
    requires gv.group != "" || gv.version != "" || gv == GroupVersion("", "")
    ensures ParseGroupVersion(GroupVersionString(gv)) == Ok(gv)
  {
    if gv.group != "" {
      var s := gv.group + "/" + gv.version;
      assert s == gv.group + ['/'] + gv.version;
      SplitPrefix(gv.group, '/', gv.version);
      SplitFree(gv.version, '/');
      assert s != "" && s != "/" by { assert s[0] == gv.group[0]; assert |s| >= 2; }
    } else if gv.version != "" {
      SplitFree(gv.version, '/');
    }
  }

  /** `GroupVersionKind.String`. */
  function GvkString(gvk: GroupVersionKind): string
  {
    gvk.group + "/" + gvk.version + ", Kind=" + gvk.kind
  }

  /** `Unstructured.GroupVersionKind`: an unparsable `apiVersion` gives the empty kind. */
  function GvkOf(m: Object): (gvk: GroupVersionKind)
    ensures ParseGroupVersion(ApiVersionOf(m)).Err? ==> gvk == GroupVersionKind("", "", "")
    ensures ParseGroupVersion(ApiVersionOf(m)).Ok? ==> gvk.kind == KindOf(m)
  {
    match ParseGroupVersion(ApiVersionOf(m))
    case Err(_) => GroupVersionKind("", "", "")
    case Ok(gv) => GroupVersionKind(gv.group, gv.version, KindOf(m))
  }

  // ---------------------------------------------------------------------
  // Configuration and status

  /**
   * `validateK8sManifest`: a string `apiVersion` and `kind`, both
   * non-empty, and a `metadata` object whose `name` is a non-empty string.
   */
  predicate ValidK8sManifest(m: Object)
  {
    && "apiVersion" in m && m["apiVersion"].JStr? && m["apiVersion"].s != ""
    && "kind" in m && m["kind"].JStr? && m["kind"].s != ""
    && "metadata" in m && m["metadata"].JObj?
    && "name" in m["metadata"].fields && m["metadata"].fields["name"].JStr? && m["metadata"].fields["name"].s != ""
  }

  /** A valid manifest is exactly one whose identity the operations can read. */
  lemma ValidManifestIdentity(m: Object)
    ensures ValidK8sManifest(m) <==> ApiVersionOf(m) != "" && KindOf(m) != "" && NameOf(m) != ""
  {
  }

  /** A number where a string is expected fails, whatever else the manifest holds. */
  lemma NonStringFieldsFail(m: Object, n: real, integral: bool)
    ensures !ValidK8sManifest(m["apiVersion" := JNum(n, integral)])
    ensures !ValidK8sManifest(m["kind" := JNum(n, integral)])
  {
  }

  /** `ManifestConfig`. */
  datatype ManifestConfig = ManifestConfig(manifests: seq<Object>)

  function DecodeManifestConfig(raw: JsonText): Result<ManifestConfig>
  {
    var m :- DecodeObject(raw);
    var manifests :- ObjectListField(m, "manifests");
    Ok(ManifestConfig(manifests))
  }

  /** The struct tags: at least one manifest, and every manifest is valid. */
  predicate ValidConfig(c: ManifestConfig)
  {
    |c.manifests| >= 1 && forall i :: 0 <= i < |c.manifests| ==> ValidK8sManifest(c.manifests[i])
  }

  function FirstInvalidManifest(manifests: seq<Object>): (i: nat)
    requires exists i :: 0 <= i < |manifests| && !ValidK8sManifest(manifests[i])
    ensures i < |manifests| && !ValidK8sManifest(manifests[i])
    ensures forall k :: 0 <= k < i ==> ValidK8sManifest(manifests[k])
  {
    if !ValidK8sManifest(manifests[0]) then 0
    else
      assert exists i :: 0 <= i < |manifests[1..]| && !ValidK8sManifest(manifests[1..][i]) by {
        var i :| 0 <= i < |manifests| && !ValidK8sManifest(manifests[i]);
        assert manifests[1..][i - 1] == manifests[i];
      }
      1 + FirstInvalidManifest(manifests[1..])
  }

  function Violation(c: ManifestConfig): string
    requires !ValidConfig(c)
  {
    if |c.manifests| == 0 then "ManifestConfig.Manifests: min=1"
    else "ManifestConfig.Manifests[" + IntToString(FirstInvalidManifest(c.manifests)) + "]: k8s_manifest"
  }

  /** `resolveManifestConfig`. */
  function ResolveManifestConfig(raw: JsonText): (r: Result<ManifestConfig>)
    ensures DecodeManifestConfig(raw).Err? ==> r == Err("failed to parse manifest config: " + DecodeManifestConfig(raw).error)
    ensures DecodeManifestConfig(raw).Ok? && !ValidConfig(DecodeManifestConfig(raw).value) ==>
      r == Err("invalid manifest config: " + Violation(DecodeManifestConfig(raw).value))
    ensures r.Ok? <==> DecodeManifestConfig(raw).Ok? && ValidConfig(DecodeManifestConfig(raw).value)
    ensures r.Ok? ==> r.value == DecodeManifestConfig(raw).value
  {
    match DecodeManifestConfig(raw)
    case Err(e) => Err("failed to parse manifest config: " + e)
    case Ok(c) => if ValidConfig(c) then Ok(c) else Err("invalid manifest config: " + Violation(c))
  }

  /** `ResourceReference`: what the provider records about an applied resource. */
  datatype ResourceReference = ResourceReference(apiVersion: string, kind: string, name: string, namespace: string)

  /** The reference recorded for an applied manifest. */
  function RefOf(m: Object): (r: ResourceReference)
    ensures r.apiVersion == ApiVersionOf(m) && r.kind == KindOf(m) && r.name == NameOf(m) && r.namespace == NamespaceOf(m)
  {
    ResourceReference(ApiVersionOf(m), KindOf(m), NameOf(m), NamespaceOf(m))
  }

  /** `ManifestStatus`. */
  datatype ManifestStatus = ManifestStatus(appliedResources: seq<ResourceReference>)

  function DecodeReference(m: map<string, Json>): Result<ResourceReference>
  {
    var apiVersion :- StringField(m, "apiVersion");
    var kind :- StringField(m, "kind");
    var name :- StringField(m, "name");
    var namespace :- StringField(m, "namespace");
    Ok(ResourceReference(apiVersion, kind, name, namespace))
  }

  /**
   * `resolveManifestStatus`: no status is an empty one.  The status is
   * decoded through a pointer to the pointer, so `null` leaves no status at
   * all (`None`).
   */
  function ResolveManifestStatus(raw: JsonText): (r: Result<Option<ManifestStatus>>)
    ensures raw.text == "" ==> r == Ok(Some(ManifestStatus([])))
    ensures raw.text != "" && raw.decoded == Some(JNull) ==> r == Ok(None)
    ensures raw.text != "" && raw.decoded.None? ==> r.Err?
    ensures r.Ok? && r.value.Some? && raw.text != "" ==> raw.decoded.Some? && raw.decoded.value.JObj?
  {
    if raw.text == "" then Ok(Some(ManifestStatus([])))
    else
      match raw.decoded
      case None => Err("failed to parse manifest status: invalid character in JSON input")
      case Some(JNull) => Ok(None)
      case Some(JObj(m)) =>
        (match ObjectListField(m, "appliedResources")
         case Err(e) => Err("failed to parse manifest status: " + e)
         case Ok(items) =>
           match DecodeEach(items, DecodeReference)
           case Err(e) => Err("failed to parse manifest status: " + e)
           case Ok(refs) => Ok(Some(ManifestStatus(refs))))
      case Some(_) => Err("failed to parse manifest status: " + TypeMismatch)
  }

  /** A recorded status decodes back to the same references. */
  lemma StatusRoundTrip(ref: ResourceReference)
    ensures DecodeReference(map["apiVersion" := JStr(ref.apiVersion), "kind" := JStr(ref.kind),
                                "name" := JStr(ref.name), "namespace" := JStr(ref.namespace)]) == Ok(ref)
  {
  }

  // ---------------------------------------------------------------------
  // Helpers

  /** `resourceErrorf`: an error naming the resource by kind, namespace when it has one, and name. */
  function ResourceError(ref: ResourceReference, msg: string): (e: string)
    ensures ref.namespace != "" ==> e == "resource " + ref.kind + " " + ref.namespace + "/" + ref.name + ": " + msg
    ensures ref.namespace == "" ==> e == "resource " + ref.kind + " " + ref.name + ": " + msg
    ensures HasSuffix(e, ": " + msg)
  {
    var prefix := if ref.namespace != "" then "resource " + ref.kind + " " + ref.namespace + "/" + ref.name
                  else "resource " + ref.kind + " " + ref.name;
    assert (prefix + ": " + msg)[|prefix|..] == ": " + msg;
    prefix + ": " + msg
  }

  /** Server-side apply options. */
  datatype ApplyOptions = ApplyOptions(fieldManager: string, force: bool)

  const FieldManager := "manifest-handler"

  /** `applyOptions`: the given field manager, never forcing ownership of conflicting fields. */
  function ApplyOptionsFor(fieldManager: string): (o: ApplyOptions)
    ensures o.fieldManager == fieldManager && !o.force
  {
    ApplyOptions(fieldManager, false)
  }
}
