// The RDS controller's conversions between configuration values and the
// optional (pointer) fields of the AWS SDK's request and response types,
// and the response shapes they read.  A Go pointer is an `Option`; 32-bit
// values are carried as they were decoded.
module RdsConversion {
  import opened Wrappers

  /** `types.Endpoint`. */
  datatype Endpoint = Endpoint(address: Option<string>, port: Option<int>)

  /** `types.MasterUserSecret`. */
  datatype MasterUserSecret = MasterUserSecret(secretArn: Option<string>)

  /** The fields of `types.DBInstance` the controllers read. */
  datatype DbInstance = DbInstance(
    dbInstanceStatus: Option<string>,
    dbInstanceArn: Option<string>,
    endpoint: Option<Endpoint>,
    availabilityZone: Option<string>,
    masterUserSecret: Option<MasterUserSecret>,
    engine: Option<string>,
    engineVersion: Option<string>,
    dbInstanceClass: Option<string>,
    allocatedStorage: Option<int>,
    backupRetentionPeriod: Option<int>,
    multiAz: Option<bool>)

  // ---------------------------------------------------------------------
  // Values to pointers

  /** `stringPtr`: always a pointer, read back as the same string. */
  function StringPtr(s: string): (r: Option<string>)
    ensures r.Some? && StringValue(r) == s
  {
    Some(s)
  }

  /** `int32Ptr`: always a pointer, read back as the same number. */
  function Int32Ptr(i: int): (r: Option<int>)
    ensures r.Some? && Int32Value(r) == i
  {
    Some(i)
  }

  /** `boolPtr`: always a pointer, read back as the same flag. */
  function BoolPtr(b: bool): (r: Option<bool>)
    ensures r.Some? && BoolValue(r) == b
  {
    Some(b)
  }

  /** `optionalStringPtr`: nil for the empty string, so AWS applies its own default. */
  function OptionalStringPtr(s: string): (r: Option<string>)
    ensures r.None? <==> s == ""
    ensures r.Some? ==> r.value == s
    ensures StringValue(r) == s
  {
    if s == "" then None else Some(s)
  }

  /** `optionalInt32Ptr`: nil for zero. */
  function OptionalInt32Ptr(i: int): (r: Option<int>)
    ensures r.None? <==> i == 0
    ensures r.Some? ==> r.value == i
    ensures Int32Value(r) == i
  {
    if i == 0 then None else Some(i)
  }

  /** `positiveInt32Ptr`: nil for zero and for negative numbers. */
  function PositiveInt32Ptr(i: int): (r: Option<int>)
    ensures r.None? <==> i <= 0
    ensures r.Some? ==> r.value == i && r.value > 0
  {
    if i <= 0 then None else Some(i)
  }

  /** `passthroughPositiveInt32Ptr`: nil for nil and for a pointer to a number that is not positive. */
  function PassthroughPositiveInt32Ptr(p: Option<int>): (r: Option<int>)
    ensures r.None? <==> p.None? || p.value <= 0
    ensures r.Some? ==> r == p && r.value > 0
  {
    if p.None? || p.value <= 0 then None else Some(p.value)
  }

  /** `optionalBoolPtr`: despite its name, never nil, since `false` is meaningful to AWS. */
  function OptionalBoolPtr(b: bool): (r: Option<bool>)
    ensures r.Some? && r.value == b
  {
    Some(b)
  }

  /**
   * `passthroughStringPtr`, `passthroughInt32Ptr` and `passthroughBoolPtr`:
   * nil stays nil and a pointer is re-wrapped around an equal value.
   */
  function Passthrough<T>(p: Option<T>): (r: Option<T>)
    ensures r.None? <==> p.None?
    ensures p.Some? ==> r.Some? && r.value == p.value
    ensures r == p
  {
    match p
    case None => None
    case Some(v) => Some(v)
  }

  /** `stringSlicePtr`: nil for an empty list, otherwise a pointer to each element in order. */
  function StringSlicePtr(vs: seq<string>): (r: Option<seq<Option<string>>>)
    ensures r.None? <==> |vs| == 0
    ensures r.Some? ==> |r.value| == |vs| && forall i :: 0 <= i < |vs| ==> r.value[i] == Some(vs[i])
  {
    if |vs| == 0 then None else Some(seq(|vs|, i requires 0 <= i < |vs| => Some(vs[i])))
  }

  // ---------------------------------------------------------------------
  // Pointers to values

  /** `stringValue`: "" for nil, the pointee otherwise. */
  function StringValue(p: Option<string>): (s: string)
    ensures p.None? ==> s == ""
    ensures p.Some? ==> s == p.value
  {
    p.UnwrapOr("")
  }

  /** `int32Value`: 0 for nil, the pointee otherwise. */
  function Int32Value(p: Option<int>): (i: int)
    ensures p.None? ==> i == 0
    ensures p.Some? ==> i == p.value
  {
    p.UnwrapOr(0)
  }

  /** `boolValue`: false for nil, the pointee otherwise. */
  function BoolValue(p: Option<bool>): (b: bool)
    ensures p.None? ==> !b
    ensures p.Some? ==> b == p.value
  {
    p.UnwrapOr(false)
  }

  /** `endpointAddress`: "" when the endpoint or its address is nil. */
  function EndpointAddress(e: Option<Endpoint>): (s: string)
    ensures e.None? || e.value.address.None? ==> s == ""
    ensures e.Some? && e.value.address.Some? ==> s == e.value.address.value
  {
    if e.None? || e.value.address.None? then "" else e.value.address.value
  }

  /** `endpointPort`: 0 when the endpoint or its port is nil. */
  function EndpointPort(e: Option<Endpoint>): (port: int)
    ensures e.None? || e.value.port.None? ==> port == 0
    ensures e.Some? && e.value.port.Some? ==> port == e.value.port.value
  {
    if e.None? || e.value.port.None? then 0 else e.value.port.value
  }

  // ---------------------------------------------------------------------
  // How the two directions fit together

  /** A non-positive number reads back as zero through `positiveInt32Ptr`. */
  lemma PositiveRoundTrip(i: int)
    ensures Int32Value(PositiveInt32Ptr(i)) == (if i > 0 then i else 0)
  {
  }

  /** `passthroughPositiveInt32Ptr` is `positiveInt32Ptr` of the pointee, nil counting as zero. */
  lemma PassthroughPositiveIsPositiveOfValue(p: Option<int>)
    ensures PassthroughPositiveInt32Ptr(p) == PositiveInt32Ptr(Int32Value(p))
  {
  }
}
