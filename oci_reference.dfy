// OCI chart references of the form `oci://registry/path/to/chart:version`:
// the parser used to find the registry host and the version, and the
// `oci_reference` validation rule used on configuration fields.
module OciReference {
  import opened Wrappers
  import opened Strings

  const Scheme := "oci://"

  datatype OciRef = OciRef(registry: string, chartPath: string, version: string)

  const ErrPrefix := "reference must start with oci://"
  const ErrVersion := "reference must contain version (format: oci://registry/path:version)"
  const ErrPath := "reference must contain registry and chart path"

  /**
   * `parseOCIReference`: strip `oci://`, split the rest on `:` into exactly a
   * path and a version, split the path on `/` into at least two components;
   * the first is the registry, the others joined with `/` the chart path.
   */
  function ParseOciReference(ref: string): (r: Result<OciRef>)
  {
    if !HasPrefix(ref, Scheme) then Err(ErrPrefix)
    else
      var remainder := ref[|Scheme|..];
      var parts := Split(remainder, ':');
      if |parts| != 2 then Err(ErrVersion)
      else
        var components := Split(parts[0], '/');
        if |components| < 2 then Err(ErrPath)
        else Ok(OciRef(components[0], Join(components[1..], '/'), parts[1]))
  }

  /** The text a parsed reference was read from. */
  function Render(o: OciRef): string
  {
    Scheme + o.registry + "/" + o.chartPath + ":" + o.version
  }

  /** Number of occurrences of `c` in `s`. */
  function Count(s: string, c: char): nat
  {
    if |s| == 0 then 0 else (if s[0] == c then 1 else 0) + Count(s[1..], c)
  }

  lemma {:induction false} SplitLength(s: string, sep: char)
    ensures |Split(s, sep)| == Count(s, sep) + 1
    decreases |s|
  {
    if |s| > 0 { SplitLength(s[1..], sep); }
  }

  /** The errors, in the order the parser reports them. */
  lemma ParseErrors(ref: string)
    ensures !HasPrefix(ref, Scheme) ==> ParseOciReference(ref) == Err(ErrPrefix)
    ensures HasPrefix(ref, Scheme) && Count(ref[6..], ':') != 1 ==>
              ParseOciReference(ref) == Err(ErrVersion)
    ensures HasPrefix(ref, Scheme) && Count(ref[6..], ':') == 1 ==>
              (ParseOciReference(ref) == Err(ErrPath) <==> '/' !in Split(ref[6..], ':')[0])
  {
    if HasPrefix(ref, Scheme) {
      SplitLength(ref[6..], ':');
    }
  }

  /** On success the pieces are separator-free where the format demands it and render back to the input. */
  lemma {:induction false} ParseRoundTrip(ref: string)
    requires ParseOciReference(ref).Ok?
    ensures var o := ParseOciReference(ref).value;
      '/' !in o.registry && ':' !in o.registry && ':' !in o.chartPath && ':' !in o.version
      && Render(o) == ref
  {
    var remainder := ref[6..];
    var parts := Split(remainder, ':');
    var components := Split(parts[0], '/');
    var o := ParseOciReference(ref).value;
    assert |parts| == 2 && |components| >= 2;
    assert o == OciRef(components[0], Join(components[1..], '/'), parts[1]);
    assert remainder == parts[0] + [':'] + parts[1] by {
      JoinSplit(remainder, ':');
      JoinCons(parts, ':');
      assert parts[1..] == [parts[1]];
    }
    assert parts[0] == o.registry + "/" + o.chartPath by {
      JoinSplit(parts[0], '/');
      JoinCons(components, '/');
    }
    assert ':' !in parts[0] && ':' !in parts[1] && '/' !in components[0];
    assert ':' !in o.chartPath by {
      forall c | c in o.chartPath ensures c != ':' {
        var i :| 0 <= i < |o.chartPath| && o.chartPath[i] == c;
        assert parts[0][|o.registry| + 1 + i] == c;
      }
    }
    assert ':' !in o.registry by {
      forall c | c in o.registry ensures c != ':' {
        var i :| 0 <= i < |o.registry| && o.registry[i] == c;
        assert parts[0][i] == c;
      }
    }
    RenderPath(o, parts[0]);
    SchemeRest(ref);
  }

  lemma RenderPath(o: OciRef, path: string)
    requires path == o.registry + "/" + o.chartPath
    ensures Render(o) == Scheme + (path + [':'] + o.version)
  {
  }

  lemma SchemeRest(ref: string)
    requires HasPrefix(ref, Scheme)
    ensures ref == Scheme + ref[6..]
  {
    assert ref == ref[..6] + ref[6..];
  }

  lemma JoinCons(parts: seq<string>, sep: char)
    requires |parts| >= 2
    ensures Join(parts, sep) == parts[0] + [sep] + Join(parts[1..], sep)
  {
  }

  /** Rendering a reference with separator-free pieces and parsing it again gives the pieces back. */
  lemma {:induction false} RenderParse(o: OciRef)
    requires '/' !in o.registry && ':' !in o.registry && ':' !in o.chartPath && ':' !in o.version
    ensures ParseOciReference(Render(o)) == Ok(o)
  {
    var ref := Render(o);
    var path := o.registry + "/" + o.chartPath;
    assert ref[..6] == Scheme;
    assert ref[6..] == path + [':'] + o.version;
    assert ':' !in path;
    SplitJoin([path, o.version], ':');
    assert Join([path, o.version], ':') == path + [':'] + o.version;
    var comps := Split(o.chartPath, '/');
    JoinSplit(o.chartPath, '/');
    SplitPrefix(o.registry, '/', o.chartPath);
    assert path == o.registry + ['/'] + o.chartPath;
    assert Split(path, '/') == [o.registry] + comps;
    assert ([o.registry] + comps)[1..] == comps;
  }

  /** A deep chart path keeps every component after the registry. */
  lemma ParseDeepPathExample(ref: string)
    requires ref == "oci://g.io/o/app:2"
    ensures ParseOciReference(ref) == Ok(OciRef("g.io", "o/app", "2"))
  {
    var o :| o == OciRef("g.io", "o/app", "2");
    RenderParse(o);
    assert Render(o) == ref;
  }

  /** The shortest useful reference. */
  lemma ParseShortExample(ref: string)
    requires ref == "oci://r.io/chart:v1"
    ensures ParseOciReference(ref) == Ok(OciRef("r.io", "chart", "v1"))
  {
    var o :| o == OciRef("r.io", "chart", "v1");
    RenderParse(o);
    assert Render(o) == ref;
  }

  /** A second `:` (for instance a version tag after a registry port) is rejected. */
  lemma TwoColonsRejected(ref: string)
    requires HasPrefix(ref, Scheme) && Count(ref[6..], ':') >= 2
    ensures ParseOciReference(ref) == Err(ErrVersion)
  {
    SplitLength(ref[6..], ':');
  }

  /** A reference without a path separator is rejected after the version check. */
  lemma MissingPathExample(ref: string)
    requires ref == "oci://chart:v1"
    ensures ParseOciReference(ref) == Err(ErrPath)
  {
    assert ref[..6] == Scheme;
    SplitJoin(["chart", "v1"], ':');
    assert Join(["chart", "v1"], ':') == ref[6..];
    SplitFree("chart", '/');
  }

  // ---------------------------------------------------------------------
  // validateOCIReference

  /**
   * The rule the validator implements, stated over the whole reference: at
   * least ten bytes (Go's `len`), the `oci://` prefix, and a `/` and a `:`
   * after it.  The prefix is ASCII, so comparing its six bytes is comparing
   * six characters.
   */
  predicate ValidOciReference(ref: string)
  {
    Utf8Len(ref) >= 10 && |ref| >= 6 && ref[..6] == Scheme && '/' in ref[6..] && ':' in ref[6..]
  }

  /**
   * `validateOCIReference`: at least 10 bytes, the `oci://` prefix, a
   * non-empty remainder, then one pass over the remainder recording whether a
   * `/` and a `:` were seen.
   */
  method ValidateOciReference(ref: string) returns (ok: bool)
    ensures ok <==> ValidOciReference(ref)
  {
    if Utf8Len(ref) < 10 {
      return false;
    }
    if |ref| < 6 || ref[..6] != Scheme {
      return false;
    }
    var remainder := ref[6..];
    if |remainder| == 0 {
      return false;
    }
    var hasSlash, hasColon := false, false;
    var i := 0;
    while i < |remainder|
      invariant 0 <= i <= |remainder|
      invariant hasSlash <==> '/' in remainder[..i]
      invariant hasColon <==> ':' in remainder[..i]
    {
      assert remainder[..i + 1] == remainder[..i] + [remainder[i]];
      if remainder[i] == '/' {
        hasSlash := true;
      }
      if remainder[i] == ':' {
        hasColon := true;
      }
      i := i + 1;
    }
    assert remainder[..i] == remainder;
    return hasSlash && hasColon;
  }

  /** Every reference of ten or more bytes that parses also validates. */
  lemma ParsedIsValid(ref: string)
    requires Utf8Len(ref) >= 10 && ParseOciReference(ref).Ok?
    ensures ValidOciReference(ref)
  {
    var o := ParseOciReference(ref).value;
    ParseRoundTrip(ref);
    assert ref[6..] == o.registry + "/" + o.chartPath + ":" + o.version;
    assert ref[6..][|o.registry|] == '/';
    assert ref[6..][|o.registry| + 1 + |o.chartPath|] == ':';
  }

  /**
   * The validator is weaker than the parser: a registry with a port passes
   * validation, yet the parser rejects it for its second `:`.
   */
  lemma ValidatorAcceptsUnparsable(ref: string)
    requires ref == "oci://h:5/chart:1"
    ensures ValidOciReference(ref)
    ensures ParseOciReference(ref) == Err(ErrVersion)
  {
    assert ref[..6] == Scheme;
    assert ref[6..][3] == '/' && ref[6..][1] == ':';
    SplitJoin(["h", "5/chart", "1"], ':');
    assert Join(["h", "5/chart", "1"], ':') == ref[6..];
  }

  /** A reference of ten or more characters is at least ten bytes long, so the shape alone decides it. */
  lemma LongReferenceValid(ref: string)
    requires |ref| >= 10 && ref[..6] == Scheme && '/' in ref[6..] && ':' in ref[6..]
    ensures ValidOciReference(ref)
  {
  }

  lemma ValidatorAcceptsExample(ref: string)
    requires ref == "oci://r.io/chart:v1"
    ensures ValidOciReference(ref)
  {
    assert ref[..6] == Scheme;
    assert ref[6..][4] == '/' && ref[6..][10] == ':';
    LongReferenceValid(ref);
  }

  /** A reference with nothing after the registry is rejected. */
  lemma ValidatorRejectsBareRegistry(ref: string)
    requires ref == "oci://r"
    ensures !ValidOciReference(ref)
  {
    assert ref[6..] == "r";
  }

  /** A reference without a chart path is rejected. */
  lemma ValidatorRejectsMissingPath(ref: string)
    requires ref == "oci://ghcr.io:1.0.0"
    ensures !ValidOciReference(ref)
  {
    assert ref[6..] == "ghcr.io:1.0.0";
  }

  /** A reference without the `oci://` scheme is rejected. */
  lemma ValidatorRejectsOtherScheme(ref: string)
    requires ref == "https://r.io/chart:v1"
    ensures !ValidOciReference(ref)
  {
    assert ref[..6] != Scheme by { assert ref[0] != 'o'; }
  }

  /** "oci://é/:" has nine characters but ten bytes, so the validator accepts it. */
  lemma ValidatorCountsBytes(ref: string)
    requires ref == "oci://\U{E9}/:"
    ensures |ref| == 9
    ensures ValidOciReference(ref)
  {
    assert ref == "oci://" + ['\U{E9}'] + "/:";
    Utf8LenAround("oci://", '\U{E9}', "/:");
    assert ref[..6] == Scheme;
    assert ref[6..][1] == '/' && ref[6..][2] == ':';
  }
}
