/** Media types and formats (pkg/models/enums.go, second half): the built-in
    formats, GetFormat, SplitParams, ToFormat and ToQuery. */
module Formats {
  import opened Wrappers
  import opened Text

  type MediaType = string

  /** A media type with its short name and its file extension. */
  datatype Format = Format(mediaType: MediaType, name: string, extension: string)

  /** Go's zero `Format{}`: "no format". */
  const ZeroFormat: Format := Format("", "", "")

  const JsonMediaType: MediaType := "application/json"
  const HtmlMediaType: MediaType := "text/html"
  const SldMediaType: MediaType := "application/vnd.ogc.sld+xml"
  const MapboxMediaType: MediaType := "application/vnd.mapbox.style+json"
  const PngMediaType: MediaType := "image/png"

  const JsonFormat: Format := Format(JsonMediaType, "json", "json")
  const HtmlFormat: Format := Format(HtmlMediaType, "html", "html")
  const SldFormat: Format := Format(SldMediaType, "sld", "sld")
  const MapboxFormat: Format := Format(MapboxMediaType, "mapbox", "mapbox.json")
  const PngFormat: Format := Format(PngMediaType, "png", "png")

  /** knownBaseFormats, in their declared (search) order. */
  const KnownBaseFormats: seq<Format> := [JsonFormat, HtmlFormat, SldFormat, MapboxFormat, PngFormat]

  /** The first format of the list with the given name. */
  function FirstNamed(formats: seq<Format>, name: string): (r: Option<Format>)
    ensures r.Some? ==> r.value in formats && r.value.name == name
    ensures r.None? <==> forall i :: 0 <= i < |formats| ==> formats[i].name != name
  {
    if formats == [] then None
    else if formats[0].name == name then Some(formats[0])
    else FirstNamed(formats[1..], name)
  }

  /** The built-in format with a name, if any (GetFormat never looks at catalog formats). */
  function BuiltinNamed(name: string): Option<Format> {
    FirstNamed(KnownBaseFormats, name)
  }

  /** GetFormat: the built-in format of that name and true, or the zero format and false. */
  method GetFormat(format: string) returns (f: Format, ok: bool)
    ensures ok <==> exists i :: 0 <= i < |KnownBaseFormats| && KnownBaseFormats[i].name == format
    ensures ok ==> f in KnownBaseFormats && f.name == format
    ensures !ok ==> f == ZeroFormat
    ensures ok == BuiltinNamed(format).Some? && f == BuiltinNamed(format).GetOr(ZeroFormat)
  {
    for i := 0 to |KnownBaseFormats|
      invariant FirstNamed(KnownBaseFormats[i..], format) == BuiltinNamed(format)
    {
      if KnownBaseFormats[i].name == format {
        return KnownBaseFormats[i], true;
      }
    }
    return ZeroFormat, false;
  }

  // ---- SplitParams ----

  /** How one `;`-separated parameter segment enters the params map: `k` gives k -> "",
      `k=v` gives k -> v, a segment with two or more `=` is dropped. */
  function AddParam(params: map<string, string>, segment: string): map<string, string> {
    var kv := Split(segment, '=');
    if |kv| == 1 then params[kv[0] := ""]
    else if |kv| == 2 then params[kv[0] := kv[1]]
    else params
  }

  /** The params map built from the segments in order. */
  function ParamsOf(segments: seq<string>): map<string, string> {
    if segments == [] then map[]
    else AddParam(ParamsOf(segments[..|segments| - 1]), segments[|segments| - 1])
  }

  /** The root media type: everything before the first `;`. */
  function MediaRoot(m: MediaType): MediaType {
    Split(m, ';')[0]
  }

  /** The parameters after the root. */
  function MediaParams(m: MediaType): map<string, string> {
    ParamsOf(Split(m, ';')[1..])
  }

  /** MediaType.SplitParams. */
  method SplitParams(m: MediaType) returns (root: MediaType, params: map<string, string>)
    ensures root == MediaRoot(m) && ';' !in root
    ensures params == MediaParams(m)
  {
    var mediatypeParts := Split(m, ';');
    params := map[];
    root := mediatypeParts[0];
    if |mediatypeParts| > 1 {
      var rest := mediatypeParts[1..];
      for i := 0 to |rest|
        invariant params == ParamsOf(rest[..i])
      {
        assert rest[..i + 1][..i] == rest[..i];
        var paramParts := Split(rest[i], '=');
        if |paramParts| == 1 {
          params := params[paramParts[0] := ""];
        } else if |paramParts| == 2 {
          params := params[paramParts[0] := paramParts[1]];
        }
      }
      assert rest[..|rest|] == rest;
    }
  }

  /** Adding a segment on top of two layered maps only touches the upper one. */
  lemma AddParamOverUnion(lower: map<string, string>, upper: map<string, string>, segment: string)
    ensures AddParam(lower + upper, segment) == lower + AddParam(upper, segment)
  {
  }

  /** Parameters of later segments override those of earlier ones: the map of a
      concatenation is the first map overwritten by the second. */
  lemma {:induction false} ParamsOfConcat(a: seq<string>, b: seq<string>)
    ensures ParamsOf(a + b) == ParamsOf(a) + ParamsOf(b)
    decreases |b|
  {
    if b == [] {
      assert a + b == a;
    } else {
      var b' := b[..|b| - 1];
      ParamsOfConcat(a, b');
      assert (a + b)[..|a + b| - 1] == a + b';
      assert (a + b)[|a + b| - 1] == b[|b| - 1];
      AddParamOverUnion(ParamsOf(a), ParamsOf(b'), b[|b| - 1]);
    }
  }

  /** A key is set exactly when some segment with at most one `=` names it. */
  lemma {:induction false} ParamKeys(segments: seq<string>, k: string)
    ensures k in ParamsOf(segments) <==>
              exists i :: 0 <= i < |segments| && |Split(segments[i], '=')| <= 2 && Split(segments[i], '=')[0] == k
  {
    if segments != [] {
      var n := |segments| - 1;
      ParamKeys(segments[..n], k);
      if exists i :: 0 <= i < |segments| && |Split(segments[i], '=')| <= 2 && Split(segments[i], '=')[0] == k {
        var i :| 0 <= i < |segments| && |Split(segments[i], '=')| <= 2 && Split(segments[i], '=')[0] == k;
        if i < n { assert segments[..n][i] == segments[i]; }
      }
    }
  }

  // ---- ToFormat ----

  /** The first format of the list whose media type is root. */
  function FirstWithMediaType(formats: seq<Format>, root: MediaType): (r: Option<Format>)
    ensures r.Some? ==> r.value in formats && r.value.mediaType == root
    ensures r.None? <==> forall i :: 0 <= i < |formats| ==> formats[i].mediaType != root
  {
    if formats == [] then None
    else if formats[0].mediaType == root then Some(formats[0])
    else FirstWithMediaType(formats[1..], root)
  }

  /** The concatenated digit runs of a version parameter ("1.0" gives "10"). */
  function VersionDigits(version: string): string {
    Join(DigitRuns(version), "")
  }

  /** The format a media type selects among candidates: the first candidate whose
      media type is the root; with versioning, the digits of a `version` parameter
      appended to its name. */
  function SelectFormat(m: MediaType, candidates: seq<Format>, versioned: bool): Format {
    var base := FirstWithMediaType(candidates, MediaRoot(m)).GetOr(ZeroFormat);
    var params := MediaParams(m);
    if versioned && "version" in params then base.(name := base.name + VersionDigits(params["version"]))
    else base
  }

  /** What ToFormat returns: the built-ins are searched before the catalog's own formats. */
  function FormatFor(m: MediaType, additionalFormats: seq<Format>, versioned: bool): Format {
    SelectFormat(m, KnownBaseFormats + additionalFormats, versioned)
  }

  /** MediaType.ToFormat. */
  method ToFormat(m: MediaType, additionalFormats: seq<Format>, versioned: bool) returns (baseFormat: Format)
    ensures baseFormat == FormatFor(m, additionalFormats, versioned)
  {
    baseFormat := ZeroFormat;
    var root, params := SplitParams(m);
    var candidates := KnownBaseFormats + additionalFormats;
    for i := 0 to |candidates|
      invariant FirstWithMediaType(candidates[i..], root) == FirstWithMediaType(candidates, root)
      invariant baseFormat == ZeroFormat
    {
      FirstWithMediaTypeFrom(candidates, i, root);
      if root == candidates[i].mediaType {
        baseFormat := candidates[i];
        break;
      }
    }
    assert baseFormat == FirstWithMediaType(candidates, root).GetOr(ZeroFormat);
    if versioned {
      if "version" in params {
        var versionDigits := Join(DigitRuns(params["version"]), "");
        baseFormat := baseFormat.(name := baseFormat.name + versionDigits);
      }
    }
  }

  /** One step of the search: the format at position i, or the search from i + 1. */
  lemma FirstWithMediaTypeFrom(formats: seq<Format>, i: nat, root: MediaType)
    requires i < |formats|
    ensures FirstWithMediaType(formats[i..], root)
              == if formats[i].mediaType == root then Some(formats[i]) else FirstWithMediaType(formats[i + 1..], root)
  {
    assert formats[i..][1..] == formats[i + 1..];
  }

  /** The built-in media types are pairwise distinct, so the built-in with a media
      type is the first match among the built-ins. */
  lemma BuiltinMatch(i: nat, root: MediaType)
    requires i < |KnownBaseFormats| && KnownBaseFormats[i].mediaType == root
    ensures FirstWithMediaType(KnownBaseFormats, root) == Some(KnownBaseFormats[i])
  {
    BuiltinMediaTypesDistinct();
    FirstWithMediaTypeAt(KnownBaseFormats, i);
  }

  /** No two built-ins share a media type. */
  lemma BuiltinMediaTypesDistinct()
    ensures forall j, l :: 0 <= j < l < |KnownBaseFormats| ==> KnownBaseFormats[j].mediaType != KnownBaseFormats[l].mediaType
  {
    assert |JsonMediaType| == 16 && |HtmlMediaType| == 9 && |SldMediaType| == 27;
    assert |MapboxMediaType| == 33 && |PngMediaType| == 9;
    assert HtmlMediaType[0] != PngMediaType[0];
  }

  /** A format whose media type no earlier format has is the first match for it. */
  lemma {:induction false} FirstWithMediaTypeAt(formats: seq<Format>, i: nat)
    requires i < |formats|
    requires forall j :: 0 <= j < i ==> formats[j].mediaType != formats[i].mediaType
    ensures FirstWithMediaType(formats, formats[i].mediaType) == Some(formats[i])
  {
    if i > 0 {
      var rest := formats[1..];
      assert rest[i - 1] == formats[i];
      forall j | 0 <= j < i - 1 ensures rest[j].mediaType != rest[i - 1].mediaType {
        assert rest[j] == formats[j + 1];
      }
      FirstWithMediaTypeAt(rest, i - 1);
    }
  }

  /** Built-in formats take priority: a catalog format can never override a
      built-in media type. */
  lemma BuiltinsTakePriority(m: MediaType, additionalFormats: seq<Format>, versioned: bool, i: nat)
    requires i < |KnownBaseFormats| && KnownBaseFormats[i].mediaType == MediaRoot(m)
    ensures FormatFor(m, additionalFormats, versioned).mediaType == KnownBaseFormats[i].mediaType
    ensures FormatFor(m, additionalFormats, versioned).extension == KnownBaseFormats[i].extension
    ensures FormatFor(m, additionalFormats, versioned) == FormatFor(m, [], versioned)
  {
    BuiltinMatch(i, MediaRoot(m));
    FirstWithMediaTypeOfPrefix(KnownBaseFormats, additionalFormats, MediaRoot(m));
    FirstWithMediaTypeOfPrefix(KnownBaseFormats, [], MediaRoot(m));
  }

  lemma {:induction false} FirstWithMediaTypeOfPrefix(a: seq<Format>, b: seq<Format>, root: MediaType)
    requires FirstWithMediaType(a, root).Some?
    ensures FirstWithMediaType(a + b, root) == FirstWithMediaType(a, root)
  {
    if a[0].mediaType != root {
      assert (a + b)[1..] == a[1..] + b;
      FirstWithMediaTypeOfPrefix(a[1..], b, root);
    }
  }

  /** Without versioning the result is the matched format unchanged, or the zero
      format when no format has the root media type. */
  lemma UnversionedFormat(m: MediaType, additionalFormats: seq<Format>)
    ensures FormatFor(m, additionalFormats, false) in KnownBaseFormats + additionalFormats + [ZeroFormat]
    ensures FormatFor(m, additionalFormats, false) != ZeroFormat ==>
              FormatFor(m, additionalFormats, false).mediaType == MediaRoot(m)
    ensures (forall f :: f in KnownBaseFormats + additionalFormats ==> f.mediaType != MediaRoot(m)) ==>
              FormatFor(m, additionalFormats, false) == ZeroFormat
  {
  }

  /** Versioning only appends the version's digits to the name: media type and
      extension are those of the unversioned format. */
  lemma VersioningOnlyChangesName(m: MediaType, additionalFormats: seq<Format>)
    ensures FormatFor(m, additionalFormats, true).mediaType == FormatFor(m, additionalFormats, false).mediaType
    ensures FormatFor(m, additionalFormats, true).extension == FormatFor(m, additionalFormats, false).extension
    ensures FormatFor(m, additionalFormats, true).name ==
              FormatFor(m, additionalFormats, false).name
              + (if "version" in MediaParams(m) then Digits(MediaParams(m)["version"]) else "")
  {
    if "version" in MediaParams(m) {
      JoinedDigitRuns(MediaParams(m)["version"]);
    }
  }

  /** Format.ToQuery. */
  function ToQuery(f: Format): (q: string)
    ensures q == "" <==> f.name == ""
    ensures q != "" ==> |q| >= 2 && q[..2] == "f=" && q[2..] == f.name
  {
    if f.name == "" then "" else "f=" + f.name
  }

  // ---- worked examples ----

  lemma SplitOnce(a: string, sep: char, b: string)
    requires sep !in a && sep !in b
    ensures Split(a + [sep] + b, sep) == [a, b]
  {
    SplitAround(a, sep, b);
    SplitWithoutSeparator(a, sep);
    SplitWithoutSeparator(b, sep);
  }

  /** A media type with a single `key=value` parameter splits into its root and that
      one parameter. */
  lemma {:induction false} OneParameter(root: MediaType, key: string, value: string)
    requires ';' !in root && ';' !in key && ';' !in value && '=' !in key && '=' !in value
    ensures MediaRoot(root + ";" + key + "=" + value) == root
    ensures MediaParams(root + ";" + key + "=" + value) == map[key := value]
  {
    var m := root + ";" + key + "=" + value;
    var segment := key + "=" + value;
    assert m == root + [';'] + segment;
    assert ';' !in segment by {
      forall i | 0 <= i < |segment| ensures segment[i] != ';' {
        if i < |key| { assert segment[i] == key[i]; }
        else if i > |key| { assert segment[i] == value[i - |key| - 1]; }
      }
    }
    SplitOnce(root, ';', segment);
    assert segment == key + ['='] + value;
    SplitOnce(key, '=', value);
    assert Split(m, ';')[1..] == [segment];
    assert ParamsOf([segment]) == AddParam(map[], segment);
  }

  lemma VersionOneDotZero()
    ensures Digits("1.0") == "10"
  {
    assert "1.0"[1..][1..] == "0";
  }

  /** s contains no `;`, so it is a media type without parameters. */
  predicate WithoutParameters(s: string) {
    forall j :: 0 <= j < |s| ==> s[j] != ';'
  }

  /** No built-in media type carries parameters. */
  lemma BuiltinRootIsPlain(i: nat)
    requires i < |KnownBaseFormats|
    ensures WithoutParameters(KnownBaseFormats[i].mediaType)
  {
    if i == 0 { assert WithoutParameters(JsonMediaType); }
    else if i == 1 { assert WithoutParameters(HtmlMediaType); }
    else if i == 2 { assert WithoutParameters(SldMediaType); }
    else if i == 3 { assert WithoutParameters(MapboxMediaType); }
    else { assert WithoutParameters(PngMediaType); }
  }

  /** A parameter-free root with a `version` parameter selects the first format with
      that root, renamed with the version's digits when versioned. */
  lemma VersionedSelection(root: MediaType, version: string, candidates: seq<Format>, f: Format)
    requires WithoutParameters(root) && ';' !in version && '=' !in version
    requires FirstWithMediaType(candidates, root) == Some(f)
    ensures SelectFormat(root + ";version=" + version, candidates, true) == f.(name := f.name + Digits(version))
    ensures SelectFormat(root + ";version=" + version, candidates, false) == f
  {
    var m := root + ";version=" + version;
    assert ';' !in root;
    assert m == root + ";" + "version" + "=" + version;
    OneParameter(root, "version", version);
    JoinedDigitRuns(version);
  }

  /** A built-in media type with a `version` parameter maps to that built-in format
      with the version's digits appended to its name (and, unversioned, to the
      built-in unchanged). */
  lemma VersionedBuiltin(i: nat, version: string, additionalFormats: seq<Format>)
    requires i < |KnownBaseFormats|
    requires ';' !in version && '=' !in version
    ensures FormatFor(KnownBaseFormats[i].mediaType + ";version=" + version, additionalFormats, true)
            == KnownBaseFormats[i].(name := KnownBaseFormats[i].name + Digits(version))
    ensures FormatFor(KnownBaseFormats[i].mediaType + ";version=" + version, additionalFormats, false)
            == KnownBaseFormats[i]
  {
    var root := KnownBaseFormats[i].mediaType;
    BuiltinRootIsPlain(i);
    BuiltinMatch(i, root);
    FirstWithMediaTypeOfPrefix(KnownBaseFormats, additionalFormats, root);
    VersionedSelection(root, version, KnownBaseFormats + additionalFormats, KnownBaseFormats[i]);
  }

  /** A built-in media type without parameters selects that built-in, versioned or not. */
  lemma PlainBuiltin(i: nat, additionalFormats: seq<Format>, versioned: bool)
    requires i < |KnownBaseFormats|
    ensures FormatFor(KnownBaseFormats[i].mediaType, additionalFormats, versioned) == KnownBaseFormats[i]
  {
    var root := KnownBaseFormats[i].mediaType;
    BuiltinRootIsPlain(i);
    assert ';' !in root;
    SplitWithoutSeparator(root, ';');
    assert MediaParams(root) == ParamsOf([]);
    BuiltinMatch(i, root);
    FirstWithMediaTypeOfPrefix(KnownBaseFormats, additionalFormats, root);
  }

  /** `sld` with `version=1.0` is named `sld10`, keeping the `sld` extension. */
  lemma VersionedSld()
    ensures FormatFor(SldMediaType + ";version=1.0", [], true) == Format(SldMediaType, "sld10", "sld")
    ensures FormatFor(SldMediaType + ";version=1.0", [], false) == SldFormat
  {
    VersionedBuiltin(2, "1.0", []);
    VersionOneDotZero();
    assert KnownBaseFormats[2] == SldFormat;
    assert SldMediaType + ";version=" + "1.0" == SldMediaType + ";version=1.0";
    assert "sld" + "10" == "sld10";
  }
}
