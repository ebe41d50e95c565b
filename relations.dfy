/** Link relations and the resource paths they resolve to (pkg/models/enums.go,
    first half: relations, the allow-list, ToPath, ToUrl, geometry types). */
module Relations {
  import opened Wrappers
  import opened Decode
  import Seqs

  /** Every relation the source names, including `preload`, which has a path but
      is missing from the allow-list, and `NoRelation`, the empty string a link
      carries when the catalog gives it no `rel`. */
  datatype LinkRelation =
    | NoRelation
    | AlternateRelation | CollectionRelation | DescribedbyRelation | EnclosureRelation
    | PreviewRelation | SelfRelation | ServiceDescRelation | ServiceDocRelation
    | StartRelation | StylesheetRelation | PreloadRelation | SchemaRelation
    | StylesRelation | ConformanceRelation | TilesetsVectorRelation | TilesetCoverageRelation

  /** The relation's string constant. */
  function Name(r: LinkRelation): string {
    match r
    case NoRelation => ""
    case AlternateRelation => "alternate"
    case CollectionRelation => "collection"
    case DescribedbyRelation => "describedby"
    case EnclosureRelation => "enclosure"
    case PreviewRelation => "preview"
    case SelfRelation => "self"
    case ServiceDescRelation => "service-desc"
    case ServiceDocRelation => "service-doc"
    case StartRelation => "start"
    case StylesheetRelation => "stylesheet"
    case PreloadRelation => "preload"
    case SchemaRelation => "http://www.opengis.net/def/rel/ogc/1.0/schema"
    case StylesRelation => "http://www.opengis.net/def/rel/ogc/1.0/styles"
    case ConformanceRelation => "http://www.opengis.net/def/rel/ogc/1.0/conformance"
    case TilesetsVectorRelation => "http://www.opengis.net/def/rel/ogc/1.0/tilesets-vector"
    case TilesetCoverageRelation => "http://www.opengis.net/def/rel/ogc/1.0/tileset-coverage"
  }

  /** The allow-list `linkRelations`, in its declared order (15 relations, no `preload`). */
  const KnownRelations: seq<LinkRelation> := [
    AlternateRelation, CollectionRelation, DescribedbyRelation, EnclosureRelation,
    PreviewRelation, SelfRelation, ServiceDescRelation, ServiceDocRelation, StartRelation,
    StylesheetRelation, SchemaRelation, StylesRelation, ConformanceRelation,
    TilesetsVectorRelation, TilesetCoverageRelation]

  function Names(rels: seq<LinkRelation>): (names: seq<string>)
    ensures |names| == |rels|
  {
    seq(|rels|, i requires 0 <= i < |rels| => Name(rels[i]))
  }

  /** LinkRelations.ToString (and the same loop over geometry and data types): the
      name of every item, in order. */
  method ToStrings<T>(items: seq<T>, name: T -> string) returns (result: seq<string>)
    ensures |result| == |items|
    ensures forall i :: 0 <= i < |items| ==> result[i] == name(items[i])
  {
    result := [];
    for i := 0 to |items|
      invariant |result| == i
      invariant forall j :: 0 <= j < i ==> result[j] == name(items[j])
    {
      result := result + [name(items[i])];
    }
  }

  /** Distinct relations have distinct names. */
  lemma NameInjective(r1: LinkRelation, r2: LinkRelation)
    ensures Name(r1) == Name(r2) ==> r1 == r2
  {
  }

  /** The first relation of rels with the given name. */
  function Named(rels: seq<LinkRelation>, s: string): (r: Option<LinkRelation>)
    ensures r.Some? ==> r.value in rels && Name(r.value) == s
    ensures r.None? <==> forall i :: 0 <= i < |rels| ==> Name(rels[i]) != s
  {
    Seqs.FirstWithKey(rels, Name, s)
  }

  /** LinkRelation.UnmarshalYAML: only names on the allow-list decode. */
  function ParseRelation(decoded: Result<string>): Result<LinkRelation>
  {
    match UnmarshalYaml(decoded, Names(KnownRelations))
    case Failure(e) => Failure("unknown link relation with error: " + e)
    case Success(s) =>
      match Named(KnownRelations, s)
      case Some(r) => Success(r)
      case None => Failure("unknown link relation with error: could not unmarshal " + s)
  }

  /** The search finds a relation exactly when the name is one of the list's names. */
  lemma NamedFinds(rels: seq<LinkRelation>, s: string)
    ensures Named(rels, s).Some? <==> s in Names(rels)
    ensures Named(rels, s).Some? <==> exists r :: r in rels && Name(r) == s
  {
    if exists r :: r in rels && Name(r) == s {
      var r :| r in rels && Name(r) == s;
      var i :| 0 <= i < |rels| && rels[i] == r;
      assert Name(rels[i]) == s;
    }
    if s in Names(rels) {
      var i :| 0 <= i < |rels| && Names(rels)[i] == s;
      assert Name(rels[i]) == s;
    }
    if Named(rels, s).Some? {
      var i :| 0 <= i < |rels| && rels[i] == Named(rels, s).value;
      assert Names(rels)[i] == s;
    }
  }

  lemma PreloadNotKnown()
    ensures PreloadRelation !in KnownRelations
  {
  }

  /** Decoding accepts exactly the names of the 15 allow-listed relations, gives each
      back as its own relation, and never yields `preload`. */
  lemma ParseRelationAcceptsExactlyKnown(s: string)
    ensures ParseRelation(Success(s)).Success? <==> exists r :: r in KnownRelations && Name(r) == s
    ensures ParseRelation(Success(s)).Success? ==>
              Name(ParseRelation(Success(s)).value) == s
              && ParseRelation(Success(s)).value in KnownRelations
              && ParseRelation(Success(s)).value != PreloadRelation
  {
    NamedFinds(KnownRelations, s);
    PreloadNotKnown();
    var found := Named(KnownRelations, s);
    assert ParseRelation(Success(s)).Success? <==> found.Some?;
  }

  /** Every allow-listed relation survives encoding to its name and decoding back. */
  lemma ParseRelationRoundTrip(r: LinkRelation)
    requires r in KnownRelations
    ensures ParseRelation(Success(Name(r))) == Success(r)
  {
    ParseRelationAcceptsExactlyKnown(Name(r));
    NameInjective(ParseRelation(Success(Name(r))).value, r);
  }

  /** A decoder failure is reported, wrapped, and nothing is decoded. */
  lemma ParseRelationPassesDecoderFailure(e: string)
    ensures ParseRelation(Failure(e)) == Failure("unknown link relation with error: " + e)
  {
  }

  // Resource path templates (StylesResource, StyleResource, StyleMetadataResource, ResourceResource).
  const StylesResource: string := "styles"
  function StyleResource(id: string): string { "styles/" + id }
  function StyleMetadataResource(id: string): string { "styles/" + id + "/metadata" }
  function ResourceResource(id: string): string { "resources/" + id }

  /** The relations ToPath knows a path for. */
  predicate HasPath(r: LinkRelation) {
    r in {StylesRelation, StylesheetRelation, DescribedbyRelation, PreviewRelation, PreloadRelation}
  }

  /** LinkRelation.ToPath: the resource path of a relation for an identifier. */
  function ToPath(r: LinkRelation, id: string): (p: Result<string>)
    ensures p.Success? <==> HasPath(r)
    ensures p.Failure? ==> p.error == "no path known for link relation: " + Name(r)
  {
    match r
    case StylesRelation => Success(StylesResource)
    case StylesheetRelation => Success(StyleResource(id))
    case DescribedbyRelation => Success(StyleMetadataResource(id))
    case PreviewRelation => Success(ResourceResource(id))
    case PreloadRelation => Success(ResourceResource(id))
    case _ => Failure("no path known for link relation: " + Name(r))
  }

  /** The path of every relation that has one; self and alternate have none. */
  lemma ResourcePaths(id: string)
    ensures ToPath(StylesRelation, id) == Success("styles")
    ensures ToPath(StylesheetRelation, id) == Success("styles/" + id)
    ensures ToPath(DescribedbyRelation, id) == Success("styles/" + id + "/metadata")
    ensures ToPath(PreviewRelation, id) == Success("resources/" + id)
    ensures ToPath(PreloadRelation, id) == Success("resources/" + id)
    ensures ToPath(SelfRelation, id).Failure? && ToPath(AlternateRelation, id).Failure?
  {
  }

  /** For identifiers without a slash, two resolved paths are equal only for the same
      resource: the same relation (preview and preload share `resources/`) and, except
      for the id-less styles collection, the same identifier. */
  lemma DistinctResourcesDistinctPaths(r1: LinkRelation, id1: string, r2: LinkRelation, id2: string)
    requires '/' !in id1 && '/' !in id2
    requires ToPath(r1, id1).Success? && ToPath(r2, id2).Success?
    requires ToPath(r1, id1).value == ToPath(r2, id2).value
    ensures r1 == r2 || {r1, r2} == {PreviewRelation, PreloadRelation}
    ensures r1 != StylesRelation ==> id1 == id2
  {
    var p := ToPath(r1, id1).value;
    if r1 in {PreviewRelation, PreloadRelation} || r2 in {PreviewRelation, PreloadRelation} {
      assert p[0] == 'r' <==> r1 in {PreviewRelation, PreloadRelation};
      assert p[0] == 'r' <==> r2 in {PreviewRelation, PreloadRelation};
      if r1 in {PreviewRelation, PreloadRelation} {
        assert p[10..] == id1 && p[10..] == id2;
      }
    } else if r1 == StylesRelation || r2 == StylesRelation {
      assert |p| == 6 <==> r1 == StylesRelation;
      assert |p| == 6 <==> r2 == StylesRelation;
    } else {
      // both start with "styles/"; a metadata path has a slash after the identifier
      var tail := p[7..];
      assert r1 == StylesheetRelation ==> tail == id1;
      assert r1 == DescribedbyRelation ==> tail == id1 + "/metadata";
      assert r2 == StylesheetRelation ==> tail == id2;
      assert r2 == DescribedbyRelation ==> tail == id2 + "/metadata";
      if r1 == DescribedbyRelation && r2 == DescribedbyRelation {
        assert |id1| == |id2|;
        assert id1 == tail[..|id1|] == id2;
      }
    }
  }

  /** LinkRelation.ToUrl: the path under the base resource. */
  function ToUrl(r: LinkRelation, baseResource: string, id: string): (u: Result<string>)
    ensures u.Success? <==> ToPath(r, id).Success?
    ensures u.Success? ==> u.value == baseResource + "/" + ToPath(r, id).value
    ensures u.Failure? ==> u.error == ToPath(r, id).error
  {
    match ToPath(r, id)
    case Failure(e) => Failure(e)
    case Success(path) => Success(baseResource + "/" + path)
  }

  /** A name that no allow-listed relation carries never decodes. */
  lemma UnlistedNameRejected(s: string)
    requires forall r :: r in KnownRelations ==> Name(r) != s
    ensures ParseRelation(Success(s)).Failure?
  {
    ParseRelationAcceptsExactlyKnown(s);
  }

  /** `preload` resolves to a path, yet no configuration can contain it. */
  lemma PreloadIsNeverParsed(id: string)
    ensures ToPath(PreloadRelation, id) == Success("resources/" + id)
    ensures ParseRelation(Success(Name(PreloadRelation))).Failure?
  {
    PreloadNotKnown();
    forall r | r in KnownRelations
      ensures Name(r) != Name(PreloadRelation)
    {
      NameInjective(r, PreloadRelation);
    }
    UnlistedNameRejected(Name(PreloadRelation));
  }

  datatype GeometryType = Points | Lines | Polygons | Solids | Any

  function GeometryName(g: GeometryType): string {
    match g
    case Points => "points"
    case Lines => "lines"
    case Polygons => "polygons"
    case Solids => "solids"
    case Any => "any"
  }

  /** The geometry type allow-list `geometryTypes`, as names. */
  const GeometryNames: seq<string> := ["points", "lines", "polygons", "solids", "any"]

  lemma GeometryNameListed(g: GeometryType)
    ensures GeometryName(g) in GeometryNames
  {
    match g
    case Points => assert GeometryNames[0] == "points";
    case Lines => assert GeometryNames[1] == "lines";
    case Polygons => assert GeometryNames[2] == "polygons";
    case Solids => assert GeometryNames[3] == "solids";
    case Any => assert GeometryNames[4] == "any";
  }

  /** GeometryType.UnmarshalYAML: exactly the five geometry names decode, each to its type. */
  function ParseGeometryType(decoded: Result<string>): (r: Result<GeometryType>)
    ensures r.Success? ==> decoded == Success(GeometryName(r.value))
    ensures decoded.Success? ==> (r.Success? <==> exists g :: GeometryName(g) == decoded.value)
  {
    match UnmarshalYaml(decoded, GeometryNames)
    case Failure(e) =>
      assert forall g :: GeometryName(g) in GeometryNames by {
        forall g ensures GeometryName(g) in GeometryNames { GeometryNameListed(g); }
      }
      Failure("unknown geometry type with error: " + e)
    case Success(s) =>
      if s == "points" then Success(Points)
      else if s == "lines" then Success(Lines)
      else if s == "polygons" then Success(Polygons)
      else if s == "solids" then Success(Solids)
      else Success(Any)
  }
}
