/** The older model layer (pkg/models.go), the one the validator was written against:
    paths for three relations only, built from format templates; formats as a map
    from media type to name; and a query-only UpdateHref. Its relations, records,
    SplitParams, WithOtherRelation and allow-list decoding are the same code as the
    newer layer's and share their model (Relations, Formats, Links, Decode). */
module Legacy {
  import opened Wrappers
  import opened Text
  import opened Decode
  import R = Relations
  import F = Formats
  import L = Links

  /** A format string with a single `%s`: the identifier goes between the two parts. */
  datatype Template = Template(prefix: string, suffix: string)

  function Fill(t: Template, id: string): (s: string)
    ensures |s| == |t.prefix| + |id| + |t.suffix|
    ensures s[..|t.prefix|] == t.prefix && s[|t.prefix|..|t.prefix| + |id|] == id
  {
    t.prefix + id + t.suffix
  }

  /** The resource templates `styleResource`, `styleMetadataResource` and
      `stylesPreviewResource`; their values are not defined in this file, so they
      are parameters of the model. */
  datatype Templates = Templates(style: Template, styleMetadata: Template, preview: Template)

  /** The values the newer layer gives the same three paths. */
  const CurrentTemplates: Templates :=
    Templates(Template("styles/", ""), Template("styles/", "/metadata"), Template("resources/", ""))

  /** The relations this layer knows a path for. */
  predicate HasPath(r: R.LinkRelation) {
    r in {R.StylesheetRelation, R.DescribedbyRelation, R.PreviewRelation}
  }

  /** The template a relation with a path is formatted with. */
  function TemplateOf(t: Templates, r: R.LinkRelation): Template
    requires HasPath(r)
  {
    if r == R.StylesheetRelation then t.style
    else if r == R.DescribedbyRelation then t.styleMetadata
    else t.preview
  }

  /** LinkRelation.ToPath of the older layer. */
  function ToPath(t: Templates, r: R.LinkRelation, id: string): (p: Result<string>)
    ensures p.Success? <==> HasPath(r)
    ensures p.Failure? ==> p.error == "no path known for link relation: " + R.Name(r)
    ensures p.Success? ==> p.value == Fill(TemplateOf(t, r), id)
  {
    match r
    case StylesheetRelation => Success(Fill(t.style, id))
    case DescribedbyRelation => Success(Fill(t.styleMetadata, id))
    case PreviewRelation => Success(Fill(t.preview, id))
    case _ => Failure("no path known for link relation: " + R.Name(r))
  }

  /** With the newer layer's template values the two layers give the same paths, but
      this layer has none for the styles collection and for `preload`. */
  lemma PathsAgreeWithNewerLayer(r: R.LinkRelation, id: string)
    ensures HasPath(r) ==> R.HasPath(r) && ToPath(CurrentTemplates, r, id) == R.ToPath(r, id)
    ensures R.HasPath(r) && !HasPath(r) <==> r == R.StylesRelation || r == R.PreloadRelation
  {
    assert "styles/" + id + "" == R.StyleResource(id);
    assert "resources/" + id + "" == R.ResourceResource(id);
  }

  /** LinkRelation.ToUrl of the older layer. */
  function ToUrl(t: Templates, r: R.LinkRelation, baseResource: string, id: string): (u: Result<string>)
    ensures u.Success? <==> ToPath(t, r, id).Success?
    ensures u.Success? ==> u.value == baseResource + "/" + ToPath(t, r, id).value
    ensures u.Failure? ==> u.error == ToPath(t, r, id).error
  {
    match ToPath(t, r, id)
    case Failure(e) => Failure(e)
    case Success(path) => Success(baseResource + "/" + path)
  }

  /** knownFormats: media type to format name (no `image/png`, unlike the newer layer). */
  const KnownFormats: map<F.MediaType, string> := map[
    F.JsonMediaType := "json", F.HtmlMediaType := "html",
    F.SldMediaType := "sld", F.MapboxMediaType := "mapbox"]

  /** The name a root media type is found under: the built-in map first, then the
      catalog's map, which may be absent (nil). */
  function LookupFormat(root: F.MediaType, additionalFormats: Option<map<F.MediaType, string>>): (f: Option<string>)
    ensures root in KnownFormats ==> f == Some(KnownFormats[root])
    ensures root !in KnownFormats ==>
              (f.Some? <==> additionalFormats.Some? && root in additionalFormats.value)
    ensures root !in KnownFormats && f.Some? ==> f.value == additionalFormats.value[root]
  {
    if root in KnownFormats then Some(KnownFormats[root])
    else if additionalFormats.None? then None
    else if root in additionalFormats.value then Some(additionalFormats.value[root])
    else None
  }

  /** MediaType.ToFormat of the older layer: a miss is the empty format; a hit gets,
      when versioned, the digit runs of its `version` parameter appended. */
  function ToFormat(m: F.MediaType, additionalFormats: Option<map<F.MediaType, string>>, versioned: bool): string {
    match LookupFormat(F.MediaRoot(m), additionalFormats)
    case None => ""
    case Some(format) =>
      var params := F.MediaParams(m);
      if versioned && "version" in params then format + Join(DigitRuns(params["version"]), "")
      else format
  }

  /** A miss gives the empty format; a hit gives the found name, followed, when
      versioned, by exactly the digits of the `version` parameter. An absent catalog
      map behaves as an empty one. */
  lemma ToFormatFindsName(m: F.MediaType, additionalFormats: Option<map<F.MediaType, string>>, versioned: bool)
    ensures LookupFormat(F.MediaRoot(m), additionalFormats).None? ==> ToFormat(m, additionalFormats, versioned) == ""
    ensures LookupFormat(F.MediaRoot(m), additionalFormats).Some? ==>
              ToFormat(m, additionalFormats, versioned) ==
                LookupFormat(F.MediaRoot(m), additionalFormats).value
                + (if versioned && "version" in F.MediaParams(m) then Digits(F.MediaParams(m)["version"]) else "")
    ensures ToFormat(m, None, versioned) == ToFormat(m, Some(map[]), versioned)
  {
    if "version" in F.MediaParams(m) {
      JoinedDigitRuns(F.MediaParams(m)["version"]);
    }
  }

  /** The four built-in media types of this layer are built-ins of the newer layer,
      at these positions of its search order. */
  lemma KnownFormatIsBuiltin(root: F.MediaType) returns (i: nat)
    requires root in KnownFormats
    ensures i < |F.KnownBaseFormats| && F.KnownBaseFormats[i].mediaType == root
    ensures F.KnownBaseFormats[i].name == KnownFormats[root]
  {
    if root == F.JsonMediaType { i := 0; }
    else if root == F.HtmlMediaType { i := 1; }
    else if root == F.SldMediaType { i := 2; }
    else { i := 3; }
  }

  /** For the built-in media types both layers give the same format name, whatever
      either catalog adds, versioned or not. */
  lemma ToFormatAgreesOnBuiltins(m: F.MediaType, legacyFormats: Option<map<F.MediaType, string>>,
                                 additionalFormats: seq<F.Format>, versioned: bool)
    requires F.MediaRoot(m) in KnownFormats
    ensures ToFormat(m, legacyFormats, versioned) == F.FormatFor(m, additionalFormats, versioned).name
  {
    var i := KnownFormatIsBuiltin(F.MediaRoot(m));
    F.BuiltinMatch(i, F.MediaRoot(m));
    F.FirstWithMediaTypeOfPrefix(F.KnownBaseFormats, additionalFormats, F.MediaRoot(m));
  }

  /** A plain media type missing from the built-in map has no format without a catalog map. */
  lemma PlainUnlistedHasNoFormat(m: F.MediaType, versioned: bool)
    requires ';' !in m && m !in KnownFormats
    ensures ToFormat(m, None, versioned) == ""
  {
    SplitWithoutSeparator(m, ';');
    assert F.MediaRoot(m) == m;
  }

  /** `image/png` is a built-in of the newer layer only: here it has no format. */
  lemma PngUnknown()
    ensures ToFormat(F.PngMediaType, None, true) == ""
    ensures F.FormatFor(F.PngMediaType, [], true).name == "png"
  {
    assert F.PngMediaType !in KnownFormats by {
      assert F.PngMediaType[0] == 'i';
    }
    PlainUnlistedHasNoFormat(F.PngMediaType, true);
    F.PlainBuiltin(4, [], true);
  }

  /** Format.ToQuery of the older layer, where a format is its name. */
  function ToQuery(format: string): (q: string)
    ensures q == "" <==> format == ""
    ensures q != "" ==> |q| >= 2 && q[..2] == "f=" && q[2..] == format
  {
    if format != "" then "f=" + format else ""
  }

  /** The format name of a link; a link without a type has none. */
  function LinkFormat(link: L.Link, additionalFormats: Option<map<F.MediaType, string>>): (f: string)
    ensures link.mediaType.None? ==> f == ""
  {
    match link.mediaType
    case None => ""
    case Some(m) => ToFormat(m, additionalFormats, true)
  }

  /** The href UpdateHref writes: the relation's URL, followed by `?f=<versioned name>`
      when the link's type has a format. */
  function ResolvedHref(t: Templates, link: L.Link, baseResource: string, styleId: string,
                        additionalFormats: Option<map<F.MediaType, string>>): (r: Result<string>)
    ensures r.Success? <==> HasPath(link.rel)
    ensures r.Failure? ==> r.error == ToUrl(t, link.rel, baseResource, styleId).error
    ensures r.Success? ==>
              var url := ToUrl(t, link.rel, baseResource, styleId).value;
              var format := LinkFormat(link, additionalFormats);
              && url <= r.value
              && (format == "" <==> r.value == url)
              && (format != "" ==> r.value[|url|..] == "?f=" + format)
  {
    match ToUrl(t, link.rel, baseResource, styleId)
    case Failure(e) => Failure(e)
    case Success(url) =>
      var query := ToQuery(LinkFormat(link, additionalFormats));
      if query != "" then
        assert (url + "?" + query)[|url|..] == "?" + query;
        Success(url + "?" + query)
      else Success(url)
  }

  /** Link.UpdateHref of the older layer. The link is passed in and the updated link
      handed back: on an error it is unchanged; otherwise only its href is overwritten,
      whatever it held. */
  method UpdateHref(t: Templates, link: L.Link, baseResource: string, styleId: string,
                    additionalFormats: Option<map<F.MediaType, string>>) returns (updated: L.Link, err: Option<string>)
    ensures err.Some? <==> ResolvedHref(t, link, baseResource, styleId, additionalFormats).Failure?
    ensures err.Some? ==> updated == link && err.value == ResolvedHref(t, link, baseResource, styleId, additionalFormats).error
    ensures err.None? ==> updated == link.(href := Some(ResolvedHref(t, link, baseResource, styleId, additionalFormats).value))
  {
    var url := ToUrl(t, link.rel, baseResource, styleId);
    if url.Failure? {
      return link, Some(url.error);
    }
    var format := "";
    if link.mediaType.Some? {
      format := ToFormat(link.mediaType.value, additionalFormats, true);
    }
    var formatParams := ToQuery(format);
    var href := url.value;
    if formatParams != "" {
      href := href + "?" + formatParams;
    }
    return link.(href := Some(href)), None;
  }

  /** For the three relations it knows and the built-in media types, this layer's
      href is the newer layer's query-style href. */
  lemma ResolvedHrefAgreesWithQueryStyle(link: L.Link, baseResource: string, styleId: string,
                                         legacyFormats: Option<map<F.MediaType, string>>, additionalFormats: seq<F.Format>)
    requires HasPath(link.rel)
    requires link.mediaType.Some? ==> F.MediaRoot(link.mediaType.value) in KnownFormats
    ensures ResolvedHref(CurrentTemplates, link, baseResource, styleId, legacyFormats)
            == L.ResolvedHref(link, baseResource, styleId, additionalFormats, true, false)
  {
    PathsAgreeWithNewerLayer(link.rel, styleId);
    if link.mediaType.Some? {
      ToFormatAgreesOnBuiltins(link.mediaType.value, legacyFormats, additionalFormats, true);
    }
    assert LinkFormat(link, legacyFormats) == L.LinkFormat(link, additionalFormats, true).name;
  }

  /** The older layer's data types. */
  datatype DataType = Vector | MapData | Coverage

  function DataTypeName(d: DataType): string {
    match d
    case Vector => "vector"
    case MapData => "map"
    case Coverage => "coverage"
  }

  /** The allow-list `dataTypes`, as names. */
  const DataTypeNames: seq<string> := ["vector", "map", "coverage"]

  /** DataType.UnmarshalYAML: the three names decode, each to its type. Every failure,
      a decoder error included, gets the same message: it says "geometry type" and
      formats the empty string where the value would go. */
  function ParseDataType(decoded: Result<string>): (r: Result<DataType>)
    ensures r.Success? <==> decoded.Success? && decoded.value in DataTypeNames
    ensures r.Success? ==> DataTypeName(r.value) == decoded.value
    ensures r.Failure? ==> r.error == "unknown geometry type "
  {
    match UnmarshalYaml(decoded, DataTypeNames)
    case Failure(_) => Failure("unknown geometry type " + "")
    case Success(s) =>
      if s == "vector" then Success(Vector)
      else if s == "map" then Success(MapData)
      else Success(Coverage)
  }

  /** Both layers accept the same fifteen relation names, in the same order. */
  lemma AllowListUnchanged()
    ensures R.Names(R.KnownRelations) == [
      "alternate", "collection", "describedby", "enclosure", "preview", "self",
      "service-desc", "service-doc", "start", "stylesheet",
      "http://www.opengis.net/def/rel/ogc/1.0/schema",
      "http://www.opengis.net/def/rel/ogc/1.0/styles",
      "http://www.opengis.net/def/rel/ogc/1.0/conformance",
      "http://www.opengis.net/def/rel/ogc/1.0/tilesets-vector",
      "http://www.opengis.net/def/rel/ogc/1.0/tileset-coverage"]
  {
  }
}
