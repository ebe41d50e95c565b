/** The catalog records and link resolution (pkg/models/styles.go): a link's file
    path and the href UpdateHref writes into it. */
module Links {
  import opened Wrappers
  import opened Text
  import opened Relations
  import opened Formats

  /** A link as configured; every Go pointer field is an Option. */
  datatype Link = Link(
    assetFilename: Option<string>,
    href: Option<string>,
    rel: LinkRelation,
    mediaType: Option<MediaType>,
    title: Option<string>,
    hreflang: Option<string>,
    length: Option<int>)

  datatype StyleSheet = StyleSheet(
    title: Option<string>,
    version: Option<string>,
    specification: Option<string>,
    native: Option<bool>,
    link: Link)

  /** A layer of the style metadata; the properties schema is an empty record, so only
      its presence is kept. */
  datatype Layer = Layer(
    id: string,
    geometryType: Option<GeometryType>,
    sampleData: Link,
    propertiesSchema: Option<()>)

  datatype StyleMetadata = StyleMetadata(
    id: string,
    title: Option<string>,
    description: Option<string>,
    keywords: seq<string>,
    pointOfContact: Option<string>,
    license: Option<string>,
    created: Option<string>,
    updated: Option<string>,
    scope: Option<string>,
    version: Option<string>,
    stylesheets: seq<StyleSheet>,
    layers: seq<Layer>,
    links: seq<Link>)

  /** One entry of the styles collection. */
  datatype Style = Style(id: string, title: string, links: seq<Link>)

  /** The styles collection document. */
  datatype Styles = Styles(defaultStyle: string, styles: seq<Style>)

  /** Link.WithOtherRelation: a copy that differs from the link in its relation only. */
  function WithOtherRelation(link: Link, otherRelation: LinkRelation): (r: Link)
    ensures r.rel == otherRelation
    ensures r.(rel := link.rel) == link
  {
    link.(rel := otherRelation)
  }

  /** The format of a link's media type; a link without a type has no format. */
  function LinkFormat(link: Link, additionalFormats: seq<Format>, versioned: bool): (f: Format)
    ensures link.mediaType.None? ==> f == ZeroFormat
    ensures link.mediaType.Some? ==> f == FormatFor(link.mediaType.value, additionalFormats, versioned)
  {
    match link.mediaType
    case None => ZeroFormat
    case Some(m) => FormatFor(m, additionalFormats, versioned)
  }

  /** Link.ToPath: the relation's path for the identifier, with `.` and the extension
      of the link's unversioned format appended unless the path already ends with
      them (an identifier that merely ends in the extension's letters still gets it). */
  function LinkToPath(link: Link, id: string, additionalFormats: seq<Format>): (p: Result<string>)
    ensures p.Success? <==> HasPath(link.rel)
    ensures p.Failure? ==> p.error == ToPath(link.rel, id).error
    ensures p.Success? ==>
              var path := ToPath(link.rel, id).value;
              var ext := LinkFormat(link, additionalFormats, false).extension;
              && path <= p.value
              && (p.value == path <==> ext == "" || HasSuffix(path, "." + ext))
              && (p.value != path ==> p.value == path + "." + ext)
              && (ext != "" ==> HasSuffix(p.value, "." + ext))
  {
    match ToPath(link.rel, id)
    case Failure(e) => Failure(e)
    case Success(path) =>
      var ext := LinkFormat(link, additionalFormats, false).extension;
      if ext != "" && !HasSuffix(path, "." + ext) then
        assert path + "." + ext == path + ("." + ext);
        Success(path + "." + ext)
      else Success(path)
  }

  const BothFormattingsError: string := "href may not contain both a format query parameter and extension"

  /** The href UpdateHref writes: the relation's URL, followed by `?f=<versioned name>`
      (query style) or `.<extension>` (extension style) when that part is non-empty. */
  function ResolvedHref(link: Link, baseResource: string, styleId: string, additionalFormats: seq<Format>,
                        withQuery: bool, withExtension: bool): (r: Result<string>)
    ensures r.Success? <==> !(withQuery && withExtension) && HasPath(link.rel)
    ensures withQuery && withExtension ==> r == Failure(BothFormattingsError)
    ensures !(withQuery && withExtension) && r.Failure? ==> r.error == ToUrl(link.rel, baseResource, styleId).error
    ensures r.Success? ==> ToUrl(link.rel, baseResource, styleId).value <= r.value
    ensures r.Success? && !withQuery && !withExtension ==> r.value == ToUrl(link.rel, baseResource, styleId).value
  {
    if withQuery && withExtension then Failure(BothFormattingsError)
    else
      match ToUrl(link.rel, baseResource, styleId)
      case Failure(e) => Failure(e)
      case Success(url) =>
        var format := LinkFormat(link, additionalFormats, true);
        if withQuery && ToQuery(format) != "" then Success(url + "?" + ToQuery(format))
        else if withExtension && format.extension != "" then Success(url + "." + format.extension)
        else Success(url)
  }

  /** Link.UpdateHref. The link is passed in and the updated link handed back: on an
      error it is unchanged; otherwise only its href is overwritten, whatever it held. */
  method UpdateHref(link: Link, baseResource: string, styleId: string, additionalFormats: seq<Format>,
                    withQuery: bool, withExtension: bool) returns (updated: Link, err: Option<string>)
    ensures err.Some? <==> ResolvedHref(link, baseResource, styleId, additionalFormats, withQuery, withExtension).Failure?
    ensures err.Some? ==>
      updated == link && err.value == ResolvedHref(link, baseResource, styleId, additionalFormats, withQuery, withExtension).error
    ensures err.None? ==>
      updated == link.(href := Some(ResolvedHref(link, baseResource, styleId, additionalFormats, withQuery, withExtension).value))
  {
    if withQuery && withExtension {
      return link, Some(BothFormattingsError);
    }
    var url := ToUrl(link.rel, baseResource, styleId);
    if url.Failure? {
      return link, Some(url.error);
    }
    var format := ZeroFormat;
    if link.mediaType.Some? {
      format := ToFormat(link.mediaType.value, additionalFormats, true);
    }
    var formatString := "";
    var href := url.value;
    if withQuery {
      formatString := ToQuery(format);
      if formatString != "" {
        href := href + "?" + formatString;
      }
    } else if withExtension {
      formatString := format.extension;
      if formatString != "" {
        href := href + "." + formatString;
      }
    }
    return link.(href := Some(href)), None;
  }

  /** In query style the href names the versioned format: the catalog's format name
      followed by the digits of the type's `version` parameter. */
  lemma QueryHrefNamesVersionedFormat(link: Link, baseResource: string, styleId: string, additionalFormats: seq<Format>)
    requires HasPath(link.rel) && link.mediaType.Some?
    requires FormatFor(link.mediaType.value, additionalFormats, false).name != ""
    ensures
      var m := link.mediaType.value;
      var version := if "version" in MediaParams(m) then Digits(MediaParams(m)["version"]) else "";
      ResolvedHref(link, baseResource, styleId, additionalFormats, true, false)
        == Success(baseResource + "/" + ToPath(link.rel, styleId).value
                   + "?f=" + FormatFor(m, additionalFormats, false).name + version)
  {
    var m := link.mediaType.value;
    var version := if "version" in MediaParams(m) then Digits(MediaParams(m)["version"]) else "";
    var name := FormatFor(m, additionalFormats, false).name;
    VersioningOnlyChangesName(m, additionalFormats);
    assert LinkFormat(link, additionalFormats, true).name == name + version;
    QueryHref(link, baseResource, styleId, additionalFormats, name + version);
    Seqs.AppendTwo(ToUrl(link.rel, baseResource, styleId).value + "?f=", name, version);
  }

  /** A query-style href is the relation's URL with `?f=` and the versioned format name. */
  lemma QueryHref(link: Link, baseResource: string, id: string, additionalFormats: seq<Format>, name: string)
    requires HasPath(link.rel) && name != "" && LinkFormat(link, additionalFormats, true).name == name
    ensures ResolvedHref(link, baseResource, id, additionalFormats, true, false)
              == Success(ToUrl(link.rel, baseResource, id).value + "?f=" + name)
  {
    var url := ToUrl(link.rel, baseResource, id).value;
    assert url + "?" + ("f=" + name) == url + "?f=" + name;
  }

  /** In extension style the href is the URL of the file Link.ToPath names, unless the
      relation's path already ends with the extension. */
  lemma ExtensionHrefIsDocumentUrl(link: Link, baseResource: string, id: string, additionalFormats: seq<Format>)
    requires HasPath(link.rel)
    requires !HasSuffix(ToPath(link.rel, id).value, "." + LinkFormat(link, additionalFormats, false).extension)
    ensures ResolvedHref(link, baseResource, id, additionalFormats, false, true)
              == Success(baseResource + "/" + LinkToPath(link, id, additionalFormats).value)
  {
    if link.mediaType.Some? {
      VersioningOnlyChangesName(link.mediaType.value, additionalFormats);
    }
    var path := ToPath(link.rel, id).value;
    var ext := LinkFormat(link, additionalFormats, false).extension;
    assert LinkFormat(link, additionalFormats, true).extension == ext;
    if ext != "" {
      assert LinkToPath(link, id, additionalFormats).value == path + "." + ext;
      assert baseResource + "/" + path + "." + ext == baseResource + "/" + (path + "." + ext);
    }
  }

  // ---- the documents and hrefs of the example catalog ----

  /** A path without any `.` cannot end with `.<extension>`. */
  lemma NoDotSuffix(prefix: string, id: string, ext: string)
    requires '.' !in prefix && '.' !in id
    ensures !HasSuffix(prefix + id, "." + ext)
  {
    var path := prefix + id;
    forall j | 0 <= j < |path| ensures path[j] != '.' {
      if j < |prefix| { assert path[j] == prefix[j]; } else { assert path[j] == id[j - |prefix|]; }
    }
    if |ext| + 1 <= |path| {
      assert path[|path| - |ext| - 1..][0] != ("." + ext)[0];
    }
  }

  /** A stylesheet whose identifier has no `.` is stored at `styles/<id>.<extension>`
      (at `styles/<id>` when its format has no extension). */
  lemma StylesheetPath(link: Link, id: string, additionalFormats: seq<Format>)
    requires link.rel == StylesheetRelation && '.' !in id
    ensures var ext := LinkFormat(link, additionalFormats, false).extension;
            LinkToPath(link, id, additionalFormats) == Success("styles/" + id + (if ext == "" then "" else "." + ext))
  {
    var ext := LinkFormat(link, additionalFormats, false).extension;
    var path := "styles/" + id;
    var suffix := "." + ext;
    NoDotSuffix("styles/", id, ext);
    if ext != "" {
      assert path + "." + ext == "styles/" + id + ("." + ext);
    } else {
      assert path + "" == path;
    }
  }

  /** The file of a stylesheet whose identifier has no `.`, given its extension. */
  lemma StylesheetPathWith(link: Link, id: string, additionalFormats: seq<Format>, ext: string)
    requires link.rel == StylesheetRelation && '.' !in id
    requires ext != "" && LinkFormat(link, additionalFormats, false).extension == ext
    ensures LinkToPath(link, id, additionalFormats) == Success("styles/" + id + "." + ext)
  {
    StylesheetPath(link, id, additionalFormats);
    assert "styles/" + id + ("." + ext) == "styles/" + id + "." + ext;
  }

  /** The query-style href of a stylesheet, given its versioned format name. */
  lemma StylesheetQueryHref(link: Link, baseResource: string, id: string, additionalFormats: seq<Format>, name: string)
    requires link.rel == StylesheetRelation && name != "" && LinkFormat(link, additionalFormats, true).name == name
    ensures ResolvedHref(link, baseResource, id, additionalFormats, true, false)
              == Success(baseResource + "/styles/" + id + "?f=" + name)
  {
    QueryHref(link, baseResource, id, additionalFormats, name);
    assert baseResource + "/" + ("styles/" + id) == baseResource + "/styles/" + id;
  }

  /** Where a stylesheet with the given extension and versioned format name is stored
      and how it is referenced. */
  lemma StylesheetLocations(link: Link, baseResource: string, id: string, additionalFormats: seq<Format>,
                            ext: string, name: string)
    requires link.rel == StylesheetRelation && '.' !in id && ext != "" && name != ""
    requires LinkFormat(link, additionalFormats, false).extension == ext
    requires LinkFormat(link, additionalFormats, true).name == name
    ensures LinkToPath(link, id, additionalFormats) == Success("styles/" + id + "." + ext)
    ensures ResolvedHref(link, baseResource, id, additionalFormats, true, false)
              == Success(baseResource + "/styles/" + id + "?f=" + name)
  {
    StylesheetPathWith(link, id, additionalFormats, ext);
    StylesheetQueryHref(link, baseResource, id, additionalFormats, name);
  }

  /** The file of a preview whose asset file already carries the extension. */
  lemma PreviewAssetPath(link: Link, filename: string, additionalFormats: seq<Format>, ext: string)
    requires link.rel == PreviewRelation && ext != "" && LinkFormat(link, additionalFormats, false).extension == ext
    requires HasSuffix(filename, "." + ext)
    ensures LinkToPath(link, filename, additionalFormats) == Success("resources/" + filename)
  {
    var path := "resources/" + filename;
    assert path[|path| - |"." + ext|..] == filename[|filename| - |"." + ext|..];
  }

  /** The extension-style href of a preview, given its extension. */
  lemma PreviewExtensionHref(link: Link, baseResource: string, id: string, additionalFormats: seq<Format>, ext: string)
    requires link.rel == PreviewRelation && ext != "" && LinkFormat(link, additionalFormats, true).extension == ext
    ensures ResolvedHref(link, baseResource, id, additionalFormats, false, true)
              == Success(baseResource + "/resources/" + id + "." + ext)
  {
    var url := baseResource + "/" + ("resources/" + id);
    assert url == baseResource + "/resources/" + id;
  }

  /** The format of a link typed with a built-in media type is that built-in. */
  lemma BuiltinLinkFormat(link: Link, i: nat, additionalFormats: seq<Format>, versioned: bool)
    requires i < |KnownBaseFormats| && link.mediaType == Some(KnownBaseFormats[i].mediaType)
    ensures LinkFormat(link, additionalFormats, versioned) == KnownBaseFormats[i]
  {
    PlainBuiltin(i, additionalFormats, versioned);
  }

  lemma Sld10LinkFormat(link: Link, additionalFormats: seq<Format>)
    requires link.mediaType == Some(SldMediaType + ";version=1.0")
    ensures LinkFormat(link, additionalFormats, false).extension == "sld"
    ensures LinkFormat(link, additionalFormats, true).name == "sld10"
  {
    VersionedBuiltin(2, "1.0", additionalFormats);
    VersionOneDotZero();
    assert KnownBaseFormats[2].mediaType + ";version=" + "1.0" == SldMediaType + ";version=1.0";
  }

  lemma PngLinkFormat(link: Link, additionalFormats: seq<Format>)
    requires link.mediaType == Some(PngMediaType)
    ensures LinkFormat(link, additionalFormats, false).extension == "png"
    ensures LinkFormat(link, additionalFormats, true).extension == "png"
  {
    BuiltinLinkFormat(link, 4, additionalFormats, false);
    BuiltinLinkFormat(link, 4, additionalFormats, true);
  }

  /** A Mapbox stylesheet is stored at `styles/<id>.mapbox.json` and referenced as
      `styles/<id>?f=mapbox`. */
  lemma MapboxStylesheet(link: Link, baseResource: string, id: string, additionalFormats: seq<Format>)
    requires link.rel == StylesheetRelation && link.mediaType == Some(MapboxMediaType) && '.' !in id
    ensures LinkToPath(link, id, additionalFormats) == Success("styles/" + id + "." + "mapbox.json")
    ensures ResolvedHref(link, baseResource, id, additionalFormats, true, false)
              == Success(baseResource + "/styles/" + id + "?f=" + "mapbox")
  {
    BuiltinLinkFormat(link, 3, additionalFormats, false);
    BuiltinLinkFormat(link, 3, additionalFormats, true);
    StylesheetLocations(link, baseResource, id, additionalFormats, MapboxFormat.extension, MapboxFormat.name);
  }

  /** An SLD 1.0 stylesheet is stored at `styles/<id>.sld` and referenced as
      `styles/<id>?f=sld10`. */
  lemma Sld10Stylesheet(link: Link, baseResource: string, id: string, additionalFormats: seq<Format>)
    requires link.rel == StylesheetRelation && link.mediaType == Some(SldMediaType + ";version=1.0") && '.' !in id
    ensures LinkToPath(link, id, additionalFormats) == Success("styles/" + id + "." + "sld")
    ensures ResolvedHref(link, baseResource, id, additionalFormats, true, false)
              == Success(baseResource + "/styles/" + id + "?f=" + "sld10")
  {
    Sld10LinkFormat(link, additionalFormats);
    StylesheetLocations(link, baseResource, id, additionalFormats, "sld", "sld10");
  }

  /** A preview with extension ext in both lookups: stored under its asset file name,
      referenced by the style id with the extension. */
  lemma PreviewFile(link: Link, baseResource: string, filename: string, id: string, additionalFormats: seq<Format>, ext: string)
    requires link.rel == PreviewRelation && ext != "" && HasSuffix(filename, "." + ext)
    requires LinkFormat(link, additionalFormats, false).extension == ext
    requires LinkFormat(link, additionalFormats, true).extension == ext
    ensures LinkToPath(link, filename, additionalFormats) == Success("resources/" + filename)
    ensures ResolvedHref(link, baseResource, id, additionalFormats, false, true)
              == Success(baseResource + "/resources/" + id + "." + ext)
  {
    PreviewAssetPath(link, filename, additionalFormats, ext);
    PreviewExtensionHref(link, baseResource, id, additionalFormats, ext);
  }

  /** A PNG thumbnail is stored under the name of its asset file, which already ends
      in `.png`, and referenced by the style id: `resources/<id>.png`. */
  lemma PngThumbnail(link: Link, baseResource: string, filename: string, id: string, additionalFormats: seq<Format>)
    requires link.rel == PreviewRelation && link.mediaType == Some(PngMediaType) && HasSuffix(filename, "." + "png")
    ensures LinkToPath(link, filename, additionalFormats) == Success("resources/" + filename)
    ensures ResolvedHref(link, baseResource, id, additionalFormats, false, true)
              == Success(baseResource + "/resources/" + id + "." + "png")
  {
    PngLinkFormat(link, additionalFormats);
    PreviewFile(link, baseResource, filename, id, additionalFormats, "png");
  }
}
