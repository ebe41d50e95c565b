/** The generator as its source is written, where that differs from the model the
    rest of this project uses: each member keeps one defect (a nil dereference that
    panics, a suffix test without its dot, an unreachable branch), proves how it
    shows, and proves that outside of it the written code and the corrected model
    agree. */
module AsWritten {
  import opened Wrappers
  import opened Text
  import opened Relations
  import opened Formats
  import opened Links
  import opened Catalog
  import opened Generate
  import Legacy

  /** What a Go call does: returns a value or panics. */
  datatype Go<T> = Value(value: T) | Panic(reason: string)

  const NilDereference: string := "invalid memory address or nil pointer dereference"

  // ---- a link without a type (pkg/models/styles.go:81 and :96, pkg/models.go:268) ----

  /** Link.UpdateHref's href as written: once the relation has a URL, the link's type
      is dereferenced to look up its format, so an untyped link panics. */
  function ResolvedHrefAsWritten(link: Link, baseResource: string, styleId: string, additionalFormats: seq<Format>,
                                 withQuery: bool, withExtension: bool): (r: Go<Result<string>>)
    ensures r.Panic? <==> !(withQuery && withExtension) && HasPath(link.rel) && link.mediaType.None?
    ensures r.Value? ==> r.value == ResolvedHref(link, baseResource, styleId, additionalFormats, withQuery, withExtension)
  {
    if withQuery && withExtension then Value(Failure(BothFormattingsError))
    else
      match ToUrl(link.rel, baseResource, styleId)
      case Failure(e) => Value(Failure(e))
      case Success(url) =>
        match link.mediaType
        case None => Panic(NilDereference)
        case Some(m) =>
          var format := FormatFor(m, additionalFormats, true);
          if withQuery && ToQuery(format) != "" then Value(Success(url + "?" + ToQuery(format)))
          else if withExtension && format.extension != "" then Value(Success(url + "." + format.extension))
          else Value(Success(url))
  }

  /** An untyped link of a relation with a path panics in either href style, where the
      corrected model writes the bare URL. */
  lemma UntypedLinkPanics(link: Link, baseResource: string, styleId: string, additionalFormats: seq<Format>, withQuery: bool)
    requires HasPath(link.rel) && link.mediaType.None?
    ensures ResolvedHrefAsWritten(link, baseResource, styleId, additionalFormats, withQuery, !withQuery).Panic?
    ensures ResolvedHref(link, baseResource, styleId, additionalFormats, withQuery, !withQuery)
            == Success(baseResource + "/" + ToPath(link.rel, styleId).value)
  {
  }

  /** The older layer's UpdateHref as written: the same dereference. */
  function LegacyResolvedHrefAsWritten(t: Legacy.Templates, link: Link, baseResource: string, styleId: string,
                                       additionalFormats: Option<map<MediaType, string>>): (r: Go<Result<string>>)
    ensures r.Panic? <==> Legacy.HasPath(link.rel) && link.mediaType.None?
    ensures r.Value? ==> r.value == Legacy.ResolvedHref(t, link, baseResource, styleId, additionalFormats)
  {
    match Legacy.ToUrl(t, link.rel, baseResource, styleId)
    case Failure(e) => Value(Failure(e))
    case Success(url) =>
      match link.mediaType
      case None => Panic(NilDereference)
      case Some(m) =>
        var query := Legacy.ToQuery(Legacy.ToFormat(m, additionalFormats, true));
        if query != "" then Value(Success(url + "?" + query)) else Value(Success(url))
  }

  // ---- the extension test without its dot (pkg/models/styles.go:82) ----

  /** Link.ToPath as written: the type is dereferenced, and the extension is added
      unless the path ends with the extension's letters, dot or no dot. */
  function LinkToPathAsWritten(link: Link, id: string, additionalFormats: seq<Format>): (p: Go<Result<string>>)
    ensures p.Panic? <==> HasPath(link.rel) && link.mediaType.None?
    ensures !HasPath(link.rel) ==> p == Value(LinkToPath(link, id, additionalFormats))
    ensures p.Value? && HasPath(link.rel) ==>
              var path := ToPath(link.rel, id).value;
              var ext := LinkFormat(link, additionalFormats, false).extension;
              && p.value.Success?
              && (p.value.value == path <==> ext == "" || HasSuffix(path, ext))
              && (p.value.value != path ==> p.value.value == path + "." + ext)
  {
    match ToPath(link.rel, id)
    case Failure(e) => Value(Failure(e))
    case Success(path) =>
      match link.mediaType
      case None => Panic(NilDereference)
      case Some(m) =>
        var ext := FormatFor(m, additionalFormats, false).extension;
        if ext != "" && !HasSuffix(path, ext) then
          assert path + "." + ext != path;
          Value(Success(path + "." + ext))
        else Value(Success(path))
  }

  /** A string that ends with `.` and an extension ends with the extension. */
  lemma DottedSuffix(s: string, ext: string)
    requires HasSuffix(s, "." + ext)
    ensures HasSuffix(s, ext)
  {
    assert s[|s| - |ext|..] == s[|s| - |ext| - 1..][1..];
  }

  /** For a typed link the written test and the corrected one differ exactly on paths
      that end with the extension's letters but not with `.` and the extension. */
  lemma LinkToPathAgrees(link: Link, id: string, additionalFormats: seq<Format>)
    requires HasPath(link.rel) && link.mediaType.Some?
    ensures var path := ToPath(link.rel, id).value;
            var ext := LinkFormat(link, additionalFormats, false).extension;
            LinkToPathAsWritten(link, id, additionalFormats) == Value(LinkToPath(link, id, additionalFormats))
            <==> !(ext != "" && HasSuffix(path, ext) && !HasSuffix(path, "." + ext))
  {
    var path := ToPath(link.rel, id).value;
    var ext := LinkFormat(link, additionalFormats, false).extension;
    if HasSuffix(path, "." + ext) {
      DottedSuffix(path, ext);
    }
  }

  /** A stylesheet whose identifier ends with its extension's letters (no dot) is
      stored without the extension; the corrected path has it. */
  lemma ExtensionLettersSwallowed(link: Link, stem: string, additionalFormats: seq<Format>)
    requires link.rel == StylesheetRelation && link.mediaType.Some?
    requires LinkFormat(link, additionalFormats, false).extension != ""
    requires '.' !in stem && '.' !in LinkFormat(link, additionalFormats, false).extension
    ensures var ext := LinkFormat(link, additionalFormats, false).extension;
            && LinkToPathAsWritten(link, stem + ext, additionalFormats) == Value(Success("styles/" + stem + ext))
            && LinkToPath(link, stem + ext, additionalFormats) == Success("styles/" + stem + ext + "." + ext)
  {
    var ext := LinkFormat(link, additionalFormats, false).extension;
    var id := stem + ext;
    assert '.' !in id by {
      forall j | 0 <= j < |id| ensures id[j] != '.' {
        if j < |stem| { assert id[j] == stem[j]; } else { assert id[j] == ext[j - |stem|]; }
      }
    }
    Seqs.AppendTwo("styles/", stem, ext);
    EndsWithAppended("styles/" + stem, ext);
    StylesheetPathWith(link, id, additionalFormats, ext);
  }

  /** An SLD-typed link stores its file with the `sld` extension. */
  lemma SldExtension(link: Link, additionalFormats: seq<Format>)
    requires link.mediaType == Some(SldMediaType)
    ensures LinkFormat(link, additionalFormats, false).extension == "sld"
  {
    BuiltinLinkFormat(link, 2, additionalFormats, false);
  }

  /** The style `nightsld` with a stylesheet of extension `sld` (an SLD stylesheet, by
      SldExtension): `styles/nightsld`, not `styles/nightsld.sld`. */
  lemma NightsldStylesheet(link: Link, additionalFormats: seq<Format>)
    requires link.rel == StylesheetRelation && link.mediaType.Some?
    requires LinkFormat(link, additionalFormats, false).extension == "sld"
    ensures LinkToPathAsWritten(link, "night" + "sld", additionalFormats) == Value(Success("styles/" + "night" + "sld"))
    ensures LinkToPath(link, "night" + "sld", additionalFormats) == Success("styles/" + "night" + "sld" + "." + "sld")
  {
    ExtensionLettersSwallowed(link, "night", additionalFormats);
  }

  // ---- generateStyleMetadata and the loop that calls it (pkg/generate.go:39-45, 86-106) ----

  /** One metadata link as written: the href is updated first (which fails for `self`,
      a relation without a path), and a `stylesheet` link hands back no link, which
      the loop then dereferences. */
  function MetadataLinkAsWritten(run: Run, link: Link, styleId: string): (r: Go<Result<Outcome<Link>>>)
    ensures link.rel == SelfRelation ==>
              r == Value(Failure(Wrapped(run, "no path known for link relation: " + Name(SelfRelation), styleId)))
    ensures r.Panic? <==>
              (link.rel == StylesheetRelation || (HasPath(link.rel) && link.mediaType.None?))
  {
    var c := run.catalog;
    match ResolvedHrefAsWritten(link, c.baseResource, styleId, c.additionalFormats, false, true)
    case Panic(p) => Panic(p)
    case Value(Failure(e)) => Value(Failure(Wrapped(run, e, styleId)))
    case Value(Success(href)) =>
      var updated := link.(href := Some(href));
      if link.rel == StylesheetRelation then Panic(NilDereference)
      else if link.rel != SelfRelation then
        match AssetDocument(run, updated, styleId)
        case Failure(e) => Value(Failure(Wrapped(run, e, styleId)))
        case Success(document) => Value(Success(Outcome(updated, document, Some(updated), false)))
      else Value(Success(Outcome(updated, None, Some(WithOtherRelation(updated, DescribedbyRelation)), true)))
  }

  /** As written no metadata link is ever reported as the self link: a declared `self`
      link aborts the run, so the self link is always synthesised. The corrected model
      keeps it, gives it the metadata URL and relabels it `describedby`. */
  lemma DeclaredSelfLinkAborts(run: Run, link: Link, styleId: string)
    requires link.rel == SelfRelation
    ensures MetadataLinkAsWritten(run, link, styleId).Value?
    ensures MetadataLinkAsWritten(run, link, styleId).value.Failure?
    ensures MetadataLinkOutcome(run, link, styleId).Success? && MetadataLinkOutcome(run, link, styleId).value.isSelf
  {
  }

  lemma NeverSelf(run: Run, link: Link, styleId: string)
    ensures MetadataLinkAsWritten(run, link, styleId).Value? && MetadataLinkAsWritten(run, link, styleId).value.Success?
            ==> !MetadataLinkAsWritten(run, link, styleId).value.value.isSelf
  {
  }

  /** A typed `stylesheet` link among the metadata links panics; the corrected model
      skips it: no document and nothing for the collection. */
  lemma StylesheetMetadataLinkPanics(run: Run, link: Link, styleId: string)
    requires link.rel == StylesheetRelation && link.mediaType.Some?
    ensures MetadataLinkAsWritten(run, link, styleId).Panic?
    ensures MetadataLinkOutcome(run, link, styleId).Success?
    ensures MetadataLinkOutcome(run, link, styleId).value.document.None?
    ensures MetadataLinkOutcome(run, link, styleId).value.contribution.None?
  {
  }

  /** Every other metadata link is resolved as the corrected model resolves it. */
  lemma MetadataLinkAgrees(run: Run, link: Link, styleId: string)
    requires link.rel != SelfRelation && link.rel != StylesheetRelation
    requires HasPath(link.rel) ==> link.mediaType.Some?
    ensures MetadataLinkAsWritten(run, link, styleId) == Value(MetadataLinkOutcome(run, link, styleId))
  {
  }

  // ---- the title of a collection entry (pkg/generate.go:64-66) ----

  /** The entry's title as written: the metadata's title pointer is dereferenced. */
  function EntryTitleAsWritten(s: StyleMetadata): (t: Go<string>)
    ensures t.Panic? <==> s.title.None?
    ensures t.Value? ==> t.value == StyleTitle(s)
  {
    match s.title
    case None => Panic(NilDereference)
    case Some(title) => Value(title)
  }

  /** A style without a title panics; the corrected collection lists it with the empty title. */
  lemma UntitledStylePanics(run: Run, k: nat)
    requires k < |run.catalog.stylesMetadata| && run.catalog.stylesMetadata[k].title.None?
    ensures EntryTitleAsWritten(run.catalog.stylesMetadata[k]).Panic?
    ensures Collection(run).styles[k].title == ""
  {
  }
}
