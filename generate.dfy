/** Document generation (pkg/generate.go and pkg/render.go): for every style the
    metadata-link assets, the stylesheet assets and the metadata renderings, then the
    styles collection, queued with fail-fast error handling. */
module Generate {
  import opened Wrappers
  import opened Seqs
  import opened Relations
  import opened Formats
  import opened Links
  import opened Catalog

  /** What is rendered as JSON. */
  datatype Renderable = MetadataObject(metadata: StyleMetadata) | StylesObject(collection: Styles)

  /** The world outside the generator: reading an asset file, parsing and executing it
      as a text template against the catalog, and JSON encoding. */
  datatype Env = Env(
    readAsset: string -> Option<Bytes>,
    executeTemplate: (Bytes, OGCStyles) -> Option<Bytes>,
    encodeJson: Renderable -> Result<Bytes>)

  /** One generation run: the catalog, the asset directory, the requested formats. */
  datatype Run = Run(catalog: OGCStyles, assetDir: string, formats: seq<Format>, env: Env)

  // ---- rendering ----

  /** How `%v` prints a Format. */
  function FormatText(f: Format): string {
    "{" + f.mediaType + " " + f.name + " " + f.extension + "}"
  }

  /** Render: only the JSON format has a renderer; it encodes the object as a JSON
      document at the path. */
  function Render(obj: Renderable, path: string, format: Format, env: Env): (r: Result<Document>)
    ensures r.Success? <==> format == JsonFormat && env.encodeJson(obj).Success?
    ensures format != JsonFormat ==> r == Failure("format: " + FormatText(format) + " not implemented")
    ensures r.Success? ==>
              && r.value.path == path && r.value.mediaType == JsonMediaType
              && r.value.content == Some(env.encodeJson(obj).value) && r.value.error.None?
  {
    if format != JsonFormat then Failure("format: " + FormatText(format) + " not implemented")
    else
      match env.encodeJson(obj)
      case Failure(e) => Failure("error: " + e + ", could not render document to file")
      case Success(content) => Success(Document(path, JsonMediaType, Some(content), None))
  }

  function RenderSubmission(obj: Renderable, path: string, format: Format, env: Env): Submission {
    match Render(obj, path, format, env)
    case Failure(e) => Submission(None, Some(e))
    case Success(d) => Submission(Some(d), None)
  }

  /** One rendering per requested format, in order. */
  function Renderings(obj: Renderable, path: string, formats: seq<Format>, env: Env): (subs: seq<Submission>)
    ensures |subs| == |formats|
  {
    seq(|formats|, i requires 0 <= i < |formats| => RenderSubmission(obj, path, formats[i], env))
  }

  /** The loop over the formats that renders one object and queues each result. */
  method RenderAll(obj: Renderable, path: string, formats: seq<Format>, env: Env, queue: DocumentQueue)
    returns (ok: bool)
    modifies queue
    ensures ok <==> NoErrors(Renderings(obj, path, formats, env))
    ensures queue.items == old(queue.items) + Emitted(Renderings(obj, path, formats, env))
  {
    ghost var subs := Renderings(obj, path, formats, env);
    for i := 0 to |formats|
      invariant NoErrors(subs[..i])
      invariant queue.items == old(queue.items) + Emitted(subs[..i])
    {
      var r := Render(obj, path, formats[i], env);
      EmittedStep(subs, i);
      ok := queue.Add(if r.Success? then Some(r.value) else None, if r.Failure? then Some(r.error) else None);
      if !ok {
        return;
      }
      TakeNext(subs, i);
    }
    TakeAll(subs, |formats|);
    return true;
  }

  // ---- single links ----

  /** generateMetadataLink: the self link of a style's metadata. */
  function MetadataSelfLink(id: string, baseResource: string): (l: Link)
    ensures l.rel == SelfRelation && l.title == Some("Style Metadata for " + id)
    ensures l.href == Some(ToUrl(DescribedbyRelation, baseResource, id).value)
    ensures l.mediaType.None? && l.assetFilename.None?
  {
    Link(None, Some(baseResource + "/" + StyleMetadataResource(id)), SelfRelation, None,
         Some("Style Metadata for " + id), None, None)
  }

  predicate HasAsset(rel: LinkRelation) {
    rel == StylesheetRelation || rel == PreviewRelation
  }

  /** The href as a message prints it. */
  function HrefText(link: Link): string {
    link.href.GetOr("")
  }

  /** generateAssetFromLinkRelation: a stylesheet or preview link yields the asset file
      rendered as a template against the catalog as configured, stored at the link's path (keyed by
      the asset file name for a preview, by the style id otherwise); other relations
      yield no document. */
  function AssetDocument(run: Run, link: Link, styleId: string): (r: Result<Option<Document>>)
    ensures !HasAsset(link.rel) ==> r == Success(None)
    ensures HasAsset(link.rel) && link.assetFilename.None? ==>
              r == Failure("asset-filename not specified for stylesheet " + HrefText(link))
    ensures r.Success? && HasAsset(link.rel) ==> link.assetFilename.Some? && r.value.Some?
    ensures r.Success? && r.value.Some? ==>
              var d := r.value.value;
              var file := link.assetFilename.value;
              var content := run.env.readAsset(run.assetDir + "/" + file);
              && content.Some?
              && d.content == run.env.executeTemplate(content.value, run.catalog)
              && d.path == LinkToPath(link, if link.rel == PreviewRelation then file else styleId,
                                      run.catalog.additionalFormats).value
              && d.mediaType == link.mediaType.GetOr("")
              && d.error.None?
  {
    if !HasAsset(link.rel) then Success(None)
    else if link.assetFilename.None? then
      Failure("asset-filename not specified for stylesheet " + HrefText(link))
    else
      var filename := link.assetFilename.value;
      var assetPath := run.assetDir + "/" + filename;
      match run.env.readAsset(assetPath)
      case None => Failure("could not find asset " + assetPath)
      case Some(assetContent) =>
        match run.env.executeTemplate(assetContent, run.catalog)
        case None => Failure("could not find format asset: " + assetPath)
        case Some(content) =>
          var identifier := if link.rel == PreviewRelation then filename else styleId;
          var path := LinkToPath(link, identifier, run.catalog.additionalFormats).value;
          Success(Some(Document(path, link.mediaType.GetOr(""), Some(content), None)))
  }

  function Wrapped(run: Run, e: string, styleId: string): string {
    "error: " + e + " could not update href with base url: " + run.catalog.baseResource + " and id: " + styleId
  }

  /** The result of resolving one link (of type T: a metadata link or a stylesheet):
      the value written back into the metadata, its asset document, the link it
      contributes to the styles collection and whether it is the self link. */
  datatype Outcome<T> = Outcome(updated: T, document: Option<Document>, contribution: Option<Link>, isSelf: bool)

  /** generateStyleMetadata. A `self` link gets the metadata URL and is contributed
      relabelled `describedby`; a `stylesheet` link gets its href and is skipped; any
      other link gets its href in extension style and yields its asset and itself. */
  function MetadataLinkOutcome(run: Run, link: Link, styleId: string): (r: Result<Outcome<Link>>)
    ensures link.rel == SelfRelation ==>
              && r.Success? && r.value.isSelf && r.value.document.None?
              && r.value.updated == link.(href := MetadataSelfLink(styleId, run.catalog.baseResource).href)
              && r.value.contribution == Some(WithOtherRelation(r.value.updated, DescribedbyRelation))
    ensures link.rel != SelfRelation ==>
              var href := ResolvedHref(link, run.catalog.baseResource, styleId, run.catalog.additionalFormats, false, true);
              && (href.Failure? ==> r == Failure(Wrapped(run, href.error, styleId)))
              && (r.Success? ==> href.Success? && r.value.updated == link.(href := Some(href.value)) && !r.value.isSelf)
    ensures r.Success? ==> r.value.updated.rel == link.rel && r.value.updated.href.Some?
    ensures link.rel == StylesheetRelation && r.Success? ==> r.value.document.None? && r.value.contribution.None?
    ensures link.rel != StylesheetRelation && link.rel != SelfRelation && r.Success? ==>
              r.value.contribution == Some(r.value.updated)
              && AssetDocument(run, r.value.updated, styleId) == Success(r.value.document)
  {
    var c := run.catalog;
    if link.rel == SelfRelation then
      var updated := link.(href := MetadataSelfLink(styleId, c.baseResource).href);
      Success(Outcome(updated, None, Some(WithOtherRelation(updated, DescribedbyRelation)), true))
    else
      match ResolvedHref(link, c.baseResource, styleId, c.additionalFormats, false, true)
      case Failure(e) => Failure(Wrapped(run, e, styleId))
      case Success(href) =>
        var updated := link.(href := Some(href));
        if link.rel == StylesheetRelation then Success(Outcome(updated, None, None, false))
        else
          match AssetDocument(run, updated, styleId)
          case Failure(e) => Failure(Wrapped(run, e, styleId))
          case Success(document) => Success(Outcome(updated, document, Some(updated), false))
  }

  /** generateStyleMetadata as the step the loop over the metadata links calls. */
  method GenerateStyleMetadata(run: Run, link: Link, styleId: string) returns (r: Result<Outcome<Link>>)
    ensures r == MetadataLinkOutcome(run, link, styleId)
  {
    var c := run.catalog;
    if link.rel == SelfRelation {
      var updated := link.(href := MetadataSelfLink(styleId, c.baseResource).href);
      return Success(Outcome(updated, None, Some(WithOtherRelation(updated, DescribedbyRelation)), true));
    }
    var updated, err := UpdateHref(link, c.baseResource, styleId, c.additionalFormats, false, true);
    if err.Some? {
      return Failure(Wrapped(run, err.value, styleId));
    }
    if link.rel == StylesheetRelation {
      return Success(Outcome(updated, None, None, false));
    }
    var document := AssetDocument(run, updated, styleId);
    if document.Failure? {
      return Failure(Wrapped(run, document.error, styleId));
    }
    return Success(Outcome(updated, document.value, Some(updated), false));
  }

  /** generateStylesheet: the stylesheet's link gets its href in query style, then
      yields its asset; the link is contributed to the styles collection. */
  function StylesheetOutcome(run: Run, sheet: StyleSheet, styleId: string): (r: Result<Outcome<StyleSheet>>)
    ensures var href := ResolvedHref(sheet.link, run.catalog.baseResource, styleId, run.catalog.additionalFormats, true, false);
            && (href.Failure? ==> r == Failure(Wrapped(run, href.error, styleId)))
            && (r.Success? ==>
                  && href.Success?
                  && r.value.updated == sheet.(link := sheet.link.(href := Some(href.value)))
                  && AssetDocument(run, r.value.updated.link, styleId) == Success(r.value.document)
                  && r.value.contribution == Some(r.value.updated.link)
                  && !r.value.isSelf)
  {
    var c := run.catalog;
    match ResolvedHref(sheet.link, c.baseResource, styleId, c.additionalFormats, true, false)
    case Failure(e) => Failure(Wrapped(run, e, styleId))
    case Success(href) =>
      var updated := sheet.link.(href := Some(href));
      match AssetDocument(run, updated, styleId)
      case Failure(e) => Failure(Wrapped(run, e, styleId))
      case Success(document) => Success(Outcome(sheet.(link := updated), document, Some(updated), false))
  }

  method GenerateStylesheet(run: Run, sheet: StyleSheet, styleId: string) returns (r: Result<Outcome<StyleSheet>>)
    ensures r == StylesheetOutcome(run, sheet, styleId)
  {
    var c := run.catalog;
    var updated, err := UpdateHref(sheet.link, c.baseResource, styleId, c.additionalFormats, true, false);
    if err.Some? {
      return Failure(Wrapped(run, err.value, styleId));
    }
    var document := AssetDocument(run, updated, styleId);
    if document.Failure? {
      return Failure(Wrapped(run, document.error, styleId));
    }
    return Success(Outcome(sheet.(link := updated), document.value, Some(updated), false));
  }

  // ---- sequences of outcomes ----

  /** The Add call of one outcome. */
  function Submit<T>(r: Result<Outcome<T>>): Submission {
    if r.Success? then Submission(r.value.document, None) else Submission(None, Some(r.error))
  }

  /** The Add calls of a loop over outcomes, in order. */
  function Subs<T>(o: seq<Result<Outcome<T>>>): (subs: seq<Submission>)
    ensures |subs| == |o|
  {
    if o == [] then [] else Subs(o[..|o| - 1]) + [Submit(o[|o| - 1])]
  }

  /** The updated values of the successful outcomes. */
  function UpdatedOf<T>(o: seq<Result<Outcome<T>>>): seq<T> {
    if o == [] then []
    else UpdatedOf(o[..|o| - 1]) + (if o[|o| - 1].Success? then [o[|o| - 1].value.updated] else [])
  }

  /** The links the successful outcomes contribute. */
  function ContributionsOf<T>(o: seq<Result<Outcome<T>>>): seq<Link> {
    if o == [] then []
    else
      var last := o[|o| - 1];
      ContributionsOf(o[..|o| - 1]) + (if last.Success? && last.value.contribution.Some? then [last.value.contribution.value] else [])
  }

  /** Whether a successful outcome is the self link. */
  predicate AnySelf<T>(o: seq<Result<Outcome<T>>>) {
    o != [] && (AnySelf(o[..|o| - 1]) || (o[|o| - 1].Success? && o[|o| - 1].value.isSelf))
  }

  lemma OutcomePrefixStep<T>(o: seq<Result<Outcome<T>>>, i: nat)
    requires i < |o|
    ensures Subs(o[..i + 1]) == Subs(o[..i]) + [Submit(o[i])]
    ensures o[i].Success? ==> UpdatedOf(o[..i + 1]) == UpdatedOf(o[..i]) + [o[i].value.updated]
    ensures o[i].Success? ==>
              ContributionsOf(o[..i + 1]) == ContributionsOf(o[..i])
                + (if o[i].value.contribution.Some? then [o[i].value.contribution.value] else [])
    ensures AnySelf(o[..i + 1]) == (AnySelf(o[..i]) || (o[i].Success? && o[i].value.isSelf))
  {
    assert o[..i + 1][..i] == o[..i];
  }

  lemma {:induction false} SubsPrefix<T>(o: seq<Result<Outcome<T>>>, k: nat)
    requires k <= |o|
    ensures Subs(o[..k]) <= Subs(o)
    decreases |o| - k
  {
    if k < |o| {
      SubsPrefix(o, k + 1);
      assert o[..k + 1][..k] == o[..k];
    } else {
      assert o[..k] == o;
    }
  }

  /** What one pass of a loop over outcomes adds to the queue, and that a failing pass
      ends it. */
  lemma LoopStep<T>(o: seq<Result<Outcome<T>>>, i: nat)
    requires i < |o| && NoErrors(Subs(o[..i]))
    ensures Emitted(Subs(o[..i + 1])) == Emitted(Subs(o[..i])) + AddOutput(Submit(o[i]))
    ensures o[i].Failure? ==> !NoErrors(Subs(o)) && Emitted(Subs(o)) == Emitted(Subs(o[..i + 1]))
    ensures o[i].Success? ==> NoErrors(Subs(o[..i + 1]))
  {
    var p, x := Subs(o[..i]), Submit(o[i]);
    OutcomePrefixStep(o, i);
    EmittedAppend(p, [x]);
    EmittedSingle(x);
    NoErrorsAppend(p, [x]);
    if o[i].Failure? {
      SubsPrefix(o, i + 1);
      EmittedPrefixStops(p + [x], Subs(o));
    }
  }

  // ---- one style ----

  /** The outcomes of a style's metadata links, in order. */
  function Outcomes(run: Run, s: StyleMetadata): (o: seq<Result<Outcome<Link>>>)
    ensures |o| == |s.links|
  {
    seq(|s.links|, i requires 0 <= i < |s.links| => MetadataLinkOutcome(run, s.links[i], s.id))
  }

  /** The outcomes of a style's stylesheets, in order. */
  function SheetOutcomes(run: Run, s: StyleMetadata): (o: seq<Result<Outcome<StyleSheet>>>)
    ensures |o| == |s.stylesheets|
  {
    seq(|s.stylesheets|, i requires 0 <= i < |s.stylesheets| => StylesheetOutcome(run, s.stylesheets[i], s.id))
  }

  /** o holds the outcomes of the style's metadata links and so those of its stylesheets
      (stated per element, so that a loop can use one element at a time). */
  predicate AreOutcomes(run: Run, s: StyleMetadata, o: seq<Result<Outcome<Link>>>, so: seq<Result<Outcome<StyleSheet>>>) {
    && |o| == |s.links| && |so| == |s.stylesheets|
    && (forall k {:trigger MetadataLinkOutcome(run, s.links[k], s.id)} :: 0 <= k < |o| ==> o[k] == MetadataLinkOutcome(run, s.links[k], s.id))
    && (forall k {:trigger StylesheetOutcome(run, s.stylesheets[k], s.id)} :: 0 <= k < |so| ==> so[k] == StylesheetOutcome(run, s.stylesheets[k], s.id))
  }

  lemma OutcomesAre(run: Run, s: StyleMetadata)
    ensures AreOutcomes(run, s, Outcomes(run, s), SheetOutcomes(run, s))
  {
  }

  lemma OutcomesUnique(run: Run, s: StyleMetadata, o: seq<Result<Outcome<Link>>>, so: seq<Result<Outcome<StyleSheet>>>)
    requires AreOutcomes(run, s, o, so)
    ensures o == Outcomes(run, s) && so == SheetOutcomes(run, s)
  {
    assert forall k | 0 <= k < |o| :: o[k] == MetadataLinkOutcome(run, s.links[k], s.id);
    assert forall k | 0 <= k < |so| :: so[k] == StylesheetOutcome(run, s.stylesheets[k], s.id);
  }

  /** The self link added when no metadata link is one. */
  function SelfIfMissing(hasSelf: bool, id: string, baseResource: string): seq<Link> {
    if hasSelf then [] else [MetadataSelfLink(id, baseResource)]
  }

  function DescribedbyOf(links: seq<Link>): (r: seq<Link>)
    ensures |r| == |links|
    ensures forall i :: 0 <= i < |r| ==> r[i] == WithOtherRelation(links[i], DescribedbyRelation)
  {
    seq(|links|, i requires 0 <= i < |links| => WithOtherRelation(links[i], DescribedbyRelation))
  }

  /** The title shown in the collection; a style without one shows the empty title. */
  function StyleTitle(s: StyleMetadata): string {
    s.title.GetOr("")
  }

  /** The style metadata as rendered, from the outcomes: hrefs written, the self link
      added if missing. */
  function MetadataOf(run: Run, s: StyleMetadata, o: seq<Result<Outcome<Link>>>, so: seq<Result<Outcome<StyleSheet>>>): StyleMetadata {
    WithLinks(s, UpdatedOf(o) + SelfIfMissing(AnySelf(o), s.id, run.catalog.baseResource), UpdatedOf(so))
  }

  /** The metadata with its links and stylesheets replaced. */
  function WithLinks(s: StyleMetadata, links: seq<Link>, sheets: seq<StyleSheet>): StyleMetadata {
    s.(links := links, stylesheets := sheets)
  }

  /** The style's collection entry, from the outcomes: the metadata links'
      contributions, the added self link relabelled `describedby`, the stylesheet links. */
  function EntryOf(run: Run, s: StyleMetadata, o: seq<Result<Outcome<Link>>>, so: seq<Result<Outcome<StyleSheet>>>): Style {
    Style(s.id, StyleTitle(s),
          ContributionsOf(o) + DescribedbyOf(SelfIfMissing(AnySelf(o), s.id, run.catalog.baseResource)) + ContributionsOf(so))
  }

  /** The Add calls for one style, from the outcomes: metadata-link assets, stylesheet
      assets, metadata renderings. */
  function StyleSubsOf(run: Run, s: StyleMetadata, o: seq<Result<Outcome<Link>>>, so: seq<Result<Outcome<StyleSheet>>>): seq<Submission> {
    Subs(o) + Subs(so) + Renderings(MetadataObject(MetadataOf(run, s, o, so)), StyleMetadataResource(s.id), run.formats, run.env)
  }

  function ResolvedMetadata(run: Run, s: StyleMetadata): StyleMetadata {
    MetadataOf(run, s, Outcomes(run, s), SheetOutcomes(run, s))
  }

  function StyleEntry(run: Run, s: StyleMetadata): Style {
    EntryOf(run, s, Outcomes(run, s), SheetOutcomes(run, s))
  }

  function StyleSubmissions(run: Run, s: StyleMetadata): seq<Submission> {
    StyleSubsOf(run, s, Outcomes(run, s), SheetOutcomes(run, s))
  }

  // ---- the whole run ----

  function PerStyle(run: Run): (parts: seq<seq<Submission>>)
    ensures |parts| == |run.catalog.stylesMetadata|
  {
    var styles := run.catalog.stylesMetadata;
    seq(|styles|, k requires 0 <= k < |styles| => StyleSubmissions(run, styles[k]))
  }

  /** The styles collection: the catalog's default and one entry per style, in order,
      with that style's id and title. */
  function Collection(run: Run): (r: Styles)
    ensures r.defaultStyle == run.catalog.defaultStyle
    ensures |r.styles| == |run.catalog.stylesMetadata|
    ensures forall k :: 0 <= k < |r.styles| ==>
              r.styles[k].id == run.catalog.stylesMetadata[k].id
              && r.styles[k].title == StyleTitle(run.catalog.stylesMetadata[k])
  {
    var styles := run.catalog.stylesMetadata;
    Styles(run.catalog.defaultStyle, seq(|styles|, k requires 0 <= k < |styles| => StyleEntry(run, styles[k])))
  }

  function CollectionRenderings(run: Run): seq<Submission> {
    Renderings(StylesObject(Collection(run)), StylesResource, run.formats, run.env)
  }

  /** Every Add call of a run, in order, as if no step stopped it. */
  function RunSubmissions(run: Run): seq<Submission> {
    Flatten(PerStyle(run)) + CollectionRenderings(run)
  }

  /** What GenerateDocuments queues. */
  function GeneratedDocuments(run: Run): seq<Document> {
    Emitted(RunSubmissions(run))
  }

  /** Outcomes fixed by the predicate give the style's own entry and calls. */
  lemma FromOutcomes(run: Run, s: StyleMetadata, o: seq<Result<Outcome<Link>>>, so: seq<Result<Outcome<StyleSheet>>>)
    requires AreOutcomes(run, s, o, so)
    ensures StyleSubsOf(run, s, o, so) == StyleSubmissions(run, s)
    ensures EntryOf(run, s, o, so) == StyleEntry(run, s)
    ensures MetadataOf(run, s, o, so) == ResolvedMetadata(run, s)
  {
    OutcomesUnique(run, s, o, so);
  }

  /** es holds the collection entry of every style, in order (stated per element). */
  predicate AreEntries(run: Run, es: seq<Style>) {
    var styles := run.catalog.stylesMetadata;
    && |es| == |styles|
    && forall k {:trigger StyleEntry(run, styles[k])} :: 0 <= k < |es| ==> es[k] == StyleEntry(run, styles[k])
  }

  lemma EntriesExist(run: Run)
    ensures AreEntries(run, Collection(run).styles)
  {
  }

  lemma CollectionEntries(run: Run, es: seq<Style>)
    requires AreEntries(run, es)
    ensures Collection(run) == Styles(run.catalog.defaultStyle, es)
  {
    var styles := run.catalog.stylesMetadata;
    assert forall k | 0 <= k < |es| :: es[k] == StyleEntry(run, styles[k]);
  }

  lemma EntryStep(run: Run, k: nat, o: seq<Result<Outcome<Link>>>, so: seq<Result<Outcome<StyleSheet>>>, es: seq<Style>)
    requires k < |run.catalog.stylesMetadata| && AreOutcomes(run, run.catalog.stylesMetadata[k], o, so)
    requires AreEntries(run, es)
    ensures EntryOf(run, run.catalog.stylesMetadata[k], o, so) == es[k]
  {
    FromOutcomes(run, run.catalog.stylesMetadata[k], o, so);
  }

  // ---- the generator's loops ----

  /** One pass of the loop over the metadata links: generateStyleMetadata, then Add. */
  method MetadataLinkStep(run: Run, s: StyleMetadata, i: nat, queue: DocumentQueue,
                          ghost o: seq<Result<Outcome<Link>>>, ghost so: seq<Result<Outcome<StyleSheet>>>)
    returns (r: Result<Outcome<Link>>)
    requires i < |s.links| && AreOutcomes(run, s, o, so)
    modifies queue
    ensures r == o[i]
    ensures queue.items == old(queue.items) + AddOutput(Submit(r))
  {
    r := GenerateStyleMetadata(run, s.links[i], s.id);
    var _ := queue.Add(if r.Success? then r.value.document else None, if r.Failure? then Some(r.error) else None);
  }

  /** The loop over a style's metadata links: each href written, each asset queued, the
      collection links gathered; it stops at the first error. */
  method ResolveMetadataLinks(run: Run, s: StyleMetadata, queue: DocumentQueue,
                              ghost o: seq<Result<Outcome<Link>>>, ghost so: seq<Result<Outcome<StyleSheet>>>)
    returns (links: seq<Link>, contributions: seq<Link>, hasSelf: bool, ok: bool)
    requires AreOutcomes(run, s, o, so)
    modifies queue
    ensures ok <==> NoErrors(Subs(o))
    ensures queue.items == old(queue.items) + Emitted(Subs(o))
    ensures ok ==> links == UpdatedOf(o) && contributions == ContributionsOf(o) && hasSelf == AnySelf(o)
  {
    links, contributions, hasSelf := [], [], false;
    for i := 0 to |s.links|
      invariant links == UpdatedOf(o[..i])
      invariant contributions == ContributionsOf(o[..i])
      invariant hasSelf == AnySelf(o[..i])
      invariant NoErrors(Subs(o[..i]))
      invariant queue.items == old(queue.items) + Emitted(Subs(o[..i]))
    {
      var r := MetadataLinkStep(run, s, i, queue, o, so);
      LoopStep(o, i);
      OutcomePrefixStep(o, i);
      AppendTwo(old(queue.items), Emitted(Subs(o[..i])), AddOutput(Submit(r)));
      if r.Failure? {
        return links, contributions, hasSelf, false;
      }
      links := links + [r.value.updated];
      if r.value.contribution.Some? {
        contributions := contributions + [r.value.contribution.value];
      }
      hasSelf := hasSelf || r.value.isSelf;
    }
    TakeAll(o, |s.links|);
    ok := true;
  }

  /** One pass of the loop over the stylesheets: generateStylesheet, then Add. */
  method SheetStep(run: Run, s: StyleMetadata, i: nat, queue: DocumentQueue,
                   ghost o: seq<Result<Outcome<Link>>>, ghost so: seq<Result<Outcome<StyleSheet>>>)
    returns (r: Result<Outcome<StyleSheet>>)
    requires i < |s.stylesheets| && AreOutcomes(run, s, o, so)
    modifies queue
    ensures r == so[i]
    ensures queue.items == old(queue.items) + AddOutput(Submit(r))
  {
    r := GenerateStylesheet(run, s.stylesheets[i], s.id);
    var _ := queue.Add(if r.Success? then r.value.document else None, if r.Failure? then Some(r.error) else None);
  }

  /** The loop over a style's stylesheets: each link's href written, each asset queued,
      each link gathered for the collection; it stops at the first error. */
  method ResolveStylesheets(run: Run, s: StyleMetadata, queue: DocumentQueue,
                            ghost o: seq<Result<Outcome<Link>>>, ghost so: seq<Result<Outcome<StyleSheet>>>)
    returns (sheets: seq<StyleSheet>, contributions: seq<Link>, ok: bool)
    requires AreOutcomes(run, s, o, so)
    modifies queue
    ensures ok <==> NoErrors(Subs(so))
    ensures queue.items == old(queue.items) + Emitted(Subs(so))
    ensures ok ==> sheets == UpdatedOf(so) && contributions == ContributionsOf(so)
  {
    sheets, contributions := [], [];
    for i := 0 to |s.stylesheets|
      invariant sheets == UpdatedOf(so[..i])
      invariant contributions == ContributionsOf(so[..i])
      invariant NoErrors(Subs(so[..i]))
      invariant queue.items == old(queue.items) + Emitted(Subs(so[..i]))
    {
      var r := SheetStep(run, s, i, queue, o, so);
      LoopStep(so, i);
      OutcomePrefixStep(so, i);
      AppendTwo(old(queue.items), Emitted(Subs(so[..i])), AddOutput(Submit(r)));
      if r.Failure? {
        return sheets, contributions, false;
      }
      sheets := sheets + [r.value.updated];
      if r.value.contribution.Some? {
        contributions := contributions + [r.value.contribution.value];
      }
    }
    TakeAll(so, |s.stylesheets|);
    ok := true;
  }

  /** The body of the loop over the styles: links, stylesheets, then the metadata
      renderings; it returns the style's collection entry. */
  method ProcessStyle(run: Run, s: StyleMetadata, queue: DocumentQueue,
                      ghost o: seq<Result<Outcome<Link>>>, ghost so: seq<Result<Outcome<StyleSheet>>>)
    returns (entry: Style, ok: bool)
    requires AreOutcomes(run, s, o, so)
    modifies queue
    ensures ok <==> NoErrors(StyleSubsOf(run, s, o, so))
    ensures queue.items == old(queue.items) + Emitted(StyleSubsOf(run, s, o, so))
    ensures ok ==> entry == EntryOf(run, s, o, so)
  {
    var c := run.catalog;
    ghost var rendered := Renderings(MetadataObject(MetadataOf(run, s, o, so)), StyleMetadataResource(s.id), run.formats, run.env);
    EmittedThree(Subs(o), Subs(so), rendered);
    entry := Style(s.id, StyleTitle(s), []);
    var links, linkContributions, hasSelf;
    links, linkContributions, hasSelf, ok := ResolveMetadataLinks(run, s, queue, o, so);
    if !ok {
      return;
    }
    var added := SelfIfMissing(hasSelf, s.id, c.baseResource);
    var sheets, sheetContributions;
    sheets, sheetContributions, ok := ResolveStylesheets(run, s, queue, o, so);
    if !ok {
      return;
    }
    entry := Style(s.id, StyleTitle(s), linkContributions + DescribedbyOf(added) + sheetContributions);
    var metadata := WithLinks(s, links + added, sheets);
    ok := RenderAll(MetadataObject(metadata), StyleMetadataResource(s.id), run.formats, run.env, queue);
    AppendThree(old(queue.items), Emitted(Subs(o)), Emitted(Subs(so)), Emitted(rendered));
  }

  /** GenerateDocuments: every style in order, then the styles collection in every
      format, all queued; the run ends at the first error, which is the last document
      queued. */
  method GenerateDocuments(run: Run, queue: DocumentQueue) returns (ok: bool)
    modifies queue
    ensures ok <==> NoErrors(RunSubmissions(run))
    ensures queue.items == old(queue.items) + GeneratedDocuments(run)
  {
    var styles := run.catalog.stylesMetadata;
    ghost var all := PerStyle(run);
    ghost var tail := CollectionRenderings(run);
    EntriesExist(run);
    ghost var es :| AreEntries(run, es);
    assert AreEntries(run, es);
    var entries: seq<Style> := [];
    for k := 0 to |styles|
      invariant |es| == |styles| && entries == es[..k]
      invariant NoErrors(Flatten(all[..k]))
      invariant queue.items == old(queue.items) + Emitted(Flatten(all[..k]))
    {
      OutcomesAre(run, styles[k]);
      ghost var o, so :| AreOutcomes(run, styles[k], o, so);
      FromOutcomes(run, styles[k], o, so);
      EntryStep(run, k, o, so, es);
      FlattenLoopStep(all, k, tail);
      var entry;
      entry, ok := ProcessStyle(run, styles[k], queue, o, so);
      AppendTwo(old(queue.items), Emitted(Flatten(all[..k])), Emitted(all[k]));
      if !ok {
        return;
      }
      TakeNext(es, k);
      entries := entries + [entry];
    }
    TakeAll(all, |styles|);
    assert entries == es;
    var collection := Styles(run.catalog.defaultStyle, entries);
    CollectionEntries(run, es);
    EmittedAppend(Flatten(all), tail);
    NoErrorsAppend(Flatten(all), tail);
    ok := RenderAll(StylesObject(collection), StylesResource, run.formats, run.env, queue);
    AppendTwo(old(queue.items), Emitted(Flatten(all)), Emitted(tail));
  }
}
