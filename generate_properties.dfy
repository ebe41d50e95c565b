/** What the generator promises about every run (pkg/generate.go): a self link in every
    rendered metadata, a `describedby` link in every collection entry, links and
    stylesheets in their declared order, and fail-fast output. */
module GenerateProperties {
  import opened Wrappers
  import opened Seqs
  import opened Relations
  import opened Formats
  import opened Links
  import opened Catalog
  import opened Generate

  // ---- outcomes in general ----

  /** A self outcome is behind AnySelf, and what it writes back and contributes is kept. */
  lemma {:induction false} SelfOutcomeFound<T>(o: seq<Result<Outcome<T>>>)
    requires AnySelf(o)
    ensures exists k :: 0 <= k < |o| && o[k].Success? && o[k].value.isSelf
                        && o[k].value.updated in UpdatedOf(o)
                        && (o[k].value.contribution.Some? ==> o[k].value.contribution.value in ContributionsOf(o))
  {
    var n := |o| - 1;
    OutcomePrefixStep(o, n);
    assert o[..n + 1] == o;
    if o[n].Success? && o[n].value.isSelf {
      assert o[n].value.updated in UpdatedOf(o);
    } else {
      SelfOutcomeFound(o[..n]);
      var k :| 0 <= k < n && o[..n][k].Success? && o[..n][k].value.isSelf
               && o[..n][k].value.updated in UpdatedOf(o[..n])
               && (o[..n][k].value.contribution.Some? ==> o[..n][k].value.contribution.value in ContributionsOf(o[..n]));
      assert o[k] == o[..n][k];
      if o[n].Success? {
        assert UpdatedOf(o[..n]) <= UpdatedOf(o);
      }
    }
  }

  /** Without an error every outcome succeeded. */
  lemma {:induction false} AllSucceed<T>(o: seq<Result<Outcome<T>>>)
    requires NoErrors(Subs(o))
    ensures forall i :: 0 <= i < |o| ==> o[i].Success?
  {
    forall i | 0 <= i < |o| ensures o[i].Success? {
      SubsPrefix(o, i + 1);
      OutcomePrefixStep(o, i);
      assert Subs(o)[i] == Submit(o[i]);
    }
  }

  /** When every outcome succeeded, the updated values are all there, in order. */
  lemma {:induction false} UpdatedAll<T>(o: seq<Result<Outcome<T>>>)
    requires forall i :: 0 <= i < |o| ==> o[i].Success?
    ensures |UpdatedOf(o)| == |o|
    ensures forall i :: 0 <= i < |o| ==> UpdatedOf(o)[i] == o[i].value.updated
  {
    if o != [] {
      var n := |o| - 1;
      OutcomePrefixStep(o, n);
      assert o[..n + 1] == o;
      UpdatedAll(o[..n]);
    }
  }

  /** When every outcome succeeded with a contribution, the contributions are all
      there, in order. */
  lemma {:induction false} ContributionsAll<T>(o: seq<Result<Outcome<T>>>)
    requires forall i :: 0 <= i < |o| ==> o[i].Success? && o[i].value.contribution.Some?
    ensures |ContributionsOf(o)| == |o|
    ensures forall i :: 0 <= i < |o| ==> ContributionsOf(o)[i] == o[i].value.contribution.value
  {
    if o != [] {
      var n := |o| - 1;
      OutcomePrefixStep(o, n);
      assert o[..n + 1] == o;
      ContributionsAll(o[..n]);
    }
  }

  // ---- one style ----

  /** The metadata URL of a style. */
  function MetadataUrl(run: Run, id: string): string {
    run.catalog.baseResource + "/" + StyleMetadataResource(id)
  }

  /** A successful self outcome comes from a declared `self` link, rewritten to the
      metadata URL. */
  lemma SelfOutcomeIsSelfLink(run: Run, s: StyleMetadata, k: nat)
    requires k < |s.links|
    requires MetadataLinkOutcome(run, s.links[k], s.id).Success? && MetadataLinkOutcome(run, s.links[k], s.id).value.isSelf
    ensures s.links[k].rel == SelfRelation
    ensures MetadataLinkOutcome(run, s.links[k], s.id).value.updated.rel == SelfRelation
    ensures MetadataLinkOutcome(run, s.links[k], s.id).value.updated.href == Some(MetadataUrl(run, s.id))
    ensures MetadataLinkOutcome(run, s.links[k], s.id).value.contribution
            == Some(WithOtherRelation(MetadataLinkOutcome(run, s.links[k], s.id).value.updated, DescribedbyRelation))
  {
  }

  /** Every style's metadata, as rendered, has a self link to its own metadata URL:
      the declared one, rewritten, or the one added for it. */
  lemma ResolvedMetadataHasSelfLink(run: Run, s: StyleMetadata)
    ensures exists l :: l in ResolvedMetadata(run, s).links && l.rel == SelfRelation
                        && l.href == Some(MetadataUrl(run, s.id))
  {
    var o := Outcomes(run, s);
    var links := ResolvedMetadata(run, s).links;
    assert links == UpdatedOf(o) + SelfIfMissing(AnySelf(o), s.id, run.catalog.baseResource);
    if AnySelf(o) {
      SelfOutcomeFound(o);
      var k :| 0 <= k < |o| && o[k].Success? && o[k].value.isSelf && o[k].value.updated in UpdatedOf(o);
      SelfOutcomeIsSelfLink(run, s, k);
      assert o[k].value.updated in links;
    } else {
      assert MetadataSelfLink(s.id, run.catalog.baseResource) in links;
    }
  }

  /** Every collection entry links to its style's metadata with relation `describedby`
      (OGC API Styles requirement 3F). */
  lemma EntryHasDescribedbyLink(run: Run, s: StyleMetadata)
    ensures exists l :: l in StyleEntry(run, s).links && l.rel == DescribedbyRelation
                        && l.href == Some(MetadataUrl(run, s.id))
  {
    var o, so := Outcomes(run, s), SheetOutcomes(run, s);
    var added := SelfIfMissing(AnySelf(o), s.id, run.catalog.baseResource);
    var links := StyleEntry(run, s).links;
    assert links == ContributionsOf(o) + DescribedbyOf(added) + ContributionsOf(so);
    if AnySelf(o) {
      SelfOutcomeFound(o);
      var k :| 0 <= k < |o| && o[k].Success? && o[k].value.isSelf
               && (o[k].value.contribution.Some? ==> o[k].value.contribution.value in ContributionsOf(o));
      SelfOutcomeIsSelfLink(run, s, k);
      assert o[k].value.contribution.value in links;
    } else {
      assert DescribedbyOf(added)[0] in links;
    }
  }

  /** The href a metadata link gets (extension style) and the one a stylesheet gets
      (query style). */
  function ExtensionHref(run: Run, link: Link, id: string): Result<string> {
    ResolvedHref(link, run.catalog.baseResource, id, run.catalog.additionalFormats, false, true)
  }

  function QueryHref(run: Run, link: Link, id: string): Result<string> {
    ResolvedHref(link, run.catalog.baseResource, id, run.catalog.additionalFormats, true, false)
  }

  /** A style whose links all resolved renders them in declared order, each with its
      href in extension style (or the metadata URL for `self`), followed by the added
      self link when none was declared. */
  lemma MetadataLinksInOrder(run: Run, s: StyleMetadata)
    requires NoErrors(Subs(Outcomes(run, s)))
    ensures var links := ResolvedMetadata(run, s).links;
            && |links| == |s.links| + (if AnySelf(Outcomes(run, s)) then 0 else 1)
            && (forall i :: 0 <= i < |s.links| && s.links[i].rel != SelfRelation ==>
                  && ExtensionHref(run, s.links[i], s.id).Success?
                  && links[i] == s.links[i].(href := Some(ExtensionHref(run, s.links[i], s.id).value)))
            && (forall i :: 0 <= i < |s.links| && s.links[i].rel == SelfRelation ==>
                  links[i] == s.links[i].(href := Some(MetadataUrl(run, s.id))))
            && (!AnySelf(Outcomes(run, s)) ==> links[|s.links|] == MetadataSelfLink(s.id, run.catalog.baseResource))
  {
    var o := Outcomes(run, s);
    AllSucceed(o);
    UpdatedAll(o);
    var links := ResolvedMetadata(run, s).links;
    assert links == UpdatedOf(o) + SelfIfMissing(AnySelf(o), s.id, run.catalog.baseResource);
    forall i | 0 <= i < |s.links|
      ensures links[i] == o[i].value.updated
      ensures s.links[i].rel != SelfRelation ==>
                && ExtensionHref(run, s.links[i], s.id).Success?
                && links[i] == s.links[i].(href := Some(ExtensionHref(run, s.links[i], s.id).value))
      ensures s.links[i].rel == SelfRelation ==> links[i] == s.links[i].(href := Some(MetadataUrl(run, s.id)))
    {
      assert o[i] == MetadataLinkOutcome(run, s.links[i], s.id);
    }
  }

  /** A style whose stylesheets all resolved lists them last in its collection entry,
      in declared order, each with its href in query style; the rendered metadata
      holds the same links. */
  lemma StylesheetLinksInOrder(run: Run, s: StyleMetadata)
    requires NoErrors(Subs(SheetOutcomes(run, s)))
    ensures var so := SheetOutcomes(run, s);
            && |ContributionsOf(so)| == |s.stylesheets|
            && |ResolvedMetadata(run, s).stylesheets| == |s.stylesheets|
            && forall i :: 0 <= i < |s.stylesheets| ==>
                 && QueryHref(run, s.stylesheets[i].link, s.id).Success?
                 && ContributionsOf(so)[i] == s.stylesheets[i].link.(href := Some(QueryHref(run, s.stylesheets[i].link, s.id).value))
                 && ResolvedMetadata(run, s).stylesheets[i] == s.stylesheets[i].(link := ContributionsOf(so)[i])
  {
    var so := SheetOutcomes(run, s);
    AllSucceed(so);
    forall i | 0 <= i < |so|
      ensures so[i].value.contribution == Some(so[i].value.updated.link)
    {
      assert so[i] == StylesheetOutcome(run, s.stylesheets[i], s.id);
    }
    UpdatedAll(so);
    ContributionsAll(so);
    var sheets := ResolvedMetadata(run, s).stylesheets;
    assert sheets == UpdatedOf(so);
    forall i | 0 <= i < |s.stylesheets|
      ensures QueryHref(run, s.stylesheets[i].link, s.id).Success?
      ensures ContributionsOf(so)[i] == s.stylesheets[i].link.(href := Some(QueryHref(run, s.stylesheets[i].link, s.id).value))
      ensures sheets[i] == s.stylesheets[i].(link := ContributionsOf(so)[i])
    {
      assert so[i] == StylesheetOutcome(run, s.stylesheets[i], s.id);
    }
  }

  // ---- renderings ----

  /** The document Render yields for a JSON rendering that encodes. */
  function JsonDocument(obj: Renderable, path: string, env: Env): Document
    requires env.encodeJson(obj).Success?
  {
    Document(path, JsonMediaType, Some(env.encodeJson(obj).value), None)
  }

  /** Renderings that all succeed were all JSON, and queue one JSON document per format
      at the path, in order. */
  lemma {:induction false} RenderingsEmitted(obj: Renderable, path: string, formats: seq<Format>, env: Env)
    requires NoErrors(Renderings(obj, path, formats, env))
    ensures forall i :: 0 <= i < |formats| ==> formats[i] == JsonFormat
    ensures formats != [] ==> env.encodeJson(obj).Success?
    ensures formats != [] ==>
              Emitted(Renderings(obj, path, formats, env)) == seq(|formats|, i => JsonDocument(obj, path, env))
    ensures formats == [] ==> Emitted(Renderings(obj, path, formats, env)) == []
    decreases |formats|
  {
    var subs := Renderings(obj, path, formats, env);
    forall i | 0 <= i < |formats| ensures formats[i] == JsonFormat && env.encodeJson(obj).Success? {
      assert subs[i] == RenderSubmission(obj, path, formats[i], env);
    }
    if formats != [] {
      var rest := Renderings(obj, path, formats[1..], env);
      assert subs[1..] == rest;
      assert subs[0] == RenderSubmission(obj, path, formats[0], env);
      RenderingsEmitted(obj, path, formats[1..], env);
      var docs := seq(|formats|, i => JsonDocument(obj, path, env));
      if |formats| == 1 {
        assert Emitted(subs) == [JsonDocument(obj, path, env)] + Emitted(rest);
      } else {
        assert Emitted(subs) == [JsonDocument(obj, path, env)] + Emitted(rest);
        assert docs == [JsonDocument(obj, path, env)] + seq(|formats| - 1, i => JsonDocument(obj, path, env));
      }
    }
  }

  // ---- the whole run ----

  /** No submitted document is itself an error document. */
  predicate CleanDocuments(subs: seq<Submission>) {
    forall i :: 0 <= i < |subs| && subs[i].document.Some? ==> subs[i].document.value.error.None?
  }

  lemma CleanAppend(p: seq<Submission>, q: seq<Submission>)
    requires CleanDocuments(p) && CleanDocuments(q)
    ensures CleanDocuments(p + q)
  {
    forall i | 0 <= i < |p + q| && (p + q)[i].document.Some? ensures (p + q)[i].document.value.error.None? {
      if i >= |p| {
        assert (p + q)[i] == q[i - |p|];
      }
    }
  }

  lemma {:induction false} CleanFlatten(ss: seq<seq<Submission>>)
    requires forall k :: 0 <= k < |ss| ==> CleanDocuments(ss[k])
    ensures CleanDocuments(Flatten(ss))
  {
    if ss != [] {
      var n := |ss| - 1;
      CleanFlatten(ss[..n]);
      CleanAppend(Flatten(ss[..n]), ss[n]);
    }
  }

  lemma {:induction false} CleanSubs<T>(o: seq<Result<Outcome<T>>>)
    requires forall i :: 0 <= i < |o| && o[i].Success? && o[i].value.document.Some? ==> o[i].value.document.value.error.None?
    ensures CleanDocuments(Subs(o))
  {
    if o != [] {
      var n := |o| - 1;
      OutcomePrefixStep(o, n);
      assert o[..n + 1] == o;
      CleanSubs(o[..n]);
      CleanAppend(Subs(o[..n]), [Submit(o[n])]);
    }
  }

  lemma CleanRenderings(obj: Renderable, path: string, formats: seq<Format>, env: Env)
    ensures CleanDocuments(Renderings(obj, path, formats, env))
  {
    var subs := Renderings(obj, path, formats, env);
    forall i | 0 <= i < |subs| && subs[i].document.Some? ensures subs[i].document.value.error.None? {
      assert subs[i] == RenderSubmission(obj, path, formats[i], env);
    }
  }

  lemma CleanStyle(run: Run, s: StyleMetadata)
    ensures CleanDocuments(StyleSubmissions(run, s))
  {
    var o, so := Outcomes(run, s), SheetOutcomes(run, s);
    forall i | 0 <= i < |o| && o[i].Success? && o[i].value.document.Some? ensures o[i].value.document.value.error.None? {
      assert o[i] == MetadataLinkOutcome(run, s.links[i], s.id);
    }
    forall i | 0 <= i < |so| && so[i].Success? && so[i].value.document.Some? ensures so[i].value.document.value.error.None? {
      assert so[i] == StylesheetOutcome(run, s.stylesheets[i], s.id);
    }
    CleanSubs(o);
    CleanSubs(so);
    CleanRenderings(MetadataObject(ResolvedMetadata(run, s)), StyleMetadataResource(s.id), run.formats, run.env);
    CleanAppend(Subs(o), Subs(so));
    CleanAppend(Subs(o) + Subs(so), Renderings(MetadataObject(ResolvedMetadata(run, s)), StyleMetadataResource(s.id), run.formats, run.env));
  }

  /** Fail-fast: an error document can only be the last document a run queues, and one
      is queued exactly when some step failed. */
  lemma GenerationFailsFast(run: Run)
    ensures forall i :: 0 <= i < |GeneratedDocuments(run)| - 1 ==> GeneratedDocuments(run)[i].error.None?
    ensures (exists i :: 0 <= i < |GeneratedDocuments(run)| && GeneratedDocuments(run)[i].error.Some?)
            <==> !NoErrors(RunSubmissions(run))
  {
    var parts := PerStyle(run);
    forall k | 0 <= k < |parts| ensures CleanDocuments(parts[k]) {
      CleanStyle(run, run.catalog.stylesMetadata[k]);
    }
    CleanFlatten(parts);
    CleanRenderings(StylesObject(Collection(run)), StylesResource, run.formats, run.env);
    CleanAppend(Flatten(parts), CollectionRenderings(run));
    var subs := RunSubmissions(run);
    EmittedErrorIsLast(subs);
    var docs := GeneratedDocuments(run);
    assert docs == Emitted(subs);
    if exists i :: 0 <= i < |docs| && docs[i].error.Some? {
      var i :| 0 <= i < |docs| && docs[i].error.Some?;
      assert Emitted(subs)[i].error.Some?;
    }
    if !NoErrors(subs) {
      var i :| 0 <= i < |Emitted(subs)| && Emitted(subs)[i].error.Some?;
      assert docs[i].error.Some?;
    }
  }

  /** A run that completes rendered only JSON, and its last documents are the styles
      collection, once per requested format, at `styles`. */
  lemma CompletedRunEndsWithCollection(run: Run)
    requires NoErrors(RunSubmissions(run))
    ensures forall i :: 0 <= i < |run.formats| ==> run.formats[i] == JsonFormat
    ensures run.formats != [] ==>
              && run.env.encodeJson(StylesObject(Collection(run))).Success?
              && GeneratedDocuments(run)
                 == Emitted(Flatten(PerStyle(run)))
                    + seq(|run.formats|, i => JsonDocument(StylesObject(Collection(run)), StylesResource, run.env))
  {
    NoErrorsAppend(Flatten(PerStyle(run)), CollectionRenderings(run));
    EmittedAppend(Flatten(PerStyle(run)), CollectionRenderings(run));
    RenderingsEmitted(StylesObject(Collection(run)), StylesResource, run.formats, run.env);
  }

  /** The minimal catalog: one style without links or stylesheets, rendered as JSON,
      gives exactly two documents: its metadata with the added self link, then the
      collection whose one entry links to that metadata as `describedby`. */
  lemma MinimalCatalog(run: Run)
    requires |run.catalog.stylesMetadata| == 1
    requires run.catalog.stylesMetadata[0].links == [] && run.catalog.stylesMetadata[0].stylesheets == []
    requires run.formats == [JsonFormat]
    requires forall obj :: run.env.encodeJson(obj).Success?
    ensures var s := run.catalog.stylesMetadata[0];
            var self := MetadataSelfLink(s.id, run.catalog.baseResource);
            var metadata := s.(links := [self]);
            var entry := Style(s.id, StyleTitle(s), [WithOtherRelation(self, DescribedbyRelation)]);
            var collection := Styles(run.catalog.defaultStyle, [entry]);
            GeneratedDocuments(run) == [JsonDocument(MetadataObject(metadata), StyleMetadataResource(s.id), run.env),
                                        JsonDocument(StylesObject(collection), StylesResource, run.env)]
  {
    var s := run.catalog.stylesMetadata[0];
    var self := MetadataSelfLink(s.id, run.catalog.baseResource);
    var metadata := s.(links := [self]);
    var entry := Style(s.id, StyleTitle(s), [WithOtherRelation(self, DescribedbyRelation)]);
    var collection := Styles(run.catalog.defaultStyle, [entry]);
    var o, so := Outcomes(run, s), SheetOutcomes(run, s);
    assert o == [] && so == [];
    assert ResolvedMetadata(run, s) == metadata;
    assert StyleEntry(run, s) == entry;
    assert Collection(run) == collection;
    var rendered := Renderings(MetadataObject(metadata), StyleMetadataResource(s.id), run.formats, run.env);
    var part := StyleSubmissions(run, s);
    assert part == Subs(o) + Subs(so) + rendered;
    assert part == rendered;
    assert PerStyle(run) == [part];
    assert Flatten([part]) == part by {
      assert [part][..0] == [];
    }
    var tail := CollectionRenderings(run);
    assert rendered[0] == RenderSubmission(MetadataObject(metadata), StyleMetadataResource(s.id), JsonFormat, run.env);
    assert tail[0] == RenderSubmission(StylesObject(collection), StylesResource, JsonFormat, run.env);
    assert NoErrors(rendered) && NoErrors(tail);
    RenderingsEmitted(MetadataObject(metadata), StyleMetadataResource(s.id), run.formats, run.env);
    RenderingsEmitted(StylesObject(collection), StylesResource, run.formats, run.env);
    EmittedAppend(part, tail);
  }
}
