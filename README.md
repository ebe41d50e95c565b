# goas core in Dafny

goas generates a static OGC API – Styles catalogue from a YAML configuration. The
configuration lists styles, each with its metadata, metadata links and stylesheets.
goas writes these documents:

- every stylesheet and preview asset, rendered as a template against the catalog
  (in this model, the catalog as configured; see "## Left out");
- every style's metadata, rendered in each requested format;
- the `styles` collection that lists all styles.

This project models the deterministic core of that generator and proves what it
promises:

- **Link relations and paths** (`Relations`, pkg/models/enums.go). Relations map to
  resource paths (`styles`, `styles/<id>`, `styles/<id>/metadata`, `resources/<id>`)
  and to URLs under the base resource. The YAML allow-list decides which relation
  names a configuration may contain. Geometry types are decoded the same way.
- **Formats** (`Formats`, pkg/models/enums.go). The five built-in formats and
  `GetFormat`. `SplitParams` splits a media type into its root and its `;k=v`
  parameters. `ToFormat` searches the built-ins first and then the catalog's own
  formats, and can append the digits of the `version` parameter to the name
  (`sld` with `version=1.0` gives `sld10`). `ToQuery` gives `f=<name>`.
- **Links** (`Links`, pkg/models/styles.go). The catalog records. `WithOtherRelation`.
  `Link.ToPath` gives the file a link's asset is stored in, with the format extension
  appended. `Link.UpdateHref` writes the href in query style (`?f=<name>`) or in
  extension style (`.<extension>`).
- **Output queue** (`Catalog`, pkg/models/context.go). `Documents.Add` is a class
  holding the queued documents. It queues an error as an error-only document and
  tells the caller to stop. `Emitted` says what a run of Add calls that stops at the
  first error queues.
- **Generation** (`Generate`, `GenerateProperties`, pkg/generate.go and
  pkg/render.go). `GenerateDocuments` is a synchronous method with the source's
  nested loops. It is proved against `GeneratedDocuments`, a function of the run.
  The lemmas about that function state the catalogue's guarantees:
  - every rendered metadata has its self link;
  - every collection entry has a `describedby` link to its metadata;
  - links and stylesheets keep their declared order;
  - output is fail-fast;
  - a completed run ends with the collection.
- **Validation** (`Validate`, pkg/validate.go). The loops of requirements 3D (unique
  ids), 3G (the default is a style id) and 3E (a typed stylesheet link per style).
  Each is proved against a function. `ValidateOGCStyles` collects every failure, in
  order, into one message.
- **Allow-list decoding** (`Decode`, pkg/models/util.go).
- **Older model layer** (`Legacy`, pkg/models.go). This is the layer the validator
  is written against:
  - paths for three relations only;
  - formats as a map from media type to name;
  - a query-only `UpdateHref`.

  Lemmas relate it to the newer layer.
- **Run configuration** (`RunConfig`, util/context.go). The precedence of the storage
  destinations and their prefix normalisation in `initStorage`. The argument checks
  and the formats loop of `CreateContext`.
- **As written** (`AsWritten`). Each defect listed under "## Findings" is modelled
  there as the code is written. A Go panic is a `Panic` value. The rest of the model
  uses the corrected behaviour.

`Text`, `Seqs` and `Wrappers` hold the few pieces of Go's `strings` and `regexp`
packages the code uses, sequence helpers, and `Option`/`Result`. A Go nil pointer is
`None`. An `error` is `Failure(message)`.

The repository's files come from two revisions that do not fit together:

- generate.go calls a three-argument `UpdateHref` and keeps `AdditionalFormats` as a
  map (pkg/models/context.go:10);
- the newer `Link.UpdateHref` takes five arguments and `ToFormat` takes an ordered
  list (pkg/models/styles.go:88, pkg/models/enums.go:158).

The model resolves this as the generator's tests expect:

- `AdditionalFormats` is an ordered `seq<Format>`, searched after the built-ins;
- metadata links get extension-style hrefs (`…/resources/night.png`,
  pkg/generate_test.go:131);
- stylesheets get query-style hrefs (`…/styles/night?f=sld10`,
  pkg/generate_test.go:173);
- asset documents are stored at `Link.ToPath`'s path, with its extension
  (`styles/night.mapbox.json`, pkg/generate_test.go:40). They are not stored at the
  bare `Rel.ToPath` of pkg/generate.go:156.

The metadata and collection renderings are stored at the paths generate.go gives
them (`styles/<id>/metadata`, `styles`), not at the `.json` names in the test's
expectations (pkg/generate_test.go:58). Here the code is followed.

## Model

| member | source | states |
|---|---|---|
| Decode.FindItem | pkg/models/util.go:15-19 | the loop over the allow-list finds the value exactly when the value is in the list |
| Decode.UnmarshalYaml | pkg/models/util.go:9-22 | a decoder failure is passed on; the decoded value is returned unchanged exactly when it is on the allow-list; otherwise the error is "could not unmarshal <value>"; any success is a member of the list |
| Text.Split | pkg/models/enums.go:140 | strings.Split with a one-character separator gives at least one piece, and no piece contains the separator |
| Text.JoinSplit | pkg/models/enums.go:140 | joining the pieces of a split with the separator gives back the input, so splitting loses nothing |
| Text.Trim | util/context.go:64-65 | strings.Trim with `/` leaves no `/` at either end |
| Text.TrimIsInfix | util/context.go:64-65 | the trimmed string is a contiguous part of the input, and only `/` characters were cut off around it |
| Text.JoinedDigitRuns | pkg/models/enums.go:171 | joining the `\d+` matches with "" gives every digit of the version, in order, and nothing else |
| Relations.ToStrings | pkg/models/enums.go:47-52 | the loop of LinkRelations.ToString (and of the geometry and data-type lists) gives one name per item, the i-th being the name of the i-th item |
| Relations.NameInjective | pkg/models/enums.go:22-39 | distinct relation constants have distinct strings |
| Relations.ParseRelationAcceptsExactlyKnown | pkg/models/enums.go:95-102 | a name decodes exactly when it is one of the 15 allow-listed relations; the result is that relation and never `preload` |
| Relations.ParseRelationRoundTrip | pkg/models/enums.go:95-102 | every allow-listed relation decodes from its own name back to itself |
| Relations.ParseRelationPassesDecoderFailure | pkg/models/enums.go:95-99 | a decoder error is reported as "unknown link relation with error: " followed by that error |
| Relations.ToPath | pkg/models/enums.go:54-67 | succeeds exactly for styles, stylesheet, describedby, preview and preload; any other relation fails with "no path known for link relation: <name>" |
| Relations.ResourcePaths | pkg/models/enums.go:54-66 | styles gives `styles` whatever the id, stylesheet `styles/<id>`, describedby `styles/<id>/metadata`, preview and preload `resources/<id>`; self and alternate have no path |
| Relations.DistinctResourcesDistinctPaths | pkg/models/enums.go:54-67 | for identifiers without `/`, equal paths mean the same relation (preview and preload share `resources/`) and, except for the id-less collection, the same identifier |
| Relations.ToUrl | pkg/models/enums.go:77-84 | succeeds exactly when ToPath does; then it is base + "/" + path; otherwise it carries ToPath's error |
| Relations.PreloadIsNeverParsed | pkg/models/enums.go:41-67 | `preload` has the path `resources/<id>`, but its name is rejected at decoding because it is missing from the allow-list |
| Relations.GeometryNameListed | pkg/models/enums.go:188-196 | every geometry type's name is on the `geometryTypes` allow-list |
| Relations.ParseGeometryType | pkg/models/enums.go:205-212 | exactly the five geometry names decode, each to the type with that name |
| Formats.FirstNamed | pkg/models/enums.go:129-133 | the search of GetFormat finds the first format with the name, and finds none exactly when no format has it |
| Formats.GetFormat | pkg/models/enums.go:128-135 | gives true exactly when a built-in format has the name, and then returns that built-in; otherwise it gives the zero format and false; catalog formats are never consulted |
| Formats.SplitParams | pkg/models/enums.go:139-156 | the root is the text before the first `;`; the params are the map the `;` segments build |
| Formats.ParamsOfConcat | pkg/models/enums.go:144-153 | parameters of later segments overwrite those of earlier ones |
| Formats.ParamKeys | pkg/models/enums.go:145-152 | a key is set exactly when some segment with at most one `=` names it; segments with two or more `=` are dropped |
| Formats.OneParameter | pkg/models/enums.go:139-156 | `root;key=value` splits into the root and the single parameter key → value |
| Formats.FirstWithMediaType | pkg/models/enums.go:161-166 | the loop with `break` finds the first format whose media type is the root, and finds none exactly when no format has it |
| Formats.ToFormat | pkg/models/enums.go:158-176 | the loop over the built-ins followed by the catalog's formats, then the version rewrite, computes FormatFor |
| Formats.BuiltinMatch | pkg/models/enums.go:119-125 | the built-in media types are pairwise distinct, so each built-in is the first match for its media type |
| Formats.BuiltinsTakePriority | pkg/models/enums.go:161-166 | for a built-in root media type the result does not depend on the catalog's formats: a catalog format never overrides a built-in |
| Formats.UnversionedFormat | pkg/models/enums.go:158-175 | without versioning the result is one of the candidate formats with the root media type, or the zero format when none has it |
| Formats.VersioningOnlyChangesName | pkg/models/enums.go:168-174 | versioning keeps media type and extension and only appends the digits of the `version` parameter to the name |
| Formats.VersionOneDotZero | pkg/models/enums.go:171 | the digits of "1.0" are "10" |
| Formats.BuiltinRootIsPlain | pkg/models/enums.go:106-111 | no built-in media type carries a parameter |
| Formats.VersionedSelection | pkg/models/enums.go:158-176 | `root;version=v` selects the first format with that root, renamed with v's digits only when versioned |
| Formats.VersionedBuiltin | pkg/models/enums.go:158-176 | a built-in media type with a `version` parameter maps to that built-in, with the version's digits appended to its name when versioned |
| Formats.PlainBuiltin | pkg/models/enums.go:158-176 | a built-in media type without parameters maps to that built-in, versioned or not |
| Formats.VersionedSld | pkg/models/enums.go:168-174 | `application/vnd.ogc.sld+xml;version=1.0` is `sld10` versioned and `sld` unversioned, with extension `sld` |
| Formats.ToQuery | pkg/models/enums.go:178-183 | empty exactly for the empty name; otherwise `f=` followed by the name |
| Links.WithOtherRelation | pkg/models/styles.go:71-74 | the copy has the new relation and equals the link in every other field |
| Links.LinkFormat | pkg/models/styles.go:81 | the format a link's type resolves to; an untyped link has the zero format |
| Links.LinkToPath | pkg/models/styles.go:76-86 | fails exactly when the relation has no path, with ToPath's error; otherwise it extends the relation's path with `.` and the extension of the unversioned format exactly when the extension is non-empty and the path does not already end with `.<extension>` |
| Links.ResolvedHref | pkg/models/styles.go:88-110 | fails when both formattings are asked for, or when the relation has no URL; otherwise it extends the URL, and with neither style it is the URL |
| Links.UpdateHref | pkg/models/styles.go:88-116 | on an error the link is unchanged; otherwise only the href is overwritten with ResolvedHref, whatever it held |
| Links.QueryHrefNamesVersionedFormat | pkg/models/styles.go:96-110 | a query-style href is the URL followed by `?f=`, the format's name and the digits of the type's `version` parameter |
| Links.ExtensionHrefIsDocumentUrl | pkg/models/styles.go:96-110 | for one identifier whose relation path does not already end with `.<extension>`, the extension-style href is the URL of the file Link.ToPath names (the href always appends the extension, Link.ToPath skips it on such a path) |
| Links.StylesheetPath | pkg/models/styles.go:76-86 | a stylesheet whose identifier has no `.` is stored at `styles/<id>.<extension>`, or at `styles/<id>` when its format has no extension |
| Links.PreviewAssetPath | pkg/models/styles.go:76-86 | a preview whose asset file already ends with `.<extension>` is stored under that file name unchanged |
| Links.MapboxStylesheet | pkg/generate_test.go:40 | a Mapbox stylesheet is stored at `styles/<id>.mapbox.json` and referenced as `styles/<id>?f=mapbox` |
| Links.Sld10Stylesheet | pkg/generate_test.go:46 | an SLD 1.0 stylesheet is stored at `styles/<id>.sld` and referenced as `styles/<id>?f=sld10` |
| Links.PngThumbnail | pkg/generate_test.go:35 | a PNG thumbnail is stored at `resources/<file>.png` and referenced as `resources/<id>.png` |
| Catalog.AddOutput | pkg/models/context.go:23-32 | one Add call queues at most one document, and an error document exactly when an error was passed |
| Catalog.DocumentQueue.constructor | pkg/generate.go:31 | a new queue is empty |
| Catalog.DocumentQueue.Add | pkg/models/context.go:23-32 | returns false exactly on an error; an error queues one error-only document even when a document was also passed; otherwise a present document is queued unchanged and a nil one queues nothing |
| Catalog.EmittedAppend | pkg/generate.go:40-43 | Add calls without an error queue their documents one run after another |
| Catalog.EmittedStops | pkg/generate.go:40-43 | after a failed Add call nothing more is queued |
| Catalog.EmittedStep | pkg/generate.go:39-43 | one loop pass after error-free passes adds exactly that call's output, and a failing pass hides everything after it |
| Catalog.EmittedWithoutErrors | pkg/models/context.go:28-31 | a run without errors queues every submitted document, in order, and nothing else |
| Catalog.EmittedErrorIsLast | pkg/models/context.go:23-32 | an error document can only be the last one queued, and one is queued exactly when some call failed |
| Generate.Render | pkg/render.go:12-31 | only the JSON format renders; any other format fails with "format: <format> not implemented"; a rendering is a JSON document at the path with the encoded content |
| Generate.RenderAll | pkg/generate.go:67-73 | the loop over the formats queues what the renderings emit and returns false exactly when one failed |
| Generate.MetadataSelfLink | pkg/generate.go:122-130 | the synthesised link has relation self, title "Style Metadata for <id>", the describedby URL as href, and no type or asset file |
| Generate.AssetDocument | pkg/generate.go:132-162 | stylesheet and preview links without an asset file fail; with one, the asset is read and executed as a template against the catalog as configured, and stored at the link's path, keyed by the file name for a preview and by the style id otherwise, with the link's type; other relations give no document |
| Generate.MetadataLinkOutcome | pkg/generate.go:86-106 | a self link gets the metadata URL and is contributed relabelled describedby; a stylesheet link gets its href and gives no document and no contribution; any other link gets its extension-style href and gives its asset and itself; href errors are wrapped |
| Generate.GenerateStyleMetadata | pkg/generate.go:86-106 | computes MetadataLinkOutcome |
| Generate.StylesheetOutcome | pkg/generate.go:108-120 | the stylesheet gets its query-style href, then yields its asset, and its link is contributed; errors are wrapped |
| Generate.GenerateStylesheet | pkg/generate.go:108-120 | computes StylesheetOutcome |
| Generate.Collection | pkg/generate.go:64-66 | the collection has the catalog's default and one entry per style, in order, with that style's id and title |
| Generate.MetadataLinkStep | pkg/generate.go:39-43 | one pass resolves link i and queues its Add output |
| Generate.ResolveMetadataLinks | pkg/generate.go:38-46 | the loop queues each link's document and stops at the first error; when it completes it returns the updated links, the contributions and whether a self link was seen |
| Generate.SheetStep | pkg/generate.go:55-59 | one pass resolves stylesheet i and queues its Add output |
| Generate.ResolveStylesheets | pkg/generate.go:54-62 | the loop queues each stylesheet's asset and stops at the first error; when it completes it returns the updated stylesheets and their links |
| Generate.ProcessStyle | pkg/generate.go:35-73 | a style queues its metadata-link assets, its stylesheet assets, then its metadata renderings, fail-fast, and returns its collection entry |
| Generate.GenerateDocuments | pkg/generate.go:30-84 | the whole run queues exactly GeneratedDocuments and succeeds exactly when no step failed |
| GenerateProperties.SelfOutcomeIsSelfLink | pkg/generate.go:101-104 | a self outcome comes from a declared self link, which gets the metadata URL and is contributed relabelled describedby |
| GenerateProperties.ResolvedMetadataHasSelfLink | pkg/generate.go:48-53 | every rendered style metadata has a self link to its own metadata URL |
| GenerateProperties.EntryHasDescribedbyLink | pkg/generate.go:48-53 | every collection entry links to its style's metadata with relation describedby (OGC API Styles requirement 3F) |
| GenerateProperties.MetadataLinksInOrder | pkg/generate.go:38-53 | the rendered metadata links are the declared ones in order, each with its extension-style href (the metadata URL for self), followed by the synthesised self link when none was declared |
| GenerateProperties.StylesheetLinksInOrder | pkg/generate.go:54-62 | the entry's stylesheet links are the declared stylesheets in order, each with its query-style href, and the rendered metadata holds the same links |
| GenerateProperties.RenderingsEmitted | pkg/render.go:24-31 | renderings that all succeed were all JSON and queue one JSON document per format, at the path, in order |
| GenerateProperties.GenerationFailsFast | pkg/generate.go:35-81 | an error document can only be the last document of a run, and one is queued exactly when some step failed |
| GenerateProperties.CompletedRunEndsWithCollection | pkg/generate.go:75-81 | a completed run rendered only JSON and ends with the collection, once per format, at `styles` |
| GenerateProperties.MinimalCatalog | pkg/generate_test.go:197-245 | one style without links or stylesheets gives exactly two documents: its metadata with the added self link, then the collection whose one entry links to it as describedby |
| Validate.DuplicateIdsEmpty | pkg/validate.go:32-47 | no id is listed as a duplicate exactly when the ids are pairwise distinct |
| Validate.DuplicateIdsCount | pkg/validate.go:35-42 | an id that occurs k times is listed k − 1 times |
| Validate.UniqueStylesVerdict | pkg/validate.go:32-47 | passes exactly when the ids are distinct; otherwise the message lists every repeat occurrence, joined with ", " |
| Validate.ValidateUniqueStyles | pkg/validate.go:32-47 | the loop with its set of seen ids computes UniqueStylesError |
| Validate.DefaultStyleError | pkg/validate.go:60-67 | passes exactly when some style id equals the default, an empty default included; otherwise the requirement 3G message |
| Validate.ValidateDefaultStyle | pkg/validate.go:60-67 | the search computes DefaultStyleError |
| Validate.EncodingError | pkg/validate.go:50-57 | passes exactly when some stylesheet link has relation stylesheet and a type; otherwise the requirement 3E message for that style |
| Validate.ValidateStyleEncoding | pkg/validate.go:50-57 | the search computes EncodingError |
| Validate.EncodingMessagesEmpty | pkg/validate.go:18-23 | the per-style loop reports nothing exactly when every style has a typed stylesheet link |
| Validate.CollectEncoding | pkg/validate.go:18-23 | one more style appends its encoding failure, if any, after the failures collected before it |
| Validate.CollectEncodingErrors | pkg/validate.go:18-23 | the per-style loop appends exactly EncodingMessages: each style's failure, in catalog order, after the earlier ones |
| Validate.ValidateOGCStyles | pkg/validate.go:8-29 | every check runs, and the failures are collected in order (uniqueness, default, each style) into ValidationError |
| Validate.ValidExactly | pkg/validate.go:8-29 | a catalog validates exactly when its ids are distinct, its default is one of them and every style has a typed stylesheet link |
| Validate.EmptyCatalogFails | pkg/validate.go:60-67 | an empty catalog never validates |
| Validate.OnlyUniquenessFails | pkg/validate.go:8-29 | when uniqueness is the only failing check, its message alone follows "validation errors found: " |
| Validate.DuplicatedStyleReported | pkg/validate_test.go:20-27 | appending a copy of the first style to a valid catalog fails requirement 3D alone, naming that style's id |
| Legacy.ToPath | pkg/models.go:66-77 | succeeds exactly for stylesheet, describedby and preview, filling that relation's template; any other relation fails with "no path known for link relation: <name>" |
| Legacy.PathsAgreeWithNewerLayer | pkg/models.go:66-77 | with the newer layer's template values both layers give the same paths; only the newer one has paths for the collection and preload |
| Legacy.ToUrl | pkg/models.go:87-94 | succeeds exactly when ToPath does, and is then base + "/" + path |
| Legacy.LookupFormat | pkg/models.go:163-174 | the built-in map wins; otherwise the catalog map, if present, decides |
| Legacy.ToFormatFindsName | pkg/models.go:163-183 | a miss gives ""; a hit gives the name, followed when versioned by exactly the version's digits; an absent catalog map behaves as an empty one |
| Legacy.KnownFormatIsBuiltin | pkg/models.go:135-140 | the four media types of this layer are built-ins of the newer layer with the same names |
| Legacy.ToFormatAgreesOnBuiltins | pkg/models.go:163-183 | for built-in media types both layers give the same format name, whatever either catalog adds |
| Legacy.PngUnknown | pkg/models.go:135-140 | `image/png` has no format in this layer but is `png` in the newer one |
| Legacy.ToQuery | pkg/models.go:185-190 | empty exactly for the empty format; otherwise `f=` followed by the format |
| Legacy.ResolvedHref | pkg/models.go:263-272 | fails exactly when the relation has no path; otherwise it is the URL, followed by `?f=<format>` exactly when the link's type has a format |
| Legacy.UpdateHref | pkg/models.go:263-278 | on an error the link is unchanged; otherwise only its href is overwritten |
| Legacy.ResolvedHrefAgreesWithQueryStyle | pkg/models.go:263-278 | for its three relations and the built-in media types, this layer's href is the newer layer's query-style href |
| Legacy.ParseDataType | pkg/models.go:239-246 | the three data type names decode, each to its type; every failure gets "unknown geometry type "; the newer layer's DataType.UnmarshalYAML at pkg/models/enums.go:232-239 is the same code |
| Legacy.AllowListUnchanged | pkg/models.go:53-57 | both layers' allow-lists hold the same fifteen names in the same order |
| RunConfig.WithTrailingSlash | util/context.go:101-103 | the prefix ends with `/`, which is appended only when missing |
| RunConfig.TrailingSlashIdempotent | util/context.go:101-103 | normalising a prefix twice is normalising it once |
| RunConfig.InitStorage | util/context.go:87-115 | a file destination wins; then S3 when all five of its settings are given; then Azure Blob when all three of its are; otherwise an error with zero contexts; only the chosen context is filled, with its prefix normalised |
| RunConfig.ChosenPrefix | util/context.go:101-109 | the chosen cloud prefix extends the configured one by at most one `/` and ends with `/` |
| RunConfig.FileDestinationWins | util/context.go:96-98 | with a file destination, no S3 or Azure setting changes the result |
| RunConfig.Lookup | util/context.go:72-76 | an empty name finds nothing; a found format is the built-in with that name |
| RunConfig.RequestedFormatsMembers | util/context.go:70-78 | a format is requested exactly when some name of the list finds it, and then it is a built-in named in the list |
| RunConfig.ParsedFormats | util/context.go:70-81 | the formats are the recognised names in order, or `[json]` when none is recognised; never empty, always built-ins |
| RunConfig.SelectFormats | util/context.go:70-81 | the loop over the comma-separated names computes ParsedFormats |
| RunConfig.CreateContext | util/context.go:46-85 | a storage error comes first; fewer than two arguments is an error; otherwise the context holds the storage choice, both arguments with `/` trimmed, and the parsed formats |
| AsWritten.ResolvedHrefAsWritten | pkg/models/styles.go:96 | as written, an untyped link whose relation has a URL panics; otherwise the result is the corrected ResolvedHref |
| AsWritten.UntypedLinkPanics | pkg/models/styles.go:96 | an untyped link panics in either href style, where the corrected href is the bare URL |
| AsWritten.LegacyResolvedHrefAsWritten | pkg/models.go:268 | the older UpdateHref panics on an untyped link of a relation with a path; otherwise it is Legacy.ResolvedHref |
| AsWritten.LinkToPathAsWritten | pkg/models/styles.go:76-86 | as written, an untyped link panics, and the extension is skipped whenever the path ends with its letters, dot or no dot |
| AsWritten.LinkToPathAgrees | pkg/models/styles.go:82 | for a typed link the written and corrected paths differ exactly when the path ends with the extension's letters but not with `.<extension>` |
| AsWritten.ExtensionLettersSwallowed | pkg/models/styles.go:82 | a stylesheet whose identifier ends with its extension's letters is stored without the extension as written, and with it when corrected |
| AsWritten.NightsldStylesheet | pkg/models/styles.go:82 | the style `nightsld` with an `sld` stylesheet is stored at `styles/nightsld` as written, and at `styles/nightsld.sld` when corrected |
| AsWritten.MetadataLinkAsWritten | pkg/generate.go:86-106 | as written, a self link fails at UpdateHref; a stylesheet link, or an untyped link of a relation with a path, panics |
| AsWritten.DeclaredSelfLinkAborts | pkg/generate.go:101-104 | a declared self link aborts the run as written, while the corrected outcome succeeds and reports it as the self link |
| AsWritten.NeverSelf | pkg/generate.go:101-104 | as written, no metadata link is ever reported as the self link |
| AsWritten.StylesheetMetadataLinkPanics | pkg/generate.go:44 | a typed stylesheet link among the metadata links panics as written; corrected, it gives no document and no contribution |
| AsWritten.MetadataLinkAgrees | pkg/generate.go:86-106 | every other typed metadata link is resolved as the corrected model resolves it |
| AsWritten.EntryTitleAsWritten | pkg/generate.go:65 | as written, the entry title panics exactly when the style has no title |
| AsWritten.UntitledStylePanics | pkg/generate.go:65 | an untitled style panics as written; the corrected collection lists it with the empty title |

## Left out

- Reading asset files, text templates and JSON encoding are not modelled. They are the `readAsset`, `executeTemplate` and `encodeJson` fields of `Generate.Env`, so every property holds whatever they do.
- The goroutine and the buffered channel of `GenerateDocuments` (pkg/generate.go:14, 31-33) are left out. The queue is a sequence that the method appends to, because the concurrency only overlaps I/O with generation.
- `ParseConfig` (pkg/generate.go:16-28) is not modelled: it is file I/O and strict YAML decoding. Decoding of the enum fields is modelled by `Decode`, `Relations` and `Legacy`.
- util/writer.go and main.go are not part of this model: they are storage back ends over external SDKs and command-line wiring.
- The `cli.Context` accessors of `CreateContext` are not modelled: the flag values and positional arguments come in as plain values (`RunConfig.Flags`, `args`).
- `log.Printf` warnings are not modelled. This covers an overwritten href, a stylesheet among the metadata links, a relation without an asset, and a parameter with more than one `=`.
- `MustToPath` and `MustToUrl` panic only for relations without a path. The generator calls them only with `describedby`, so the model uses the path directly.
- The ToPath error ignored at pkg/generate.go:156 cannot occur in the model: asset documents exist only for stylesheet and preview links, which always have a path.
- `GeometryTypes.ToString` (pkg/models/enums.go:198-203) and `DataTypes.ToString` (pkg/models/enums.go:225-230) are the same loop as `LinkRelations.ToString`; `Relations.ToStrings` is generic over the item type and models all three. Their allow-lists are the constants `GeometryNames` and `DataTypeNames`.
- The older layer's `SplitParams`, `WithOtherRelation`, `unmarshalYaml`, relations and records are the same code as the newer layer's. They share the newer layer's model (Formats.SplitParams, Links.WithOtherRelation, Decode.UnmarshalYaml). In the other direction, the newer layer's `DataType.UnmarshalYAML` (pkg/models/enums.go:232-239) is the same code as the older layer's and shares its model, `Legacy.ParseDataType`.
- The older layer's `HandleError` (pkg/models.go:340-342) is covered by `Catalog.ErrorDocument`.
- The older layer's path constants are not defined in pkg/models.go. They are parameters (`Legacy.Templates`); `Legacy.CurrentTemplates` holds the newer layer's values.
- Validate.ValidateOGCStyles and the other validator methods return the message, not Go's `error` value. Validation only reads the catalog, which the model's value semantics make true of every function.
- Generate.GenerateDocuments follows the corrected behaviour in five cases (see Findings). It resolves a declared self link, skips a `stylesheet` link among the metadata links, takes an untitled style's title as "", and treats a link without a type as having no format, so an untyped asset document gets the media type "" where pkg/generate.go:157 dereferences `*link.Type`. In these four cases the source panics or aborts. It also adds the extension unless the path already ends with "." + extension, where the source tests the letters without the dot. `AsWritten` models all five as written.
- Generate.AssetDocument: the template is executed against the catalog as configured. In the source, the loop at pkg/generate.go:35 copies each style, but the copy shares its `Links` and `Stylesheets` arrays with the catalog. So `UpdateHref` (pkg/generate.go:39 and :55, pkg/models/styles.go:114) writes the new hrefs into the catalog itself. The template executed at pkg/generate.go:147 therefore sees the rewritten hrefs of every earlier style, and of the current style's links up to and including the current one. A template that prints an href renders differently in the model. Properties that do not depend on the rendered content are unaffected. Modelling this aliasing would mean threading the partly rewritten catalog through every generation loop and its specification.
- Generate.AssetDocument: a template that fails to parse gives the same "could not find format asset" error as one that fails to execute, because `executeTemplate` is a single function. In the source, `template.Must` at pkg/generate.go:146 panics on a parse error, and only an `Execute` failure (:147-150) becomes that error.

## Findings

| source | as written | input that shows it | evidently intended | confidence | as-written member | corrected member |
|---|---|---|---|---|---|---|
| pkg/models/styles.go:96 | `UpdateHref` calls `ToFormat` through the link's `Type` pointer, which a link may leave nil; the same holds at :81, at pkg/generate.go:157 (the asset document's media type) and in the older layer at pkg/models.go:268; as written, :96 panics first, because every asset link passes through `UpdateHref` before its document is built | a `preview` or `stylesheet` link without `type` | an untyped link has no format, so its href is the bare URL | not executed | AsWritten.UntypedLinkPanics | Links.ResolvedHref |
| pkg/models/styles.go:82 | the extension is skipped when the path ends with the extension's letters, without the dot | style id `nightsld` with an SLD stylesheet: the file is `styles/nightsld` | skip only when the path already ends with `.<extension>`, giving `styles/nightsld.sld` | not executed | AsWritten.NightsldStylesheet | Links.LinkToPath |
| pkg/generate.go:44 | a `stylesheet` link among the metadata links returns a nil link (:93), which the loop then dereferences | a metadata link with `rel: stylesheet` and a type | the link is skipped: no document and nothing for the collection | not executed | AsWritten.StylesheetMetadataLinkPanics | Generate.MetadataLinkOutcome |
| pkg/generate.go:101-104 | a declared `self` link first goes through `UpdateHref`, which fails because `self` has no path (pkg/models/enums.go:64), so the self branch can never run | a metadata link with `rel: self` | the link gets the metadata URL and is contributed relabelled `describedby`, and no second self link is synthesised | not executed | AsWritten.DeclaredSelfLinkAborts | Generate.MetadataLinkOutcome |
| pkg/generate.go:65 | the style's `Title` pointer is dereferenced, though the title is optional | a style without `title` | the entry has the empty title, which JSON then omits | not executed | AsWritten.UntitledStylePanics | Generate.Collection |
