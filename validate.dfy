/** The catalog validator (pkg/validate.go): OGC API Styles requirements 3D (unique
    style ids), 3G (the default is a style id) and 3E (every style has a typed
    stylesheet link), all checked, with every failure reported in one message. */
module Validate {
  import opened Wrappers
  import opened Seqs
  import opened Text
  import opened Relations
  import opened Links
  import opened Catalog

  function Ids(styles: seq<StyleMetadata>): seq<string> {
    seq(|styles|, i requires 0 <= i < |styles| => styles[i].id)
  }

  predicate Distinct(ids: seq<string>) {
    forall i, j :: 0 <= i < j < |ids| ==> ids[i] != ids[j]
  }

  /** Every occurrence of an id after its first one, in order. */
  function DuplicateIds(ids: seq<string>): seq<string> {
    if ids == [] then []
    else
      var n := |ids| - 1;
      DuplicateIds(ids[..n]) + (if ids[n] in ids[..n] then [ids[n]] else [])
  }

  /** No id is listed exactly when the ids are pairwise distinct. */
  lemma {:induction false} DuplicateIdsEmpty(ids: seq<string>)
    ensures DuplicateIds(ids) == [] <==> Distinct(ids)
  {
    if ids != [] {
      var n := |ids| - 1;
      DuplicateIdsEmpty(ids[..n]);
      if Distinct(ids) {
        assert Distinct(ids[..n]);
        forall j | 0 <= j < n ensures ids[..n][j] != ids[n] {
          assert ids[..n][j] == ids[j];
        }
      }
      if DuplicateIds(ids) == [] {
        assert DuplicateIds(ids[..n]) == [];
        forall i, j | 0 <= i < j < |ids| ensures ids[i] != ids[j] {
          if j < n {
            assert ids[..n][i] != ids[..n][j];
          } else {
            assert ids[i] == ids[..n][i];
          }
        }
      }
    }
  }

  /** An id that occurs k times is listed k - 1 times. */
  lemma {:induction false} DuplicateIdsCount(ids: seq<string>, x: string)
    ensures multiset(DuplicateIds(ids))[x] == if x in ids then multiset(ids)[x] - 1 else 0
  {
    if ids != [] {
      var n := |ids| - 1;
      DuplicateIdsCount(ids[..n], x);
      SplitLast(ids);
      assert multiset(ids) == multiset(ids[..n]) + multiset{ids[n]};
      assert x in ids <==> x in ids[..n] || x == ids[n];
    }
  }

  const UniqueStylesFailure: string := "requirement 3D fails; found styles with duplicate ids: "

  /** The outcome of validateUniqueStyles. */
  function UniqueStylesError(c: OGCStyles): Option<string> {
    var duplicates := DuplicateIds(Ids(c.stylesMetadata));
    if duplicates == [] then None else Some(UniqueStylesFailure + Join(duplicates, ", "))
  }

  /** Uniqueness passes exactly when the ids are distinct; otherwise the message lists
      every repeat occurrence. */
  lemma UniqueStylesVerdict(c: OGCStyles)
    ensures UniqueStylesError(c).None? <==> Distinct(Ids(c.stylesMetadata))
    ensures UniqueStylesError(c).Some? ==>
              UniqueStylesError(c).value == UniqueStylesFailure + Join(DuplicateIds(Ids(c.stylesMetadata)), ", ")
  {
    DuplicateIdsEmpty(Ids(c.stylesMetadata));
  }

  /** validateUniqueStyles: one pass over the styles with a set of the ids seen so far. */
  method ValidateUniqueStyles(c: OGCStyles) returns (err: Option<string>)
    ensures err == UniqueStylesError(c)
  {
    var styles := c.stylesMetadata;
    ghost var ids := Ids(styles);
    var styleSet: set<string> := {};
    var duplicateIds: seq<string> := [];
    for i := 0 to |styles|
      invariant forall x :: x in styleSet <==> x in ids[..i]
      invariant duplicateIds == DuplicateIds(ids[..i])
    {
      assert ids[..i + 1][..i] == ids[..i];
      TakeNext(ids, i);
      if styles[i].id !in styleSet {
        styleSet := styleSet + {styles[i].id};
      } else {
        duplicateIds := duplicateIds + [styles[i].id];
      }
    }
    TakeAll(ids, |styles|);
    if duplicateIds != [] {
      return Some(UniqueStylesFailure + Join(duplicateIds, ", "));
    }
    return None;
  }

  predicate HasStyle(c: OGCStyles, id: string) {
    exists i :: 0 <= i < |c.stylesMetadata| && c.stylesMetadata[i].id == id
  }

  /** The outcome of validateDefaultStyle (the message has two spaces after
      `default`). An empty default is not exempt. */
  function DefaultStyleError(c: OGCStyles): (err: Option<string>)
    ensures err.None? <==> HasStyle(c, c.defaultStyle)
    ensures err.Some? ==> err.value == "requirement 3G fails; default  " + c.defaultStyle + " not found in styles"
  {
    if HasStyle(c, c.defaultStyle) then None
    else Some("requirement 3G fails; default  " + c.defaultStyle + " not found in styles")
  }

  /** validateDefaultStyle: a search for the default among the style ids. */
  method ValidateDefaultStyle(c: OGCStyles) returns (err: Option<string>)
    ensures err == DefaultStyleError(c)
  {
    for i := 0 to |c.stylesMetadata|
      invariant forall j :: 0 <= j < i ==> c.stylesMetadata[j].id != c.defaultStyle
    {
      if c.stylesMetadata[i].id == c.defaultStyle {
        return None;
      }
    }
    return Some("requirement 3G fails; default  " + c.defaultStyle + " not found in styles");
  }

  /** A stylesheet that names a style encoding: relation `stylesheet` and a type. */
  predicate IsEncoding(sheet: StyleSheet) {
    sheet.link.rel == StylesheetRelation && sheet.link.mediaType.Some?
  }

  predicate HasEncoding(m: StyleMetadata) {
    exists i :: 0 <= i < |m.stylesheets| && IsEncoding(m.stylesheets[i])
  }

  /** The outcome of validateStyleEncoding for one style. */
  function EncodingError(m: StyleMetadata): (err: Option<string>)
    ensures err.None? <==> HasEncoding(m)
    ensures err.Some? ==> err.value == "requirement 3E fails; style " + m.id + " stylesheet definition incorrect"
  {
    if HasEncoding(m) then None
    else Some("requirement 3E fails; style " + m.id + " stylesheet definition incorrect")
  }

  /** validateStyleEncoding: a search for a typed `stylesheet` link. */
  method ValidateStyleEncoding(m: StyleMetadata) returns (err: Option<string>)
    ensures err == EncodingError(m)
  {
    for i := 0 to |m.stylesheets|
      invariant forall j :: 0 <= j < i ==> !IsEncoding(m.stylesheets[j])
    {
      if m.stylesheets[i].link.rel == StylesheetRelation && m.stylesheets[i].link.mediaType.Some? {
        return None;
      }
    }
    return Some("requirement 3E fails; style " + m.id + " stylesheet definition incorrect");
  }

  /** A check's message, if it failed. */
  function Message(err: Option<string>): (ms: seq<string>)
    ensures ms == [] <==> err.None?
  {
    if err.Some? then [err.value] else []
  }

  /** The encoding failures of the styles, in catalog order. */
  function EncodingMessages(styles: seq<StyleMetadata>): seq<string> {
    if styles == [] then []
    else
      var n := |styles| - 1;
      EncodingMessages(styles[..n]) + Message(EncodingError(styles[n]))
  }

  /** The failure messages in reporting order: uniqueness, default, then each style's
      encoding in catalog order. */
  function Messages(c: OGCStyles): seq<string> {
    Message(UniqueStylesError(c)) + Message(DefaultStyleError(c)) + EncodingMessages(c.stylesMetadata)
  }

  /** The error ValidateOGCStyles returns for the collected messages: none when there
      are none, otherwise all of them joined with "; ". */
  function Report(messages: seq<string>): Option<string> {
    if messages == [] then None else Some("validation errors found: " + Join(messages, "; "))
  }

  /** The outcome of ValidateOGCStyles. */
  function ValidationError(c: OGCStyles): Option<string> {
    Report(Messages(c))
  }

  /** ValidateOGCStyles: every check runs, every failure is collected. */
  method ValidateOGCStyles(c: OGCStyles) returns (err: Option<string>)
    ensures err == ValidationError(c)
  {
    var errors: seq<string> := [];
    var e := ValidateUniqueStyles(c);
    if e.Some? {
      errors := errors + [e.value];
    }
    e := ValidateDefaultStyle(c);
    if e.Some? {
      errors := errors + [e.value];
    }
    assert errors == Message(UniqueStylesError(c)) + Message(DefaultStyleError(c));
    errors := CollectEncodingErrors(c.stylesMetadata, errors);
    assert errors == Messages(c);
    if errors != [] {
      return Some("validation errors found: " + Join(errors, "; "));
    }
    return None;
  }

  /** The per-style loop of ValidateOGCStyles: each style's encoding failure, if any,
      is appended after those already collected, in catalog order. */
  method CollectEncodingErrors(styles: seq<StyleMetadata>, head: seq<string>) returns (errors: seq<string>)
    ensures errors == head + EncodingMessages(styles)
  {
    errors := head;
    for i := 0 to |styles|
      invariant errors == head + EncodingMessages(styles[..i])
    {
      var e := ValidateStyleEncoding(styles[i]);
      CollectEncoding(styles, i, head, errors, e);
      if e.Some? {
        errors := errors + [e.value];
      }
    }
    TakeAll(styles, |styles|);
  }

  /** One more style adds its encoding failure, if any, after those collected so far. */
  lemma CollectEncoding(styles: seq<StyleMetadata>, i: nat, head: seq<string>, errors: seq<string>, e: Option<string>)
    requires i < |styles| && e == EncodingError(styles[i])
    requires errors == head + EncodingMessages(styles[..i])
    ensures (if e.Some? then errors + [e.value] else errors) == head + EncodingMessages(styles[..i + 1])
  {
    assert styles[..i + 1][..i] == styles[..i];
    AppendTwo(head, EncodingMessages(styles[..i]), Message(e));
  }

  /** No encoding failure is reported exactly when every style has a typed stylesheet link. */
  lemma {:induction false} EncodingMessagesEmpty(styles: seq<StyleMetadata>)
    ensures EncodingMessages(styles) == [] <==> AllEncoded(styles)
  {
    if styles != [] {
      var n := |styles| - 1;
      EncodingMessagesEmpty(styles[..n]);
      AllEncodedLast(styles);
    }
  }

  /** Every style has a typed stylesheet link. */
  predicate AllEncoded(styles: seq<StyleMetadata>) {
    forall i :: 0 <= i < |styles| ==> HasEncoding(styles[i])
  }

  lemma AllEncodedLast(styles: seq<StyleMetadata>)
    requires styles != []
    ensures AllEncoded(styles) <==> AllEncoded(styles[..|styles| - 1]) && HasEncoding(styles[|styles| - 1])
  {
    var n := |styles| - 1;
    if AllEncoded(styles[..n]) && HasEncoding(styles[n]) {
      forall i | 0 <= i < |styles| ensures HasEncoding(styles[i]) {
        if i < n { assert styles[..n][i] == styles[i]; }
      }
    }
    if AllEncoded(styles) {
      forall i | 0 <= i < n ensures HasEncoding(styles[..n][i]) {
        assert styles[..n][i] == styles[i];
      }
    }
  }

  /** A catalog validates exactly when its ids are distinct, its default is one of them
      and every style has a typed stylesheet link. */
  lemma ValidExactly(c: OGCStyles)
    ensures ValidationError(c).None? <==>
              && Distinct(Ids(c.stylesMetadata))
              && HasStyle(c, c.defaultStyle)
              && forall i :: 0 <= i < |c.stylesMetadata| ==> HasEncoding(c.stylesMetadata[i])
  {
    UniqueStylesVerdict(c);
    EncodingMessagesEmpty(c.stylesMetadata);
  }

  /** An empty catalog never validates: its default cannot be found. */
  lemma EmptyCatalogFails(c: OGCStyles)
    requires c.stylesMetadata == []
    ensures ValidationError(c).Some?
  {
    ValidExactly(c);
  }

  lemma JoinOne(x: string, sep: string)
    ensures Join([x], sep) == x
  {
  }

  /** A catalog whose only failing check is uniqueness reports that message alone. */
  lemma OnlyUniquenessFails(c: OGCStyles, m: string)
    requires UniqueStylesError(c) == Some(m) && HasStyle(c, c.defaultStyle)
    requires forall i :: 0 <= i < |c.stylesMetadata| ==> HasEncoding(c.stylesMetadata[i])
    ensures ValidationError(c) == Some("validation errors found: " + m)
  {
    EncodingMessagesEmpty(c.stylesMetadata);
    assert Message(DefaultStyleError(c)) == [];
    assert Messages(c) == [m] + [] + EncodingMessages(c.stylesMetadata);
    JoinOne(m, "; ");
  }

  /** Repeating the first of distinct ids makes it the only duplicate. */
  lemma FirstRepeated(ids: seq<string>)
    requires Distinct(ids) && ids != []
    ensures DuplicateIds(ids + [ids[0]]) == [ids[0]]
  {
    var dids := ids + [ids[0]];
    assert dids[..|ids|] == ids;
    DuplicateIdsEmpty(ids);
  }

  /** Appending a copy of the first style keeps the default found and every style
      encoded, and makes the first id the only duplicate. */
  lemma FirstStyleRepeated(c: OGCStyles)
    requires c.stylesMetadata != [] && Distinct(Ids(c.stylesMetadata)) && HasStyle(c, c.defaultStyle)
    requires forall i :: 0 <= i < |c.stylesMetadata| ==> HasEncoding(c.stylesMetadata[i])
    ensures var d := c.(stylesMetadata := c.stylesMetadata + [c.stylesMetadata[0]]);
            && UniqueStylesError(d) == Some(UniqueStylesFailure + c.stylesMetadata[0].id)
            && HasStyle(d, d.defaultStyle)
            && forall i :: 0 <= i < |d.stylesMetadata| ==> HasEncoding(d.stylesMetadata[i])
  {
    var styles := c.stylesMetadata;
    var ids := Ids(styles);
    AppendedIds(styles, styles[0]);
    FirstRepeated(ids);
    JoinOne(ids[0], ", ");
    AppendKeepsDefault(c, styles[0]);
    AppendKeepsEncodings(styles, styles[0]);
  }

  lemma AppendedIds(styles: seq<StyleMetadata>, x: StyleMetadata)
    ensures Ids(styles + [x]) == Ids(styles) + [x.id]
  {
    forall k | 0 <= k < |styles| ensures Ids(styles + [x])[k] == Ids(styles)[k] {
      assert (styles + [x])[k] == styles[k];
    }
  }

  lemma AppendKeepsDefault(c: OGCStyles, x: StyleMetadata)
    requires HasStyle(c, c.defaultStyle)
    ensures HasStyle(c.(stylesMetadata := c.stylesMetadata + [x]), c.defaultStyle)
  {
    var i :| 0 <= i < |c.stylesMetadata| && c.stylesMetadata[i].id == c.defaultStyle;
    assert (c.stylesMetadata + [x])[i] == c.stylesMetadata[i];
  }

  lemma AppendKeepsEncodings(styles: seq<StyleMetadata>, x: StyleMetadata)
    requires forall i :: 0 <= i < |styles| ==> HasEncoding(styles[i])
    requires HasEncoding(x)
    ensures forall i :: 0 <= i < |styles + [x]| ==> HasEncoding((styles + [x])[i])
  {
    forall k | 0 <= k < |styles + [x]| ensures HasEncoding((styles + [x])[k]) {
      assert (styles + [x])[k] == if k < |styles| then styles[k] else x;
    }
  }

  /** Appending a copy of the first style to a valid catalog fails requirement 3D alone,
      naming that style's id. */
  lemma DuplicatedStyleReported(c: OGCStyles)
    requires ValidationError(c).None? && c.stylesMetadata != []
    ensures var d := c.(stylesMetadata := c.stylesMetadata + [c.stylesMetadata[0]]);
            ValidationError(d) == Some("validation errors found: " + (UniqueStylesFailure + c.stylesMetadata[0].id))
  {
    ValidExactly(c);
    FirstStyleRepeated(c);
    OnlyUniquenessFails(c.(stylesMetadata := c.stylesMetadata + [c.stylesMetadata[0]]),
                        UniqueStylesFailure + c.stylesMetadata[0].id);
  }
}
