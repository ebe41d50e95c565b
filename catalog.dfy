/** The catalog and its output documents (pkg/models/context.go): OGCStyles, Document
    and the Documents queue with its fail-fast Add. */
module Catalog {
  import opened Wrappers
  import opened Seqs
  import opened Formats
  import opened Links

  type Bytes = seq<bv8>

  /** The catalog configuration; the catalog's own formats are kept in their order. */
  datatype OGCStyles = OGCStyles(
    baseResource: string,
    defaultStyle: string,
    additionalFormats: seq<Format>,
    stylesMetadata: seq<StyleMetadata>)

  /** A generated document; an error document carries nothing but its error. */
  datatype Document = Document(path: string, mediaType: MediaType, content: Option<Bytes>, error: Option<string>)

  function ErrorDocument(err: string): Document {
    Document("", "", None, Some(err))
  }

  /** The two arguments of one Documents.Add call. */
  datatype Submission = Submission(document: Option<Document>, err: Option<string>)

  /** What one Add call puts on the queue. */
  function AddOutput(s: Submission): (out: seq<Document>)
    ensures |out| <= 1
    ensures |out| == 1 ==> (out[0].error.Some? <==> s.err.Some? || (s.document.Some? && s.document.value.error.Some?))
  {
    if s.err.Some? then [ErrorDocument(s.err.value)]
    else if s.document.Some? then [s.document.value]
    else []
  }

  /** The output of a Documents queue. */
  class DocumentQueue {
    var items: seq<Document>

    constructor ()
      ensures items == []
    {
      items := [];
    }

    /** Documents.Add: an error is queued as an error document and stops the caller
        (false); otherwise a present document is queued as it is, and the caller goes on. */
    method Add(document: Option<Document>, err: Option<string>) returns (ok: bool)
      modifies this
      ensures ok <==> err.None?
      ensures err.Some? ==> items == old(items) + [ErrorDocument(err.value)]
      ensures err.None? && document.None? ==> items == old(items)
      ensures err.None? && document.Some? ==> items == old(items) + [document.value]
      ensures items == old(items) + AddOutput(Submission(document, err))
    {
      if err.Some? {
        items := items + [ErrorDocument(err.value)];
        return false;
      }
      if document.Some? {
        items := items + [document.value];
      }
      return true;
    }
  }

  predicate NoErrors(subs: seq<Submission>) {
    forall i :: 0 <= i < |subs| ==> subs[i].err.None?
  }

  /** The documents a run of Add calls queues when its caller stops at the first
      `false`: everything up to and including the first error. */
  function Emitted(subs: seq<Submission>): seq<Document> {
    if subs == [] then []
    else if subs[0].err.Some? then [ErrorDocument(subs[0].err.value)]
    else AddOutput(subs[0]) + Emitted(subs[1..])
  }

  /** Without errors, emission is the concatenation of the parts. */
  lemma {:induction false} EmittedAppend(p: seq<Submission>, q: seq<Submission>)
    requires NoErrors(p)
    ensures Emitted(p + q) == Emitted(p) + Emitted(q)
  {
    if p == [] {
      assert p + q == q;
    } else {
      assert (p + q)[1..] == p[1..] + q;
      EmittedAppend(p[1..], q);
    }
  }

  /** After an error nothing more is emitted. */
  lemma {:induction false} EmittedStops(p: seq<Submission>, q: seq<Submission>)
    requires !NoErrors(p)
    ensures Emitted(p + q) == Emitted(p)
  {
    if p[0].err.None? {
      assert (p + q)[1..] == p[1..] + q;
      EmittedStops(p[1..], q);
    }
  }

  /** One step of a loop that submits subs[i] after an error-free prefix: the queue grows
      by that call's output, and if the call failed the rest of subs never shows. */
  lemma EmittedStep(subs: seq<Submission>, i: nat)
    requires i < |subs| && NoErrors(subs[..i])
    ensures Emitted(subs[..i + 1]) == Emitted(subs[..i]) + AddOutput(subs[i])
    ensures subs[i].err.Some? ==> Emitted(subs) == Emitted(subs[..i + 1])
  {
    assert Emitted(subs[..i + 1]) == Emitted(subs[..i]) + AddOutput(subs[i]) by {
      TakeNext(subs, i);
      EmittedAppend(subs[..i], [subs[i]]);
      EmittedSingle(subs[i]);
    }
    if subs[i].err.Some? {
      assert !NoErrors(subs[..i + 1]) by {
        assert subs[..i + 1][i] == subs[i];
      }
      EmittedPrefixStops(subs[..i + 1], subs);
    }
  }

  lemma EmittedSingle(x: Submission)
    ensures Emitted([x]) == AddOutput(x)
  {
    assert [x][1..] == [];
  }

  lemma NoErrorsAppend(p: seq<Submission>, q: seq<Submission>)
    ensures NoErrors(p + q) <==> NoErrors(p) && NoErrors(q)
  {
    if NoErrors(p) && NoErrors(q) {
      forall i | 0 <= i < |p + q| ensures (p + q)[i].err.None? {
        if i >= |p| { assert (p + q)[i] == q[i - |p|]; }
      }
    }
    if NoErrors(p + q) {
      forall i | 0 <= i < |p| ensures p[i].err.None? { assert (p + q)[i] == p[i]; }
      forall i | 0 <= i < |q| ensures q[i].err.None? { assert (p + q)[|p| + i] == q[i]; }
    }
  }

  /** Once a prefix of the calls has failed, the rest never shows. */
  lemma EmittedPrefixStops(p: seq<Submission>, subs: seq<Submission>)
    requires p <= subs && !NoErrors(p)
    ensures Emitted(subs) == Emitted(p) && !NoErrors(subs)
  {
    assert subs == p + subs[|p|..];
    EmittedStops(p, subs[|p|..]);
    NoErrorsAppend(p, subs[|p|..]);
  }

  /** Emission of three consecutive runs of calls: each later run shows only when the
      earlier ones had no error. */
  lemma EmittedThree(a: seq<Submission>, b: seq<Submission>, c: seq<Submission>)
    ensures !NoErrors(a) ==> Emitted(a + b + c) == Emitted(a) && !NoErrors(a + b + c)
    ensures NoErrors(a) && !NoErrors(b) ==>
              Emitted(a + b + c) == Emitted(a) + Emitted(b) && !NoErrors(a + b + c)
    ensures NoErrors(a) && NoErrors(b) ==>
              Emitted(a + b + c) == Emitted(a) + Emitted(b) + Emitted(c)
              && (NoErrors(a + b + c) <==> NoErrors(c))
  {
    assert a + b + c == a + (b + c);
    NoErrorsAppend(a, b + c);
    NoErrorsAppend(b, c);
    if !NoErrors(a) {
      EmittedStops(a, b + c);
    } else {
      EmittedAppend(a, b + c);
      if !NoErrors(b) {
        EmittedStops(b, c);
      } else {
        EmittedAppend(b, c);
      }
    }
  }

  /** One pass of a loop over the parts of `all`, after error-free earlier parts: the
      queue grows by this part's emission, and a failing part ends everything that
      follows, `tail` included. */
  lemma FlattenLoopStep(all: seq<seq<Submission>>, k: nat, tail: seq<Submission>)
    requires k < |all| && NoErrors(Flatten(all[..k]))
    ensures Emitted(Flatten(all[..k + 1])) == Emitted(Flatten(all[..k])) + Emitted(all[k])
    ensures NoErrors(Flatten(all[..k + 1])) <==> NoErrors(all[k])
    ensures !NoErrors(all[k]) ==>
              Emitted(Flatten(all) + tail) == Emitted(Flatten(all[..k + 1]))
              && !NoErrors(Flatten(all) + tail)
  {
    assert all[..k + 1][..k] == all[..k];
    assert Flatten(all[..k + 1]) == Flatten(all[..k]) + all[k];
    EmittedAppend(Flatten(all[..k]), all[k]);
    NoErrorsAppend(Flatten(all[..k]), all[k]);
    if !NoErrors(all[k]) {
      FlattenPrefix(all, k + 1);
      EmittedPrefixStops(Flatten(all[..k + 1]), Flatten(all) + tail);
    }
  }

  function SubmittedDocuments(subs: seq<Submission>): seq<Option<Document>> {
    seq(|subs|, i requires 0 <= i < |subs| => subs[i].document)
  }

  /** A run without errors queues every submitted document, in order, and nothing else. */
  lemma {:induction false} EmittedWithoutErrors(subs: seq<Submission>)
    requires NoErrors(subs)
    ensures Emitted(subs) == Somes(SubmittedDocuments(subs))
    decreases |subs|
  {
    if subs != [] {
      var n := |subs| - 1;
      SplitLast(subs);
      EmittedAppend(subs[..n], [subs[n]]);
      EmittedWithoutErrors(subs[..n]);
      assert SubmittedDocuments(subs)[..n] == SubmittedDocuments(subs[..n]);
    }
  }

  /** Fail-fast: when no submitted document is itself an error document, an error
      document can only be the last one queued, and one is queued exactly when some
      call failed. */
  lemma {:induction false} EmittedErrorIsLast(subs: seq<Submission>)
    requires forall i :: 0 <= i < |subs| && subs[i].document.Some? ==> subs[i].document.value.error.None?
    ensures forall i :: 0 <= i < |Emitted(subs)| - 1 ==> Emitted(subs)[i].error.None?
    ensures (exists i :: 0 <= i < |Emitted(subs)| && Emitted(subs)[i].error.Some?) <==> !NoErrors(subs)
  {
    if subs != [] && subs[0].err.None? {
      EmittedErrorIsLast(subs[1..]);
      var rest := Emitted(subs[1..]);
      var a := AddOutput(subs[0]);
      var e := Emitted(subs);
      assert e == a + rest;
      if exists i :: 0 <= i < |e| && e[i].error.Some? {
        var i :| 0 <= i < |e| && e[i].error.Some?;
        assert rest[i - |a|].error.Some?;
        var k :| 0 <= k < |subs[1..]| && subs[1..][k].err.Some?;
        assert subs[k + 1].err.Some?;
      }
      if !NoErrors(subs) {
        var i :| 0 <= i < |subs| && subs[i].err.Some?;
        assert subs[1..][i - 1].err.Some?;
        var j :| 0 <= j < |rest| && rest[j].error.Some?;
        assert e[j + |a|].error.Some?;
      }
    } else if subs != [] {
      assert Emitted(subs)[0].error.Some?;
    }
  }

}
