/** Sequence helpers used by the generator's specification. */
module Seqs {
  import opened Wrappers

  /** Concatenation of a sequence of sequences, built from the front part. */
  function Flatten<T>(ss: seq<seq<T>>): seq<T>
  {
    if ss == [] then [] else Flatten(ss[..|ss| - 1]) + ss[|ss| - 1]
  }

  /** The present values, in order (what a Go loop appending only non-nil results collects). */
  function Somes<T>(os: seq<Option<T>>): (r: seq<T>)
    ensures |r| <= |os|
  {
    if os == [] then []
    else Somes(os[..|os| - 1]) + (if os[|os| - 1].Some? then [os[|os| - 1].value] else [])
  }

  lemma {:induction false} FlattenPrefix<T>(ss: seq<seq<T>>, k: nat)
    requires k <= |ss|
    ensures Flatten(ss[..k]) <= Flatten(ss)
    decreases |ss| - k
  {
    if k < |ss| {
      FlattenPrefix(ss, k + 1);
      assert ss[..k + 1][..k] == ss[..k];
    } else {
      assert ss[..k] == ss;
    }
  }

  /** A prefix of one part, after all earlier parts, is a prefix of the whole. */
  lemma FlattenPartPrefix<T>(ss: seq<seq<T>>, k: nat, pre: seq<T>)
    requires k < |ss| && pre <= ss[k]
    ensures Flatten(ss[..k]) + pre <= Flatten(ss)
  {
    FlattenPrefix(ss, k + 1);
    assert ss[..k + 1][..k] == ss[..k];
    assert Flatten(ss[..k + 1]) == Flatten(ss[..k]) + ss[k];
  }

  lemma {:induction false} SomesMember<T>(os: seq<Option<T>>, x: T)
    ensures x in Somes(os) <==> exists i :: 0 <= i < |os| && os[i] == Some(x)
  {
    if os != [] {
      var n := |os| - 1;
      SomesMember(os[..n], x);
      if x in Somes(os) && x !in Somes(os[..n]) {
        assert os[n] == Some(x);
      }
      if exists i :: 0 <= i < |os| && os[i] == Some(x) {
        var i :| 0 <= i < |os| && os[i] == Some(x);
        if i < n { assert os[..n][i] == Some(x); }
      }
    }
  }

  /** The first item whose key is s, if any. */
  function FirstWithKey<T>(items: seq<T>, key: T -> string, s: string): (r: Option<T>)
    ensures r.Some? ==> r.value in items && key(r.value) == s
    ensures r.None? <==> forall i :: 0 <= i < |items| ==> key(items[i]) != s
  {
    if items == [] then None
    else if key(items[0]) == s then Some(items[0])
    else
      var r := FirstWithKey(items[1..], key, s);
      assert forall i :: 0 < i < |items| ==> items[i] == items[1..][i - 1];
      r
  }

  /** Appending three parts one after another is appending their concatenation. */
  lemma AppendThree<T>(x: seq<T>, a: seq<T>, b: seq<T>, c: seq<T>)
    ensures x + a + b + c == x + (a + b + c)
  {
  }

  lemma AppendTwo<T>(x: seq<T>, a: seq<T>, b: seq<T>)
    ensures x + a + b == x + (a + b)
  {
  }

  lemma SplitLast<T>(s: seq<T>)
    requires s != []
    ensures s == s[..|s| - 1] + [s[|s| - 1]]
  {
  }

  lemma TakeAll<T>(s: seq<T>, n: nat)
    requires n == |s|
    ensures s[..n] == s
  {
  }

  lemma TakeNext<T>(s: seq<T>, k: nat)
    requires k < |s|
    ensures s[..k + 1] == s[..k] + [s[k]]
  {
  }
}
