/** Option and Result, the two failure-carrying datatypes the model uses,
    and the flattening of a sequence of options. */
module Wrappers {

  datatype Option<+T> = None | Some(value: T)

  datatype Result<+T, +E> = Success(value: T) | Failure(error: E)

  /** The elements of an Option as a sequence of length 0 or 1. */
  function OptionToSeq<T>(o: Option<T>): seq<T> {
    match o
    case None => []
    case Some(v) => [v]
  }

  /** The values of the `Some` entries, in order: what a loop that appends
      only some of its per-element results builds. */
  function Somes<T>(os: seq<Option<T>>): seq<T>
    decreases |os|
  {
    if os == [] then [] else Somes(os[..|os| - 1]) + OptionToSeq(os[|os| - 1])
  }

  lemma {:induction false} SomesAppend<T>(a: seq<Option<T>>, b: seq<Option<T>>)
    ensures Somes(a + b) == Somes(a) + Somes(b)
    decreases |b|
  {
    if b == [] {
      assert a + b == a;
    } else {
      var ab := a + b;
      assert ab[..|ab| - 1] == a + b[..|b| - 1];
      SomesAppend(a, b[..|b| - 1]);
    }
  }

  /** A value occurs in the flattening exactly when some entry holds it. */
  lemma {:induction false} SomesMembers<T>(os: seq<Option<T>>, x: T)
    ensures x in Somes(os) <==> exists i :: 0 <= i < |os| && os[i] == Some(x)
    decreases |os|
  {
    if os != [] {
      var init := os[..|os| - 1];
      SomesMembers(init, x);
      if exists i :: 0 <= i < |init| && init[i] == Some(x) {
        var i :| 0 <= i < |init| && init[i] == Some(x);
        assert os[i] == Some(x);
      }
      if os[|os| - 1] != Some(x) && exists i :: 0 <= i < |os| && os[i] == Some(x) {
        var i :| 0 <= i < |os| && os[i] == Some(x);
        assert init[i] == Some(x);
      }
    }
  }

  /** The flattening is empty exactly when every entry is `None`. */
  lemma {:induction false} SomesEmpty<T>(os: seq<Option<T>>)
    ensures Somes(os) == [] <==> forall i :: 0 <= i < |os| ==> os[i].None?
  {
    if Somes(os) == [] {
      forall i | 0 <= i < |os| ensures os[i].None? {
        if os[i].Some? {
          SomesMembers(os, os[i].value);
        }
      }
    } else {
      SomesMembers(os, Somes(os)[0]);
    }
  }

  /** Appending the flattening of one more entry. */
  lemma SomesSnoc<T>(os: seq<Option<T>>, i: nat)
    requires i < |os|
    ensures Somes(os[..i + 1]) == Somes(os[..i]) + OptionToSeq(os[i])
  {
    assert os[..i + 1][..i] == os[..i];
  }

  /** Concatenation regroups freely. */
  lemma AppendAssoc<T>(x: seq<T>, y: seq<T>, z: seq<T>)
    ensures (x + y) + z == x + (y + z)
  {
  }

  /** The results of `f` on each element of `xs`, concatenated in order. */
  function ConcatMap<T, U>(f: T -> seq<U>, xs: seq<T>): seq<U>
    decreases |xs|
  {
    if xs == [] then [] else ConcatMap(f, xs[..|xs| - 1]) + f(xs[|xs| - 1])
  }

  lemma {:induction false} ConcatMapAppend<T, U>(f: T -> seq<U>, a: seq<T>, b: seq<T>)
    ensures ConcatMap(f, a + b) == ConcatMap(f, a) + ConcatMap(f, b)
    decreases |b|
  {
    if b == [] {
      assert a + b == a;
    } else {
      var n := |b| - 1;
      var ab := a + b;
      assert ab[..|ab| - 1] == a + b[..n] && ab[|ab| - 1] == b[n];
      ConcatMapAppend(f, a, b[..n]);
      AppendAssoc(ConcatMap(f, a), ConcatMap(f, b[..n]), f(b[n]));
    }
  }
}
