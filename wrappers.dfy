/** Option and Result values for the model's "not found" and error paths. */
module Wrappers {

  datatype Option<+T> = None | Some(value: T)

  datatype Result<+T, +E> = Ok(value: T) | Err(error: E)

  /** The present values of `s`, in order: what a loop appending only the hits builds. */
  function Somes<T>(s: seq<Option<T>>): (r: seq<T>)
    ensures |r| <= |s|
  {
    if s == [] then []
    else Somes(s[..|s| - 1]) + (if s[|s| - 1].Some? then [s[|s| - 1].value] else [])
  }

  /** A value is kept exactly when it is present somewhere in `s`. */
  lemma {:induction false} SomesMembers<T>(s: seq<Option<T>>)
    ensures forall x :: x in Somes(s) <==> Some(x) in s
  {
    if s != [] {
      SomesMembers(s[..|s| - 1]);
      assert s == s[..|s| - 1] + [s[|s| - 1]];
    }
  }

  /** `f` applied to each element of `xs`, in order. */
  function Map<A, B>(f: A -> B, xs: seq<A>): (r: seq<B>)
    ensures |r| == |xs| && forall i {:trigger r[i]} :: 0 <= i < |xs| ==> r[i] == f(xs[i])
  {
    seq(|xs|, i requires 0 <= i < |xs| => f(xs[i]))
  }

  /** A value present at index `i` is kept. */
  lemma SomeKept<T>(s: seq<Option<T>>, i: nat, x: T)
    ensures i < |s| && s[i] == Some(x) ==> x in Somes(s)
  {
    SomesMembers(s);
  }

  /** A kept value is present at some index. */
  lemma SomeIndex<T>(s: seq<Option<T>>, x: T) returns (i: nat)
    ensures x in Somes(s) ==> i < |s| && s[i] == Some(x)
  {
    SomesMembers(s);
    i := 0;
    if x in Somes(s) {
      i :| i < |s| && s[i] == Some(x);
    }
  }

  /** The values present among the first `i + 1` elements: those of the first `i`, then element `i`'s. */
  lemma SomesPrefix<T>(s: seq<Option<T>>, i: nat)
    requires i < |s|
    ensures Somes(s[..i + 1]) == Somes(s[..i]) + (if s[i].Some? then [s[i].value] else [])
  {
    assert s[..i + 1][..i] == s[..i];
  }

  /** All the values of `s`, when none is missing: what a conversion that raises on the first failure gives. */
  function AllPresent<T>(s: seq<Option<T>>): (r: Option<seq<T>>)
    ensures r.Some? <==> forall i :: 0 <= i < |s| ==> s[i].Some?
    ensures r.Some? ==> |r.value| == |s| && forall i :: 0 <= i < |s| ==> r.value[i] == s[i].value
  {
    if forall i :: 0 <= i < |s| ==> s[i].Some? then Some(seq(|s|, i requires 0 <= i < |s| && s[i].Some? => s[i].value))
    else None
  }
}
