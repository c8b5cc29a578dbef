/**
 * The two collection utilities the listeners use to snapshot a watch set:
 * copying a set into a list (`new ArrayList<>(set)`) and cutting a list into
 * pages of bounded size (`CollectionUtils.chunked`).
 */
module Collections {

  /** `xs` lists every element of `s` exactly once, in some order. */
  ghost predicate Enumerates<T(!new)>(xs: seq<T>, s: set<T>)
  {
    && (forall x :: x in xs <==> x in s)
    && (forall i, j :: 0 <= i < j < |xs| ==> xs[i] != xs[j])
  }

  /** Appending an element not yet enumerated enumerates the set grown by it. */
  lemma EnumeratesAppend<T(!new)>(xs: seq<T>, s: set<T>, x: T)
    requires Enumerates(xs, s) && x !in s
    ensures Enumerates(xs + [x], s + {x})
  {
    forall i, j | 0 <= i < j < |xs + [x]|
      ensures (xs + [x])[i] != (xs + [x])[j]
    {
      if j == |xs| {
        assert xs[i] in s;
      }
    }
  }

  /**
   * A snapshot of a set as a list. The iteration order of a concurrent key set
   * is unspecified, so the order here is an arbitrary one.
   */
  method SetToSeq<T(==,!new)>(s: set<T>) returns (xs: seq<T>)
    ensures Enumerates(xs, s)
    ensures |xs| == |s|
  {
    xs := [];
    var rest := s;
    while rest != {}
      invariant rest <= s
      invariant forall x :: x in xs <==> x in s && x !in rest
      invariant forall i, j :: 0 <= i < j < |xs| ==> xs[i] != xs[j]
      invariant |xs| + |rest| == |s|
      decreases rest
    {
      var x :| x in rest;
      xs := xs + [x];
      rest := rest - {x};
    }
  }

  /** The concatenation of a list of pages. */
  function Flatten<T>(pages: seq<seq<T>>): seq<T>
  {
    if pages == [] then [] else pages[0] + Flatten(pages[1..])
  }

  /**
   * `CollectionUtils.chunked(xs, size)`: consecutive pages of `size` elements,
   * the last one possibly shorter, none empty.
   */
  function Chunked<T>(xs: seq<T>, size: nat): (pages: seq<seq<T>>)
    requires size > 0
    ensures Flatten(pages) == xs
    ensures forall i :: 0 <= i < |pages| ==> 0 < |pages[i]| <= size
    ensures forall i :: 0 <= i < |pages| - 1 ==> |pages[i]| == size
    ensures xs == [] <==> pages == []
    decreases |xs|
  {
    if xs == [] then []
    else if |xs| <= size then [xs]
    else
      var rest := Chunked(xs[size..], size);
      assert ([xs[..size]] + rest)[1..] == rest;
      [xs[..size]] + rest
  }
}
