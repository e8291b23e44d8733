/** Order-preserving filtering, the model of Rust's `iter().filter(p).map(f).collect()`. */
module Seqs {

  /** The positions of the elements of `s` that satisfy `p`, in ascending order. */
  function Indices<T>(s: seq<T>, p: T -> bool): (r: seq<nat>)
    ensures |r| <= |s|
    ensures forall k :: 0 <= k < |r| ==> r[k] < |s| && p(s[r[k]])
    ensures forall k, l :: 0 <= k < l < |r| ==> r[k] < r[l]
    ensures forall i :: 0 <= i < |s| && p(s[i]) ==> i in r
    decreases |s|
  {
    if s == [] then []
    else
      var rest := Indices(s[..|s| - 1], p);
      if p(s[|s| - 1]) then rest + [|s| - 1] else rest
  }

  /** `s.iter().filter(p).map(f).collect()`: pushes `f(x)` for every `x` kept, in order. */
  function FilterMap<T, U>(s: seq<T>, p: T -> bool, f: T -> U): (r: seq<U>)
    decreases |s|
  {
    if s == [] then []
    else
      var x := s[|s| - 1];
      FilterMap(s[..|s| - 1], p, f) + (if p(x) then [f(x)] else [])
  }

  /** The filtered result is exactly `f` applied to the kept elements, in their original order. */
  lemma {:induction false} FilterMapByIndices<T, U>(s: seq<T>, p: T -> bool, f: T -> U)
    ensures |FilterMap(s, p, f)| == |Indices(s, p)|
    ensures forall k :: 0 <= k < |Indices(s, p)| ==> FilterMap(s, p, f)[k] == f(s[Indices(s, p)[k]])
    decreases |s|
  {
    if s != [] {
      var init := s[..|s| - 1];
      FilterMapByIndices(init, p, f);
      var before, idx := FilterMap(init, p, f), Indices(init, p);
      assert Indices(s, p) == idx + (if p(s[|s| - 1]) then [|s| - 1] else []);
      assert FilterMap(s, p, f) == before + (if p(s[|s| - 1]) then [f(s[|s| - 1])] else []);
      forall k | 0 <= k < |idx|
        ensures FilterMap(s, p, f)[k] == f(s[Indices(s, p)[k]])
      {
        assert FilterMap(s, p, f)[k] == before[k] == f(init[idx[k]]);
      }
    }
  }

  /** Nothing is kept exactly when no element satisfies the filter. */
  lemma {:induction false} FilterMapEmpty<T, U>(s: seq<T>, p: T -> bool, f: T -> U)
    ensures FilterMap(s, p, f) == [] <==> forall i :: 0 <= i < |s| ==> !p(s[i])
  {
    FilterMapByIndices(s, p, f);
    if FilterMap(s, p, f) == [] {
      assert |Indices(s, p)| == 0;
    } else {
      assert p(s[Indices(s, p)[0]]);
    }
  }

  /** `s.iter().enumerate()`: every element paired with its 0-based position. */
  function Enumerate<T>(s: seq<T>): (r: seq<(nat, T)>)
    ensures |r| == |s|
    ensures forall i :: 0 <= i < |s| ==> r[i] == (i, s[i])
  {
    seq(|s|, i requires 0 <= i < |s| => (i, s[i]))
  }

  /** Filtering an enumerated sequence on its elements (`q` looks only at the element) keeps
      the same positions as filtering the sequence itself with `p`. */
  lemma {:induction false} IndicesOfEnumerate<T>(s: seq<T>, p: T -> bool, q: ((nat, T)) -> bool)
    requires forall i: nat, x: T :: q((i, x)) == p(x)
    ensures Indices(Enumerate(s), q) == Indices(s, p)
    decreases |s|
  {
    if s != [] {
      var init := s[..|s| - 1];
      IndicesOfEnumerate(init, p, q);
      assert Enumerate(s)[..|s| - 1] == Enumerate(init);
    }
  }
}
