/** The two JavaScript array primitives the record updates are built from:
    `findIndex` (first match, or none) and `filter` (keep matches, in order). */
module JsArray {
  import opened Text

  /** `s.findIndex(p)`: the first index whose element satisfies `p`. */
  function FindIndex<T>(s: seq<T>, p: T -> bool): (r: Option<nat>)
    ensures r.Some? ==> r.value < |s| && p(s[r.value])
    ensures r.Some? ==> forall j :: 0 <= j < r.value ==> !p(s[j])
    ensures r.None? ==> forall j :: 0 <= j < |s| ==> !p(s[j])
  {
    if s == [] then None
    else if p(s[0]) then Some(0)
    else match FindIndex(s[1..], p)
      case None => None
      case Some(k) => Some(k + 1)
  }

  /** The first index is unique: any index that matches and has no earlier
      match is the one `FindIndex` returns. */
  lemma FindIndexIsFirst<T>(s: seq<T>, p: T -> bool, i: nat)
    requires i < |s| && p(s[i])
    requires forall j :: 0 <= j < i ==> !p(s[j])
    ensures FindIndex(s, p) == Some(i)
  {
  }

  /** `s.filter(p)`: the elements satisfying `p`, in their original order. */
  function Filter<T>(s: seq<T>, p: T -> bool): (r: seq<T>)
    ensures |r| <= |s|
    ensures forall i :: 0 <= i < |r| ==> p(r[i])
  {
    if s == [] then [] else Filter(s[..|s| - 1], p) + (if p(s[|s| - 1]) then [s[|s| - 1]] else [])
  }

  lemma {:induction false} FilterConcat<T>(a: seq<T>, b: seq<T>, p: T -> bool)
    ensures Filter(a + b, p) == Filter(a, p) + Filter(b, p)
    decreases |b|
  {
    if b == [] {
      assert a + b == a;
    } else {
      var b' := b[..|b| - 1];
      assert (a + b)[..|a + b| - 1] == a + b';
      FilterConcat(a, b', p);
    }
  }

  /** Filtering by two predicates in either order gives the same sequence. */
  lemma {:induction false} FilterCommute<T>(s: seq<T>, p: T -> bool, q: T -> bool)
    ensures Filter(Filter(s, p), q) == Filter(Filter(s, q), p)
    decreases |s|
  {
    if s != [] {
      var s' := s[..|s| - 1];
      var x := s[|s| - 1];
      FilterCommute(s', p, q);
      FilterConcat(Filter(s', p), if p(x) then [x] else [], q);
      FilterConcat(Filter(s', q), if q(x) then [x] else [], p);
    }
  }

  /** Replacing an element that the filter drops by another it drops leaves the result alone. */
  lemma FilterUpdateDropped<T>(s: seq<T>, i: nat, x: T, p: T -> bool)
    requires i < |s| && !p(s[i]) && !p(x)
    ensures Filter(s[i := x], p) == Filter(s, p)
  {
    assert s == s[..i] + [s[i]] + s[i + 1..];
    assert s[i := x] == s[..i] + [x] + s[i + 1..];
    FilterConcat(s[..i] + [s[i]], s[i + 1..], p);
    FilterConcat(s[..i], [s[i]], p);
    FilterConcat(s[..i] + [x], s[i + 1..], p);
    FilterConcat(s[..i], [x], p);
  }

  /** `filter` keeps exactly the elements that pass, in their original order:
      the result is the input read at a strictly increasing list of positions,
      and every position whose element passes is in that list. */
  lemma {:induction false} FilterPositions<T>(s: seq<T>, p: T -> bool) returns (idx: seq<nat>)
    ensures |idx| == |Filter(s, p)|
    ensures forall k :: 0 <= k < |idx| ==> idx[k] < |s| && Filter(s, p)[k] == s[idx[k]]
    ensures forall k, l :: 0 <= k < l < |idx| ==> idx[k] < idx[l]
    ensures forall i :: 0 <= i < |s| && p(s[i]) ==> i in idx
    decreases |s|
  {
    if s == [] {
      idx := [];
    } else {
      var n := |s| - 1;
      var before := FilterPositions(s[..n], p);
      idx := before + (if p(s[n]) then [n] else []);
      forall i | 0 <= i < |s| && p(s[i])
        ensures i in idx
      {
        if i < n {
          assert s[..n][i] == s[i];
          assert i in before;
        } else {
          assert idx[|idx| - 1] == n;
        }
      }
    }
  }

  /** Nothing passes the filter when no element satisfies the predicate. */
  lemma {:induction false} FilterNone<T>(s: seq<T>, p: T -> bool)
    requires forall j :: 0 <= j < |s| ==> !p(s[j])
    ensures Filter(s, p) == []
    decreases |s|
  {
    if s != [] {
      FilterNone(s[..|s| - 1], p);
    }
  }

  /** A sequence cut around position `i`. */
  lemma SplitAround<T>(s: seq<T>, i: nat)
    requires i < |s|
    ensures s[..i + 1] == s[..i] + [s[i]]
    ensures s == s[..i + 1] + s[i + 1..]
  {
  }

  /** Filtering around one position: what comes before it, the element itself, what comes after. */
  lemma FilterSplitAt<T>(s: seq<T>, i: nat, p: T -> bool)
    requires i < |s|
    ensures Filter(s, p) == Filter(s[..i], p) + Filter([s[i]], p) + Filter(s[i + 1..], p)
  {
    SplitAround(s, i);
    FilterConcat(s[..i + 1], s[i + 1..], p);
    FilterConcat(s[..i], [s[i]], p);
  }

  /** When at most one element matches and the one at `i` does, the filter is exactly that element. */
  lemma FilterSingleMatch<T>(s: seq<T>, i: nat, p: T -> bool)
    requires i < |s| && p(s[i]) && |Filter(s, p)| <= 1
    ensures Filter(s, p) == [s[i]]
    ensures Filter(s[..i], p) == [] && Filter(s[i + 1..], p) == []
  {
    FilterSplitAt(s, i, p);
    assert Filter([s[i]], p) == [s[i]] by {
      assert [s[i]][..0] == [];
    }
  }

  /** An element survives the filter exactly when it occurs in the input and satisfies `p`. */
  lemma {:induction false} FilterMembers<T>(s: seq<T>, p: T -> bool, x: T)
    ensures x in Filter(s, p) <==> x in s && p(x)
    decreases |s|
  {
    if s != [] {
      var s' := s[..|s| - 1];
      FilterMembers(s', p, x);
      assert s == s' + [s[|s| - 1]];
    }
  }
}
