/** Option, Result and Outcome, and the few JavaScript array operations the
    stores rely on (Array.prototype.findIndex, find and filter), as functions
    over sequences. */
module Base {

  /** A value or its absence: JavaScript's `T | null` (or `T | undefined`). */
  datatype Option<+T> = None | Some(value: T)

  /** A value or the message of the error that replaced it. */
  datatype Result<+T, +E> = Success(value: T) | Failure(error: E)

  /** Completion of a void operation that may throw: the thrown message, if any. */
  datatype Outcome<+E> = Pass | Fail(error: E)

  /** `s.findIndex(p)`: the index of the first element satisfying `p`, or -1. */
  function FindIndex<T>(s: seq<T>, p: T -> bool): (r: int)
    ensures -1 <= r < |s|
    ensures r >= 0 ==> p(s[r]) && forall j :: 0 <= j < r ==> !p(s[j])
    ensures r == -1 <==> forall j :: 0 <= j < |s| ==> !p(s[j])
  {
    if |s| == 0 then -1
    else if p(s[0]) then 0
    else
      var k := FindIndex(s[1..], p);
      if k < 0 then -1 else k + 1
  }

  /** `s.find(p)`: the first element satisfying `p`, or nothing. */
  function Find<T>(s: seq<T>, p: T -> bool): (r: Option<T>)
    ensures r.None? <==> forall j :: 0 <= j < |s| ==> !p(s[j])
    ensures r.Some? ==> exists k :: 0 <= k < |s| && s[k] == r.value && p(s[k]) && forall j :: 0 <= j < k ==> !p(s[j])
  {
    var k := FindIndex(s, p);
    if k < 0 then None else Some(s[k])
  }

  /** `s.filter(keep)`: the elements satisfying `keep`, in their original order. */
  function Filter<T>(s: seq<T>, keep: T -> bool): (r: seq<T>)
    ensures |r| <= |s|
    ensures forall j :: 0 <= j < |r| ==> r[j] in s && keep(r[j])
    ensures forall j :: 0 <= j < |s| && keep(s[j]) ==> s[j] in r
    ensures (forall j :: 0 <= j < |s| ==> keep(s[j])) ==> r == s
  {
    if s == [] then []
    else (if keep(s[0]) then [s[0]] else []) + Filter(s[1..], keep)
  }

  /** Filtering distributes over concatenation, which is what keeping the
      original order means. */
  lemma {:induction false} FilterAppend<T>(a: seq<T>, b: seq<T>, keep: T -> bool)
    ensures Filter(a + b, keep) == Filter(a, keep) + Filter(b, keep)
  {
    if a == [] {
      assert a + b == b;
    } else {
      assert (a + b)[1..] == a[1..] + b;
      FilterAppend(a[1..], b, keep);
    }
  }

  /** Filtering twice with the same test is filtering once. */
  lemma {:induction false} FilterIdempotent<T>(s: seq<T>, keep: T -> bool)
    ensures Filter(Filter(s, keep), keep) == Filter(s, keep)
  {
    var r := Filter(s, keep);
    assert forall j :: 0 <= j < |r| ==> keep(r[j]);
  }

  /** A filter keeps its whole input exactly when every element passes. */
  lemma {:induction false} FilterKeepsAllIff<T>(s: seq<T>, keep: T -> bool)
    ensures |Filter(s, keep)| == |s| <==> forall j :: 0 <= j < |s| ==> keep(s[j])
  {
    if s != [] {
      FilterKeepsAllIff(s[1..], keep);
      assert forall j :: 1 <= j < |s| ==> s[j] == s[1..][j - 1];
      if !keep(s[0]) {
        assert |Filter(s, keep)| == |Filter(s[1..], keep)| <= |s| - 1;
      }
    }
  }

  /** The positions of `s` whose element passes `keep`. */
  function Positions<T>(s: seq<T>, keep: T -> bool): set<int>
  {
    set j | 0 <= j < |s| && keep(s[j])
  }

  /** Appending one element adds its index exactly when it passes. */
  lemma PositionsSnoc<T>(p: seq<T>, x: T, keep: T -> bool)
    ensures Positions(p + [x], keep) == Positions(p, keep) + (if keep(x) then {|p|} else {})
  {
    var s := p + [x];
    assert forall j :: 0 <= j < |p| ==> s[j] == p[j];
    assert s[|p|] == x;
  }

  /** A filter keeps as many elements as there are positions that pass. */
  lemma {:induction false} FilterCountsIndices<T>(s: seq<T>, keep: T -> bool)
    ensures |Filter(s, keep)| == |Positions(s, keep)|
  {
    if s != [] {
      var p, x := s[..|s| - 1], s[|s| - 1];
      assert s == p + [x];
      FilterCountsIndices(p, keep);
      FilterAppend(p, [x], keep);
      assert [x][1..] == [];
      assert |Filter([x], keep)| == if keep(x) then 1 else 0;
      PositionsSnoc(p, x, keep);
      assert |p| !in Positions(p, keep);
    }
  }

  /** Past an element that fails `p`, searching the rest finds the same thing. */
  lemma FindSkip<T>(s: seq<T>, p: T -> bool)
    requires |s| > 0 && !p(s[0])
    ensures Find(s, p) == Find(s[1..], p)
  {
  }

  /** Filtering away only elements that fail `p` does not change what a
      search for `p` finds. */
  lemma {:induction false} FindAfterFilter<T>(s: seq<T>, keep: T -> bool, p: T -> bool)
    requires forall j :: 0 <= j < |s| && p(s[j]) ==> keep(s[j])
    ensures Find(Filter(s, keep), p) == Find(s, p)
  {
    if s != [] {
      var rest := Filter(s[1..], keep);
      FindAfterFilter(s[1..], keep, p);
      if p(s[0]) {
        assert Filter(s, keep) == [s[0]] + rest;
      } else {
        FindSkip(s, p);
        if keep(s[0]) {
          assert Filter(s, keep) == [s[0]] + rest;
          assert ([s[0]] + rest)[1..] == rest;
          FindSkip([s[0]] + rest, p);
        } else {
          assert Filter(s, keep) == rest;
        }
      }
    }
  }
}
