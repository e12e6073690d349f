/** Small value types and sequence helpers shared by every other module:
    `Option` stands for a TypeScript value that may be `undefined`/`null`,
    `Result` for an operation that returns or throws, `Filter` and
    `FindFirst` for `Array.prototype.filter` and `Array.prototype.find`. */
module Base {

  datatype Option<+T> = None | Some(value: T)

  datatype Result<+T, +E> = Success(value: T) | Failure(error: E)

  /** The elements of `s` that satisfy `keep`, in their original order. */
  function Filter<T>(s: seq<T>, keep: T -> bool): (r: seq<T>)
    ensures |r| <= |s|
    ensures forall i :: 0 <= i < |r| ==> keep(r[i])
    ensures forall i :: 0 <= i < |r| ==> r[i] in s
    ensures forall i :: 0 <= i < |s| && keep(s[i]) ==> s[i] in r
  {
    if |s| == 0 then []
    else
      assert s == s[..|s| - 1] + [s[|s| - 1]];
      Filter(s[..|s| - 1], keep) + (if keep(s[|s| - 1]) then [s[|s| - 1]] else [])
  }

  /** Filtering distributes over concatenation: what `a` contributes comes
      before what `b` contributes, so `Filter` keeps the original order. */
  lemma {:induction false} FilterAppend<T>(a: seq<T>, b: seq<T>, keep: T -> bool)
    ensures Filter(a + b, keep) == Filter(a, keep) + Filter(b, keep)
    decreases |b|
  {
    if |b| == 0 {
      assert a + b == a;
    } else {
      var b' := b[..|b| - 1];
      assert (a + b)[..|a + b| - 1] == a + b';
      FilterAppend(a, b', keep);
    }
  }

  /** An element that satisfies `keep` occurs in the result exactly as often
      as in `s`; any other element does not occur at all. */
  lemma {:induction false} FilterMultiplicity<T>(s: seq<T>, keep: T -> bool, x: T)
    ensures multiset(Filter(s, keep))[x] == if keep(x) then multiset(s)[x] else 0
    decreases |s|
  {
    if |s| > 0 {
      var init := s[..|s| - 1];
      assert s == init + [s[|s| - 1]];
      FilterMultiplicity(init, keep, x);
    }
  }

  /** When every element passes, `Filter` returns its input unchanged. */
  lemma {:induction false} FilterKeepsAll<T>(s: seq<T>, keep: T -> bool)
    requires forall i :: 0 <= i < |s| ==> keep(s[i])
    ensures Filter(s, keep) == s
    decreases |s|
  {
    if |s| > 0 {
      FilterKeepsAll(s[..|s| - 1], keep);
      assert s == s[..|s| - 1] + [s[|s| - 1]];
    }
  }

  /** The first element of `s` that satisfies `p`, or `None` if there is none. */
  function FindFirst<T>(s: seq<T>, p: T -> bool): (r: Option<T>)
    ensures r.None? <==> forall i :: 0 <= i < |s| ==> !p(s[i])
    ensures r.Some? ==> exists i :: 0 <= i < |s| && s[i] == r.value && p(s[i]) && FirstAt(s, p, i)
  {
    if |s| == 0 then None
    else if p(s[0]) then
      assert FirstAt(s, p, 0);
      Some(s[0])
    else
      var r := FindFirst(s[1..], p);
      assert r.Some? ==> exists i :: 0 <= i < |s| && s[i] == r.value && p(s[i]) && FirstAt(s, p, i) by {
        if r.Some? {
          var j :| 0 <= j < |s[1..]| && s[1..][j] == r.value && p(s[1..][j]) && FirstAt(s[1..], p, j);
          assert s[j + 1] == r.value && FirstAt(s, p, j + 1);
        }
      }
      r
  }

  /** No element before position `i` satisfies `p`. */
  ghost predicate FirstAt<T>(s: seq<T>, p: T -> bool, i: int)
    requires 0 <= i <= |s|
  {
    forall j :: 0 <= j < i ==> !p(s[j])
  }
}
