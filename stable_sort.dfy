/** A stable sort by a natural-number key, largest key first, as a function
    on sequences with its properties, and as an in-place insertion sort on
    an array proved equal to it. */
module StableSort {
  import opened Base


  /** Non-increasing keys, as a comparator `key(b) - key(a)` asks for. */
  predicate Sorted<T(==)>(s: seq<T>, key: T -> nat)
  {
    forall i, j :: 0 <= i < j < |s| ==> key(s[i]) >= key(s[j])
  }

  /** The elements of `s` with key `v`, in their order in `s`. */
  function KeyClass<T(==)>(s: seq<T>, key: T -> nat, v: nat): (r: seq<T>)
    ensures forall i :: 0 <= i < |r| ==> key(r[i]) == v && r[i] in s
    ensures forall i :: 0 <= i < |s| && key(s[i]) == v ==> s[i] in r
  {
    Filter(s, (p: T) => key(p) == v)
  }

  lemma KeyClassAppend<T>(s: seq<T>, x: T, key: T -> nat, v: nat)
    ensures KeyClass(s + [x], key, v) == KeyClass(s, key, v) + (if key(x) == v then [x] else [])
  {
    assert (s + [x])[..|s + [x]| - 1] == s;
  }

  lemma {:induction false} KeyClassConcat<T>(a: seq<T>, b: seq<T>, key: T -> nat, v: nat)
    ensures KeyClass(a + b, key, v) == KeyClass(a, key, v) + KeyClass(b, key, v)
    decreases |b|
  {
    if |b| == 0 {
      assert a + b == a;
    } else {
      var bi, bl := b[..|b| - 1], b[|b| - 1];
      assert a + b == (a + bi) + [bl] && b == bi + [bl];
      KeyClassConcat(a, bi, key, v);
      KeyClassAppend(a + bi, bl, key, v);
      KeyClassAppend(bi, bl, key, v);
    }
  }

  /** Inserts `x` after every entry of `t` with a key at least as large: the
      step of a stable insertion sort. */
  function Insert<T(==)>(t: seq<T>, x: T, key: T -> nat): (r: seq<T>)
    ensures |r| == |t| + 1
    ensures multiset(r) == multiset(t) + multiset{x}
    decreases |t|
  {
    if |t| == 0 then [x]
    else
      var last := t[|t| - 1];
      var init := t[..|t| - 1];
      assert t == init + [last];
      if key(last) >= key(x) then t + [x]
      else Insert(init, x, key) + [last]
  }

  /** Inserting into an ordered list keeps it ordered. */
  lemma {:induction false} InsertKeepsSorted<T>(t: seq<T>, x: T, key: T -> nat)
    requires Sorted(t, key)
    ensures Sorted(Insert(t, x, key), key)
    decreases |t|
  {
    if |t| > 0 {
      var last := t[|t| - 1];
      var init := t[..|t| - 1];
      assert t == init + [last];
      if key(last) < key(x) {
        assert Sorted(init, key);
        InsertKeepsSorted(init, x, key);
        var u := Insert(init, x, key);
        InsertLowerBound(init, x, key, key(last));
        SortedSnoc(u, last, key);
      }
    }
  }

  /** A key bound that holds for `x` and all of `t` holds for `Insert(t, x)`. */
  lemma {:induction false} InsertLowerBound<T>(t: seq<T>, x: T, key: T -> nat, b: nat)
    requires key(x) >= b
    requires forall k :: 0 <= k < |t| ==> key(t[k]) >= b
    ensures forall k :: 0 <= k < |t| + 1 ==> key(Insert(t, x, key)[k]) >= b
    decreases |t|
  {
    if |t| > 0 {
      var last := t[|t| - 1];
      var init := t[..|t| - 1];
      assert t == init + [last];
      if key(last) < key(x) {
        InsertLowerBound(init, x, key, b);
      }
    }
  }

  /** An ordered list stays ordered when an entry no larger than all its
      keys is appended. */
  lemma SortedSnoc<T>(u: seq<T>, last: T, key: T -> nat)
    requires Sorted(u, key)
    requires forall k :: 0 <= k < |u| ==> key(u[k]) >= key(last)
    ensures Sorted(u + [last], key)
  {
    var w := u + [last];
    forall i, j | 0 <= i < j < |w| ensures key(w[i]) >= key(w[j]) {
      if j < |u| {
        assert w[i] == u[i] && w[j] == u[j];
      } else {
        assert w[i] == u[i] && w[j] == last;
      }
    }
  }

  /** Stable insertion sort by non-increasing key. */
  function Sort<T(==)>(s: seq<T>, key: T -> nat): (r: seq<T>)
    ensures |r| == |s|
    ensures multiset(r) == multiset(s)
    ensures Sorted(r, key)
    decreases |s|
  {
    if |s| == 0 then []
    else
      assert s == s[..|s| - 1] + [s[|s| - 1]];
      var sorted := Sort(s[..|s| - 1], key);
      InsertKeepsSorted(sorted, s[|s| - 1], key);
      Insert(sorted, s[|s| - 1], key)
  }

  /** Inserting keeps the relative order of the entries of every key; `x`
      comes after all entries of its own key. */
  lemma {:induction false} InsertStable<T>(t: seq<T>, x: T, key: T -> nat, v: nat)
    ensures KeyClass(Insert(t, x, key), key, v)
         == KeyClass(t, key, v) + (if key(x) == v then [x] else [])
    decreases |t|
  {
    if |t| == 0 {
      assert Insert(t, x, key) == [] + [x];
      KeyClassAppend([], x, key, v);
    } else {
      var last := t[|t| - 1];
      var init := t[..|t| - 1];
      assert t == init + [last];
      if key(last) >= key(x) {
        KeyClassAppend(t, x, key, v);
      } else {
        InsertStable(init, x, key, v);
        KeyClassAppend(Insert(init, x, key), last, key, v);
        KeyClassAppend(init, last, key, v);
      }
    }
  }

  /** The sort is stable: for every key, the elements with that key appear in
      the same order as in the input. */
  lemma {:induction false} SortStable<T>(s: seq<T>, key: T -> nat, v: nat)
    ensures KeyClass(Sort(s, key), key, v) == KeyClass(s, key, v)
    decreases |s|
  {
    if |s| > 0 {
      var init, last := s[..|s| - 1], s[|s| - 1];
      assert s == init + [last];
      SortStable(init, key, v);
      InsertStable(Sort(init, key), last, key, v);
      KeyClassAppend(init, last, key, v);
    }
  }

  /** An input that is already in order comes back unchanged; in particular
      a list whose keys are all equal keeps its order. */
  lemma {:induction false} SortKeepsSorted<T>(s: seq<T>, key: T -> nat)
    requires Sorted(s, key)
    ensures Sort(s, key) == s
    decreases |s|
  {
    if |s| > 0 {
      var init, last := s[..|s| - 1], s[|s| - 1];
      assert s == init + [last];
      assert Sorted(init, key);
      SortKeepsSorted(init, key);
      if |init| > 0 {
        assert key(init[|init| - 1]) >= key(last);
      }
    }
  }

  /** If `b`, ordered, holds an element `x` with key `m`, its last element has
      a key no larger than `m`. */
  lemma LastIsLeast<T>(b: seq<T>, key: T -> nat, x: T, m: nat)
    requires |b| > 0 && Sorted(b, key)
    requires key(x) == m
    requires x in KeyClass(b, key, m)
    ensures key(b[|b| - 1]) <= m
  {
    var c := KeyClass(b, key, m);
    var i :| 0 <= i < |c| && c[i] == x;
    var k :| 0 <= k < |b| && b[k] == c[i];
    assert key(b[k]) >= key(b[|b| - 1]) || k == |b| - 1;
  }

  /** Two ordered lists with the same elements of each key, in the same
      order, are equal. */
  lemma {:induction false} SortedClassesEqual<T>(a: seq<T>, b: seq<T>, key: T -> nat)
    requires Sorted(a, key) && Sorted(b, key)
    requires forall v: nat :: KeyClass(a, key, v) == KeyClass(b, key, v)
    ensures a == b
    decreases |a| + |b|
  {
    if |a| == 0 {
      NoClassesEmpty(a, b, key);
    } else if |b| == 0 {
      NoClassesEmpty(b, a, key);
    } else {
      var ai, bi := a[..|a| - 1], b[..|b| - 1];
      ClassesWithoutLast(a, b, ai, bi, key);
      SortedPrefix(a, key);
      SortedPrefix(b, key);
      SortedClassesEqual(ai, bi, key);
      assert a == ai + [a[|a| - 1]] && b == bi + [b[|b| - 1]];
    }
  }

  /** Dropping the last element keeps a list ordered. */
  lemma SortedPrefix<T>(a: seq<T>, key: T -> nat)
    requires |a| > 0 && Sorted(a, key)
    ensures Sorted(a[..|a| - 1], key)
  {
    var ai := a[..|a| - 1];
    forall i, j | 0 <= i < j < |ai| ensures key(ai[i]) >= key(ai[j]) {
      assert ai[i] == a[i] && ai[j] == a[j];
    }
  }

  /** Two nonempty ordered lists with equal classes end in the same element,
      and all their classes stay equal without it. */
  lemma ClassesWithoutLast<T>(a: seq<T>, b: seq<T>, ai: seq<T>, bi: seq<T>, key: T -> nat)
    requires |a| > 0 && |b| > 0
    requires ai == a[..|a| - 1] && bi == b[..|b| - 1]
    requires Sorted(a, key) && Sorted(b, key)
    requires forall w: nat :: KeyClass(a, key, w) == KeyClass(b, key, w)
    ensures a[|a| - 1] == b[|b| - 1]
    ensures forall v: nat :: KeyClass(ai, key, v) == KeyClass(bi, key, v)
  {
    forall v: nat ensures KeyClass(ai, key, v) == KeyClass(bi, key, v) {
      DropLasts(a, b, key, v);
    }
    DropLasts(a, b, key, 0);
  }

  /** Two nonempty ordered lists with equal classes end in the same element,
      and their classes stay equal without it. */
  lemma DropLasts<T>(a: seq<T>, b: seq<T>, key: T -> nat, v: nat)
    requires |a| > 0 && |b| > 0
    requires Sorted(a, key) && Sorted(b, key)
    requires forall w: nat :: KeyClass(a, key, w) == KeyClass(b, key, w)
    ensures a[|a| - 1] == b[|b| - 1]
    ensures KeyClass(a[..|a| - 1], key, v) == KeyClass(b[..|b| - 1], key, v)
  {
    var ai, al := a[..|a| - 1], a[|a| - 1];
    var bi, bl := b[..|b| - 1], b[|b| - 1];
    assert a == ai + [al] && b == bi + [bl];
    LastIsLeast(b, key, al, key(al));
    LastIsLeast(a, key, bl, key(bl));
    DropLast(ai, al, bi, bl, key, v);
    DropLast(ai, al, bi, bl, key, key(al));
  }

  /** A list with the same (empty) classes as the empty list is empty. */
  lemma NoClassesEmpty<T>(a: seq<T>, b: seq<T>, key: T -> nat)
    requires |a| == 0
    requires forall v: nat :: KeyClass(a, key, v) == KeyClass(b, key, v)
    ensures |b| == 0
  {
    assert |b| > 0 ==> b[0] in KeyClass(b, key, key(b[0]));
  }

  /** Equal classes of two lists whose last elements share a key stay equal
      once the last elements are dropped, and then those elements are equal. */
  lemma DropLast<T>(ai: seq<T>, al: T, bi: seq<T>, bl: T,
                 key: T -> nat, v: nat)
    requires key(al) == key(bl)
    requires KeyClass(ai + [al], key, v) == KeyClass(bi + [bl], key, v)
    ensures KeyClass(ai, key, v) == KeyClass(bi, key, v)
    ensures v == key(al) ==> al == bl
  {
    KeyClassAppend(ai, al, key, v);
    KeyClassAppend(bi, bl, key, v);
    var x, y := KeyClass(ai, key, v), KeyClass(bi, key, v);
    if v != key(al) {
      assert x + [] == x && y + [] == y;
    } else {
      assert x + [al] == y + [bl];
      assert x == (x + [al])[..|x|];
      assert y == (y + [bl])[..|y|];
      assert (x + [al])[|x|] == al;
      assert (y + [bl])[|y|] == bl;
    }
  }

  /** Any stable ordering by the key is this one: a list ordered by the key
      that keeps the input order within each key equals `Sort`. So the
      result does not depend on which stable sort the JavaScript engine
      uses. */
  lemma StableSortUnique<T>(r: seq<T>, s: seq<T>, key: T -> nat)
    requires Sorted(r, key)
    requires forall v: nat :: KeyClass(r, key, v) == KeyClass(s, key, v)
    ensures r == Sort(s, key)
  {
    forall v: nat ensures KeyClass(Sort(s, key), key, v) == KeyClass(r, key, v) {
      SortStable(s, key, v);
    }
    SortedClassesEqual(r, Sort(s, key), key);
  }

  /** Where `Insert` puts `x`: after the last entry whose key is at least
      `key(x)`, that is, in front of the trailing run of entries with
      smaller keys. */
  lemma {:induction false} InsertPosition<T>(t: seq<T>, j: int, x: T, key: T -> nat)
    requires 0 <= j <= |t|
    requires j == 0 || key(t[j - 1]) >= key(x)
    requires forall k :: j <= k < |t| ==> key(t[k]) < key(x)
    ensures Insert(t, x, key) == t[..j] + [x] + t[j..]
    decreases |t|
  {
    if j == |t| {
      assert t[..j] == t && t[j..] == [];
      if |t| > 0 {
        InsertStopsAtLast(t, x, key);
      }
    } else {
      var init, last := t[..|t| - 1], t[|t| - 1];
      assert t == init + [last];
      InsertSkipsLast(t, x, key);
      InsertPosition(init, j, x, key);
      SplitSnoc(init, last, j, x);
    }
  }

  lemma SplitSnoc<T>(init: seq<T>, last: T, j: int, x: T)
    requires 0 <= j <= |init|
    ensures (init[..j] + [x] + init[j..]) + [last]
         == (init + [last])[..j] + [x] + (init + [last])[j..]
  {
    assert (init + [last])[..j] == init[..j];
    assert (init + [last])[j..] == init[j..] + [last];
  }

  lemma InsertStopsAtLast<T>(t: seq<T>, x: T, key: T -> nat)
    requires |t| > 0 && key(t[|t| - 1]) >= key(x)
    ensures Insert(t, x, key) == t + [x]
  {
  }

  lemma InsertSkipsLast<T>(t: seq<T>, x: T, key: T -> nat)
    requires |t| > 0 && key(t[|t| - 1]) < key(x)
    ensures Insert(t, x, key) == Insert(t[..|t| - 1], x, key) + [t[|t| - 1]]
  {
  }

  lemma SortSnoc<T>(s: seq<T>, i: int, key: T -> nat)
    requires 0 <= i < |s|
    ensures Sort(s[..i + 1], key) == Insert(Sort(s[..i], key), s[i], key)
  {
    assert s[..i + 1][..i] == s[..i];
  }

  /** Moves `a[i]` back into the ordered prefix `a[..i]`, past every entry
      with a smaller key. */
  method InsertAt<T(==)>(a: array<T>, i: int, key: T -> nat)
    requires 0 <= i < a.Length
    modifies a
    ensures a[..i + 1] == Insert(old(a[..i]), old(a[i]), key)
    ensures forall k :: i < k < a.Length ==> a[k] == old(a[k])
  {
    ghost var t := a[..i];
    var x := a[i];
    var j := i;
    while j > 0 && key(a[j - 1]) < key(x)
      invariant 0 <= j <= i
      invariant forall k :: 0 <= k < j ==> a[k] == t[k]
      invariant forall k :: j < k <= i ==> a[k] == t[k - 1]
      invariant forall k :: i < k < a.Length ==> a[k] == old(a[k])
      invariant forall k :: j <= k < i ==> key(t[k]) < key(x)
    {
      a[j] := a[j - 1];
      j := j - 1;
    }
    a[j] := x;
    Shifted(a[..i + 1], t, j, x);
    InsertPosition(t, j, x, key);
  }

  /** The prefix after the scan: `t[..j]`, then `x`, then the rest of `t`
      moved up by one. */
  lemma Shifted<T>(r: seq<T>, t: seq<T>, j: int, x: T)
    requires |r| == |t| + 1 && 0 <= j <= |t|
    requires forall k :: 0 <= k < j ==> r[k] == t[k]
    requires r[j] == x
    requires forall k :: j < k < |r| ==> r[k] == t[k - 1]
    ensures r == t[..j] + [x] + t[j..]
  {
    var rhs := t[..j] + [x] + t[j..];
    forall k | 0 <= k < |r| ensures r[k] == rhs[k] {
      if k > j {
        assert rhs[k] == t[k - 1];
      }
    }
  }
}
