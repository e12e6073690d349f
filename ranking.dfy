/** The recommendation algorithm of `GET /api/recommendations`: keep the
    packages that share a category with the user's interests, order them by
    the number of shared categories (most first, ties in catalogue order, as
    a stable `Array.prototype.sort` does) and return the first three. */
module Ranking {
  import opened Base
  import opened Schema
  import opened StableSort

  /** `pkg.categories && pkg.categories.some(c => interests.includes(c))`. */
  predicate Matches(p: TravelPackage, interests: seq<string>)
  {
    p.categories.Some? &&
    exists i :: 0 <= i < |p.categories.value| && p.categories.value[i] in interests
  }

  /** The number of positions of `categories` whose value is one of `interests`. */
  function SharedCount(categories: seq<string>, interests: seq<string>): (n: nat)
    ensures n <= |categories|
  {
    if |categories| == 0 then 0
    else SharedCount(categories[..|categories| - 1], interests)
         + (if categories[|categories| - 1] in interests then 1 else 0)
  }

  /** The count is `categories.filter(c => interests.includes(c)).length`. */
  lemma {:induction false} SharedCountIsFilterLength(categories: seq<string>, interests: seq<string>)
    ensures SharedCount(categories, interests) == |Filter(categories, (c: string) => c in interests)|
  {
    if |categories| > 0 {
      SharedCountIsFilterLength(categories[..|categories| - 1], interests);
    }
  }

  /** The comparator's key: the shared count, or 0 when the package has no
      categories or the preference no interests. */
  function Relevance(p: TravelPackage, interests: Option<seq<string>>): (n: nat)
    ensures p.categories.Some? && interests.Some? ==> n <= |p.categories.value|
    ensures p.categories.None? || interests.None? ==> n == 0
  {
    if p.categories.Some? && interests.Some? then SharedCount(p.categories.value, interests.value)
    else 0
  }

  /** A positive count means some category is shared, and conversely. */
  lemma {:induction false} SharedCountPositive(categories: seq<string>, interests: seq<string>)
    ensures SharedCount(categories, interests) > 0
        <==> exists i :: 0 <= i < |categories| && categories[i] in interests
  {
    if |categories| > 0 {
      var init := categories[..|categories| - 1];
      SharedCountPositive(init, interests);
      if exists i :: 0 <= i < |init| && init[i] in interests {
        var i :| 0 <= i < |init| && init[i] in interests;
        assert categories[i] in interests;
      }
      if exists i :: 0 <= i < |categories| && categories[i] in interests {
        var i :| 0 <= i < |categories| && categories[i] in interests;
        if i < |init| {
          assert init[i] in interests;
        }
      }
    }
  }

  /** A package is relevant exactly when it passes the route's filter. */
  lemma RelevantIffMatches(p: TravelPackage, interests: seq<string>)
    ensures Relevance(p, Some(interests)) > 0 <==> Matches(p, interests)
  {
    if p.categories.Some? {
      SharedCountPositive(p.categories.value, interests);
    }
  }

  /** The relevance under the preference's interests, as a sort key. */
  function RelevanceKey(interests: Option<seq<string>>): TravelPackage -> nat
  {
    (p: TravelPackage) => Relevance(p, interests)
  }

  /** `recommendedPackages.sort((a, b) => bMatches - aMatches)` on the array
      in place. */
  method SortByRelevance(a: array<TravelPackage>, interests: Option<seq<string>>)
    modifies a
    ensures a[..] == Sort(old(a[..]), RelevanceKey(interests))
  {
    var key := RelevanceKey(interests);
    ghost var s := a[..];
    for i := 0 to a.Length
      invariant a[..i] == Sort(s[..i], key)
      invariant forall k :: i <= k < a.Length ==> a[k] == s[k]
    {
      SortSnoc(s, i, key);
      InsertAt(a, i, key);
    }
    assert a[..] == a[..a.Length] && s[..a.Length] == s;
  }

  // ---------------------------------------------------------------------
  // the top three

  /** `allPackages.filter(pkg => pkg.categories && pkg.categories.some(...))`. */
  function MatchingPackages(catalog: seq<TravelPackage>, interests: seq<string>): (r: seq<TravelPackage>)
    ensures forall i :: 0 <= i < |r| ==> Matches(r[i], interests) && r[i] in catalog
    ensures forall i :: 0 <= i < |catalog| && Matches(catalog[i], interests) ==> catalog[i] in r
  {
    Filter(catalog, (p: TravelPackage) => Matches(p, interests))
  }

  /** The list the route sorts: the matching packages when the preference
      lists at least one interest, otherwise the whole catalogue. */
  function Candidates(catalog: seq<TravelPackage>, interests: Option<seq<string>>): seq<TravelPackage>
  {
    if interests.Some? && |interests.value| > 0 then MatchingPackages(catalog, interests.value)
    else catalog
  }

  function Min(a: int, b: int): int
  {
    if a <= b then a else b
  }

  /** `recommendedPackages.slice(0, 3)` after the sort. */
  function Recommend(catalog: seq<TravelPackage>, interests: Option<seq<string>>): (r: seq<TravelPackage>)
    ensures |r| == Min(3, |Candidates(catalog, interests)|)
    ensures Sorted(r, RelevanceKey(interests))
    ensures forall i :: 0 <= i < |r| ==> r[i] in catalog
  {
    var candidates := Candidates(catalog, interests);
    var ranked := Sort(candidates, RelevanceKey(interests));
    var r := ranked[..Min(3, |ranked|)];
    assert forall i :: 0 <= i < |r| ==> r[i] in catalog by {
      forall i | 0 <= i < |r| ensures r[i] in catalog {
        assert r[i] in multiset(ranked);
        assert r[i] in candidates;
      }
    }
    r
  }

  /** Lines 110-133 of the handler: choose the candidates, copy them into an
      array, sort it in place and keep the first three. */
  method RecommendPackages(allPackages: seq<TravelPackage>, interests: Option<seq<string>>)
    returns (topRecommendations: seq<TravelPackage>)
    ensures topRecommendations == Recommend(allPackages, interests)
  {
    var recommendedPackages := allPackages;
    if interests.Some? && |interests.value| > 0 {
      recommendedPackages := MatchingPackages(allPackages, interests.value);
    }
    var a := new TravelPackage[|recommendedPackages|](i requires 0 <= i < |recommendedPackages| => recommendedPackages[i]);
    assert a[..] == Candidates(allPackages, interests);
    SortByRelevance(a, interests);
    topRecommendations := a[..Min(3, a.Length)];
  }

  /** With interests listed, every recommendation shares at least one
      category with them (so it has categories, and a positive relevance). */
  lemma RecommendMatches(catalog: seq<TravelPackage>, interests: seq<string>)
    requires |interests| > 0
    ensures forall i :: 0 <= i < |Recommend(catalog, Some(interests))| ==>
      var p := Recommend(catalog, Some(interests))[i];
      Matches(p, interests) && p.categories.Some? && Relevance(p, Some(interests)) > 0
  {
    var candidates := Candidates(catalog, Some(interests));
    var ranked := Sort(candidates, RelevanceKey(Some(interests)));
    forall i | 0 <= i < |Recommend(catalog, Some(interests))|
      ensures var p := Recommend(catalog, Some(interests))[i];
        Matches(p, interests) && p.categories.Some? && Relevance(p, Some(interests)) > 0
    {
      assert ranked[i] == Recommend(catalog, Some(interests))[i];
      assert ranked[i] in multiset(candidates);
      RelevantIffMatches(ranked[i], interests);
    }
  }

  /** Without interests (null or empty) every package has relevance 0, so the
      answer is the first three packages of the catalogue. */
  lemma RecommendWithoutInterests(catalog: seq<TravelPackage>, interests: Option<seq<string>>)
    requires interests.None? || interests.value == []
    ensures Recommend(catalog, interests) == catalog[..Min(3, |catalog|)]
  {
    forall p: TravelPackage ensures Relevance(p, interests) == 0 {
      if p.categories.Some? && interests.Some? {
        SharedCountPositive(p.categories.value, interests.value);
      }
    }
    SortKeepsSorted(catalog, RelevanceKey(interests));
  }

  /** The three are the most relevant: a candidate more relevant than some
      recommendation is itself recommended. */
  lemma RecommendBest(catalog: seq<TravelPackage>, interests: Option<seq<string>>, c: TravelPackage, i: nat)
    requires c in Candidates(catalog, interests)
    requires i < |Recommend(catalog, interests)|
    requires Relevance(c, interests) > Relevance(Recommend(catalog, interests)[i], interests)
    ensures c in Recommend(catalog, interests)
  {
    var ranked := Sort(Candidates(catalog, interests), RelevanceKey(interests));
    assert c in multiset(ranked);
    var j :| 0 <= j < |ranked| && ranked[j] == c;
    assert ranked[i] == Recommend(catalog, interests)[i];
    assert ranked[j] == Recommend(catalog, interests)[j];
  }

  /** Ties keep catalogue order: for every relevance, the recommendations of
      that relevance are a prefix of the candidates of that relevance. */
  lemma {:induction false} RecommendKeepsTies(catalog: seq<TravelPackage>, interests: Option<seq<string>>, v: nat)
    ensures KeyClass(Recommend(catalog, interests), RelevanceKey(interests), v)
         <= KeyClass(Candidates(catalog, interests), RelevanceKey(interests), v)
  {
    var ranked := Sort(Candidates(catalog, interests), RelevanceKey(interests));
    var k := Min(3, |ranked|);
    assert ranked == ranked[..k] + ranked[k..];
    KeyClassConcat(ranked[..k], ranked[k..], RelevanceKey(interests), v);
    SortStable(Candidates(catalog, interests), RelevanceKey(interests), v);
  }
}
