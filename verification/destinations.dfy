/** Destination ranking (src/data/destinations.ts): every fetched destination
    is re-scored against the lower-cased travel wish and the budget, the list
    is sorted by score, highest first, and cut to `count` entries. The fetch
    itself is a parameter: `None` is a failed request. */
module Ranking {
  import opened Wrappers
  import opened Text
  import opened Types

  /** The ids that a theme keyword can lift. */
  const ThemedIds: set<string> := {"swiss-alps", "banff", "maldives", "santorini", "kyoto", "tuscany"}

  /** The +20 keyword bonus: four independent checks, each pairing two
      keywords of the (already lower-cased) wish with a group of ids. */
  function KeywordBonus(keywords: string, id: string): (b: int)
    ensures b == 0 || b == 20
    ensures b == 20 ==> id in ThemedIds
  {
    var mountains :=
      if (Contains(keywords, "mountain") || Contains(keywords, "peaceful"))
         && (id == "swiss-alps" || id == "banff") then 20 else 0;
    var beaches :=
      if (Contains(keywords, "beach") || Contains(keywords, "luxury"))
         && (id == "maldives" || id == "santorini") then 20 else 0;
    var culture :=
      if (Contains(keywords, "culture") || Contains(keywords, "temple"))
         && id == "kyoto" then 20 else 0;
    var wine :=
      if (Contains(keywords, "wine") || Contains(keywords, "countryside"))
         && id == "tuscany" then 20 else 0;
    mountains + beaches + culture + wine
  }

  /** The same rule seen from the destination's side: the two keywords of the
      one theme an id belongs to, none for an id outside the themes. */
  function ThemeKeywords(id: string): (ks: seq<string>)
    ensures ks != [] <==> id in ThemedIds
  {
    if id == "swiss-alps" || id == "banff" then ["mountain", "peaceful"]
    else if id == "maldives" || id == "santorini" then ["beach", "luxury"]
    else if id == "kyoto" then ["culture", "temple"]
    else if id == "tuscany" then ["wine", "countryside"]
    else []
  }

  /** A destination gets the bonus exactly when the wish mentions one of the
      keywords of its theme; since each id is in one theme only, the bonus is
      never given twice. */
  lemma KeywordBonusByTheme(keywords: string, id: string)
    ensures KeywordBonus(keywords, id) == 20 <==>
            exists k :: k in ThemeKeywords(id) && Contains(keywords, k)
  {
    var ks := ThemeKeywords(id);
    if id in ThemedIds {
      assert KeywordBonus(keywords, id) == 20 <==> Contains(keywords, ks[0]) || Contains(keywords, ks[1]);
      if Contains(keywords, ks[0]) {
        assert ks[0] in ks;
      } else if Contains(keywords, ks[1]) {
        assert ks[1] in ks;
      } else {
        assert forall k :: k in ks ==> k == ks[0] || k == ks[1];
      }
    } else {
      assert KeywordBonus(keywords, id) == 0;
    }
  }

  /** The budget adjustment: +10 within budget, -20 beyond one and a half
      times the budget, 0 in between. The source compares with `budget * 1.5`;
      on integers that is `2 * cost > 3 * budget`. */
  function BudgetAdjustment(cost: int, budget: int): (a: int)
    ensures a == 10 <==> cost <= budget
    ensures a == -20 <==> budget < cost && (cost as real) > (budget as real) * 1.5
    ensures a == 0 <==> budget < cost && (cost as real) <= (budget as real) * 1.5
  {
    if cost <= budget then 10
    else if 2 * cost > 3 * budget then -20
    else 0
  }

  /** The destination with its new score: the stored score plus the keyword
      bonus and the budget adjustment, so within 20 below and 30 above the
      stored one; nothing else changes. */
  function Scored(d: Destination, keywords: string, budget: int): (r: Destination)
    ensures r.(matchScore := d.matchScore) == d
    ensures r.matchScore == d.matchScore + KeywordBonus(keywords, d.id)
                                         + BudgetAdjustment(d.estimatedCost, budget)
    ensures d.matchScore - 20 <= r.matchScore <= d.matchScore + 30
  {
    d.(matchScore := d.matchScore + KeywordBonus(keywords, d.id)
                                  + BudgetAdjustment(d.estimatedCost, budget))
  }

  /** The `map` over the fetched list. */
  function ScoreAll(ds: seq<Destination>, keywords: string, budget: int): (r: seq<Destination>)
    ensures |r| == |ds|
    ensures forall i :: 0 <= i < |ds| ==> r[i] == Scored(ds[i], keywords, budget)
  {
    if ds == [] then [] else [Scored(ds[0], keywords, budget)] + ScoreAll(ds[1..], keywords, budget)
  }

  predicate SortedByScore(s: seq<Destination>) {
    forall i, j :: 0 <= i < j < |s| ==> s[i].matchScore >= s[j].matchScore
  }

  /** Places `x` before the first element that does not outscore it. */
  function Insert(x: Destination, s: seq<Destination>): (r: seq<Destination>)
    ensures multiset(r) == multiset(s) + multiset{x}
    ensures r[0] == x || (s != [] && r[0] == s[0])
  {
    if s == [] || x.matchScore >= s[0].matchScore then
      [x] + s
    else
      assert s == [s[0]] + s[1..];
      [s[0]] + Insert(x, s[1..])
  }

  lemma {:induction false} InsertKeepsSorted(x: Destination, s: seq<Destination>)
    requires SortedByScore(s)
    ensures SortedByScore(Insert(x, s))
  {
    if s != [] && x.matchScore < s[0].matchScore {
      var rest := Insert(x, s[1..]);
      InsertKeepsSorted(x, s[1..]);
      assert s[0].matchScore >= rest[0].matchScore;
      assert Insert(x, s) == [s[0]] + rest;
    }
  }

  /** `sort((a, b) => b.matchScore - a.matchScore)`: a stable sort, highest
      score first. */
  function SortByScore(s: seq<Destination>): (r: seq<Destination>)
    ensures multiset(r) == multiset(s)
    ensures SortedByScore(r)
  {
    if s == [] then [] else
      assert s == [s[0]] + s[1..];
      InsertKeepsSorted(s[0], SortByScore(s[1..]));
      Insert(s[0], SortByScore(s[1..]))
  }

  /** The elements of `s` whose score is `v`, in order. */
  function WithScore(v: int, s: seq<Destination>): seq<Destination> {
    if s == [] then []
    else (if s[0].matchScore == v then [s[0]] else []) + WithScore(v, s[1..])
  }

  lemma WithScoreCons(v: int, y: Destination, t: seq<Destination>)
    ensures WithScore(v, [y] + t) == (if y.matchScore == v then [y] else []) + WithScore(v, t)
  {
    assert ([y] + t)[1..] == t;
  }

  /** Where `x` scores less than the head, it is inserted behind it. */
  lemma InsertBehindHead(x: Destination, s: seq<Destination>)
    requires s != [] && x.matchScore < s[0].matchScore
    ensures Insert(x, s) == [s[0]] + Insert(x, s[1..])
  {
  }

  lemma SwapEmpty<T>(a: seq<T>, b: seq<T>, c: seq<T>)
    requires a == [] || b == []
    ensures a + (b + c) == b + (a + c)
  {
    if a == [] {
      assert [] + (b + c) == b + c;
    } else {
      assert [] + (a + c) == a + c;
    }
  }

  /** One step of `InsertWithScore` where `x` goes behind the head. */
  lemma InsertBehind(v: int, x: Destination, s: seq<Destination>)
    requires s != [] && x.matchScore < s[0].matchScore
    requires WithScore(v, Insert(x, s[1..])) == (if x.matchScore == v then [x] else []) + WithScore(v, s[1..])
    ensures WithScore(v, Insert(x, s)) == (if x.matchScore == v then [x] else []) + WithScore(v, s)
  {
    var t := Insert(x, s[1..]);
    InsertBehindHead(x, s);
    WithScoreCons(v, s[0], t);
    var c0 := if s[0].matchScore == v then [s[0]] else [];
    var cx := if x.matchScore == v then [x] else [];
    assert WithScore(v, s) == c0 + WithScore(v, s[1..]);
    // `x` scores less than `s[0]`, so at most one of the two is kept.
    SwapEmpty(c0, cx, WithScore(v, s[1..]));
  }

  lemma {:induction false} InsertWithScore(v: int, x: Destination, s: seq<Destination>)
    ensures WithScore(v, Insert(x, s)) ==
            (if x.matchScore == v then [x] else []) + WithScore(v, s)
  {
    if s == [] || x.matchScore >= s[0].matchScore {
      WithScoreCons(v, x, s);
    } else {
      InsertWithScore(v, x, s[1..]);
      InsertBehind(v, x, s);
    }
  }

  /** The sort is stable: destinations with equal scores keep the order in
      which they were fetched. */
  lemma {:induction false} SortIsStable(v: int, s: seq<Destination>)
    ensures WithScore(v, SortByScore(s)) == WithScore(v, s)
  {
    if s != [] {
      SortIsStable(v, s[1..]);
      InsertWithScore(v, s[0], SortByScore(s[1..]));
    }
  }

  /** `slice(0, end)`: a prefix; a negative `end` counts from the back. */
  function SliceTo<T>(s: seq<T>, end: int): (r: seq<T>)
    ensures end >= 0 ==> |r| == (if end < |s| then end else |s|)
    ensures end < 0 ==> |r| == (if |s| + end > 0 then |s| + end else 0)
    ensures r == s[..|r|]
  {
    var k := if end < 0 then (if |s| + end > 0 then |s| + end else 0)
             else (if end < |s| then end else |s|);
    s[..k]
  }

  /** `getRecommendedDestinations(travelWish, budget, count)` over the list the
      fetch produced; a failed fetch yields an empty list. */
  function GetRecommendedDestinations(
    travelWish: string, budget: int, count: int, fetched: Option<seq<Destination>>)
    : (r: seq<Destination>)
    ensures fetched.None? ==> r == []
    ensures |r| <= |fetched.GetOr([])|
    ensures count >= 0 ==> |r| <= count
  {
    var all := ScoreAll(fetched.GetOr([]), ToLower(travelWish), budget);
    var sorted := SortByScore(all);
    assert |multiset(sorted)| == |multiset(all)|;
    SliceTo(sorted, count)
  }

  /** Everything the ranking can return: the fetched list, re-scored. */
  function Candidates(travelWish: string, budget: int, fetched: Option<seq<Destination>>)
    : seq<Destination>
  {
    ScoreAll(fetched.GetOr([]), ToLower(travelWish), budget)
  }

  /** A failed fetch recommends nothing. */
  lemma FailedFetchRecommendsNothing(travelWish: string, budget: int, count: int)
    ensures GetRecommendedDestinations(travelWish, budget, count, None) == []
  {
  }

  /** The recommendations are sorted, highest score first. */
  lemma RecommendationsSorted(travelWish: string, budget: int, count: int, fetched: Option<seq<Destination>>)
    ensures SortedByScore(GetRecommendedDestinations(travelWish, budget, count, fetched))
  {
  }

  /** With a non-negative `count` there are `min(count, n)` recommendations
      for `n` fetched destinations. */
  lemma RecommendationsLength(
    travelWish: string, budget: int, count: int, fetched: Option<seq<Destination>>)
    requires count >= 0
    ensures var n := |fetched.GetOr([])|;
            |GetRecommendedDestinations(travelWish, budget, count, fetched)| == if count < n then count else n
  {
    var all := Candidates(travelWish, budget, fetched);
    assert |multiset(SortByScore(all))| == |multiset(all)|;
  }

  /** Each recommendation is a fetched destination, re-scored, and none is
      returned more often than it was fetched. */
  lemma RecommendationsAreScoredInputs(
    travelWish: string, budget: int, count: int, fetched: Option<seq<Destination>>)
    ensures var r := GetRecommendedDestinations(travelWish, budget, count, fetched);
            && multiset(r) <= multiset(Candidates(travelWish, budget, fetched))
            && forall x :: x in r ==>
                 exists d :: d in fetched.GetOr([]) && x == Scored(d, ToLower(travelWish), budget)
  {
    var all := Candidates(travelWish, budget, fetched);
    var sorted := SortByScore(all);
    var r := SliceTo(sorted, count);
    PrefixLeavesSuffix(sorted, |r|);
    ScoredComesFromInput(fetched.GetOr([]), ToLower(travelWish), budget);
    forall x | x in r
      ensures x in multiset(all)
    {
      assert x in multiset(r);
    }
  }

  /** Every re-scored destination stems from one of the inputs. */
  lemma ScoredComesFromInput(ds: seq<Destination>, keywords: string, budget: int)
    ensures forall x :: x in multiset(ScoreAll(ds, keywords, budget)) ==>
              exists d :: d in ds && x == Scored(d, keywords, budget)
  {
    var all := ScoreAll(ds, keywords, budget);
    forall x | x in multiset(all)
      ensures exists d :: d in ds && x == Scored(d, keywords, budget)
    {
      var i :| 0 <= i < |all| && all[i] == x;
      assert ds[i] in ds;
    }
  }

  /** Taking a prefix away leaves exactly the suffix. */
  lemma PrefixLeavesSuffix<T>(s: seq<T>, k: nat)
    requires k <= |s|
    ensures multiset(s) - multiset(s[..k]) == multiset(s[k..])
    ensures multiset(s[..k]) <= multiset(s)
  {
    assert s == s[..k] + s[k..];
  }

  /** In a sorted list, nothing left out of the first `k` outscores anything
      among them. */
  lemma SortedPrefixDominates(sorted: seq<Destination>, k: nat)
    requires SortedByScore(sorted) && k <= |sorted|
    ensures forall x, y :: x in sorted[..k] && y in multiset(sorted) - multiset(sorted[..k]) ==>
              y.matchScore <= x.matchScore
  {
    PrefixLeavesSuffix(sorted, k);
    forall x, y | x in sorted[..k] && y in multiset(sorted[k..])
      ensures y.matchScore <= x.matchScore
    {
      var i :| 0 <= i < k && sorted[i] == x;
      assert y in sorted[k..];
      var j :| k <= j < |sorted| && sorted[j] == y;
    }
  }

  /** Top-k: no candidate left out of the recommendations outscores one that
      was kept. */
  lemma RecommendationsAreTop(
    travelWish: string, budget: int, count: int, fetched: Option<seq<Destination>>)
    ensures var r := GetRecommendedDestinations(travelWish, budget, count, fetched);
            forall x, y :: x in r && y in multiset(Candidates(travelWish, budget, fetched)) - multiset(r)
              ==> y.matchScore <= x.matchScore
  {
    var sorted := SortByScore(Candidates(travelWish, budget, fetched));
    var r := SliceTo(sorted, count);
    SortedPrefixDominates(sorted, |r|);
  }

  /** Every recommended score lies within 20 below and 30 above the score the
      destination was fetched with. */
  lemma RecommendationScoreBounds(
    travelWish: string, budget: int, count: int, fetched: Option<seq<Destination>>)
    ensures forall x :: x in GetRecommendedDestinations(travelWish, budget, count, fetched) ==>
              exists d :: d in fetched.GetOr([]) && x.(matchScore := d.matchScore) == d &&
                d.matchScore - 20 <= x.matchScore <= d.matchScore + 30
  {
    RecommendationsAreScoredInputs(travelWish, budget, count, fetched);
  }

  /** Matching ignores letter case: lower-casing the wish beforehand changes
      nothing ... */
  lemma {:induction false} RankingIgnoresCase(
    travelWish: string, budget: int, count: int, fetched: Option<seq<Destination>>)
    ensures GetRecommendedDestinations(ToLower(travelWish), budget, count, fetched) ==
            GetRecommendedDestinations(travelWish, budget, count, fetched)
  {
    ToLowerIdempotent(travelWish);
  }

  /** ... and a theme keyword written in any letter case earns the bonus. */
  lemma KeywordInAnyCase(travelWish: string, written: string, id: string)
    requires Contains(travelWish, written)
    requires ToLower(written) in ThemeKeywords(id)
    ensures KeywordBonus(ToLower(travelWish), id) == 20
  {
    ContainsIgnoringCase(travelWish, written);
    KeywordBonusByTheme(ToLower(travelWish), id);
  }
}
