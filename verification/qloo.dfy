/*
  The recommendation client of the back end: how the search terms are put
  together from the interest record, the three recommendation requests and
  the venue search, and the canned recommendations used without an API
  key. The service itself is the parameter `respond`, which answers a
  request; whether an API key is configured is the parameter `hasKey`.
*/
module Qloo {
  import opened Wrappers
  import opened Text
  import opened Types

  /** An entry of a recommendation list: one of the canned entries of the
      fallback, or an entry reported by the service, kept opaque. */
  datatype Item =
    | Seoul          // seoul-korea, "K-pop capital and cultural hub"
    | AnimeTokyo     // tokyo-japan, "Anime and manga paradise"
    | Paris          // paris-france, "Cultural capital with world-class museums and cuisine"
    | ClassicTokyo   // tokyo-japan, "Perfect blend of traditional and modern culture"
    | RamenHouses    // ramen-spots, "Authentic Ramen Houses", Japanese cuisine
    | Reported(payload: string)

  /** Both canned Tokyo entries stand for the same place. */
  predicate IsTokyo(item: Item) {
    item == AnimeTokyo || item == ClassicTokyo
  }

  datatype Recommendations = Recommendations(
    destinations: seq<Item>,
    restaurants: seq<Item>,
    attractions: seq<Item>,
    experiences: seq<Item>)

  datatype Category = Travel | Dining | Entertainment

  /** A request to the service: a recommendation query, or a venue search.
      The always-empty `negative` list and the global `geo` filter of the
      travel query are not represented. */
  datatype Request =
    | Recommend(category: Category, positive: seq<string>, limit: nat)
    | Search(query: string, location: string, searchLimit: nat)

  /** The service's answer: the call failed, or it answered with a body whose
      `results` may be missing. */
  datatype Reply = Failed | Answered(results: Option<seq<Item>>)

  /** `response.data.results || []`, with a failed call giving `[]` as well. */
  function ResultsOf(reply: Reply): (r: seq<Item>)
    ensures reply.Failed? || reply.results.None? ==> r == []
    ensures reply.Answered? && reply.results.Some? ==> r == reply.results.value
  {
    match reply
    case Failed => []
    case Answered(results) => results.GetOr([])
  }

  // ---------------------------------------------------------------- terms

  /** `Boolean` as a filter on strings: the empty string is falsy. */
  predicate Truthy(s: string) {
    s != ""
  }

  /** The search terms: interests, cultural and food preferences, and
      keywords, in that order, without empty entries. Spreading a missing
      list throws, so a record with a missing list has no terms (the caller
      then falls back). */
  function SearchTerms(ui: UserInterests): (r: Option<seq<string>>)
    ensures r.Some? <==>
              ui.interests.Some? && ui.preferences.Some? && ui.preferences.value.cultural.Some? &&
              ui.preferences.value.food.Some? && ui.keywords.Some?
    ensures r.Some? ==> forall i :: 0 <= i < |r.value| ==> r.value[i] != ""
  {
    if ui.interests.None? || ui.preferences.None? || ui.preferences.value.cultural.None?
       || ui.preferences.value.food.None? || ui.keywords.None?
    then None
    else
      var p := ui.preferences.value;
      Some(Filter(Truthy, ui.interests.value + p.cultural.value + p.food.value + ui.keywords.value))
  }

  /** The terms keep the order of the lists they come from: each list
      contributes its non-empty entries, one list after the other. */
  lemma SearchTermsKeepOrder(interests: seq<string>, p: Preferences, keywords: seq<string>,
                             style: Option<string>, duration: Option<string>)
    requires p.cultural.Some? && p.food.Some?
    ensures SearchTerms(UserInterests(Some(interests), Some(p), Some(keywords), style, duration)) ==
            Some(Filter(Truthy, interests) + Filter(Truthy, p.cultural.value) +
                 Filter(Truthy, p.food.value) + Filter(Truthy, keywords))
  {
    var c, f := p.cultural.value, p.food.value;
    FilterAppend(Truthy, interests + c + f, keywords);
    FilterAppend(Truthy, interests + c, f);
    FilterAppend(Truthy, interests, c);
  }

  /** `slice(0, 5)`: at most the first five terms. */
  function FirstFive(terms: seq<string>): (r: seq<string>)
    ensures |r| == if |terms| < 5 then |terms| else 5
    ensures r == terms[..|r|]
  {
    if |terms| <= 5 then terms else terms[..5]
  }

  /** The travel request: ten results for the first five terms. */
  function TravelRequest(terms: seq<string>): (r: Request)
    ensures r.Recommend? && r.category == Travel && r.limit == 10
    ensures |r.positive| <= 5 && |r.positive| <= |terms| && r.positive == terms[..|r.positive|]
    ensures |r.positive| == if |terms| < 5 then |terms| else 5
  {
    Recommend(Travel, FirstFive(terms), 10)
  }

  /** The dining request: fifteen results for the first five of the food
      preferences followed by the terms. */
  function DiningRequest(food: seq<string>, terms: seq<string>): (r: Request)
    ensures r.Recommend? && r.category == Dining && r.limit == 15
    ensures |r.positive| <= 5 && |r.positive| <= |(food + terms)| && r.positive == (food + terms)[..|r.positive|]
    ensures |r.positive| == if |food + terms| < 5 then |food + terms| else 5
  {
    Recommend(Dining, FirstFive(food + terms), 15)
  }

  /** The entertainment request: ten results for the first five of the
      cultural preferences followed by the terms. */
  function EntertainmentRequest(cultural: seq<string>, terms: seq<string>): (r: Request)
    ensures r.Recommend? && r.category == Entertainment && r.limit == 10
    ensures |r.positive| <= 5 && |r.positive| <= |(cultural + terms)| && r.positive == (cultural + terms)[..|r.positive|]
    ensures |r.positive| == if |cultural + terms| < 5 then |cultural + terms| else 5
  {
    Recommend(Entertainment, FirstFive(cultural + terms), 10)
  }

  /** No request asks about more than five terms; the dining request leads
      with the food preferences and the entertainment request with the
      cultural ones, before the search terms. */
  lemma RequestsLeadWithPreferences(food: seq<string>, cultural: seq<string>, terms: seq<string>)
    ensures |TravelRequest(terms).positive| <= 5
    ensures |DiningRequest(food, terms).positive| <= 5
    ensures |EntertainmentRequest(cultural, terms).positive| <= 5
    ensures TravelRequest(terms).positive == terms[..|TravelRequest(terms).positive|]
    ensures var d := DiningRequest(food, terms).positive;
            if |food| >= 5 then d == food[..5] else d[..|food|] == food
    ensures var e := EntertainmentRequest(cultural, terms).positive;
            if |cultural| >= 5 then e == cultural[..5] else e[..|cultural|] == cultural
  {
    var d := FirstFive(food + terms);
    if |food| < 5 {
      assert d[..|food|] == (food + terms)[..|food|];
    }
    var e := FirstFive(cultural + terms);
    if |cultural| < 5 {
      assert e[..|cultural|] == (cultural + terms)[..|cultural|];
    }
  }

  // ------------------------------------------------------------- fallback

  /** `list.some(x => x.toLowerCase().includes(word))`. */
  function SomeMentions(list: seq<string>, word: string): bool {
    list != [] && (Contains(ToLower(list[0]), word) || SomeMentions(list[1..], word))
  }

  /** `some` holds exactly when some entry, lower-cased, contains `word`. */
  lemma {:induction false} SomeMentionsIff(list: seq<string>, word: string)
    ensures SomeMentions(list, word) <==> exists i :: 0 <= i < |list| && Contains(ToLower(list[i]), word)
  {
    if list != [] {
      SomeMentionsIff(list[1..], word);
      assert forall i :: 1 <= i < |list| ==> list[i] == list[1..][i - 1];
      if Contains(ToLower(list[0]), word) {
        assert 0 < |list|;
      } else if SomeMentions(list[1..], word) {
        var j :| 0 <= j < |list[1..]| && Contains(ToLower(list[1..][j]), word);
        assert Contains(ToLower(list[j + 1]), word);
      }
    }
  }

  function Interests(ui: UserInterests): seq<string> {
    ui.interests.GetOr([])
  }

  function Cultural(ui: UserInterests): seq<string> {
    if ui.preferences.Some? then ui.preferences.value.cultural.GetOr([]) else []
  }

  function Food(ui: UserInterests): seq<string> {
    if ui.preferences.Some? then ui.preferences.value.food.GetOr([]) else []
  }

  /** The words the fallback looks for. */
  const Bts := "bts"
  const KPop := "k-pop"
  const Ghibli := "ghibli"
  const Anime := "anime"
  const Ramen := "ramen"

  predicate KPopFan(ui: UserInterests) {
    SomeMentions(Interests(ui), Bts) || SomeMentions(Cultural(ui), KPop)
  }

  predicate AnimeFan(ui: UserInterests) {
    SomeMentions(Interests(ui), Ghibli) || SomeMentions(Cultural(ui), Anime)
  }

  predicate RamenLover(ui: UserInterests) {
    SomeMentions(Food(ui), Ramen) || SomeMentions(Interests(ui), Ramen)
  }

  /** The canned recommendations for the three interests that can match. */
  function FallbackFor(kpop: bool, anime: bool, ramen: bool): Recommendations {
    var matched := (if kpop then [Seoul] else []) + (if anime then [AnimeTokyo] else []);
    Recommendations(
      if matched == [] then [Paris, ClassicTokyo] else matched,
      if ramen then [RamenHouses] else [],
      [],
      [])
  }

  /** Seoul is recommended exactly for a k-pop fan, the anime Tokyo exactly
      for an anime fan, the default pair exactly when neither matched, the
      ramen houses exactly for a ramen lover, and nothing else. */
  lemma FallbackForShape(kpop: bool, anime: bool, ramen: bool)
    ensures var r := FallbackFor(kpop, anime, ramen);
            && r.destinations != []
            && (Seoul in r.destinations <==> kpop)
            && (AnimeTokyo in r.destinations <==> anime)
            && (Paris in r.destinations <==> !kpop && !anime)
            && (r.restaurants != [] <==> ramen)
            && r.attractions == [] && r.experiences == []
  {
  }

  /** The canned recommendations, as a value. */
  function Fallback(ui: UserInterests): Recommendations {
    FallbackFor(KPopFan(ui), AnimeFan(ui), RamenLover(ui))
  }

  /** `generateFallbackRecommendations`: pushes the matching entries, then
      replaces an empty destination list by the default pair. */
  method GenerateFallback(ui: UserInterests) returns (r: Recommendations)
    ensures r == Fallback(ui)
  {
    var interests, cultural, food := Interests(ui), Cultural(ui), Food(ui);
    var destinations: seq<Item> := [];
    var restaurants: seq<Item> := [];
    var attractions: seq<Item> := [];
    var kpop := SomeMentions(interests, Bts) || SomeMentions(cultural, KPop);
    if kpop {
      destinations := destinations + [Seoul];
    }
    var anime := SomeMentions(interests, Ghibli) || SomeMentions(cultural, Anime);
    if anime {
      destinations := destinations + [AnimeTokyo];
    }
    var ramen := SomeMentions(food, Ramen) || SomeMentions(interests, Ramen);
    if ramen {
      restaurants := restaurants + [RamenHouses];
    }
    if |destinations| == 0 {
      destinations := [Paris, ClassicTokyo];
    }
    r := Recommendations(destinations, restaurants, attractions, []);
    assert r == FallbackFor(kpop, anime, ramen);
  }

  /** The fallback always suggests somewhere, and never attractions or
      experiences. */
  lemma FallbackNeverEmpty(ui: UserInterests)
    ensures var r := Fallback(ui);
            && 1 <= |r.destinations| <= 2
            && r.attractions == [] && r.experiences == []
  {
  }

  /** Seoul is suggested exactly for "bts" among the interests or "k-pop"
      among the cultural preferences, in any letter case. */
  lemma FallbackSeoulIff(ui: UserInterests)
    ensures Seoul in Fallback(ui).destinations <==> KPopFan(ui)
  {
  }

  /** The anime Tokyo entry is suggested exactly for "ghibli" among the
      interests or "anime" among the cultural preferences; Seoul comes
      first when both are. */
  lemma FallbackAnimeTokyoIff(ui: UserInterests)
    ensures AnimeTokyo in Fallback(ui).destinations <==> AnimeFan(ui)
    ensures KPopFan(ui) && AnimeFan(ui) ==> Fallback(ui).destinations == [Seoul, AnimeTokyo]
  {
  }

  /** The default pair is suggested exactly when nothing matched, so Tokyo
      (one of its two entries) is suggested unless only Seoul matched. */
  lemma FallbackDefaultIff(ui: UserInterests)
    ensures Fallback(ui).destinations == [Paris, ClassicTokyo] <==> !KPopFan(ui) && !AnimeFan(ui)
    ensures (exists i :: 0 <= i < |Fallback(ui).destinations| && IsTokyo(Fallback(ui).destinations[i]))
            <==> AnimeFan(ui) || !KPopFan(ui)
  {
    var d := Fallback(ui).destinations;
    if AnimeFan(ui) {
      assert IsTokyo(d[|d| - 1]);
    } else if !KPopFan(ui) {
      assert IsTokyo(d[1]);
    }
  }

  /** The ramen houses are the only restaurant suggested, exactly for "ramen"
      among the food preferences or the interests. */
  lemma FallbackRamenIff(ui: UserInterests)
    ensures Fallback(ui).restaurants == if RamenLover(ui) then [RamenHouses] else []
    ensures RamenHouses in Fallback(ui).restaurants <==> RamenLover(ui)
  {
  }

  // --------------------------------------------------------------- client

  /** `getQlooRecommendations`: without an API key, or when a list the
      search terms are built from is missing, the canned recommendations and
      no request; otherwise one travel, one dining and one entertainment
      request, each of whose failure leaves its list empty. `sent` lists the
      requests in the order they are made. */
  method GetRecommendations(ui: UserInterests, hasKey: bool, respond: Request -> Reply)
    returns (recs: Recommendations, sent: seq<Request>)
    ensures !hasKey || SearchTerms(ui).None? ==> recs == Fallback(ui) && sent == []
    ensures hasKey && SearchTerms(ui).Some? ==>
              var terms := SearchTerms(ui).value;
              var p := ui.preferences.value;
              && sent == [TravelRequest(terms), DiningRequest(p.food.value, terms),
                          EntertainmentRequest(p.cultural.value, terms)]
              && recs == Recommendations(ResultsOf(respond(sent[0])), ResultsOf(respond(sent[1])),
                                         ResultsOf(respond(sent[2])), [])
  {
    if !hasKey {
      recs := GenerateFallback(ui);
      sent := [];
      return;
    }
    var terms := SearchTerms(ui);
    if terms.None? {
      recs := GenerateFallback(ui);
      sent := [];
      return;
    }
    var p := ui.preferences.value;
    recs := Recommendations([], [], [], []);
    sent := [];

    var travel := TravelRequest(terms.value);
    sent := sent + [travel];
    recs := recs.(destinations := ResultsOf(respond(travel)));

    var dining := DiningRequest(p.food.value, terms.value);
    sent := sent + [dining];
    recs := recs.(restaurants := ResultsOf(respond(dining)));

    var culture := EntertainmentRequest(p.cultural.value, terms.value);
    sent := sent + [culture];
    recs := recs.(attractions := ResultsOf(respond(culture)));
  }

  /** `searchQlooVenues`: nothing without a key or when the call fails,
      otherwise the reported results of one search for ten venues. */
  function SearchVenues(query: string, location: string, hasKey: bool, respond: Request -> Reply)
    : (r: seq<Item>)
    ensures !hasKey ==> r == []
    ensures hasKey ==> r == ResultsOf(respond(Search(query, location, 10)))
    ensures hasKey && respond(Search(query, location, 10)).Failed? ==> r == []
    ensures r != [] ==> hasKey && respond(Search(query, location, 10)) == Answered(Some(r))
  {
    if !hasKey then [] else ResultsOf(respond(Search(query, location, 10)))
  }
}
