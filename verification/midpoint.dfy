/** The `/api/midpoint` handler: request checks, the optional natural-language
    reading of the query, and the venue pipeline (search, distance filter, brand
    de-duplication, fairness figures, fairness order, recommendation scoring).
    The places service, the great-circle distance, the geographic midpoint and
    the clock are parameters. */
module Midpoint {
  import opened Wrappers
  import opened Seqs
  import opened Places
  import opened Candidates
  import opened Fairness
  import opened Brands
  import opened Ranking
  import opened ScoreSort
  import opened MidpointScoring
  import N = NlpSearch

  /** The body of a successful `/api/midpoint` response. */
  datatype MidpointResponse = MidpointResponse(midpoint: Coordinate, places: seq<AiPlace>, aiEnabled: bool)

  /** Both users stand at exactly the same coordinates. */
  predicate SameSpot(location1: Coordinate, location2: Coordinate)
  {
    location1.lat == location2.lat && location1.lng == location2.lng
  }

  /** The search parameters the handler works with: those of the query's
      reading when a query was sent and the natural-language service answered,
      none otherwise. `nlpReachable` stands for whether that call succeeded. */
  function NlpParamsFor(nlpQuery: Option<string>, nlpReachable: bool): (p: Option<N.SearchParams>)
    ensures p.Some? <==> N.Truthy(nlpQuery) && nlpReachable
    ensures p.Some? ==> |p.value.placeTypes| > 0 && Hotel !in p.value.placeTypes
  {
    if N.Truthy(nlpQuery) && nlpReachable then
      N.ParsedSearchNeverAsksForHotels(nlpQuery.value);
      Some(N.SearchParametersFor(N.Parse(nlpQuery.value)))
    else
      None
  }

  /** The call to the natural-language endpoint when a query was sent: with
      both locations present it always answers with search parameters, unless
      the call itself fails, which `nlpReachable` stands for. */
  method ReadQuery(nlpQuery: Option<string>, nlpReachable: bool,
                   location1: Option<Coordinate>, location2: Option<Coordinate>)
    returns (nlpParams: Option<N.SearchParams>)
    requires location1.Some? && location2.Some?
    ensures nlpParams == NlpParamsFor(nlpQuery, nlpReachable)
  {
    nlpParams := None;
    if N.Truthy(nlpQuery) && nlpReachable {
      var nlpData := N.HandleNlpSearch("POST", nlpQuery, location1, location2);
      nlpParams := Some(nlpData.value.searchParams);
    }
  }

  /** A query that was read narrows the search: hotels are never searched, and
      at least one category still is. Without a reading all five are searched. */
  lemma QueryNarrowsSearch(nlpQuery: Option<string>, nlpReachable: bool)
    ensures var rows := SearchRows(NlpParamsFor(nlpQuery, nlpReachable));
      && (N.Truthy(nlpQuery) && nlpReachable ==> SearchRow(Hotel, "hotel") !in rows && |rows| > 0)
      && (!(N.Truthy(nlpQuery) && nlpReachable) ==> rows == SearchTable)
  {
    NarrowedRows(NlpParamsFor(nlpQuery, nlpReachable));
  }

  /** Search parameters naming at least one type, none of them hotels, keep
      some rows and drop the hotel row. */
  lemma NarrowedRows(p: Option<N.SearchParams>)
    requires p.Some? ==> |p.value.placeTypes| > 0 && Hotel !in p.value.placeTypes
    ensures p.Some? ==> SearchRow(Hotel, "hotel") !in SearchRows(p) && |SearchRows(p)| > 0
    ensures p.None? ==> SearchRows(p) == SearchTable
  {
    var rows := SearchRows(p);
    if p.Some? {
      assert SearchTable[4] == SearchRow(Hotel, "hotel");
      var c := p.value.placeTypes[0];
      var i := match c
        case Cafe => 0
        case Restaurant => 1
        case Park => 2
        case ShoppingMall => 3
        case Hotel => 4;
      assert SearchTable[i].category == c;
      assert SearchTable[i] in rows;
    }
  }

  /** The venues the pipeline ranks: the collected candidates within range of
      both users, at most two per brand, each carrying its fairness figures. */
  function Shortlist(rows: seq<SearchRow>, fetch: SearchRow -> NearbyResponse,
                     location1: Coordinate, location2: Coordinate,
                     dist: (Coordinate, Coordinate) -> real): seq<Place>
  {
    var inRange := FilterPlacesByDistance(Gathered(rows, fetch), location1, location2, dist, DefaultMaxDistanceRatio);
    AttachDistanceScores(BrandDedup(inRange, BrandKey), location1, location2, dist)
  }

  /** `order` is the shortlist rearranged so that no neighbouring pair is out of
      fairness order. */
  ghost predicate IsFairnessOrder(order: seq<Place>, shortlist: seq<Place>)
  {
    multiset(order) == multiset(shortlist) && AllScored(order) && LocallyOrdered(order)
  }

  /** The request checks, in the source's order: the method must be POST, both
      locations must be present, and they must not be the same point. */
  function CheckRequest(httpMethod: string, location1: Option<Coordinate>, location2: Option<Coordinate>)
    : (r: Result<(Coordinate, Coordinate), HttpError>)
    ensures httpMethod != "POST" ==> r == Err(HttpError(405, "Only POST requests are allowed"))
    ensures httpMethod == "POST" && (location1.None? || location2.None?) ==>
      r == Err(HttpError(400, "Missing locations"))
    ensures httpMethod == "POST" && location1.Some? && location2.Some? && SameSpot(location1.value, location2.value) ==>
      r == Err(HttpError(400, "Locations must be different"))
    ensures r.Ok? <==>
      httpMethod == "POST" && location1.Some? && location2.Some? && !SameSpot(location1.value, location2.value)
    ensures r.Ok? ==> r.value == (location1.value, location2.value)
  {
    if httpMethod != "POST" then Err(HttpError(405, "Only POST requests are allowed"))
    else if location1.None? || location2.None? then Err(HttpError(400, "Missing locations"))
    else if SameSpot(location1.value, location2.value) then Err(HttpError(400, "Locations must be different"))
    else Ok((location1.value, location2.value))
  }

  /** The midpoint the response reports: the geographic one, or the plain
      average of the two users when that is not a number (`None`). */
  function ReportedMidpoint(location1: Coordinate, location2: Coordinate, geoMidpoint: Option<Coordinate>): (m: Coordinate)
    ensures geoMidpoint.Some? ==> m == geoMidpoint.value
    ensures geoMidpoint.None? ==>
      m.lat - location1.lat == location2.lat - m.lat && m.lng - location1.lng == location2.lng - m.lng
  {
    if geoMidpoint.Some? then geoMidpoint.value
    else Coordinate((location1.lat + location2.lat) / 2.0, (location1.lng + location2.lng) / 2.0)
  }

  /** The handler: a rejected request gets the check's error; an accepted one
      the midpoint and the shortlist in fairness order, scored and re-ordered by
      the recommender. */
  method HandleMidpoint(httpMethod: string, location1: Option<Coordinate>, location2: Option<Coordinate>,
                        nlpQuery: Option<string>, nlpReachable: bool, geoMidpoint: Option<Coordinate>,
                        fetch: SearchRow -> NearbyResponse, dist: (Coordinate, Coordinate) -> real,
                        currentHour: int)
    returns (response: Result<MidpointResponse, HttpError>)
    ensures var checked := CheckRequest(httpMethod, location1, location2);
      && (checked.Err? ==> response == Err(checked.error))
      && (checked.Ok? ==> response.Ok?)
    ensures response.Ok? ==>
      var l1 := location1.value;
      var l2 := location2.value;
      var nlpParams := NlpParamsFor(nlpQuery, nlpReachable);
      && response.value.aiEnabled
      && response.value.midpoint == ReportedMidpoint(l1, l2, geoMidpoint)
      && exists order ::
           (IsFairnessOrder(order, Shortlist(SearchRows(nlpParams), fetch, l1, l2, dist))
            && response.value.places == Recommended(order, nlpParams, currentHour))
  {
    var checked := CheckRequest(httpMethod, location1, location2);
    if checked.Err? {
      return Err(checked.error);
    }
    var (l1, l2) := checked.value;
    var nlpParams := ReadQuery(nlpQuery, nlpReachable, location1, location2);
    var midpoint := ReportedMidpoint(l1, l2, geoMidpoint);
    var typesAndKeywords := SearchRows(nlpParams);
    var aiEnhancedPlaces := RankCandidates(typesAndKeywords, fetch, l1, l2, dist, nlpParams, currentHour);
    response := Ok(MidpointResponse(midpoint, aiEnhancedPlaces, true));
  }

  /** The venue pipeline after the request checks: search, distance filter,
      brand de-duplication, fairness figures, fairness order, then scoring. */
  method RankCandidates(rows: seq<SearchRow>, fetch: SearchRow -> NearbyResponse,
                        location1: Coordinate, location2: Coordinate,
                        dist: (Coordinate, Coordinate) -> real,
                        nlpParams: Option<N.SearchParams>, currentHour: int)
    returns (aiEnhancedPlaces: seq<AiPlace>)
    ensures exists order ::
      (IsFairnessOrder(order, Shortlist(rows, fetch, location1, location2, dist))
       && aiEnhancedPlaces == Recommended(order, nlpParams, currentHour))
  {
    var allPlaces := CollectCandidates(rows, fetch);
    allPlaces := FilterPlacesByDistance(allPlaces, location1, location2, dist, DefaultMaxDistanceRatio);
    var uniquePlaces := DedupByBrand(allPlaces);
    var placesWithScores := AttachDistanceScores(uniquePlaces, location1, location2, dist);
    assert placesWithScores == Shortlist(rows, fetch, location1, location2, dist);
    var finalPlaces := OrderByFairness(placesWithScores);
    aiEnhancedPlaces := ApplyAIRecommendations(finalPlaces, nlpParams, currentHour);
  }

  /** The fairness sort, run on an array holding the venues. */
  method OrderByFairness(placesWithScores: seq<Place>) returns (finalPlaces: seq<Place>)
    requires AllScored(placesWithScores)
    ensures IsFairnessOrder(finalPlaces, placesWithScores)
  {
    var ranked := new Place[|placesWithScores|](i requires 0 <= i < |placesWithScores| => placesWithScores[i]);
    assert ranked[..] == placesWithScores;
    SortByTolerance(ranked);
    finalPlaces := ranked[..];
  }

  /** Giving every venue new fairness figures keeps every brand's count. */
  lemma {:induction false} AttachKeepsBrandCounts(places: seq<Place>, location1: Coordinate, location2: Coordinate,
                                                  dist: (Coordinate, Coordinate) -> real, key: string)
    ensures BrandCount(AttachDistanceScores(places, location1, location2, dist), key, BrandKey)
         == BrandCount(places, key, BrandKey)
  {
    if places != [] {
      var init := places[..|places| - 1];
      var r := AttachDistanceScores(places, location1, location2, dist);
      assert r[..|r| - 1] == AttachDistanceScores(init, location1, location2, dist);
      AttachKeepsBrandCounts(init, location1, location2, dist, key);
    }
  }

  /** The venue passed the admission test under its category, was found by a
      successful search of that category and lies within twice the users'
      separation of both users. */
  ghost predicate Eligible(p: Place, rows: seq<SearchRow>, fetch: SearchRow -> NearbyResponse,
                           location1: Coordinate, location2: Coordinate,
                           dist: (Coordinate, Coordinate) -> real)
  {
    && AdmittedPlace(p)
    && (exists row :: row in rows && row.category == p.sourceType && fetch(row).status == "OK")
    && WithinRange(p, location1, location2, dist, dist(location1, location2) * DefaultMaxDistanceRatio)
  }

  /** Every venue that survives the distance filter is eligible. */
  lemma InRangeAreEligible(rows: seq<SearchRow>, fetch: SearchRow -> NearbyResponse,
                           location1: Coordinate, location2: Coordinate,
                           dist: (Coordinate, Coordinate) -> real)
    ensures forall q :: (q in FilterPlacesByDistance(Gathered(rows, fetch), location1, location2, dist, DefaultMaxDistanceRatio)
                         ==> Eligible(q, rows, fetch, location1, location2, dist))
  {
    var gathered := Gathered(rows, fetch);
    var inRange := FilterPlacesByDistance(gathered, location1, location2, dist, DefaultMaxDistanceRatio);
    SubseqMultiset(inRange, gathered);
    GatheredAreAdmitted(rows, fetch);
    AdmittedSelectionEligible(inRange, gathered, rows, fetch, location1, location2, dist);
  }

  /** Venues in range drawn from admitted, successfully searched ones are eligible. */
  lemma AdmittedSelectionEligible(inRange: seq<Place>, gathered: seq<Place>,
                                  rows: seq<SearchRow>, fetch: SearchRow -> NearbyResponse,
                                  location1: Coordinate, location2: Coordinate,
                                  dist: (Coordinate, Coordinate) -> real)
    requires multiset(inRange) <= multiset(gathered)
    requires forall p :: p in gathered ==>
      AdmittedPlace(p) && exists row :: row in rows && row.category == p.sourceType && fetch(row).status == "OK"
    requires forall p :: p in inRange ==>
      WithinRange(p, location1, location2, dist, dist(location1, location2) * DefaultMaxDistanceRatio)
    ensures forall q :: q in inRange ==> Eligible(q, rows, fetch, location1, location2, dist)
  {
    forall q | q in inRange
      ensures Eligible(q, rows, fetch, location1, location2, dist)
    {
      assert q in multiset(gathered);
    }
  }

  /** Every shortlisted venue is eligible and carries its own fairness figures. */
  lemma ShortlistMeaning(rows: seq<SearchRow>, fetch: SearchRow -> NearbyResponse,
                         location1: Coordinate, location2: Coordinate,
                         dist: (Coordinate, Coordinate) -> real)
    ensures var shortlist := Shortlist(rows, fetch, location1, location2, dist);
      forall i :: 0 <= i < |shortlist| ==>
        && Eligible(shortlist[i], rows, fetch, location1, location2, dist)
        && shortlist[i].distanceScore == Some(BalancedDistanceScore(shortlist[i], location1, location2, dist))
  {
    var inRange := FilterPlacesByDistance(Gathered(rows, fetch), location1, location2, dist, DefaultMaxDistanceRatio);
    var unique := BrandDedup(inRange, BrandKey);
    InRangeAreEligible(rows, fetch, location1, location2, dist);
    DedupIsSubseq(inRange, BrandKey);
    SubseqMultiset(unique, inRange);
    ScoredSelectionEligible(unique, inRange, rows, fetch, location1, location2, dist);
  }

  /** Attaching fairness figures to venues drawn from eligible ones gives
      eligible venues, each carrying its own figures. */
  lemma ScoredSelectionEligible(unique: seq<Place>, inRange: seq<Place>,
                                rows: seq<SearchRow>, fetch: SearchRow -> NearbyResponse,
                                location1: Coordinate, location2: Coordinate,
                                dist: (Coordinate, Coordinate) -> real)
    requires multiset(unique) <= multiset(inRange)
    requires forall q :: q in inRange ==> Eligible(q, rows, fetch, location1, location2, dist)
    ensures var scored := AttachDistanceScores(unique, location1, location2, dist);
      forall i :: 0 <= i < |scored| ==>
        && Eligible(scored[i], rows, fetch, location1, location2, dist)
        && scored[i].distanceScore == Some(BalancedDistanceScore(scored[i], location1, location2, dist))
  {
    forall i | 0 <= i < |unique|
      ensures Eligible(AttachDistanceScores(unique, location1, location2, dist)[i], rows, fetch, location1, location2, dist)
    {
      assert unique[i] in multiset(unique);
      ScoringKeepsEligible(unique[i], rows, fetch, location1, location2, dist);
    }
  }

  /** Attaching the fairness figures does not touch what eligibility reads. */
  lemma ScoringKeepsEligible(q: Place, rows: seq<SearchRow>, fetch: SearchRow -> NearbyResponse,
                             location1: Coordinate, location2: Coordinate,
                             dist: (Coordinate, Coordinate) -> real)
    requires Eligible(q, rows, fetch, location1, location2, dist)
    ensures Eligible(q.(distanceScore := Some(BalancedDistanceScore(q, location1, location2, dist))),
                     rows, fetch, location1, location2, dist)
  {
    var p := q.(distanceScore := Some(BalancedDistanceScore(q, location1, location2, dist)));
    assert p.name == q.name && p.types == q.types && p.rating == q.rating;
  }

  /** No brand is shortlisted more than twice. */
  lemma ShortlistBrandLimit(rows: seq<SearchRow>, fetch: SearchRow -> NearbyResponse,
                            location1: Coordinate, location2: Coordinate,
                            dist: (Coordinate, Coordinate) -> real, key: string)
    ensures BrandCount(Shortlist(rows, fetch, location1, location2, dist), key, BrandKey) <= MaxPerBrand
  {
    var inRange := FilterPlacesByDistance(Gathered(rows, fetch), location1, location2, dist, DefaultMaxDistanceRatio);
    AttachKeepsBrandCounts(BrandDedup(inRange, BrandKey), location1, location2, dist, key);
    DedupBrandCount(inRange, key, BrandKey);
  }

  /** The venues of a successful response: one per shortlisted venue, each the
      recommender's scoring of a shortlisted venue, highest score first. */
  lemma ResponseMeaning(order: seq<Place>, shortlist: seq<Place>,
                        nlpParams: Option<N.SearchParams>, currentHour: int)
    requires IsFairnessOrder(order, shortlist)
    ensures var r := Recommended(order, nlpParams, currentHour);
      && |r| == |shortlist|
      && SortedDesc(r, AiScoreOf)
      && forall i :: 0 <= i < |r| ==>
           && r[i].place in shortlist
           && r[i] == ScoredPlace(r[i].place, ContextFor(nlpParams, currentHour), nlpParams.Some?)
  {
    var r := Recommended(order, nlpParams, currentHour);
    var scored := ScoredAll(order, ContextFor(nlpParams, currentHour), nlpParams.Some?);
    RecommendedMeaning(order, nlpParams, currentHour);
    assert |order| == |shortlist| by {
      assert |multiset(order)| == |multiset(shortlist)|;
    }
    forall i | 0 <= i < |r|
      ensures r[i].place in shortlist
      ensures r[i] == ScoredPlace(r[i].place, ContextFor(nlpParams, currentHour), nlpParams.Some?)
    {
      assert r[i] in multiset(scored);
      var k :| 0 <= k < |scored| && scored[k] == r[i];
      assert order[k] in multiset(order);
    }
  }
}
