/** The venue search of the midpoint handler: which categories are searched,
    which search results are admitted, and how the per-category batches are
    collected into one candidate list. */
module Candidates {
  import opened Wrappers
  import opened Text
  import opened Seqs
  import opened Places
  import NlpSearch

  /** One row of the search table: the category asked for and the keyword sent with it. */
  datatype SearchRow = SearchRow(category: Category, keyword: string)

  /** The categories searched when no natural-language query narrows them, in search order. */
  const SearchTable: seq<SearchRow> := [
    SearchRow(Cafe, "coffee"),
    SearchRow(Restaurant, "dining"),
    SearchRow(Park, "green"),
    SearchRow(ShoppingMall, "mall"),
    SearchRow(Hotel, "hotel")
  ]

  /** The search rows actually used: with search parameters that name at least
      one place type, the table rows of those types, in table order. */
  function SearchRows(nlpParams: Option<NlpSearch.SearchParams>): (rows: seq<SearchRow>)
    ensures IsSubseq(rows, SearchTable)
    ensures nlpParams.None? || |nlpParams.value.placeTypes| == 0 ==> rows == SearchTable
    ensures nlpParams.Some? && |nlpParams.value.placeTypes| > 0 ==>
      forall i :: 0 <= i < |SearchTable| ==>
        (SearchTable[i] in rows <==> SearchTable[i].category in nlpParams.value.placeTypes)
    ensures nlpParams.Some? ==> forall row :: row in rows ==> row.category in nlpParams.value.placeTypes || |nlpParams.value.placeTypes| == 0
  {
    if nlpParams.Some? && |nlpParams.value.placeTypes| > 0 then
      var types := nlpParams.value.placeTypes;
      FilterIsSubseq(SearchTable, (row: SearchRow) => row.category in types);
      Filter(SearchTable, (row: SearchRow) => row.category in types)
    else
      SubseqReflexive(SearchTable);
      SearchTable
  }

  /** A search result as the places service returns it (photos and details are not modelled). */
  datatype RawPlace = RawPlace(
    name: string,
    vicinity: string,
    location: Coordinate,
    rating: Option<real>,
    types: seq<string>,
    userRatingsTotal: Option<int>,
    placeId: string)

  /** The answer of one nearby search: its status word and its results. */
  datatype NearbyResponse = NearbyResponse(status: string, results: seq<RawPlace>)

  /** Words that disqualify a venue when they occur anywhere in its name, in any case. */
  const Denylist: seq<string> := ["dhaba", "store", "car", "garage", "automobile", "repair", "laundry"]

  const MinAdmittedRating: real := 3.5
  const MinAdmittedRatingsCount: int := 30

  /** `rating ?? 0` */
  function RatingOrZero(rating: Option<real>): real
  {
    if rating.Some? then rating.value else 0.0
  }

  /** `user_ratings_total ?? 0` */
  function CountOrZero(count: Option<int>): int
  {
    if count.Some? then count.value else 0
  }

  /** The admission test a search result must pass for the category it was found under. */
  predicate Admissible(raw: RawPlace, category: Category)
  {
    CategoryName(category) in raw.types
    && RatingOrZero(raw.rating) >= MinAdmittedRating
    && CountOrZero(raw.userRatingsTotal) > MinAdmittedRatingsCount
    && !ContainsAny(Lower(raw.name), Denylist)
  }

  /** The same test read off a candidate built from an admitted result. */
  predicate AdmittedPlace(p: Place)
  {
    CategoryName(p.sourceType) in p.types
    && RatingOrZero(p.rating) >= MinAdmittedRating
    && CountOrZero(p.userRatings) > MinAdmittedRatingsCount
    && !ContainsAny(Lower(p.name), Denylist)
  }

  /** The candidate record built from an admitted result found under `category`. */
  function ToPlace(raw: RawPlace, category: Category): Place
  {
    Place(raw.name, raw.vicinity, raw.location, raw.rating, raw.types, raw.userRatingsTotal,
          category, raw.placeId, None)
  }

  /** What one search contributes: nothing unless its status is "OK", otherwise
      its admitted results, in the service's order, tagged with the row's category. */
  function Batch(row: SearchRow, response: NearbyResponse): seq<Place>
  {
    if response.status == "OK" then
      var kept := Filter(response.results, raw => Admissible(raw, row.category));
      seq(|kept|, i requires 0 <= i < |kept| => ToPlace(kept[i], row.category))
    else
      []
  }

  /** The batches of `rows`, concatenated in search order. */
  function Gathered(rows: seq<SearchRow>, fetch: SearchRow -> NearbyResponse): seq<Place>
  {
    if rows == [] then []
    else Gathered(rows[..|rows| - 1], fetch) + Batch(rows[|rows| - 1], fetch(rows[|rows| - 1]))
  }

  /** The category loop: one search per row, each batch appended to `allPlaces`.
      The search itself is the parameter `fetch`. */
  method CollectCandidates(rows: seq<SearchRow>, fetch: SearchRow -> NearbyResponse)
    returns (allPlaces: seq<Place>)
    ensures allPlaces == Gathered(rows, fetch)
  {
    allPlaces := [];
    for i := 0 to |rows|
      invariant allPlaces == Gathered(rows[..i], fetch)
    {
      var data := fetch(rows[i]);
      if data.status == "OK" {
        var filteredPlaces := Filter(data.results, raw => Admissible(raw, rows[i].category));
        var places := seq(|filteredPlaces|, k requires 0 <= k < |filteredPlaces| => ToPlace(filteredPlaces[k], rows[i].category));
        allPlaces := allPlaces + places;
      }
      assert rows[..i + 1][..i] == rows[..i];
    }
    assert rows[..|rows|] == rows;
  }

  /** Every collected candidate passed the admission test under its own
      category, and was found by a row of that category whose search succeeded. */
  lemma {:induction false} GatheredAreAdmitted(rows: seq<SearchRow>, fetch: SearchRow -> NearbyResponse)
    ensures forall p :: p in Gathered(rows, fetch) ==>
      AdmittedPlace(p) && p.distanceScore.None?
      && exists row :: row in rows && row.category == p.sourceType && fetch(row).status == "OK"
  {
    if rows != [] {
      var init := rows[..|rows| - 1];
      var last := rows[|rows| - 1];
      GatheredAreAdmitted(init, fetch);
      forall p | p in Gathered(rows, fetch)
        ensures AdmittedPlace(p) && p.distanceScore.None?
        ensures exists row :: row in rows && row.category == p.sourceType && fetch(row).status == "OK"
      {
        if p in Gathered(init, fetch) {
          var row :| row in init && row.category == p.sourceType && fetch(row).status == "OK";
          assert row in rows;
        } else {
          var batch := Batch(last, fetch(last));
          assert p in batch;
          var kept := Filter(fetch(last).results, raw => Admissible(raw, last.category));
          var k :| 0 <= k < |kept| && p == ToPlace(kept[k], last.category);
          assert Admissible(kept[k], last.category);
        }
      }
    }
  }

  /** Conversely, every admitted result of a successful search becomes a candidate. */
  lemma {:induction false} AdmittedResultsAreGathered(rows: seq<SearchRow>, fetch: SearchRow -> NearbyResponse,
                                                     j: int, raw: RawPlace)
    requires 0 <= j < |rows|
    requires fetch(rows[j]).status == "OK"
    requires raw in fetch(rows[j]).results && Admissible(raw, rows[j].category)
    ensures ToPlace(raw, rows[j].category) in Gathered(rows, fetch)
  {
    var init := rows[..|rows| - 1];
    if j < |rows| - 1 {
      AdmittedResultsAreGathered(init, fetch, j, raw);
    } else {
      var results := fetch(rows[j]).results;
      var i :| 0 <= i < |results| && results[i] == raw;
      var kept := Filter(results, r => Admissible(r, rows[j].category));
      var k :| 0 <= k < |kept| && kept[k] == raw;
      assert Batch(rows[j], fetch(rows[j]))[k] == ToPlace(raw, rows[j].category);
    }
  }

  /** The case-insensitive denylist is a substring test: a name that merely
      contains "car" inside another word is refused like a car dealer. */
  lemma DenylistMatchesInsideWords(raw: RawPlace, category: Category, before: string, after: string)
    requires Lower(raw.name) == before + "car" + after
    ensures !Admissible(raw, category)
  {
    ContainsSelf("car");
    ContainsInSuffix(before, "car", "car");
    ContainsInPrefix(before + "car", after, "car");
    ContainsAnyMember(Lower(raw.name), Denylist, "car");
  }
}
