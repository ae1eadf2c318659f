/** The records the midpoint pipeline passes between its stages. */
module Places {
  import opened Wrappers

  /** A latitude/longitude pair in degrees. */
  datatype Coordinate = Coordinate(lat: real, lng: real)

  /** The place categories the venue search asks for, one per search-table row. */
  datatype Category = Cafe | Restaurant | Park | ShoppingMall | Hotel

  /** The category's name as the places service spells it. */
  function CategoryName(c: Category): string
  {
    match c
    case Cafe => "cafe"
    case Restaurant => "restaurant"
    case Park => "park"
    case ShoppingMall => "shopping_mall"
    case Hotel => "hotel"
  }

  /** The fairness figures attached to a venue (all in kilometres). */
  datatype DistanceScore = DistanceScore(
    distanceFromUser1: real,
    distanceFromUser2: real,
    distanceDifference: real,
    totalDistance: real,
    balancedScore: real)

  /** A candidate venue as the pipeline builds it from a search result; the
      photo, review and menu fields fetched alongside are not modelled. */
  datatype Place = Place(
    name: string,
    address: string,
    location: Coordinate,
    rating: Option<real>,
    types: seq<string>,
    userRatings: Option<int>,
    sourceType: Category,
    placeId: string,
    distanceScore: Option<DistanceScore>)

  /** `Math.abs` on real numbers. */
  function Abs(x: real): real
  {
    if x < 0.0 then -x else x
  }

  /** JavaScript's `rating >= bound`, which is false when `rating` is undefined. */
  predicate AtLeast(rating: Option<real>, bound: real)
  {
    rating.Some? && rating.value >= bound
  }

  /** JavaScript's `rating < bound`, which is false when `rating` is undefined. */
  predicate Below(rating: Option<real>, bound: real)
  {
    rating.Some? && rating.value < bound
  }

  /** JavaScript's `count > bound`, which is false when `count` is undefined. */
  predicate Above(count: Option<int>, bound: int)
  {
    count.Some? && count.value > bound
  }
}
