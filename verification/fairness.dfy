/** Fairness of a venue for the two users: the distance filter that drops venues
    too far from either of them, and the balanced distance score used for ranking.
    The great-circle distance is the parameter `dist`. */
module Fairness {
  import opened Wrappers
  import opened Seqs
  import opened Places

  /** How many times the users' own separation a venue may lie from either user. */
  const DefaultMaxDistanceRatio: real := 2.0

  /** The share of the total distance that is added to the imbalance. */
  const TotalDistanceWeight: real := 0.1

  /** The venue lies within `maxDistanceFromUser` of both users. */
  predicate WithinRange(place: Place, location1: Coordinate, location2: Coordinate,
                        dist: (Coordinate, Coordinate) -> real, maxDistanceFromUser: real)
  {
    dist(location1, place.location) <= maxDistanceFromUser
    && dist(location2, place.location) <= maxDistanceFromUser
  }

  /** The distance filter: keeps, in order, the venues that lie within
      `maxDistanceRatio` times the users' separation of both users. */
  function FilterPlacesByDistance(places: seq<Place>, location1: Coordinate, location2: Coordinate,
                                  dist: (Coordinate, Coordinate) -> real, maxDistanceRatio: real): (r: seq<Place>)
    ensures IsSubseq(r, places)
    ensures forall i :: 0 <= i < |places| ==>
      (places[i] in r <==> WithinRange(places[i], location1, location2, dist, dist(location1, location2) * maxDistanceRatio))
    ensures forall p :: p in r ==> WithinRange(p, location1, location2, dist, dist(location1, location2) * maxDistanceRatio)
  {
    var maxDistanceFromUser := dist(location1, location2) * maxDistanceRatio;
    FilterIsSubseq(places, (p: Place) => WithinRange(p, location1, location2, dist, maxDistanceFromUser));
    Filter(places, (p: Place) => WithinRange(p, location1, location2, dist, maxDistanceFromUser))
  }

  /** The filter keeps every copy of a venue in range and no copy of one out of range. */
  lemma DistanceFilterMultiplicity(places: seq<Place>, location1: Coordinate, location2: Coordinate,
                                   dist: (Coordinate, Coordinate) -> real, maxDistanceRatio: real, p: Place)
    ensures var r := FilterPlacesByDistance(places, location1, location2, dist, maxDistanceRatio);
      multiset(r)[p] == (if WithinRange(p, location1, location2, dist, dist(location1, location2) * maxDistanceRatio)
                         then multiset(places)[p] else 0)
  {
    var maxDistanceFromUser := dist(location1, location2) * maxDistanceRatio;
    FilterMultiplicity(places, (p: Place) => WithinRange(p, location1, location2, dist, maxDistanceFromUser), p);
  }

  /** The fairness figures of one venue. */
  function BalancedDistanceScore(place: Place, location1: Coordinate, location2: Coordinate,
                                 dist: (Coordinate, Coordinate) -> real): (s: DistanceScore)
    ensures s.distanceFromUser1 == dist(location1, place.location)
    ensures s.distanceFromUser2 == dist(location2, place.location)
    ensures s.distanceDifference >= 0.0
    ensures s.distanceDifference == s.distanceFromUser1 - s.distanceFromUser2
         || s.distanceDifference == s.distanceFromUser2 - s.distanceFromUser1
    ensures s.totalDistance == s.distanceFromUser1 + s.distanceFromUser2
    ensures s.balancedScore == s.distanceDifference + s.totalDistance / 10.0
    ensures s.distanceFromUser1 >= 0.0 && s.distanceFromUser2 >= 0.0 ==>
      && s.totalDistance >= s.distanceDifference
      && s.distanceDifference <= s.balancedScore <= s.totalDistance * 11.0 / 10.0
      && (s.balancedScore == 0.0 <==> s.distanceFromUser1 == 0.0 && s.distanceFromUser2 == 0.0)
  {
    var distanceFromUser1 := dist(location1, place.location);
    var distanceFromUser2 := dist(location2, place.location);
    var distanceDifference := Abs(distanceFromUser1 - distanceFromUser2);
    var totalDistance := distanceFromUser1 + distanceFromUser2;
    DistanceScore(distanceFromUser1, distanceFromUser2, distanceDifference, totalDistance,
                  distanceDifference + totalDistance * TotalDistanceWeight)
  }

  /** Calling either user the first changes nothing but the order of their two distances. */
  lemma BalancedScoreIsSymmetric(place: Place, location1: Coordinate, location2: Coordinate,
                                 dist: (Coordinate, Coordinate) -> real)
    ensures var s := BalancedDistanceScore(place, location1, location2, dist);
      var t := BalancedDistanceScore(place, location2, location1, dist);
      s.distanceDifference == t.distanceDifference && s.totalDistance == t.totalDistance
      && s.balancedScore == t.balancedScore
      && s.distanceFromUser1 == t.distanceFromUser2 && s.distanceFromUser2 == t.distanceFromUser1
  {
  }

  /** Of two venues with the same total distance, the more even one scores lower. */
  lemma EvenerVenueScoresLower(p: Place, q: Place, location1: Coordinate, location2: Coordinate,
                               dist: (Coordinate, Coordinate) -> real)
    requires var s := BalancedDistanceScore(p, location1, location2, dist);
      var t := BalancedDistanceScore(q, location1, location2, dist);
      s.totalDistance == t.totalDistance && s.distanceDifference < t.distanceDifference
    ensures BalancedDistanceScore(p, location1, location2, dist).balancedScore
      < BalancedDistanceScore(q, location1, location2, dist).balancedScore
  {
  }

  /** Every venue keeps its fields and gains its fairness figures, in order. */
  function AttachDistanceScores(places: seq<Place>, location1: Coordinate, location2: Coordinate,
                                dist: (Coordinate, Coordinate) -> real): (r: seq<Place>)
    ensures |r| == |places|
    ensures forall i :: 0 <= i < |places| ==>
      r[i] == places[i].(distanceScore := Some(BalancedDistanceScore(places[i], location1, location2, dist)))
    ensures forall i :: 0 <= i < |r| ==> r[i].distanceScore.Some?
  {
    seq(|places|, i requires 0 <= i < |places| =>
      places[i].(distanceScore := Some(BalancedDistanceScore(places[i], location1, location2, dist))))
  }
}
