/** The fairness ranking: venues ordered by balanced distance score, with
    scores within a tenth of a kilometre of each other ordered by rating. */
module Ranking {
  import opened Wrappers
  import opened Places

  /** Balanced scores closer than this are treated as a tie. */
  const ScoreTolerance: real := 0.1

  predicate Scored(p: Place)
  {
    p.distanceScore.Some?
  }

  function Balanced(p: Place): real
    requires Scored(p)
  {
    p.distanceScore.value.balancedScore
  }

  /** The sort comparator: negative puts `a` first, positive puts `b` first.
      A rating difference involving a missing rating is NaN, which the sort
      reads as zero. */
  function ToleranceCompare(a: Place, b: Place): (c: real)
    requires Scored(a) && Scored(b)
    ensures Balanced(a) + ScoreTolerance < Balanced(b) ==> c < 0.0
    ensures Balanced(b) + ScoreTolerance < Balanced(a) ==> c > 0.0
    ensures Abs(Balanced(a) - Balanced(b)) <= ScoreTolerance ==>
      (c < 0.0 <==> a.rating.Some? && b.rating.Some? && a.rating.value > b.rating.value)
    ensures Abs(Balanced(a) - Balanced(b)) <= ScoreTolerance && (a.rating.None? || b.rating.None?) ==> c == 0.0
  {
    var diff := Balanced(a) - Balanced(b);
    if Abs(diff) > ScoreTolerance then diff
    else if a.rating.Some? && b.rating.Some? then b.rating.value - a.rating.value
    else 0.0
  }

  /** Swapping the arguments negates the comparison. */
  lemma CompareAntisymmetric(a: Place, b: Place)
    requires Scored(a) && Scored(b)
    ensures ToleranceCompare(a, b) == -ToleranceCompare(b, a)
  {
  }

  /** The comparator is not transitive: three venues 0.08 km of balanced score
      apart, rated 3, 4 and 5, each beat the next in a cycle. No ordering
      satisfies it throughout, so what the engine's sort returns depends on
      its algorithm. */
  lemma CompareIsNotTransitive(a: Place, b: Place, c: Place)
    requires Scored(a) && Scored(b) && Scored(c)
    requires Balanced(a) == 0.0 && Balanced(b) == 0.08 && Balanced(c) == 0.16
    requires a.rating == Some(3.0) && b.rating == Some(4.0) && c.rating == Some(5.0)
    ensures ToleranceCompare(b, a) < 0.0 && ToleranceCompare(c, b) < 0.0 && ToleranceCompare(a, c) < 0.0
  {
  }

  ghost predicate AllScored(s: seq<Place>)
  {
    forall k :: 0 <= k < |s| ==> Scored(s[k])
  }

  /** No neighbouring pair is out of comparator order. */
  ghost predicate LocallyOrdered(s: seq<Place>)
    requires AllScored(s)
  {
    forall k :: 0 < k < |s| ==> ToleranceCompare(s[k - 1], s[k]) <= 0.0
  }

  /** The venues before index `n` are locally ordered. */
  ghost predicate OrderedBelow(s: seq<Place>, n: int)
    requires AllScored(s)
  {
    forall k :: 0 < k < n && k < |s| ==> ToleranceCompare(s[k - 1], s[k]) <= 0.0
  }

  /** `a` may stay before `b`: the comparator does not put `b` first. */
  predicate Precedes(a: Place, b: Place)
  {
    Scored(a) && Scored(b) && ToleranceCompare(a, b) <= 0.0
  }

  /** While the element that was at index `i` travels down and now sits at
      `j`: every other neighbouring pair up to `i` is in order, and so are the
      two elements on either side of it. */
  ghost predicate Inserting<T>(s: seq<T>, i: int, j: int, inOrder: (T, T) -> bool)
  {
    0 <= j <= i < |s|
    && (forall k :: 0 < k <= i && k != j ==> inOrder(s[k - 1], s[k]))
    && (0 < j < i ==> inOrder(s[j - 1], s[j + 1]))
  }

  /** One swap moves the travelling element one step down and keeps the invariant. */
  lemma SwapStep<T>(s: seq<T>, i: int, j: int, inOrder: (T, T) -> bool)
    requires Inserting(s, i, j, inOrder) && j > 0 && inOrder(s[j], s[j - 1])
    ensures Inserting(s[j - 1 := s[j]][j := s[j - 1]], i, j - 1, inOrder)
    ensures multiset(s[j - 1 := s[j]][j := s[j - 1]]) == multiset(s)
  {
    var t := s[j - 1 := s[j]][j := s[j - 1]];
    forall k | 0 < k <= i && k != j - 1
      ensures inOrder(t[k - 1], t[k])
    {
      if k == j {
        assert t[k - 1] == s[j] && t[k] == s[j - 1];
      } else if k == j + 1 {
        assert t[k - 1] == s[j - 1] && t[k] == s[j + 1];
      } else {
        assert t[k - 1] == s[k - 1] && t[k] == s[k];
      }
    }
    if 0 < j - 1 {
      assert t[j - 2] == s[j - 2] && t[j] == s[j - 1];
    }
    SwapKeepsMultiset(s, j);
  }

  /** Swapping two neighbours is a permutation. */
  lemma SwapKeepsMultiset<T>(s: seq<T>, j: int)
    requires 0 < j < |s|
    ensures multiset(s[j - 1 := s[j]][j := s[j - 1]]) == multiset(s)
  {
    assert s[j - 1 := s[j]][j := s[j - 1]] == s[..j - 1] + [s[j], s[j - 1]] + s[j + 1..];
    assert s == s[..j - 1] + [s[j - 1], s[j]] + s[j + 1..];
  }

  /** Swapping two neighbours keeps every venue scored. */
  lemma SwapKeepsScored(s: seq<Place>, j: int)
    requires AllScored(s) && 0 < j < |s|
    ensures AllScored(s[j - 1 := s[j]][j := s[j - 1]])
  {
  }

  /** Before the first swap, the venue at `i` sits at `i`. */
  lemma StartInserting(s: seq<Place>, i: int)
    requires 0 < i < |s| && AllScored(s) && OrderedBelow(s, i)
    ensures Inserting(s, i, i, Precedes)
  {
  }

  /** Once the travelling venue's left neighbour may precede it, the prefix
      up to `i` is locally ordered. */
  lemma FinishInserting(s: seq<Place>, i: int, j: int)
    requires AllScored(s) && Inserting(s, i, j, Precedes)
    requires j == 0 || ToleranceCompare(s[j - 1], s[j]) <= 0.0
    ensures OrderedBelow(s, i + 1)
  {
    forall k | 0 < k < i + 1 && k < |s|
      ensures ToleranceCompare(s[k - 1], s[k]) <= 0.0
    {
      if k != j {
        assert Precedes(s[k - 1], s[k]);
      }
    }
  }

  /** Inserts the venue at index `i` into the locally ordered prefix before it. */
  method InsertByTolerance(a: array<Place>, i: int)
    requires 0 < i < a.Length && AllScored(a[..]) && OrderedBelow(a[..], i)
    modifies a
    ensures AllScored(a[..]) && OrderedBelow(a[..], i + 1)
    ensures multiset(a[..]) == multiset(old(a[..]))
    ensures a[i + 1..] == old(a[i + 1..])
  {
    var j := i;
    StartInserting(a[..], i);
    while j > 0 && ToleranceCompare(a[j - 1], a[j]) > 0.0
      invariant AllScored(a[..]) && Inserting(a[..], i, j, Precedes)
      invariant multiset(a[..]) == multiset(old(a[..]))
      invariant a[i + 1..] == old(a[i + 1..])
    {
      CompareAntisymmetric(a[j - 1], a[j]);
      ghost var before := a[..];
      SwapStep(before, i, j, Precedes);
      SwapKeepsScored(before, j);
      a[j - 1], a[j] := a[j], a[j - 1];
      assert a[..] == before[j - 1 := before[j]][j := before[j - 1]];
      j := j - 1;
    }
    FinishInserting(a[..], i, j);
  }

  /** The in-place sort, by insertion: each venue is swapped towards the front
      while its left neighbour compares after it. */
  method SortByTolerance(a: array<Place>)
    requires AllScored(a[..])
    modifies a
    ensures AllScored(a[..])
    ensures multiset(a[..]) == multiset(old(a[..]))
    ensures LocallyOrdered(a[..])
  {
    if a.Length == 0 {
      return;
    }
    for i := 1 to a.Length
      invariant AllScored(a[..]) && OrderedBelow(a[..], i)
      invariant multiset(a[..]) == multiset(old(a[..]))
    {
      InsertByTolerance(a, i);
    }
  }

  /** When every two balanced scores differ by more than the tolerance, the
      comparator is consistent and a locally ordered list is sorted by
      balanced score, fairest first. */
  lemma {:induction false} DistinctScoresSortByBalance(s: seq<Place>)
    requires AllScored(s)
    requires forall i, j :: 0 <= i < j < |s| ==> Abs(Balanced(s[i]) - Balanced(s[j])) > ScoreTolerance
    requires LocallyOrdered(s)
    ensures forall i, j :: 0 <= i < j < |s| ==> Balanced(s[i]) < Balanced(s[j])
  {
    if |s| > 1 {
      var init := s[..|s| - 1];
      DistinctScoresSortByBalance(init);
      forall i, j | 0 <= i < j < |s|
        ensures Balanced(s[i]) < Balanced(s[j])
      {
        if j == |s| - 1 {
          assert ToleranceCompare(s[j - 1], s[j]) <= 0.0;
          if i < j - 1 {
            assert Balanced(init[i]) < Balanced(init[j - 1]);
          }
        } else {
          assert Balanced(init[i]) < Balanced(init[j]);
        }
      }
    }
  }
}
