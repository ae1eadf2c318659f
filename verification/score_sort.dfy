/** `list.sort((a, b) => b.aiScore - a.aiScore)`: both recommendation scorers
    order their results by an integer score, highest first. The comparator is
    consistent and the engine's sort is stable, so the outcome is unique: the
    stable insertion sort below. */
module ScoreSort {

  /** No element is followed by one with a higher score. */
  ghost predicate SortedDesc<T>(s: seq<T>, score: T -> int)
  {
    forall i, j :: 0 <= i < j < |s| ==> score(s[i]) >= score(s[j])
  }

  /** The elements of `s` whose score is `k`, in their order in `s`. */
  function WithScore<T>(s: seq<T>, score: T -> int, k: int): seq<T>
  {
    if s == [] then []
    else (if score(s[0]) == k then [s[0]] else []) + WithScore(s[1..], score, k)
  }

  lemma WithScoreCons<T>(x: T, s: seq<T>, score: T -> int, k: int)
    ensures WithScore([x] + s, score, k) == (if score(x) == k then [x] else []) + WithScore(s, score, k)
  {
    assert ([x] + s)[1..] == s;
  }

  /** Puts `x` in front of the first element whose score is not above its own. */
  function InsertByScore<T>(x: T, s: seq<T>, score: T -> int): (r: seq<T>)
    ensures |r| == |s| + 1
    ensures multiset(r) == multiset(s) + multiset{x}
  {
    if s == [] || score(x) >= score(s[0]) then
      [x] + s
    else
      assert s == [s[0]] + s[1..];
      [s[0]] + InsertByScore(x, s[1..], score)
  }

  /** Inserting keeps every score at or below a bound all inputs respect. */
  lemma {:induction false} InsertBounded<T>(x: T, s: seq<T>, score: T -> int, bound: int)
    requires score(x) <= bound && forall i :: 0 <= i < |s| ==> score(s[i]) <= bound
    ensures forall i :: 0 <= i < |InsertByScore(x, s, score)| ==> score(InsertByScore(x, s, score)[i]) <= bound
  {
    var r := InsertByScore(x, s, score);
    if s != [] && score(x) < score(s[0]) {
      InsertBounded(x, s[1..], score, bound);
      var t := InsertByScore(x, s[1..], score);
      assert r == [s[0]] + t;
      forall i | 0 < i < |r|
        ensures score(r[i]) <= bound
      {
        assert r[i] == t[i - 1];
      }
    } else {
      assert r == [x] + s;
      forall i | 0 < i < |r|
        ensures score(r[i]) <= bound
      {
        assert r[i] == s[i - 1];
      }
    }
  }

  lemma {:induction false} InsertKeepsSorted<T>(x: T, s: seq<T>, score: T -> int)
    requires SortedDesc(s, score)
    ensures SortedDesc(InsertByScore(x, s, score), score)
  {
    if s != [] && score(x) < score(s[0]) {
      InsertKeepsSorted(x, s[1..], score);
      InsertBounded(x, s[1..], score, score(s[0]));
      var t := InsertByScore(x, s[1..], score);
      var r := InsertByScore(x, s, score);
      assert r == [s[0]] + t;
      forall i, j | 0 <= i < j < |r|
        ensures score(r[i]) >= score(r[j])
      {
        assert r[j] == t[j - 1];
        if i > 0 {
          assert r[i] == t[i - 1];
        }
      }
    } else if s != [] {
      var r := InsertByScore(x, s, score);
      assert r == [x] + s;
      forall i, j | 0 <= i < j < |r|
        ensures score(r[i]) >= score(r[j])
      {
        assert r[j] == s[j - 1];
        if i > 0 {
          assert r[i] == s[i - 1];
        } else {
          assert score(s[0]) >= score(s[j - 1]);
        }
      }
    }
  }

  lemma {:induction false} InsertKeepsScoreOrder<T>(x: T, s: seq<T>, score: T -> int, k: int)
    ensures WithScore(InsertByScore(x, s, score), score, k)
         == (if score(x) == k then [x] else []) + WithScore(s, score, k)
  {
    if s == [] || score(x) >= score(s[0]) {
      WithScoreCons(x, s, score, k);
    } else {
      var a := if score(x) == k then [x] else [];
      var b := if score(s[0]) == k then [s[0]] else [];
      var rest := WithScore(s[1..], score, k);
      assert a == [] || b == [];
      calc {
        WithScore(InsertByScore(x, s, score), score, k);
        WithScore([s[0]] + InsertByScore(x, s[1..], score), score, k);
        { WithScoreCons(s[0], InsertByScore(x, s[1..], score), score, k); }
        b + WithScore(InsertByScore(x, s[1..], score), score, k);
        { InsertKeepsScoreOrder(x, s[1..], score, k); }
        b + (a + rest);
        a + (b + rest);
        { WithScoreCons(s[0], s[1..], score, k); assert s == [s[0]] + s[1..]; }
        a + WithScore(s, score, k);
      }
    }
  }

  /** Inserting the head into the sorted tail sorts the whole list. */
  lemma InsertHeadSorts<T>(s: seq<T>, t: seq<T>, score: T -> int)
    requires s != []
    requires |t| == |s| - 1 && multiset(t) == multiset(s[1..]) && SortedDesc(t, score)
    requires forall k :: WithScore(t, score, k) == WithScore(s[1..], score, k)
    ensures var r := InsertByScore(s[0], t, score);
      && |r| == |s| && multiset(r) == multiset(s) && SortedDesc(r, score)
      && forall k :: WithScore(r, score, k) == WithScore(s, score, k)
  {
    InsertKeepsSorted(s[0], t, score);
    assert s == [s[0]] + s[1..];
    forall k
      ensures WithScore(InsertByScore(s[0], t, score), score, k) == WithScore(s, score, k)
    {
      InsertKeepsScoreOrder(s[0], t, score, k);
      WithScoreCons(s[0], s[1..], score, k);
    }
  }

  /** Sorts by score, highest first, keeping the input order among equal
      scores: the result is a permutation of `s`, is sorted, and lists the
      elements of every score in the order `s` lists them. */
  function SortByScoreDesc<T>(s: seq<T>, score: T -> int): (r: seq<T>)
    ensures |r| == |s|
    ensures multiset(r) == multiset(s)
    ensures SortedDesc(r, score)
    ensures forall k :: WithScore(r, score, k) == WithScore(s, score, k)
  {
    if s == [] then []
    else
      var t := SortByScoreDesc(s[1..], score);
      InsertHeadSorts(s, t, score);
      InsertByScore(s[0], t, score)
  }
}
