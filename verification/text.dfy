/** Strings as the handlers use them: ASCII lower-casing and substring search
    (`String.prototype.toLowerCase` and `String.prototype.includes`). */
module Text {

  /** Lower-cases one ASCII letter and leaves every other character alone. */
  function LowerChar(c: char): char
  {
    if 'A' <= c <= 'Z' then (c as int + 32) as char else c
  }

  /** The string lower-cased character by character. */
  function Lower(s: string): (r: string)
    ensures |r| == |s|
    ensures forall i :: 0 <= i < |s| ==> r[i] == LowerChar(s[i])
  {
    if s == [] then [] else [LowerChar(s[0])] + Lower(s[1..])
  }

  /** `t` is `s` lower-cased when they agree character by character. */
  lemma LowerPointwise(s: string, t: string)
    requires |s| == |t| && forall i :: 0 <= i < |s| ==> LowerChar(s[i]) == t[i]
    ensures Lower(s) == t
  {
  }

  lemma LowerIdempotent(s: string)
    ensures Lower(Lower(s)) == Lower(s)
  {
  }

  lemma LowerAppend(a: string, b: string)
    ensures Lower(a + b) == Lower(a) + Lower(b)
  {
  }

  /** `s` begins with `w`. */
  predicate StartsWith(s: string, w: string)
  {
    |w| == 0 || (|s| > 0 && s[0] == w[0] && StartsWith(s[1..], w[1..]))
  }

  /** `s.includes(w)`: `w` occurs in `s` at some position. */
  predicate Contains(s: string, w: string)
  {
    StartsWith(s, w) || (|s| > 0 && Contains(s[1..], w))
  }

  /** `s` contains at least one of `words`. */
  predicate ContainsAny(s: string, words: seq<string>)
  {
    |words| > 0 && (Contains(s, words[0]) || ContainsAny(s, words[1..]))
  }

  /** `w` occurs in `s` starting at index `i`. */
  predicate OccursAt(s: string, w: string, i: int)
  {
    0 <= i && i + |w| <= |s| && s[i..i + |w|] == w
  }

  lemma {:induction false} StartsWithIsPrefix(s: string, w: string)
    ensures StartsWith(s, w) <==> OccursAt(s, w, 0)
  {
    if |w| > 0 && |s| > 0 {
      StartsWithIsPrefix(s[1..], w[1..]);
      if OccursAt(s, w, 0) {
        assert s[1..][..|w| - 1] == w[1..];
      }
    }
  }

  /** The recursive definition of `Contains` agrees with the positional one:
      `w` is contained in `s` exactly when it occurs at some index. */
  lemma {:induction false} ContainsIffOccurs(s: string, w: string)
    ensures Contains(s, w) <==> exists i :: OccursAt(s, w, i)
  {
    StartsWithIsPrefix(s, w);
    if |s| > 0 {
      ContainsIffOccurs(s[1..], w);
      if Contains(s[1..], w) {
        var i :| OccursAt(s[1..], w, i);
        assert s[i + 1..i + 1 + |w|] == s[1..][i..i + |w|];
        assert OccursAt(s, w, i + 1);
      }
      if exists i :: OccursAt(s, w, i) {
        var i :| OccursAt(s, w, i);
        if i > 0 {
          assert s[1..][i - 1..i - 1 + |w|] == s[i..i + |w|];
          assert OccursAt(s[1..], w, i - 1);
        }
      }
    } else if exists i :: OccursAt(s, w, i) {
      var i :| OccursAt(s, w, i);
      assert i == 0;
    }
  }

  /** Containment is transitive: a string that contains `w` contains every
      substring of `w` (so "parking" in a query means "park" is in it too). */
  lemma ContainsTransitive(s: string, w: string, v: string)
    requires Contains(s, w) && Contains(w, v)
    ensures Contains(s, v)
  {
    ContainsIffOccurs(s, w);
    ContainsIffOccurs(w, v);
    var i :| OccursAt(s, w, i);
    var j :| OccursAt(w, v, j);
    forall k | 0 <= k < |v|
      ensures s[i + j + k] == v[k]
    {
      assert v[k] == w[j..j + |v|][k] == w[j + k];
      assert w[j + k] == s[i..i + |w|][j + k];
    }
    assert s[i + j..i + j + |v|] == v;
    assert OccursAt(s, v, i + j);
    ContainsIffOccurs(s, v);
  }

  /** Every character of a contained word is a character of the string. */
  lemma ContainedCharsOccur(s: string, w: string, c: char)
    requires Contains(s, w) && c in w
    ensures c in s
  {
    ContainsIffOccurs(s, w);
    var i :| OccursAt(s, w, i);
    var k :| 0 <= k < |w| && w[k] == c;
    assert s[i + k] == s[i..i + |w|][k];
  }

  lemma OccurrenceCoversIndex(s: string, w: string, i: int, p: int)
    requires OccursAt(s, w, i) && i <= p < i + |w|
    ensures s[p] in w
  {
    assert w[p - i] == s[i..i + |w|][p - i];
  }

  /** A word without a space that occurs in `a + " " + b` occurs in `a` or in `b`. */
  lemma ContainsAcrossSpace(a: string, b: string, w: string)
    requires ' ' !in w
    requires Contains(a + " " + b, w)
    ensures Contains(a, w) || Contains(b, w)
  {
    var s := a + " " + b;
    ContainsIffOccurs(s, w);
    var i :| OccursAt(s, w, i);
    if i + |w| <= |a| {
      assert a[i..i + |w|] == s[i..i + |w|];
      assert OccursAt(a, w, i);
      ContainsIffOccurs(a, w);
    } else if i > |a| {
      var j := i - |a| - 1;
      assert s == (a + " ") + b;
      var inB, inS := b[j..j + |w|], s[i..i + |w|];
      forall k | 0 <= k < |w|
        ensures inB[k] == inS[k]
      {
        assert s[i + k] == b[j + k];
      }
      assert inB == inS;
      assert OccursAt(b, w, j);
      ContainsIffOccurs(b, w);
    } else {
      OccurrenceCoversIndex(s, w, i, |a|);
      assert false;
    }
  }

  /** A string with a character that `w` lacks cannot contain `w`. */
  lemma AbsentByLetter(s: string, w: string, c: char)
    requires c in w && c !in s
    ensures !Contains(s, w)
  {
    if Contains(s, w) {
      ContainedCharsOccur(s, w, c);
    }
  }

  lemma ContainsSelf(w: string)
    ensures Contains(w, w)
  {
    assert OccursAt(w, w, 0);
    StartsWithIsPrefix(w, w);
  }

  lemma ContainsInPrefix(a: string, b: string, w: string)
    requires Contains(a, w)
    ensures Contains(a + b, w)
  {
    ContainsIffOccurs(a, w);
    var i :| OccursAt(a, w, i);
    assert (a + b)[i..i + |w|] == a[i..i + |w|];
    assert OccursAt(a + b, w, i);
    ContainsIffOccurs(a + b, w);
  }

  lemma ContainsInSuffix(a: string, b: string, w: string)
    requires Contains(b, w)
    ensures Contains(a + b, w)
  {
    ContainsIffOccurs(b, w);
    var i :| OccursAt(b, w, i);
    assert (a + b)[|a| + i..|a| + i + |w|] == b[i..i + |w|];
    assert OccursAt(a + b, w, |a| + i);
    ContainsIffOccurs(a + b, w);
  }

  /** `s` contains none of `words` when it contains none of them one by one. */
  lemma NoneContained(s: string, words: seq<string>)
    requires forall w :: w in words ==> !Contains(s, w)
    ensures !ContainsAny(s, words)
  {
    if ContainsAny(s, words) {
      ContainsAnyWitness(s, words);
    }
  }

  lemma {:induction false} ContainsAnyAppend(s: string, u: seq<string>, v: seq<string>)
    ensures ContainsAny(s, u + v) <==> ContainsAny(s, u) || ContainsAny(s, v)
  {
    if |u| > 0 {
      assert (u + v)[1..] == u[1..] + v;
      ContainsAnyAppend(s, u[1..], v);
    } else {
      assert u + v == v;
    }
  }

  lemma {:induction false} ContainsAnyMember(s: string, words: seq<string>, w: string)
    requires w in words && Contains(s, w)
    ensures ContainsAny(s, words)
  {
    if words[0] != w {
      ContainsAnyMember(s, words[1..], w);
    }
  }

  lemma {:induction false} ContainsAnyWitness(s: string, words: seq<string>)
    requires ContainsAny(s, words)
    ensures exists w :: w in words && Contains(s, w)
  {
    if !Contains(s, words[0]) {
      ContainsAnyWitness(s, words[1..]);
      var w :| w in words[1..] && Contains(s, w);
      assert w in words;
    }
  }

  /** The ASCII lower-case letters `a`..`z`. */
  predicate IsLowerLetter(c: char)
  {
    'a' <= c <= 'z'
  }

  /** `s.slice(0, n)`: the first `n` elements, or all of `s` when it is shorter. */
  function Take<T>(s: seq<T>, n: nat): (r: seq<T>)
    ensures |r| == if |s| < n then |s| else n
    ensures r <= s
  {
    if |s| <= n then s else s[..n]
  }
}
