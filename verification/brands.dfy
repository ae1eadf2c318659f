/** Chain de-duplication: venues are grouped by a brand key derived from their
    name, and at most two venues of each brand are kept, the first two met. */
module Brands {
  import opened Text
  import opened Seqs
  import opened Places

  /** How many venues of one brand survive. */
  const MaxPerBrand: nat := 2

  /** How many letters of a name the fallback key keeps. */
  const FallbackKeyLength: nat := 20

  /** The brand of a venue name: one of three known chains when its lower-cased
      name mentions them (checked in this order), otherwise the first twenty
      lower-case ASCII letters of the lower-cased name, in their order. */
  function BrandKey(name: string): (key: string)
    ensures Contains(Lower(name), "third wave") ==> key == "third wave coffee"
    ensures !Contains(Lower(name), "third wave") && Contains(Lower(name), "starbucks") ==> key == "starbucks"
    ensures (!Contains(Lower(name), "third wave") && !Contains(Lower(name), "starbucks")
             && Contains(Lower(name), "chai point")) ==> key == "chai point"
    ensures (!Contains(Lower(name), "third wave") && !Contains(Lower(name), "starbucks")
             && !Contains(Lower(name), "chai point")) ==>
      && |key| <= FallbackKeyLength && (forall i :: 0 <= i < |key| ==> IsLowerLetter(key[i]))
      && key <= Filter(Lower(name), IsLowerLetter)
      && |key| == (if |Filter(Lower(name), IsLowerLetter)| < FallbackKeyLength
                   then |Filter(Lower(name), IsLowerLetter)| else FallbackKeyLength)
  {
    var lowered := Lower(name);
    if Contains(lowered, "third wave") then "third wave coffee"
    else if Contains(lowered, "starbucks") then "starbucks"
    else if Contains(lowered, "chai point") then "chai point"
    else Take(Filter(lowered, IsLowerLetter), FallbackKeyLength)
  }

  /** Names that differ only in the case of ASCII letters have the same brand. */
  lemma BrandKeyIgnoresCase(name: string)
    ensures BrandKey(Lower(name)) == BrandKey(name)
  {
    LowerIdempotent(name);
  }

  /** How many of `places` carry the brand `key`, where `keyOf` gives the
      brand of a venue name. */
  function BrandCount(places: seq<Place>, key: string, keyOf: string -> string): (n: nat)
    ensures n <= |places|
  {
    if places == [] then 0
    else BrandCount(places[..|places| - 1], key, keyOf)
         + (if keyOf(places[|places| - 1].name) == key then 1 else 0)
  }

  /** The venue at index `i` is among the first `MaxPerBrand` of its brand. */
  predicate KeptAt(places: seq<Place>, i: int, keyOf: string -> string)
    requires 0 <= i < |places|
  {
    BrandCount(places[..i], keyOf(places[i].name), keyOf) < MaxPerBrand
  }

  /** The de-duplicated list: the venues that are among the first two of their
      brand, in order. The pipeline uses it with `keyOf` = `BrandKey`. */
  function BrandDedup(places: seq<Place>, keyOf: string -> string): seq<Place>
  {
    if places == [] then []
    else
      var init := places[..|places| - 1];
      BrandDedup(init, keyOf) + (if KeptAt(places, |places| - 1, keyOf) then [places[|places| - 1]] else [])
  }

  /** `getBrandKey`, called from the de-duplication loop. */
  method GetBrandKey(name: string) returns (key: string)
    ensures key == BrandKey(name)
  {
    key := BrandKey(name);
  }

  lemma BrandCountSnoc(places: seq<Place>, x: Place, key: string, keyOf: string -> string)
    ensures BrandCount(places + [x], key, keyOf) == BrandCount(places, key, keyOf) + (if keyOf(x.name) == key then 1 else 0)
  {
    assert (places + [x])[..|places|] == places;
  }

  /** The de-duplication loop, counting venues per brand in a dictionary. */
  method DedupByBrand(allPlaces: seq<Place>) returns (uniquePlaces: seq<Place>)
    ensures uniquePlaces == BrandDedup(allPlaces, BrandKey)
  {
    var brandLimits: map<string, nat> := map[];
    uniquePlaces := [];
    for i := 0 to |allPlaces|
      invariant uniquePlaces == BrandDedup(allPlaces[..i], BrandKey)
      invariant forall key :: key in brandLimits ==> brandLimits[key] == BrandCount(allPlaces[..i], key, BrandKey)
      invariant forall key :: key !in brandLimits ==> BrandCount(allPlaces[..i], key, BrandKey) == 0
    {
      var place := allPlaces[i];
      var brand := GetBrandKey(place.name);
      brandLimits := brandLimits[brand := (if brand in brandLimits then brandLimits[brand] else 0) + 1];
      assert allPlaces[..i + 1] == allPlaces[..i] + [place];
      forall key
        ensures BrandCount(allPlaces[..i + 1], key, BrandKey)
                == BrandCount(allPlaces[..i], key, BrandKey) + (if brand == key then 1 else 0)
      {
        BrandCountSnoc(allPlaces[..i], place, key, BrandKey);
      }
      if brandLimits[brand] <= MaxPerBrand {
        uniquePlaces := uniquePlaces + [place];
      }
    }
    assert allPlaces[..|allPlaces|] == allPlaces;
  }

  /** De-duplication deletes venues and never reorders them. */
  lemma {:induction false} DedupIsSubseq(places: seq<Place>, keyOf: string -> string)
    ensures IsSubseq(BrandDedup(places, keyOf), places)
  {
    if places == [] {
      assert IsSubseq([], places);
    } else {
      var init := places[..|places| - 1];
      var last := places[|places| - 1];
      assert places == init + [last];
      DedupIsSubseq(init, keyOf);
      if KeptAt(places, |places| - 1, keyOf) {
        SubseqBothAppended(BrandDedup(init, keyOf), init, last);
      } else {
        assert BrandDedup(places, keyOf) == BrandDedup(init, keyOf) + [] == BrandDedup(init, keyOf);
        SubseqOfAppended(BrandDedup(init, keyOf), init, last);
      }
    }
  }

  /** Each brand keeps as many venues as it had, but never more than two. */
  lemma {:induction false} DedupBrandCount(places: seq<Place>, key: string, keyOf: string -> string)
    ensures BrandCount(BrandDedup(places, keyOf), key, keyOf) ==
      if BrandCount(places, key, keyOf) < MaxPerBrand then BrandCount(places, key, keyOf) else MaxPerBrand
  {
    if places != [] {
      var init := places[..|places| - 1];
      var last := places[|places| - 1];
      DedupBrandCount(init, key, keyOf);
      var lastKey := keyOf(last.name);
      if KeptAt(places, |places| - 1, keyOf) {
        BrandCountSnoc(BrandDedup(init, keyOf), last, key, keyOf);
        if lastKey == key {
          DedupBrandCount(init, lastKey, keyOf);
        }
      } else {
        assert BrandDedup(places, keyOf) == BrandDedup(init, keyOf) + [];
        assert BrandDedup(init, keyOf) + [] == BrandDedup(init, keyOf);
        if lastKey == key {
          DedupBrandCount(init, lastKey, keyOf);
        }
      }
    }
  }

  /** Taking a longer prefix of the input only appends to the output. */
  lemma {:induction false} DedupOfPrefix(places: seq<Place>, i: int, keyOf: string -> string)
    requires 0 <= i <= |places|
    ensures BrandDedup(places[..i], keyOf) <= BrandDedup(places, keyOf)
    decreases |places|
  {
    if i < |places| {
      var init := places[..|places| - 1];
      assert places[..i] == init[..i];
      DedupOfPrefix(init, i, keyOf);
    } else {
      assert places[..i] == places;
    }
  }

  /** A venue with fewer than two earlier venues of its brand is kept, right
      after the survivors among the venues before it. */
  lemma FirstTwoKept(places: seq<Place>, i: int, keyOf: string -> string)
    requires 0 <= i < |places|
    requires BrandCount(places[..i], keyOf(places[i].name), keyOf) < MaxPerBrand
    ensures BrandDedup(places[..i], keyOf) + [places[i]] <= BrandDedup(places, keyOf)
  {
    assert places[..i + 1][..i] == places[..i];
    assert BrandDedup(places[..i + 1], keyOf) == BrandDedup(places[..i], keyOf) + [places[i]];
    DedupOfPrefix(places, i + 1, keyOf);
  }

  /** A venue with two earlier venues of its brand is dropped: the output up to
      and including it is the output up to just before it. */
  lemma LaterOnesDropped(places: seq<Place>, i: int, keyOf: string -> string)
    requires 0 <= i < |places|
    requires BrandCount(places[..i], keyOf(places[i].name), keyOf) >= MaxPerBrand
    ensures BrandDedup(places[..i + 1], keyOf) == BrandDedup(places[..i], keyOf)
  {
    assert places[..i + 1][..i] == places[..i];
    assert BrandDedup(places[..i + 1], keyOf) == BrandDedup(places[..i], keyOf) + [];
  }

  // ---------------------------------------------------------------------
  // The loop as written keeps its counts in a plain JavaScript object.
  // Reading a key the object does not own falls through to the object
  // prototype, so the key "constructor" reads the inherited constructor
  // function instead of `undefined`.

  /** What a property read of the counting object yields. */
  datatype JsValue = Undefined | Number(n: int) | NonNumeric

  /** Lower-case letter-only names that every plain object inherits. */
  const InheritedKeys: set<string> := {"constructor"}

  function Read(counts: map<string, JsValue>, key: string): JsValue
  {
    if key in counts then counts[key] else if key in InheritedKeys then NonNumeric else Undefined
  }

  /** `(v || 0) + 1`: a missing count starts at one; a non-numeric value is
      string-concatenated and stays non-numeric. */
  function Bump(v: JsValue): JsValue
  {
    match v
    case Undefined => Number(1)
    case Number(n) => Number(n + 1)
    case NonNumeric => NonNumeric
  }

  /** `v <= 2`: false for a non-numeric string, which converts to NaN. */
  predicate WithinLimit(v: JsValue)
  {
    v.Number? && v.n <= MaxPerBrand
  }

  /** The counting object and the kept venues after the loop as written has seen `places`. */
  function AsWrittenRun(places: seq<Place>, keyOf: string -> string): (map<string, JsValue>, seq<Place>)
  {
    if places == [] then (map[], [])
    else
      var (counts, kept) := AsWrittenRun(places[..|places| - 1], keyOf);
      var last := places[|places| - 1];
      var brand := keyOf(last.name);
      var counts' := counts[brand := Bump(Read(counts, brand))];
      (counts', if WithinLimit(counts'[brand]) then kept + [last] else kept)
  }

  function AsWrittenDedup(places: seq<Place>, keyOf: string -> string): seq<Place>
  {
    AsWrittenRun(places, keyOf).1
  }

  /** The written loop agrees with the intended de-duplication on every list in
      which no venue has the brand key "constructor". */
  lemma {:induction false} AsWrittenAgreesWithoutInheritedKeys(places: seq<Place>, keyOf: string -> string)
    requires forall i :: 0 <= i < |places| ==> keyOf(places[i].name) !in InheritedKeys
    ensures AsWrittenDedup(places, keyOf) == BrandDedup(places, keyOf)
    ensures forall key :: key in AsWrittenRun(places, keyOf).0 ==>
      AsWrittenRun(places, keyOf).0[key] == Number(BrandCount(places, key, keyOf)) && BrandCount(places, key, keyOf) > 0
    ensures forall key :: key !in AsWrittenRun(places, keyOf).0 ==> BrandCount(places, key, keyOf) == 0
  {
    if places != [] {
      var init := places[..|places| - 1];
      AsWrittenAgreesWithoutInheritedKeys(init, keyOf);
    }
  }

  /** A lower-case letter-only name of at most twenty letters without an "h"
      or an "a" matches none of the chains and is its own brand key. */
  lemma PlainNameIsItsOwnKey(name: string, key: string)
    requires Lower(name) == key && 'h' !in key && 'a' !in key && |key| <= FallbackKeyLength
    requires forall i :: 0 <= i < |key| ==> IsLowerLetter(key[i])
    ensures BrandKey(name) == key
  {
    AbsentByLetter(key, "third wave", 'h');
    AbsentByLetter(key, "starbucks", 'a');
    AbsentByLetter(key, "chai point", 'h');
    FilterKeepsAll(key, IsLowerLetter);
  }

  /** With any key function that maps a name to "constructor", that venue is
      dropped by the loop as written even when it is the only venue of its
      brand; the intended de-duplication keeps it. */
  lemma InheritedKeyVenueDropped(p: Place, keyOf: string -> string)
    requires keyOf(p.name) == "constructor"
    ensures AsWrittenDedup([p], keyOf) == []
    ensures BrandDedup([p], keyOf) == [p]
  {
    assert [p][..0] == [];
    var brand := keyOf(p.name);
    assert brand in InheritedKeys;
    assert Bump(Read(map[], brand)) == NonNumeric;
    assert AsWrittenRun([p], keyOf) == (map[brand := NonNumeric], []);
  }

  /** A venue named "Constructor", in any letter case, has that brand key. */
  lemma ConstructorVenueDropped(p: Place)
    requires Lower(p.name) == "constructor"
    ensures AsWrittenDedup([p], BrandKey) == []
    ensures BrandDedup([p], BrandKey) == [p]
  {
    PlainNameIsItsOwnKey(p.name, "constructor");
    InheritedKeyVenueDropped(p, BrandKey);
  }

  /** The name "Constructor" is such a name. */
  lemma ConstructorIsSuchAName()
    ensures Lower("Constructor") == "constructor"
  {
    LowerPointwise("Constructor", "constructor");
  }
}
