/** A worked reading: "quiet coffee shop for studying" asks for a cafe, in the
    morning, with a quiet atmosphere and wifi, for work. The query is written
    as a concatenation of its words so that the proof goes word by word. */
module NlpSearchExample {
  import opened Text
  import opened Places
  import opened NlpSearch

  /** `q` is "quiet coffee shop for studying". */
  predicate IsStudyQuery(q: string)
  {
    q == "quiet" + " " + ("coffee" + " " + ("shop" + " " + ("for" + " " + "studying")))
  }

  lemma FirstWordsAreLowerCase()
    ensures Lower("quiet") == "quiet" && Lower("coffee") == "coffee" && Lower(" ") == " "
  {
  }

  lemma MiddleWordsAreLowerCase()
    ensures Lower("shop") == "shop" && Lower("for") == "for"
  {
  }

  lemma LastWordIsLowerCase()
    ensures Lower("studying") == "studying"
  {
  }

  lemma StudyQueryIsLowerCase(q: string)
    requires IsStudyQuery(q)
    ensures Lower(q) == q
  {
    FirstWordsAreLowerCase();
    MiddleWordsAreLowerCase();
    LastWordIsLowerCase();
    var t3 := "for" + " " + "studying";
    var t2 := "shop" + " " + t3;
    var t1 := "coffee" + " " + t2;
    LowerAppend("for" + " ", "studying");
    LowerAppend("for", " ");
    LowerAppend("shop" + " ", t3);
    LowerAppend("shop", " ");
    LowerAppend("coffee" + " ", t2);
    LowerAppend("coffee", " ");
    LowerAppend("quiet" + " ", t1);
    LowerAppend("quiet", " ");
  }

  /** "quiet", "coffee" and "studying" occur in the query. */
  lemma StudyQueryMentions(q: string)
    requires IsStudyQuery(q)
    ensures Contains(q, "quiet") && Contains(q, "coffee") && Contains(q, "studying")
  {
    var t3 := "for" + " " + "studying";
    var t2 := "shop" + " " + t3;
    var t1 := "coffee" + " " + t2;
    ContainsSelf("quiet");
    ContainsInPrefix("quiet", " ", "quiet");
    ContainsInPrefix("quiet" + " ", t1, "quiet");
    ContainsSelf("coffee");
    ContainsInPrefix("coffee", " ", "coffee");
    ContainsInPrefix("coffee" + " ", t2, "coffee");
    ContainsInSuffix("quiet" + " ", t1, "coffee");
    ContainsSelf("studying");
    ContainsInSuffix("for" + " ", "studying", "studying");
    ContainsInSuffix("shop" + " ", t3, "studying");
    ContainsInSuffix("coffee" + " ", t2, "studying");
    ContainsInSuffix("quiet" + " ", t1, "studying");
  }

  /** A word without a space occurs in the query only if it occurs in one of
      its five words. */
  lemma AbsentFromStudyQuery(q: string, w: string)
    requires IsStudyQuery(q) && ' ' !in w
    requires !Contains("quiet", w) && !Contains("coffee", w) && !Contains("shop", w)
    requires !Contains("for", w) && !Contains("studying", w)
    ensures !Contains(q, w)
  {
    if Contains(q, w) {
      ContainsAcrossSpace("quiet", "coffee" + " " + ("shop" + " " + ("for" + " " + "studying")), w);
      ContainsAcrossSpace("coffee", "shop" + " " + ("for" + " " + "studying"), w);
      ContainsAcrossSpace("shop", "for" + " " + "studying", w);
      ContainsAcrossSpace("for", "studying", w);
    }
  }

  /** `w` is absent when, for each word of the query, one of its letters is
      missing from that word. */
  lemma AbsentWordByLetters(q: string, w: string, c1: char, c2: char, c3: char, c4: char, c5: char)
    requires IsStudyQuery(q)
    requires ' ' !in w && c1 in w && c2 in w && c3 in w && c4 in w && c5 in w
    requires c1 !in "quiet" && c2 !in "coffee" && c3 !in "shop" && c4 !in "for" && c5 !in "studying"
    ensures !Contains(q, w)
  {
    AbsentByLetter("quiet", w, c1);
    AbsentByLetter("coffee", w, c2);
    AbsentByLetter("shop", w, c3);
    AbsentByLetter("for", w, c4);
    AbsentByLetter("studying", w, c5);
    AbsentFromStudyQuery(q, w);
  }

  /** As `AbsentWordByLetters`, for a word whose letters all occur in "studying". */
  lemma AbsentByLettersButLast(q: string, w: string, c1: char, c2: char, c3: char, c4: char)
    requires IsStudyQuery(q)
    requires ' ' !in w && c1 in w && c2 in w && c3 in w && c4 in w
    requires c1 !in "quiet" && c2 !in "coffee" && c3 !in "shop" && c4 !in "for"
    requires !Contains("studying", w)
    ensures !Contains(q, w)
  {
    AbsentByLetter("quiet", w, c1);
    AbsentByLetter("coffee", w, c2);
    AbsentByLetter("shop", w, c3);
    AbsentByLetter("for", w, c4);
    AbsentFromStudyQuery(q, w);
  }

  lemma StudyingLacksDining()
    ensures !Contains("studying", "dining")
  {
  }

  // The vocabulary words all of whose letters occur somewhere in the query are
  // ruled out word by word of the query.

  lemma StudyQueryLacksFindSuggest(q: string)
    requires IsStudyQuery(q)
    ensures !Contains(q, "find") && !Contains(q, "suggest")
  {
    AbsentWordByLetters(q, "find", 'f', 'i', 'f', 'i', 'f');
    AbsentWordByLetters(q, "suggest", 's', 's', 'u', 's', 'e');
  }

  lemma StudyQueryLacksDining(q: string)
    requires IsStudyQuery(q)
    ensures !Contains(q, "dining")
  {
    StudyingLacksDining();
    AbsentByLettersButLast(q, "dining", 'd', 'd', 'd', 'd');
  }

  lemma StudyQueryLacksDinnerOutdoor(q: string)
    requires IsStudyQuery(q)
    ensures !Contains(q, "dinner") && !Contains(q, "outdoor")
  {
    AbsentWordByLetters(q, "dinner", 'd', 'd', 'd', 'd', 'e');
    AbsentWordByLetters(q, "outdoor", 'o', 'u', 'u', 'u', 'o');
  }

  lemma StudyQueryLacksShoppingEnergetic(q: string)
    requires IsStudyQuery(q)
    ensures !Contains(q, "shopping") && !Contains(q, "energetic")
  {
    AbsentWordByLetters(q, "shopping", 's', 's', 'i', 's', 'h');
    AbsentWordByLetters(q, "energetic", 'n', 'n', 'e', 'e', 'e');
  }

  lemma StudyQueryLacksNight(q: string)
    requires IsStudyQuery(q)
    ensures !Contains(q, "night")
  {
    AbsentWordByLetters(q, "night", 'n', 'n', 'n', 'n', 'h');
  }

  /** Letters that never occur in the query. */
  lemma StudyQueryLacks(q: string, c: char)
    requires IsStudyQuery(q) && c in "abklmvwxz"
    ensures c !in q
  {
  }

  // Field by field.

  lemma StudyQueryIntent(q: string)
    requires IsStudyQuery(q)
    ensures IntentOf(q) == General
  {
    StudyQueryLacksFindSuggest(q);
    StudyQueryLacks(q, 'a');
    StudyQueryLacks(q, 'l');
    StudyQueryLacks(q, 'm');
    AbsentByLetter(q, "search", 'a');
    AbsentByLetter(q, "looking for", 'l');
    NoneContained(q, SearchWords);
    AbsentByLetter(q, "recommend", 'm');
    NoneContained(q, RecommendWords);
  }

  lemma StudyQueryMissesRestaurant(q: string)
    requires IsStudyQuery(q)
    ensures !ContainsAny(q, RestaurantWords)
  {
    StudyQueryLacksDining(q);
    StudyQueryLacksDinnerOutdoor(q);
    StudyQueryLacks(q, 'a');
    StudyQueryLacks(q, 'l');
    AbsentByLetter(q, "restaurant", 'a');
    AbsentByLetter(q, "lunch", 'l');
    NoneContained(q, RestaurantWords);
  }

  lemma StudyQueryMissesParkAndMall(q: string)
    requires IsStudyQuery(q)
    ensures !ContainsAny(q, ParkWords) && !ContainsAny(q, MallWords)
  {
    StudyQueryLacksDinnerOutdoor(q);
    StudyQueryLacksShoppingEnergetic(q);
    StudyQueryLacks(q, 'a');
    AbsentByLetter(q, "park", 'a');
    AbsentByLetter(q, "garden", 'a');
    NoneContained(q, ParkWords);
    AbsentByLetter(q, "mall", 'a');
    NoneContained(q, MallWords);
  }

  lemma StudyQueryPlaceType(q: string)
    requires IsStudyQuery(q)
    ensures PlaceTypeOf(q) == OnlyCategory(Cafe) && KeywordsOf(q) == CafeKeywords
  {
    StudyQueryMentions(q);
    ContainsAnyMember(q, CafeWords, "coffee");
    StudyQueryMissesRestaurant(q);
    StudyQueryMissesParkAndMall(q);
  }

  lemma StudyQueryMissesRomanticAndLively(q: string)
    requires IsStudyQuery(q)
    ensures !ContainsAny(q, RomanticWords) && !ContainsAny(q, LivelyWords)
  {
    StudyQueryLacksShoppingEnergetic(q);
    StudyQueryLacks(q, 'a');
    StudyQueryLacks(q, 'l');
    StudyQueryLacks(q, 'm');
    StudyQueryLacks(q, 'v');
    StudyQueryLacks(q, 'z');
    AbsentByLetter(q, "romantic", 'a');
    AbsentByLetter(q, "intimate", 'm');
    AbsentByLetter(q, "cozy", 'z');
    NoneContained(q, RomanticWords);
    AbsentByLetter(q, "lively", 'l');
    AbsentByLetter(q, "vibrant", 'v');
    NoneContained(q, LivelyWords);
  }

  lemma StudyQueryMissesCasualAndFormal(q: string)
    requires IsStudyQuery(q)
    ensures !ContainsAny(q, CasualWords) && !ContainsAny(q, FormalWords)
  {
    StudyQueryLacks(q, 'a');
    StudyQueryLacks(q, 'b');
    StudyQueryLacks(q, 'l');
    StudyQueryLacks(q, 'm');
    AbsentByLetter(q, "casual", 'a');
    AbsentByLetter(q, "relaxed", 'l');
    NoneContained(q, CasualWords);
    AbsentByLetter(q, "formal", 'm');
    AbsentByLetter(q, "professional", 'a');
    AbsentByLetter(q, "business", 'b');
    NoneContained(q, FormalWords);
  }

  lemma StudyQueryAtmosphere(q: string)
    requires IsStudyQuery(q)
    ensures AtmosphereOf(q) == [Quiet] && AtmosphereOccasion(q) == Occasion.Casual
  {
    StudyQueryMentions(q);
    ContainsAnyMember(q, QuietWords, "quiet");
    StudyQueryMissesRomanticAndLively(q);
    StudyQueryMissesCasualAndFormal(q);
  }

  lemma StudyQueryMissesKidAndParking(q: string)
    requires IsStudyQuery(q)
    ensures !ContainsAny(q, KidWords) && !ContainsAny(q, ParkingWords)
  {
    StudyQueryLacks(q, 'a');
    StudyQueryLacks(q, 'k');
    StudyQueryLacks(q, 'l');
    AbsentByLetter(q, "playground", 'a');
    AbsentByLetter(q, "kid", 'k');
    AbsentByLetter(q, "family", 'a');
    AbsentByLetter(q, "children", 'l');
    NoneContained(q, KidWords);
    AbsentByLetter(q, "parking", 'a');
    NoneContained(q, ParkingWords);
  }

  lemma StudyQueryMissesOutdoorAndBar(q: string)
    requires IsStudyQuery(q)
    ensures !ContainsAny(q, OutdoorWords) && !ContainsAny(q, BarWords)
  {
    StudyQueryLacksDinnerOutdoor(q);
    StudyQueryLacks(q, 'a');
    StudyQueryLacks(q, 'k');
    AbsentByLetter(q, "patio", 'a');
    AbsentByLetter(q, "terrace", 'a');
    NoneContained(q, OutdoorWords);
    AbsentByLetter(q, "bar", 'a');
    AbsentByLetter(q, "alcohol", 'a');
    AbsentByLetter(q, "drinks", 'k');
    NoneContained(q, BarWords);
  }

  lemma StudyQueryFeatures(q: string)
    requires IsStudyQuery(q)
    ensures FeaturesOf(q) == [Wifi] && OccasionOf(q) == Work
  {
    StudyQueryMentions(q);
    ContainsAnyMember(q, WifiWords, "studying");
    StudyQueryMissesKidAndParking(q);
    StudyQueryMissesOutdoorAndBar(q);
  }

  lemma StudyQueryTimeContext(q: string)
    requires IsStudyQuery(q)
    ensures TimeContextOf(q) == Morning
  {
    StudyQueryMentions(q);
    ContainsAnyMember(q, MorningWords, "coffee");
    StudyQueryLacksDinnerOutdoor(q);
    StudyQueryLacksNight(q);
    StudyQueryLacks(q, 'a');
    StudyQueryLacks(q, 'l');
    StudyQueryLacks(q, 'v');
    AbsentByLetter(q, "afternoon", 'a');
    AbsentByLetter(q, "lunch", 'l');
    NoneContained(q, AfternoonWords);
    AbsentByLetter(q, "evening", 'v');
    NoneContained(q, EveningWords);
  }

  lemma StudyQueryAccessibility(q: string)
    requires IsStudyQuery(q)
    ensures AccessibilityOf(q) == []
  {
    StudyQueryLacks(q, 'a');
    StudyQueryLacks(q, 'l');
    StudyQueryLacks(q, 'w');
    AbsentByLetter(q, "wheelchair", 'w');
    AbsentByLetter(q, "accessible", 'a');
    NoneContained(q, WheelchairWords);
    AbsentByLetter(q, "stroller", 'l');
    AbsentByLetter(q, "family", 'a');
    NoneContained(q, StrollerWords);
  }

  lemma StudyQueryBudget(q: string)
    requires IsStudyQuery(q)
    ensures BudgetOf(q) == Medium
  {
    StudyQueryLacks(q, 'a');
    StudyQueryLacks(q, 'b');
    StudyQueryLacks(q, 'l');
    StudyQueryLacks(q, 'x');
    AbsentByLetter(q, "cheap", 'a');
    AbsentByLetter(q, "budget", 'b');
    AbsentByLetter(q, "affordable", 'a');
    NoneContained(q, CheapWords);
    AbsentByLetter(q, "expensive", 'x');
    AbsentByLetter(q, "luxury", 'l');
    AbsentByLetter(q, "upscale", 'a');
    NoneContained(q, LuxuryWords);
  }

  /** "quiet coffee shop for studying" reads as: general intent, a cafe, quiet,
      with wifi, for work, in the morning, no accessibility needs, medium
      budget, keywords "coffee" and "cafe". */
  lemma StudyQueryReading(query: string)
    requires IsStudyQuery(query)
    ensures Parse(query)
         == ParsedQuery(General, OnlyCategory(Cafe), [Quiet], [Wifi], Work, Morning, [], Medium, ["coffee", "cafe"])
  {
    StudyQueryIsLowerCase(query);
    StudyQueryIntent(query);
    StudyQueryPlaceType(query);
    StudyQueryAtmosphere(query);
    StudyQueryFeatures(query);
    StudyQueryTimeContext(query);
    StudyQueryAccessibility(query);
    StudyQueryBudget(query);
  }
}
