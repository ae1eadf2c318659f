/** The keyword query interpreter behind `/api/nlp-search`: a free-text request
    is lower-cased and matched by substring against fixed vocabularies, giving
    a structured intent, which is then turned into search parameters and
    suggestion texts. */
module NlpSearch {
  import opened Wrappers
  import opened Text
  import opened Places

  datatype Intent = General | Search | Recommendation

  /** `'any'` or one of the four categories the vocabulary can name. */
  datatype PlaceType = AnyPlace | OnlyCategory(category: Category)

  datatype Occasion = Casual | Romantic | Business | Work | Family

  datatype TimeContext = AnyTime | Morning | Afternoon | Evening

  datatype Budget = Low | Medium | High

  datatype Atmosphere = Quiet | Romantic | Lively | Casual | Formal

  datatype Feature = Wifi | KidFriendly | Parking | Outdoor | Bar

  datatype Accessibility = WheelchairAccessible | FamilyFriendly

  /** The structured reading of a query. */
  datatype ParsedQuery = ParsedQuery(
    intent: Intent,
    placeType: PlaceType,
    atmosphere: seq<Atmosphere>,
    features: seq<Feature>,
    occasion: Occasion,
    timeContext: TimeContext,
    accessibility: seq<Accessibility>,
    budget: Budget,
    keywords: seq<string>)

  /** What a query that matches no vocabulary word parses to. */
  const DefaultQuery := ParsedQuery(General, AnyPlace, [], [], Occasion.Casual, AnyTime, [], Medium, [])

  // The vocabularies, one per rule, in the order the rules are tried.
  const SearchWords: seq<string> := ["find", "search", "looking for"]
  const RecommendWords: seq<string> := ["recommend", "suggest"]
  const CafeWords: seq<string> := ["coffee", "cafe", "coffee shop"]
  const RestaurantWords: seq<string> := ["restaurant", "dining", "dinner", "lunch"]
  const ParkWords: seq<string> := ["park", "outdoor", "garden"]
  const MallWords: seq<string> := ["mall", "shopping"]
  const QuietWords: seq<string> := ["quiet", "peaceful", "calm"]
  const RomanticWords: seq<string> := ["romantic", "intimate", "cozy"]
  const LivelyWords: seq<string> := ["lively", "energetic", "vibrant"]
  const CasualWords: seq<string> := ["casual", "relaxed"]
  const FormalWords: seq<string> := ["formal", "professional", "business"]
  const WifiWords: seq<string> := ["wifi", "internet", "studying"]
  const KidWords: seq<string> := ["playground", "kid", "family", "children"]
  const ParkingWords: seq<string> := ["parking"]
  const OutdoorWords: seq<string> := ["outdoor", "patio", "terrace"]
  const BarWords: seq<string> := ["bar", "alcohol", "drinks"]
  const MorningWords: seq<string> := ["morning", "breakfast", "coffee"]
  const AfternoonWords: seq<string> := ["afternoon", "lunch"]
  const EveningWords: seq<string> := ["evening", "dinner", "night"]
  const WheelchairWords: seq<string> := ["wheelchair", "accessible"]
  const StrollerWords: seq<string> := ["stroller", "family"]
  const CheapWords: seq<string> := ["cheap", "budget", "affordable"]
  const LuxuryWords: seq<string> := ["expensive", "luxury", "upscale"]

  /** The word lists of all the rules. */
  const RuleWords: seq<seq<string>> :=
    [SearchWords, RecommendWords, CafeWords, RestaurantWords, ParkWords, MallWords,
     QuietWords, RomanticWords, LivelyWords, CasualWords, FormalWords,
     WifiWords, KidWords, ParkingWords, OutdoorWords, BarWords,
     MorningWords, AfternoonWords, EveningWords,
     WheelchairWords, StrollerWords, CheapWords, LuxuryWords]

  /** The words whose presence appends the atmosphere tag `t`. */
  function AtmosphereWords(t: Atmosphere): seq<string>
  {
    match t
    case Quiet => QuietWords
    case Romantic => RomanticWords
    case Lively => LivelyWords
    case Casual => CasualWords
    case Formal => FormalWords
  }

  /** The words whose presence appends the feature tag `f`. */
  function FeatureWords(f: Feature): seq<string>
  {
    match f
    case Wifi => WifiWords
    case KidFriendly => KidWords
    case Parking => ParkingWords
    case Outdoor => OutdoorWords
    case Bar => BarWords
  }

  /** The words whose presence appends the accessibility tag `a`. */
  function AccessibilityWords(a: Accessibility): seq<string>
  {
    match a
    case WheelchairAccessible => WheelchairWords
    case FamilyFriendly => StrollerWords
  }

  /** `xs` with `ys` appended when `b` holds: one rule's effect on a list field. */
  function AppendIf<T>(xs: seq<T>, b: bool, ys: seq<T>): seq<T>
  {
    if b then xs + ys else xs
  }

  lemma AppendIfMember<T>(xs: seq<T>, b: bool, y: T, x: T)
    ensures x in AppendIf(xs, b, [y]) <==> x in xs || (b && x == y)
  {
  }

  // ---------------------------------------------------------------------------
  // The reading of a lower-cased query. A single-valued field takes the value of
  // the LAST rule that fires, so the rules are listed here from the last to the
  // first; a list field collects the tag of every rule that fires, in rule order.

  function IntentOf(q: string): Intent
  {
    if ContainsAny(q, RecommendWords) then Recommendation
    else if ContainsAny(q, SearchWords) then Search
    else General
  }

  function PlaceTypeOf(q: string): PlaceType
  {
    if ContainsAny(q, MallWords) then OnlyCategory(ShoppingMall)
    else if ContainsAny(q, ParkWords) then OnlyCategory(Park)
    else if ContainsAny(q, RestaurantWords) then OnlyCategory(Restaurant)
    else if ContainsAny(q, CafeWords) then OnlyCategory(Cafe)
    else AnyPlace
  }

  /** The occasion as the atmosphere rules leave it. */
  function AtmosphereOccasion(q: string): Occasion
  {
    if ContainsAny(q, FormalWords) then Business
    else if ContainsAny(q, RomanticWords) then Occasion.Romantic
    else Occasion.Casual
  }

  /** The occasion as the feature rules leave it. */
  function OccasionOf(q: string): Occasion
  {
    if ContainsAny(q, KidWords) then Family
    else if ContainsAny(q, WifiWords) then Work
    else AtmosphereOccasion(q)
  }

  function TimeContextOf(q: string): TimeContext
  {
    if ContainsAny(q, EveningWords) then Evening
    else if ContainsAny(q, AfternoonWords) then Afternoon
    else if ContainsAny(q, MorningWords) then Morning
    else AnyTime
  }

  function BudgetOf(q: string): Budget
  {
    if ContainsAny(q, LuxuryWords) then High
    else if ContainsAny(q, CheapWords) then Low
    else Medium
  }

  function AtmosphereOf(q: string): seq<Atmosphere>
  {
    var a1 := AppendIf([], ContainsAny(q, QuietWords), [Quiet]);
    var a2 := AppendIf(a1, ContainsAny(q, RomanticWords), [Atmosphere.Romantic]);
    var a3 := AppendIf(a2, ContainsAny(q, LivelyWords), [Lively]);
    var a4 := AppendIf(a3, ContainsAny(q, CasualWords), [Atmosphere.Casual]);
    AppendIf(a4, ContainsAny(q, FormalWords), [Formal])
  }

  function FeaturesOf(q: string): seq<Feature>
  {
    var f1 := AppendIf([], ContainsAny(q, WifiWords), [Wifi]);
    var f2 := AppendIf(f1, ContainsAny(q, KidWords), [KidFriendly]);
    var f3 := AppendIf(f2, ContainsAny(q, ParkingWords), [Parking]);
    var f4 := AppendIf(f3, ContainsAny(q, OutdoorWords), [Outdoor]);
    AppendIf(f4, ContainsAny(q, BarWords), [Bar])
  }

  function AccessibilityOf(q: string): seq<Accessibility>
  {
    var a1 := AppendIf([], ContainsAny(q, WheelchairWords), [WheelchairAccessible]);
    AppendIf(a1, ContainsAny(q, StrollerWords), [FamilyFriendly])
  }

  const CafeKeywords: seq<string> := ["coffee", "cafe"]
  const RestaurantKeywords: seq<string> := ["restaurant", "dining"]
  const ParkKeywords: seq<string> := ["park", "outdoor"]
  const MallKeywords: seq<string> := ["shopping", "mall"]

  /** Every place-type rule that fires contributes its two search keywords. */
  function KeywordsOf(q: string): seq<string>
  {
    var k1 := AppendIf([], ContainsAny(q, CafeWords), CafeKeywords);
    var k2 := AppendIf(k1, ContainsAny(q, RestaurantWords), RestaurantKeywords);
    var k3 := AppendIf(k2, ContainsAny(q, ParkWords), ParkKeywords);
    AppendIf(k3, ContainsAny(q, MallWords), MallKeywords)
  }

  /** The reading of an already lower-cased query. */
  function Interpret(q: string): ParsedQuery
  {
    ParsedQuery(IntentOf(q), PlaceTypeOf(q), AtmosphereOf(q), FeaturesOf(q), OccasionOf(q),
                TimeContextOf(q), AccessibilityOf(q), BudgetOf(q), KeywordsOf(q))
  }

  /** The intended reading of `query`: matching is case-insensitive. */
  function Parse(query: string): ParsedQuery
  {
    Interpret(Lower(query))
  }

  /** `parseNaturalLanguageQuery`: starts from the defaults and runs the rule
      sections one after the other, each overwriting single-valued fields or
      appending to lists. */
  method ParseNaturalLanguageQuery(query: string) returns (parsed: ParsedQuery)
    ensures parsed == Parse(query)
  {
    var lowerQuery := Lower(query);
    parsed := ParsedQuery(General, AnyPlace, [], [], Occasion.Casual, AnyTime, [], Medium, []);

    var intent := DetectIntent(lowerQuery);
    parsed := parsed.(intent := intent);

    var placeType, keywords := DetectPlaceType(lowerQuery);
    parsed := parsed.(placeType := placeType, keywords := keywords);

    var atmosphere, occasion := DetectAtmosphere(lowerQuery);
    parsed := parsed.(atmosphere := atmosphere, occasion := occasion);

    var features, occasion' := DetectFeatures(lowerQuery, parsed.occasion);
    parsed := parsed.(features := features, occasion := occasion');

    var timeContext := DetectTimeContext(lowerQuery);
    parsed := parsed.(timeContext := timeContext);

    var accessibility := DetectAccessibility(lowerQuery);
    parsed := parsed.(accessibility := accessibility);

    var budget := DetectBudget(lowerQuery);
    parsed := parsed.(budget := budget);
  }

  /** Intent recognition: "recommend" words win over "search" words. */
  method DetectIntent(q: string) returns (intent: Intent)
    ensures intent == IntentOf(q)
  {
    intent := General;
    if ContainsAny(q, SearchWords) {
      intent := Search;
    }
    if ContainsAny(q, RecommendWords) {
      intent := Recommendation;
    }
  }

  /** Place type detection: the last place-type rule that fires sets the type,
      and every rule that fires pushes its two keywords. */
  method DetectPlaceType(q: string) returns (placeType: PlaceType, keywords: seq<string>)
    ensures placeType == PlaceTypeOf(q)
    ensures keywords == KeywordsOf(q)
  {
    placeType, keywords := AnyPlace, [];
    if ContainsAny(q, CafeWords) {
      placeType, keywords := OnlyCategory(Cafe), keywords + CafeKeywords;
    }
    if ContainsAny(q, RestaurantWords) {
      placeType, keywords := OnlyCategory(Restaurant), keywords + RestaurantKeywords;
    }
    if ContainsAny(q, ParkWords) {
      placeType, keywords := OnlyCategory(Park), keywords + ParkKeywords;
    }
    if ContainsAny(q, MallWords) {
      placeType, keywords := OnlyCategory(ShoppingMall), keywords + MallKeywords;
    }
  }

  /** Atmosphere detection; the romantic and formal rules also set the occasion. */
  method DetectAtmosphere(q: string) returns (atmosphere: seq<Atmosphere>, occasion: Occasion)
    ensures atmosphere == AtmosphereOf(q)
    ensures occasion == AtmosphereOccasion(q)
  {
    atmosphere, occasion := [], Occasion.Casual;
    if ContainsAny(q, QuietWords) {
      atmosphere := atmosphere + [Quiet];
    }
    if ContainsAny(q, RomanticWords) {
      atmosphere, occasion := atmosphere + [Atmosphere.Romantic], Occasion.Romantic;
    }
    if ContainsAny(q, LivelyWords) {
      atmosphere := atmosphere + [Lively];
    }
    if ContainsAny(q, CasualWords) {
      atmosphere := atmosphere + [Atmosphere.Casual];
    }
    if ContainsAny(q, FormalWords) {
      atmosphere, occasion := atmosphere + [Formal], Business;
    }
  }

  /** Features detection; the wifi and kid rules overwrite the occasion left by
      the atmosphere rules. */
  method DetectFeatures(q: string, occasion: Occasion) returns (features: seq<Feature>, occasion': Occasion)
    ensures features == FeaturesOf(q)
    ensures occasion' == if ContainsAny(q, KidWords) then Family
                         else if ContainsAny(q, WifiWords) then Work
                         else occasion
  {
    features, occasion' := [], occasion;
    if ContainsAny(q, WifiWords) {
      features, occasion' := features + [Wifi], Work;
    }
    if ContainsAny(q, KidWords) {
      features, occasion' := features + [KidFriendly], Family;
    }
    if ContainsAny(q, ParkingWords) {
      features := features + [Parking];
    }
    if ContainsAny(q, OutdoorWords) {
      features := features + [Outdoor];
    }
    if ContainsAny(q, BarWords) {
      features := features + [Bar];
    }
  }

  /** Time context detection: evening over afternoon over morning. */
  method DetectTimeContext(q: string) returns (timeContext: TimeContext)
    ensures timeContext == TimeContextOf(q)
  {
    timeContext := AnyTime;
    if ContainsAny(q, MorningWords) {
      timeContext := Morning;
    }
    if ContainsAny(q, AfternoonWords) {
      timeContext := Afternoon;
    }
    if ContainsAny(q, EveningWords) {
      timeContext := Evening;
    }
  }

  /** Accessibility detection. */
  method DetectAccessibility(q: string) returns (accessibility: seq<Accessibility>)
    ensures accessibility == AccessibilityOf(q)
  {
    accessibility := [];
    if ContainsAny(q, WheelchairWords) {
      accessibility := accessibility + [WheelchairAccessible];
    }
    if ContainsAny(q, StrollerWords) {
      accessibility := accessibility + [FamilyFriendly];
    }
  }

  /** Budget detection: luxury words win over cheap words. */
  method DetectBudget(q: string) returns (budget: Budget)
    ensures budget == BudgetOf(q)
  {
    budget := Medium;
    if ContainsAny(q, CheapWords) {
      budget := Low;
    }
    if ContainsAny(q, LuxuryWords) {
      budget := High;
    }
  }

  // ---------------------------------------------------------------------------
  // Properties of the reading.

  /** Matching ignores letter case. */
  lemma ParseIgnoresCase(query: string)
    ensures Parse(query) == Parse(Lower(query))
  {
    LowerIdempotent(query);
  }

  /** No rule fires when none of the rules' words occurs. */
  lemma NoRuleFires(q: string)
    requires forall ws, w :: ws in RuleWords && w in ws ==> !Contains(q, w)
    ensures forall k :: 0 <= k < |RuleWords| ==> !ContainsAny(q, RuleWords[k])
  {
    forall k | 0 <= k < |RuleWords|
      ensures !ContainsAny(q, RuleWords[k])
    {
      if ContainsAny(q, RuleWords[k]) {
        ContainsAnyWitness(q, RuleWords[k]);
      }
    }
  }

  /** A query in which no word of any rule occurs parses to the defaults:
      intent general, any place type, casual occasion, any time, medium budget
      and empty tag and keyword lists. */
  lemma UnmatchedQueryGivesDefaults(query: string)
    requires forall ws, w :: ws in RuleWords && w in ws ==> !Contains(Lower(query), w)
    ensures Parse(query) == DefaultQuery
  {
    var q := Lower(query);
    NoRuleFires(q);
    assert !ContainsAny(q, RuleWords[0]);
    assert !ContainsAny(q, RuleWords[1]);
    assert !ContainsAny(q, RuleWords[2]);
    assert !ContainsAny(q, RuleWords[3]);
    assert !ContainsAny(q, RuleWords[4]);
    assert !ContainsAny(q, RuleWords[5]);
    assert !ContainsAny(q, RuleWords[6]);
    assert !ContainsAny(q, RuleWords[7]);
    assert !ContainsAny(q, RuleWords[8]);
    assert !ContainsAny(q, RuleWords[9]);
    assert !ContainsAny(q, RuleWords[10]);
    assert !ContainsAny(q, RuleWords[11]);
    assert !ContainsAny(q, RuleWords[12]);
    assert !ContainsAny(q, RuleWords[13]);
    assert !ContainsAny(q, RuleWords[14]);
    assert !ContainsAny(q, RuleWords[15]);
    assert !ContainsAny(q, RuleWords[16]);
    assert !ContainsAny(q, RuleWords[17]);
    assert !ContainsAny(q, RuleWords[18]);
    assert !ContainsAny(q, RuleWords[19]);
    assert !ContainsAny(q, RuleWords[20]);
    assert !ContainsAny(q, RuleWords[21]);
    assert !ContainsAny(q, RuleWords[22]);
  }

  /** Matching is by substring: a query mentioning "parking" also mentions
      "park", so it gets the parking feature and the park place type (unless
      the later mall rule fires as well). */
  lemma ParkingAlsoMeansPark(query: string)
    requires Contains(Lower(query), "parking")
    ensures Parking in Parse(query).features
    ensures Parse(query).placeType
         == if ContainsAny(Lower(query), MallWords) then OnlyCategory(ShoppingMall) else OnlyCategory(Park)
  {
    var q := Lower(query);
    assert Contains("parking", "park");
    ContainsTransitive(q, "parking", "park");
    ContainsAnyMember(q, ParkWords, "park");
    ContainsAnyMember(q, ParkingWords, "parking");
  }

  /** "coffee" is both a cafe word and a morning word: such a query names a
      place type and a time, morning unless a later time rule fires. */
  lemma CoffeeAlsoMeansMorning(query: string)
    requires Contains(Lower(query), "coffee")
    ensures Parse(query).placeType != AnyPlace
    ensures "coffee" in Parse(query).keywords
    ensures Parse(query).timeContext
         == if ContainsAny(Lower(query), EveningWords) then Evening
            else if ContainsAny(Lower(query), AfternoonWords) then Afternoon
            else Morning
  {
    var q := Lower(query);
    ContainsAnyMember(q, CafeWords, "coffee");
    ContainsAnyMember(q, MorningWords, "coffee");
  }

  /** Each atmosphere tag is appended at most once, so the list holds no
      duplicates. */
  lemma AtmosphereTagsAreDistinct(q: string)
    ensures var r := AtmosphereOf(q);
      forall i, j :: 0 <= i < j < |r| ==> r[i] != r[j]
  {
  }

  /** An atmosphere tag is present exactly when one of its words occurs. */
  lemma AtmosphereTagIffWord(q: string, t: Atmosphere)
    ensures t in AtmosphereOf(q) <==> ContainsAny(q, AtmosphereWords(t))
  {
    var a1 := AppendIf([], ContainsAny(q, QuietWords), [Quiet]);
    var a2 := AppendIf(a1, ContainsAny(q, RomanticWords), [Atmosphere.Romantic]);
    var a3 := AppendIf(a2, ContainsAny(q, LivelyWords), [Lively]);
    var a4 := AppendIf(a3, ContainsAny(q, CasualWords), [Atmosphere.Casual]);
    AppendIfMember([], ContainsAny(q, QuietWords), Quiet, t);
    AppendIfMember(a1, ContainsAny(q, RomanticWords), Atmosphere.Romantic, t);
    AppendIfMember(a2, ContainsAny(q, LivelyWords), Lively, t);
    AppendIfMember(a3, ContainsAny(q, CasualWords), Atmosphere.Casual, t);
    AppendIfMember(a4, ContainsAny(q, FormalWords), Formal, t);
  }

  /** Each feature tag is appended at most once. */
  lemma FeatureTagsAreDistinct(q: string)
    ensures var r := FeaturesOf(q);
      forall i, j :: 0 <= i < j < |r| ==> r[i] != r[j]
  {
  }

  /** A feature tag is present exactly when one of its words occurs. */
  lemma FeatureTagIffWord(q: string, f: Feature)
    ensures f in FeaturesOf(q) <==> ContainsAny(q, FeatureWords(f))
  {
    var f1 := AppendIf([], ContainsAny(q, WifiWords), [Wifi]);
    var f2 := AppendIf(f1, ContainsAny(q, KidWords), [KidFriendly]);
    var f3 := AppendIf(f2, ContainsAny(q, ParkingWords), [Parking]);
    var f4 := AppendIf(f3, ContainsAny(q, OutdoorWords), [Outdoor]);
    AppendIfMember([], ContainsAny(q, WifiWords), Wifi, f);
    AppendIfMember(f1, ContainsAny(q, KidWords), KidFriendly, f);
    AppendIfMember(f2, ContainsAny(q, ParkingWords), Parking, f);
    AppendIfMember(f3, ContainsAny(q, OutdoorWords), Outdoor, f);
    AppendIfMember(f4, ContainsAny(q, BarWords), Bar, f);
  }

  /** The accessibility tags: distinct, each present exactly when one of its
      words occurs. */
  lemma AccessibilityTagsAreDistinct(q: string)
    ensures var r := AccessibilityOf(q);
      forall i, j :: 0 <= i < j < |r| ==> r[i] != r[j]
    ensures forall a :: a in AccessibilityOf(q) <==> ContainsAny(q, AccessibilityWords(a))
  {
  }

  // ---------------------------------------------------------------------------
  // Search parameters.

  /** Rule-based bonuses handed to the scorer. */
  datatype AiScoring = AiScoring(timeBonus: int, atmosphereBonus: int, featureBonus: int, occasionBonus: int)

  datatype SearchParams = SearchParams(
    placeTypes: seq<Category>,
    keywords: seq<string>,
    minRating: real,
    maxDistance: int,
    timeContext: TimeContext,
    occasion: Occasion,
    atmosphere: seq<Atmosphere>,
    features: seq<Feature>,
    budget: Budget,
    aiScoring: AiScoring)

  /** The place types searched when the query names none. */
  const DefaultPlaceTypes: seq<Category> := [Cafe, Restaurant, Park]

  /** The search parameters a parsed query calls for. */
  function SearchParametersFor(p: ParsedQuery): (r: SearchParams)
    ensures p.placeType.OnlyCategory? ==> r.placeTypes == [p.placeType.category]
    ensures p.placeType == AnyPlace ==> r.placeTypes == [Cafe, Restaurant, Park]
    ensures |r.placeTypes| > 0
    ensures (r.minRating == 4.0) <==> (p.occasion == Occasion.Romantic || p.occasion == Business)
    ensures r.minRating == 3.5 || r.minRating == 4.0
    ensures r.maxDistance == 20
    ensures r.keywords == p.keywords
    ensures r.timeContext == p.timeContext && r.occasion == p.occasion && r.budget == p.budget
    ensures r.atmosphere == p.atmosphere && r.features == p.features
    ensures (r.aiScoring.timeBonus == 25)
        <==> ((p.timeContext == Morning && p.placeType == OnlyCategory(Cafe))
              || (p.timeContext == Evening && p.placeType == OnlyCategory(Restaurant)))
    ensures r.aiScoring.timeBonus == 0 || r.aiScoring.timeBonus == 25
    ensures (r.aiScoring.atmosphereBonus == 30) <==> Atmosphere.Romantic in p.atmosphere
    ensures r.aiScoring.atmosphereBonus == 0 || r.aiScoring.atmosphereBonus == 30
    ensures (r.aiScoring.featureBonus == 20) <==> Wifi in p.features
    ensures r.aiScoring.featureBonus == 0 || r.aiScoring.featureBonus == 20
    ensures (r.aiScoring.occasionBonus == 25) <==> p.occasion == Family
    ensures r.aiScoring.occasionBonus == 0 || r.aiScoring.occasionBonus == 25
  {
    SearchParams(
      if p.placeType.OnlyCategory? then [p.placeType.category] else DefaultPlaceTypes,
      p.keywords,
      if p.occasion == Occasion.Romantic || p.occasion == Business then 4.0 else 3.5,
      20,
      p.timeContext, p.occasion, p.atmosphere, p.features, p.budget,
      AiScoring(
        if (p.timeContext == Morning && p.placeType == OnlyCategory(Cafe))
           || (p.timeContext == Evening && p.placeType == OnlyCategory(Restaurant)) then 25 else 0,
        if Atmosphere.Romantic in p.atmosphere then 30 else 0,
        if Wifi in p.features then 20 else 0,
        if p.occasion == Family then 25 else 0))
  }

  /** `generateSearchParameters`: starts from the defaults and overwrites fields
      rule by rule. The two user locations it also receives are not used. */
  method GenerateSearchParameters(parsedQuery: ParsedQuery) returns (searchParams: SearchParams)
    ensures searchParams == SearchParametersFor(parsedQuery)
  {
    searchParams := SearchParams([], [], 3.5, 20, parsedQuery.timeContext, parsedQuery.occasion,
                                 parsedQuery.atmosphere, parsedQuery.features, parsedQuery.budget,
                                 AiScoring(0, 0, 0, 0));

    if parsedQuery.placeType != AnyPlace {
      searchParams := searchParams.(placeTypes := searchParams.placeTypes + [parsedQuery.placeType.category]);
    } else {
      searchParams := searchParams.(placeTypes := DefaultPlaceTypes);
    }

    searchParams := searchParams.(keywords := parsedQuery.keywords);

    if parsedQuery.occasion == Occasion.Romantic || parsedQuery.occasion == Business {
      searchParams := searchParams.(minRating := 4.0);
    }

    if parsedQuery.timeContext == Morning && parsedQuery.placeType == OnlyCategory(Cafe) {
      searchParams := searchParams.(aiScoring := searchParams.aiScoring.(timeBonus := 25));
    }
    if parsedQuery.timeContext == Evening && parsedQuery.placeType == OnlyCategory(Restaurant) {
      searchParams := searchParams.(aiScoring := searchParams.aiScoring.(timeBonus := 25));
    }
    if Atmosphere.Romantic in parsedQuery.atmosphere {
      searchParams := searchParams.(aiScoring := searchParams.aiScoring.(atmosphereBonus := 30));
    }
    if Wifi in parsedQuery.features {
      searchParams := searchParams.(aiScoring := searchParams.aiScoring.(featureBonus := 20));
    }
    if parsedQuery.occasion == Family {
      searchParams := searchParams.(aiScoring := searchParams.aiScoring.(occasionBonus := 25));
    }
  }

  /** A parsed query never leads to a hotel search: the vocabulary has no hotel
      words, so hotels are searched neither by name nor by default. */
  lemma ParsedSearchNeverAsksForHotels(query: string)
    ensures Hotel !in SearchParametersFor(Parse(query)).placeTypes
  {
    var t := PlaceTypeOf(Lower(query));
    assert t == AnyPlace || t.category != Hotel;
    assert Parse(query).placeType == t;
  }

  // ---------------------------------------------------------------------------
  // Suggestions.

  /** The suggestion texts, one constructor per text. */
  datatype Suggestion =
    | StudySpots | QuietWifi | RomanticRestaurants | SpecialOccasions | FamilyRestaurants
    | Playgrounds | MeetingSpots | QuietAccessible | MorningCoffee | EveningDining

  function SuggestionText(s: Suggestion): string
  {
    match s
    case StudySpots => "☕ Perfect for studying or work meetings"
    case QuietWifi => "🔇 Quiet atmosphere with good WiFi"
    case RomanticRestaurants => "💕 Romantic restaurants with intimate settings"
    case SpecialOccasions => "🌹 Highly-rated places for special occasions"
    case FamilyRestaurants => "👨‍👩‍👧‍👦 Family-friendly restaurants and parks"
    case Playgrounds => "🎠 Places with playgrounds and kid activities"
    case MeetingSpots => "💼 Professional meeting spots"
    case QuietAccessible => "📊 Quiet places with good WiFi and accessibility"
    case MorningCoffee => "☀️ Morning coffee spots and breakfast places"
    case EveningDining => "🌙 Evening dining and entertainment options"
  }

  /** The suggestions for a parsed query, in rule order. */
  function SuggestionsFor(p: ParsedQuery): seq<Suggestion>
  {
    var s1 := AppendIf([], p.placeType == OnlyCategory(Cafe) && Quiet in p.atmosphere, [StudySpots, QuietWifi]);
    var s2 := AppendIf(s1, p.occasion == Occasion.Romantic, [RomanticRestaurants, SpecialOccasions]);
    var s3 := AppendIf(s2, KidFriendly in p.features, [FamilyRestaurants, Playgrounds]);
    var s4 := AppendIf(s3, p.occasion == Business, [MeetingSpots, QuietAccessible]);
    var s5 := AppendIf(s4, p.timeContext == Morning, [MorningCoffee]);
    AppendIf(s5, p.timeContext == Evening, [EveningDining])
  }

  /** `x` in `xs` with `ys` appended when `b` holds. */
  lemma AppendIfMemberOf<T>(xs: seq<T>, b: bool, ys: seq<T>, x: T)
    ensures x in AppendIf(xs, b, ys) <==> x in xs || (b && x in ys)
  {
  }

  /** The condition of the rule that pushes suggestion `x`. */
  predicate Suggests(p: ParsedQuery, x: Suggestion)
  {
    match x
    case StudySpots | QuietWifi => p.placeType == OnlyCategory(Cafe) && Quiet in p.atmosphere
    case RomanticRestaurants | SpecialOccasions => p.occasion == Occasion.Romantic
    case FamilyRestaurants | Playgrounds => KidFriendly in p.features
    case MeetingSpots | QuietAccessible => p.occasion == Business
    case MorningCoffee => p.timeContext == Morning
    case EveningDining => p.timeContext == Evening
  }

  /** A suggestion is offered exactly when the rule that pushes it fires. */
  lemma SuggestionIffRule(p: ParsedQuery, x: Suggestion)
    ensures x in SuggestionsFor(p) <==> Suggests(p, x)
  {
    var s1 := AppendIf([], p.placeType == OnlyCategory(Cafe) && Quiet in p.atmosphere, [StudySpots, QuietWifi]);
    var s2 := AppendIf(s1, p.occasion == Occasion.Romantic, [RomanticRestaurants, SpecialOccasions]);
    var s3 := AppendIf(s2, KidFriendly in p.features, [FamilyRestaurants, Playgrounds]);
    var s4 := AppendIf(s3, p.occasion == Business, [MeetingSpots, QuietAccessible]);
    var s5 := AppendIf(s4, p.timeContext == Morning, [MorningCoffee]);
    AppendIfMemberOf([], p.placeType == OnlyCategory(Cafe) && Quiet in p.atmosphere, [StudySpots, QuietWifi], x);
    AppendIfMemberOf(s1, p.occasion == Occasion.Romantic, [RomanticRestaurants, SpecialOccasions], x);
    AppendIfMemberOf(s2, KidFriendly in p.features, [FamilyRestaurants, Playgrounds], x);
    AppendIfMemberOf(s3, p.occasion == Business, [MeetingSpots, QuietAccessible], x);
    AppendIfMemberOf(s4, p.timeContext == Morning, [MorningCoffee], x);
    AppendIfMemberOf(s5, p.timeContext == Evening, [EveningDining], x);
  }

  /** The time suggestions follow the single-valued time context, so at most
      one of the morning and evening suggestions appears. */
  lemma TimeSuggestionsExclusive(p: ParsedQuery)
    ensures !(MorningCoffee in SuggestionsFor(p) && EveningDining in SuggestionsFor(p))
  {
    SuggestionIffRule(p, MorningCoffee);
    SuggestionIffRule(p, EveningDining);
  }

  /** The romantic and business suggestions follow the single-valued occasion,
      so they never appear together. */
  lemma OccasionSuggestionsExclusive(p: ParsedQuery)
    ensures !(RomanticRestaurants in SuggestionsFor(p) && MeetingSpots in SuggestionsFor(p))
  {
    SuggestionIffRule(p, RomanticRestaurants);
    SuggestionIffRule(p, MeetingSpots);
  }

  /** `generateSuggestions`: pushes the texts of every rule that fires. */
  method GenerateSuggestions(parsedQuery: ParsedQuery) returns (suggestions: seq<Suggestion>)
    ensures suggestions == SuggestionsFor(parsedQuery)
  {
    suggestions := [];
    if parsedQuery.placeType == OnlyCategory(Cafe) && Quiet in parsedQuery.atmosphere {
      suggestions := suggestions + [StudySpots, QuietWifi];
    }
    if parsedQuery.occasion == Occasion.Romantic {
      suggestions := suggestions + [RomanticRestaurants, SpecialOccasions];
    }
    if KidFriendly in parsedQuery.features {
      suggestions := suggestions + [FamilyRestaurants, Playgrounds];
    }
    if parsedQuery.occasion == Business {
      suggestions := suggestions + [MeetingSpots, QuietAccessible];
    }
    if parsedQuery.timeContext == Morning {
      suggestions := suggestions + [MorningCoffee];
    }
    if parsedQuery.timeContext == Evening {
      suggestions := suggestions + [EveningDining];
    }
  }

  // ---------------------------------------------------------------------------
  // The handler.

  /** The body of a successful `/api/nlp-search` response. */
  datatype NlpResponse = NlpResponse(
    success: bool,
    originalQuery: string,
    parsedQuery: ParsedQuery,
    searchParams: SearchParams,
    suggestions: seq<Suggestion>)

  /** A JavaScript value is truthy unless absent or the empty string. */
  predicate Truthy(s: Option<string>)
  {
    s.Some? && s.value != ""
  }

  /** `handler`: only POST is served; a query and both locations are required;
      otherwise the response carries the reading, the search parameters and the
      suggestions. */
  method HandleNlpSearch(httpMethod: string, query: Option<string>,
                         location1: Option<Coordinate>, location2: Option<Coordinate>)
    returns (response: Result<NlpResponse, HttpError>)
    ensures httpMethod != "POST" ==> response == Err(HttpError(405, "Only POST requests are allowed"))
    ensures httpMethod == "POST" && (!Truthy(query) || location1.None? || location2.None?)
        ==> response == Err(HttpError(400, "Query and locations are required"))
    ensures response.Ok? <==> httpMethod == "POST" && Truthy(query) && location1.Some? && location2.Some?
    ensures response.Ok? ==>
      var parsed := Parse(query.value);
      response.value == NlpResponse(true, query.value, parsed, SearchParametersFor(parsed), SuggestionsFor(parsed))
  {
    if httpMethod != "POST" {
      return Err(HttpError(405, "Only POST requests are allowed"));
    }
    if !Truthy(query) || location1.None? || location2.None? {
      return Err(HttpError(400, "Query and locations are required"));
    }
    var parsedQuery := ParseNaturalLanguageQuery(query.value);
    var searchParams := GenerateSearchParameters(parsedQuery);
    var suggestions := GenerateSuggestions(parsedQuery);
    response := Ok(NlpResponse(true, query.value, parsedQuery, searchParams, suggestions));
  }
}
