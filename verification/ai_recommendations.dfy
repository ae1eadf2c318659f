/** The `/api/ai-recommendations` handler: a standalone scorer that rates the
    venues it is sent against an optional request context and optional user
    preferences, orders them by score, and adds a few insights about the top
    three. The clock's hour is the parameter `currentHour`. */
module AiRecommendations {
  import opened Wrappers
  import opened Text
  import opened Places
  import opened ScoreSort

  /** The values of the context fields the scorer tells apart; any other
      non-empty word is the `Other` value of its field. */
  datatype TimeOfDay = Morning | Evening | OtherTime
  datatype Weather = Rainy | Sunny | OtherWeather
  datatype Occasion = Business | Romantic | Family | Casual | OtherOccasion
  datatype Urgency = Quick | OtherUrgency

  /** The request's `context`. `None` stands for a field that is absent or
      empty (both falsy); an absent context reads as one whose fields are all
      absent. */
  datatype RequestContext = RequestContext(
    timeOfDay: Option<TimeOfDay>,
    weather: Option<Weather>,
    occasion: Option<Occasion>,
    urgency: Option<Urgency>)

  /** The request's `userPreferences`, each field optional. */
  datatype UserPreferences = UserPreferences(
    favoriteTypes: Option<seq<Category>>,
    avoidTypes: Option<seq<Category>>,
    minRating: Option<real>)

  /** The scoring rules, in the order the scorer tries them. The fairness
      bonus is two rules, one per tier. */
  datatype Rule =
    | MorningCoffee | EveningDining | RainyIndoor | SunnyOutdoor
    | ProfessionalSpot | RomanticAtmosphere | FamilyFriendly | CasualRelaxed
    | MatchesPreferences | NotUsualChoice | MeetsStandards
    | VeryFair | FairEnough | HighlyRated | Popular | QuickAndEasy

  /** The points a rule adds; the one penalty is for an avoided type. */
  function Points(r: Rule): int
  {
    match r
    case MorningCoffee => 20
    case EveningDining => 20
    case RainyIndoor => 15
    case SunnyOutdoor => 15
    case ProfessionalSpot => 25
    case RomanticAtmosphere => 30
    case FamilyFriendly => 25
    case CasualRelaxed => 20
    case MatchesPreferences => 30
    case NotUsualChoice => -20
    case MeetsStandards => 15
    case VeryFair => 20
    case FairEnough => 10
    case HighlyRated => 15
    case Popular => 10
    case QuickAndEasy => 15
  }

  /** The reason a rule gives; both fairness tiers give the same one. */
  function Reason(r: Rule): string
  {
    match r
    case MorningCoffee => "☀️ Perfect for morning coffee"
    case EveningDining => "🌙 Great for evening dining"
    case RainyIndoor => "🌧️ Indoor option for rainy weather"
    case SunnyOutdoor => "☀️ Great outdoor option"
    case ProfessionalSpot => "💼 Professional meeting spot"
    case RomanticAtmosphere => "💕 Romantic atmosphere"
    case FamilyFriendly => "👨‍👩‍👧‍👦 Family-friendly location"
    case CasualRelaxed => "😊 Casual and relaxed"
    case MatchesPreferences => "❤️ Matches your preferences"
    case NotUsualChoice => "⚠️ Not your usual choice"
    case MeetsStandards => "⭐ Meets your quality standards"
    case VeryFair => "⚖️ Very fair for both users"
    case FairEnough => "⚖️ Very fair for both users"
    case HighlyRated => "🌟 Highly rated"
    case Popular => "👥 Popular choice"
    case QuickAndEasy => "⚡ Quick and easy"
  }

  const TimeRules: seq<Rule> := [MorningCoffee, EveningDining]
  const WeatherRules: seq<Rule> := [RainyIndoor, SunnyOutdoor]
  const OccasionRules: seq<Rule> := [ProfessionalSpot, RomanticAtmosphere, FamilyFriendly, CasualRelaxed]
  const PreferenceRules: seq<Rule> := [MatchesPreferences, NotUsualChoice, MeetsStandards]
  const FairnessRules: seq<Rule> := [VeryFair, FairEnough]
  const QualityRules: seq<Rule> := [HighlyRated, Popular]
  const UrgencyRules: seq<Rule> := [QuickAndEasy]

  /** The first four sections, which read the request's context and preferences. */
  const LeadingRules: seq<Rule> := TimeRules + WeatherRules + OccasionRules + PreferenceRules

  /** The last three sections. */
  const TrailingRules: seq<Rule> := FairnessRules + QualityRules + UrgencyRules

  const RuleOrder: seq<Rule> := LeadingRules + TrailingRules

  /** `userPreferences.<types>?.includes(place.sourceType)` */
  predicate Lists(types: Option<seq<Category>>, c: Category)
  {
    types.Some? && c in types.value
  }

  /** The condition under which a rule awards its points. */
  predicate Fires(r: Rule, place: Place, ctx: RequestContext, prefs: Option<UserPreferences>)
  {
    match r
    case MorningCoffee => ctx.timeOfDay == Some(Morning) && place.sourceType == Cafe
    case EveningDining => ctx.timeOfDay == Some(Evening) && place.sourceType == Restaurant
    case RainyIndoor => ctx.weather == Some(Rainy) && place.sourceType != Park
    case SunnyOutdoor => ctx.weather == Some(Sunny) && place.sourceType == Park
    case ProfessionalSpot =>
      ctx.occasion == Some(Business) && (place.sourceType == Cafe || place.sourceType == Restaurant)
    case RomanticAtmosphere =>
      ctx.occasion == Some(Romantic) && place.sourceType == Restaurant && AtLeast(place.rating, 4.0)
    case FamilyFriendly =>
      ctx.occasion == Some(Family) && (place.sourceType == Park || place.sourceType == ShoppingMall)
    case CasualRelaxed =>
      ctx.occasion == Some(Casual) && (place.sourceType == Cafe || place.sourceType == Park)
    case MatchesPreferences => prefs.Some? && Lists(prefs.value.favoriteTypes, place.sourceType)
    case NotUsualChoice => prefs.Some? && Lists(prefs.value.avoidTypes, place.sourceType)
    case MeetsStandards =>
      prefs.Some? && prefs.value.minRating.Some? && prefs.value.minRating.value != 0.0
      && AtLeast(place.rating, prefs.value.minRating.value)
    case VeryFair => place.distanceScore.Some? && place.distanceScore.value.distanceDifference < 2.0
    case FairEnough =>
      place.distanceScore.Some? && 2.0 <= place.distanceScore.value.distanceDifference < 5.0
    case HighlyRated => AtLeast(place.rating, 4.5)
    case Popular => Above(place.userRatings, 100)
    case QuickAndEasy => ctx.urgency == Some(Quick) && place.sourceType == Cafe
  }

  /** The rules of `rules` that fire, in their order. */
  function Selected(rules: seq<Rule>, place: Place, ctx: RequestContext, prefs: Option<UserPreferences>): seq<Rule>
  {
    if rules == [] then []
    else (if Fires(rules[0], place, ctx, prefs) then [rules[0]] else []) + Selected(rules[1..], place, ctx, prefs)
  }

  /** Every rule that fires for the venue, in the order the scorer tries them. */
  function FiredRules(place: Place, ctx: RequestContext, prefs: Option<UserPreferences>): seq<Rule>
  {
    Selected(RuleOrder, place, ctx, prefs)
  }

  /** The sum of the points of `rules`. */
  function Sum(rules: seq<Rule>): int
  {
    if rules == [] then 0 else Points(rules[0]) + Sum(rules[1..])
  }

  /** `Math.max(0, x)` */
  function Max0(x: int): (m: int)
    ensures m >= 0 && m >= x
    ensures m == x || m == 0
  {
    if x < 0 then 0 else x
  }

  /** The reasons of `rules`, in order. */
  function ReasonTexts(rules: seq<Rule>): (texts: seq<string>)
    ensures |texts| == |rules|
    ensures forall i :: 0 <= i < |rules| ==> texts[i] == Reason(rules[i])
  {
    seq(|rules|, i requires 0 <= i < |rules| => Reason(rules[i]))
  }

  /** A venue as the scorer returns it: its fields, its score, its first three
      reasons, and the `enhanced` mark. */
  datatype EnhancedPlace = EnhancedPlace(place: Place, aiScore: int, aiReasons: seq<string>, enhanced: bool)

  function ScoreOf(p: EnhancedPlace): int
  {
    p.aiScore
  }

  /** What the scorer makes of one venue. */
  function Enhanced(place: Place, ctx: RequestContext, prefs: Option<UserPreferences>): EnhancedPlace
  {
    var fired := FiredRules(place, ctx, prefs);
    EnhancedPlace(place, Max0(Sum(fired)), ReasonTexts(Take(fired, 3)), true)
  }

  // ---------------------------------------------------------------------------
  // Unfolding lemmas for the rule selection.

  lemma {:induction false} SelectedAppend(a: seq<Rule>, b: seq<Rule>, place: Place, ctx: RequestContext,
                                          prefs: Option<UserPreferences>)
    ensures Selected(a + b, place, ctx, prefs) == Selected(a, place, ctx, prefs) + Selected(b, place, ctx, prefs)
  {
    if a != [] {
      assert (a + b)[1..] == a[1..] + b;
      SelectedAppend(a[1..], b, place, ctx, prefs);
    } else {
      assert a + b == b;
    }
  }

  /** A rule is selected exactly when it is one of `rules` and fires. */
  lemma {:induction false} SelectedIff(rules: seq<Rule>, r: Rule, place: Place, ctx: RequestContext,
                                       prefs: Option<UserPreferences>)
    ensures r in Selected(rules, place, ctx, prefs) <==> r in rules && Fires(r, place, ctx, prefs)
  {
    if rules != [] {
      SelectedIff(rules[1..], r, place, ctx, prefs);
      assert rules == [rules[0]] + rules[1..];
    }
  }

  lemma {:induction false} SumAppend(a: seq<Rule>, b: seq<Rule>)
    ensures Sum(a + b) == Sum(a) + Sum(b)
  {
    if a != [] {
      assert (a + b)[1..] == a[1..] + b;
      SumAppend(a[1..], b);
    } else {
      assert a + b == b;
    }
  }

  lemma {:induction false} SumPush(rules: seq<Rule>, r: Rule)
    ensures Sum(rules + [r]) == Sum(rules) + Points(r)
  {
    if rules == [] {
      assert [r][1..] == [];
    } else {
      assert (rules + [r])[1..] == rules[1..] + [r];
      SumPush(rules[1..], r);
    }
  }

  lemma SelectedOne(x: Rule, place: Place, ctx: RequestContext, prefs: Option<UserPreferences>)
    ensures Selected([x], place, ctx, prefs) == if Fires(x, place, ctx, prefs) then [x] else []
  {
    assert [x][1..] == [];
  }

  lemma SelectedTwo(x: Rule, y: Rule, place: Place, ctx: RequestContext, prefs: Option<UserPreferences>)
    ensures Selected([x, y], place, ctx, prefs)
      == (if Fires(x, place, ctx, prefs) then [x] else []) + (if Fires(y, place, ctx, prefs) then [y] else [])
  {
    assert [x, y][1..] == [y];
    SelectedOne(y, place, ctx, prefs);
  }

  lemma SelectedThree(x: Rule, y: Rule, z: Rule, place: Place, ctx: RequestContext, prefs: Option<UserPreferences>)
    ensures Selected([x, y, z], place, ctx, prefs)
      == (if Fires(x, place, ctx, prefs) then [x] else []) + (if Fires(y, place, ctx, prefs) then [y] else [])
         + (if Fires(z, place, ctx, prefs) then [z] else [])
  {
    assert [x, y, z][1..] == [y, z];
    SelectedTwo(y, z, place, ctx, prefs);
  }

  lemma LeadingRulesBySection(place: Place, ctx: RequestContext, prefs: Option<UserPreferences>)
    ensures Selected(LeadingRules, place, ctx, prefs)
      == Selected(TimeRules, place, ctx, prefs) + Selected(WeatherRules, place, ctx, prefs)
         + Selected(OccasionRules, place, ctx, prefs) + Selected(PreferenceRules, place, ctx, prefs)
  {
    var t, w, o := TimeRules, WeatherRules, OccasionRules;
    SelectedAppend(t + w + o, PreferenceRules, place, ctx, prefs);
    SelectedAppend(t + w, o, place, ctx, prefs);
    SelectedAppend(t, w, place, ctx, prefs);
  }

  lemma TrailingRulesBySection(place: Place, ctx: RequestContext, prefs: Option<UserPreferences>)
    ensures Selected(TrailingRules, place, ctx, prefs)
      == Selected(FairnessRules, place, ctx, prefs) + Selected(QualityRules, place, ctx, prefs)
         + Selected(UrgencyRules, place, ctx, prefs)
  {
    SelectedAppend(FairnessRules + QualityRules, UrgencyRules, place, ctx, prefs);
    SelectedAppend(FairnessRules, QualityRules, place, ctx, prefs);
  }

  // ---------------------------------------------------------------------------
  // The per-venue callback, section by section. Each section receives the
  // running score and the rules fired so far (standing for their reasons),
  // and adds its own.

  method ScoreTime(place: Place, ctx: RequestContext, prefs: Option<UserPreferences>, aiScore: int, reasons: seq<Rule>)
    returns (aiScore': int, reasons': seq<Rule>)
    requires aiScore == Sum(reasons)
    ensures reasons' == reasons + Selected(TimeRules, place, ctx, prefs)
    ensures aiScore' == Sum(reasons')
  {
    aiScore', reasons' := aiScore, reasons;
    if ctx.timeOfDay.Some? {
      if ctx.timeOfDay.value == Morning && place.sourceType == Cafe {
        SumPush(reasons', MorningCoffee);
        aiScore' := aiScore' + 20;
        reasons' := reasons' + [MorningCoffee];
      }
      if ctx.timeOfDay.value == Evening && place.sourceType == Restaurant {
        SumPush(reasons', EveningDining);
        aiScore' := aiScore' + 20;
        reasons' := reasons' + [EveningDining];
      }
    }
    SelectedTwo(MorningCoffee, EveningDining, place, ctx, prefs);
  }

  method ScoreWeather(place: Place, ctx: RequestContext, prefs: Option<UserPreferences>, aiScore: int, reasons: seq<Rule>)
    returns (aiScore': int, reasons': seq<Rule>)
    requires aiScore == Sum(reasons)
    ensures reasons' == reasons + Selected(WeatherRules, place, ctx, prefs)
    ensures aiScore' == Sum(reasons')
  {
    aiScore', reasons' := aiScore, reasons;
    if ctx.weather.Some? {
      if ctx.weather.value == Rainy && place.sourceType != Park {
        SumPush(reasons', RainyIndoor);
        aiScore' := aiScore' + 15;
        reasons' := reasons' + [RainyIndoor];
      }
      if ctx.weather.value == Sunny && place.sourceType == Park {
        SumPush(reasons', SunnyOutdoor);
        aiScore' := aiScore' + 15;
        reasons' := reasons' + [SunnyOutdoor];
      }
    }
    SelectedTwo(RainyIndoor, SunnyOutdoor, place, ctx, prefs);
  }

  /** The occasion section: which of its rules fire, in order. */
  lemma OccasionSection(place: Place, ctx: RequestContext, prefs: Option<UserPreferences>)
    ensures Selected(OccasionRules, place, ctx, prefs)
      == (if ctx.occasion == Some(Business) && (place.sourceType == Cafe || place.sourceType == Restaurant) then [ProfessionalSpot] else [])
       + (if ctx.occasion == Some(Romantic) && place.sourceType == Restaurant && AtLeast(place.rating, 4.0) then [RomanticAtmosphere] else [])
       + (if ctx.occasion == Some(Family) && (place.sourceType == Park || place.sourceType == ShoppingMall) then [FamilyFriendly] else [])
       + (if ctx.occasion == Some(Casual) && (place.sourceType == Cafe || place.sourceType == Park) then [CasualRelaxed] else [])
  {
    assert OccasionRules == [ProfessionalSpot, RomanticAtmosphere] + [FamilyFriendly, CasualRelaxed];
    SelectedAppend([ProfessionalSpot, RomanticAtmosphere], [FamilyFriendly, CasualRelaxed], place, ctx, prefs);
    SelectedTwo(ProfessionalSpot, RomanticAtmosphere, place, ctx, prefs);
    SelectedTwo(FamilyFriendly, CasualRelaxed, place, ctx, prefs);
  }

  /** The preference section: which of its rules fire, in order. */
  lemma PreferencesSection(place: Place, ctx: RequestContext, prefs: Option<UserPreferences>)
    ensures Selected(PreferenceRules, place, ctx, prefs)
      == (if prefs.Some? && Lists(prefs.value.favoriteTypes, place.sourceType) then [MatchesPreferences] else [])
       + (if prefs.Some? && Lists(prefs.value.avoidTypes, place.sourceType) then [NotUsualChoice] else [])
       + (if prefs.Some? && prefs.value.minRating.Some? && prefs.value.minRating.value != 0.0
             && AtLeast(place.rating, prefs.value.minRating.value) then [MeetsStandards] else [])
  {
    SelectedThree(MatchesPreferences, NotUsualChoice, MeetsStandards, place, ctx, prefs);
  }

  /** The occasion `switch`: only the branch of the given occasion can add. */
  method ScoreOccasion(place: Place, ctx: RequestContext, prefs: Option<UserPreferences>, aiScore: int, reasons: seq<Rule>)
    returns (aiScore': int, reasons': seq<Rule>)
    requires aiScore == Sum(reasons)
    ensures reasons' == reasons + Selected(OccasionRules, place, ctx, prefs)
    ensures aiScore' == Sum(reasons')
  {
    aiScore', reasons' := aiScore, reasons;
    match ctx.occasion {
      case Some(Business) =>
        if place.sourceType == Cafe || place.sourceType == Restaurant {
          SumPush(reasons', ProfessionalSpot);
          aiScore' := aiScore' + 25;
          reasons' := reasons' + [ProfessionalSpot];
        }
      case Some(Romantic) =>
        if place.sourceType == Restaurant && AtLeast(place.rating, 4.0) {
          SumPush(reasons', RomanticAtmosphere);
          aiScore' := aiScore' + 30;
          reasons' := reasons' + [RomanticAtmosphere];
        }
      case Some(Family) =>
        if place.sourceType == Park || place.sourceType == ShoppingMall {
          SumPush(reasons', FamilyFriendly);
          aiScore' := aiScore' + 25;
          reasons' := reasons' + [FamilyFriendly];
        }
      case Some(Casual) =>
        if place.sourceType == Cafe || place.sourceType == Park {
          SumPush(reasons', CasualRelaxed);
          aiScore' := aiScore' + 20;
          reasons' := reasons' + [CasualRelaxed];
        }
      case _ =>
    }
    OccasionSection(place, ctx, prefs);
  }

  method ScorePreferences(place: Place, ctx: RequestContext, prefs: Option<UserPreferences>, aiScore: int, reasons: seq<Rule>)
    returns (aiScore': int, reasons': seq<Rule>)
    requires aiScore == Sum(reasons)
    ensures reasons' == reasons + Selected(PreferenceRules, place, ctx, prefs)
    ensures aiScore' == Sum(reasons')
  {
    aiScore', reasons' := aiScore, reasons;
    if prefs.Some? {
      var userPreferences := prefs.value;
      if Lists(userPreferences.favoriteTypes, place.sourceType) {
        SumPush(reasons', MatchesPreferences);
        aiScore' := aiScore' + 30;
        reasons' := reasons' + [MatchesPreferences];
      }
      if Lists(userPreferences.avoidTypes, place.sourceType) {
        SumPush(reasons', NotUsualChoice);
        aiScore' := aiScore' - 20;
        reasons' := reasons' + [NotUsualChoice];
      }
      if userPreferences.minRating.Some? && userPreferences.minRating.value != 0.0
         && AtLeast(place.rating, userPreferences.minRating.value) {
        SumPush(reasons', MeetsStandards);
        aiScore' := aiScore' + 15;
        reasons' := reasons' + [MeetsStandards];
      }
    }
    PreferencesSection(place, ctx, prefs);
  }

  /** The two-tier fairness bonus, with a reason only when it is positive. */
  method ScoreFairness(place: Place, ctx: RequestContext, prefs: Option<UserPreferences>, aiScore: int, reasons: seq<Rule>)
    returns (aiScore': int, reasons': seq<Rule>)
    requires aiScore == Sum(reasons)
    ensures reasons' == reasons + Selected(FairnessRules, place, ctx, prefs)
    ensures aiScore' == Sum(reasons')
  {
    aiScore', reasons' := aiScore, reasons;
    if place.distanceScore.Some? {
      var difference := place.distanceScore.value.distanceDifference;
      var fairnessBonus := if difference < 2.0 then 20 else if difference < 5.0 then 10 else 0;
      aiScore' := aiScore' + fairnessBonus;
      if fairnessBonus > 0 {
        var tier := if fairnessBonus == 20 then VeryFair else FairEnough;
        SumPush(reasons', tier);
        reasons' := reasons' + [tier];
      }
    }
    SelectedTwo(VeryFair, FairEnough, place, ctx, prefs);
  }

  method ScoreQuality(place: Place, ctx: RequestContext, prefs: Option<UserPreferences>, aiScore: int, reasons: seq<Rule>)
    returns (aiScore': int, reasons': seq<Rule>)
    requires aiScore == Sum(reasons)
    ensures reasons' == reasons + Selected(QualityRules, place, ctx, prefs)
    ensures aiScore' == Sum(reasons')
  {
    aiScore', reasons' := aiScore, reasons;
    if AtLeast(place.rating, 4.5) {
      SumPush(reasons', HighlyRated);
      aiScore' := aiScore' + 15;
      reasons' := reasons' + [HighlyRated];
    }
    if Above(place.userRatings, 100) {
      SumPush(reasons', Popular);
      aiScore' := aiScore' + 10;
      reasons' := reasons' + [Popular];
    }
    SelectedTwo(HighlyRated, Popular, place, ctx, prefs);
  }

  method ScoreUrgency(place: Place, ctx: RequestContext, prefs: Option<UserPreferences>, aiScore: int, reasons: seq<Rule>)
    returns (aiScore': int, reasons': seq<Rule>)
    requires aiScore == Sum(reasons)
    ensures reasons' == reasons + Selected(UrgencyRules, place, ctx, prefs)
    ensures aiScore' == Sum(reasons')
  {
    aiScore', reasons' := aiScore, reasons;
    if ctx.urgency == Some(Quick) {
      if place.sourceType == Cafe {
        SumPush(reasons', QuickAndEasy);
        aiScore' := aiScore' + 15;
        reasons' := reasons' + [QuickAndEasy];
      }
    }
    SelectedOne(QuickAndEasy, place, ctx, prefs);
  }

  /** The time, weather, occasion and preference sections. */
  method ScoreLeading(place: Place, ctx: RequestContext, prefs: Option<UserPreferences>)
    returns (aiScore: int, reasons: seq<Rule>)
    ensures reasons == Selected(LeadingRules, place, ctx, prefs)
    ensures aiScore == Sum(reasons)
  {
    aiScore, reasons := 0, [];
    aiScore, reasons := ScoreTime(place, ctx, prefs, aiScore, reasons);
    aiScore, reasons := ScoreWeather(place, ctx, prefs, aiScore, reasons);
    aiScore, reasons := ScoreOccasion(place, ctx, prefs, aiScore, reasons);
    aiScore, reasons := ScorePreferences(place, ctx, prefs, aiScore, reasons);
    LeadingRulesBySection(place, ctx, prefs);
  }

  /** The fairness, quality and urgency sections. */
  method ScoreTrailing(place: Place, ctx: RequestContext, prefs: Option<UserPreferences>, aiScore: int, reasons: seq<Rule>)
    returns (aiScore': int, reasons': seq<Rule>)
    requires aiScore == Sum(reasons)
    ensures reasons' == reasons + Selected(TrailingRules, place, ctx, prefs)
    ensures aiScore' == Sum(reasons')
  {
    aiScore', reasons' := ScoreFairness(place, ctx, prefs, aiScore, reasons);
    aiScore', reasons' := ScoreQuality(place, ctx, prefs, aiScore', reasons');
    aiScore', reasons' := ScoreUrgency(place, ctx, prefs, aiScore', reasons');
    TrailingRulesBySection(place, ctx, prefs);
    assert reasons' == reasons + (Selected(FairnessRules, place, ctx, prefs) + Selected(QualityRules, place, ctx, prefs)
                                  + Selected(UrgencyRules, place, ctx, prefs));
  }

  /** The per-venue callback: the seven sections in order, then the score
      clamped at zero and the first three reasons kept. */
  method EnhancePlace(place: Place, ctx: RequestContext, prefs: Option<UserPreferences>) returns (enhanced: EnhancedPlace)
    ensures enhanced == Enhanced(place, ctx, prefs)
  {
    var aiScore, reasons := ScoreLeading(place, ctx, prefs);
    aiScore, reasons := ScoreTrailing(place, ctx, prefs, aiScore, reasons);
    SelectedAppend(LeadingRules, TrailingRules, place, ctx, prefs);
    enhanced := EnhancedPlace(place, Max0(aiScore), ReasonTexts(Take(reasons, 3)), true);
  }

  /** Every venue scored, in input order: `places.map(...)`. */
  function EnhancedAll(places: seq<Place>, ctx: RequestContext, prefs: Option<UserPreferences>): (r: seq<EnhancedPlace>)
    ensures |r| == |places|
  {
    seq(|places|, i requires 0 <= i < |places| => Enhanced(places[i], ctx, prefs))
  }

  /** The scored venues ordered by score, highest first; the engine's sort is
      stable, so ties keep their input order. */
  function Ranked(places: seq<Place>, ctx: RequestContext, prefs: Option<UserPreferences>): seq<EnhancedPlace>
  {
    SortByScoreDesc(EnhancedAll(places, ctx, prefs), ScoreOf)
  }

  /** `places.map(...)`: the callback applied to each venue in turn. */
  method EnhanceAll(places: seq<Place>, ctx: RequestContext, prefs: Option<UserPreferences>)
    returns (enhancedPlaces: seq<EnhancedPlace>)
    ensures enhancedPlaces == EnhancedAll(places, ctx, prefs)
  {
    enhancedPlaces := [];
    for i := 0 to |places|
      invariant |enhancedPlaces| == i
      invariant forall k :: 0 <= k < i ==> enhancedPlaces[k] == Enhanced(places[k], ctx, prefs)
    {
      var enhanced := EnhancePlace(places[i], ctx, prefs);
      enhancedPlaces := enhancedPlaces + [enhanced];
    }
  }

  /** The scored venues, then the in-place sort by score. */
  method RankPlaces(places: seq<Place>, ctx: RequestContext, prefs: Option<UserPreferences>)
    returns (enhancedPlaces: seq<EnhancedPlace>)
    ensures enhancedPlaces == Ranked(places, ctx, prefs)
  {
    enhancedPlaces := EnhanceAll(places, ctx, prefs);
    enhancedPlaces := SortByScoreDesc(enhancedPlaces, ScoreOf);
  }

  // ---------------------------------------------------------------------------
  // Insights.

  /** The insights the handler can add. */
  datatype Insight =
    | BusinessInsight | RomanticInsight | FamilyInsight
    | MorningInsight | EveningInsight | QualityInsight
    | Diversity(types: seq<Category>)

  /** `parts.join(sep)` */
  function Join(parts: seq<string>, sep: string): string
  {
    if parts == [] then ""
    else if |parts| == 1 then parts[0]
    else parts[0] + sep + Join(parts[1..], sep)
  }

  /** The insight as shown to the users. */
  function InsightText(insight: Insight): string
  {
    match insight
    case BusinessInsight => "💼 I found several professional meeting spots with good ratings and quiet atmospheres."
    case RomanticInsight => "💕 Perfect romantic spots with excellent ratings and intimate settings."
    case FamilyInsight => "👨‍👩‍👧‍👦 Great family-friendly options that are safe and fun for all ages."
    case MorningInsight => "☀️ Morning recommendations: Coffee shops and breakfast spots are prioritized."
    case EveningInsight => "🌙 Evening suggestions: Restaurants and dinner spots are highlighted."
    case QualityInsight => "⭐ High-quality recommendations with excellent ratings."
    case Diversity(types) =>
      "🎯 Diverse options: " + Join(seq(|types|, i requires 0 <= i < |types| => CategoryName(types[i])), ", ") + " to suit different preferences."
  }

  /** `[...new Set(s)]`: the distinct elements of `s`, in order of first occurrence. */
  function Distinct(s: seq<Category>): (d: seq<Category>)
    ensures forall x :: x in d <==> x in s
    ensures forall i, j :: 0 <= i < j < |d| ==> d[i] != d[j]
  {
    if s == [] then []
    else
      var d := Distinct(s[..|s| - 1]);
      if s[|s| - 1] in d then d else d + [s[|s| - 1]]
  }

  /** The place types of the top three venues, in order. */
  function TopTypes(places: seq<EnhancedPlace>): (types: seq<Category>)
    ensures |types| == if |places| < 3 then |places| else 3
    ensures forall i :: 0 <= i < |types| ==> types[i] == places[i].place.sourceType
  {
    var top := Take(places, 3);
    seq(|top|, i requires 0 <= i < |top| => top[i].place.sourceType)
  }

  /** `top.reduce((sum, p) => sum + (p.rating || 0), 0)` */
  function RatingSum(top: seq<EnhancedPlace>): real
  {
    if top == [] then 0.0
    else
      var p := top[|top| - 1].place;
      RatingSum(top[..|top| - 1]) + (if p.rating.Some? then p.rating.value else 0.0)
  }

  /** The average rating of the top three exceeds 4. With no venues the
      average is NaN, which exceeds nothing. */
  predicate HighAverage(places: seq<EnhancedPlace>)
  {
    var top := Take(places, 3);
    |top| > 0 && RatingSum(top) / (|top| as real) > 4.0
  }

  /** The occasion insight: for a business, romantic or family occasion only. */
  function OccasionInsights(ctx: RequestContext): seq<Insight>
  {
    match ctx.occasion
    case Some(Business) => [BusinessInsight]
    case Some(Romantic) => [RomanticInsight]
    case Some(Family) => [FamilyInsight]
    case _ => []
  }

  /** The time insight: morning before noon, evening after 18:59. */
  function TimeInsights(currentHour: int): seq<Insight>
  {
    if currentHour < 12 then [MorningInsight] else if currentHour > 18 then [EveningInsight] else []
  }

  /** The insights in the order the handler adds them, from the request
      context, the hour, whether the top three average above 4, and the top
      three's distinct types. */
  function InsightsFrom(ctx: RequestContext, currentHour: int, highQuality: bool, uniqueTypes: seq<Category>): seq<Insight>
  {
    OccasionInsights(ctx) + TimeInsights(currentHour)
    + (if highQuality then [QualityInsight] else [])
    + (if |uniqueTypes| > 1 then [Diversity(uniqueTypes)] else [])
  }

  /** The insights for the ranked venues. */
  function InsightsFor(places: seq<EnhancedPlace>, ctx: RequestContext, currentHour: int): seq<Insight>
  {
    InsightsFrom(ctx, currentHour, HighAverage(places), Distinct(TopTypes(places)))
  }

  /** `generateAIInsights`: pushes the occasion, time, quality and diversity
      insights in turn. The clock's hour is the parameter `currentHour`. */
  method GenerateAIInsights(places: seq<EnhancedPlace>, ctx: RequestContext, currentHour: int)
    returns (insights: seq<Insight>)
    ensures insights == InsightsFor(places, ctx, currentHour)
  {
    insights := [];
    var placeTypes := TopTypes(places);
    match ctx.occasion {
      case Some(Business) => insights := insights + [BusinessInsight];
      case Some(Romantic) => insights := insights + [RomanticInsight];
      case Some(Family) => insights := insights + [FamilyInsight];
      case _ =>
    }
    assert insights == OccasionInsights(ctx);
    if currentHour < 12 {
      insights := insights + [MorningInsight];
    } else if currentHour > 18 {
      insights := insights + [EveningInsight];
    }
    assert insights == OccasionInsights(ctx) + TimeInsights(currentHour);
    var highQuality := HighAverage(places);
    if highQuality {
      insights := insights + [QualityInsight];
    }
    var uniqueTypes := Distinct(placeTypes);
    if |uniqueTypes| > 1 {
      insights := insights + [Diversity(uniqueTypes)];
    }
    assert insights == InsightsFrom(ctx, currentHour, highQuality, uniqueTypes);
  }

  // ---------------------------------------------------------------------------
  // The handler.

  /** The body of a successful response. */
  datatype AiResponse = AiResponse(
    places: seq<EnhancedPlace>,
    aiInsights: seq<Insight>,
    totalPlaces: int,
    topRecommendation: Option<EnhancedPlace>)

  /** `handler`: only POST is served, and the body must carry a `places` array
      (`None` stands for a missing or non-array value); the response carries the
      ranked venues, the insights, their count and the top venue, if any. */
  method HandleAiRecommendations(httpMethod: string, places: Option<seq<Place>>,
                                 prefs: Option<UserPreferences>, ctx: RequestContext, currentHour: int)
    returns (response: Result<AiResponse, HttpError>)
    ensures httpMethod != "POST" ==> response == Err(HttpError(405, "Only POST requests are allowed"))
    ensures httpMethod == "POST" && places.None? ==> response == Err(HttpError(400, "Places array is required"))
    ensures response.Ok? <==> httpMethod == "POST" && places.Some?
    ensures response.Ok? ==>
      var r := response.value;
      && r.places == Ranked(places.value, ctx, prefs)
      && r.aiInsights == InsightsFor(r.places, ctx, currentHour)
      && r.totalPlaces == |places.value|
      && (r.topRecommendation.Some? <==> |places.value| > 0)
      && (r.topRecommendation.Some? ==> r.topRecommendation.value == r.places[0])
  {
    if httpMethod != "POST" {
      return Err(HttpError(405, "Only POST requests are allowed"));
    }
    if places.None? {
      return Err(HttpError(400, "Places array is required"));
    }
    var enhancedPlaces := RankPlaces(places.value, ctx, prefs);
    var aiInsights := GenerateAIInsights(enhancedPlaces, ctx, currentHour);
    var topRecommendation := if |enhancedPlaces| > 0 then Some(enhancedPlaces[0]) else None;
    response := Ok(AiResponse(enhancedPlaces, aiInsights, |enhancedPlaces|, topRecommendation));
  }

  // ---------------------------------------------------------------------------
  // What the scorer promises.

  /** A rule fires for a venue exactly when its condition holds. */
  lemma FiredRulesIff(place: Place, ctx: RequestContext, prefs: Option<UserPreferences>, r: Rule)
    ensures r in FiredRules(place, ctx, prefs) <==> Fires(r, place, ctx, prefs)
  {
    SelectedIff(RuleOrder, r, place, ctx, prefs);
    assert r in RuleOrder by {
      match r
      case MorningCoffee => assert RuleOrder[0] == r;
      case EveningDining => assert RuleOrder[1] == r;
      case RainyIndoor => assert RuleOrder[2] == r;
      case SunnyOutdoor => assert RuleOrder[3] == r;
      case ProfessionalSpot => assert RuleOrder[4] == r;
      case RomanticAtmosphere => assert RuleOrder[5] == r;
      case FamilyFriendly => assert RuleOrder[6] == r;
      case CasualRelaxed => assert RuleOrder[7] == r;
      case MatchesPreferences => assert RuleOrder[8] == r;
      case NotUsualChoice => assert RuleOrder[9] == r;
      case MeetsStandards => assert RuleOrder[10] == r;
      case VeryFair => assert RuleOrder[11] == r;
      case FairEnough => assert RuleOrder[12] == r;
      case HighlyRated => assert RuleOrder[13] == r;
      case Popular => assert RuleOrder[14] == r;
      case QuickAndEasy => assert RuleOrder[15] == r;
    }
  }

  /** Each rule needs its part of the request: the time, weather, occasion and
      urgency rules their context field, the preference rules the preferences,
      and the quality-standard rule a minimum rating other than zero. */
  lemma RulesNeedTheirRequestFields(place: Place, ctx: RequestContext, prefs: Option<UserPreferences>)
    ensures var fired := FiredRules(place, ctx, prefs);
      && (ctx.timeOfDay.None? ==> MorningCoffee !in fired && EveningDining !in fired)
      && (ctx.weather.None? ==> RainyIndoor !in fired && SunnyOutdoor !in fired)
      && (ctx.occasion.None? ==>
            ProfessionalSpot !in fired && RomanticAtmosphere !in fired && FamilyFriendly !in fired && CasualRelaxed !in fired)
      && (ctx.urgency != Some(Quick) ==> QuickAndEasy !in fired)
      && (prefs.None? ==> MatchesPreferences !in fired && NotUsualChoice !in fired && MeetsStandards !in fired)
      && (prefs.Some? && (prefs.value.minRating.None? || prefs.value.minRating == Some(0.0)) ==> MeetsStandards !in fired)
  {
    forall r: Rule
      ensures r in FiredRules(place, ctx, prefs) <==> Fires(r, place, ctx, prefs)
    {
      FiredRulesIff(place, ctx, prefs, r);
    }
  }

  /** The occasion `switch` awards at most one occasion bonus, and none for an
      occasion it does not know. */
  lemma AtMostOneOccasionBonus(place: Place, ctx: RequestContext, prefs: Option<UserPreferences>)
    ensures |Selected(OccasionRules, place, ctx, prefs)| <= 1
    ensures ctx.occasion.None? || ctx.occasion == Some(OtherOccasion) ==> Selected(OccasionRules, place, ctx, prefs) == []
  {
    OccasionSection(place, ctx, prefs);
  }

  /** The fairness bonus: 20 points under 2 km of difference, 10 from 2 km to
      under 5 km, nothing beyond or without fairness figures; a reason exactly
      when there are points. */
  lemma FairnessTiers(place: Place, ctx: RequestContext, prefs: Option<UserPreferences>)
    ensures var f := Selected(FairnessRules, place, ctx, prefs);
      && (place.distanceScore.None? ==> f == [])
      && (place.distanceScore.Some? ==>
           var difference := place.distanceScore.value.distanceDifference;
           && (difference < 2.0 ==> f == [VeryFair] && Sum(f) == 20)
           && (2.0 <= difference < 5.0 ==> f == [FairEnough] && Sum(f) == 10)
           && (difference >= 5.0 ==> f == []))
  {
    SelectedTwo(VeryFair, FairEnough, place, ctx, prefs);
    SumPush([], VeryFair);
    SumPush([], FairEnough);
  }

  /** Rules other than the avoided-type penalty add points. */
  lemma {:induction false} SumWithoutPenaltyIsPositive(rules: seq<Rule>)
    requires rules != [] && NotUsualChoice !in rules
    ensures Sum(rules) > 0
  {
    if |rules| > 1 {
      SumWithoutPenaltyIsPositive(rules[1..]);
    }
  }

  /** Each scored venue keeps its fields, is marked enhanced, scores the sum of
      its fired rules clamped at zero, and gives the reasons of its first three
      fired rules in order. */
  lemma EnhancedMeaning(place: Place, ctx: RequestContext, prefs: Option<UserPreferences>)
    ensures var e := Enhanced(place, ctx, prefs);
      var fired := FiredRules(place, ctx, prefs);
      && e.place == place && e.enhanced
      && e.aiScore >= 0 && e.aiScore >= Sum(fired)
      && (Sum(fired) >= 0 ==> e.aiScore == Sum(fired))
      && (Sum(fired) < 0 ==> e.aiScore == 0)
      && |e.aiReasons| == (if |fired| < 3 then |fired| else 3)
      && forall k :: 0 <= k < |e.aiReasons| ==> e.aiReasons[k] == Reason(fired[k])
  {
  }

  /** A venue scores zero only when no rule fires or its type is avoided. */
  lemma ZeroOnlyWhenNothingOrAvoided(place: Place, ctx: RequestContext, prefs: Option<UserPreferences>)
    requires Enhanced(place, ctx, prefs).aiScore == 0
    ensures FiredRules(place, ctx, prefs) == [] || NotUsualChoice in FiredRules(place, ctx, prefs)
  {
    var fired := FiredRules(place, ctx, prefs);
    if fired != [] && NotUsualChoice !in fired {
      SumWithoutPenaltyIsPositive(fired);
    }
  }

  /** A venue whose only fired rule is the avoided-type penalty of -20 is
      clamped to zero and says why. */
  lemma AvoidedOnlyScoresZero(place: Place, ctx: RequestContext, prefs: Option<UserPreferences>)
    requires FiredRules(place, ctx, prefs) == [NotUsualChoice]
    ensures Enhanced(place, ctx, prefs).aiScore == 0
    ensures Enhanced(place, ctx, prefs).aiReasons == [Reason(NotUsualChoice)]
  {
    SumPush([], NotUsualChoice);
    assert [] + [NotUsualChoice] == [NotUsualChoice];
  }

  /** The ranked list holds one scored venue per venue sent, each scored from
      a venue sent, highest score first. */
  lemma RankedMeaning(places: seq<Place>, ctx: RequestContext, prefs: Option<UserPreferences>)
    ensures var r := Ranked(places, ctx, prefs);
      && |r| == |places|
      && SortedDesc(r, ScoreOf)
      && multiset(r) == multiset(EnhancedAll(places, ctx, prefs))
      && forall i :: 0 <= i < |r| ==>
           && r[i].place in places && r[i] == Enhanced(r[i].place, ctx, prefs)
           && r[i].enhanced && r[i].aiScore >= 0 && |r[i].aiReasons| <= 3
  {
    var all := EnhancedAll(places, ctx, prefs);
    var r := Ranked(places, ctx, prefs);
    forall i | 0 <= i < |r|
      ensures r[i].place in places && r[i] == Enhanced(r[i].place, ctx, prefs)
      ensures r[i].enhanced && r[i].aiScore >= 0 && |r[i].aiReasons| <= 3
    {
      assert r[i] in multiset(all);
      var k :| 0 <= k < |all| && all[k] == r[i];
      EnhancedMeaning(places[k], ctx, prefs);
    }
  }

  /** More than one distinct type exactly when two of the types differ. */
  lemma DistinctTypesIff(types: seq<Category>)
    ensures |Distinct(types)| > 1 <==>
      exists i, j :: 0 <= i < |types| && 0 <= j < |types| && types[i] != types[j]
  {
    var d := Distinct(types);
    if |d| > 1 {
      assert d[0] != d[1];
      assert d[0] in types && d[1] in types;
      var i :| 0 <= i < |types| && types[i] == d[0];
      var j :| 0 <= j < |types| && types[j] == d[1];
    }
    if exists i, j :: 0 <= i < |types| && 0 <= j < |types| && types[i] != types[j] {
      var i, j :| 0 <= i < |types| && 0 <= j < |types| && types[i] != types[j];
      assert types[i] in d && types[j] in d;
      var a :| 0 <= a < |d| && d[a] == types[i];
      var b :| 0 <= b < |d| && d[b] == types[j];
      assert a != b;
    }
  }

  /** When the handler gives each insight other than the diversity one: the
      occasion insights for their own occasion, the morning insight before
      noon, the evening insight after 18:59, and the quality insight when the
      top three average above 4. */
  predicate Warranted(x: Insight, ctx: RequestContext, currentHour: int, highQuality: bool)
  {
    match x
    case BusinessInsight => ctx.occasion == Some(Business)
    case RomanticInsight => ctx.occasion == Some(Romantic)
    case FamilyInsight => ctx.occasion == Some(Family)
    case MorningInsight => currentHour < 12
    case EveningInsight => currentHour > 18
    case QualityInsight => highQuality
    case Diversity(_) => false
  }

  /** Every insight other than the diversity one is given exactly when it is
      warranted, the diversity insight exactly when the top three have more
      than one distinct type, and there are never more than four insights. */
  lemma InsightsIff(ctx: RequestContext, currentHour: int, highQuality: bool, uniqueTypes: seq<Category>, x: Insight)
    ensures !x.Diversity? ==>
      (x in InsightsFrom(ctx, currentHour, highQuality, uniqueTypes) <==> Warranted(x, ctx, currentHour, highQuality))
    ensures x.Diversity? ==>
      (x in InsightsFrom(ctx, currentHour, highQuality, uniqueTypes) <==> |uniqueTypes| > 1 && x.types == uniqueTypes)
    ensures |InsightsFrom(ctx, currentHour, highQuality, uniqueTypes)| <= 4
  {
    var quality := if highQuality then [QualityInsight] else [];
    var diversity := if |uniqueTypes| > 1 then [Diversity(uniqueTypes)] else [];
    assert InsightsFrom(ctx, currentHour, highQuality, uniqueTypes)
      == OccasionInsights(ctx) + TimeInsights(currentHour) + quality + diversity;
  }

  /** The top three venues have more than one distinct type exactly when two
      of them differ in type. */
  lemma TopTypesDiverseIff(places: seq<EnhancedPlace>)
    ensures |Distinct(TopTypes(places))| > 1 <==>
      exists i, j :: 0 <= i < |places| && i < 3 && 0 <= j < |places| && j < 3
        && places[i].place.sourceType != places[j].place.sourceType
  {
    var types := TopTypes(places);
    DistinctTypesIff(types);
    if exists i, j :: 0 <= i < |places| && i < 3 && 0 <= j < |places| && j < 3
        && places[i].place.sourceType != places[j].place.sourceType {
      var i, j :| 0 <= i < |places| && i < 3 && 0 <= j < |places| && j < 3
        && places[i].place.sourceType != places[j].place.sourceType;
      assert types[i] != types[j];
    }
  }
}
