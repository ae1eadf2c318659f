/** The rule-based recommender that the midpoint handler runs over its ranked
    venues: every venue gets a score and up to three reasons from a fixed list
    of rules, and the venues are re-ordered by score, highest first. */
module MidpointScoring {
  import opened Wrappers
  import opened Text
  import opened Places
  import opened ScoreSort
  import N = NlpSearch

  /** What the rules look at besides the venue: the time of day, and the
      occasion, atmosphere, features and budget asked for. */
  datatype Context = Context(
    timeOfDay: N.TimeContext,
    occasion: N.Occasion,
    atmosphere: seq<N.Atmosphere>,
    features: seq<N.Feature>,
    budget: N.Budget)

  /** Morning before noon, afternoon before six, evening after. */
  function HourTimeOfDay(currentHour: int): N.TimeContext
  {
    if currentHour < 12 then N.Morning else if currentHour < 18 then N.Afternoon else N.Evening
  }

  /** The context: taken from the search parameters when a natural-language
      query produced them, otherwise the clock's time of day and the defaults.
      Every field of the search parameters is truthy, so none falls back; in
      particular a query without a time word yields the time of day "any". */
  function ContextFor(nlpParams: Option<N.SearchParams>, currentHour: int): (ctx: Context)
    ensures nlpParams.None? ==>
      ctx == Context(HourTimeOfDay(currentHour), N.Occasion.Casual, [], [], N.Medium)
    ensures nlpParams.Some? ==>
      && ctx.timeOfDay == nlpParams.value.timeContext && ctx.occasion == nlpParams.value.occasion
      && ctx.atmosphere == nlpParams.value.atmosphere && ctx.features == nlpParams.value.features
      && ctx.budget == nlpParams.value.budget
    ensures nlpParams.None? ==> ctx.timeOfDay != N.AnyTime
  {
    if nlpParams.Some? then
      var p := nlpParams.value;
      Context(p.timeContext, p.occasion, p.atmosphere, p.features, p.budget)
    else
      Context(HourTimeOfDay(currentHour), N.Occasion.Casual, [], [], N.Medium)
  }

  /** The scoring rules, one per bonus the scorer can award. */
  datatype Rule =
    | MorningCoffee | EveningDining | HighlyRated | Popular | VeryFair | MorningCoffeeSpot
    | QuietStudy | RomanticSetting | BusinessSpot
    | WorkWifi | KidActivities | OutdoorSetting
    | FamilyGathering | ProfessionalMeeting | RomanticDinner
    | BudgetFriendly | Premium

  /** The points a rule adds. */
  function Points(r: Rule): int
  {
    match r
    case MorningCoffee => 20
    case EveningDining => 20
    case HighlyRated => 15
    case Popular => 10
    case VeryFair => 25
    case MorningCoffeeSpot => 15
    case QuietStudy => 25
    case RomanticSetting => 30
    case BusinessSpot => 20
    case WorkWifi => 20
    case KidActivities => 25
    case OutdoorSetting => 20
    case FamilyGathering => 25
    case ProfessionalMeeting => 20
    case RomanticDinner => 30
    case BudgetFriendly => 15
    case Premium => 20
  }

  /** The reason a rule gives, as shown to the users. */
  function Reason(r: Rule): string
  {
    match r
    case MorningCoffee => "☀️ Perfect for morning coffee"
    case EveningDining => "🌙 Great for evening dining"
    case HighlyRated => "🌟 Highly rated"
    case Popular => "👥 Popular choice"
    case VeryFair => "⚖️ Very fair for both users"
    case MorningCoffeeSpot => "☕ Morning coffee spot"
    case QuietStudy => "🔇 Quiet atmosphere perfect for studying"
    case RomanticSetting => "💕 Romantic setting for special occasions"
    case BusinessSpot => "💼 Professional business meeting spot"
    case WorkWifi => "📶 Great for work with WiFi"
    case KidActivities => "👨‍👩‍👧‍👦 Family-friendly with activities for kids"
    case OutdoorSetting => "🌳 Perfect outdoor setting"
    case FamilyGathering => "👨‍👩‍👧‍👦 Great for family gatherings"
    case ProfessionalMeeting => "💼 Professional meeting environment"
    case RomanticDinner => "💕 Perfect for romantic dinners"
    case BudgetFriendly => "💰 Budget-friendly option"
    case Premium => "💎 Premium quality experience"
  }

  /** The rules in the order the scorer tries them, section by section. */
  const TimeRules: seq<Rule> := [MorningCoffee, EveningDining]
  const QualityRules: seq<Rule> := [HighlyRated, Popular]
  const FairnessRules: seq<Rule> := [VeryFair]
  const ContextRules: seq<Rule> := [MorningCoffeeSpot]
  const AtmosphereRules: seq<Rule> := [QuietStudy, RomanticSetting, BusinessSpot]
  const FeatureRules: seq<Rule> := [WorkWifi, KidActivities, OutdoorSetting]
  const OccasionRules: seq<Rule> := [FamilyGathering, ProfessionalMeeting, RomanticDinner]
  const BudgetRules: seq<Rule> := [BudgetFriendly, Premium]

  /** The rules that need a natural-language query. */
  const NlpRules: seq<Rule> := AtmosphereRules + FeatureRules + OccasionRules + BudgetRules

  /** The rules that apply with or without a query. */
  const BaseRules: seq<Rule> := TimeRules + QualityRules + FairnessRules + ContextRules

  const RuleOrder: seq<Rule> := BaseRules + NlpRules

  predicate IsNlpRule(r: Rule)
  {
    r.QuietStudy? || r.RomanticSetting? || r.BusinessSpot? || r.WorkWifi? || r.KidActivities?
    || r.OutdoorSetting? || r.FamilyGathering? || r.ProfessionalMeeting? || r.RomanticDinner?
    || r.BudgetFriendly? || r.Premium?
  }

  /** A park or a shopping mall. */
  predicate FamilyVenue(place: Place)
  {
    place.sourceType == Park || place.sourceType == ShoppingMall
  }

  /** The condition under which a rule awards its points. */
  predicate Fires(r: Rule, place: Place, ctx: Context, nlpPresent: bool)
  {
    match r
    case MorningCoffee => ctx.timeOfDay == N.Morning && place.sourceType == Cafe
    case EveningDining => ctx.timeOfDay == N.Evening && place.sourceType == Restaurant
    case HighlyRated => AtLeast(place.rating, 4.5)
    case Popular => Above(place.userRatings, 100)
    case VeryFair => place.distanceScore.Some? && place.distanceScore.value.distanceDifference < 2.0
    case MorningCoffeeSpot => place.sourceType == Cafe && ctx.timeOfDay == N.Morning
    case QuietStudy => nlpPresent && N.Quiet in ctx.atmosphere && place.sourceType == Cafe
    case RomanticSetting =>
      nlpPresent && N.Atmosphere.Romantic in ctx.atmosphere && place.sourceType == Restaurant
      && AtLeast(place.rating, 4.0)
    case BusinessSpot => nlpPresent && N.Formal in ctx.atmosphere && place.sourceType == Restaurant
    case WorkWifi => nlpPresent && N.Wifi in ctx.features && place.sourceType == Cafe
    case KidActivities => nlpPresent && N.KidFriendly in ctx.features && FamilyVenue(place)
    case OutdoorSetting => nlpPresent && N.Outdoor in ctx.features && place.sourceType == Park
    case FamilyGathering => nlpPresent && ctx.occasion == N.Family && FamilyVenue(place)
    case ProfessionalMeeting => nlpPresent && ctx.occasion == N.Business && place.sourceType == Cafe
    case RomanticDinner =>
      nlpPresent && ctx.occasion == N.Occasion.Romantic && place.sourceType == Restaurant
      && AtLeast(place.rating, 4.0)
    case BudgetFriendly => nlpPresent && ctx.budget == N.Low && Below(place.rating, 4.0)
    case Premium => nlpPresent && ctx.budget == N.High && AtLeast(place.rating, 4.5)
  }

  /** The rules of `rules` that fire, in their order. */
  function Selected(rules: seq<Rule>, place: Place, ctx: Context, nlpPresent: bool): seq<Rule>
  {
    if rules == [] then []
    else (if Fires(rules[0], place, ctx, nlpPresent) then [rules[0]] else []) + Selected(rules[1..], place, ctx, nlpPresent)
  }

  /** Every rule that fires for the venue, in the order the scorer tries them. */
  function FiredRules(place: Place, ctx: Context, nlpPresent: bool): seq<Rule>
  {
    Selected(RuleOrder, place, ctx, nlpPresent)
  }

  /** The sum of the points of `rules`. */
  function Total(rules: seq<Rule>): (t: int)
    ensures t >= 0
    ensures t == 0 <==> rules == []
  {
    if rules == [] then 0 else Points(rules[0]) + Total(rules[1..])
  }

  /** `Math.max(0, x)` */
  function Max0(x: int): int
  {
    if x < 0 then 0 else x
  }

  /** The reasons of `rules`, in order. */
  function ReasonTexts(rules: seq<Rule>): (texts: seq<string>)
    ensures |texts| == |rules|
    ensures forall i :: 0 <= i < |rules| ==> texts[i] == Reason(rules[i])
  {
    seq(|rules|, i requires 0 <= i < |rules| => Reason(rules[i]))
  }

  /** A venue with its recommendation. */
  datatype AiPlace = AiPlace(place: Place, aiScore: int, aiReasons: seq<string>, aiEnhanced: bool)

  function AiScoreOf(p: AiPlace): int
  {
    p.aiScore
  }

  /** The recommendation the scorer gives one venue. */
  function ScoredPlace(place: Place, ctx: Context, nlpPresent: bool): AiPlace
  {
    var fired := FiredRules(place, ctx, nlpPresent);
    AiPlace(place, Max0(Total(fired)), ReasonTexts(Take(fired, 3)), true)
  }

  lemma {:induction false} SelectedAppend(a: seq<Rule>, b: seq<Rule>, place: Place, ctx: Context, nlpPresent: bool)
    ensures Selected(a + b, place, ctx, nlpPresent) == Selected(a, place, ctx, nlpPresent) + Selected(b, place, ctx, nlpPresent)
  {
    if a != [] {
      assert (a + b)[1..] == a[1..] + b;
      SelectedAppend(a[1..], b, place, ctx, nlpPresent);
    } else {
      assert a + b == b;
    }
  }

  /** A rule is selected exactly when it is one of `rules` and fires. */
  lemma {:induction false} SelectedIff(rules: seq<Rule>, r: Rule, place: Place, ctx: Context, nlpPresent: bool)
    ensures r in Selected(rules, place, ctx, nlpPresent) <==> r in rules && Fires(r, place, ctx, nlpPresent)
  {
    if rules != [] {
      SelectedIff(rules[1..], r, place, ctx, nlpPresent);
      assert rules == [rules[0]] + rules[1..];
    }
  }

  lemma {:induction false} TotalAppend(a: seq<Rule>, b: seq<Rule>)
    ensures Total(a + b) == Total(a) + Total(b)
  {
    if a != [] {
      assert (a + b)[1..] == a[1..] + b;
      TotalAppend(a[1..], b);
    } else {
      assert a + b == b;
    }
  }

  lemma SelectedOne(x: Rule, place: Place, ctx: Context, nlpPresent: bool)
    ensures Selected([x], place, ctx, nlpPresent) == if Fires(x, place, ctx, nlpPresent) then [x] else []
  {
    assert [x][1..] == [];
  }

  lemma SelectedTwo(x: Rule, y: Rule, place: Place, ctx: Context, nlpPresent: bool)
    ensures Selected([x, y], place, ctx, nlpPresent)
      == (if Fires(x, place, ctx, nlpPresent) then [x] else []) + (if Fires(y, place, ctx, nlpPresent) then [y] else [])
  {
    assert [x, y][1..] == [y];
    SelectedOne(y, place, ctx, nlpPresent);
  }

  lemma SelectedThree(x: Rule, y: Rule, z: Rule, place: Place, ctx: Context, nlpPresent: bool)
    ensures Selected([x, y, z], place, ctx, nlpPresent)
      == (if Fires(x, place, ctx, nlpPresent) then [x] else []) + (if Fires(y, place, ctx, nlpPresent) then [y] else [])
         + (if Fires(z, place, ctx, nlpPresent) then [z] else [])
  {
    assert [x, y, z][1..] == [y, z];
    SelectedTwo(y, z, place, ctx, nlpPresent);
  }

  /** Without a natural-language query none of its rules fires. */
  lemma {:induction false} NoNlpRuleWithoutQuery(rules: seq<Rule>, place: Place, ctx: Context)
    requires forall i :: 0 <= i < |rules| ==> IsNlpRule(rules[i])
    ensures Selected(rules, place, ctx, false) == []
  {
    if rules != [] {
      NoNlpRuleWithoutQuery(rules[1..], place, ctx);
    }
  }

  lemma BaseRulesBySection(place: Place, ctx: Context, nlpPresent: bool)
    ensures Selected(BaseRules, place, ctx, nlpPresent)
      == Selected(TimeRules, place, ctx, nlpPresent) + Selected(QualityRules, place, ctx, nlpPresent)
         + Selected(FairnessRules, place, ctx, nlpPresent) + Selected(ContextRules, place, ctx, nlpPresent)
  {
    var t := TimeRules;
    var q := QualityRules;
    var f := FairnessRules;
    SelectedAppend(t + q + f, ContextRules, place, ctx, nlpPresent);
    SelectedAppend(t + q, f, place, ctx, nlpPresent);
    SelectedAppend(t, q, place, ctx, nlpPresent);
  }

  lemma NlpRulesBySection(place: Place, ctx: Context)
    ensures Selected(NlpRules, place, ctx, true)
      == Selected(AtmosphereRules, place, ctx, true) + Selected(FeatureRules, place, ctx, true)
         + Selected(OccasionRules, place, ctx, true) + Selected(BudgetRules, place, ctx, true)
  {
    var a := AtmosphereRules;
    var f := FeatureRules;
    SelectedAppend(a + f + OccasionRules, BudgetRules, place, ctx, true);
    SelectedAppend(a + f, OccasionRules, place, ctx, true);
    SelectedAppend(a, f, place, ctx, true);
  }

  /** The fired rules: those of the base sections, then, with a query, those
      of the query-specific sections. */
  lemma FiredRulesSplit(place: Place, ctx: Context, nlpPresent: bool)
    ensures FiredRules(place, ctx, nlpPresent)
      == Selected(BaseRules, place, ctx, nlpPresent)
         + (if nlpPresent then Selected(NlpRules, place, ctx, true) else [])
  {
    SelectedAppend(BaseRules, NlpRules, place, ctx, nlpPresent);
    if !nlpPresent {
      NoNlpRuleWithoutQuery(NlpRules, place, ctx);
    }
  }

  // ---------------------------------------------------------------------------
  // The scorer, section by section. Each section receives the running score
  // and the rules fired so far (standing for their reasons), and adds its own.

  /** Adding one rule adds its points. */
  lemma TotalPush(rules: seq<Rule>, r: Rule)
    ensures Total(rules + [r]) == Total(rules) + Points(r)
  {
    TotalAppend(rules, [r]);
    assert [r][1..] == [];
  }

  /** One `if (condition) { aiScore += points; aiReasons.push(reason) }` step. */
  method Award(condition: bool, rule: Rule, aiScore: int, aiReasons: seq<Rule>)
    returns (aiScore': int, aiReasons': seq<Rule>)
    requires aiScore == Total(aiReasons)
    ensures aiReasons' == aiReasons + (if condition then [rule] else [])
    ensures aiScore' == Total(aiReasons')
  {
    if condition {
      TotalPush(aiReasons, rule);
      aiScore', aiReasons' := aiScore + Points(rule), aiReasons + [rule];
    } else {
      aiScore', aiReasons' := aiScore, aiReasons;
      assert aiReasons + [] == aiReasons;
    }
  }

  /** The time-of-day bonuses: which of its rules fire, in order. */
  lemma TimeSection(place: Place, ctx: Context, nlpPresent: bool)
    ensures Selected(TimeRules, place, ctx, nlpPresent)
      == (if ctx.timeOfDay == N.Morning && place.sourceType == Cafe then [MorningCoffee] else [])
       + (if ctx.timeOfDay == N.Evening && place.sourceType == Restaurant then [EveningDining] else [])
  {
    SelectedTwo(MorningCoffee, EveningDining, place, ctx, nlpPresent);
  }

  method ScoreTime(place: Place, ctx: Context, nlpPresent: bool, aiScore: int, aiReasons: seq<Rule>)
    returns (aiScore': int, aiReasons': seq<Rule>)
    requires aiScore == Total(aiReasons)
    ensures aiReasons' == aiReasons + Selected(TimeRules, place, ctx, nlpPresent)
    ensures aiScore' == Total(aiReasons')
  {
    aiScore', aiReasons' := Award(ctx.timeOfDay == N.Morning && place.sourceType == Cafe,
      MorningCoffee, aiScore, aiReasons);
    aiScore', aiReasons' := Award(ctx.timeOfDay == N.Evening && place.sourceType == Restaurant,
      EveningDining, aiScore', aiReasons');
    TimeSection(place, ctx, nlpPresent);
  }

  /** The rating and popularity bonuses: which of its rules fire, in order. */
  lemma QualitySection(place: Place, ctx: Context, nlpPresent: bool)
    ensures Selected(QualityRules, place, ctx, nlpPresent)
      == (if AtLeast(place.rating, 4.5) then [HighlyRated] else [])
       + (if Above(place.userRatings, 100) then [Popular] else [])
  {
    SelectedTwo(HighlyRated, Popular, place, ctx, nlpPresent);
  }

  method ScoreQuality(place: Place, ctx: Context, nlpPresent: bool, aiScore: int, aiReasons: seq<Rule>)
    returns (aiScore': int, aiReasons': seq<Rule>)
    requires aiScore == Total(aiReasons)
    ensures aiReasons' == aiReasons + Selected(QualityRules, place, ctx, nlpPresent)
    ensures aiScore' == Total(aiReasons')
  {
    aiScore', aiReasons' := Award(AtLeast(place.rating, 4.5),
      HighlyRated, aiScore, aiReasons);
    aiScore', aiReasons' := Award(Above(place.userRatings, 100),
      Popular, aiScore', aiReasons');
    QualitySection(place, ctx, nlpPresent);
  }

  /** The fairness bonus: which of its rules fire, in order. */
  lemma FairnessSection(place: Place, ctx: Context, nlpPresent: bool)
    ensures Selected(FairnessRules, place, ctx, nlpPresent)
      == (if place.distanceScore.Some? && place.distanceScore.value.distanceDifference < 2.0 then [VeryFair] else [])
  {
    SelectedOne(VeryFair, place, ctx, nlpPresent);
  }

  method ScoreFairness(place: Place, ctx: Context, nlpPresent: bool, aiScore: int, aiReasons: seq<Rule>)
    returns (aiScore': int, aiReasons': seq<Rule>)
    requires aiScore == Total(aiReasons)
    ensures aiReasons' == aiReasons + Selected(FairnessRules, place, ctx, nlpPresent)
    ensures aiScore' == Total(aiReasons')
  {
    aiScore', aiReasons' := Award(place.distanceScore.Some? && place.distanceScore.value.distanceDifference < 2.0,
      VeryFair, aiScore, aiReasons);
    FairnessSection(place, ctx, nlpPresent);
  }

  /** The morning-cafe context bonus: which of its rules fire, in order. */
  lemma ContextSection(place: Place, ctx: Context, nlpPresent: bool)
    ensures Selected(ContextRules, place, ctx, nlpPresent)
      == (if place.sourceType == Cafe && ctx.timeOfDay == N.Morning then [MorningCoffeeSpot] else [])
  {
    SelectedOne(MorningCoffeeSpot, place, ctx, nlpPresent);
  }

  method ScoreContext(place: Place, ctx: Context, nlpPresent: bool, aiScore: int, aiReasons: seq<Rule>)
    returns (aiScore': int, aiReasons': seq<Rule>)
    requires aiScore == Total(aiReasons)
    ensures aiReasons' == aiReasons + Selected(ContextRules, place, ctx, nlpPresent)
    ensures aiScore' == Total(aiReasons')
  {
    aiScore', aiReasons' := Award(place.sourceType == Cafe && ctx.timeOfDay == N.Morning,
      MorningCoffeeSpot, aiScore, aiReasons);
    ContextSection(place, ctx, nlpPresent);
  }

  /** The atmosphere bonuses of the query: which of its rules fire, in order. */
  lemma AtmosphereSection(place: Place, ctx: Context)
    ensures Selected(AtmosphereRules, place, ctx, true)
      == (if N.Quiet in ctx.atmosphere && place.sourceType == Cafe then [QuietStudy] else [])
       + (if N.Atmosphere.Romantic in ctx.atmosphere && place.sourceType == Restaurant && AtLeast(place.rating, 4.0) then [RomanticSetting] else [])
       + (if N.Formal in ctx.atmosphere && place.sourceType == Restaurant then [BusinessSpot] else [])
  {
    SelectedThree(QuietStudy, RomanticSetting, BusinessSpot, place, ctx, true);
  }

  method ScoreAtmosphere(place: Place, ctx: Context, nlpPresent: bool, aiScore: int, aiReasons: seq<Rule>)
    returns (aiScore': int, aiReasons': seq<Rule>)
    requires nlpPresent
    requires aiScore == Total(aiReasons)
    ensures aiReasons' == aiReasons + Selected(AtmosphereRules, place, ctx, nlpPresent)
    ensures aiScore' == Total(aiReasons')
  {
    aiScore', aiReasons' := Award(N.Quiet in ctx.atmosphere && place.sourceType == Cafe,
      QuietStudy, aiScore, aiReasons);
    aiScore', aiReasons' := Award(N.Atmosphere.Romantic in ctx.atmosphere && place.sourceType == Restaurant && AtLeast(place.rating, 4.0),
      RomanticSetting, aiScore', aiReasons');
    aiScore', aiReasons' := Award(N.Formal in ctx.atmosphere && place.sourceType == Restaurant,
      BusinessSpot, aiScore', aiReasons');
    AtmosphereSection(place, ctx);
  }

  /** The feature bonuses of the query: which of its rules fire, in order. */
  lemma FeatureSection(place: Place, ctx: Context)
    ensures Selected(FeatureRules, place, ctx, true)
      == (if N.Wifi in ctx.features && place.sourceType == Cafe then [WorkWifi] else [])
       + (if N.KidFriendly in ctx.features && (place.sourceType == Park || place.sourceType == ShoppingMall) then [KidActivities] else [])
       + (if N.Outdoor in ctx.features && place.sourceType == Park then [OutdoorSetting] else [])
  {
    SelectedThree(WorkWifi, KidActivities, OutdoorSetting, place, ctx, true);
  }

  method ScoreFeatures(place: Place, ctx: Context, nlpPresent: bool, aiScore: int, aiReasons: seq<Rule>)
    returns (aiScore': int, aiReasons': seq<Rule>)
    requires nlpPresent
    requires aiScore == Total(aiReasons)
    ensures aiReasons' == aiReasons + Selected(FeatureRules, place, ctx, nlpPresent)
    ensures aiScore' == Total(aiReasons')
  {
    aiScore', aiReasons' := Award(N.Wifi in ctx.features && place.sourceType == Cafe,
      WorkWifi, aiScore, aiReasons);
    aiScore', aiReasons' := Award(N.KidFriendly in ctx.features && (place.sourceType == Park || place.sourceType == ShoppingMall),
      KidActivities, aiScore', aiReasons');
    aiScore', aiReasons' := Award(N.Outdoor in ctx.features && place.sourceType == Park,
      OutdoorSetting, aiScore', aiReasons');
    FeatureSection(place, ctx);
  }

  /** The occasion bonuses of the query: which of its rules fire, in order. */
  lemma OccasionSection(place: Place, ctx: Context)
    ensures Selected(OccasionRules, place, ctx, true)
      == (if ctx.occasion == N.Family && (place.sourceType == Park || place.sourceType == ShoppingMall) then [FamilyGathering] else [])
       + (if ctx.occasion == N.Business && place.sourceType == Cafe then [ProfessionalMeeting] else [])
       + (if ctx.occasion == N.Occasion.Romantic && place.sourceType == Restaurant && AtLeast(place.rating, 4.0) then [RomanticDinner] else [])
  {
    SelectedThree(FamilyGathering, ProfessionalMeeting, RomanticDinner, place, ctx, true);
  }

  method ScoreOccasion(place: Place, ctx: Context, nlpPresent: bool, aiScore: int, aiReasons: seq<Rule>)
    returns (aiScore': int, aiReasons': seq<Rule>)
    requires nlpPresent
    requires aiScore == Total(aiReasons)
    ensures aiReasons' == aiReasons + Selected(OccasionRules, place, ctx, nlpPresent)
    ensures aiScore' == Total(aiReasons')
  {
    aiScore', aiReasons' := Award(ctx.occasion == N.Family && (place.sourceType == Park || place.sourceType == ShoppingMall),
      FamilyGathering, aiScore, aiReasons);
    aiScore', aiReasons' := Award(ctx.occasion == N.Business && place.sourceType == Cafe,
      ProfessionalMeeting, aiScore', aiReasons');
    aiScore', aiReasons' := Award(ctx.occasion == N.Occasion.Romantic && place.sourceType == Restaurant && AtLeast(place.rating, 4.0),
      RomanticDinner, aiScore', aiReasons');
    OccasionSection(place, ctx);
  }

  /** The budget bonuses of the query: which of its rules fire, in order. */
  lemma BudgetSection(place: Place, ctx: Context)
    ensures Selected(BudgetRules, place, ctx, true)
      == (if ctx.budget == N.Low && Below(place.rating, 4.0) then [BudgetFriendly] else [])
       + (if ctx.budget == N.High && AtLeast(place.rating, 4.5) then [Premium] else [])
  {
    SelectedTwo(BudgetFriendly, Premium, place, ctx, true);
  }

  method ScoreBudget(place: Place, ctx: Context, nlpPresent: bool, aiScore: int, aiReasons: seq<Rule>)
    returns (aiScore': int, aiReasons': seq<Rule>)
    requires nlpPresent
    requires aiScore == Total(aiReasons)
    ensures aiReasons' == aiReasons + Selected(BudgetRules, place, ctx, nlpPresent)
    ensures aiScore' == Total(aiReasons')
  {
    aiScore', aiReasons' := Award(ctx.budget == N.Low && Below(place.rating, 4.0),
      BudgetFriendly, aiScore, aiReasons);
    aiScore', aiReasons' := Award(ctx.budget == N.High && AtLeast(place.rating, 4.5),
      Premium, aiScore', aiReasons');
    BudgetSection(place, ctx);
  }

  /** The time, quality, fairness and context sections. */
  method ScoreBase(place: Place, ctx: Context, nlpPresent: bool) returns (aiScore: int, aiReasons: seq<Rule>)
    ensures aiReasons == Selected(BaseRules, place, ctx, nlpPresent)
    ensures aiScore == Total(aiReasons)
  {
    aiScore, aiReasons := 0, [];
    aiScore, aiReasons := ScoreTime(place, ctx, nlpPresent, aiScore, aiReasons);
    aiScore, aiReasons := ScoreQuality(place, ctx, nlpPresent, aiScore, aiReasons);
    aiScore, aiReasons := ScoreFairness(place, ctx, nlpPresent, aiScore, aiReasons);
    aiScore, aiReasons := ScoreContext(place, ctx, nlpPresent, aiScore, aiReasons);
    BaseRulesBySection(place, ctx, nlpPresent);
  }

  /** The query-specific sections, run only when there is a query. */
  method ScoreQuery(place: Place, ctx: Context, aiScore: int, aiReasons: seq<Rule>)
    returns (aiScore': int, aiReasons': seq<Rule>)
    requires aiScore == Total(aiReasons)
    ensures aiReasons' == aiReasons + Selected(NlpRules, place, ctx, true)
    ensures aiScore' == Total(aiReasons')
  {
    aiScore', aiReasons' := ScoreAtmosphere(place, ctx, true, aiScore, aiReasons);
    aiScore', aiReasons' := ScoreFeatures(place, ctx, true, aiScore', aiReasons');
    aiScore', aiReasons' := ScoreOccasion(place, ctx, true, aiScore', aiReasons');
    aiScore', aiReasons' := ScoreBudget(place, ctx, true, aiScore', aiReasons');
    NlpRulesBySection(place, ctx);
    assert aiReasons' == aiReasons + (Selected(AtmosphereRules, place, ctx, true) + Selected(FeatureRules, place, ctx, true)
                                      + Selected(OccasionRules, place, ctx, true) + Selected(BudgetRules, place, ctx, true));
  }

  /** The per-venue callback: runs the sections in order, the query-specific
      ones only when there is a query, then clamps the score at zero and keeps
      the first three reasons. */
  method ScorePlace(place: Place, ctx: Context, nlpPresent: bool) returns (scored: AiPlace)
    ensures scored == ScoredPlace(place, ctx, nlpPresent)
  {
    var aiScore, aiReasons := ScoreBase(place, ctx, nlpPresent);
    if nlpPresent {
      aiScore, aiReasons := ScoreQuery(place, ctx, aiScore, aiReasons);
    } else {
      assert aiReasons == aiReasons + [];
    }
    FiredRulesSplit(place, ctx, nlpPresent);
    scored := AiPlace(place, Max0(aiScore), ReasonTexts(Take(aiReasons, 3)), true);
  }

  /** Every venue scored, in input order. */
  function ScoredAll(places: seq<Place>, ctx: Context, nlpPresent: bool): (r: seq<AiPlace>)
    ensures |r| == |places|
  {
    seq(|places|, i requires 0 <= i < |places| => ScoredPlace(places[i], ctx, nlpPresent))
  }

  /** What the recommender returns: every venue scored, ordered by score,
      highest first, ties in input order. */
  function Recommended(places: seq<Place>, nlpParams: Option<N.SearchParams>, currentHour: int): seq<AiPlace>
  {
    SortByScoreDesc(ScoredAll(places, ContextFor(nlpParams, currentHour), nlpParams.Some?), AiScoreOf)
  }

  /** `applyAIRecommendations`: the clock's hour is the parameter `currentHour`.
      The two user locations it also receives are not used. */
  method ApplyAIRecommendations(places: seq<Place>, nlpParams: Option<N.SearchParams>, currentHour: int)
    returns (result: seq<AiPlace>)
    ensures result == Recommended(places, nlpParams, currentHour)
  {
    var context := ContextFor(nlpParams, currentHour);
    var scored: seq<AiPlace> := [];
    for i := 0 to |places|
      invariant |scored| == i
      invariant forall k :: 0 <= k < i ==> scored[k] == ScoredPlace(places[k], context, nlpParams.Some?)
    {
      var s := ScorePlace(places[i], context, nlpParams.Some?);
      scored := scored + [s];
    }
    assert scored == ScoredAll(places, context, nlpParams.Some?);
    result := SortByScoreDesc(scored, AiScoreOf);
  }

  // ---------------------------------------------------------------------------
  // What the recommendations promise.

  /** A rule fires for a venue exactly when its condition holds. */
  lemma FiredRulesIff(place: Place, ctx: Context, nlpPresent: bool, r: Rule)
    ensures r in FiredRules(place, ctx, nlpPresent) <==> Fires(r, place, ctx, nlpPresent)
  {
    SelectedIff(RuleOrder, r, place, ctx, nlpPresent);
    assert r in RuleOrder by {
      match r
      case MorningCoffee => assert RuleOrder[0] == r;
      case EveningDining => assert RuleOrder[1] == r;
      case HighlyRated => assert RuleOrder[2] == r;
      case Popular => assert RuleOrder[3] == r;
      case VeryFair => assert RuleOrder[4] == r;
      case MorningCoffeeSpot => assert RuleOrder[5] == r;
      case QuietStudy => assert RuleOrder[6] == r;
      case RomanticSetting => assert RuleOrder[7] == r;
      case BusinessSpot => assert RuleOrder[8] == r;
      case WorkWifi => assert RuleOrder[9] == r;
      case KidActivities => assert RuleOrder[10] == r;
      case OutdoorSetting => assert RuleOrder[11] == r;
      case FamilyGathering => assert RuleOrder[12] == r;
      case ProfessionalMeeting => assert RuleOrder[13] == r;
      case RomanticDinner => assert RuleOrder[14] == r;
      case BudgetFriendly => assert RuleOrder[15] == r;
      case Premium => assert RuleOrder[16] == r;
    }
  }

  /** Without a natural-language query, only the time, quality, fairness and
      context rules can fire. */
  lemma QueryRulesNeedAQuery(place: Place, ctx: Context)
    ensures forall r :: r in FiredRules(place, ctx, false) ==> !IsNlpRule(r)
  {
    forall r | r in FiredRules(place, ctx, false) ensures !IsNlpRule(r) {
      FiredRulesIff(place, ctx, false, r);
    }
  }

  /** A cafe in the morning collects both the morning-coffee bonus and the
      morning-coffee-spot bonus: at least 35 points. */
  lemma MorningCafeScoresTwice(place: Place, ctx: Context, nlpPresent: bool)
    requires ctx.timeOfDay == N.Morning && place.sourceType == Cafe
    ensures MorningCoffee in FiredRules(place, ctx, nlpPresent)
    ensures MorningCoffeeSpot in FiredRules(place, ctx, nlpPresent)
    ensures ScoredPlace(place, ctx, nlpPresent).aiScore >= 35
    ensures Reason(MorningCoffee) in ScoredPlace(place, ctx, nlpPresent).aiReasons
  {
    FiredRulesSplit(place, ctx, nlpPresent);
    BaseRulesBySection(place, ctx, nlpPresent);
    SelectedTwo(MorningCoffee, EveningDining, place, ctx, nlpPresent);
    SelectedOne(MorningCoffeeSpot, place, ctx, nlpPresent);
    var t := Selected(TimeRules, place, ctx, nlpPresent);
    var q := Selected(QualityRules, place, ctx, nlpPresent);
    var f := Selected(FairnessRules, place, ctx, nlpPresent);
    var c := Selected(ContextRules, place, ctx, nlpPresent);
    var rest := FiredRules(place, ctx, nlpPresent)[|t + q + f + c|..];
    assert t == [MorningCoffee] && c == [MorningCoffeeSpot];
    assert FiredRules(place, ctx, nlpPresent) == t + q + f + c + rest;
    TotalAppend(t + q + f + c, rest);
    TotalAppend(t + q + f, c);
    TotalAppend(t + q, f);
    TotalAppend(t, q);
    assert Take(FiredRules(place, ctx, nlpPresent), 3)[0] == MorningCoffee;
  }

  /** With a query that names no time of day, the time of day is "any" and no
      time rule fires, whatever the clock says. */
  lemma AnyTimeSilencesTimeRules(place: Place, nlpParams: Option<N.SearchParams>, currentHour: int)
    requires nlpParams.Some? && nlpParams.value.timeContext == N.AnyTime
    ensures var fired := FiredRules(place, ContextFor(nlpParams, currentHour), true);
      MorningCoffee !in fired && EveningDining !in fired && MorningCoffeeSpot !in fired
  {
    var ctx := ContextFor(nlpParams, currentHour);
    FiredRulesIff(place, ctx, true, MorningCoffee);
    FiredRulesIff(place, ctx, true, EveningDining);
    FiredRulesIff(place, ctx, true, MorningCoffeeSpot);
  }

  /** Each recommendation keeps its venue, is marked enhanced, scores the
      points of its fired rules (at least zero, and zero exactly when no rule
      fires), and gives the reasons of its first three fired rules in order. */
  lemma ScoredPlaceMeaning(place: Place, ctx: Context, nlpPresent: bool)
    ensures var s := ScoredPlace(place, ctx, nlpPresent);
      && s.place == place && s.aiEnhanced
      && s.aiScore == Total(FiredRules(place, ctx, nlpPresent))
      && s.aiScore >= 0
      && (s.aiScore == 0 <==> FiredRules(place, ctx, nlpPresent) == [])
      && |s.aiReasons| <= 3
      && |s.aiReasons| == (if |FiredRules(place, ctx, nlpPresent)| < 3 then |FiredRules(place, ctx, nlpPresent)| else 3)
      && forall k :: 0 <= k < |s.aiReasons| ==> s.aiReasons[k] == Reason(FiredRules(place, ctx, nlpPresent)[k])
  {
  }

  /** The recommender returns as many venues as it was given, each one an input
      venue scored against the request's context, ordered by score with the
      highest first. */
  lemma RecommendedMeaning(places: seq<Place>, nlpParams: Option<N.SearchParams>, currentHour: int)
    ensures var r := Recommended(places, nlpParams, currentHour);
      && |r| == |places|
      && SortedDesc(r, AiScoreOf)
      && multiset(r) == multiset(ScoredAll(places, ContextFor(nlpParams, currentHour), nlpParams.Some?))
      && forall i :: 0 <= i < |r| ==>
           && r[i].place in places
           && r[i] == ScoredPlace(r[i].place, ContextFor(nlpParams, currentHour), nlpParams.Some?)
           && r[i].aiEnhanced && r[i].aiScore >= 0 && |r[i].aiReasons| <= 3
  {
    var ctx := ContextFor(nlpParams, currentHour);
    var scored := ScoredAll(places, ctx, nlpParams.Some?);
    var r := Recommended(places, nlpParams, currentHour);
    forall i | 0 <= i < |r|
      ensures r[i].place in places && r[i] == ScoredPlace(r[i].place, ctx, nlpParams.Some?)
      ensures r[i].aiEnhanced && r[i].aiScore >= 0 && |r[i].aiReasons| <= 3
    {
      assert r[i] in multiset(scored);
      var k :| 0 <= k < |scored| && scored[k] == r[i];
      ScoredPlaceMeaning(places[k], ctx, nlpParams.Some?);
    }
  }
}
