# meetmid venue selection, modelled in Dafny

meetmid suggests a meeting place for two people. Three HTTP handlers hold the
logic:

- `/api/midpoint` checks the two locations and optionally reads a free-text
  query. It searches the places service category by category and admits
  results by type, rating, rating count and a name denylist. It keeps venues
  within twice the users' separation of both users, at most two venues per
  brand. It then attaches fairness figures, sorts by a tolerance comparator
  and finally re-orders the venues with a rule-based recommendation score.
- `/api/nlp-search` lower-cases the query and matches it by substring
  against fixed vocabularies. This gives a structured intent, search
  parameters (place types, minimum rating, bonus table) and suggestion texts.
- `/api/ai-recommendations` is a standalone scorer with its own rule table.
  It has weather, occasion, preference, fairness-tier and urgency rules. It
  clamps at zero, keeps three reasons, sorts by score and adds insights
  about the top three.

The Dafny modules follow that structure:

- `Places`: shared records.
- `Candidates`: search table, admission and the category loop.
- `Fairness`: distance filter and balanced score.
- `Brands`: brand key and the de-duplication loop.
- `Ranking`: tolerance comparator and the in-place sort.
- `MidpointScoring`: `applyAIRecommendations`.
- `Midpoint`: the handler.
- `NlpSearch`, with the worked example in `NlpSearchExample`.
- `AiRecommendations`.
- Helpers: `Text` (ASCII lower-casing, substring search), `Seqs`
  (subsequences, filter) and `ScoreSort` (the stable descending sort both
  scorers use).

Code that updates variables step by step is written as methods with loops or
step-wise assignments. Each method is proved equal to a specification
function, and the properties are proved about that function. In-place sorts
keep an `array`.

These are parameters:

- the places service: `fetch`
- the great-circle distance: `dist`
- the geographic midpoint: an `Option`, `None` when it is not a number
- the clock's hour: `currentHour`
- whether the handler's call to the natural-language endpoint succeeds:
  `nlpReachable`

## Model

| member | source | states |
|---|---|---|
| Midpoint.CheckRequest | pages/api/midpoint.js:282-296 | A non-POST request gets 405. A missing location gets 400 "Missing locations". Identical coordinates get 400 "Locations must be different". The request is accepted exactly when none of these applies. |
| Midpoint.NlpParamsFor | pages/api/midpoint.js:299-313 | There are search parameters exactly when a non-empty query was sent and the endpoint answered. They then name at least one place type and never hotels. |
| Midpoint.ReadQuery | pages/api/midpoint.js:299-313 | The call to the natural-language handler gives exactly the parameters `NlpParamsFor` describes. |
| Midpoint.ReportedMidpoint | pages/api/midpoint.js:317-330 | Reports the geographic midpoint when it is a number. Otherwise it reports the point equidistant in latitude and longitude from both users. |
| Midpoint.QueryNarrowsSearch | pages/api/midpoint.js:335-348 | With a read query, the hotel row is never searched and at least one row is. Without one, all five rows are searched. |
| Midpoint.NarrowedRows | pages/api/midpoint.js:343-348 | Parameters that name a type and no hotels keep a row and drop the hotel row. |
| Midpoint.HandleMidpoint | pages/api/midpoint.js:281-479 | A rejected request returns the check's error. An accepted one returns `aiEnabled`, the reported midpoint, and the recommender's ordering of some fairness order of the shortlist. |
| Midpoint.RankCandidates | pages/api/midpoint.js:350-472 | The pipeline result is the recommender applied to a fairness order of the shortlist. The shortlist is the gathered venues, filtered by distance, de-duplicated by brand and given fairness figures. |
| Midpoint.OrderByFairness | pages/api/midpoint.js:459-466 | Sorting in an array gives a permutation of the shortlist in which no neighbouring pair is out of comparator order. |
| Midpoint.ShortlistMeaning | pages/api/midpoint.js:353-456 | Every shortlisted venue passed admission under its category and came from a successful search of that category. It lies in range of both users and carries its own fairness figures. |
| Midpoint.InRangeAreEligible | pages/api/midpoint.js:360-417 | Every venue that survives the distance filter was admitted, was found by a successful search and is in range. |
| Midpoint.ShortlistBrandLimit | pages/api/midpoint.js:425-456 | No brand appears more than twice in the shortlist. |
| Midpoint.AttachKeepsBrandCounts | pages/api/midpoint.js:450-456 | Attaching fairness figures keeps every brand's count. |
| Midpoint.ResponseMeaning | pages/api/midpoint.js:459-477 | The response has one venue per shortlisted venue. Each is the scoring of a shortlisted venue, and they are ordered by score, highest first. |
| Candidates.SearchRows | pages/api/midpoint.js:335-348 | Without parameters, or with an empty type list, all table rows are searched. Otherwise a table row is kept exactly when its category is named. The rows keep table order. |
| Candidates.CollectCandidates | pages/api/midpoint.js:350-413 | The category loop builds exactly `Gathered`. Each search whose status is "OK" appends its admitted results in order, tagged with the row's category. |
| Candidates.GatheredAreAdmitted | pages/api/midpoint.js:360-366 | Every gathered venue passes the admission test under its own category: the type matches, the rating (missing as 0) is at least 3.5, the count (missing as 0) is over 30, and the name holds no denylist word. It was found by a row of its category whose search succeeded. |
| Candidates.AdmittedResultsAreGathered | pages/api/midpoint.js:360-409 | Conversely, every admitted result of a successful search is gathered. |
| Candidates.DenylistMatchesInsideWords | pages/api/midpoint.js:365 | A name containing "car" anywhere, in any case, is refused. |
| Fairness.FilterPlacesByDistance | pages/api/midpoint.js:140-163 | The result is a subsequence of the input. A venue is kept exactly when its distance from each user is at most the ratio times the users' separation. |
| Fairness.DistanceFilterMultiplicity | pages/api/midpoint.js:150-162 | A venue in range keeps all its copies, and a venue out of range keeps none. |
| Fairness.BalancedDistanceScore | pages/api/midpoint.js:166-189 | The figures hold the two distances and a non-negative difference equal to one of their differences. The total is the sum of the two distances, and the balanced score is the difference plus a tenth of the total. For non-negative distances the balanced score is between the difference and 1.1 times the total, and is zero exactly when both distances are zero. |
| Fairness.BalancedScoreIsSymmetric | pages/api/midpoint.js:166-189 | Swapping the users swaps the two distances and changes nothing else. |
| Fairness.EvenerVenueScoresLower | pages/api/midpoint.js:171-178 | At equal total distance, the more even venue has the lower balanced score. |
| Fairness.AttachDistanceScores | pages/api/midpoint.js:450-456 | Every venue keeps its fields and gains its own fairness figures, in order. |
| Brands.BrandKey | pages/api/midpoint.js:428-435 | "third wave", then "starbucks", then "chai point" (case-insensitive) give their fixed keys. Otherwise the key is the first min(20, n) of the n lower-case ASCII letters of the lowered name, in order. |
| Brands.BrandKeyIgnoresCase | pages/api/midpoint.js:429-434 | Names differing only in letter case have the same key. |
| Brands.GetBrandKey | pages/api/midpoint.js:428-435 | Returns the brand key of the name. |
| Brands.DedupByBrand | pages/api/midpoint.js:437-446 | The counting loop, with its map of per-brand counts, computes `BrandDedup`: the venues among the first two of their brand, in order. |
| Brands.DedupIsSubseq | pages/api/midpoint.js:437-446 | De-duplication only deletes venues and never reorders them. |
| Brands.DedupBrandCount | pages/api/midpoint.js:437-446 | A brand's count in the output is the lesser of its input count and two. |
| Brands.FirstTwoKept | pages/api/midpoint.js:441-445 | A venue with fewer than two earlier venues of its brand is kept, right after the survivors before it. |
| Brands.LaterOnesDropped | pages/api/midpoint.js:441-445 | A venue with two earlier venues of its brand is dropped. |
| Brands.AsWrittenAgreesWithoutInheritedKeys | pages/api/midpoint.js:425-446 | When no key is "constructor", the loop as written over a plain object equals the intended de-duplication, and its counts are the brand counts. |
| Brands.InheritedKeyVenueDropped | pages/api/midpoint.js:441-443 | With the key "constructor", the loop as written drops even a lone venue, which the intended de-duplication keeps. |
| Brands.ConstructorVenueDropped | pages/api/midpoint.js:428-446 | A venue whose lower-cased name is "constructor" is dropped by the loop as written and kept by `DedupByBrand`. |
| Brands.PlainNameIsItsOwnKey | pages/api/midpoint.js:434 | A short lower-case name of letters, without "h" or "a", is its own brand key. |
| Ranking.ToleranceCompare | pages/api/midpoint.js:459-466 | Balanced scores more than 0.1 apart order lower first. Within 0.1, a venue goes first exactly when both ratings exist and its rating is higher. A missing rating compares equal. |
| Ranking.CompareAntisymmetric | pages/api/midpoint.js:459-466 | Swapping the arguments negates the comparison. |
| Ranking.CompareIsNotTransitive | pages/api/midpoint.js:461-465 | Three venues 0.08 apart, rated 3, 4 and 5, beat each other in a cycle. |
| Ranking.InsertByTolerance | pages/api/midpoint.js:459 | One insertion step in the array keeps a permutation and extends the locally ordered prefix by one. It leaves the array after index i unchanged. |
| Ranking.SortByTolerance | pages/api/midpoint.js:459-466 | The in-place sort returns a permutation in which no neighbouring pair is out of comparator order. |
| Ranking.DistinctScoresSortByBalance | pages/api/midpoint.js:461-463 | When all balanced scores are more than 0.1 apart, that order is strictly increasing in balanced score. |
| MidpointScoring.ContextFor | pages/api/midpoint.js:24-32 | Without parameters the context is the clock's time of day with the defaults, and it is never "any". With parameters, each field is copied from them. |
| MidpointScoring.Award | pages/api/midpoint.js:39-42 | One `if` step appends its rule exactly when the condition holds, and the running score stays the total of the rules appended. |
| MidpointScoring.ScoreTime | pages/api/midpoint.js:38-46 | Appends the time rules that fire, in order, and keeps the score their total. |
| MidpointScoring.ScoreQuality | pages/api/midpoint.js:48-56 | Appends the rating and popularity rules that fire, in order, and keeps the score their total. |
| MidpointScoring.ScoreFairness | pages/api/midpoint.js:58-62 | Appends the fairness rule when it fires, and keeps the score the total. |
| MidpointScoring.ScoreContext | pages/api/midpoint.js:64-68 | Appends the morning-coffee-spot rule when it fires, and keeps the score the total. |
| MidpointScoring.ScoreAtmosphere | pages/api/midpoint.js:72-84 | Appends the atmosphere rules that fire, in order, and keeps the score the total. |
| MidpointScoring.ScoreFeatures | pages/api/midpoint.js:86-98 | Appends the feature rules that fire, in order, and keeps the score the total. |
| MidpointScoring.ScoreOccasion | pages/api/midpoint.js:100-112 | Appends the occasion rules that fire, in order, and keeps the score the total. |
| MidpointScoring.ScoreBudget | pages/api/midpoint.js:114-122 | Appends the budget rules that fire, in order, and keeps the score the total. |
| MidpointScoring.ScoreBase | pages/api/midpoint.js:35-68 | The sections run before the query check give exactly the base rules that fire, and their total. |
| MidpointScoring.ScoreQuery | pages/api/midpoint.js:71-123 | The query sections append exactly the query rules that fire, in order. |
| MidpointScoring.ScorePlace | pages/api/midpoint.js:34-130 | The callback's result is the venue with the clamped total of its fired rules, the reasons of the first three, and the enhanced mark. |
| MidpointScoring.ApplyAIRecommendations | pages/api/midpoint.js:22-131 | The result is every venue scored, then ordered by score, highest first. |
| MidpointScoring.FiredRulesIff | pages/api/midpoint.js:39-122 | A rule fires exactly when its condition holds. |
| MidpointScoring.QueryRulesNeedAQuery | pages/api/midpoint.js:71-123 | Without parameters, no atmosphere, feature, occasion or budget rule fires. |
| MidpointScoring.MorningCafeScoresTwice | pages/api/midpoint.js:39-42 | A cafe in the morning gets both the +20 and the +15 rule, scores at least 35, and gives the morning-coffee reason. |
| MidpointScoring.AnyTimeSilencesTimeRules | pages/api/midpoint.js:26 | When the parameters carry the time "any", no time rule fires, whatever the hour. |
| MidpointScoring.ScoredPlaceMeaning | pages/api/midpoint.js:125-130 | The venue is kept and marked enhanced. The score is the total points of the fired rules, which is non-negative and zero exactly when no rule fires. The reasons are those of the first min(fired, 3) fired rules, in firing order. |
| MidpointScoring.RecommendedMeaning | pages/api/midpoint.js:34-131 | The output has the same length, is sorted by score (highest first) and is a permutation of the scored venues. Each output element is an input venue scored against the request's context. It is enhanced, with a non-negative score and at most three reasons. |
| ScoreSort.SortByScoreDesc | pages/api/ai-recommendations.js:129 | The result is a permutation, sorted by score with the highest first. Venues of equal score keep their input order, as in the engine's stable sort. |
| NlpSearch.ParseNaturalLanguageQuery | pages/api/nlp-search.js:38-146 | Starting from the defaults and running the rule sections in order gives `Parse(query)`: the last rule that fires sets each single-valued field, and list fields collect tags in rule order. |
| NlpSearch.DetectIntent | pages/api/nlp-search.js:55-60 | "recommend" words win over "search" words, and the default is general. |
| NlpSearch.DetectPlaceType | pages/api/nlp-search.js:63-78 | Mall wins over park, park over restaurant, restaurant over cafe. Every firing rule pushes its two keywords. |
| NlpSearch.DetectAtmosphere | pages/api/nlp-search.js:81-97 | Collects the atmosphere tags in rule order. The occasion is business over romantic over casual. |
| NlpSearch.DetectFeatures | pages/api/nlp-search.js:100-116 | Collects the feature tags in rule order. The occasion becomes family over work over what the atmosphere left. |
| NlpSearch.DetectTimeContext | pages/api/nlp-search.js:119-127 | Evening wins over afternoon, afternoon over morning, and the default is any. |
| NlpSearch.DetectAccessibility | pages/api/nlp-search.js:130-135 | Collects the accessibility tags in rule order. |
| NlpSearch.DetectBudget | pages/api/nlp-search.js:138-143 | High wins over low, and the default is medium. |
| NlpSearch.ParseIgnoresCase | pages/api/nlp-search.js:39 | A query and its lower-cased form read the same. |
| NlpSearch.UnmatchedQueryGivesDefaults | pages/api/nlp-search.js:42-52 | A query that contains no vocabulary word reads as the defaults. |
| NlpSearch.ParkingAlsoMeansPark | pages/api/nlp-search.js:71-78 | "parking" gives the parking feature and the park type, unless a mall word also occurs. |
| NlpSearch.CoffeeAlsoMeansMorning | pages/api/nlp-search.js:63-66 | "coffee" names a place type and the keyword "coffee", and the time is morning unless a later time rule fires. |
| NlpSearch.AtmosphereTagsAreDistinct | pages/api/nlp-search.js:81-97 | The atmosphere list holds no duplicates. |
| NlpSearch.AtmosphereTagIffWord | pages/api/nlp-search.js:81-97 | An atmosphere tag is present exactly when one of its words occurs. |
| NlpSearch.FeatureTagsAreDistinct | pages/api/nlp-search.js:100-116 | The feature list holds no duplicates. |
| NlpSearch.FeatureTagIffWord | pages/api/nlp-search.js:100-116 | A feature tag is present exactly when one of its words occurs. |
| NlpSearch.AccessibilityTagsAreDistinct | pages/api/nlp-search.js:130-135 | The accessibility tags are distinct, and each is present exactly when one of its words occurs. |
| NlpSearchExample.StudyQueryReading | pages/api/nlp-search.js:38-146 | "quiet coffee shop for studying" reads as: general intent, cafe, [quiet], [wifi], work, morning, no accessibility, medium budget, keywords coffee and cafe. |
| NlpSearch.SearchParametersFor | pages/api/nlp-search.js:149-202 | The place types are the named type, or cafe, restaurant and park. The minimum rating is 4.0 exactly for romantic or business, otherwise 3.5. The maximum distance is 20. Fields are copied through. Each bonus takes its value exactly under its condition, otherwise 0. |
| NlpSearch.GenerateSearchParameters | pages/api/nlp-search.js:149-202 | The field-by-field updates give `SearchParametersFor`. |
| NlpSearch.ParsedSearchNeverAsksForHotels | pages/api/nlp-search.js:63-78 | No query leads to a hotel search. |
| NlpSearch.SuggestionIffRule | pages/api/nlp-search.js:205-237 | A suggestion is offered exactly when the rule that pushes it fires. |
| NlpSearch.TimeSuggestionsExclusive | pages/api/nlp-search.js:228-234 | The morning and evening suggestions never appear together. |
| NlpSearch.OccasionSuggestionsExclusive | pages/api/nlp-search.js:213-226 | The romantic and business suggestions never appear together. |
| NlpSearch.GenerateSuggestions | pages/api/nlp-search.js:205-237 | The pushes give `SuggestionsFor`, in rule order. |
| NlpSearch.HandleNlpSearch | pages/api/nlp-search.js:4-29 | Non-POST gets 405. A missing or empty query or location gets 400. Otherwise the response holds the reading, its search parameters and its suggestions. |
| AiRecommendations.HandleAiRecommendations | pages/api/ai-recommendations.js:4-139 | Non-POST gets 405, and a missing `places` array gets 400. Otherwise the response holds the ranked venues, their insights, the count of venues sent, and the first ranked venue exactly when there is one. |
| AiRecommendations.ScoreTime | pages/api/ai-recommendations.js:21-32 | Appends the time rules that fire, in order, and keeps the score their sum. |
| AiRecommendations.ScoreWeather | pages/api/ai-recommendations.js:34-44 | Appends the weather rules that fire, in order, and keeps the score their sum. |
| AiRecommendations.ScoreOccasion | pages/api/ai-recommendations.js:46-74 | The switch appends the occasion rules that fire, and keeps the score the sum. |
| AiRecommendations.ScorePreferences | pages/api/ai-recommendations.js:76-90 | Appends the preference rules that fire, including the -20 penalty, and keeps the score the sum. |
| AiRecommendations.ScoreFairness | pages/api/ai-recommendations.js:92-100 | Appends the fairness tier that fires, and keeps the score the sum. |
| AiRecommendations.ScoreQuality | pages/api/ai-recommendations.js:102-110 | Appends the rating and popularity rules that fire, and keeps the score the sum. |
| AiRecommendations.ScoreUrgency | pages/api/ai-recommendations.js:112-118 | Appends the urgency rule when it fires, and keeps the score the sum. |
| AiRecommendations.EnhancePlace | pages/api/ai-recommendations.js:17-125 | The callback gives the venue with the clamped sum of its fired rules, the reasons of the first three and the enhanced mark. |
| AiRecommendations.EnhanceAll | pages/api/ai-recommendations.js:17 | The map scores each venue in turn. |
| AiRecommendations.RankPlaces | pages/api/ai-recommendations.js:17-129 | Scoring then sorting gives `Ranked`. |
| AiRecommendations.FiredRulesIff | pages/api/ai-recommendations.js:21-118 | A rule fires exactly when its condition holds. |
| AiRecommendations.RulesNeedTheirRequestFields | pages/api/ai-recommendations.js:23-113 | The time, weather and occasion rules need their context field, and the urgency rule needs "quick". The preference rules need preferences. The quality-standard rule needs a minimum rating other than zero. |
| AiRecommendations.AtMostOneOccasionBonus | pages/api/ai-recommendations.js:46-74 | At most one occasion rule fires, and none for an absent or unknown occasion. |
| AiRecommendations.FairnessTiers | pages/api/ai-recommendations.js:92-100 | A difference under 2 gives 20 and one reason. A difference from 2 up to 5 gives 10 and one reason. Otherwise, or without figures, nothing. |
| AiRecommendations.SumWithoutPenaltyIsPositive | pages/api/ai-recommendations.js:21-118 | Rules other than the avoided-type penalty add up to a positive score. |
| AiRecommendations.EnhancedMeaning | pages/api/ai-recommendations.js:120-125 | The venue is kept and enhanced. Its score is the sum when that is non-negative, and 0 when it is negative. Its reasons are those of the first min(fired, 3) rules, in firing order. |
| AiRecommendations.ZeroOnlyWhenNothingOrAvoided | pages/api/ai-recommendations.js:82-85 | A zero score means no rule fired or the type is avoided. |
| AiRecommendations.AvoidedOnlyScoresZero | pages/api/ai-recommendations.js:82-85 | A venue matched only by the avoided-type penalty scores 0 and says why. |
| AiRecommendations.RankedMeaning | pages/api/ai-recommendations.js:120-129 | The output has the same length, is sorted by score (highest first) and is a permutation of the scored venues. Each is the scoring of a venue sent. |
| AiRecommendations.GenerateAIInsights | pages/api/ai-recommendations.js:148-191 | Pushes the occasion, time, quality and diversity insights to give `InsightsFor`. |
| AiRecommendations.InsightsIff | pages/api/ai-recommendations.js:157-188 | Each insight is given exactly when warranted: the occasion insight for its occasion, morning before 12, evening after 18, quality when the top three average over 4.0. The diversity insight comes exactly when there is more than one distinct type. There are at most four insights. |
| AiRecommendations.TopTypesDiverseIff | pages/api/ai-recommendations.js:152-153 | The top three have more than one distinct type exactly when two of them differ in type. |
| AiRecommendations.DistinctTypesIff | pages/api/ai-recommendations.js:185-186 | `[...new Set(types)]` has more than one element exactly when two types differ. |

## Left out

- Trigonometry: the haversine distance (`pages/api/midpoint.js:4-19`) and the geographic midpoint (`pages/api/midpoint.js:244-279`) are the parameters `dist` and `geoMidpoint`. Numbers are exact reals, so there is no floating-point rounding or NaN beyond the `None` cases named below.
- `calculateDistanceWeightedMidpoint` (`pages/api/midpoint.js:192-240`) is never called and is not modelled.
- All I/O is left out: HTTP plumbing, the places nearby-search and details fetches, photo URLs, reviews, menus and `Promise.all`. The search is the parameter `fetch`, and only status, name, vicinity, location, rating, types, rating count and id are kept.
- The handlers' 500 paths (`catch` blocks) are not modelled. Nothing in the modelled code throws, apart from malformed input the datatypes rule out.
- The handler's call to `/api/nlp-search` is the flag `nlpReachable`. When it succeeds, the answer is the modelled `HandleNlpSearch` with both locations present.
- Console logging is left out.
- The clock is left out: `new Date().getHours()` is the parameter `currentHour`.
- Midpoint.OrderByFairness: the comparator is not transitive (`Ranking.CompareIsNotTransitive`), so the engine's sort result is not determined. The model claims only a permutation with no neighbouring pair out of order, found by an insertion sort.
- `searchParams.minRating` and `maxDistance` are computed by `/api/nlp-search` but never read by `/api/midpoint`, whose admission threshold stays 3.5. The model follows that code.
- Letter case is ASCII only. `toLowerCase` on other letters and Unicode case mapping are not modelled.
- Context strings (`timeOfDay`, `weather`, `occasion`, `urgency`) are enumerations. A value the scorer does not test is `Other`, and absent or empty strings (both falsy) are `None`.
- Reasons, suggestions and insights are constructors with their texts.
- A non-array `places` in `/api/ai-recommendations` is `None`, like a missing one.
- Categories are the five the search table asks for. Venues sent to `/api/ai-recommendations` are assumed to have one of these types.
- Ratings are `Option<real>`, and a comparison with a missing rating is false. JavaScript treats `null` as 0, so a `null` rating against a negative `minRating` would pass there. That case is not modelled.
- The two user locations that `generateSearchParameters` and `applyAIRecommendations` receive are unused by the code, and so are not parameters of the model.
- The average-rating insight compares an exact real average. With no venues, the average is NaN in the source, and the model gives no insight.
- `pages/api/user-preferences.js` and the user interface are not part of this model.

## Findings

| source | as written | input that shows it | evidently intended | confidence | as-written member | corrected member |
|---|---|---|---|---|---|---|
| pages/api/midpoint.js:425-446 | `brandLimits` is a plain object. For the key "constructor" it reads the inherited `Object.prototype.constructor`, so `(brandLimits[brand] \|\| 0) + 1` is a string and `<= 2` is false. | One venue named "Constructor": it is dropped. | At most two venues per brand, counting from zero for every key, so the venue is kept. | not executed | Brands.ConstructorVenueDropped | Brands.DedupByBrand |
