/** The per-destination part of `get_recommendations`: the season-to-weather
    table, the budget/type/activity filter, the five weighted factors and the
    displayed 0..100 score. */
module Scoring {

  import opened Wrappers
  import opened Text
  import opened Ratings

  /** A catalog entry, keeping the fields the recommender reads. */
  datatype Destination = Destination(
    id: string,
    kind: string,                 // "type": beach, mountain or city
    price: int,
    idealWeather: seq<string>,
    activities: seq<string>,
    accommodation: seq<string>,
    cuisines: seq<string>)

  /** A user's saved questionnaire answers. `season` is None when the
      record has no "travel_season" key. */
  datatype Prefs = Prefs(
    tripType: string,
    budgetMin: int,
    budgetMax: int,
    activities: seq<string>,
    accommodation: string,
    cuisine: seq<string>,
    season: Option<string>)

  /** One scored destination. */
  datatype Recommendation = Recommendation(
    id: string,
    score: int,
    matchedActivities: set<string>,
    matchedCuisines: set<string>,
    weatherIdeal: bool)

  /** `user_prefs.get("travel_season", "summer")` */
  function SeasonOf(p: Prefs): string {
    match p.season
    case Some(s) => s
    case None => "summer"
  }

  /** `weather_map.get(season.lower(), "mild")` */
  function Weather(season: string): (w: string)
    ensures w in {"sunny", "snowy", "mild", "rainy"}
    ensures w == "sunny" <==> Lower(season) == "summer"
    ensures w == "snowy" <==> Lower(season) == "winter"
    ensures w == "rainy" <==> Lower(season) == "fall"
    ensures w == "mild" <==> Lower(season) !in {"summer", "winter", "fall"}
  {
    var s := Lower(season);
    if s == "summer" then "sunny"
    else if s == "winter" then "snowy"
    else if s == "spring" then "mild"
    else if s == "fall" then "rainy"
    else "mild"
  }

  /** The lower-cased labels of a list. */
  function LowerSet(xs: seq<string>): (r: set<string>)
    ensures forall i :: 0 <= i < |xs| ==> Lower(xs[i]) in r
    ensures forall x :: x in r ==> exists i :: 0 <= i < |xs| && x == Lower(xs[i])
  {
    set i | 0 <= i < |xs| :: Lower(xs[i])
  }

  predicate InBudget(p: Prefs, d: Destination) {
    p.budgetMin <= d.price <= p.budgetMax
  }

  /** Within budget, of the wanted trip type, and with an activity to match. */
  predicate Eligible(p: Prefs, d: Destination) {
    InBudget(p, d) && d.kind == p.tripType && |d.activities| > 0
  }

  /** The matched activities: the lower-cased intersection, else the
      destination's first activity, else None (the destination is skipped). */
  function MatchActivities(userActivities: seq<string>, destActivities: seq<string>): (r: Option<set<string>>)
    ensures r.None? <==> destActivities == []
    ensures r.Some? ==> r.value != {} && r.value <= LowerSet(destActivities)
  {
    var common := LowerSet(userActivities) * LowerSet(destActivities);
    if common != {} then Some(common)
    else if |destActivities| > 0 then Some({Lower(destActivities[0])})
    else None
  }

  /** `set(user_prefs["cuisine"]) & set(c.lower() for c in dest["cuisines"])`:
      the user's labels are taken as stored, the catalog's are lower-cased. */
  function CommonCuisines(userCuisines: seq<string>, destCuisines: seq<string>): (r: set<string>)
    ensures forall c :: c in r <==> c in userCuisines && c in LowerSet(destCuisines)
  {
    (set c | c in userCuisines) * LowerSet(destCuisines)
  }

  /** `user_prefs["accommodation"] in dest["accommodation"]`: an exact,
      case-sensitive list membership. */
  predicate AccommodationMatches(choice: string, offered: seq<string>) {
    choice in offered
  }

  /** A lower-cased choice never equals a catalog label that starts with a
      capital letter, so against such a catalog the test is always false. */
  lemma CapitalisedAccommodationNeverMatches(choice: string, offered: seq<string>)
    requires forall i :: 0 <= i < |offered| ==> |offered[i]| > 0 && IsUpperChar(offered[i][0])
    ensures !AccommodationMatches(Lower(choice), offered)
  {
  }

  /** `matched / max(1, chosen)`: never divides by zero. */
  function Share(matched: nat, chosen: nat): (r: real)
    ensures 0.0 <= r
    ensures matched <= chosen || matched <= 1 ==> r <= 1.0
    ensures matched > 0 ==> r > 0.0
  {
    matched as real / (if chosen < 1 then 1 else chosen) as real
  }

  function AccommodationFactor(matches: bool): (r: real)
    ensures r == 1.0 <==> matches
    ensures r == 0.5 <==> !matches
  {
    if matches then 1.0 else 0.5
  }

  function WeatherBoost(ideal: bool): (r: real)
    ensures r == 1.5 <==> ideal
    ensures r == 0.8 <==> !ideal
  {
    if ideal then 1.5 else 0.8
  }

  /** The weighted sum 0.25 / 0.25 / 0.2 / 0.15 / 0.15. */
  function TotalScore(activity: real, cuisine: real, weather: real, accommodation: real, rating: real): (r: real)
    ensures 0.0 <= activity && 0.0 <= cuisine && 0.0 <= weather && 0.0 <= accommodation && 0.0 <= rating ==> 0.0 <= r
    ensures activity <= 1.0 && cuisine <= 1.0 && weather <= 1.5 && accommodation <= 1.0 && rating <= 1.0 ==> r <= 1.1
  {
    0.25 * activity + 0.25 * cuisine + 0.2 * weather + 0.15 * accommodation + 0.15 * rating
  }

  /** `round(x)`: nearest integer, halves to the even neighbour. */
  function RoundHalfEven(x: real): (n: int)
    ensures x - 0.5 <= n as real <= x + 0.5
    ensures n as real - x == 0.5 || x - n as real == 0.5 ==> n % 2 == 0
  {
    var f := x.Floor;
    var frac := x - f as real;
    if frac < 0.5 then f
    else if frac > 0.5 then f + 1
    else if f % 2 == 0 then f
    else f + 1
  }

  /** `min(100, round(total * 100))` */
  function DisplayScore(total: real): (n: int)
    ensures n <= 100
    ensures 0.0 <= total ==> 0 <= n
    ensures n < 100 ==> n == RoundHalfEven(total * 100.0)
    ensures RoundHalfEven(total * 100.0) <= 100 ==> n == RoundHalfEven(total * 100.0)
  {
    var rounded := RoundHalfEven(total * 100.0);
    if rounded < 100 then rounded else 100
  }

  /** Every stored rating is in 1..5. */
  predicate RatingsInRange(own: UserRatings) {
    forall id :: id in own ==> 1 <= own[id] <= 5
  }

  /** The loop body of `get_recommendations` for one destination: None when
      the destination is skipped, its recommendation otherwise. `total` and
      `count` are the cross-user sum and number of ratings for `d.id`. */
  function Evaluate(p: Prefs, d: Destination, weather: string, own: UserRatings, total: int, count: int): (r: Option<Recommendation>)
    ensures r.Some? <==> Eligible(p, d)
    ensures r.Some? ==> r.value.id == d.id && r.value.matchedActivities != {}
    ensures r.Some? ==> MatchActivities(p.activities, d.activities) == Some(r.value.matchedActivities)
    ensures r.Some? ==> r.value.score == DisplayScore(TotalScore(
      Share(|r.value.matchedActivities|, |p.activities|),
      Share(|r.value.matchedCuisines|, |p.cuisine|),
      WeatherBoost(r.value.weatherIdeal),
      AccommodationFactor(AccommodationMatches(p.accommodation, d.accommodation)),
      RatingFactor(own, d.id, total, count)))
    ensures r.Some? ==> r.value.weatherIdeal == (weather in d.idealWeather)
    ensures r.Some? ==> r.value.matchedCuisines == CommonCuisines(p.cuisine, d.cuisines)
    ensures r.Some? && RatingsInRange(own) && (0 < count ==> count <= total <= 5 * count) ==>
      0 <= r.value.score <= 100
  {
    if !InBudget(p, d) then None
    else if d.kind != p.tripType then None
    else match MatchActivities(p.activities, d.activities)
      case None => None
      case Some(acts) =>
        var cuisines := CommonCuisines(p.cuisine, d.cuisines);
        var accom := AccommodationMatches(p.accommodation, d.accommodation);
        if !(acts != {} || cuisines != {} || accom) then None
        else
          var ideal := weather in d.idealWeather;
          var score := DisplayScore(TotalScore(
            Share(|acts|, |p.activities|),
            Share(|cuisines|, |p.cuisine|),
            WeatherBoost(ideal),
            AccommodationFactor(accom),
            RatingFactor(own, d.id, total, count)));
          Some(Recommendation(d.id, score, acts, cuisines, ideal))
  }

  /** The "at least one category matches" guard never excludes a destination
      that reached it: the activity step always leaves a match. */
  lemma GuardNeverExcludes(p: Prefs, d: Destination)
    requires MatchActivities(p.activities, d.activities).Some?
    ensures var acts := MatchActivities(p.activities, d.activities).value;
      acts != {} || CommonCuisines(p.cuisine, d.cuisines) != {} || AccommodationMatches(p.accommodation, d.accommodation)
  {
  }

  /** When user and destination share an activity, the matched activities
      are exactly the shared ones; otherwise only the first listed one. */
  lemma MatchedActivitiesExact(userActivities: seq<string>, destActivities: seq<string>)
    ensures var common := LowerSet(userActivities) * LowerSet(destActivities);
      match MatchActivities(userActivities, destActivities)
      case Some(acts) => (common != {} ==> acts == common) && (common == {} ==> acts == {Lower(destActivities[0])})
      case None => common == {} && destActivities == []
  {
  }
}
