# Smart travel companion — recommendation and rating core

This project models the decision logic of `smart_travel_app.py`, a console
travel assistant. The model covers these parts:

- **Questionnaire parsing.** A numbered menu choice becomes a lower-cased
  option, together with its price range for the budget question. A line of
  space-separated numbers becomes the list of chosen activities or cuisines.
  Tokens that are not digits or are out of range are dropped. The list is
  accepted only when it is non-empty.
- **Recommendations.** The travel season maps to a weather label, with
  summer as the default. Each catalog destination is filtered by budget and
  trip type. Its activities must match, or else fall back to the first
  activity the destination lists. It is then scored from:
  - the activity and cuisine overlap;
  - whether the destination offers the chosen accommodation;
  - whether the weather is ideal;
  - a rating factor: the user's own rating, else the average of every
    user's ratings, else neutral.

  The score is shown as a percentage capped at 100. The list is sorted
  stably by descending score, and the first three are kept.
- **Rating.** The logged-in user rates one of the last recommendations with
  1 to 5 stars. The rating is stored in that user's ratings and overwrites
  any earlier one.

`get_recommendations` and `rate_destination` update the session object.
They are therefore methods of the class `Companion.TravelCompanion`, whose
fields hold the user store, the logged-in user and the last
recommendations.

- The recommendation loop is proved against the ghost specification
  `Ranking.Recommend`.
- The cross-user rating tally is a loop proved against the set sums
  `Ratings.StarSum` / `Ratings.RaterCount`.
- The rest of the logic consists of pure functions with lemmas about them.

Where the menus and labels suggest one behaviour and the code does another,
the model follows the code:

- **Accommodation matching is case-sensitive.** The questionnaire stores
  `"hotel"`, but the catalog lists `"Hotel"`, so the accommodation factor is
  always 0.5 for catalog entries written with a capital letter
  (`Scoring.CapitalisedAccommodationNeverMatches`). This reproduces the
  code. For the Phuket hostel with summer beach preferences, the total is
  1.025 rather than 1.1. The displayed score is 100 either way, because of
  the cap (`Examples.HostelScoresFullMarks`).
- **The user's cuisines are not lower-cased again in the scorer.** They are
  lower-cased when the questionnaire parses them. `Scoring.CommonCuisines`
  uses them as stored.
- **The activity share counts matches against the stored activity list,
  duplicates included.** The list is the one parsed from the input, and it
  may repeat an activity (`Examples.BeachActivityTokens`).
- **Python's `round` rounds half to even.** It is modelled on exact reals
  as `Scoring.RoundHalfEven`.

## Model

| member | source | states |
|---|---|---|
| Text.LowerChar | smart_travel_app.py:476 | one character lower-cased: a capital becomes its own lower-case letter (code point + 32), anything else is unchanged |
| Text.Lower | smart_travel_app.py:476 | `str.lower()` on ASCII: same length; each character lower-cased; no capital remains |
| Text.LowerIdempotent | smart_travel_app.py:561-562 | lower-casing labels that are already lower-case changes nothing |
| Text.IsDigits | smart_travel_app.py:498 | `s.isdigit()` for ASCII: non-empty and digits only |
| Text.DigitsValue | smart_travel_app.py:498 | `int(s)` of a digit string is a natural; for one digit it is that digit's value |
| Text.ZerosValue | smart_travel_app.py:498 | a digit string is worth 0 exactly when all its digits are '0' |
| Text.SmallDigitsShape | smart_travel_app.py:498 | for a bound n of one digit, a digit string is worth 1..n exactly when it is one non-zero digit at most n after leading zeros ("02" is 2, "10" is not small) |
| Selection.PickOne | smart_travel_app.py:464-480 | a choice gives an option iff it is in 1..len(options); the result is that option lower-cased |
| Selection.PickBudget | smart_travel_app.py:472-475 | a budget choice is accepted iff it is 1..3; the result is the chosen label lower-cased with that tier's price range (0-300, 300-500, 500-9999), whose min <= max |
| Selection.IsValidPick | smart_travel_app.py:498 | the comprehension's filter: the token is all digits and its value is in 1..len(options) |
| Selection.ValidPickShape | smart_travel_app.py:498 | on a menu of at most nine entries, a token is kept exactly when it is one digit naming an entry, possibly after leading zeros |
| Selection.TripTypeHasActivities | smart_travel_app.py:434-442 | every trip type the first question can return, lower-cased as `_ask_activities` receives it, has an activity menu |
| Selection.TokenPick | smart_travel_app.py:497-498 | one token selects at most one option, and does so iff it is all digits and in 1..len(options) |
| Selection.ParseSelections | smart_travel_app.py:497-498 | the comprehension itself, one token at a time; never longer than the token list (its meaning is stated by the lemmas below) |
| Selection.ValidTokens | smart_travel_app.py:497-498 | the comprehension's filter keeps only tokens that are valid picks, taken from the input |
| Selection.ParseSelectionsIsValidTokensMapped | smart_travel_app.py:497-498 | the parsed list has one entry per valid token, in order; each entry is the lower-cased option that token numbers |
| Selection.ParseSelectionsEmpty | smart_travel_app.py:497-500 | the parsed list is empty iff no token is a valid pick |
| Selection.ParseSelectionsFromOptions | smart_travel_app.py:518-519 | every parsed entry is one of the options, lower-cased |
| Selection.ParseSelectionsAppend | smart_travel_app.py:497-498 | parsing a concatenation of tokens is the concatenation of the parses |
| Selection.Choose | smart_travel_app.py:495-501 | one input line is accepted iff some token is valid; an accepted list is non-empty and equals the parse |
| Selection.AskActivities | smart_travel_app.py:481-503 | the accepted activities are non-empty, and each is a lower-cased activity of the trip type's group |
| Selection.AskCuisines | smart_travel_app.py:505-524 | the accepted cuisines are non-empty, and each is one of the six cuisines lower-cased |
| Scoring.SeasonOf | smart_travel_app.py:538 | the stored season, or "summer" when none was stored |
| Scoring.Weather | smart_travel_app.py:540-546 | summer→sunny, winter→snowy, fall→rainy (case-insensitively); every other season, spring included, gives mild |
| Scoring.LowerSet | smart_travel_app.py:562 | the set of lower-cased labels contains exactly the lower-cased elements of the list |
| Scoring.InBudget | smart_travel_app.py:555-556 | the price lies in the chosen range, both ends included |
| Scoring.Eligible | smart_travel_app.py:555-568 | in budget, of the chosen trip type, and listing at least one activity: the entries the loop does not skip |
| Scoring.MatchActivities | smart_travel_app.py:561-568 | no match set iff the destination lists no activities; otherwise a non-empty set of the destination's lower-cased activities |
| Scoring.MatchedActivitiesExact | smart_travel_app.py:561-566 | the match set is the intersection of the lower-cased sets when that is non-empty, else the destination's first activity |
| Scoring.CommonCuisines | smart_travel_app.py:571 | a cuisine is common iff the user chose it and the destination lists it in some casing |
| Scoring.AccommodationMatches | smart_travel_app.py:572 | the stored choice is an element of the destination's accommodation list, compared case-sensitively |
| Scoring.CapitalisedAccommodationNeverMatches | smart_travel_app.py:572 | a lower-cased choice never matches an offer list whose entries all start with a capital |
| Scoring.GuardNeverExcludes | smart_travel_app.py:575-576 | once activities have matched, the "at least one category" guard always passes |
| Scoring.Share | smart_travel_app.py:579-580 | an overlap share is non-negative, at most 1 when matches do not exceed choices, and positive when something matched |
| Scoring.AccommodationFactor | smart_travel_app.py:581 | 1.0 exactly when the accommodation matches, 0.5 exactly when it does not |
| Scoring.WeatherBoost | smart_travel_app.py:582 | 1.5 exactly when the weather is ideal, 0.8 exactly when it is not |
| Scoring.TotalScore | smart_travel_app.py:594-600 | the weighted sum is non-negative for non-negative factors and at most 1.1 for factors within their ranges |
| Scoring.RoundHalfEven | smart_travel_app.py:606 | Python's `round`: within 0.5 of the input; a tie goes to the even neighbour |
| Scoring.DisplayScore | smart_travel_app.py:606 | `min(100, round(total * 100))`: never above 100; equal to the rounded percentage whenever that is at most 100 (so 100 exactly when it is above); non-negative for a non-negative total |
| Scoring.Evaluate | smart_travel_app.py:551-612 | a destination yields a recommendation iff it is in budget, of the trip type and lists activities; id, weather flag and cuisines as computed; its matched activities are exactly the activity match; the score is the capped rounded weighted sum of the activity share, cuisine share, weather boost, accommodation factor and rating factor; in 0..100 for valid ratings |
| Ratings.StarSum | smart_travel_app.py:589 | the total stars all users gave the destination, unrated users counting 0; zero when nobody rated it |
| Ratings.RaterCount | smart_travel_app.py:590 | the number of users who rated the destination, between 0 and the number of users |
| Ratings.StarSumRemove | smart_travel_app.py:589 | the star total over users does not depend on iteration order: any user can be taken out first |
| Ratings.RaterCountRemove | smart_travel_app.py:590 | the same order independence for the number of raters |
| Ratings.RaterCountZero | smart_travel_app.py:588-590 | the rater count is never negative; it is zero iff nobody rated the destination (the `any` test), and then the star total is zero too |
| Ratings.TallyBounds | smart_travel_app.py:589-591 | with 1..5-star ratings, the star total lies between the count and five times the count |
| Ratings.CrossUserTally | smart_travel_app.py:588-590 | the loop over all users returns exactly the star total and the rater count |
| Ratings.AverageBetween | smart_travel_app.py:591 | an average of 1..5-star ratings lies in 1..5 |
| Ratings.RatingFactor | smart_travel_app.py:585-591 | the factor is in 0.2..1.0 for a valid own rating or a valid tally, and exactly 1.0 when nobody rated |
| Ratings.RatingScore | smart_travel_app.py:585-591 | the factor for a user and destination against the whole store (own rating, else average, else 1.0); its properties are the four lemmas below |
| Ratings.OwnRatingFirst | smart_travel_app.py:586-587 | the user's own rating takes precedence: the factor is that rating / 5 |
| Ratings.UnratedIsNeutral | smart_travel_app.py:585 | when no user rated the destination, the factor is 1.0 |
| Ratings.CrossUserAverage | smart_travel_app.py:588-591 | otherwise someone rated it, and factor × 5 × count equals the star total (the average over raters) |
| Ratings.RatingScoreRange | smart_travel_app.py:585-591 | with 1..5-star ratings, the factor is always in 0.2..1.0 |
| Ratings.IsValidRating | smart_travel_app.py:666 | the rating text is all digits and its value is in 1..5 |
| Ratings.ValidRatingShape | smart_travel_app.py:666 | a rating is accepted exactly when it is one digit 1..5, possibly after leading zeros |
| Ratings.RecordRating | smart_travel_app.py:658-667 | rejected as an invalid target iff the id is not offered, as an invalid rating iff offered but not a digit string in 1..5; else stores the value for this user only, keeping every other rating and the 1..5 invariant |
| Ratings.LastWriteWins | smart_travel_app.py:667 | rating the same destination twice keeps only the second value |
| Ratings.RecordedRatingDecidesFactor | smart_travel_app.py:667 | once a rating is saved, that user's rating factor for the destination is the new value / 5 |
| Ranking.InsertByScore | smart_travel_app.py:618 | one insertion step of the stable descending sort; one element longer (order, contents and ties by the lemmas below) |
| Ranking.SortByScore | smart_travel_app.py:618 | the sort by score with `reverse=True`; same length as its input (order, permutation and stability by the lemmas below) |
| Ranking.InsertSorted | smart_travel_app.py:618 | inserting into a descending list keeps it descending |
| Ranking.InsertPermutes | smart_travel_app.py:618 | insertion adds exactly one element and loses none |
| Ranking.WithScoreAppend | smart_travel_app.py:618 | the entries of a given score in a concatenation are those of each part, in order |
| Ranking.InsertKeepsTies | smart_travel_app.py:618 | the inserted element goes before the entries of equal score that were already in the list |
| Ranking.SortByScoreSorted | smart_travel_app.py:618 | the sort by score with `reverse=True` yields a list in descending order of score |
| Ranking.SortByScorePermutes | smart_travel_app.py:618 | the sort is a permutation of its input |
| Ranking.SortByScoreStable | smart_travel_app.py:618 | the sort is stable: entries of equal score keep their catalog order |
| Ranking.Retained | smart_travel_app.py:619 | `[:3]` keeps the first min(3, n) entries |
| Ranking.IdsOf | smart_travel_app.py:660 | the ids of the last recommendations, position by position |
| Ranking.Assess | smart_travel_app.py:553-612 | one loop iteration against the whole store: a recommendation for the destination iff it is eligible, carrying its id, with the score computed from the five factors and the user's rating factor against the whole store |
| Ranking.Candidates | smart_travel_app.py:550-612 | the list the loop builds, in catalog order; never longer than the catalog |
| Ranking.ScoreCatalog | smart_travel_app.py:550-612 | the loop over the catalog, tallying every user's ratings per destination, returns exactly the candidates |
| Ranking.Recommend | smart_travel_app.py:550-618 | the sorted candidate list; never longer than the catalog |
| Ranking.CandidatesSound | smart_travel_app.py:553-612 | every scored candidate comes from an eligible catalog entry |
| Ranking.CandidatesComplete | smart_travel_app.py:553-612 | every eligible catalog entry is scored |
| Ranking.RecommendFiltered | smart_travel_app.py:553-618 | every ranked recommendation names an eligible catalog destination |
| Ranking.IneligibleNeverRecommended | smart_travel_app.py:555-568 | with unique ids, a destination over budget, of another type or without activities is never recommended |
| Ranking.RecommendComplete | smart_travel_app.py:553-618 | every eligible destination appears in the ranking |
| Ranking.RecommendRanked | smart_travel_app.py:618 | the ranking is descending, a permutation of the candidates and stable on ties |
| Ranking.CandidateScoresInRange | smart_travel_app.py:606 | with 1..5-star ratings, every candidate's score is in 0..100 |
| Ranking.RetainedScoresInRange | smart_travel_app.py:606 | with 1..5-star ratings, every shown recommendation scores 0..100 |
| Ranking.RetainedAreBest | smart_travel_app.py:618-619 | no discarded recommendation scores higher than a retained one |
| Companion.TravelCompanion.constructor | smart_travel_app.py:372-374 | a new session has no recommendations yet |
| Companion.TravelCompanion.GetRecommendations | smart_travel_app.py:526-619 | not ready (no user or no preferences): nothing changes; no match: nothing changes; otherwise the last recommendations become the top three of the stable ranking of the whole catalog, with scores in 0..100 |
| Companion.TravelCompanion.RateDestination | smart_travel_app.py:641-671 | not logged in or nothing to rate: store unchanged; otherwise the store becomes the rating update against the last recommendations' ids, or stays as it was on rejection; the 1..5 invariant is kept |
| Examples.SummerIsSunny | smart_travel_app.py:538-546 | the default season gives sunny weather |
| Examples.HostelActivities | smart_travel_app.py:13-24 | snorkeling matches the Phuket hostel's activities |
| Examples.ResortActivities | smart_travel_app.py:25-36 | with no overlap, the Bali resort falls back to its first activity |
| Examples.LocalCuisine | smart_travel_app.py:571 | "local" is common with a destination listing "Local" |
| Examples.HostelScoresFullMarks | smart_travel_app.py:13-24 | a low-budget summer beach traveller scores the Phuket hostel at 100 |
| Examples.ResortOverBudget | smart_travel_app.py:25-36 | the 350-dollar resort is filtered out of the low budget |
| Examples.ResortWithOthersRating | smart_travel_app.py:25-36 | with two other users' ratings averaging 2.5 stars, the resort scores 95 for a medium budget |
| Examples.BeachActivityTokens | smart_travel_app.py:497-498 | tokens "2 9 x 2" choose snorkeling twice; the others are dropped |
| Examples.MenuAccommodationNeverMatches | smart_travel_app.py:443-446 | the accommodation the questionnaire stores never matches an offer list whose entries are all capitalised |
| Examples.SeasonMenuWeather | smart_travel_app.py:455-458 | the four seasons on the menu give sunny, snowy, mild and rainy weather |

## Left out

- Console input and output: menus, prompts and printed results. In the
  model each prompt is a parameter. The method result says which message
  the source would print.
- Re-prompt loops. `_ask_multichoice`, `_ask_activities`, `_ask_cuisines`
  and `rate_destination` repeat a prompt until the answer is valid. The
  model takes one answer and returns `None` or an error where the source
  would ask again.
- Selection.PickOne: takes the already converted integer. A non-numeric
  answer, which the source rejects with `ValueError`, is not modelled.
- Input tokenising with `.strip().split()`. The model receives the tokens.
  Likewise `RateDestination` receives the destination id and the rating
  text already stripped of surrounding white space.
- `str.lower()` and `str.isdigit()` beyond ASCII. Non-ASCII letters and
  Unicode digits are not modelled.
- Floating point. Scores use exact reals, with round-half-even for Python's
  `round`. IEEE rounding of the weighted sum can differ at ties.
- Scoring.MatchActivities: returns a set. The source's `matched_activities`
  is a list built from a set, whose order is not modelled.
- The display-only fields of a recommendation are not modelled: name,
  location, price, the text of the "Ideal"/"Good" label (kept as the flag `weatherIdeal`), the accommodation list and the
  printed average rating. Neither are the catalog's name, region, location
  and tags.
- Registration, login and password hashing. The logged-in user is a
  constructor parameter that must name a stored user.
- `set_preferences`, which assembles the preference record from the
  answers. Preferences are given as a `Scoring.Prefs` value per user.
- `load_users`, `save_users`, the JSON file and `main`.
- The unused `sklearn` import.
- The catalog. Only two of its entries are written out, as examples. The
  class takes any catalog as a parameter.
- Companion.TravelCompanion.GetRecommendations: a score-range guarantee for
  ratings outside 1..5 is not stated. A user store written by hand could
  hold such ratings, and the score can then fall below 0.
