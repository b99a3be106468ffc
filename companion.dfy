/** `TravelCompanion`: the session object that holds the logged-in user and
    the last recommendations, over the in-memory user store. */
module Companion {

  import opened Wrappers
  import opened Ratings
  import opened Scoring
  import opened Ranking

  datatype RecommendOutcome = NotReady | NoMatches | Shown

  datatype RateOutcome = NotLoggedIn | NothingToRate | Rejected(reason: RateError) | Saved

  class TravelCompanion {
    /** The destination catalog, in its dictionary order. */
    const catalog: seq<Destination>
    /** `USERS[user]["preferences"]` for users that have saved them. */
    var preferences: map<string, Prefs>
    /** `USERS[user]["ratings"]` for every user. */
    var ratings: Ledger
    var currentUser: Option<string>
    var lastRecommendations: seq<Recommendation>

    /** The logged-in user is a known user. */
    ghost predicate Valid()
      reads this
    {
      currentUser.Some? ==> currentUser.value in ratings
    }

    /** A user is logged in and has saved preferences. */
    predicate Ready()
      reads this
    {
      currentUser.Some? && currentUser.value in preferences
    }

    /** A session as `__init__` leaves it, with `user` logged in (or nobody)
        over the given store. */
    constructor (catalog: seq<Destination>, ratings: Ledger, preferences: map<string, Prefs>, user: Option<string>)
      requires user.Some? ==> user.value in ratings
      ensures Valid()
      ensures this.catalog == catalog && this.ratings == ratings && this.preferences == preferences
      ensures currentUser == user && lastRecommendations == []
    {
      this.catalog := catalog;
      this.ratings := ratings;
      this.preferences := preferences;
      currentUser := user;
      lastRecommendations := [];
    }

    /** Scores the catalog for the current user; keeps the top three of the
        ranking, or leaves the previous ones when nothing matches. */
    method GetRecommendations() returns (outcome: RecommendOutcome)
      requires Valid()
      modifies this`lastRecommendations
      ensures Valid()
      ensures !Ready() ==> outcome == NotReady && lastRecommendations == old(lastRecommendations)
      ensures Ready() ==>
        var recs := Recommend(catalog, preferences[currentUser.value], ratings, currentUser.value);
        (recs == [] ==> outcome == NoMatches && lastRecommendations == old(lastRecommendations)) &&
        (recs != [] ==> outcome == Shown && lastRecommendations == Retained(recs))
      ensures ValidLedger(ratings) ==> forall r :: r in lastRecommendations ==> r in old(lastRecommendations) || 0 <= r.score <= 100
    {
      if !Ready() {
        return NotReady;
      }
      var user := currentUser.value;
      var p := preferences[user];
      var found := ScoreCatalog(catalog, p, Weather(SeasonOf(p)), ratings, user);
      if found == [] {
        return NoMatches;
      }
      if ValidLedger(ratings) {
        RetainedScoresInRange(catalog, p, ratings, user);
      }
      lastRecommendations := Retained(SortByScore(found));
      outcome := Shown;
    }

    /** Records the current user's rating `text` for `destId`, which must be
        one of the last recommendations; any previous rating is overwritten. */
    method RateDestination(destId: string, text: string) returns (outcome: RateOutcome)
      requires Valid()
      modifies this`ratings
      ensures Valid()
      ensures currentUser.None? ==> outcome == NotLoggedIn && ratings == old(ratings)
      ensures currentUser.Some? && lastRecommendations == [] ==> outcome == NothingToRate && ratings == old(ratings)
      ensures currentUser.Some? && lastRecommendations != [] ==>
        var r := RecordRating(old(ratings), currentUser.value, IdsOf(lastRecommendations), destId, text);
        (r.Ok? ==> outcome == Saved && ratings == r.value) &&
        (r.Err? ==> outcome == Rejected(r.error) && ratings == old(ratings))
      ensures ValidLedger(old(ratings)) ==> ValidLedger(ratings)
    {
      if currentUser.None? {
        return NotLoggedIn;
      }
      if lastRecommendations == [] {
        return NothingToRate;
      }
      var r := RecordRating(ratings, currentUser.value, IdsOf(lastRecommendations), destId, text);
      match r
      case Ok(updated) =>
        ratings := updated;
        outcome := Saved;
      case Err(reason) =>
        outcome := Rejected(reason);
    }
  }
}
