/** The rating ledger (`USERS[user]["ratings"]` for every user), the
    cross-user aggregate the scorer reads, the rating factor, and the
    validation and update done by `rate_destination`. */
module Ratings {

  import opened Wrappers
  import opened Text

  /** One user's ratings: destination id to stars. */
  type UserRatings = map<string, int>

  /** Every user's ratings, keyed by user name. */
  type Ledger = map<string, UserRatings>

  /** Every stored rating is in 1..5, as `rate_destination` only ever stores. */
  ghost predicate ValidLedger(l: Ledger) {
    forall u, id :: u in l && id in l[u] ==> 1 <= l[u][id] <= 5
  }

  /** One user's stars for `id`: `user["ratings"].get(id, 0)`. */
  function StarsOf(ratings: UserRatings, id: string): int {
    if id in ratings then ratings[id] else 0
  }
  /** Whether one user rated `id`, as 1 or 0. */
  function RatedOf(ratings: UserRatings, id: string): nat {
    if id in ratings then 1 else 0
  }
  ghost function Pick(s: set<string>): (x: string)
    requires s != {}
    ensures x in s
  {
    var x :| x in s; x
  }
  /** `sum(user["ratings"].get(id, 0) for user in users)`. */
  ghost function StarSum(l: Ledger, users: set<string>, id: string): (r: int)
    requires users <= l.Keys
    ensures (forall u :: u in users ==> id !in l[u]) ==> r == 0
    decreases users
  {
    if users == {} then 0
    else var u := Pick(users); StarsOf(l[u], id) + StarSum(l, users - {u}, id)
  }
  /** `sum(1 for user in users if id in user["ratings"])`. */
  ghost function RaterCount(l: Ledger, users: set<string>, id: string): (r: int)
    requires users <= l.Keys
    ensures 0 <= r <= |users|
    decreases users
  {
    if users == {} then 0
    else var u := Pick(users); RatedOf(l[u], id) + RaterCount(l, users - {u}, id)
  }
  /** The sum does not depend on the order in which users are visited:
      any user may be taken out first. */
  lemma {:induction false} StarSumRemove(l: Ledger, users: set<string>, u: string, id: string)
    requires users <= l.Keys && u in users
    ensures StarSum(l, users, id) == StarsOf(l[u], id) + StarSum(l, users - {u}, id)
    decreases users
  {
    var v := Pick(users);
    if v != u {
      var withoutV, withoutU := users - {v}, users - {u};
      assert withoutV - {u} == withoutU - {v};
      StarSumRemove(l, withoutV, u, id);
      StarSumRemove(l, withoutU, v, id);
    }
  }
  /** The count does not depend on the order in which users are visited. */
  lemma {:induction false} RaterCountRemove(l: Ledger, users: set<string>, u: string, id: string)
    requires users <= l.Keys && u in users
    ensures RaterCount(l, users, id) == RatedOf(l[u], id) + RaterCount(l, users - {u}, id)
    decreases users
  {
    var v := Pick(users);
    if v != u {
      var withoutV, withoutU := users - {v}, users - {u};
      assert withoutV - {u} == withoutU - {v};
      RaterCountRemove(l, withoutV, u, id);
      RaterCountRemove(l, withoutU, v, id);
    }
  }
  /** No user has rated `id` exactly when the count is zero, and the sum is
      then zero too: the count decides what the source's `any(...)` decides. */
  lemma {:induction false} RaterCountZero(l: Ledger, users: set<string>, id: string)
    requires users <= l.Keys
    ensures 0 <= RaterCount(l, users, id)
    ensures RaterCount(l, users, id) == 0 <==> forall u :: u in users ==> id !in l[u]
    ensures RaterCount(l, users, id) == 0 ==> StarSum(l, users, id) == 0
    decreases users
  {
    if users != {} {
      var u := Pick(users);
      RaterCountZero(l, users - {u}, id);
      if RaterCount(l, users, id) == 0 {
        forall w | w in users
          ensures id !in l[w]
        {
          if w != u {
            assert w in users - {u};
          }
        }
      }
    }
  }
  /** With ratings in 1..5, the sum lies between one and five stars per rater. */
  lemma {:induction false} TallyBounds(l: Ledger, users: set<string>, id: string)
    requires users <= l.Keys && ValidLedger(l)
    ensures RaterCount(l, users, id) <= StarSum(l, users, id) <= 5 * RaterCount(l, users, id)
    decreases users
  {
    if users != {} {
      var u := Pick(users);
      TallyBounds(l, users - {u}, id);
    }
  }
  /** The cross-user sum and count for `id`, computed by visiting every user. */
  method CrossUserTally(l: Ledger, id: string) returns (total: int, count: int)
    ensures total == StarSum(l, l.Keys, id) && count == RaterCount(l, l.Keys, id)
  {
    var rest := l.Keys;
    total, count := 0, 0;
    while rest != {}
      invariant rest <= l.Keys
      invariant total + StarSum(l, rest, id) == StarSum(l, l.Keys, id)
      invariant count + RaterCount(l, rest, id) == RaterCount(l, l.Keys, id)
      decreases rest
    {
      var u :| u in rest;
      StarSumRemove(l, rest, u, id);
      RaterCountRemove(l, rest, u, id);
      total := total + StarsOf(l[u], id);
      count := count + RatedOf(l[u], id);
      rest := rest - {u};
    }
  }

  /** An average of stars in 1..5 is itself in 1..5. */
  lemma AverageBetween(total: int, count: int)
    requires 0 < count
    ensures count <= total <= 5 * count ==> 1.0 <= total as real / count as real <= 5.0
  {
    var c := count as real;
    var q := total as real / c;
    assert q * c == total as real;
    if q < 1.0 {
      assert q * c < 1.0 * c;
    }
    if q > 5.0 {
      assert q * c > 5.0 * c;
    }
  }

  /** The rating factor: the user's own rating over five, else the cross-user
      average over five, else the neutral 1.0. A positive count stands for the
      source's `any(id in user["ratings"] ...)` (see RaterCountZero). */
  function RatingFactor(own: UserRatings, id: string, total: int, count: int): (r: real)
    ensures id in own && 1 <= own[id] <= 5 ==> 0.2 <= r <= 1.0
    ensures id !in own && 0 < count <= total <= 5 * count ==> 0.2 <= r <= 1.0
    ensures id !in own && count <= 0 ==> r == 1.0
  {
    if id in own then own[id] as real / 5.0
    else if count > 0 then
      AverageBetween(total, count);
      (total as real / count as real) / 5.0
    else 1.0
  }

  /** The rating factor of destination `id` for `user` against the whole ledger. */
  ghost function RatingScore(l: Ledger, user: string, id: string): real
    requires user in l
  {
    RatingFactor(l[user], id, StarSum(l, l.Keys, id), RaterCount(l, l.Keys, id))
  }

  /** A user's own rating decides their factor, whatever others said. */
  lemma OwnRatingFirst(l: Ledger, user: string, id: string)
    requires user in l && id in l[user]
    ensures RatingScore(l, user, id) == l[user][id] as real / 5.0
  {
  }

  /** A destination nobody has rated gets exactly the neutral factor 1.0. */
  lemma UnratedIsNeutral(l: Ledger, user: string, id: string)
    requires user in l
    requires forall u :: u in l ==> id !in l[u]
    ensures RatingScore(l, user, id) == 1.0
  {
    RaterCountZero(l, l.Keys, id);
  }

  /** When others rated it and the user did not, the factor is the
      cross-user average over five: factor * 5 * raters == sum of ratings. */
  lemma CrossUserAverage(l: Ledger, user: string, id: string)
    requires user in l && id !in l[user]
    requires exists u :: u in l && id in l[u]
    ensures RaterCount(l, l.Keys, id) > 0
    ensures RatingScore(l, user, id) * 5.0 * RaterCount(l, l.Keys, id) as real == StarSum(l, l.Keys, id) as real
  {
    RaterCountZero(l, l.Keys, id);
  }

  /** With a valid ledger the factor is between 0.2 and 1.0. */
  lemma RatingScoreRange(l: Ledger, user: string, id: string)
    requires user in l && ValidLedger(l)
    ensures 0.2 <= RatingScore(l, user, id) <= 1.0
  {
    TallyBounds(l, l.Keys, id);
  }

  datatype RateError = InvalidTarget | InvalidRating

  /** A rating text `rate_destination` accepts: `rating.isdigit() and 1 <= int(rating) <= 5`. */
  predicate IsValidRating(text: string) {
    IsDigits(text) && 1 <= DigitsValue(text) <= 5
  }

  /** A rating is accepted exactly when it is one digit 1..5, possibly after
      leading zeros ("05" is five stars, "10" is refused). */
  lemma ValidRatingShape(text: string)
    ensures IsValidRating(text) <==>
      |text| > 0 && (forall i :: 0 <= i < |text| - 1 ==> text[i] == '0') && 1 <= text[|text| - 1] as int - '0' as int <= 5
  {
    SmallDigitsShape(text, 5);
  }

  /** The id check, then the value check, then the overwrite of
      `USERS[user]["ratings"][destId]`. */
  function RecordRating(l: Ledger, user: string, offered: seq<string>, destId: string, text: string): (r: Result<Ledger, RateError>)
    requires user in l
    ensures r == Err(InvalidTarget) <==> destId !in offered
    ensures r == Err(InvalidRating) <==> destId in offered && !IsValidRating(text)
    ensures r.Ok? ==> r.value.Keys == l.Keys && user in r.value
    ensures r.Ok? ==> destId in r.value[user] && r.value[user][destId] == DigitsValue(text)
    ensures r.Ok? ==> r.value[user].Keys == l[user].Keys + {destId}
    ensures r.Ok? ==> forall id :: id in l[user] && id != destId ==> r.value[user][id] == l[user][id]
    ensures r.Ok? ==> forall u :: u in l && u != user ==> r.value[u] == l[u]
    ensures r.Ok? && ValidLedger(l) ==> ValidLedger(r.value)
  {
    if destId !in offered then Err(InvalidTarget)
    else if !IsValidRating(text) then Err(InvalidRating)
    else Ok(l[user := l[user][destId := DigitsValue(text)]])
  }

  /** Re-rating overwrites: rating one value and then another leaves the
      ledger exactly as rating only the second would. */
  lemma LastWriteWins(l: Ledger, user: string, offered: seq<string>, destId: string, first: string, second: string)
    requires user in l
    requires RecordRating(l, user, offered, destId, first).Ok?
    requires IsValidRating(second)
    ensures var once := RecordRating(l, user, offered, destId, first).value;
      RecordRating(once, user, offered, destId, second) == RecordRating(l, user, offered, destId, second)
  {
    var once := RecordRating(l, user, offered, destId, first).value;
    var updated := l[user][destId := DigitsValue(second)];
    assert once[user][destId := DigitsValue(second)] == updated;
    assert once[user := updated] == l[user := updated];
  }

  /** After a rating is recorded, the recording user's factor for that
      destination is the new rating over five. */
  lemma RecordedRatingDecidesFactor(l: Ledger, user: string, offered: seq<string>, destId: string, text: string)
    requires user in l
    requires RecordRating(l, user, offered, destId, text).Ok?
    ensures RatingScore(RecordRating(l, user, offered, destId, text).value, user, destId) == DigitsValue(text) as real / 5.0
  {
  }
}
