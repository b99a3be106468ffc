/** The whole-catalog part of `get_recommendations`: evaluating every
    destination in catalog order, the stable descending sort by score and the
    top three kept for rating. */
module Ranking {

  import opened Wrappers
  import opened Ratings
  import opened Scoring

  predicate SortedByScore(s: seq<Recommendation>) {
    forall i, j :: 0 <= i < j < |s| ==> s[i].score >= s[j].score
  }

  /** The elements of `s` whose score is `v`, in their order in `s`. */
  function WithScore(s: seq<Recommendation>, v: int): seq<Recommendation> {
    if s == [] then []
    else (if s[0].score == v then [s[0]] else []) + WithScore(s[1..], v)
  }

  /** Puts `x` in front of the first element that does not score higher. */
  function InsertByScore(x: Recommendation, t: seq<Recommendation>): (r: seq<Recommendation>)
    ensures |r| == |t| + 1
  {
    if t == [] || t[0].score <= x.score then [x] + t
    else [t[0]] + InsertByScore(x, t[1..])
  }

  /** `list.sort(key=score, reverse=True)`: a stable sort, highest score first. */
  function SortByScore(s: seq<Recommendation>): (r: seq<Recommendation>)
    ensures |r| == |s|
  {
    if s == [] then [] else InsertByScore(s[0], SortByScore(s[1..]))
  }

  lemma {:induction false} InsertSorted(x: Recommendation, t: seq<Recommendation>)
    requires SortedByScore(t)
    ensures SortedByScore(InsertByScore(x, t))
    ensures InsertByScore(x, t) != [] && (InsertByScore(x, t)[0] == x || InsertByScore(x, t)[0] == t[0])
  {
    if t != [] && t[0].score > x.score {
      InsertSorted(x, t[1..]);
    }
  }

  lemma {:induction false} InsertPermutes(x: Recommendation, t: seq<Recommendation>)
    ensures multiset(InsertByScore(x, t)) == multiset(t) + multiset{x}
  {
    if t != [] && t[0].score > x.score {
      InsertPermutes(x, t[1..]);
      assert t == [t[0]] + t[1..];
    }
  }

  lemma {:induction false} WithScoreAppend(a: seq<Recommendation>, b: seq<Recommendation>, v: int)
    ensures WithScore(a + b, v) == WithScore(a, v) + WithScore(b, v)
  {
    if a == [] {
      assert a + b == b;
    } else {
      var rest := a[1..];
      assert (a + b)[0] == a[0] && (a + b)[1..] == rest + b;
      WithScoreAppend(rest, b, v);
      var head := if a[0].score == v then [a[0]] else [];
      assert WithScore(a + b, v) == head + WithScore(rest + b, v);
      assert WithScore(a, v) == head + WithScore(rest, v);
    }
  }

  lemma {:induction false} InsertKeepsTies(x: Recommendation, t: seq<Recommendation>, v: int)
    requires SortedByScore(t)
    ensures WithScore(InsertByScore(x, t), v) == WithScore([x], v) + WithScore(t, v)
  {
    if t == [] || t[0].score <= x.score {
      WithScoreAppend([x], t, v);
    } else {
      InsertKeepsTies(x, t[1..], v);
      WithScoreAppend([t[0]], InsertByScore(x, t[1..]), v);
      WithScoreAppend([t[0]], t[1..], v);
      assert t == [t[0]] + t[1..];
    }
  }

  /** The sort orders by score, highest first. */
  lemma {:induction false} SortByScoreSorted(s: seq<Recommendation>)
    ensures SortedByScore(SortByScore(s))
  {
    if s != [] {
      SortByScoreSorted(s[1..]);
      InsertSorted(s[0], SortByScore(s[1..]));
    }
  }

  /** The sort neither drops nor adds recommendations. */
  lemma {:induction false} SortByScorePermutes(s: seq<Recommendation>)
    ensures multiset(SortByScore(s)) == multiset(s)
  {
    if s != [] {
      SortByScorePermutes(s[1..]);
      InsertPermutes(s[0], SortByScore(s[1..]));
      assert s == [s[0]] + s[1..];
    }
  }

  /** The sort is stable: recommendations with equal scores keep their
      relative (catalog) order. */
  lemma {:induction false} SortByScoreStable(s: seq<Recommendation>, v: int)
    ensures WithScore(SortByScore(s), v) == WithScore(s, v)
  {
    if s != [] {
      SortByScoreSorted(s[1..]);
      SortByScoreStable(s[1..], v);
      InsertKeepsTies(s[0], SortByScore(s[1..]), v);
      WithScoreAppend([s[0]], s[1..], v);
      assert s == [s[0]] + s[1..];
    }
  }

  /** One destination as the loop sees it: evaluated against the current
      user's own ratings and the cross-user tally of the whole ledger. */
  ghost function Assess(p: Prefs, d: Destination, weather: string, l: Ledger, user: string): (r: Option<Recommendation>)
    requires user in l
    ensures r.Some? <==> Eligible(p, d)
    ensures r.Some? ==> r.value.id == d.id
    ensures r.Some? ==> r.value.score == DisplayScore(TotalScore(
      Share(|r.value.matchedActivities|, |p.activities|),
      Share(|r.value.matchedCuisines|, |p.cuisine|),
      WeatherBoost(r.value.weatherIdeal),
      AccommodationFactor(AccommodationMatches(p.accommodation, d.accommodation)),
      RatingScore(l, user, d.id)))
  {
    Evaluate(p, d, weather, l[user], StarSum(l, l.Keys, d.id), RaterCount(l, l.Keys, d.id))
  }

  /** The recommendations appended by the loop, in catalog order. */
  ghost function Candidates(catalog: seq<Destination>, p: Prefs, weather: string, l: Ledger, user: string): (r: seq<Recommendation>)
    requires user in l
    ensures |r| <= |catalog|
  {
    if catalog == [] then []
    else
      var init := Candidates(catalog[..|catalog| - 1], p, weather, l, user);
      match Assess(p, catalog[|catalog| - 1], weather, l, user)
      case Some(r) => init + [r]
      case None => init
  }

  /** One more loop iteration appends the next entry's evaluation, if any. */
  lemma CandidatesExtend(catalog: seq<Destination>, i: nat, p: Prefs, weather: string, l: Ledger, user: string)
    requires user in l && i < |catalog|
    ensures var step := Assess(p, catalog[i], weather, l, user);
      Candidates(catalog[..i + 1], p, weather, l, user) ==
        Candidates(catalog[..i], p, weather, l, user) + (if step.Some? then [step.value] else [])
  {
    assert catalog[..i + 1][..i] == catalog[..i];
  }

  /** The loop of `get_recommendations` over the catalog: each destination is
      evaluated against the user's own ratings and the cross-user tally, and
      the ones that pass are appended in catalog order. */
  method ScoreCatalog(catalog: seq<Destination>, p: Prefs, weather: string, l: Ledger, user: string)
    returns (found: seq<Recommendation>)
    requires user in l
    ensures found == Candidates(catalog, p, weather, l, user)
  {
    found := [];
    var i := 0;
    while i < |catalog|
      invariant 0 <= i <= |catalog|
      invariant found == Candidates(catalog[..i], p, weather, l, user)
    {
      var d := catalog[i];
      var total, count := CrossUserTally(l, d.id);
      var e := Evaluate(p, d, weather, l[user], total, count);
      CandidatesExtend(catalog, i, p, weather, l, user);
      if e.Some? {
        found := found + [e.value];
      }
      i := i + 1;
    }
    assert catalog[..i] == catalog;
  }

  /** The ranked recommendation list for `user`'s preferences. */
  ghost function Recommend(catalog: seq<Destination>, p: Prefs, l: Ledger, user: string): (r: seq<Recommendation>)
    requires user in l
    ensures |r| <= |catalog|
  {
    SortByScore(Candidates(catalog, p, Weather(SeasonOf(p)), l, user))
  }

  /** `recommendations[:3]` */
  function Retained(s: seq<Recommendation>): (r: seq<Recommendation>)
    ensures |r| == if |s| < 3 then |s| else 3
    ensures r == s[..|r|]
  {
    if |s| < 3 then s else s[..3]
  }

  /** The ids offered for rating. */
  function IdsOf(recs: seq<Recommendation>): (ids: seq<string>)
    ensures |ids| == |recs|
    ensures forall i :: 0 <= i < |recs| ==> ids[i] == recs[i].id
  {
    seq(|recs|, i requires 0 <= i < |recs| => recs[i].id)
  }

  /** Every candidate comes from a catalog entry within budget, of the right
      type and with at least one activity, and is that entry's evaluation. */
  lemma {:induction false} CandidatesSound(catalog: seq<Destination>, p: Prefs, weather: string, l: Ledger, user: string)
    requires user in l
    ensures forall r :: r in Candidates(catalog, p, weather, l, user) ==>
      exists k :: 0 <= k < |catalog| && Assess(p, catalog[k], weather, l, user) == Some(r) && Eligible(p, catalog[k])
  {
    if catalog != [] {
      var init := catalog[..|catalog| - 1];
      CandidatesSound(init, p, weather, l, user);
      forall r | r in Candidates(catalog, p, weather, l, user)
        ensures exists k :: 0 <= k < |catalog| && Assess(p, catalog[k], weather, l, user) == Some(r) && Eligible(p, catalog[k])
      {
        if r in Candidates(init, p, weather, l, user) {
          var k :| 0 <= k < |init| && Assess(p, init[k], weather, l, user) == Some(r) && Eligible(p, init[k]);
          assert catalog[k] == init[k];
        } else {
          assert Assess(p, catalog[|catalog| - 1], weather, l, user) == Some(r);
        }
      }
    }
  }

  /** Every catalog entry within budget, of the right type and with at least
      one activity is evaluated into the candidates. */
  lemma {:induction false} CandidatesComplete(catalog: seq<Destination>, p: Prefs, weather: string, l: Ledger, user: string, k: nat)
    requires user in l && k < |catalog|
    requires Eligible(p, catalog[k])
    ensures Assess(p, catalog[k], weather, l, user).Some?
    ensures Assess(p, catalog[k], weather, l, user).value in Candidates(catalog, p, weather, l, user)
  {
    var init := catalog[..|catalog| - 1];
    if k < |catalog| - 1 {
      assert init[k] == catalog[k];
      CandidatesComplete(init, p, weather, l, user, k);
    }
  }

  /** Every recommendation names a catalog entry within budget, of the
      right type and with at least one activity. */
  lemma RecommendFiltered(catalog: seq<Destination>, p: Prefs, l: Ledger, user: string)
    requires user in l
    ensures forall r :: r in Recommend(catalog, p, l, user) ==>
      exists k :: 0 <= k < |catalog| && r.id == catalog[k].id && Eligible(p, catalog[k])
  {
    var weather := Weather(SeasonOf(p));
    var cands := Candidates(catalog, p, weather, l, user);
    SortByScorePermutes(cands);
    CandidatesSound(catalog, p, weather, l, user);
    forall r | r in Recommend(catalog, p, l, user)
      ensures exists k :: 0 <= k < |catalog| && r.id == catalog[k].id && Eligible(p, catalog[k])
    {
      assert r in multiset(SortByScore(cands));
      assert r in cands;
    }
  }

  /** Catalog ids are the keys of a dictionary, hence distinct. */
  predicate UniqueIds(catalog: seq<Destination>) {
    forall i, j :: 0 <= i < j < |catalog| ==> catalog[i].id != catalog[j].id
  }

  /** A destination priced outside the inclusive budget range, of another
      trip type, or without activities never appears in the recommendations. */
  lemma IneligibleNeverRecommended(catalog: seq<Destination>, p: Prefs, l: Ledger, user: string, k: nat)
    requires user in l && UniqueIds(catalog) && k < |catalog|
    requires !InBudget(p, catalog[k]) || catalog[k].kind != p.tripType || catalog[k].activities == []
    ensures forall r :: r in Recommend(catalog, p, l, user) ==> r.id != catalog[k].id
  {
    RecommendFiltered(catalog, p, l, user);
  }

  /** Every entry within budget, of the right type and with an activity is
      recommended. */
  lemma RecommendComplete(catalog: seq<Destination>, p: Prefs, l: Ledger, user: string, k: nat)
    requires user in l && k < |catalog|
    requires Eligible(p, catalog[k])
    ensures exists r :: r in Recommend(catalog, p, l, user) && r.id == catalog[k].id
  {
    var weather := Weather(SeasonOf(p));
    var cands := Candidates(catalog, p, weather, l, user);
    CandidatesComplete(catalog, p, weather, l, user, k);
    SortByScorePermutes(cands);
    var r := Assess(p, catalog[k], weather, l, user).value;
    assert r in multiset(cands);
    assert r in Recommend(catalog, p, l, user);
  }

  /** The ranked list is the candidates sorted highest first, with ties in
      catalog order, and nothing added or lost. */
  lemma RecommendRanked(catalog: seq<Destination>, p: Prefs, l: Ledger, user: string)
    requires user in l
    ensures var cands := Candidates(catalog, p, Weather(SeasonOf(p)), l, user);
      var recs := Recommend(catalog, p, l, user);
      SortedByScore(recs) && multiset(recs) == multiset(cands) &&
      forall v :: WithScore(recs, v) == WithScore(cands, v)
  {
    var cands := Candidates(catalog, p, Weather(SeasonOf(p)), l, user);
    SortByScoreSorted(cands);
    SortByScorePermutes(cands);
    forall v
      ensures WithScore(SortByScore(cands), v) == WithScore(cands, v)
    {
      SortByScoreStable(cands, v);
    }
  }

  /** With a valid ledger every displayed score is in 0..100. */
  lemma {:induction false} CandidateScoresInRange(catalog: seq<Destination>, p: Prefs, weather: string, l: Ledger, user: string)
    requires user in l && ValidLedger(l)
    ensures forall r :: r in Candidates(catalog, p, weather, l, user) ==> 0 <= r.score <= 100
  {
    CandidatesSound(catalog, p, weather, l, user);
    forall r | r in Candidates(catalog, p, weather, l, user)
      ensures 0 <= r.score <= 100
    {
      var k :| 0 <= k < |catalog| && Assess(p, catalog[k], weather, l, user) == Some(r);
      TallyBounds(l, l.Keys, catalog[k].id);
    }
  }

  /** With ratings in 1..5, every recommendation shown scores 0..100. */
  lemma RetainedScoresInRange(catalog: seq<Destination>, p: Prefs, l: Ledger, user: string)
    requires user in l && ValidLedger(l)
    ensures forall r :: r in Retained(Recommend(catalog, p, l, user)) ==> 0 <= r.score <= 100
  {
    var cands := Candidates(catalog, p, Weather(SeasonOf(p)), l, user);
    SortByScorePermutes(cands);
    CandidateScoresInRange(catalog, p, Weather(SeasonOf(p)), l, user);
    forall r | r in Retained(Recommend(catalog, p, l, user))
      ensures 0 <= r.score <= 100
    {
      assert r in multiset(SortByScore(cands));
    }
  }

  /** The retained top three score at least as high as anything dropped. */
  lemma RetainedAreBest(s: seq<Recommendation>)
    requires SortedByScore(s)
    ensures forall i, j :: 0 <= i < |Retained(s)| <= j < |s| ==> Retained(s)[i].score >= s[j].score
  {
  }
}
