/** Worked cases on two entries of the source's catalog. */
module Examples {

  import opened Wrappers
  import opened Text
  import opened Selection
  import opened Ratings
  import opened Scoring

  /** Catalog entry "d1", Phuket Backpackers Hostel. */
  const PHUKET_HOSTEL := Destination("d1", "beach", 80, ["sunny", "warm"], ["Snorkeling", "Spa"], ["Hotel"], ["Local", "Street food"])

  /** Catalog entry "d2", Bali Beach Resort. */
  const BALI_RESORT := Destination("d2", "beach", 350, ["sunny", "warm"], ["Surfing", "Spa"], ["Hotel", "Villa"], ["Seafood", "Local"])

  /** A low-budget summer beach trip: snorkeling, a hotel, local food. */
  const SUMMER_BEACH := Prefs("beach", 0, 300, ["snorkeling"], "hotel", ["local"], Some("summer"))

  lemma LowerSetOne(a: string)
    ensures LowerSet([a]) == {Lower(a)}
  {
    assert [a][0] == a;
  }

  lemma LowerSetTwo(a: string, b: string)
    ensures LowerSet([a, b]) == {Lower(a), Lower(b)}
  {
    var xs := [a, b];
    assert xs[0] == a && xs[1] == b;
    forall x | x in LowerSet(xs)
      ensures x == Lower(a) || x == Lower(b)
    {
      var i :| 0 <= i < |xs| && x == Lower(xs[i]);
    }
  }

  lemma SummerIsSunny()
    ensures Weather("summer") == "sunny"
  {
    assert Lower("summer") == "summer";
  }

  lemma HostelActivities()
    ensures MatchActivities(["snorkeling"], ["Snorkeling", "Spa"]) == Some({"snorkeling"})
  {
    LowerSetOne("snorkeling");
    LowerSetTwo("Snorkeling", "Spa");
    assert Lower("snorkeling") == "snorkeling" && Lower("Snorkeling") == "snorkeling" && Lower("Spa") == "spa";
    assert {"snorkeling"} * {"snorkeling", "spa"} == {"snorkeling"};
  }

  lemma ResortActivities()
    ensures MatchActivities(["snorkeling"], ["Surfing", "Spa"]) == Some({"surfing"})
  {
    LowerSetOne("snorkeling");
    LowerSetTwo("Surfing", "Spa");
    assert Lower("snorkeling") == "snorkeling" && Lower("Surfing") == "surfing" && Lower("Spa") == "spa";
  }

  lemma LocalCuisine(other: string)
    requires Lower(other) != "local"
    ensures CommonCuisines(["local"], ["Local", other]) == {"local"}
    ensures CommonCuisines(["local"], [other, "Local"]) == {"local"}
  {
    LowerSetTwo("Local", other);
    LowerSetTwo(other, "Local");
    assert Lower("Local") == "local";
    assert (set c | c in ["local"]) == {"local"};
  }

  /** The hostel matches on activity, cuisine and weather; the hotel choice
      does not match the capitalised "Hotel" (factor 0.5), so the total is
      1.025, rounded to 102 and clamped to 100. */
  lemma HostelScoresFullMarks()
    ensures Evaluate(SUMMER_BEACH, PHUKET_HOSTEL, Weather("summer"), map[], 0, 0)
      == Some(Recommendation("d1", 100, {"snorkeling"}, {"local"}, true))
  {
    SummerIsSunny();
    HostelActivities();
    assert Lower("Street food") == "street food";
    LocalCuisine("Street food");
    assert !AccommodationMatches("hotel", ["Hotel"]);
    assert TotalScore(1.0, 1.0, 1.5, 0.5, 1.0) == 1.025;
    assert RoundHalfEven(102.5) == 102;
  }

  /** The resort is over the low budget and is filtered out. */
  lemma ResortOverBudget()
    ensures Evaluate(SUMMER_BEACH, BALI_RESORT, Weather("summer"), map[], 0, 0) == None
  {
  }

  /** In the medium budget the resort gets the fallback activity "surfing";
      with two other users' ratings of 2 and 3 stars (average 2.5) the total
      is 0.95, shown as 95. */
  lemma ResortWithOthersRating()
    ensures Evaluate(SUMMER_BEACH.(budgetMin := 300, budgetMax := 500), BALI_RESORT, Weather("summer"), map[], 5, 2)
      == Some(Recommendation("d2", 95, {"surfing"}, {"local"}, true))
  {
    SummerIsSunny();
    ResortActivities();
    assert Lower("Seafood") == "seafood";
    LocalCuisine("Seafood");
    assert !AccommodationMatches("hotel", ["Hotel", "Villa"]);
    assert RatingFactor(map[], "d2", 5, 2) == 0.5;
    assert TotalScore(1.0, 1.0, 1.5, 0.5, 0.5) == 0.95;
    assert RoundHalfEven(95.0) == 95;
  }

  /** Tokens "2 9 x 2" on the beach activity menu pick "snorkeling" twice:
      out-of-range and non-digit tokens are dropped, duplicates kept. */
  lemma BeachActivityTokens()
    ensures AskActivities("beach", ["2", "9", "x", "2"]) == Some(["snorkeling", "snorkeling"])
  {
    var options := ACTIVITY_GROUPS["beach"];
    assert options == ["Surfing", "Snorkeling", "Spa"];
    assert TokenPick("2", options) == ["snorkeling"] by {
      assert "2"[0] == '2' && IsDigits("2") && DigitsValue("2") == 2;
      assert Lower("Snorkeling") == "snorkeling";
    }
    assert TokenPick("9", options) == [] by {
      assert "9"[0] == '9' && DigitsValue("9") == 9;
    }
    assert TokenPick("x", options) == [] by {
      assert "x"[0] == 'x';
    }
    var tokens := ["2", "9", "x", "2"];
    assert tokens[1..] == ["9", "x", "2"] && tokens[2..] == ["x", "2"] && tokens[3..] == ["2"];
    assert ParseSelections(["2"], options) == ["snorkeling"];
    assert ParseSelections(["x", "2"], options) == ["snorkeling"];
    assert ParseSelections(["9", "x", "2"], options) == ["snorkeling"];
    assert ParseSelections(tokens, options) == ["snorkeling", "snorkeling"];
  }

  /** The accommodation the questionnaire stores never matches a destination
      whose offers are all capitalised, as every catalog entry's are. */
  lemma MenuAccommodationNeverMatches(choice: int, offered: seq<string>)
    requires forall i :: 0 <= i < |offered| ==> |offered[i]| > 0 && IsUpperChar(offered[i][0])
    ensures PickOne(choice, ACCOMMODATIONS).Some? ==> !AccommodationMatches(PickOne(choice, ACCOMMODATIONS).value, offered)
  {
    if 1 <= choice <= |ACCOMMODATIONS| {
      CapitalisedAccommodationNeverMatches(ACCOMMODATIONS[choice - 1], offered);
    }
  }

  /** Each season on the menu, stored lower-cased, gives its own weather. */
  lemma SeasonMenuWeather(choice: int)
    requires 1 <= choice <= 4
    ensures Weather(PickOne(choice, SEASONS).value) == ["sunny", "snowy", "mild", "rainy"][choice - 1]
  {
    if choice == 1 {
      assert Lower("Summer") == "summer";
    } else if choice == 2 {
      assert Lower("Winter") == "winter";
    } else if choice == 3 {
      assert Lower("Spring") == "spring";
      assert Lower("spring") == "spring";
    } else {
      assert Lower("Fall") == "fall";
    }
  }
}
