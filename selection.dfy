/** The questionnaire's menu parsing: the single-choice range check of
    `_ask_multichoice` and the comprehensions of `_ask_activities` and
    `_ask_cuisines` that turn whitespace-separated tokens into 1-based picks. */
module Selection {

  import opened Wrappers
  import opened Text

  const TRIP_TYPES: seq<string> := ["Beach", "Mountain", "City"]
  const BUDGET_OPTIONS: seq<string> := ["Low ($0-$300)", "Medium ($300-$500)", "High ($500+)"]
  const BUDGET_RANGES: seq<(int, int)> := [(0, 300), (300, 500), (500, 9999)]
  const ACCOMMODATIONS: seq<string> := ["Hotel", "Villa", "Apartment"]
  const SEASONS: seq<string> := ["Summer", "Winter", "Spring", "Fall"]
  const CUISINES: seq<string> := ["Local", "Vegetarian", "Seafood", "Street food", "Meat", "Vegan"]

  /** The activity menu offered for each (lower-cased) trip type. */
  const ACTIVITY_GROUPS: map<string, seq<string>> := map[
    "beach" := ["Surfing", "Snorkeling", "Spa"],
    "mountain" := ["Skiing", "Snowboarding", "Mountain climbing"],
    "city" := ["Shopping", "Museums", "City tours"]
  ]

  /** One attempt of the single-choice prompt: the lower-cased option for a
      number in 1..|options|, None when the prompt would repeat. */
  function PickOne(choice: int, options: seq<string>): (r: Option<string>)
    ensures r.Some? <==> 1 <= choice <= |options|
    ensures r.Some? ==> r.value == Lower(options[choice - 1]) && !(exists k :: 0 <= k < |r.value| && IsUpperChar(r.value[k]))
  {
    if 1 <= choice <= |options| then Some(Lower(options[choice - 1])) else None
  }

  /** The budget prompt: the chosen label together with its price range. */
  function PickBudget(choice: int): (r: Option<(string, (int, int))>)
    ensures r.Some? <==> 1 <= choice <= 3
    ensures r.Some? ==> r.value == (Lower(BUDGET_OPTIONS[choice - 1]), BUDGET_RANGES[choice - 1])
    ensures r.Some? ==> r.value.1.0 <= r.value.1.1
  {
    if 1 <= choice <= |BUDGET_OPTIONS| then Some((Lower(BUDGET_OPTIONS[choice - 1]), BUDGET_RANGES[choice - 1]))
    else None
  }

  /** A token the comprehension keeps: `s.isdigit() and 0 < int(s) <= n`. */
  predicate IsValidPick(t: string, n: nat) {
    IsDigits(t) && 0 < DigitsValue(t) <= n
  }

  /** Every trip type the first question offers, lower-cased as
      `_ask_activities` receives it, has an activity menu. */
  lemma TripTypeHasActivities(choice: int)
    ensures PickOne(choice, TRIP_TYPES).Some? ==> PickOne(choice, TRIP_TYPES).value in ACTIVITY_GROUPS
  {
    if choice == 1 {
      assert Lower("Beach") == "beach";
    } else if choice == 2 {
      assert Lower("Mountain") == "mountain";
    } else if choice == 3 {
      assert Lower("City") == "city";
    }
  }

  /** For a menu of at most nine entries, a token is kept exactly when it is
      one digit naming an entry, possibly after leading zeros. */
  lemma ValidPickShape(t: string, n: nat)
    requires n <= 9
    ensures IsValidPick(t, n) <==>
      |t| > 0 && (forall i :: 0 <= i < |t| - 1 ==> t[i] == '0') && 1 <= t[|t| - 1] as int - '0' as int <= n
  {
    SmallDigitsShape(t, n);
  }

  /** What a single token contributes to the selection. */
  function TokenPick(t: string, options: seq<string>): (r: seq<string>)
    ensures |r| <= 1
    ensures r != [] <==> IsValidPick(t, |options|)
  {
    if IsValidPick(t, |options|) then [Lower(options[DigitsValue(t) - 1])] else []
  }

  /** `[options[int(s) - 1].lower() for s in tokens if s.isdigit() and 0 < int(s) <= len(options)]` */
  function ParseSelections(tokens: seq<string>, options: seq<string>): (r: seq<string>)
    ensures |r| <= |tokens|
  {
    if tokens == [] then []
    else TokenPick(tokens[0], options) + ParseSelections(tokens[1..], options)
  }

  /** The tokens that the comprehension keeps, in input order. */
  function ValidTokens(tokens: seq<string>, n: nat): (r: seq<string>)
    ensures |r| <= |tokens|
    ensures forall i :: 0 <= i < |r| ==> r[i] in tokens && IsValidPick(r[i], n)
  {
    if tokens == [] then []
    else (if IsValidPick(tokens[0], n) then [tokens[0]] else []) + ValidTokens(tokens[1..], n)
  }

  /** The selection is exactly the valid tokens, in token order and with
      duplicates kept, each mapped to its lower-cased option. */
  lemma {:induction false} ParseSelectionsIsValidTokensMapped(tokens: seq<string>, options: seq<string>)
    ensures |ParseSelections(tokens, options)| == |ValidTokens(tokens, |options|)|
    ensures forall i :: 0 <= i < |ValidTokens(tokens, |options|)| ==>
      ParseSelections(tokens, options)[i] == Lower(options[DigitsValue(ValidTokens(tokens, |options|)[i]) - 1])
  {
    if tokens != [] {
      var rest := tokens[1..];
      ParseSelectionsIsValidTokensMapped(rest, options);
      var v, vr := ValidTokens(tokens, |options|), ValidTokens(rest, |options|);
      var ps, pr := ParseSelections(tokens, options), ParseSelections(rest, options);
      if IsValidPick(tokens[0], |options|) {
        assert v == [tokens[0]] + vr;
        assert ps == [Lower(options[DigitsValue(tokens[0]) - 1])] + pr;
        forall i | 0 <= i < |v|
          ensures ps[i] == Lower(options[DigitsValue(v[i]) - 1])
        {
          if i > 0 {
            assert v[i] == vr[i - 1] && ps[i] == pr[i - 1];
          }
        }
      } else {
        assert v == vr && ps == pr;
      }
    }
  }

  /** The selection is empty exactly when no token is a valid pick. */
  lemma {:induction false} ParseSelectionsEmpty(tokens: seq<string>, options: seq<string>)
    ensures ParseSelections(tokens, options) == [] <==> forall i :: 0 <= i < |tokens| ==> !IsValidPick(tokens[i], |options|)
  {
    if tokens != [] {
      ParseSelectionsEmpty(tokens[1..], options);
      if ParseSelections(tokens, options) == [] {
        forall i | 0 <= i < |tokens|
          ensures !IsValidPick(tokens[i], |options|)
        {
          if i > 0 {
            assert tokens[i] == tokens[1..][i - 1];
          }
        }
      }
    }
  }

  /** Every selected label is the lower-cased form of a menu option. */
  lemma {:induction false} ParseSelectionsFromOptions(tokens: seq<string>, options: seq<string>)
    ensures forall x :: x in ParseSelections(tokens, options) ==> exists k :: 0 <= k < |options| && x == Lower(options[k])
  {
    if tokens != [] {
      ParseSelectionsFromOptions(tokens[1..], options);
    }
  }

  /** Parsing distributes over concatenation of the token list, so the
      selection follows token order. */
  lemma {:induction false} ParseSelectionsAppend(a: seq<string>, b: seq<string>, options: seq<string>)
    ensures ParseSelections(a + b, options) == ParseSelections(a, options) + ParseSelections(b, options)
  {
    if a == [] {
      assert a + b == b;
    } else {
      var rest := a[1..];
      assert (a + b)[0] == a[0] && (a + b)[1..] == rest + b;
      ParseSelectionsAppend(rest, b, options);
      var head := TokenPick(a[0], options);
      assert ParseSelections(a + b, options) == head + ParseSelections(rest + b, options);
      assert ParseSelections(a, options) == head + ParseSelections(rest, options);
    }
  }

  /** One attempt of a multi-select prompt: the selection when it is
      non-empty, None when the prompt would repeat. */
  function Choose(tokens: seq<string>, options: seq<string>): (r: Option<seq<string>>)
    ensures r.Some? <==> exists i :: 0 <= i < |tokens| && IsValidPick(tokens[i], |options|)
    ensures r.Some? ==> r.value != [] && r.value == ParseSelections(tokens, options)
  {
    ParseSelectionsEmpty(tokens, options);
    var picked := ParseSelections(tokens, options);
    if picked == [] then None else Some(picked)
  }

  /** `_ask_activities` for one line of input. */
  function AskActivities(tripType: string, tokens: seq<string>): (r: Option<seq<string>>)
    requires tripType in ACTIVITY_GROUPS
    ensures r.Some? ==> r.value != []
    ensures r.Some? ==> forall x :: x in r.value ==>
      exists k :: 0 <= k < |ACTIVITY_GROUPS[tripType]| && x == Lower(ACTIVITY_GROUPS[tripType][k])
  {
    ParseSelectionsFromOptions(tokens, ACTIVITY_GROUPS[tripType]);
    Choose(tokens, ACTIVITY_GROUPS[tripType])
  }

  /** `_ask_cuisines` for one line of input. */
  function AskCuisines(tokens: seq<string>): (r: Option<seq<string>>)
    ensures r.Some? ==> r.value != []
    ensures r.Some? ==> forall x :: x in r.value ==> exists k :: 0 <= k < |CUISINES| && x == Lower(CUISINES[k])
  {
    ParseSelectionsFromOptions(tokens, CUISINES);
    Choose(tokens, CUISINES)
  }
}
