/** An ordered table of (condition, outcome) rules evaluated first-match-wins:
    the shape shared by the chatbot's keyword dispatch and the screens'
    early-return validation chains. */
module FirstMatch {
  import opened Wrappers

  datatype Rule<T> = Rule(fires: bool, outcome: T)

  /** The outcome of the first rule that fires, or None when none does. */
  function First<T>(rules: seq<Rule<T>>): Option<T> {
    if rules == [] then None
    else if rules[0].fires then Some(rules[0].outcome)
    else First(rules[1..])
  }

  /** The earliest firing rule decides, whatever the later rules say. */
  lemma {:induction false} FirstPicksEarliest<T>(rules: seq<Rule<T>>, i: nat)
    requires i < |rules| && rules[i].fires
    requires forall j :: 0 <= j < i ==> !rules[j].fires
    ensures First(rules) == Some(rules[i].outcome)
    decreases i
  {
    if i > 0 {
      assert !rules[0].fires;
      FirstPicksEarliest(rules[1..], i - 1);
    }
  }

  /** No outcome exactly when no rule fires. */
  lemma {:induction false} FirstNoneIff<T>(rules: seq<Rule<T>>)
    ensures First(rules) == None <==> forall j :: 0 <= j < |rules| ==> !rules[j].fires
  {
    if rules != [] && !rules[0].fires {
      FirstNoneIff(rules[1..]);
      assert forall j :: 1 <= j < |rules| ==> rules[j] == rules[1..][j - 1];
    }
  }

  /** Any outcome comes from some rule of the table. */
  lemma {:induction false} FirstOutcomeIsListed<T>(rules: seq<Rule<T>>)
    ensures First(rules).Some? ==> exists j :: 0 <= j < |rules| && rules[j].outcome == First(rules).value
  {
    if rules != [] && !rules[0].fires {
      FirstOutcomeIsListed(rules[1..]);
      if First(rules).Some? {
        var j :| 0 <= j < |rules[1..]| && rules[1..][j].outcome == First(rules).value;
        assert rules[j + 1].outcome == First(rules).value;
      }
    }
  }
}
