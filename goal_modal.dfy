/**
 * src/components/GoalModal/GoalModal.jsx: the daily goal the modal hands to
 * `onSave` when the form is submitted.
 */
module GoalModal {
  import opened JsValues
  import opened JsStrings

  const MIN_GOAL := 500
  const MAX_GOAL := 10000

  /**
   * `handleSubmit`: the argument of `onSave`, or `None` when it is not
   * called. `parseInt` reads the leading digits; NaN fails both comparisons.
   */
  function SubmittedGoal(value: string): (goal: Option<int>)
    ensures goal.Some? ==> MIN_GOAL <= goal.value <= MAX_GOAL
    ensures goal.Some? <==> ParseInt(value).Some? && MIN_GOAL <= ParseInt(value).value <= MAX_GOAL
    ensures goal.Some? ==> goal == ParseInt(value)
  {
    match ParseInt(value)
    case None => None
    case Some(n) => if MIN_GOAL <= n <= MAX_GOAL then Some(n) else None
  }

  /** Every goal in range, typed as its decimal digits, is saved as that value. */
  lemma GoalInRangeSaved(n: int)
    requires MIN_GOAL <= n <= MAX_GOAL
    ensures SubmittedGoal(IntToString(n)) == Some(n)
  {
    ParseIntOfString(n);
  }

  /** The numbers just outside the range are refused. */
  lemma GoalBounds()
    ensures SubmittedGoal(IntToString(MIN_GOAL - 1)) == None
    ensures SubmittedGoal(IntToString(MAX_GOAL + 1)) == None
  {
    ParseIntOfString(MIN_GOAL - 1);
    ParseIntOfString(MAX_GOAL + 1);
  }

  /** Text with no leading digits is NaN, and nothing is saved. */
  lemma NotANumberRefused()
    ensures SubmittedGoal("abc") == None
    ensures SubmittedGoal("") == None
  {
    var s := "abc";
    assert s[0] == 'a' && !IsWhitespace(s[0]) && !IsDigit(s[0]);
    assert TrimStart(s) == s;
    assert DigitPrefix(s) == "";
    assert ParseSigned(s) == ParseDigits(s);
  }

  /** `parseInt` stops at the first non-digit: "2000kcal" saves 2000. */
  lemma TrailingUnitIgnored()
    ensures SubmittedGoal("2000kcal") == Some(2000)
  {
    assert NatToString(2000) == "2000";
    assert "2000kcal" == NatToString(2000) + "kcal";
    ParseIntOfNatural(2000, "kcal");
  }

  /** Exponent notation is not read: "1e4" reads as 1 and is refused. */
  lemma ExponentNotRead()
    ensures ParseInt("1e4") == Some(1) && SubmittedGoal("1e4") == None
  {
    assert "1e4" == NatToString(1) + "e4";
    ParseIntOfNatural(1, "e4");
  }
}
