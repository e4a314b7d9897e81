/**
 * src/App.jsx: the day's food diary kept by the main screen. The entries,
 * the goal and the language are persisted by the storage hooks; the form
 * fields are component state. Handlers update that state step by step.
 */
module Diary {
  import opened JsValues
  import opened JsStrings
  import Helpers
  import GoalModal

  /**
   * One diary entry. The names are JavaScript values: the typed text, or
   * whatever truthy value the AI's answer gave. `calories` is a JavaScript
   * number: finite, or NaN (`NotFinite`) when neither the form nor the AI
   * supplied a number.
   */
  datatype Entry = Entry(id: int, nameEn: Value, nameAr: Value, calories: Num, time: string)

  /** JavaScript `+` on two numbers: NaN absorbs. */
  function Add(a: Num, b: Num): (r: Num)
    ensures r.Finite? <==> a.Finite? && b.Finite?
  {
    if a.Finite? && b.Finite? then Finite(a.x + b.x) else NotFinite
  }

  /** `entries.reduce((sum, e) => sum + e.calories, 0)` */
  function TotalEaten(entries: seq<Entry>): Num {
    if entries == [] then Finite(0.0) else Add(entries[0].calories, TotalEaten(entries[1..]))
  }

  predicate AllFinite(entries: seq<Entry>) {
    forall k :: 0 <= k < |entries| ==> entries[k].calories.Finite?
  }

  /** The plain sum of the calories of entries that all have a finite value. */
  function Sum(entries: seq<Entry>): real
    requires AllFinite(entries)
  {
    if entries == [] then 0.0 else entries[0].calories.x + Sum(entries[1..])
  }

  /** The total is a number exactly when every entry's calories are, and then it is their sum. */
  lemma {:induction false} TotalEatenIsSum(entries: seq<Entry>)
    ensures TotalEaten(entries).Finite? <==> AllFinite(entries)
    ensures AllFinite(entries) ==> TotalEaten(entries) == Finite(Sum(entries))
  {
    if entries != [] {
      TotalEatenIsSum(entries[1..]);
      assert AllFinite(entries) <==> entries[0].calories.Finite? && AllFinite(entries[1..]);
    }
  }

  /** The goal as `goal - totalEaten` sees it: `null` converts to 0. */
  function GoalNumber(goal: Option<int>): real {
    if goal.Some? then goal.value as real else 0.0
  }

  /** `Math.max(goal - totalEaten, 0)`; NaN when the total is NaN. */
  function Remaining(goal: Option<int>, total: Num): (r: Num)
    ensures r.Finite? <==> total.Finite?
    ensures r.Finite? ==> r.x >= 0.0 && r.x >= GoalNumber(goal) - total.x
    ensures r.Finite? ==> r.x == 0.0 || r.x == GoalNumber(goal) - total.x
  {
    match total
    case NotFinite => NotFinite
    case Finite(t) =>
      var left := GoalNumber(goal) - t;
      Finite(if left > 0.0 then left else 0.0)
  }

  /** `goal !== null && totalEaten > goal` */
  predicate OverGoal(goal: Option<int>, total: Num) {
    goal.Some? && total.Finite? && total.x > goal.value as real
  }

  /** Over the goal nothing remains; on or under a set goal, the rest of it remains. */
  lemma RemainingAndOverGoal(goal: Option<int>, total: Num)
    ensures OverGoal(goal, total) ==> Remaining(goal, total) == Finite(0.0)
    ensures goal.Some? && total.Finite? && !OverGoal(goal, total) ==>
      Remaining(goal, total) == Finite(goal.value as real - total.x)
  {
  }

  /** `prev.filter((e) => e.id !== id)` */
  function RemoveId(entries: seq<Entry>, id: int): (r: seq<Entry>)
    ensures |r| <= |entries|
    ensures forall k :: 0 <= k < |r| ==> r[k].id != id
  {
    if entries == [] then []
    else if entries[0].id != id then [entries[0]] + RemoveId(entries[1..], id)
    else RemoveId(entries[1..], id)
  }

  /** How many entries carry `id`. */
  function CountId(entries: seq<Entry>, id: int): nat {
    if entries == [] then 0 else (if entries[0].id == id then 1 else 0) + CountId(entries[1..], id)
  }

  /** Deleting keeps exactly the entries with another id, and drops exactly those with this one. */
  lemma {:induction false} RemoveIdMembers(entries: seq<Entry>, id: int, e: Entry)
    ensures e in RemoveId(entries, id) <==> e in entries && e.id != id
    ensures |RemoveId(entries, id)| + CountId(entries, id) == |entries|
  {
    if entries != [] {
      RemoveIdMembers(entries[1..], id, e);
      assert entries == [entries[0]] + entries[1..];
    }
  }

  /** Deleting from a concatenation deletes from each part in place: the kept entries keep their order. */
  lemma {:induction false} RemoveIdConcat(a: seq<Entry>, b: seq<Entry>, id: int)
    ensures RemoveId(a + b, id) == RemoveId(a, id) + RemoveId(b, id)
  {
    if a != [] {
      assert (a + b)[1..] == a[1..] + b;
      RemoveIdConcat(a[1..], b, id);
    }
    else {
      assert a + b == b;
    }
  }

  /** Deleting an id no entry carries changes nothing, and deleting twice is deleting once. */
  lemma {:induction false} RemoveIdUnchanged(entries: seq<Entry>, id: int)
    ensures CountId(entries, id) == 0 ==> RemoveId(entries, id) == entries
    ensures RemoveId(RemoveId(entries, id), id) == RemoveId(entries, id)
  {
    if entries != [] {
      RemoveIdUnchanged(entries[1..], id);
    }
  }

  /** `safeParse(text)`: null for empty or non-string text and for text `JSON.parse` refuses. */
  function SafeParse(text: Value, parse: JsonParser): (r: Json)
    ensures !Truthy(text) || !text.json.JStr? ==> r == JNull
    ensures r == JNull || (text == Str(text.json.s) && parse(text.json.s) == Ok(r))
    ensures Truthy(text) && text.json.JStr? && parse(text.json.s).Ok? ==> r == parse(text.json.s).value
  {
    if !Truthy(text) || !text.json.JStr? then JNull
    else match parse(text.json.s)
      case Ok(v) => v
      case Err(_) => JNull
  }

  /** `parseInt(calories, 10)` when it passes `!cal`, i.e. is neither NaN nor 0. */
  function ManualCalories(calories: string): (c: Option<int>)
    ensures c.Some? ==> c.value != 0 && ParseInt(calories) == c
    ensures c.None? ==> ParseInt(calories) == None || ParseInt(calories) == Some(0)
  {
    match ParseInt(calories)
    case Some(n) => if n != 0 then Some(n) else None
    case None => None
  }

  /** `result.calories || 0` */
  function CaloriesOr0(value: Value): Num {
    if !Truthy(value) then Finite(0.0)
    else if value.json.JNum? then Finite(value.json.n)
    else NotFinite
  }

  /**
   * The entry `handleAdd` builds from the form. `estimate` is what
   * `callAI(buildEstimatePrompt(foodName.trim()))` resolves to, or the
   * value it rejects with; it is consulted only when the form's calories
   * are NaN or 0. `id` and `time` are the clock's `Date.now()` and
   * formatted time.
   */
  function AddedEntry(foodName: string, foodNameEn: string, foodNameAr: string, calories: string,
                      id: int, time: string, estimate: Result<string, Value>, parse: JsonParser): Entry
  {
    var en := Or(Str(foodNameEn), Str(Trim(foodName)));
    var ar := Or(Str(foodNameAr), Str(Trim(foodName)));
    match ManualCalories(calories)
    case Some(cal) => Entry(id, en, ar, Finite(cal as real), time)
    case None =>
      match estimate
      case Err(_) => Entry(id, en, ar, Finite(0.0), time)
      case Ok(text) => AnsweredEntry(id, en, ar, ParseInt(calories), time, Defined(SafeParse(Str(text), parse)))
  }

  /**
   * The entry built once the AI's text is parsed into `result`. A falsy
   * `result` has no properties, so `result.foodName || en` is `en` then,
   * just as when the `if (result)` block is skipped.
   */
  function AnsweredEntry(id: int, en: Value, ar: Value, cal: Option<int>, time: string, result: Value): Entry {
    Entry(id, Or(Field(result, "foodName"), en), Or(Field(result, "foodNameAr"), ar),
          if Truthy(result) then CaloriesOr0(Field(result, "calories"))
          else if cal.Some? then Finite(cal.value as real) else NotFinite,
          time)
  }

  /**
   * A nonzero calorie count typed into the form is kept whatever the AI
   * would answer; when the AI call throws, the entry gets 0 calories.
   * Either way the names fall back to the trimmed text typed.
   */
  lemma AddedEntryCalories(foodName: string, foodNameEn: string, foodNameAr: string, calories: string,
                           id: int, time: string, estimate: Result<string, Value>, other: Result<string, Value>,
                           parse: JsonParser)
    ensures var e := AddedEntry(foodName, foodNameEn, foodNameAr, calories, id, time, estimate, parse);
      e.id == id && e.time == time
    ensures ManualCalories(calories).Some? ==>
      var e := AddedEntry(foodName, foodNameEn, foodNameAr, calories, id, time, estimate, parse);
      e == AddedEntry(foodName, foodNameEn, foodNameAr, calories, id, time, other, parse)
      && e.calories == Finite(ManualCalories(calories).value as real)
      && e.nameEn == Str(if foodNameEn != "" then foodNameEn else Trim(foodName))
      && e.nameAr == Str(if foodNameAr != "" then foodNameAr else Trim(foodName))
    ensures ManualCalories(calories).None? && estimate.Err? ==>
      var e := AddedEntry(foodName, foodNameEn, foodNameAr, calories, id, time, estimate, parse);
      && e.calories == Finite(0.0)
      && e.nameEn == Str(if foodNameEn != "" then foodNameEn else Trim(foodName))
      && e.nameAr == Str(if foodNameAr != "" then foodNameAr else Trim(foodName))
  {
  }

  /**
   * When the AI is asked and its text parses to a truthy value, the entry's
   * calories are its `calories` when that is a truthy number, 0 when it is
   * falsy, and NaN for any other truthy value; when the text does not parse
   * to a truthy value, the form's count stays, 0 or NaN.
   */
  lemma AddedEntryAnsweredCalories(foodName: string, foodNameEn: string, foodNameAr: string, calories: string,
                                   id: int, time: string, text: string, parse: JsonParser)
    requires ManualCalories(calories).None?
    ensures var result := Defined(SafeParse(Str(text), parse));
      var c := Field(result, "calories");
      var e := AddedEntry(foodName, foodNameEn, foodNameAr, calories, id, time, Ok(text), parse);
      && (Truthy(result) && !Truthy(c) ==> e.calories == Finite(0.0))
      && (Truthy(result) && Truthy(c) && c.json.JNum? ==> e.calories == Finite(c.json.n))
      && (Truthy(result) && Truthy(c) && !c.json.JNum? ==> e.calories == NotFinite)
      && (!Truthy(result) ==> e.calories == (if ParseInt(calories).Some? then Finite(0.0) else NotFinite))
  {
    var result := Defined(SafeParse(Str(text), parse));
    var en := Or(Str(foodNameEn), Str(Trim(foodName)));
    var ar := Or(Str(foodNameAr), Str(Trim(foodName)));
    assert AddedEntry(foodName, foodNameEn, foodNameAr, calories, id, time, Ok(text), parse)
             == AnsweredEntry(id, en, ar, ParseInt(calories), time, result);
  }

  /**
   * When the AI is asked, a truthy `foodName` in its parsed answer becomes
   * the English name whatever kind of value it is; otherwise the English
   * name typed, or else the trimmed text typed, is kept.
   */
  lemma AddedEntryNameEn(foodName: string, foodNameEn: string, foodNameAr: string, calories: string,
                         id: int, time: string, text: string, parse: JsonParser)
    requires ManualCalories(calories).None?
    ensures var answer := Field(Defined(SafeParse(Str(text), parse)), "foodName");
      Truthy(answer) ==> AddedEntry(foodName, foodNameEn, foodNameAr, calories, id, time, Ok(text), parse).nameEn == answer
    ensures var answer := Field(Defined(SafeParse(Str(text), parse)), "foodName");
      !Truthy(answer) ==> AddedEntry(foodName, foodNameEn, foodNameAr, calories, id, time, Ok(text), parse).nameEn
                            == Str(if foodNameEn != "" then foodNameEn else Trim(foodName))
  {
    var result := Defined(SafeParse(Str(text), parse));
    var en := Or(Str(foodNameEn), Str(Trim(foodName)));
    var ar := Or(Str(foodNameAr), Str(Trim(foodName)));
    assert AddedEntry(foodName, foodNameEn, foodNameAr, calories, id, time, Ok(text), parse)
             == AnsweredEntry(id, en, ar, ParseInt(calories), time, result);
    assert en == Str(if foodNameEn != "" then foodNameEn else Trim(foodName));
  }

  /** The same for the Arabic name and the answer's `foodNameAr`. */
  lemma AddedEntryNameAr(foodName: string, foodNameEn: string, foodNameAr: string, calories: string,
                         id: int, time: string, text: string, parse: JsonParser)
    requires ManualCalories(calories).None?
    ensures var answer := Field(Defined(SafeParse(Str(text), parse)), "foodNameAr");
      Truthy(answer) ==> AddedEntry(foodName, foodNameEn, foodNameAr, calories, id, time, Ok(text), parse).nameAr == answer
    ensures var answer := Field(Defined(SafeParse(Str(text), parse)), "foodNameAr");
      !Truthy(answer) ==> AddedEntry(foodName, foodNameEn, foodNameAr, calories, id, time, Ok(text), parse).nameAr
                            == Str(if foodNameAr != "" then foodNameAr else Trim(foodName))
  {
    var result := Defined(SafeParse(Str(text), parse));
    var en := Or(Str(foodNameEn), Str(Trim(foodName)));
    var ar := Or(Str(foodNameAr), Str(Trim(foodName)));
    assert AddedEntry(foodName, foodNameEn, foodNameAr, calories, id, time, Ok(text), parse)
             == AnsweredEntry(id, en, ar, ParseInt(calories), time, result);
    assert ar == Str(if foodNameAr != "" then foodNameAr else Trim(foodName));
  }

  /** An entry added from a non-blank name has a truthy name in both languages. */
  lemma AddedEntryNamed(foodName: string, foodNameEn: string, foodNameAr: string, calories: string,
                        id: int, time: string, estimate: Result<string, Value>, parse: JsonParser)
    requires Trim(foodName) != ""
    ensures var e := AddedEntry(foodName, foodNameEn, foodNameAr, calories, id, time, estimate, parse);
      Truthy(e.nameEn) && Truthy(e.nameAr)
  {
    var en := Or(Str(foodNameEn), Str(Trim(foodName)));
    var ar := Or(Str(foodNameAr), Str(Trim(foodName)));
    assert Truthy(en) && Truthy(ar);
    if ManualCalories(calories).None? && estimate.Ok? {
      var result := Defined(SafeParse(Str(estimate.value), parse));
      assert Truthy(Or(Field(result, "foodName"), en)) && Truthy(Or(Field(result, "foodNameAr"), ar));
    }
  }

  /** An entry added from a non-blank name shows a truthy name in every language. */
  lemma AddedEntryShown(foodName: string, foodNameEn: string, foodNameAr: string, calories: string,
                        id: int, time: string, estimate: Result<string, Value>, parse: JsonParser, lang: string)
    requires Trim(foodName) != ""
    ensures var e := AddedEntry(foodName, foodNameEn, foodNameAr, calories, id, time, estimate, parse);
      Truthy(Helpers.EntryName(e.nameEn, e.nameAr, lang))
  {
    AddedEntryNamed(foodName, foodNameEn, foodNameAr, calories, id, time, estimate, parse);
  }

  /**
   * A number the AI gives as `foodName` is stored as the English name as it
   * is, whatever name was typed.
   */
  lemma NumberNameKept(foodName: string, foodNameEn: string, foodNameAr: string, calories: string,
                       id: int, time: string, text: string, parse: JsonParser)
    requires ManualCalories(calories).None? && text != ""
    requires parse(text) == Ok(JObj(map["foodName" := JNum(5.0)]))
    ensures AddedEntry(foodName, foodNameEn, foodNameAr, calories, id, time, Ok(text), parse).nameEn
              == Defined(JNum(5.0))
  {
    var result := JObj(map["foodName" := JNum(5.0)]);
    assert SafeParse(Str(text), parse) == result;
    assert Field(Defined(result), "foodName") == Defined(JNum(5.0));
    AddedEntryNameEn(foodName, foodNameEn, foodNameAr, calories, id, time, text, parse);
  }

  /**
   * An AI answer that is not JSON leaves the form's calories in place; when
   * the form's field was not a number, that is NaN.
   */
  lemma UnparsedAnswerKeepsNaN(foodName: string, foodNameEn: string, foodNameAr: string,
                               id: int, time: string, text: string, parse: JsonParser)
    requires parse(text).Err?
    ensures AddedEntry(foodName, foodNameEn, foodNameAr, "", id, time, Ok(text), parse).calories == NotFinite
  {
    assert TrimStart("") == "" && DigitPrefix("") == "";
    assert ParseInt("") == None && ManualCalories("") == None;
    assert SafeParse(Str(text), parse) == JNull;
    AddedEntryAnsweredCalories(foodName, foodNameEn, foodNameAr, "", id, time, text, parse);
  }

  /** The main screen's state. */
  class Diary {
    var lang: string
    var goal: Option<int>
    var entries: seq<Entry>
    var foodName: string
    var foodNameEn: string
    var foodNameAr: string
    var calories: string
    var previewUrl: Option<string>

    /** The values the storage hooks and `useState` start a new user with. */
    constructor ()
      ensures lang == "en" && goal == None && entries == []
      ensures foodName == "" && foodNameEn == "" && foodNameAr == "" && calories == "" && previewUrl == None
    {
      lang, goal, entries := "en", None, [];
      foodName, foodNameEn, foodNameAr, calories, previewUrl := "", "", "", "", None;
    }

    /** `resetForm()`: every form field cleared; diary, goal and language untouched. */
    method ResetForm()
      modifies this
      ensures foodName == "" && foodNameEn == "" && foodNameAr == "" && calories == "" && previewUrl == None
      ensures lang == old(lang) && goal == old(goal) && entries == old(entries)
    {
      foodName := "";
      foodNameEn := "";
      foodNameAr := "";
      calories := "";
      previewUrl := None;
    }

    /** `handleFoodNameChange(value)`: the typed name belongs to the active language only. */
    method HandleFoodNameChange(value: string)
      modifies this
      ensures foodName == value
      ensures lang == "ar" ==> foodNameAr == value && foodNameEn == ""
      ensures lang != "ar" ==> foodNameEn == value && foodNameAr == ""
      ensures lang == old(lang) && goal == old(goal) && entries == old(entries)
      ensures calories == old(calories) && previewUrl == old(previewUrl)
    {
      foodName := value;
      if lang == "ar" {
        foodNameAr := value;
        foodNameEn := "";
      } else {
        foodNameEn := value;
        foodNameAr := "";
      }
    }

    /** The effect on `[lang, foodNameEn, foodNameAr]`: the shown name follows the language. */
    method SyncFoodName()
      modifies this
      ensures foodNameEn != "" || foodNameAr != "" ==>
        foodName == Helpers.GetEntryName(foodNameEn, foodNameAr, lang)
      ensures foodNameEn == "" && foodNameAr == "" ==> foodName == old(foodName)
      ensures lang == old(lang) && goal == old(goal) && entries == old(entries)
      ensures foodNameEn == old(foodNameEn) && foodNameAr == old(foodNameAr)
      ensures calories == old(calories) && previewUrl == old(previewUrl)
    {
      if foodNameEn != "" || foodNameAr != "" {
        foodName := if lang == "ar" then (if foodNameAr != "" then foodNameAr else foodNameEn)
                    else (if foodNameEn != "" then foodNameEn else foodNameAr);
      }
    }

    /** Typing a name and letting the effect run shows the typed name, in either language. */
    method TypeName(value: string)
      modifies this
      ensures foodName == value
      ensures lang == old(lang) && goal == old(goal) && entries == old(entries)
    {
      HandleFoodNameChange(value);
      SyncFoodName();
      Helpers.SingleNameShownEverywhere(value, lang);
    }

    /**
     * `handleAdd()`: nothing happens when the trimmed name is empty;
     * otherwise one entry is prepended, the earlier entries follow it
     * unchanged, and the form is cleared.
     */
    method HandleAdd(id: int, time: string, estimate: Result<string, Value>, parse: JsonParser)
      modifies this
      ensures Trim(old(foodName)) == "" ==>
        entries == old(entries) && foodName == old(foodName) && foodNameEn == old(foodNameEn)
        && foodNameAr == old(foodNameAr) && calories == old(calories) && previewUrl == old(previewUrl)
      ensures Trim(old(foodName)) != "" ==>
        entries == [AddedEntry(old(foodName), old(foodNameEn), old(foodNameAr), old(calories),
                               id, time, estimate, parse)] + old(entries)
        && foodName == "" && foodNameEn == "" && foodNameAr == "" && calories == "" && previewUrl == None
      ensures lang == old(lang) && goal == old(goal)
    {
      if Trim(foodName) == "" {
        return;
      }
      var entry := AddedEntry(foodName, foodNameEn, foodNameAr, calories, id, time, estimate, parse);
      entries := [entry] + entries;
      ResetForm();
    }

    /** `handleDelete(id)` */
    method HandleDelete(id: int)
      modifies this
      ensures entries == RemoveId(old(entries), id)
      ensures lang == old(lang) && goal == old(goal)
      ensures foodName == old(foodName) && foodNameEn == old(foodNameEn) && foodNameAr == old(foodNameAr)
      ensures calories == old(calories) && previewUrl == old(previewUrl)
    {
      entries := RemoveId(entries, id);
    }

    /** `handleReset()`: `confirmed` is the answer to `window.confirm`. */
    method HandleReset(confirmed: bool)
      modifies this
      ensures confirmed ==> goal == None && entries == []
      ensures !confirmed ==> goal == old(goal) && entries == old(entries)
      ensures lang == old(lang)
      ensures foodName == old(foodName) && foodNameEn == old(foodNameEn) && foodNameAr == old(foodNameAr)
      ensures calories == old(calories) && previewUrl == old(previewUrl)
    {
      if confirmed {
        goal := None;
        entries := [];
      }
    }

    /** The goal modal's submit: `onSave` sets the goal when the typed value is in range. */
    method SubmitGoal(value: string)
      modifies this
      ensures goal == (if GoalModal.SubmittedGoal(value).Some? then GoalModal.SubmittedGoal(value) else old(goal))
      ensures lang == old(lang) && entries == old(entries)
      ensures foodName == old(foodName) && foodNameEn == old(foodNameEn) && foodNameAr == old(foodNameAr)
      ensures calories == old(calories) && previewUrl == old(previewUrl)
    {
      var g := GoalModal.SubmittedGoal(value);
      goal := if g.Some? then g else goal;
    }
  }

  /**
   * Adding then deleting: the new entry counts towards the total, and
   * deleting its id (carried by no earlier entry) gives back the old list.
   */
  lemma AddThenDelete(entry: Entry, entries: seq<Entry>)
    requires CountId(entries, entry.id) == 0
    ensures TotalEaten([entry] + entries) == Add(entry.calories, TotalEaten(entries))
    ensures RemoveId([entry] + entries, entry.id) == entries
  {
    assert ([entry] + entries)[1..] == entries;
    RemoveIdUnchanged(entries, entry.id);
  }
}
