/**
 * app/api/health-recommendations/route.ts: the route checks five required
 * numbers and then runs an embedded Python rule script that appends advice
 * rule by rule: calories against steps, BMI, weight trend, mood, and a
 * general entry when nothing else fired.
 */
module HealthRecommendations {
  import opened Common
  import opened JsText

  /**
   * The `mealTimes` member: missing (`JSON.stringify` drops an undefined
   * value, so the script's `{}` default applies), `null`, or an object
   * mapping meals to times of day.
   */
  datatype MealTimesField = Missing | Null | Given(times: map<string, string>)

  /** The JSON body; `None` for an absent (or null) value. Numbers are exact reals. */
  datatype HealthRequest = HealthRequest(
    bmi: Option<real>, calories: Option<real>, calorieTarget: Option<real>,
    steps: Option<real>, stepTarget: Option<real>,
    weight: Option<real>, weightHistory: Option<seq<real>>,
    mood: Option<string>, mealTimes: MealTimesField)

  /**
   * One appended entry. The f-string messages are represented by the values
   * they interpolate; `int(...)` truncates towards zero.
   */
  datatype Advice =
    | Activity(calories: real, caloriePercent: int, steps: real, stepPercent: int, suggestedSteps: int)
    | Nutrition(underPercent: int, stepPercent: int)
    | WeightManagement
    | WeightGain
    | MetabolicCheck
    | LowMood
    | EnergeticMood
    | StepsToGo(steps: real, remaining: real)
    | OnTrack
  {
    /** The entry's `type` field. */
    function Kind(): string
    {
      match this
      case Activity(_, _, _, _, _) => "activity"
      case Nutrition(_, _) => "nutrition"
      case WeightManagement => "health"
      case WeightGain => "health"
      case MetabolicCheck => "metabolic"
      case LowMood => "mood"
      case EnergeticMood => "mood"
      case _ => "general"
    }

    /** Which rule of the script appends it, in script order. */
    function Rule(): nat
    {
      match this
      case Activity(_, _, _, _, _) => 0
      case Nutrition(_, _) => 0
      case WeightManagement => 1
      case WeightGain => 1
      case MetabolicCheck => 2
      case LowMood => 3
      case EnergeticMood => 3
      case _ => 4
    }
  }

  /**
   * The script's input after the route's check: the five required numbers are
   * present. `mealTimes` is `None` when the script sees Python's `None`.
   */
  datatype Inputs = Inputs(
    bmi: real, calories: real, calorieTarget: real, steps: real, stepTarget: real,
    weight: Option<real>, weightHistory: seq<real>, mood: Option<string>, mealTimes: Option<map<string, string>>)

  datatype Response = Ok(recommendations: seq<Advice>) | Error(status: int, message: string)

  const MissingDataMessage: string := "Missing required data"

  predicate TruthyNumber(x: Option<real>) { x.Some? && x.value != 0.0 }

  /** `calories / calorie_target if calorie_target > 0 else 1`. */
  function CalorieRatio(i: Inputs): (r: real)
    ensures i.calorieTarget <= 0.0 ==> r == 1.0
    ensures i.calorieTarget > 0.0 ==> r * i.calorieTarget == i.calories
  {
    if i.calorieTarget > 0.0 then i.calories / i.calorieTarget else 1.0
  }

  /** `steps / step_target if step_target > 0 else 0`. */
  function StepRatio(i: Inputs): (r: real)
    ensures i.stepTarget <= 0.0 ==> r == 0.0
    ensures i.stepTarget > 0.0 ==> r * i.stepTarget == i.steps
  {
    if i.stepTarget > 0.0 then i.steps / i.stepTarget else 0.0
  }

  /** Calories against steps: activity or nutrition, never both. */
  function RatioRule(i: Inputs): (a: Option<Advice>)
    ensures a.Some? && a.value.Activity? <==> CalorieRatio(i) > 0.9 && StepRatio(i) < 0.5
    ensures a.Some? && a.value.Nutrition? <==> CalorieRatio(i) < 0.7 && StepRatio(i) > 0.8
    ensures a.Some? ==> a.value.Rule() == 0
  {
    var cr := CalorieRatio(i);
    var sr := StepRatio(i);
    if cr > 0.9 && sr < 0.5 then
      Some(Activity(i.calories, Truncate(cr * 100.0), i.steps, Truncate(sr * 100.0), Truncate(i.stepTarget * 0.7)))
    else if cr < 0.7 && sr > 0.8 then
      Some(Nutrition(Truncate((1.0 - cr) * 100.0), Truncate(sr * 100.0)))
    else None
  }

  /** BMI above 30 or below 18.5; nothing in between. */
  function BmiRule(i: Inputs): (a: Option<Advice>)
    ensures a == Some(WeightManagement) <==> i.bmi > 30.0
    ensures a == Some(WeightGain) <==> i.bmi < 18.5
    ensures a.None? <==> 18.5 <= i.bmi <= 30.0
  {
    if i.bmi > 30.0 then Some(WeightManagement)
    else if i.bmi < 18.5 then Some(WeightGain)
    else None
  }

  /** `all(recent[k] <= recent[k+1] ...)` over the last three samples. */
  predicate LastThreeNonDecreasing(h: seq<real>)
    requires |h| >= 3
  {
    var recent := h[|h| - 3..];
    forall k :: 0 <= k < |recent| - 1 ==> recent[k] <= recent[k + 1]
  }

  /** Weight rising over the last three samples despite a caloric deficit. */
  function MetabolicRule(i: Inputs): (a: Option<Advice>)
    ensures a.Some? <==> (TruthyNumber(i.weight) && |i.weightHistory| >= 3 && i.calories < i.calorieTarget
      && i.weightHistory[|i.weightHistory| - 3] <= i.weightHistory[|i.weightHistory| - 2] <= i.weightHistory[|i.weightHistory| - 1])
    ensures a.Some? ==> a.value == MetabolicCheck
  {
    var h := i.weightHistory;
    if TruthyNumber(i.weight) && |h| > 0 && |h| >= 3 then
      assert h[|h| - 3..][0] == h[|h| - 3] && h[|h| - 3..][1] == h[|h| - 2] && h[|h| - 3..][2] == h[|h| - 1];
      if i.calories < i.calorieTarget && LastThreeNonDecreasing(h) then Some(MetabolicCheck) else None
    else None
  }

  const BreakfastKey: string := "breakfast"

  /**
   * The mood rule tests `"breakfast" in meal_times` only for the moods "low"
   * and "energetic"; with `meal_times` being `None` that test raises
   * `TypeError` and the script stops.
   */
  predicate MoodRaises(i: Inputs)
  {
    i.mood.Some? && (i.mood.value == "low" || i.mood.value == "energetic") && i.mealTimes.None?
  }

  /**
   * Low mood without breakfast, or energetic mood after a breakfast before
   * "09:00" (compared as text). Where the rule raises, it appends nothing.
   */
  function MoodRule(i: Inputs): (a: Option<Advice>)
    ensures a == Some(LowMood) <==>
      i.mood == Some("low") && i.mealTimes.Some? && BreakfastKey !in i.mealTimes.value
    ensures a == Some(EnergeticMood) <==>
      && i.mood == Some("energetic") && i.mealTimes.Some? && BreakfastKey in i.mealTimes.value
      && LexLess(i.mealTimes.value[BreakfastKey], "09:00")
    ensures a.Some? ==> a == Some(LowMood) || a == Some(EnergeticMood)
    ensures MoodRaises(i) ==> a.None?
  {
    if i.mood.Some? && i.mood.value != "" && i.mealTimes.Some? then
      var times := i.mealTimes.value;
      if i.mood.value == "low" && BreakfastKey !in times then Some(LowMood)
      else if i.mood.value == "energetic" && BreakfastKey in times && LexLess(times[BreakfastKey], "09:00") then
        Some(EnergeticMood)
      else None
    else None
  }

  /** The entry appended when no rule fired. */
  function GeneralRule(i: Inputs): (a: Advice)
    ensures StepRatio(i) < 1.0 ==> a == StepsToGo(i.steps, i.stepTarget - i.steps)
    ensures StepRatio(i) >= 1.0 ==> a == OnTrack
  {
    if StepRatio(i) < 1.0 then StepsToGo(i.steps, i.stepTarget - i.steps) else OnTrack
  }

  function Entries(a: Option<Advice>): seq<Advice>
  {
    if a.Some? then [a.value] else []
  }

  /** What the script prints: the rule entries in order, or the general entry alone. */
  function Recommend(i: Inputs): seq<Advice>
  {
    Assemble(RatioRule(i), BmiRule(i), MetabolicRule(i), MoodRule(i), GeneralRule(i))
  }

  /** The entries of the four rules in order, or the general entry alone when none fired. */
  function Assemble(a: Option<Advice>, b: Option<Advice>, c: Option<Advice>, d: Option<Advice>, general: Advice): seq<Advice>
  {
    var fired := Entries(a) + Entries(b) + Entries(c) + Entries(d);
    if fired == [] then [general] else fired
  }

  /** What the script prints, or `None` when it raises. */
  function Script(i: Inputs): (r: Option<seq<Advice>>)
    ensures r.None? <==> MoodRaises(i)
    ensures r.Some? ==> r.value == Recommend(i)
  {
    if MoodRaises(i) then None else Some(Recommend(i))
  }

  /** The script, appending rule by rule; `None` when the mood rule raises. */
  method RunScript(i: Inputs) returns (printed: Option<seq<Advice>>)
    ensures printed == Script(i)
  {
    var recommendations := [];
    var ratio := RatioRule(i);
    if ratio.Some? {
      recommendations := recommendations + [ratio.value];
    }
    var bmi := BmiRule(i);
    if bmi.Some? {
      recommendations := recommendations + [bmi.value];
    }
    var metabolic := MetabolicRule(i);
    if metabolic.Some? {
      recommendations := recommendations + [metabolic.value];
    }
    if MoodRaises(i) {
      assert Script(i) == None;
      return None;
    }
    var mood := MoodRule(i);
    if mood.Some? {
      recommendations := recommendations + [mood.value];
    }
    assert recommendations == Entries(ratio) + Entries(bmi) + Entries(metabolic) + Entries(mood);
    if recommendations == [] {
      recommendations := recommendations + [GeneralRule(i)];
    }
    assert recommendations == Recommend(i);
    printed := Some(recommendations);
  }

  const FailureMessage: string := "Failed to generate recommendations"

  /** `!bmi || !calories || !calorieTarget || !steps || !stepTarget` fails for the body. */
  predicate HasRequired(b: HealthRequest)
  {
    && TruthyNumber(b.bmi) && TruthyNumber(b.calories) && TruthyNumber(b.calorieTarget)
    && TruthyNumber(b.steps) && TruthyNumber(b.stepTarget)
  }

  /**
   * The handler. `body` is `None` when the JSON cannot be read. A missing or
   * zero required number gives 400 before the script runs; absent optional
   * members take the script's `get` defaults; a script that raises, like an
   * unreadable body, gives 500.
   */
  function Respond(body: Option<HealthRequest>): (r: Response)
    ensures body.None? ==> r == Error(500, FailureMessage)
    ensures body.Some? && !HasRequired(body.value) ==> r == Error(400, MissingDataMessage)
    ensures body.Some? && HasRequired(body.value) && MoodRaises(ScriptInputs(body.value)) ==> r == Error(500, FailureMessage)
    ensures body.Some? && HasRequired(body.value) && !MoodRaises(ScriptInputs(body.value)) ==>
      r == Ok(Recommend(ScriptInputs(body.value)))
  {
    match body
    case None => Error(500, FailureMessage)
    case Some(b) =>
      if !TruthyNumber(b.bmi) || !TruthyNumber(b.calories) || !TruthyNumber(b.calorieTarget)
        || !TruthyNumber(b.steps) || !TruthyNumber(b.stepTarget) then
        Error(400, MissingDataMessage)
      else match Script(ScriptInputs(b))
        case None => Error(500, FailureMessage)
        case Some(recommendations) => Ok(recommendations)
  }

  function ScriptInputs(b: HealthRequest): Inputs
  {
    Inputs(b.bmi.GetOr(0.0), b.calories.GetOr(0.0), b.calorieTarget.GetOr(0.0), b.steps.GetOr(0.0), b.stepTarget.GetOr(0.0),
      b.weight, b.weightHistory.GetOr([]), b.mood,
      match b.mealTimes
      case Missing => Some(map[])
      case Null => None
      case Given(times) => Some(times))
  }

  /** Entries of rules 0 to 3, each present or not, assembled in that order. */
  lemma AssembleInRuleOrder(a: Option<Advice>, b: Option<Advice>, c: Option<Advice>, d: Option<Advice>, general: Advice)
    requires a.Some? ==> a.value.Rule() == 0
    requires b.Some? ==> b.value.Rule() == 1
    requires c.Some? ==> c.value.Rule() == 2
    requires d.Some? ==> d.value.Rule() == 3
    requires general.Rule() == 4
    ensures var recs := Assemble(a, b, c, d, general);
      && 1 <= |recs| <= 4
      && (forall j, k :: 0 <= j < k < |recs| ==> recs[j].Rule() < recs[k].Rule())
      && ((exists j :: 0 <= j < |recs| && recs[j].Rule() == 4) <==> a.None? && b.None? && c.None? && d.None?)
      && (recs[0].Rule() == 4 ==> recs == [general])
  {
    var ea, eb, ec, ed := Entries(a), Entries(b), Entries(c), Entries(d);
    var fired := ea + eb + ec + ed;
    assert forall x :: 0 <= x < |fired| ==>
      fired[x].Rule() == (if x < |ea| then 0 else if x < |ea| + |eb| then 1 else if x < |ea| + |eb| + |ec| then 2 else 3);
    if fired == [] {
      assert Assemble(a, b, c, d, general)[0] == general;
    }
  }

  /**
   * The output is never empty; rule entries come in script order, at most one
   * per rule; the general entry appears exactly when no rule fired, and then
   * alone.
   */
  lemma RecommendShape(i: Inputs)
    ensures var recs := Recommend(i);
      && 1 <= |recs| <= 4
      && (forall j, k :: 0 <= j < k < |recs| ==> recs[j].Rule() < recs[k].Rule())
      && ((exists j :: 0 <= j < |recs| && recs[j].Rule() == 4) <==>
            RatioRule(i).None? && BmiRule(i).None? && MetabolicRule(i).None? && MoodRule(i).None?)
      && (recs[0].Rule() == 4 ==> recs == [GeneralRule(i)])
  {
    var a, b, c, d := RatioRule(i), BmiRule(i), MetabolicRule(i), MoodRule(i);
    assert b.Some? ==> b.value.Rule() == 1;
    assert d.Some? ==> d.value.Rule() == 3;
    AssembleInRuleOrder(a, b, c, d, GeneralRule(i));
  }

  /** With a positive step target, the general entry reports a positive number of steps still to go. */
  lemma RemainingStepsPositive(i: Inputs)
    requires i.stepTarget > 0.0
    ensures GeneralRule(i).StepsToGo? ==> GeneralRule(i).remaining > 0.0
  {
    if StepRatio(i) < 1.0 {
      var sr := StepRatio(i);
      assert (1.0 - sr) * i.stepTarget == i.stepTarget - i.steps;
    }
  }

  /** A full day of steps with calories on target gets the congratulation alone. */
  lemma OnTrackExample()
    ensures Recommend(Inputs(22.0, 2000.0, 2000.0, 10000.0, 10000.0, None, [], None, Some(map[]))) == [OnTrack]
  {
    var i := Inputs(22.0, 2000.0, 2000.0, 10000.0, 10000.0, None, [], None, Some(map[]));
    assert CalorieRatio(i) == 1.0 && StepRatio(i) == 1.0;
  }

  /**
   * A low mood with `"mealTimes": null` makes the script raise: the route
   * answers 500, while leaving the member out gives the low-mood advice.
   */
  lemma NullMealTimesFails()
    ensures Respond(Some(HealthRequest(Some(22.0), Some(2000.0), Some(2000.0), Some(10000.0), Some(10000.0),
      None, None, Some("low"), Null))) == Error(500, FailureMessage)
    ensures Respond(Some(HealthRequest(Some(22.0), Some(2000.0), Some(2000.0), Some(10000.0), Some(10000.0),
      None, None, Some("low"), Missing))) == Ok([LowMood])
  {
    var i := Inputs(22.0, 2000.0, 2000.0, 10000.0, 10000.0, None, [], Some("low"), Some(map[]));
    assert CalorieRatio(i) == 1.0 && StepRatio(i) == 1.0;
    assert RatioRule(i).None? && BmiRule(i).None? && MetabolicRule(i).None? && MoodRule(i) == Some(LowMood);
  }
}
