/**
 * components/dashboard/recommendations.tsx: `generateRecommendations`
 * builds the dashboard's advice list from the profile's BMI and goal.
 */
module Recommendations {
  import opened Common
  import opened JsText
  import opened Overview

  datatype Recommendation = Recommendation(id: nat, message: string)

  const LoadingAdvice := Recommendation(1, "Loading your personalized recommendations...")
  const UnderweightAdvice := Recommendation(1, "Your BMI indicates you are underweight. Consider a calorie surplus with nutrient-dense foods.")
  const NormalAdvice := Recommendation(2, "Your BMI is in the normal range. Maintain a balanced diet and regular exercise.")
  const OverweightAdvice := Recommendation(3, "Your BMI indicates overweight. Consider a calorie deficit and increased physical activity.")
  const WeightLossAdvice := Recommendation(4, "Focus on a calorie deficit and high protein intake to support weight loss.")
  const MuscleGainAdvice := Recommendation(5, "Increase protein intake and strength training to support muscle gain.")
  const MaintenanceAdvice := Recommendation(6, "Maintain your current calorie intake and stay active to keep your weight stable.")
  const FallbackAdvice := Recommendation(7, "Keep tracking your meals and activity for personalized insights.")

  /** The BMI entry: none for a missing or zero BMI, else one of three bands. */
  function BmiAdvice(bmi: Option<real>): (r: Option<Recommendation>)
    ensures r.None? <==> bmi.None? || bmi.value == 0.0
    ensures r.Some? ==> (r.value.id == 1 <==> bmi.value < 18.5)
    ensures r.Some? ==> (r.value.id == 2 <==> 18.5 <= bmi.value < 25.0)
    ensures r.Some? ==> (r.value.id == 3 <==> bmi.value >= 25.0)
  {
    if bmi.None? || bmi.value == 0.0 then None
    else if bmi.value < 18.5 then Some(UnderweightAdvice)
    else if bmi.value >= 18.5 && bmi.value < 25.0 then Some(NormalAdvice)
    else Some(OverweightAdvice)
  }

  /** The goal entry: the first of three phrases found in the lower-cased goal. */
  function GoalAdvice(goal: Option<string>): (r: Option<Recommendation>)
    ensures goal.None? ==> r.None?
    ensures goal.Some? ==> var g := ToLower(goal.value);
      && (r == Some(WeightLossAdvice) <==> Includes(g, "weight loss"))
      && (r == Some(MuscleGainAdvice) <==> !Includes(g, "weight loss") && Includes(g, "muscle gain"))
      && (r == Some(MaintenanceAdvice) <==>
            !Includes(g, "weight loss") && !Includes(g, "muscle gain") && Includes(g, "maintenance"))
      && (r.None? <==> !Includes(g, "weight loss") && !Includes(g, "muscle gain") && !Includes(g, "maintenance"))
  {
    if goal.None? || goal.value == "" then None
    else
      var g := ToLower(goal.value);
      if Includes(g, "weight loss") then Some(WeightLossAdvice)
      else if Includes(g, "muscle gain") then Some(MuscleGainAdvice)
      else if Includes(g, "maintenance") then Some(MaintenanceAdvice)
      else None
  }

  function Entries(r: Option<Recommendation>): seq<Recommendation>
  {
    if r.Some? then [r.value] else []
  }

  /**
   * `generateRecommendations`: entries are pushed in order, the BMI entry
   * first, then the goal entry, then the fallback if nothing was pushed.
   */
  method GenerateRecommendations(profile: Option<Profile>) returns (recs: seq<Recommendation>)
    ensures profile.None? ==> recs == [LoadingAdvice]
    ensures 1 <= |recs| <= 2
    ensures forall i, j :: 0 <= i < j < |recs| ==> recs[i].id < recs[j].id
    ensures profile.Some? ==>
      (FallbackAdvice in recs <==> BmiAdvice(profile.value.bmi).None? && GoalAdvice(profile.value.goal).None?)
    ensures profile.Some? && FallbackAdvice !in recs ==>
      recs == Entries(BmiAdvice(profile.value.bmi)) + Entries(GoalAdvice(profile.value.goal))
    ensures profile.Some? && FallbackAdvice in recs ==> recs == [FallbackAdvice]
  {
    if profile.None? {
      return [LoadingAdvice];
    }
    recs := [];
    var p := profile.value;
    var bmiEntry := BmiAdvice(p.bmi);
    if bmiEntry.Some? {
      recs := recs + [bmiEntry.value];
    }
    var goalEntry := GoalAdvice(p.goal);
    if goalEntry.Some? {
      recs := recs + [goalEntry.value];
    }
    if |recs| == 0 {
      recs := recs + [FallbackAdvice];
    }
  }

  /** Any goal whose lower case contains "weight loss" selects the weight-loss advice. */
  lemma WeightLossSelected(goal: string)
    requires Includes(ToLower(goal), "weight loss")
    ensures GoalAdvice(Some(goal)) == Some(WeightLossAdvice)
  {
  }

  /** Matching ignores case: "Weight Loss" selects the weight-loss advice. */
  lemma GoalMatchIgnoresCase()
    ensures GoalAdvice(Some("Weight Loss")) == Some(WeightLossAdvice)
  {
    var g := "weight loss";
    assert ToLower("Weight Loss") == g;
    assert g[0..|g|] == g;
    assert OccursAt(g, "weight loss", 0);
    WeightLossSelected("Weight Loss");
  }
}
