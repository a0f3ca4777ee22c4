/**
 * components/dashboard/overview.tsx: the dashboard's summary cards and
 * `getBmiCategory`.
 */
module Overview {
  import opened Common
  import opened BmiRoute

  /** The parts of the stored user profile the dashboard reads. */
  datatype Profile = Profile(bmi: Option<real>, goal: Option<string>)

  /** The component's props; an absent prop is `undefined`. */
  datatype Props = Props(profile: Option<Profile>, todaySteps: Option<int>, weeklySteps: Option<int>)

  /** What a card shows: a number or a piece of text. */
  datatype Shown = Amount(x: real) | Words(text: string)

  const NotCalculated: string := "Not calculated"

  /** `getBmiCategory`: a missing or zero BMI is "Not calculated", otherwise the route's bands. */
  function GetBmiCategory(bmi: Option<real>): string
  {
    if bmi.None? || bmi.value == 0.0 then NotCalculated
    else if bmi.value < 18.5 then "Underweight"
    else if bmi.value < 25.0 then "Normal weight"
    else if bmi.value < 30.0 then "Overweight"
    else "Obese"
  }

  /** The "Current BMI" card: `profile?.bmi || "N/A"`. */
  function BmiCard(profile: Option<Profile>): Shown
  {
    if profile.Some? && profile.value.bmi.Some? && profile.value.bmi.value != 0.0
    then Amount(profile.value.bmi.value) else Words("N/A")
  }

  /** The "Steps Today" card: `todaySteps ?? "Loading..."`; `weeklySteps` is never read. */
  function StepsCard(props: Props): Shown
  {
    match props.todaySteps
    case Some(n) => Amount(n as real)
    case None => Words("Loading...")
  }

  /** The card and the BMI route put every non-zero BMI in the same band, with the same label. */
  lemma CategoryMatchesRoute(bmi: real)
    requires bmi != 0.0
    ensures GetBmiCategory(Some(bmi)) == CategoryOf(bmi).Label()
  {
  }

  /** Exactly the missing and zero values give "Not calculated". */
  lemma NotCalculatedIffMissing(bmi: Option<real>)
    ensures GetBmiCategory(bmi) == NotCalculated <==> bmi.None? || bmi.value == 0.0
  {
  }

  /** A larger positive BMI never gets a lower label. */
  lemma CategoryLabelMonotone(a: real, b: real)
    requires 0.0 < a <= b
    ensures GetBmiCategory(Some(a)) == CategoryOf(a).Label() && GetBmiCategory(Some(b)) == CategoryOf(b).Label()
    ensures CategoryOf(a).Rank() <= CategoryOf(b).Rank()
  {
    CategoryMonotone(a, b);
  }

  /** The BMI card shows the stored value exactly when it is present and non-zero. */
  lemma BmiCardShowsStoredValue(profile: Option<Profile>)
    ensures BmiCard(profile).Amount? <==> profile.Some? && profile.value.bmi.Some? && profile.value.bmi.value != 0.0
    ensures BmiCard(profile).Amount? ==> BmiCard(profile).x == profile.value.bmi.value
    ensures BmiCard(profile).Words? ==> BmiCard(profile).text == "N/A"
  {
  }

  /** The steps card shows `todaySteps` when given, including 0, whatever `weeklySteps` holds. */
  lemma StepsCardReadsTodaySteps(props: Props)
    ensures props.todaySteps.Some? ==> StepsCard(props) == Amount(props.todaySteps.value as real)
    ensures props.todaySteps.None? ==> StepsCard(props) == Words("Loading...")
  {
  }
}
