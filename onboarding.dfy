/**
 * app/onboarding/page.tsx: a three-tab wizard (personal, metrics, goals)
 * whose Next button checks the fields of the current tab, and whose submit
 * writes the user's profile document with a BMI rounded to one decimal.
 */
module Onboarding {
  import opened Common
  import opened JsText
  import BmiRoute

  datatype Tab = Personal | Metrics | Goals

  const FillAllFieldsMessage: string := "Please fill in all fields"
  const SaveFailedMessage: string := "Failed to save your information"
  const DashboardRoute: string := "/dashboard"

  /**
   * The tab Next moves to from `tab`, or `None` when the current tab's
   * fields are not all filled in. Next on the last tab stays there.
   */
  function NextTab(tab: Tab, name: string, age: string, height: string, weight: string): (r: Option<Tab>)
    ensures r.None? <==> (tab == Personal && (name == "" || age == "")) || (tab == Metrics && (height == "" || weight == ""))
    ensures r.Some? && tab == Personal ==> r.value == Metrics
    ensures r.Some? && tab != Personal ==> r.value == Goals
  {
    match tab
    case Personal => if name == "" || age == "" then None else Some(Metrics)
    case Metrics => if height == "" || weight == "" then None else Some(Goals)
    case Goals => Some(Goals)
  }

  /** Where `n` presses of Next lead from `tab`, the fields left as they are. */
  function Presses(tab: Tab, name: string, age: string, height: string, weight: string, n: nat): Tab
    decreases n
  {
    if n == 0 then tab else Presses(NextTab(tab, name, age, height, weight).GetOr(tab), name, age, height, weight, n - 1)
  }

  /** A blocked tab stays blocked however often Next is pressed. */
  lemma {:induction false} BlockedStays(tab: Tab, name: string, age: string, height: string, weight: string, n: nat)
    requires NextTab(tab, name, age, height, weight).None?
    ensures Presses(tab, name, age, height, weight, n) == tab
  {
    if n > 0 {
      BlockedStays(tab, name, age, height, weight, n - 1);
    }
  }

  lemma {:induction false} GoalsFromMetricsNeedsMetrics(name: string, age: string, height: string, weight: string, n: nat)
    requires Presses(Metrics, name, age, height, weight, n) == Goals
    ensures height != "" && weight != ""
  {
    if height == "" || weight == "" {
      BlockedStays(Metrics, name, age, height, weight, n);
    }
  }

  /**
   * The Next button alone reaches the goals tab from the first tab only when
   * name, age, height and weight are all filled in.
   */
  lemma GoalsNeedsAllFields(name: string, age: string, height: string, weight: string, n: nat)
    requires Presses(Personal, name, age, height, weight, n) == Goals
    ensures name != "" && age != "" && height != "" && weight != ""
  {
    if name == "" || age == "" {
      BlockedStays(Personal, name, age, height, weight, n);
    } else {
      assert n > 0;
      GoalsFromMetricsNeedsMetrics(name, age, height, weight, n - 1);
    }
  }

  /** With every field filled in, two presses reach the goals tab, and more keep it there. */
  lemma FilledFieldsReachGoals(name: string, age: string, height: string, weight: string, n: nat)
    requires name != "" && age != "" && height != "" && weight != "" && n >= 2
    ensures Presses(Personal, name, age, height, weight, n) == Goals
  {
    GoalsStays(name, age, height, weight, n - 2);
  }

  lemma {:induction false} GoalsStays(name: string, age: string, height: string, weight: string, n: nat)
    ensures Presses(Goals, name, age, height, weight, n) == Goals
  {
    if n > 0 {
      GoalsStays(name, age, height, weight, n - 1);
    }
  }

  /**
   * `(weight / (height / 100) ** 2).toFixed(1)` read back as a number, for the
   * parsed height and weight; its value case by case is stated by the
   * `BmiOf…` lemmas below.
   */
  function BmiFromParsed(height: JsNumber, weight: JsNumber): JsNumber
  {
    var metres := Over(height, Finite(100.0));
    var q := Over(weight, Times(metres, metres));
    if q.Finite? then Finite(RoundToTenth(q.value)) else q
  }

  /** A height or weight that is not a number gives a BMI that is not one either. */
  lemma BmiOfNaN(height: JsNumber, weight: JsNumber)
    ensures height == NaN || weight == NaN ==> BmiFromParsed(height, weight) == NaN
  {
  }

  /** For two finite numbers and a non-zero height: the route's BMI, rounded to a tenth. */
  lemma BmiOfFinite(height: real, weight: real)
    requires height != 0.0
    ensures BmiFromParsed(Finite(height), Finite(weight)) == Finite(RoundToTenth(BmiRoute.Bmi(height, weight)))
  {
    BmiQuotient(height, weight);
  }

  /** A zero height divides the weight by zero. */
  lemma BmiOfZeroHeight(weight: real)
    ensures BmiFromParsed(Finite(0.0), Finite(weight)) == Divide(weight, 0.0)
  {
    assert Over(Finite(0.0), Finite(100.0)) == Finite(0.0);
    assert Times(Finite(0.0), Finite(0.0)) == Finite(0.0);
    assert !Divide(weight, 0.0).Finite?;
  }

  /** A finite height passes an infinite (or not-a-number) weight through. */
  lemma BmiOfInfiniteWeight(height: real, weight: JsNumber)
    requires !weight.Finite?
    ensures BmiFromParsed(Finite(height), weight) == weight
  {
    SquareOfMetres(height);
  }

  /** An infinite height with a finite weight gives a BMI of zero. */
  lemma BmiOfInfiniteHeight(height: JsNumber, weight: real)
    requires height == PosInfinity || height == NegInfinity
    ensures BmiFromParsed(height, Finite(weight)) == Finite(0.0)
  {
    assert RoundToTenth(0.0) == 0.0;
  }

  /** With neither number finite the quotient is not a number. */
  lemma BmiOfNoFinite(height: JsNumber, weight: JsNumber)
    requires !height.Finite? && !weight.Finite?
    ensures BmiFromParsed(height, weight) == NaN
  {
  }

  /** For a non-zero height the wizard's quotient is the BMI route's exact BMI. */
  lemma BmiQuotient(h: real, w: real)
    requires h != 0.0
    ensures var metres := Over(Finite(h), Finite(100.0));
      Over(Finite(w), Times(metres, metres)) == Finite(BmiRoute.Bmi(h, w))
  {
    var m := h / 100.0;
    DivideBySquare(w, m);
    assert Over(Finite(h), Finite(100.0)) == Finite(m);
    assert Times(Finite(m), Finite(m)) == Finite(m * m);
  }

  /** Dividing by the square of a non-zero number is a finite quotient. */
  lemma DivideBySquare(w: real, m: real)
    requires m != 0.0
    ensures Divide(w, m * m) == Finite(w / (m * m))
  {
    if m > 0.0 {
      assert m * m > 0.0;
    } else {
      assert m * m > 0.0;
    }
  }

  /** The squared height in metres is a finite, non-negative number. */
  lemma SquareOfMetres(h: real)
    ensures var metres := Over(Finite(h), Finite(100.0));
      Times(metres, metres).Finite? && Times(metres, metres).value >= 0.0
  {
    var m := h / 100.0;
    assert Over(Finite(h), Finite(100.0)) == Finite(m);
    assert m * m >= 0.0 by {
      if m < 0.0 { assert m * m > 0.0; }
    }
  }

  /** The `bmi` field the wizard stores, from the two text fields. */
  function StoredBmi(height: string, weight: string): JsNumber
  {
    BmiFromParsed(ParseFloat(height), ParseFloat(weight))
  }

  /**
   * The wizard rounds half away from zero with `toFixed`, the BMI route half to
   * even with `round`; both lie within 0.05 of the exact BMI, so they never
   * differ by more than 0.1.
   */
  lemma StoredBmiNearRouteBmi(height: real, weight: real)
    requires height != 0.0
    ensures var b := BmiFromParsed(Finite(height), Finite(weight));
      b.Finite? && -0.1 <= b.value - BmiRoute.Script(height, weight).bmi <= 0.1
  {
    BmiOfFinite(height, weight);
    var exact := BmiRoute.Bmi(height, weight);
    var n := RoundHalfEven(exact * 10.0);
    assert n as real / 10.0 - exact == (n as real - exact * 10.0) / 10.0;
  }

  /** The document written to `users/{uid}`. `None` for `age` is a NaN parse. */
  datatype UserProfile = UserProfile(
    name: string, age: Option<int>, gender: string,
    height: JsNumber, weight: JsNumber, bmi: JsNumber,
    activityLevel: string, goal: string, createdAt: Time)

  /** The document `handleSubmit` writes for the wizard's fields. */
  function ProfileOf(name: string, age: string, gender: string, height: string, weight: string,
                     activityLevel: string, goal: string, now: Time): (p: UserProfile)
    ensures p.name == name && p.gender == gender && p.activityLevel == activityLevel && p.goal == goal
    ensures p.age == ParseInt(age) && p.height == ParseFloat(height) && p.weight == ParseFloat(weight)
    ensures p.bmi == StoredBmi(height, weight) && p.createdAt == now
  {
    UserProfile(name, ParseInt(age), gender, ParseFloat(height), ParseFloat(weight),
      StoredBmi(height, weight), activityLevel, goal, now)
  }

  class OnboardingWizard {
    var tab: Tab
    var loading: bool
    var error: Option<string>
    var name: string
    var age: string
    var gender: string
    var height: string
    var weight: string
    var activityLevel: string
    var goal: string
    /** The `users` documents. */
    var profiles: map<UserId, UserProfile>
    /** The route pushed after a successful save. */
    var route: Option<string>

    /** The profile the current fields describe, as saved at time `now`. */
    function Profile(now: Time): UserProfile
      reads this
    {
      ProfileOf(name, age, gender, height, weight, activityLevel, goal, now)
    }

    constructor(existing: map<UserId, UserProfile>)
      ensures tab == Personal && !loading && error == None
      ensures name == "" && age == "" && gender == "male" && height == "" && weight == ""
      ensures activityLevel == "moderate" && goal == "maintain"
      ensures profiles == existing && route == None
    {
      tab := Personal;
      loading := false;
      error := None;
      name := "";
      age := "";
      gender := "male";
      height := "";
      weight := "";
      activityLevel := "moderate";
      goal := "maintain";
      profiles := existing;
      route := None;
    }

    /** The inputs of the personal tab. */
    method EditPersonal(newName: string, newAge: string, newGender: string)
      modifies this
      ensures name == newName && age == newAge && gender == newGender
      ensures tab == old(tab) && error == old(error) && loading == old(loading)
      ensures height == old(height) && weight == old(weight) && activityLevel == old(activityLevel) && goal == old(goal)
      ensures profiles == old(profiles) && route == old(route)
    {
      name, age, gender := newName, newAge, newGender;
    }

    /** The inputs of the metrics and goals tabs. */
    method EditMetrics(newHeight: string, newWeight: string, newActivityLevel: string, newGoal: string)
      modifies this
      ensures height == newHeight && weight == newWeight && activityLevel == newActivityLevel && goal == newGoal
      ensures tab == old(tab) && error == old(error) && loading == old(loading)
      ensures name == old(name) && age == old(age) && gender == old(gender)
      ensures profiles == old(profiles) && route == old(route)
    {
      height, weight, activityLevel, goal := newHeight, newWeight, newActivityLevel, newGoal;
    }

    /** `handleNext`: a blocked Next keeps the tab and reports; a successful one moves on and clears the error. */
    method HandleNext()
      modifies this
      ensures NextTab(old(tab), name, age, height, weight).None? ==> tab == old(tab) && error == Some(FillAllFieldsMessage)
      ensures NextTab(old(tab), name, age, height, weight).Some? ==>
        tab == NextTab(old(tab), name, age, height, weight).value && error == None
      ensures loading == old(loading) && profiles == old(profiles) && route == old(route)
      ensures name == old(name) && age == old(age) && gender == old(gender)
      ensures height == old(height) && weight == old(weight) && activityLevel == old(activityLevel) && goal == old(goal)
    {
      if tab == Personal {
        if name == "" || age == "" {
          error := Some(FillAllFieldsMessage);
          return;
        }
        tab := Metrics;
      } else if tab == Metrics {
        if height == "" || weight == "" {
          error := Some(FillAllFieldsMessage);
          return;
        }
        tab := Goals;
      }
      error := None;
    }

    /** The tab list's `onValueChange`: any tab, without the field checks. */
    method SelectTab(t: Tab)
      modifies this
      ensures tab == t
      ensures error == old(error) && loading == old(loading) && profiles == old(profiles) && route == old(route)
      ensures name == old(name) && age == old(age) && gender == old(gender)
      ensures height == old(height) && weight == old(weight) && activityLevel == old(activityLevel) && goal == old(goal)
    {
      tab := t;
    }

    /**
     * `handleSubmit`. Without a user nothing happens. `writeOk` is whether
     * `setDoc` succeeds: then the profile is written in full and the page moves
     * to the dashboard with `loading` still set; otherwise the failure message
     * is shown and `loading` is cleared. No field is checked here, so a wizard
     * that reached the goals tab through the tab list saves empty fields.
     */
    method HandleSubmit(user: Option<UserId>, now: Time, writeOk: bool)
      modifies this
      ensures user.None? ==> profiles == old(profiles) && route == old(route) && loading == old(loading) && error == old(error)
      ensures user.Some? && writeOk ==>
        profiles == old(profiles)[user.value := old(Profile(now))]
        && route == Some(DashboardRoute) && loading && error == None
      ensures user.Some? && !writeOk ==>
        profiles == old(profiles) && route == old(route) && !loading && error == Some(SaveFailedMessage)
      ensures tab == old(tab) && name == old(name) && age == old(age) && gender == old(gender)
      ensures height == old(height) && weight == old(weight) && activityLevel == old(activityLevel) && goal == old(goal)
    {
      if user.None? {
        return;
      }
      var doc := Profile(now);
      Save(user.value, doc, writeOk);
    }

    /** The `setDoc` call and what follows it, for the document `doc` of `user`. */
    method Save(user: UserId, doc: UserProfile, writeOk: bool)
      modifies this
      ensures writeOk ==> profiles == old(profiles)[user := doc] && route == Some(DashboardRoute) && loading && error == None
      ensures !writeOk ==> profiles == old(profiles) && route == old(route) && !loading && error == Some(SaveFailedMessage)
      ensures tab == old(tab) && name == old(name) && age == old(age) && gender == old(gender)
      ensures height == old(height) && weight == old(weight) && activityLevel == old(activityLevel) && goal == old(goal)
    {
      loading := true;
      error := None;
      if writeOk {
        profiles := profiles[user := doc];
        route := Some(DashboardRoute);
      } else {
        error := Some(SaveFailedMessage);
        loading := false;
      }
    }
  }
}
