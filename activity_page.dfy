/**
 * app/dashboard/activity/page.tsx: the activity page reads the signed-in
 * user's `activity/steps` record, lets the user type a step count and a goal,
 * writes both back with `updateDoc`, and draws progress as
 * `Math.min(steps / stepGoal, 1)` of a circle.
 */
module ActivityPage {
  import opened Common
  import opened JsText
  import opened StepStore
  import DailyReset

  /** The goal shown before a record is loaded, and for a missing or zero stored goal. */
  const DefaultGoal: int := 10000

  /** `data.steps || 0`. */
  function LoadedSteps(r: StepsRecord): (n: int)
    ensures r.steps.Some? && r.steps.value != 0 ==> n == r.steps.value
    ensures r.steps.None? || r.steps.value == 0 ==> n == 0
  {
    OrElse(r.steps, 0)
  }

  /** `data.goal || 10000`: a stored goal of 0 comes back as 10000, so a loaded goal is never 0. */
  function LoadedGoal(r: StepsRecord): (g: int)
    ensures g != 0
    ensures r.goal.Some? && r.goal.value != 0 ==> g == r.goal.value
    ensures r.goal.None? || r.goal.value == 0 ==> g == DefaultGoal
  {
    OrElse(r.goal, DefaultGoal)
  }

  /**
   * The fraction of the circle drawn: `Math.min(steps / stepGoal, 1)`. A goal
   * of 0 (typed into the goal field) gives a full circle for positive steps,
   * NaN for 0 steps and minus infinity for negative steps.
   */
  function Progress(steps: int, goal: int): (p: JsNumber)
    ensures p.Finite? ==> p.value <= 1.0
    ensures goal > 0 && steps >= 0 ==> p.Finite? && 0.0 <= p.value
    ensures goal > 0 && steps >= goal ==> p == Finite(1.0)
    ensures goal > 0 && 0 <= steps < goal ==> p == Finite(steps as real / goal as real)
    ensures goal == 0 ==> (p == NaN <==> steps == 0)
    ensures goal == 0 && steps > 0 ==> p == Finite(1.0)
    ensures goal == 0 && steps < 0 ==> p == NegInfinity
  {
    assert goal > 0 && steps >= goal ==> steps as real / goal as real >= 1.0 by {
      if goal > 0 && steps >= goal {
        QuotientAtLeastOne(steps as real, goal as real);
      }
    }
    MinWith(Divide(steps as real, goal as real), 1.0)
  }

  lemma QuotientAtLeastOne(a: real, b: real)
    requires 0.0 < b <= a
    ensures a / b >= 1.0
  {
    var excess := a / b - 1.0;
    assert excess * b == a - b;
  }

  class ActivityPage {
    var steps: int
    var stepGoal: int
    var loading: bool
    var saving: bool
    /** The `users/{uid}/activity/steps` documents. */
    var store: map<UserId, StepsRecord>

    constructor(records: map<UserId, StepsRecord>)
      ensures steps == 0 && stepGoal == DefaultGoal && loading && !saving && store == records
    {
      steps := 0;
      stepGoal := DefaultGoal;
      loading := true;
      saving := false;
      store := records;
    }

    /**
     * `fetchStepData`, run when the user changes. `readOk` is whether `getDoc`
     * succeeds. Without a user it returns before its `finally`, so `loading`
     * stays as it was; otherwise `loading` ends false however the read goes.
     */
    method Load(user: Option<UserId>, readOk: bool)
      modifies this
      ensures user.None? ==> steps == old(steps) && stepGoal == old(stepGoal) && loading == old(loading)
      ensures user.Some? ==> !loading
      ensures user.Some? && readOk && user.value in store ==>
        steps == LoadedSteps(store[user.value]) && stepGoal == LoadedGoal(store[user.value])
      ensures user.Some? && !(readOk && user.value in store) ==> steps == old(steps) && stepGoal == old(stepGoal)
      ensures saving == old(saving) && store == old(store)
    {
      if user.None? {
        return;
      }
      if readOk && user.value in store {
        var data := store[user.value];
        steps := LoadedSteps(data);
        stepGoal := LoadedGoal(data);
      }
      loading := false;
    }

    /** The steps field's `onChange`: `Number.parseInt(value) || 0`. */
    method OnStepsInput(text: string)
      modifies this
      ensures steps == ParseIntOrZero(text)
      ensures stepGoal == old(stepGoal) && loading == old(loading) && saving == old(saving) && store == old(store)
    {
      steps := ParseIntOrZero(text);
    }

    /** The goal field's `onChange`: `Number.parseInt(value) || 0`, so a goal of 0 can be typed. */
    method OnGoalInput(text: string)
      modifies this
      ensures stepGoal == ParseIntOrZero(text)
      ensures steps == old(steps) && loading == old(loading) && saving == old(saving) && store == old(store)
    {
      stepGoal := ParseIntOrZero(text);
    }

    /**
     * `handleUpdateSteps`. `now` is `new Date()`; `writeOk` is whether the
     * request succeeds. `updateDoc` fails on a missing document, so only an
     * existing record is overwritten, with exactly the steps, goal and time.
     */
    method UpdateSteps(user: Option<UserId>, now: Time, writeOk: bool)
      modifies this
      ensures user.None? ==> saving == old(saving) && store == old(store)
      ensures user.Some? ==> !saving
      ensures user.Some? && writeOk && user.value in old(store) ==>
        store == old(store)[user.value := StepsRecord(Some(steps), Some(stepGoal), Some(now))]
      ensures user.Some? && !(writeOk && user.value in old(store)) ==> store == old(store)
      ensures steps == old(steps) && stepGoal == old(stepGoal) && loading == old(loading)
    {
      if user.None? {
        return;
      }
      saving := true;
      if writeOk && user.value in store {
        store := store[user.value := StepsRecord(Some(steps), Some(stepGoal), Some(now))];
      }
      saving := false;
    }
  }

  /**
   * Loading what an update wrote gives back the same steps, and the same goal
   * unless the goal written was 0.
   */
  lemma UpdateThenLoad(steps: int, goal: int, now: Time)
    ensures LoadedSteps(StepsRecord(Some(steps), Some(goal), Some(now))) == steps
    ensures LoadedGoal(StepsRecord(Some(steps), Some(goal), Some(now))) == if goal == 0 then DefaultGoal else goal
  {
  }

  /** Typing back the number a field shows gives the same number. */
  lemma InputRoundTrip(n: int)
    ensures ParseIntOrZero(IntToString(n)) == n
  {
    ParseIntOfIntToString(n);
  }

  /** Text that does not start with a number becomes 0. */
  lemma NonNumericInputIsZero()
    ensures ParseIntOrZero("") == 0
    ensures ParseIntOrZero("abc") == 0
  {
    assert TrimStart("") == "";
    assert TrimStart("abc") == "abc";
  }

  /** A numeric prefix is kept and the rest ignored. */
  lemma NumericPrefixInput()
    ensures ParseIntOrZero("12abc") == 12
  {
    var t := "12abc";
    assert TrimStart(t) == t;
    assert Sign(t) == (1, 0);
    assert t[0..] == t;
    assert DigitRun(t[2..]) == 0;
    assert DigitRun(t[1..]) == 1;
    assert DigitRun(t) == 2;
    var ds := t[..2];
    assert ds == "12" && ds[..1] == "1" && ds[1] == '2';
    assert DigitsValue("1") == 1;
    assert DigitsValue(ds) == 12;
  }

  /**
   * After the nightly reset, the page loads 0 steps for every user whose
   * record was reset, with the goal it loaded before.
   */
  lemma LoadAfterReset(db: DailyReset.Db, now: Time, u: UserId)
    requires u in db.users && u in db.steps
    ensures var after := DailyReset.ApplyAll(db, DailyReset.Staged(db, now, db.users));
      u in after.steps && LoadedSteps(after.steps[u]) == 0 && LoadedGoal(after.steps[u]) == LoadedGoal(db.steps[u])
  {
    DailyReset.ResetZeroesListedRecords(db, now);
  }
}
