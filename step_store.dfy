/**
 * The Firestore documents that hold step counts, shared by the location
 * tracker, the dashboard, the activity page and the daily reset job.
 */
module StepStore {
  import opened Common

  /** A document of the top-level `userSteps` collection, appended by the location tracker. */
  datatype StepDoc = StepDoc(userId: UserId, stepCount: Option<int>, timestamp: Time)

  /** The `users/{uid}/activity/steps` document's three fields. */
  datatype StepsRecord = StepsRecord(steps: Option<int>, goal: Option<int>, updatedAt: Option<Time>)

  /** JavaScript `value || fallback` on an optional number: a missing value or 0 gives the fallback. */
  function OrElse(v: Option<int>, fallback: int): int
  {
    if v.Some? && v.value != 0 then v.value else fallback
  }
}
