/**
 * components/location-tracker.tsx: the same step estimate as the step
 * counter, plus one `userSteps` document holding the new running total for
 * every increase while a user is signed in.
 */
module LocationTracker {
  import opened Common
  import opened StepEstimate
  import opened StepStore

  /** What the map and the accuracy badge show. */
  datatype Location = Location(latitude: real, longitude: real, accuracy: real, steps: int)

  /** The `stepCount` values of `docs` are all present, positive, at most `total`, and strictly increasing. */
  ghost predicate RunningTotals(docs: seq<StepDoc>, total: int)
  {
    && (forall i :: 0 <= i < |docs| ==> docs[i].stepCount.Some? && 0 < docs[i].stepCount.value <= total)
    && (forall i, j :: 0 <= i < j < |docs| ==> docs[i].stepCount.value < docs[j].stepCount.value)
  }

  /** Appending a larger running total keeps the documents running totals. */
  lemma RunningTotalsExtend(docs: seq<StepDoc>, total: int, bigger: int, d: StepDoc)
    requires RunningTotals(docs, total) && 0 <= total < bigger && d.stepCount == Some(bigger)
    ensures RunningTotals(docs + [d], bigger)
  {
    var all := docs + [d];
    forall i | 0 <= i < |all|
      ensures all[i].stepCount.Some? && 0 < all[i].stepCount.value <= bigger
    {
      if i < |docs| { assert all[i] == docs[i]; } else { assert all[i] == d; }
    }
    forall i, j | 0 <= i < j < |all|
      ensures all[i].stepCount.value < all[j].stepCount.value
    {
      assert all[i] == docs[i];
      if j < |docs| { assert all[j] == docs[j]; }
    }
  }

  /** A larger total still bounds the same documents. */
  lemma RunningTotalsGrow(docs: seq<StepDoc>, total: int, bigger: int)
    requires RunningTotals(docs, total) && total <= bigger
    ensures RunningTotals(docs, bigger)
  {
  }

  class LocationTracker {
    var steps: int
    var loading: bool
    var error: Option<string>
    var location: Option<Location>
    var last: Option<Fix>
    /** The documents this session has added to `userSteps`, in order. */
    var saved: seq<StepDoc>
    ghost var samples: seq<Sample>

    ghost predicate Valid()
      reads this
    {
      && steps == Total(samples)
      && (samples == [] <==> last.None?)
      && (samples != [] ==> last == Some(samples[|samples| - 1].fix))
      && RunningTotals(saved, steps)
    }

    constructor ()
      ensures Valid() && samples == [] && saved == []
      ensures steps == 0 && !loading && error.None? && location.None? && last.None?
    {
      steps := 0;
      loading := false;
      error := None;
      location := None;
      last := None;
      saved := [];
      samples := [];
    }

    /** The watch effect sets `loading` before registering the watch. */
    method Start()
      requires Valid()
      modifies this`loading
      ensures Valid() && loading
    {
      loading := true;
    }

    /**
     * `successHandler`. `distance` is the haversine distance from the previous
     * fix, `user` the signed-in user, `now` the client clock, and `saveOk`
     * whether `addDoc` succeeds (a failure is only logged).
     */
    method OnPosition(fix: Fix, distance: real, user: Option<UserId>, now: Time, saveOk: bool)
      requires Valid()
      modifies this`steps, this`last, this`loading, this`location, this`saved, this`samples
      ensures Valid() && samples == old(samples) + [Sample(fix, distance)]
      ensures steps == old(steps) + StepDelta(old(last).Some?, distance)
      ensures saved == if steps > old(steps) && user.Some? && saveOk
                       then old(saved) + [StepDoc(user.value, Some(steps), now)]
                       else old(saved)
      ensures location == Some(Location(fix.latitude, fix.longitude, fix.accuracy, old(steps)))
      ensures last == Some(fix) && !loading && error == old(error)
    {
      var shown := steps;
      if last.Some? {
        if distance > MinMovement {
          var newSteps := StepDelta(true, distance);
          Advance(steps + newSteps, user, now, saveOk);
        }
      }
      location := Some(Location(fix.latitude, fix.longitude, fix.accuracy, shown));
      TotalAppend(samples, Sample(fix, distance));
      samples := samples + [Sample(fix, distance)];
      last := Some(fix);
      loading := false;
    }

    /** The step total rises to `updated`; with a user and a working write, the new total is also saved. */
    method Advance(updated: int, user: Option<UserId>, now: Time, saveOk: bool)
      requires RunningTotals(saved, steps) && 0 <= steps < updated
      modifies this`steps, this`saved
      ensures steps == updated && RunningTotals(saved, steps)
      ensures saved == if user.Some? && saveOk then old(saved) + [StepDoc(user.value, Some(updated), now)] else old(saved)
    {
      if user.Some? && saveOk {
        RunningTotalsExtend(saved, steps, updated, StepDoc(user.value, Some(updated), now));
        saved := saved + [StepDoc(user.value, Some(updated), now)];
      } else {
        RunningTotalsGrow(saved, steps, updated);
      }
      steps := updated;
    }

    /** `errorHandler`. */
    method OnError(message: string)
      requires Valid()
      modifies this`error, this`loading
      ensures Valid() && error == Some(message) && !loading
    {
      error := Some(message);
      loading := false;
    }
  }
}
