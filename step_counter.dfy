/**
 * components/step-counter.tsx: the "Steps Taken" widget. A geolocation watch
 * delivers fixes; each fix after the first adds the estimated steps to the
 * counter and always becomes the new previous fix.
 */
module StepCounter {
  import opened Common
  import opened StepEstimate

  const NotSupportedMessage: string := "Geolocation is not supported by this browser."

  class StepCounter {
    var steps: int
    var error: Option<string>
    var loading: bool
    var last: Option<Fix>
    /** Every fix the success handler has received, in order. */
    ghost var samples: seq<Sample>

    ghost predicate Valid()
      reads this
    {
      && steps == Total(samples)
      && (samples == [] <==> last.None?)
      && (samples != [] ==> last == Some(samples[|samples| - 1].fix))
    }

    /** The state as first rendered: no steps, no error, loading. */
    constructor ()
      ensures Valid() && samples == []
      ensures steps == 0 && error.None? && loading && last.None?
    {
      steps := 0;
      error := None;
      loading := true;
      last := None;
      samples := [];
    }

    /** The mount effect: start watching, or report that the browser has no geolocation. */
    method Start(geolocationSupported: bool)
      requires Valid()
      modifies this`error, this`loading
      ensures Valid()
      ensures geolocationSupported ==> loading && error == old(error)
      ensures !geolocationSupported ==> !loading && error == Some(NotSupportedMessage)
    {
      loading := true;
      if !geolocationSupported {
        error := Some(NotSupportedMessage);
        loading := false;
      }
    }

    /** `successHandler`: `distance` is the haversine distance from the previous fix. */
    method OnPosition(fix: Fix, distance: real)
      requires Valid()
      modifies this`steps, this`last, this`loading, this`samples
      ensures Valid() && samples == old(samples) + [Sample(fix, distance)]
      ensures steps == old(steps) + StepDelta(old(last).Some?, distance)
      ensures old(last).None? || distance <= MinMovement ==> steps == old(steps)
      ensures old(last).Some? && distance > MinMovement ==> steps >= old(steps) + 1
      ensures last == Some(fix) && !loading
    {
      if last.Some? {
        if distance > MinMovement {
          steps := steps + RoundHalfUp(distance / StrideLength);
        }
      }
      TotalAppend(samples, Sample(fix, distance));
      samples := samples + [Sample(fix, distance)];
      last := Some(fix);
      loading := false;
    }

    /** `errorHandler`: keep the message and stop loading; the count is kept. */
    method OnError(message: string)
      requires Valid()
      modifies this`error, this`loading
      ensures Valid() && error == Some(message) && !loading
    {
      error := Some(message);
      loading := false;
    }
  }
}
