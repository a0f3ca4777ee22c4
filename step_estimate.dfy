/**
 * The step-estimation rule shared by the two geolocation components
 * (components/step-counter.tsx and components/location-tracker.tsx): a new
 * position fix, compared with the previous one, adds `round(distance / 0.762)`
 * steps when it moved more than 0.5 m. The haversine distance itself is an
 * input.
 */
module StepEstimate {
  import opened Common

  /** Movement at or below this many metres is treated as GPS jitter. */
  const MinMovement: real := 0.5

  /** Average adult stride, in metres. */
  const StrideLength: real := 0.762

  /** One position fix from the browser's geolocation watch. */
  datatype Fix = Fix(latitude: real, longitude: real, accuracy: real)

  /** A fix together with its haversine distance in metres from the previous fix (meaningless for the first). */
  datatype Sample = Sample(fix: Fix, distance: real)

  /** Steps that one fix adds to the running total. */
  function StepDelta(hasPrevious: bool, distance: real): (n: nat)
    ensures !hasPrevious || distance <= MinMovement ==> n == 0
    ensures hasPrevious && distance > MinMovement ==>
      1 <= n && n as real - 0.5 <= distance / StrideLength < n as real + 0.5
  {
    if hasPrevious && distance > MinMovement then RoundHalfUp(distance / StrideLength) else 0
  }

  /** The running total after a watch has delivered `samples`, in order. */
  function Total(samples: seq<Sample>): nat
  {
    if samples == [] then 0
    else Total(samples[..|samples| - 1]) + StepDelta(|samples| > 1, samples[|samples| - 1].distance)
  }

  lemma TotalAppend(samples: seq<Sample>, s: Sample)
    ensures Total(samples + [s]) == Total(samples) + StepDelta(samples != [], s.distance)
  {
    assert (samples + [s])[..|samples|] == samples;
  }

  /** The total never decreases as fixes arrive. */
  lemma {:induction false} TotalMonotone(samples: seq<Sample>, more: seq<Sample>)
    ensures Total(samples) <= Total(samples + more)
    decreases |more|
  {
    if more != [] {
      var init := more[..|more| - 1];
      TotalMonotone(samples, init);
      assert samples + more == (samples + init) + [more[|more| - 1]];
      TotalAppend(samples + init, more[|more| - 1]);
    } else {
      assert samples + more == samples;
    }
  }

  /** The first fix only records a position. */
  lemma FirstFixAddsNothing(s: Sample)
    ensures Total([s]) == 0
  {
    TotalAppend([], s);
  }

  /** Movement that stays within the jitter threshold after the first fix is discarded, however long it goes on. */
  lemma {:induction false} JitterIsDiscarded(samples: seq<Sample>)
    requires forall i :: 1 <= i < |samples| ==> samples[i].distance <= MinMovement
    ensures Total(samples) == 0
    decreases |samples|
  {
    if samples != [] {
      JitterIsDiscarded(samples[..|samples| - 1]);
    }
  }

  /** Every fix that moved more than the threshold after the first adds at least one step. */
  lemma {:induction false} MovingFixesCount(samples: seq<Sample>)
    ensures Total(samples) >= |set i | 1 <= i < |samples| && samples[i].distance > MinMovement|
    decreases |samples|
  {
    if samples != [] {
      var init := samples[..|samples| - 1];
      MovingFixesCount(init);
      var k := |samples| - 1;
      var before := set i | 1 <= i < |init| && init[i].distance > MinMovement;
      var after := set i | 1 <= i < |samples| && samples[i].distance > MinMovement;
      if k >= 1 && samples[k].distance > MinMovement {
        assert after == before + {k};
      } else {
        assert after == before;
      }
    }
  }

  /** Conversions at and around a stride: 7.62 m is ten steps, one stride is one, a stride and a half rounds up to two. */
  lemma StrideExamples()
    ensures StepDelta(true, 7.62) == 10
    ensures StepDelta(true, 0.762) == 1
    ensures StepDelta(true, 1.143) == 2
    ensures StepDelta(true, 0.5) == 0 && StepDelta(false, 100.0) == 0
  {
  }
}
