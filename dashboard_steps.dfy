/**
 * app/dashboard/profile/page.tsx: the dashboard page. It sends a signed-out
 * visitor to /login, adds up today's `userSteps` documents of the signed-in
 * user, and hands the sum to the overview cards.
 */
module DashboardSteps {
  import opened Common
  import opened StepStore
  import opened Overview
  import LocationTracker

  /**
   * The query `userId == uid && timestamp >= startOfDay` over the `userSteps`
   * collection: which documents it returns. The model keeps them in
   * collection order, where Firestore orders them by timestamp; the page
   * only adds them up.
   */
  function TodayQuery(userSteps: seq<StepDoc>, uid: UserId, startOfDay: Time): (r: seq<StepDoc>)
    ensures forall d :: d in r <==> d in userSteps && d.userId == uid && d.timestamp >= startOfDay
  {
    if userSteps == [] then []
    else
      var rest := TodayQuery(userSteps[1..], uid, startOfDay);
      var d := userSteps[0];
      assert forall e :: e in userSteps <==> e == d || e in userSteps[1..];
      if d.userId == uid && d.timestamp >= startOfDay then [d] + rest else rest
  }

  /** What one document adds: `if (data.stepCount) totalSteps += data.stepCount`. */
  function Contribution(d: StepDoc): int
  {
    if d.stepCount.Some? && d.stepCount.value != 0 then d.stepCount.value else 0
  }

  /** The sum the `forEach` loop accumulates. */
  function SumStepCounts(docs: seq<StepDoc>): int
  {
    if docs == [] then 0 else SumStepCounts(docs[..|docs| - 1]) + Contribution(docs[|docs| - 1])
  }

  class DashboardPage {
    var todaySteps: Option<int>
    /** The route pushed by the redirect effect, if any. */
    var redirect: Option<string>

    constructor ()
      ensures todaySteps.None? && redirect.None?
    {
      todaySteps := None;
      redirect := None;
    }

    /** Once authentication has finished loading with no user, go to /login. */
    method RedirectIfSignedOut(authLoading: bool, user: Option<UserId>)
      modifies this`redirect
      ensures redirect == if !authLoading && user.None? then Some("/login") else old(redirect)
    {
      if !authLoading && user.None? {
        redirect := Some("/login");
      }
    }

    /**
     * `fetchTodaySteps`. `userSteps` is the collection, `startOfDay` local
     * midnight, and `queryOk` whether `getDocs` succeeds (a failure is logged).
     */
    method FetchTodaySteps(user: Option<UserId>, userSteps: seq<StepDoc>, startOfDay: Time, queryOk: bool)
      modifies this`todaySteps
      ensures user.None? || !queryOk ==> todaySteps == old(todaySteps)
      ensures user.Some? && queryOk ==>
        todaySteps == Some(SumStepCounts(TodayQuery(userSteps, user.value, startOfDay)))
    {
      if user.None? {
        return;
      }
      if !queryOk {
        return;
      }
      var snapshot := TodayQuery(userSteps, user.value, startOfDay);
      var totalSteps := 0;
      var i := 0;
      while i < |snapshot|
        invariant 0 <= i <= |snapshot|
        invariant totalSteps == SumStepCounts(snapshot[..i])
      {
        var data := snapshot[i];
        if data.stepCount.Some? && data.stepCount.value != 0 {
          totalSteps := totalSteps + data.stepCount.value;
        }
        assert snapshot[..i + 1][..i] == snapshot[..i];
        i := i + 1;
      }
      assert snapshot[..|snapshot|] == snapshot;
      todaySteps := Some(totalSteps);
    }
  }

  /** The props the page passes: `<Overview profile={profile} weeklySteps={todaySteps ?? undefined} />`. */
  function OverviewProps(profile: Option<Profile>, todaySteps: Option<int>): Props
  {
    Props(profile, None, todaySteps)
  }

  /** As written, the "Steps Today" card shows "Loading..." whatever the sum is. */
  lemma StepsCardIgnoresSum(profile: Option<Profile>, todaySteps: Option<int>)
    ensures StepsCard(OverviewProps(profile, todaySteps)) == Words("Loading...")
  {
  }

  /** The hand-off the card expects: the sum passed as `todaySteps`. */
  function CorrectedOverviewProps(profile: Option<Profile>, todaySteps: Option<int>): Props
  {
    Props(profile, todaySteps, None)
  }

  /** With the corrected hand-off the card shows the sum once it is known. */
  lemma CorrectedStepsCardShowsSum(profile: Option<Profile>, total: int)
    ensures StepsCard(CorrectedOverviewProps(profile, Some(total))) == Amount(total as real)
    ensures StepsCard(CorrectedOverviewProps(profile, None)) == Words("Loading...")
  {
  }

  /** Documents with a missing or zero count add nothing; no documents sum to 0. */
  lemma {:induction false} UncountedDocsAddNothing(docs: seq<StepDoc>)
    requires forall i :: 0 <= i < |docs| ==> docs[i].stepCount.None? || docs[i].stepCount.value == 0
    ensures SumStepCounts(docs) == 0
  {
    if docs != [] {
      UncountedDocsAddNothing(docs[..|docs| - 1]);
    }
  }

  lemma {:induction false} SumOfPositiveCounts(docs: seq<StepDoc>)
    requires forall i :: 0 <= i < |docs| ==> docs[i].stepCount.Some? && docs[i].stepCount.value > 0
    ensures SumStepCounts(docs) >= 0
    ensures docs != [] ==> SumStepCounts(docs) >= docs[|docs| - 1].stepCount.value
  {
    if docs != [] {
      SumOfPositiveCounts(docs[..|docs| - 1]);
    }
  }

  /**
   * The tracker stores running totals, so the dashboard's sum is at least the
   * latest saved total, and strictly more once two totals were saved.
   */
  lemma SumOfRunningTotalsAtLeastLatest(docs: seq<StepDoc>, total: int)
    requires LocationTracker.RunningTotals(docs, total) && docs != []
    ensures SumStepCounts(docs) >= docs[|docs| - 1].stepCount.value
    ensures |docs| >= 2 ==> SumStepCounts(docs) > docs[|docs| - 1].stepCount.value
  {
    SumOfPositiveCounts(docs);
    if |docs| >= 2 {
      SumOfPositiveCounts(docs[..|docs| - 1]);
    }
  }

  /** A tracker session of today's documents for one user is exactly what the query returns. */
  lemma {:induction false} SessionDocsAreQueried(docs: seq<StepDoc>, uid: UserId, startOfDay: Time)
    requires forall i :: 0 <= i < |docs| ==> docs[i].userId == uid && docs[i].timestamp >= startOfDay
    ensures TodayQuery(docs, uid, startOfDay) == docs
  {
    if docs != [] {
      SessionDocsAreQueried(docs[1..], uid, startOfDay);
    }
  }

  /** Walking 5 and then 7 more steps saves totals 5 and 12; the dashboard reports 17. */
  lemma RunningTotalsOverCount(uid: UserId, t1: Time, t2: Time, startOfDay: Time)
    requires startOfDay <= t1 && startOfDay <= t2
    ensures var docs := [StepDoc(uid, Some(5), t1), StepDoc(uid, Some(12), t2)];
      SumStepCounts(TodayQuery(docs, uid, startOfDay)) == 17
  {
    var docs := [StepDoc(uid, Some(5), t1), StepDoc(uid, Some(12), t2)];
    SessionDocsAreQueried(docs, uid, startOfDay);
    assert docs[..1] == [docs[0]] && [docs[0]][..0] == [];
    assert SumStepCounts(docs[..1]) == 5;
  }
}
