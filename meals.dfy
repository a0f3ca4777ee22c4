/**
 * app/dashboard/meals/page.tsx: the meal list. Each tab queries
 * `users/{uid}/meals` from a lower timestamp bound, newest first; the page
 * then filters the fetched list once more and sums four macros over what is
 * left. Times are milliseconds; the local midnight of today is an input, so
 * no calendar or time-zone logic is modelled.
 */
module Meals {
  import opened Common

  const WeekDays: int := 7

  /** The three tabs. The page compares the tab name with "today" and "week"; anything else behaves as "all". */
  datatype Tab = Today | Week | All

  /** A fetched meal document; `timestamp` is `None` when the field is missing or not a Firestore timestamp. */
  datatype Meal = Meal(id: string, name: string, calories: real, protein: real, carbs: real, fat: real,
                       imageUrl: Option<string>, timestamp: Option<Time>)

  /**
   * The `where("timestamp", ">=", …)` bound of each tab's query: local
   * midnight today, midnight seven days earlier, or no bound.
   */
  function QueryBound(tab: Tab, midnight: Time): (b: Option<Time>)
    ensures tab == Today ==> b == Some(midnight)
    ensures tab == Week ==> b == Some(midnight - WeekDays * DayMs)
    ensures tab == All <==> b.None?
    ensures tab == Week ==> b.value < midnight
  {
    match tab
    case Today => Some(midnight)
    case Week => Some(midnight - WeekDays * DayMs)
    case All => None
  }

  /** A stored meal the query returns: it has a timestamp (the `orderBy` needs one) at or after the bound. */
  predicate Admitted(m: Meal, bound: Option<Time>)
  {
    m.timestamp.Some? && (bound.None? || m.timestamp.value >= bound.value)
  }

  /** `orderBy("timestamp", "desc")`: every fetched meal has a timestamp, newest first. */
  predicate NewestFirst(meals: seq<Meal>)
  {
    && (forall k :: 0 <= k < |meals| ==> meals[k].timestamp.Some?)
    && (forall j, k :: 0 <= j < k < |meals| ==> meals[j].timestamp.value >= meals[k].timestamp.value)
  }

  /** What a query for `tab` may return: an ordering of the admitted stored meals, newest first. */
  ghost predicate QueryResult(tab: Tab, midnight: Time, stored: seq<Meal>, fetched: seq<Meal>)
  {
    var bound := QueryBound(tab, midnight);
    && NewestFirst(fetched)
    && (forall m :: m in fetched <==> m in stored && Admitted(m, bound))
  }

  /** The week tab's client-side test: a timestamp no earlier than `now` minus seven days (time of day kept). */
  predicate InLastWeek(m: Meal, now: Time)
  {
    m.timestamp.Some? && m.timestamp.value >= now - WeekDays * DayMs
  }

  predicate Keeps(tab: Tab, m: Meal, now: Time)
  {
    tab != Week || InLastWeek(m, now)
  }

  /** `filteredMeals`: the today and all tabs keep every fetched meal; the week tab keeps those in the last seven days. */
  function FilteredMeals(tab: Tab, now: Time, meals: seq<Meal>): (r: seq<Meal>)
    ensures |r| <= |meals|
    ensures forall m :: m in r <==> m in meals && Keeps(tab, m, now)
    ensures tab != Week ==> r == meals
  {
    if meals == [] then []
    else
      var init := FilteredMeals(tab, now, meals[..|meals| - 1]);
      var last := meals[|meals| - 1];
      assert meals == meals[..|meals| - 1] + [last];
      if Keeps(tab, last, now) then init + [last] else init
  }

  /** `sub` is `full` with some elements removed, the rest in their original order. */
  predicate Subsequence(sub: seq<Meal>, full: seq<Meal>)
    decreases |full|
  {
    if sub == [] then true
    else if full == [] then false
    else if sub[|sub| - 1] == full[|full| - 1] then Subsequence(sub[..|sub| - 1], full[..|full| - 1])
    else Subsequence(sub, full[..|full| - 1])
  }

  /** The filter keeps the fetched order: its result is a subsequence of the fetched list. */
  lemma {:induction false} FilterPreservesOrder(tab: Tab, now: Time, meals: seq<Meal>)
    ensures Subsequence(FilteredMeals(tab, now, meals), meals)
    decreases |meals|
  {
    if meals != [] {
      var init := meals[..|meals| - 1];
      var last := meals[|meals| - 1];
      var r := FilteredMeals(tab, now, meals);
      FilterPreservesOrder(tab, now, init);
      if Keeps(tab, last, now) {
        assert r[..|r| - 1] == FilteredMeals(tab, now, init);
      } else {
        var ri := FilteredMeals(tab, now, init);
        assert r == ri;
        assert ri == [] || ri[|ri| - 1] != last by {
          if ri != [] {
            assert ri[|ri| - 1] in ri;
          }
        }
      }
    }
  }

  /** The filtered list of an ordered query result is still newest first. */
  lemma {:induction false} FilterKeepsNewestFirst(tab: Tab, now: Time, meals: seq<Meal>)
    requires NewestFirst(meals)
    ensures NewestFirst(FilteredMeals(tab, now, meals))
    decreases |meals|
  {
    if meals != [] {
      var init := meals[..|meals| - 1];
      var last := meals[|meals| - 1];
      assert NewestFirst(init);
      FilterKeepsNewestFirst(tab, now, init);
      var ri := FilteredMeals(tab, now, init);
      if Keeps(tab, last, now) {
        var r := ri + [last];
        forall j, k | 0 <= j < k < |r|
          ensures r[j].timestamp.value >= r[k].timestamp.value
        {
          if k == |r| - 1 {
            assert r[j] in init;
            var p :| 0 <= p < |init| && init[p] == r[j];
            assert meals[p] == r[j] && meals[|meals| - 1] == last;
          }
        }
      }
    }
  }

  /** The macro a total card sums. */
  datatype Macro = Calories | Protein | Carbs | Fat

  function Amount(m: Meal, macro: Macro): real
  {
    match macro
    case Calories => m.calories
    case Protein => m.protein
    case Carbs => m.carbs
    case Fat => m.fat
  }

  /** `reduce((sum, meal) => sum + meal.<macro>, 0)`. */
  function Total(meals: seq<Meal>, macro: Macro): (t: real)
    ensures meals == [] ==> t == 0.0
  {
    if meals == [] then 0.0 else Total(meals[..|meals| - 1], macro) + Amount(meals[|meals| - 1], macro)
  }

  lemma {:induction false} TotalAppend(a: seq<Meal>, b: seq<Meal>, macro: Macro)
    ensures Total(a + b, macro) == Total(a, macro) + Total(b, macro)
    decreases |b|
  {
    if b == [] {
      assert a + b == a;
    } else {
      var bi := b[..|b| - 1];
      assert (a + b)[..|a + b| - 1] == a + bi;
      TotalAppend(a, bi, macro);
    }
  }

  /** A total of non-negative amounts is non-negative. */
  lemma {:induction false} TotalNonNegative(meals: seq<Meal>, macro: Macro)
    requires forall k :: 0 <= k < |meals| ==> Amount(meals[k], macro) >= 0.0
    ensures Total(meals, macro) >= 0.0
    decreases |meals|
  {
    if meals != [] {
      TotalNonNegative(meals[..|meals| - 1], macro);
    }
  }

  /** With non-negative amounts, a tab's total never exceeds the total of everything fetched. */
  lemma {:induction false} FilteredTotalAtMost(tab: Tab, now: Time, meals: seq<Meal>, macro: Macro)
    requires forall k :: 0 <= k < |meals| ==> Amount(meals[k], macro) >= 0.0
    ensures Total(FilteredMeals(tab, now, meals), macro) <= Total(meals, macro)
    decreases |meals|
  {
    if meals != [] {
      var init := meals[..|meals| - 1];
      var last := meals[|meals| - 1];
      FilteredTotalAtMost(tab, now, init, macro);
      var ri := FilteredMeals(tab, now, init);
      if Keeps(tab, last, now) {
        assert (ri + [last])[..|ri + [last]| - 1] == ri;
      }
    }
  }

  /**
   * The week tab's two bounds disagree: when `now` is after local midnight,
   * seven days before `now` is later than the query's bound, so a meal the
   * query returned can be dropped by the filter.
   */
  lemma WeekFilterBoundLater(midnight: Time, now: Time)
    requires midnight < now
    ensures now - WeekDays * DayMs > QueryBound(Week, midnight).value
    ensures var m := Meal("m", "", 0.0, 0.0, 0.0, 0.0, None, Some(midnight - WeekDays * DayMs));
      m in FilteredMeals(Week, midnight, [m]) && m !in FilteredMeals(Week, now, [m])
        && Admitted(m, QueryBound(Week, midnight))
  {
  }

  /** At noon, a meal eight hours after the query's week bound is in the query result but not on the week tab. */
  lemma WeekTabDropsFetchedMeal(midnight: Time)
    ensures var m := Meal("m", "lunch", 500.0, 20.0, 60.0, 15.0, None, Some(midnight - WeekDays * DayMs + 8 * 3_600_000));
      var noon := midnight + 12 * 3_600_000;
      QueryResult(Week, midnight, [m], [m]) && FilteredMeals(Week, noon, [m]) == []
        && Total(FilteredMeals(Week, noon, [m]), Calories) == 0.0 && Total([m], Calories) == 500.0
  {
    var m := Meal("m", "lunch", 500.0, 20.0, 60.0, 15.0, None, Some(midnight - WeekDays * DayMs + 8 * 3_600_000));
    assert [m][..0] == [];
  }

  /** On the today and all tabs, the filter keeps exactly what the query fetched. */
  lemma FilterKeepsQueryResult(tab: Tab, midnight: Time, now: Time, stored: seq<Meal>, fetched: seq<Meal>)
    requires tab != Week && QueryResult(tab, midnight, stored, fetched)
    ensures forall m :: m in FilteredMeals(tab, now, fetched) <==> m in stored && Admitted(m, QueryBound(tab, midnight))
  {
  }
}
