# Nutrilens core, modelled in Dafny

Nutrilens is a Next.js nutrition and activity app. Users photograph a
meal, a vision model estimates its name and macros, and the meal is stored
in Firestore. The browser's geolocation watch estimates steps. A dashboard
shows BMI, steps and advice. This project models the app's logic: the rules,
state changes, loops and error cascades. It leaves out the rendering and
the outside services.

Everything external is an **oracle**. Each Firestore read, write or batch
commit, each Cloudinary upload, the OpenRouter HTTP reply and each Firebase
Auth call is reached through a parameter: a success flag, or a datatype
describing what came back. The haversine distance between two position
fixes is also an input, so the trigonometry is not modelled. Times are
integers in milliseconds, and local midnight is given. Numbers are exact
`real`s. JavaScript's NaN and infinities are modelled where the code can
produce them (`Common.JsNumber`). Rounding is written out per language:
`Math.round` rounds ties up, Python's `round` rounds ties to even, `int()`
truncates and `toFixed(1)` rounds half away from zero.

Modules follow the source files:

| module | source |
|---|---|
| `Common`, `JsText` | JavaScript/Python number and text primitives the core uses (`parseInt`, `parseFloat`, `Number`, `toLowerCase`, `includes`, rounding, division) |
| `StepEstimate` | the stride rule shared by the two geolocation components |
| `StepCounter` | components/step-counter.tsx |
| `LocationTracker`, `StepStore` | components/location-tracker.tsx and the Firestore step documents |
| `DashboardSteps` | app/dashboard/profile/page.tsx |
| `Overview` | components/dashboard/overview.tsx |
| `DailyReset` | functions/index.ts |
| `ActivityPage` | app/dashboard/activity/page.tsx |
| `BmiRoute` | app/api/calculate-bmi/route.ts |
| `Onboarding` | app/onboarding/page.tsx |
| `Recommendations` | components/dashboard/recommendations.tsx |
| `HealthRecommendations` | app/api/health-recommendations/route.ts |
| `OpenRouter` | lib/openrouter.ts |
| `ScanSave` | app/dashboard/scan/page.tsx |
| `Meals` | app/dashboard/meals/page.tsx |
| `Settings` | app/dashboard/settings/page.tsx |
| `ResetPassword` | app/reset-password/page.tsx |

**Modelling choices.**
- A React component whose state changes becomes a `class`. Its state hooks are the fields, and its handlers are methods with `modifies` clauses. When a handler writes a Firestore collection, that collection is a field too: a `map`, or a `seq` kept in insertion order.
- A loop in the source becomes a `while` loop with invariants, proved against a specification function of the inputs. These are the nightly batch over users (`DailyReset.ResetUserStepsDaily`), the sum over the day's step documents (`DashboardSteps.DashboardPage.FetchTodaySteps`) and the scan page's retry loop (`ScanSave.RetryLoop`).
- The health script appends its rules one after another without a loop. `HealthRecommendations.RunScript` is a method with those appends in sequence.

**Behaviour the code has that a reader might not expect:**
- `lib/openrouter.ts` reads its analysis cache but never writes it, so a lookup never hits.
- The location tracker appends one `userSteps` document, holding the new running total, each time the steps go up.
- The nightly reset is not idempotent: a second run archives another entry, holding 0 steps.

## Model

| member | source | states |
|---|---|---|
| Common.RoundHalfUp | components/step-counter.tsx:41 | `Math.round`: the integer within half of x, with a tie going to the upper integer |
| Common.RoundHalfEven | app/api/calculate-bmi/route.ts:55 | Python `round`: the nearest integer, with a tie going to the even integer |
| Common.Truncate | app/api/health-recommendations/route.ts:44 | Python `int()`: truncation toward zero, for both signs |
| Common.Divide | app/dashboard/activity/page.tsx:110 | JavaScript division: the exact quotient for a non-zero divisor; for a zero divisor, NaN exactly when the dividend is 0, +Infinity for a positive dividend and -Infinity for a negative one |
| Common.Times | app/onboarding/page.tsx:40 | JavaScript `*` with NaN and infinities: the exact product of finite operands; NaN exactly when an operand is NaN or 0 meets an infinity; otherwise an infinity whose sign is the product of the signs |
| Common.Over | app/onboarding/page.tsx:38-40 | JavaScript `/` with NaN and infinities: `Divide` for finite operands; NaN exactly for a NaN operand, two infinities or 0/0; a finite number over an infinity is 0; an infinity over a finite number keeps its sign, flipped for a negative divisor |
| Common.MinWith | app/dashboard/activity/page.tsx:110 | `Math.min(x, bound)`: never above the bound; NaN exactly when x is NaN, -Infinity exactly when x is -Infinity; a finite x gives x or the bound |
| Common.RoundToTenth | app/onboarding/page.tsx:40 | `toFixed(1)` read back as a number: a whole number of tenths within 0.05 of x; a tie goes away from zero (upward for x >= 0, downward for x < 0) |
| JsText.ParseIntOfIntToString | app/dashboard/activity/page.tsx:124-125 | `parseInt` of the decimal text of any integer gives that integer back |
| JsText.ToLower | components/dashboard/recommendations.tsx:51 | `toLowerCase` on ASCII: the same length; exactly the letters A-Z are mapped to a-z |
| JsText.Utf16Length | app/reset-password/page.tsx:42 | JavaScript `length`, in UTF-16 code units: between |s| and 2·|s| |
| JsText.Utf16LengthOfBmp | app/reset-password/page.tsx:42 | text without characters above U+FFFF has one unit per character |
| JsText.Utf16LengthOfEmoji | app/dashboard/settings/page.tsx:59 | three emoji above U+FFFF are 6 units long |
| JsText.ParseIntOfDigits | app/dashboard/activity/page.tsx:125 | `parseInt` of a non-empty digit string is its decimal value |
| JsText.ParseIntOfNegatedDigits | app/dashboard/activity/page.tsx:125 | `parseInt` of a minus sign followed by digits is the negated value |
| JsText.NumberOfExponent | app/dashboard/scan/page.tsx:130 | `Number("1e3")` is 1000 |
| JsText.NumberOfDigitText | app/api/calculate-bmi/route.ts:12 | `Number("175")` is 175 |
| JsText.NumberOfInfinity | app/dashboard/scan/page.tsx:130 | `Number("-Infinity")` is -Infinity |
| JsText.NumberOfHex | app/dashboard/scan/page.tsx:130 | `Number("0x10")` is 16, and a signed hex literal `-0x10` is NaN |
| JsText.NumberOfSignedHex | app/dashboard/scan/page.tsx:130 | `Number("-0x10")` is NaN |
| JsText.NumberOfTrailingLetters | app/dashboard/scan/page.tsx:130 | `Number("12abc")` is NaN |
| JsText.NumberOfCutExponent | app/dashboard/scan/page.tsx:130 | `Number("1e")` is NaN |
| JsText.NumberNeedsWholeText | app/dashboard/scan/page.tsx:130 | `Number` needs the whole trimmed text to be a literal: "12abc" and "1e" are NaN |
| JsText.ParseFloatOfExponent | app/onboarding/page.tsx:38 | `parseFloat("1.75e2")` is 175 |
| JsText.ParseFloatOfLetters | app/onboarding/page.tsx:38 | `parseFloat("abc")` is NaN |
| JsText.ParseFloatReadsPrefix | app/onboarding/page.tsx:38 | `parseFloat` reads the longest numeric prefix: "12abc" is 12, and "abc" is NaN |
| JsText.ParseFloatStopsAtLetters | app/onboarding/page.tsx:38-39 | `parseFloat` has no hex literals, so "0x10" is 0, and it reads "Infinityx" as +Infinity |
| StepEstimate.StepDelta | components/step-counter.tsx:33-43 | the first fix, or a movement of 0.5 m or less, adds 0 steps; otherwise at least 1 step, the integer nearest to distance / 0.762 |
| StepEstimate.TotalMonotone | components/step-counter.tsx:41 | the running total never decreases as fixes arrive |
| StepEstimate.FirstFixAddsNothing | components/step-counter.tsx:33-44 | the first fix only records a position |
| StepEstimate.JitterIsDiscarded | components/step-counter.tsx:40 | when every fix after the first moves 0.5 m or less, the total stays 0 |
| StepEstimate.MovingFixesCount | components/step-counter.tsx:40-41 | the total is at least the number of fixes after the first that moved more than 0.5 m |
| StepEstimate.StrideExamples | components/step-counter.tsx:40-41 | 7.62 m is 10 steps, one stride is 1 step, 1.5 strides round up to 2 steps, and 0.5 m or a first fix is 0 steps |
| StepEstimate.TotalAppend | components/step-counter.tsx:40-41 | one more fix adds exactly its `StepDelta` to the total |
| StepCounter.StepCounter.constructor | components/step-counter.tsx:7-10 | 0 steps, no error, loading, no previous fix |
| StepCounter.StepCounter.Start | components/step-counter.tsx:53-66 | without geolocation, the error is exactly "Geolocation is not supported by this browser." and loading is cleared; otherwise loading is set and the error is kept |
| StepCounter.StepCounter.OnPosition | components/step-counter.tsx:32-46 | the steps grow by exactly `StepDelta`; the fix always becomes the previous fix; loading is cleared; the invariant holds that steps equal the total over all fixes received |
| StepCounter.StepCounter.OnError | components/step-counter.tsx:48-51 | stores the message and clears loading; the steps are kept |
| LocationTracker.LocationTracker.constructor | components/location-tracker.tsx:22-27 | 0 steps, not loading, no error, no location, nothing saved |
| LocationTracker.LocationTracker.Start | components/location-tracker.tsx:59-60 | the watch effect sets loading |
| LocationTracker.LocationTracker.OnPosition | components/location-tracker.tsx:62-93 | the steps grow by `StepDelta`; a `userSteps` document with the new running total is appended exactly when the steps grew, a user is signed in and the write succeeds; the shown location takes the fix's values and the steps from before the fix; saved counts stay positive, strictly increasing and at most the total |
| LocationTracker.LocationTracker.Advance | components/location-tracker.tsx:73-81 | the total rises to the new value; one document with that total is appended exactly when a user is signed in and the write succeeds; the saved totals stay running totals |
| LocationTracker.RunningTotalsExtend | components/location-tracker.tsx:74-80 | appending a total larger than all earlier ones keeps the saved counts positive, bounded and strictly increasing |
| LocationTracker.RunningTotalsGrow | components/location-tracker.tsx:74-76 | a larger current total still bounds every saved count |
| LocationTracker.LocationTracker.OnError | components/location-tracker.tsx:95-98 | stores the message and clears loading |
| DashboardSteps.TodayQuery | app/dashboard/profile/page.tsx:71-77 | the query returns exactly the user's `userSteps` documents timestamped at or after local midnight |
| DashboardSteps.DashboardPage.constructor | app/dashboard/profile/page.tsx:34 | `todaySteps` starts null and there is no redirect |
| DashboardSteps.DashboardPage.RedirectIfSignedOut | app/dashboard/profile/page.tsx:37-41 | redirects to /login exactly when auth has finished loading with no user |
| DashboardSteps.DashboardPage.FetchTodaySteps | app/dashboard/profile/page.tsx:67-90 | with no user, or a failed query, `todaySteps` is unchanged; otherwise it is the sum of the truthy step counts of the queried documents |
| DashboardSteps.StepsCardIgnoresSum | app/dashboard/profile/page.tsx:152 | as written (the sum is passed as `weeklySteps`), the "Steps Today" card shows "Loading..." whatever the sum |
| DashboardSteps.CorrectedStepsCardShowsSum | app/dashboard/profile/page.tsx:152 | when the sum is passed as `todaySteps`, the card shows it once it is known |
| DashboardSteps.UncountedDocsAddNothing | app/dashboard/profile/page.tsx:79-86 | documents with a missing or zero count add nothing, and an empty result sums to 0 |
| DashboardSteps.SumOfPositiveCounts | app/dashboard/profile/page.tsx:79-85 | a sum of positive counts is at least its last count |
| DashboardSteps.SumOfRunningTotalsAtLeastLatest | app/dashboard/profile/page.tsx:79-85 | over the tracker's running totals, the sum is at least the latest total, and strictly greater once two totals were saved |
| DashboardSteps.SessionDocsAreQueried | app/dashboard/profile/page.tsx:73-77 | a tracker session's documents from today, for this user, are returned whole and in order |
| DashboardSteps.RunningTotalsOverCount | app/dashboard/profile/page.tsx:79-85 | walking 5 steps and then 7 more saves totals 5 and 12, and the dashboard reports 17 |
| Overview.CategoryMatchesRoute | components/dashboard/overview.tsx:55-62 | the card's label for any non-zero BMI is the label the BMI route gives |
| Overview.NotCalculatedIffMissing | components/dashboard/overview.tsx:56 | "Not calculated" exactly for a missing or zero BMI |
| Overview.CategoryLabelMonotone | components/dashboard/overview.tsx:58-61 | a larger positive BMI never gets a lower band |
| Overview.BmiCardShowsStoredValue | components/dashboard/overview.tsx:19 | the BMI card shows the stored value exactly when it is present and non-zero, and "N/A" otherwise |
| Overview.StepsCardReadsTodaySteps | components/dashboard/overview.tsx:37 | the steps card shows `todaySteps` when given, including 0, and "Loading..." otherwise |
| BmiRoute.RejectsInvalidInput | app/api/calculate-bmi/route.ts:12-14 | the response is 400 "Invalid height or weight" exactly when a field is missing or falsy, or `isNaN` holds for it (`isNaN` converts text, booleans and null with `Number` first) |
| BmiRoute.AcceptsNonZeroNumbers | app/api/calculate-bmi/route.ts:12-72 | two non-zero numbers always get the script's result for them |
| BmiRoute.NumericTextFails | app/api/calculate-bmi/route.ts:67-75 | a numeric string passes validation, but the script's arithmetic rejects it, giving 500 "Failed to calculate BMI" |
| BmiRoute.NumberTextFails | app/api/calculate-bmi/route.ts:12-75 | any non-empty text that `Number` reads as a number, beside a valid other field, passes validation, then the script's arithmetic on text fails with 500 "Failed to calculate BMI"; in either field |
| BmiRoute.ExponentTextFails | app/api/calculate-bmi/route.ts:12-75 | a height of "1e3" passes validation and gets 500 |
| BmiRoute.InfinityTextFails | app/api/calculate-bmi/route.ts:12-75 | a weight of "-Infinity" passes validation and gets 500 |
| BmiRoute.TrueHeightComputes | app/api/calculate-bmi/route.ts:12-61 | a height of `true` passes validation, and Python computes with it as 1 |
| BmiRoute.CategoryBands | app/api/calculate-bmi/route.ts:31-38 | each band covers exactly its threshold interval; a value on a boundary belongs to the higher band |
| BmiRoute.CategoryMonotone | app/api/calculate-bmi/route.ts:31-38 | a larger BMI never falls in a lower band |
| BmiRoute.MultiplierMatchesCategory | app/api/calculate-bmi/route.ts:41-52 | 35, 30, 25 or 22 kcal per kg, according to the band |
| BmiRoute.RecommendedCaloriesNearBase | app/api/calculate-bmi/route.ts:54-55 | the recommendation is a multiple of 50 within 25 kcal of weight × multiplier |
| BmiRoute.ExampleNormalWeight | app/api/calculate-bmi/route.ts:27-61 | 175 cm and 70 kg give BMI 22.9, normal weight, 2100 kcal |
| BmiRoute.ExampleUnderweight | app/api/calculate-bmi/route.ts:41-59 | 170 cm and 45 kg give BMI 15.6, underweight, and 31.5 rounds to even, giving 1600 kcal |
| DailyReset.ResetUserStepsDaily | functions/index.ts:13-42 | the loop stages exactly the writes the specification function lists for the users in order: an archive and a reset per user with a record; a committed batch applies all of them, and a failed commit applies none |
| DailyReset.ResetZeroesListedRecords | functions/index.ts:35-39 | after a committed run, every listed record has 0 steps and the commit time, and keeps its goal; other records, the record keys, the user list and `userSteps` are untouched |
| DailyReset.ResetArchivesOnce | functions/index.ts:21-33 | each listed user with a record gets exactly one new history entry, holding the pre-reset count (0 when missing or falsy); no one else gets an entry |
| DailyReset.RerunArchivesZero | functions/index.ts:26-39 | a second run appends a second entry, holding 0 steps, for every such user |
| DailyReset.ExampleReset | functions/index.ts:25-39 | a record of 4231 steps is archived as 4231 and reset to 0, and its goal is kept |
| ActivityPage.LoadedSteps | app/dashboard/activity/page.tsx:49 | `data.steps \|\| 0` |
| ActivityPage.LoadedGoal | app/dashboard/activity/page.tsx:50 | `data.goal \|\| 10000`; a loaded goal is never 0 |
| ActivityPage.Progress | app/dashboard/activity/page.tsx:110 | never above 1; within [0, 1] for a positive goal and non-negative steps, exactly steps / goal below the goal and full once it is reached; for a goal of 0, NaN exactly when the steps are 0, full for positive steps and -Infinity for negative steps |
| ActivityPage.ActivityPage.constructor | app/dashboard/activity/page.tsx:22-25 | steps 0, goal 10000, loading, not saving |
| ActivityPage.ActivityPage.Load | app/dashboard/activity/page.tsx:39-57 | with no user nothing changes, loading included; otherwise loading ends false, and a record that was read sets the steps and goal through their defaults |
| ActivityPage.ActivityPage.OnStepsInput | app/dashboard/activity/page.tsx:125 | steps become `parseInt(text) \|\| 0`, and nothing else changes |
| ActivityPage.ActivityPage.OnGoalInput | app/dashboard/activity/page.tsx:138 | the goal becomes `parseInt(text) \|\| 0`, and nothing else changes |
| ActivityPage.ActivityPage.UpdateSteps | app/dashboard/activity/page.tsx:62-79 | with a user and a successful write, an existing record's three fields are set to the current steps, goal and time; otherwise the store is unchanged; saving ends false |
| ActivityPage.UpdateThenLoad | app/dashboard/activity/page.tsx:47-73 | loading what an update wrote gives back the steps, and the goal unless that goal was 0 |
| ActivityPage.InputRoundTrip | app/dashboard/activity/page.tsx:124-125 | typing back the number a field shows yields that number |
| ActivityPage.NonNumericInputIsZero | app/dashboard/activity/page.tsx:125 | empty or non-numeric text becomes 0 |
| ActivityPage.NumericPrefixInput | app/dashboard/activity/page.tsx:125 | "12abc" becomes 12 |
| ActivityPage.LoadAfterReset | app/dashboard/activity/page.tsx:47-50 | after the nightly reset, the page loads 0 steps and the earlier goal |
| Onboarding.NextTab | app/onboarding/page.tsx:43-58 | Next is blocked exactly on the personal tab with name or age empty, or the metrics tab with height or weight empty; otherwise personal moves to metrics, and metrics and goals move to goals |
| Onboarding.BlockedStays | app/onboarding/page.tsx:44-54 | a blocked tab stays blocked however often Next is pressed |
| Onboarding.GoalsFromMetricsNeedsMetrics | app/onboarding/page.tsx:50-55 | reaching goals from metrics needs height and weight |
| Onboarding.GoalsNeedsAllFields | app/onboarding/page.tsx:43-58 | Next alone reaches goals from the first tab only with all four fields filled |
| Onboarding.FilledFieldsReachGoals | app/onboarding/page.tsx:43-58 | with all fields filled, two presses reach goals |
| Onboarding.GoalsStays | app/onboarding/page.tsx:43-58 | Next on the goals tab stays there |
| Onboarding.BmiOfFinite | app/onboarding/page.tsx:37-41 | for finite parsed fields and a non-zero height, the stored BMI is the exact BMI rounded to a tenth |
| Onboarding.BmiQuotient | app/onboarding/page.tsx:38-40 | `weight / (m * m)` with `m = height / 100` is the route's exact BMI for a non-zero height |
| Onboarding.BmiOfNaN | app/onboarding/page.tsx:37-41 | a field that does not parse gives NaN |
| Onboarding.BmiOfZeroHeight | app/onboarding/page.tsx:40 | a zero height divides by zero: NaN for a zero weight, otherwise an infinity with the weight's sign |
| Onboarding.BmiOfInfiniteWeight | app/onboarding/page.tsx:40 | a weight that parses to an infinity or NaN passes through unchanged over a finite height |
| Onboarding.BmiOfInfiniteHeight | app/onboarding/page.tsx:40 | an infinite height with a finite weight gives 0 |
| Onboarding.BmiOfNoFinite | app/onboarding/page.tsx:40 | infinite or NaN height and weight together give NaN |
| Onboarding.StoredBmiNearRouteBmi | app/onboarding/page.tsx:40 | the wizard's `toFixed(1)` BMI and the route's `round(bmi, 1)` never differ by more than 0.1 |
| Onboarding.ProfileOf | app/onboarding/page.tsx:69-79 | the profile document: text fields as typed, numbers parsed, the BMI computed from the typed fields, and the creation time |
| Onboarding.OnboardingWizard.constructor | app/onboarding/page.tsx:20-35 | the personal tab, empty fields, and the defaults "male", "moderate" and "maintain" |
| Onboarding.OnboardingWizard.EditPersonal | app/onboarding/page.tsx:116-124 | sets name, age and gender, and nothing else |
| Onboarding.OnboardingWizard.EditMetrics | app/onboarding/page.tsx:146-180 | sets height, weight, activity level and goal, and nothing else |
| Onboarding.OnboardingWizard.HandleNext | app/onboarding/page.tsx:43-58 | a blocked Next keeps the tab and shows "Please fill in all fields"; a successful Next moves as `NextTab` says and clears the error |
| Onboarding.OnboardingWizard.SelectTab | app/onboarding/page.tsx:107 | the tab list switches to any tab without checks |
| Onboarding.OnboardingWizard.HandleSubmit | app/onboarding/page.tsx:60-86 | with no user nothing happens; a successful write stores the profile the fields described before the call and goes to /dashboard with loading still set; a failure shows "Failed to save your information" and clears loading; the fields are kept |
| Onboarding.OnboardingWizard.Save | app/onboarding/page.tsx:63-85 | the `setDoc` outcome: a success stores the document under the user and routes to /dashboard; a failure stores nothing and shows the message; the fields are kept |
| Recommendations.BmiAdvice | components/dashboard/recommendations.tsx:31-48 | none for a missing or zero BMI; id 1 below 18.5, id 2 in [18.5, 25), id 3 from 25 |
| Recommendations.GoalAdvice | components/dashboard/recommendations.tsx:50-67 | the first of "weight loss", "muscle gain" and "maintenance" found in the lower-cased goal decides; none when no phrase matches |
| Recommendations.GenerateRecommendations | components/dashboard/recommendations.tsx:19-77 | a null profile gives only the loading entry; the result always has 1 or 2 entries with strictly increasing (so distinct) ids; the fallback appears exactly when neither rule added an entry, and then alone; otherwise the BMI entry comes first, then the goal entry |
| Recommendations.GoalMatchIgnoresCase | components/dashboard/recommendations.tsx:51 | "Weight Loss" selects the weight-loss advice |
| Recommendations.WeightLossSelected | components/dashboard/recommendations.tsx:51-56 | any goal whose lower-cased text contains "weight loss" gets the weight-loss advice |
| HealthRecommendations.CalorieRatio | app/api/health-recommendations/route.ts:38 | calories over target for a positive target, else 1 |
| HealthRecommendations.StepRatio | app/api/health-recommendations/route.ts:39 | steps over target for a positive target, else 0 |
| HealthRecommendations.RatioRule | app/api/health-recommendations/route.ts:41-50 | activity exactly when the calorie ratio > 0.9 and step ratio < 0.5; nutrition exactly when the calorie ratio < 0.7 and step ratio > 0.8 |
| HealthRecommendations.BmiRule | app/api/health-recommendations/route.ts:53-62 | weight management exactly above 30, weight gain exactly below 18.5, nothing in [18.5, 30] |
| HealthRecommendations.MetabolicRule | app/api/health-recommendations/route.ts:65-75 | fires exactly with a truthy weight, at least three history samples whose last three do not decrease, and calories under target |
| HealthRecommendations.MoodRule | app/api/health-recommendations/route.ts:78-88 | low mood without a breakfast time, or energetic mood with a breakfast time before "09:00" compared as text; nothing when `mealTimes` is null |
| HealthRecommendations.Script | app/api/health-recommendations/route.ts:33-101 | the script raises exactly when the mood is "low" or "energetic" and `mealTimes` is null (`in None`); otherwise it prints `Recommend` |
| HealthRecommendations.GeneralRule | app/api/health-recommendations/route.ts:91-101 | steps still to go below a step ratio of 1, the congratulation otherwise |
| HealthRecommendations.RunScript | app/api/health-recommendations/route.ts:35-101 | the rule-by-rule appends print exactly what `Script` says, raising for a null `mealTimes` under a mood that reads it |
| HealthRecommendations.RecommendShape | app/api/health-recommendations/route.ts:35-101 | 1 to 4 entries, in rule order, at most one per rule; the general entry appears exactly when no rule fired, and then alone |
| HealthRecommendations.AssembleInRuleOrder | app/api/health-recommendations/route.ts:35-101 | for any rule outcomes, 1 to 4 entries in strictly increasing rule order; the general entry appears exactly when no rule fired, and then alone |
| HealthRecommendations.Respond | app/api/health-recommendations/route.ts:7-132 | an unreadable body gives 500; 400 "Missing required data" when any of the five required numbers is missing or zero; a script that raises gives 500 "Failed to generate recommendations"; otherwise 200 with `Recommend` of the script's inputs |
| HealthRecommendations.RemainingStepsPositive | app/api/health-recommendations/route.ts:92-95 | with a positive target, the steps still to go are positive |
| HealthRecommendations.OnTrackExample | app/api/health-recommendations/route.ts:97-101 | calories on target and a full step goal give only the congratulation |
| HealthRecommendations.NullMealTimesFails | app/api/health-recommendations/route.ts:33-79 | a low mood with `mealTimes: null` gives 500, and with `mealTimes` absent gives the low-mood advice |
| OpenRouter.CacheKey | lib/openrouter.ts:19 | the key is the payload's prefix of length min(100, length) |
| OpenRouter.SharedPrefixSharesKey | lib/openrouter.ts:19-22 | payloads agreeing on their first 100 characters share an entry |
| OpenRouter.CacheKeyIdempotent | lib/openrouter.ts:19 | a key's own key is the key itself |
| OpenRouter.Normalize | lib/openrouter.ts:193-199 | a missing or empty name becomes "Unknown Food", so the name is never empty; each missing macro becomes 0, and each present macro passes through (a 0 stays 0) |
| OpenRouter.NormalizeIdempotent | lib/openrouter.ts:193-199 | normalising a normalised result changes nothing |
| OpenRouter.ClassifyApiError | lib/openrouter.ts:92-168 | the cascade: image format, then rate limit, then JPEG-only, then temporary issue, then "Food analysis failed: …" with the provider message, the top-level message, or "Unknown error"; each message appears exactly when its check is the first to hold |
| OpenRouter.ImageFormatTakesPrecedence | lib/openrouter.ts:132-162 | an invalid-request provider error mentioning "image" would also pass the JPEG check, yet gets the image-format message |
| OpenRouter.ParseContent | lib/openrouter.ts:182-199 | content that is not a JSON object gives "Claude response was not valid JSON."; an object is normalised |
| OpenRouter.Interpret | lib/openrouter.ts:73-205 | an abort, and only an abort, gives the timeout message; a network failure and an unreadable 2xx body pass their error through; a non-2xx status gives "API request failed with status …"; a non-object body gives the invalid-response message; an `error` object gets `ClassifyApiError`; a 2xx object without `error` whose first choice has no or empty content is truncated on finish reason "length" and incomplete otherwise; with content it is exactly `ParseContent` of it, and every success comes from there |
| OpenRouter.RateLimitUnreachable | lib/openrouter.ts:73-145 | as written, no reply ever gives the rate-limit message |
| OpenRouter.RateLimitReportedAsRequestFailure | lib/openrouter.ts:73-81 | a 429 reply gets the generic request-failure message |
| OpenRouter.InterpretCorrected | lib/openrouter.ts:143-145 | with the 429 check first, a 429 gives the rate-limit message, and every other reply is handled as before |
| OpenRouter.MissingContentMessages | lib/openrouter.ts:170-176 | for any body text, missing or empty content is "truncated" when the finish reason is "length", otherwise "incomplete"; no first choice at all is "incomplete" |
| OpenRouter.SuccessNeedsContent | lib/openrouter.ts:73-199 | a success needs a 2xx object reply without `error`, whose first choice's content is present, non-empty and a JSON object |
| OpenRouter.FoodAnalyzer.constructor | lib/openrouter.ts:9 | the cache starts empty |
| OpenRouter.FoodAnalyzer.AnalyzeFood | lib/openrouter.ts:11-22 | as written: no API key gives the configuration error with no request sent; a cache hit is returned with no request; otherwise the request is sent; the cache is never written |
| OpenRouter.FoodAnalyzer.AnalyzeFoodCaching | lib/openrouter.ts:9-22 | the corrected cache: the same guard and lookup, and a successful result is stored under its key |
| OpenRouter.SamePhotoTwice | lib/openrouter.ts:9-22 | as written, analysing the same photo twice sends two requests |
| OpenRouter.SamePhotoTwiceCaching | lib/openrouter.ts:19-22 | with the store in place, a second analysis after a success is answered from the cache with the same result |
| ScanSave.FailureMessage | app/dashboard/scan/page.tsx:194-202 | the offline message exactly when the error text contains "offline", the generic message otherwise |
| ScanSave.RunAttempt | app/dashboard/scan/page.tsx:155-184 | a failed upload adds nothing and reports "Image upload failed"; a document is added exactly when the upload and `addDoc` succeed, carrying the uploaded URL or the preview; an `addDoc` error, a missing read-back and a read error each give their own message; the attempt succeeds exactly when upload, add and read-back all succeed |
| ScanSave.RetryLoop | app/dashboard/scan/page.tsx:151-190 | the `while` loop yields exactly the writes, success flag and last error of `Run` over the attempt budget |
| ScanSave.HandleSave | app/dashboard/scan/page.tsx:124-204 | no result or user gives the not-ready message; a macro that `Number` makes NaN or negative gives the validation message; both write nothing; offline writes nothing and gives the offline message; otherwise the writes are those of at most three attempts on the `Number` values; success shows `Saved`, failure shows the message chosen from the last error |
| ScanSave.ValidMacroExamples | app/dashboard/scan/page.tsx:130-139 | "1e3", "0x10", "175" and an empty field pass validation; "-Infinity", "12abc" and "-0x10" are rejected |
| ScanSave.RunStep | app/dashboard/scan/page.tsx:151-190 | one pass of the loop: a successful attempt ends the run, a failed one prepends its writes to the run of the rest |
| ScanSave.PrependTwice | app/dashboard/scan/page.tsx:151-190 | prepending two batches of writes is prepending them together |
| ScanSave.WritesBounded | app/dashboard/scan/page.tsx:151-190 | at most one document per attempt, so at most three per save |
| ScanSave.WritesAreTheMeal | app/dashboard/scan/page.tsx:166-174 | every document written has the analysed name and the validated numbers; only the image URL varies |
| ScanSave.OnlyBudgetUsed | app/dashboard/scan/page.tsx:151-154 | only the first three attempt outcomes matter |
| ScanSave.FirstSuccessStops | app/dashboard/scan/page.tsx:176-184 | a fully successful first attempt ends the save with one document |
| ScanSave.UploadFailuresWriteNothing | app/dashboard/scan/page.tsx:157-163 | three failed uploads write nothing and end with "Image upload failed" |
| ScanSave.ReadBackFailureWritesTwice | app/dashboard/scan/page.tsx:166-187 | a document that is added but not found on read-back is retried, so two identical documents are written |
| ScanSave.OfflineMessages | app/dashboard/scan/page.tsx:147-198 | the offline error, and a Firestore "client is offline" error, both give the offline message |
| Meals.QueryBound | app/dashboard/meals/page.tsx:46-58 | today queries from local midnight, week from midnight 7 days earlier, all without a bound |
| Meals.FilteredMeals | app/dashboard/meals/page.tsx:82-100 | today and all keep the fetched list as it is; week keeps exactly the meals with a timestamp no earlier than now minus 7 days |
| Meals.FilterPreservesOrder | app/dashboard/meals/page.tsx:82-100 | the filtered list is an order-preserving subsequence of the fetched list |
| Meals.FilterKeepsNewestFirst | app/dashboard/meals/page.tsx:53-100 | the filter of a newest-first query result is still newest first |
| Meals.Total | app/dashboard/meals/page.tsx:103-106 | a total over no meals is 0 |
| Meals.TotalAppend | app/dashboard/meals/page.tsx:103-106 | the total of two lists together is the sum of their totals |
| Meals.TotalNonNegative | app/dashboard/meals/page.tsx:103-106 | non-negative amounts give a non-negative total |
| Meals.FilteredTotalAtMost | app/dashboard/meals/page.tsx:82-106 | with non-negative amounts, a tab's total never exceeds the total of everything fetched |
| Meals.WeekFilterBoundLater | app/dashboard/meals/page.tsx:48-95 | after midnight, the filter's bound is later than the query's bound, so a meal exactly on the query's bound is returned but dropped |
| Meals.WeekTabDropsFetchedMeal | app/dashboard/meals/page.tsx:48-106 | at noon, a meal 8 hours after the query's week bound is fetched, but it is off the week tab and out of its totals |
| Meals.FilterKeepsQueryResult | app/dashboard/meals/page.tsx:52-98 | on today and all, the list shown is exactly what the query admits |
| Settings.PasswordCheck | app/dashboard/settings/page.tsx:54-62 | a mismatch is reported first, even for short passwords; matching passwords under 6 UTF-16 units get the length message; acceptance exactly when they match and have at least 6 units; the current password takes no part |
| Settings.PasswordCheckExamples | app/dashboard/settings/page.tsx:59 | three emoji are long enough (6 units); "abcde" is too short |
| Settings.PasswordSettings.constructor | app/dashboard/settings/page.tsx:33-37 | empty fields and no messages |
| Settings.PasswordSettings.Enter | app/dashboard/settings/page.tsx:198-218 | the three inputs set their fields and nothing else |
| Settings.PasswordSettings.ChangePassword | app/dashboard/settings/page.tsx:49-69 | both messages are cleared first; on a failed check, its message is shown, there is no success message and the fields are kept; on success, "Password changed successfully" is shown and all three fields are emptied |
| Settings.ChangeTwice | app/dashboard/settings/page.tsx:49-69 | after a successful change the three fields are empty, so the `required` inputs (lines 199-219) block a second submit and the success message stays; the handler alone would report the length message |
| ResetPassword.Render | app/reset-password/page.tsx:23-31 | the missing-code line is rendered exactly when the code is absent or empty; with a code, the success notice exactly on success, else the form with its error |
| ResetPassword.EmptyCodeIsMissing | app/reset-password/page.tsx:23-25 | `?oobCode=` with an empty value counts as missing |
| ResetPassword.ResetCheck | app/reset-password/page.tsx:37-55 | the checks in order (empty field, fewer than 8 UTF-16 units, mismatch, missing or empty code); each message appears exactly when its check is the first to fail |
| ResetPassword.ResetPasswordForm.constructor | app/reset-password/page.tsx:15-23 | empty fields, no error, no success, not loading, no auth calls |
| ResetPassword.ResetPasswordForm.Enter | app/reset-password/page.tsx:105-125 | the two inputs set their fields and nothing else |
| ResetPassword.ResetPasswordForm.HandleSubmit | app/reset-password/page.tsx:33-72 | a failed check sets its message and returns with loading, success and the auth calls unchanged; otherwise verify is called, and confirm only after a successful verify; any failure gives "Failed to reset password. The link may have expired."; loading ends false |
| ResetPassword.InvalidLinkUnreachable | app/reset-password/page.tsx:25-55 | with a non-empty code, which the handler needs, "Invalid reset link" never appears |
| ResetPassword.CheckExamples | app/reset-password/page.tsx:37-50 | 7 matching characters are too short; two different 8-character passwords are a mismatch; an empty field is reported first; three emoji (6 units) are too short and four (8 units) pass |
| ResetPassword.Visit | app/reset-password/page.tsx:25-125 | a visit with no code shows only the missing-code line and calls nothing; an empty field is stopped by the `required` inputs, so the form stays without an error and nothing is called; a failed check shows its message and calls nothing; otherwise verify, then confirm after a successful verify, and the success notice exactly when both succeed; "Please fill in all fields" never shows |

## Left out

- The haversine `calculateDistance` (components/step-counter.tsx:13-27, components/location-tracker.tsx:31-44) is floating-point trigonometry. The distance is an input.
- Firestore, Firebase Auth, Cloudinary and the OpenRouter HTTP request are oracles: their outcomes are parameters. The login and signup pages and the auth context only wrap these services.
- Running the Python scripts with `exec` is not modelled. Both routes build `python -c "<script>"` (app/api/calculate-bmi/route.ts:68, app/api/health-recommendations/route.ts:123), and the scripts themselves contain double quotes. The shell therefore ends the `-c` argument at the script's first inner quote. As written, Python receives broken text, and both routes answer 500 for every request that passes validation. The models describe the script text as the authors meant it to be read, run by the Python interpreter intact.
- The f-string messages of app/api/health-recommendations/route.ts are represented by the values they interpolate, not rendered as text.
- Timers and async sequencing are not modelled:
  - the 10-second abort timer and its shadowed `timeout` variable (lib/openrouter.ts:12, 26, 206-211), where an abort is just the `Aborted` reply;
  - the 2-second back-off between save attempts;
  - the 3-second redirect after a password reset;
  - the FileReader flow of `handleAnalyze`.
- The React effect lifecycle is not modelled: watch registration, re-registration on every steps change, and the Leaflet map. For that reason `LocationTracker.LocationTracker.OnPosition` shows the steps from before the fix.
- The 402 `alert` in lib/openrouter.ts:126-129 only shows a browser dialog, and the thrown error that follows is modelled.
- The `new Date().toISOString()` in the logged error details is not modelled.
- Server timestamps are the commit time `now`. The meal documents' `serverTimestamp()` is not stored in `ScanSave.MealDoc`.
- Mock data and stubs are not modelled: the activity page's weekly history and insights, its Google Fit alert, and the settings page's notification and privacy toggles with alert stubs.
- Floating point is not modelled: numbers are exact reals. There is no overflow to Infinity, no signed zero and no rounding error. `toFixed` output for very large numbers and `toLocaleString` are not modelled. The profile's `bmi` on the dashboard is an optional real, so a stored NaN is not represented there.
- BmiRoute: a field that is a JSON array or object is not modelled. The fields are numbers, text, booleans or null (`BmiRoute.Field`).
- HealthRecommendations: the request's numbers are numbers or absent, and `mood` is text or absent. Text or booleans where numbers are expected are not modelled. Neither is any `mealTimes` value that is not an object or null.
- The `type="number"` inputs of the scan and onboarding pages let the browser clean what is typed. The model takes the field text as given.
- Firestore result order is not modelled. A query returns documents in collection order, where Firestore would order them by its index.
- JsText.TrimStart: its contract states only the length bound and that the result starts with a non-space. That the result is the input with its leading spaces removed is stated separately, in `JsText.TrimStartDropsSpace`.
- ScanSave.RunAttempt: `uploadToCloudinary` (app/dashboard/scan/page.tsx:61-84) catches every failure and returns `null`; the attempt's `uploadedUrl` is `None` exactly for that `null`. Only the toast it shows is left out.
- ScanSave.HandleSave: does not model a thrown value that is not an `Error`, which would get the generic message whatever it says.
- Overview: the fixed "Daily Calories" and "Water Intake" cards are constant text, and are not modelled.
- Meals: the `forEach` that copies query documents is fetch glue. The query result is a parameter, described by `Meals.QueryResult`.
- Calendar and time-zone arithmetic are not modelled: local midnight is an input, and a week is 7 × 86,400,000 ms.

## Findings

| source | as written | input that shows it | evidently intended | confidence | as-written member | corrected member |
|---|---|---|---|---|---|---|
| app/dashboard/profile/page.tsx:152 | the day's step sum is passed to `Overview` as `weeklySteps`, but the "Steps Today" card reads only `todaySteps` | any signed-in user with steps today, for example the saved totals 5 and 12: the card shows "Loading..." | pass the sum as `todaySteps`, so the card shows it | not executed | DashboardSteps.StepsCardIgnoresSum | DashboardSteps.CorrectedStepsCardShowsSum |
| lib/openrouter.ts:9, 19-22 | `CACHE` is read before each request but never written, so the lookup never hits | the same photo analysed twice: two requests are sent | store each successful result under its key | not executed | OpenRouter.SamePhotoTwice | OpenRouter.SamePhotoTwiceCaching |
| lib/openrouter.ts:73-81, 143-145 | every non-2xx status throws before the `data.error` branch, and inside that branch the status is 2xx, so the 429 check can never succeed | an HTTP 429 reply: it gives "API request failed with status 429: …" instead of the rate-limit message | check for 429 before the generic status check | not executed | OpenRouter.RateLimitUnreachable | OpenRouter.InterpretCorrected |
