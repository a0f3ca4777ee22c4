/**
 * app/dashboard/scan/page.tsx: `handleSave` validates the four edited macro
 * fields, then makes up to three attempts to upload the photo, add the meal
 * document and read it back, and finally chooses the message to show.
 * Cloudinary and Firestore are oracles: each attempt's outcomes are inputs.
 */
module ScanSave {
  import opened Common
  import opened JsText
  import OpenRouter

  /** A document added to `users/{uid}/meals`. The server timestamp is not modelled. */
  datatype MealDoc = MealDoc(owner: UserId, name: string, calories: JsNumber, protein: JsNumber, carbs: JsNumber, fat: JsNumber,
                             imageUrl: Option<string>)

  /** What `getDoc(docRef)` reports after the add: the document, no document, or a thrown error. */
  datatype ReadBack = Found | NotFound | ReadFailed(message: string)

  /**
   * One pass of the loop body: the Cloudinary URL (`None` when the upload
   * failed), the error `addDoc` throws (`None` when it succeeds), and the
   * read-back.
   */
  datatype Attempt = Attempt(uploadedUrl: Option<string>, addError: Option<string>, readBack: ReadBack)

  /** What the user is shown. */
  datatype SaveOutcome = NotReady | InvalidNumbers | Saved(mealName: string) | SaveFailed(message: string)

  const NotReadyMessage: string := "Please analyze your food first and ensure you're logged in"
  const InvalidNumbersMessage: string := "Please enter valid non-negative numbers for proportions"
  const OfflineMessage: string := "You appear to be offline. Please check your internet connection and try again."
  const GenericFailureMessage: string := "Failed to save meal. Please try again."
  const UploadFailed: string := "Image upload failed"
  const NotCreated: string := "Document not created"
  const OutOfAttempts: string := "Failed after 3 attempts"
  const MaxAttempts: nat := 3

  /** JavaScript `n < 0` for a number that is not NaN. */
  predicate Negative(n: JsNumber)
  {
    n == NegInfinity || (n.Finite? && n.value < 0.0)
  }

  /**
   * `!(isNaN(n) || n < 0)` for `n = Number(text)`: blank text is 0, and an
   * exponent, a radix prefix or "Infinity" all give numbers that pass.
   */
  predicate ValidMacro(text: string)
  {
    var n := NumberFromString(text);
    n != NaN && !Negative(n)
  }

  /** Which texts the check lets through. */
  lemma ValidMacroExamples()
    ensures ValidMacro("1e3") && ValidMacro("0x10") && ValidMacro("175") && ValidMacro("")
    ensures !ValidMacro("-Infinity") && !ValidMacro("12abc") && !ValidMacro("-0x10")
  {
    NumberOfExponent();
    NumberOfHex();
    NumberOfDigitText();
    NumberOfInfinity();
    NumberNeedsWholeText();
    assert Trim("") == "";
  }

  /** The final message: "offline" anywhere in the error selects the offline text. */
  function FailureMessage(error: string): (m: string)
    ensures m == OfflineMessage <==> Includes(error, "offline")
    ensures m == OfflineMessage || m == GenericFailureMessage
  {
    if Includes(error, "offline") then OfflineMessage else GenericFailureMessage
  }

  /** One attempt: the document it adds, if any, and the error that ends it, if any. */
  datatype AttemptResult = AttemptResult(added: Option<MealDoc>, error: Option<string>)

  function RunAttempt(a: Attempt, hasImage: bool, preview: Option<string>, doc: MealDoc): (r: AttemptResult)
    ensures hasImage && a.uploadedUrl.None? ==> r == AttemptResult(None, Some(UploadFailed))
    ensures r.added.Some? <==> (!hasImage || a.uploadedUrl.Some?) && a.addError.None?
    ensures r.added.Some? ==> r.added.value == doc.(imageUrl := if hasImage then a.uploadedUrl else preview)
    ensures (!hasImage || a.uploadedUrl.Some?) && a.addError.Some? ==> r.error == a.addError
    ensures r.added.Some? && a.readBack == NotFound ==> r.error == Some(NotCreated)
    ensures r.added.Some? && a.readBack.ReadFailed? ==> r.error == Some(a.readBack.message)
    ensures r.error.None? <==> (!hasImage || a.uploadedUrl.Some?) && a.addError.None? && a.readBack.Found?
  {
    if hasImage && a.uploadedUrl.None? then AttemptResult(None, Some(UploadFailed))
    else
      var url := if hasImage then a.uploadedUrl else preview;
      if a.addError.Some? then AttemptResult(None, a.addError)
      else
        var added := Some(doc.(imageUrl := url));
        match a.readBack
        case Found => AttemptResult(added, None)
        case NotFound => AttemptResult(added, Some(NotCreated))
        case ReadFailed(m) => AttemptResult(added, Some(m))
  }

  function Added(r: AttemptResult): seq<MealDoc>
  {
    if r.added.Some? then [r.added.value] else []
  }

  /** The retry loop with `budget` attempts left: every document added, whether one attempt fully succeeded, and the last error. */
  datatype RunResult = RunResult(writes: seq<MealDoc>, succeeded: bool, lastError: Option<string>)

  /** `last` is the error the previous attempt ended with; it is the result's error once the budget runs out. */
  function Run(attempts: seq<Attempt>, budget: nat, hasImage: bool, preview: Option<string>, doc: MealDoc, last: Option<string>): RunResult
    requires budget <= |attempts|
    decreases budget
  {
    if budget == 0 then RunResult([], false, last)
    else
      var r := RunAttempt(attempts[0], hasImage, preview, doc);
      if r.error.None? then RunResult(Added(r), true, None)
      else Prepend(Added(r), Run(attempts[1..], budget - 1, hasImage, preview, doc, r.error))
  }

  function Prepend(w: seq<MealDoc>, run: RunResult): RunResult
  {
    run.(writes := w + run.writes)
  }

  /**
   * `handleSave`. `hasImage` is whether a file is selected, `online` is
   * `navigator.onLine`, `attempts` gives the oracle outcomes of the loop's
   * passes in order (only the first three can be used). Returns every meal
   * document added and what the user is shown.
   */
  method HandleSave(result: Option<OpenRouter.FoodAnalysis>, user: Option<UserId>,
                    calories: string, protein: string, carbs: string, fat: string,
                    hasImage: bool, preview: Option<string>, online: bool, attempts: seq<Attempt>)
    returns (written: seq<MealDoc>, outcome: SaveOutcome)
    requires |attempts| >= MaxAttempts
    ensures result.None? || user.None? ==> outcome == NotReady && written == []
    ensures result.Some? && user.Some? && !(ValidMacro(calories) && ValidMacro(protein) && ValidMacro(carbs) && ValidMacro(fat)) ==>
      outcome == InvalidNumbers && written == []
    ensures result.Some? && user.Some? && ValidMacro(calories) && ValidMacro(protein) && ValidMacro(carbs) && ValidMacro(fat) ==>
      var doc := MealDoc(user.value, result.value.name, NumberFromString(calories), NumberFromString(protein),
        NumberFromString(carbs), NumberFromString(fat), None);
      var run := Run(attempts, MaxAttempts, hasImage, preview, doc, None);
      && (!online ==> written == [] && outcome == SaveFailed(OfflineMessage))
      && (online ==> written == run.writes)
      && (online && run.succeeded ==> outcome == Saved(result.value.name))
      && (online && !run.succeeded ==> outcome == SaveFailed(FailureMessage(run.lastError.GetOr(OutOfAttempts))))
  {
    written := [];
    if result.None? || user.None? {
      return [], NotReady;
    }
    if !(ValidMacro(calories) && ValidMacro(protein) && ValidMacro(carbs) && ValidMacro(fat)) {
      return [], InvalidNumbers;
    }
    var doc := MealDoc(user.value, result.value.name, NumberFromString(calories), NumberFromString(protein),
      NumberFromString(carbs), NumberFromString(fat), None);
    if !online {
      assert OccursAt("offline", "offline", 0);
      return [], SaveFailed(FailureMessage("offline"));
    }
    var succeeded, lastError;
    written, succeeded, lastError := RetryLoop(attempts, MaxAttempts, hasImage, preview, doc);
    if succeeded {
      outcome := Saved(result.value.name);
    } else {
      outcome := SaveFailed(FailureMessage(lastError.GetOr(OutOfAttempts)));
    }
  }

  /** The `while (retries > 0)` loop, from `retries = budget` (3 in the page). */
  method RetryLoop(attempts: seq<Attempt>, budget: nat, hasImage: bool, preview: Option<string>, doc: MealDoc)
    returns (written: seq<MealDoc>, succeeded: bool, lastError: Option<string>)
    requires budget <= |attempts|
    ensures RunResult(written, succeeded, lastError) == Run(attempts, budget, hasImage, preview, doc, None)
  {
    written := [];
    lastError := None;
    var retries := budget;
    var i := 0;
    while retries > 0
      invariant 0 <= i <= budget && retries == budget - i
      invariant Run(attempts, budget, hasImage, preview, doc, None)
        == Prepend(written, Run(attempts[i..], retries, hasImage, preview, doc, lastError))
      decreases retries
    {
      var r := RunAttempt(attempts[i], hasImage, preview, doc);
      RunStep(attempts, i, retries, hasImage, preview, doc, lastError);
      if r.error.None? {
        return written + Added(r), true, None;
      }
      PrependTwice(written, Added(r), Run(attempts[i + 1..], retries - 1, hasImage, preview, doc, r.error));
      written := written + Added(r);
      lastError := r.error;
      retries := retries - 1;
      i := i + 1;
    }
    succeeded := false;
  }

  /** One unfolding of `Run` at position `i`. */
  lemma RunStep(attempts: seq<Attempt>, i: nat, budget: nat, hasImage: bool, preview: Option<string>, doc: MealDoc, last: Option<string>)
    requires 0 < budget && i + budget <= |attempts|
    ensures var r := RunAttempt(attempts[i], hasImage, preview, doc);
      Run(attempts[i..], budget, hasImage, preview, doc, last)
        == if r.error.None? then RunResult(Added(r), true, None)
           else Prepend(Added(r), Run(attempts[i + 1..], budget - 1, hasImage, preview, doc, r.error))
  {
    assert attempts[i..][0] == attempts[i] && attempts[i..][1..] == attempts[i + 1..];
  }

  lemma PrependTwice(a: seq<MealDoc>, b: seq<MealDoc>, run: RunResult)
    ensures Prepend(a, Prepend(b, run)) == Prepend(a + b, run)
  {
    assert a + (b + run.writes) == (a + b) + run.writes;
  }

  /** At most one document per attempt, so at most three per save. */
  lemma {:induction false} WritesBounded(attempts: seq<Attempt>, budget: nat, hasImage: bool, preview: Option<string>, doc: MealDoc, last: Option<string>)
    requires budget <= |attempts|
    ensures |Run(attempts, budget, hasImage, preview, doc, last).writes| <= budget
    decreases budget
  {
    if budget > 0 {
      WritesBounded(attempts[1..], budget - 1, hasImage, preview, doc, RunAttempt(attempts[0], hasImage, preview, doc).error);
    }
  }

  /** Every document written carries the analysed name and the validated numbers; only the image URL varies. */
  lemma {:induction false} WritesAreTheMeal(attempts: seq<Attempt>, budget: nat, hasImage: bool, preview: Option<string>, doc: MealDoc, last: Option<string>)
    requires budget <= |attempts|
    ensures forall w :: w in Run(attempts, budget, hasImage, preview, doc, last).writes ==> w.(imageUrl := doc.imageUrl) == doc
    decreases budget
  {
    if budget > 0 {
      WritesAreTheMeal(attempts[1..], budget - 1, hasImage, preview, doc, RunAttempt(attempts[0], hasImage, preview, doc).error);
    }
  }

  /** The loop uses only the first `budget` outcomes. */
  lemma {:induction false} OnlyBudgetUsed(a: seq<Attempt>, b: seq<Attempt>, budget: nat, hasImage: bool, preview: Option<string>, doc: MealDoc, last: Option<string>)
    requires budget <= |a| && budget <= |b| && a[..budget] == b[..budget]
    ensures Run(a, budget, hasImage, preview, doc, last) == Run(b, budget, hasImage, preview, doc, last)
    decreases budget
  {
    if budget > 0 {
      assert a[0] == a[..budget][0] == b[..budget][0] == b[0];
      assert a[1..][..budget - 1] == a[..budget][1..] == b[..budget][1..] == b[1..][..budget - 1];
      OnlyBudgetUsed(a[1..], b[1..], budget - 1, hasImage, preview, doc, RunAttempt(a[0], hasImage, preview, doc).error);
    }
  }

  /** A fully successful first attempt ends the save with that one document; later outcomes play no part. */
  lemma FirstSuccessStops(attempts: seq<Attempt>, hasImage: bool, preview: Option<string>, doc: MealDoc)
    requires |attempts| >= MaxAttempts
    requires RunAttempt(attempts[0], hasImage, preview, doc).error.None?
    ensures var run := Run(attempts, MaxAttempts, hasImage, preview, doc, None);
      run.succeeded && |run.writes| == 1
  {
  }

  /** A failed upload writes nothing in that attempt; three failed uploads write nothing at all. */
  lemma UploadFailuresWriteNothing(attempts: seq<Attempt>, preview: Option<string>, doc: MealDoc)
    requires |attempts| >= MaxAttempts
    requires forall k :: 0 <= k < MaxAttempts ==> attempts[k].uploadedUrl.None?
    ensures var run := Run(attempts, MaxAttempts, true, preview, doc, None);
      run.writes == [] && !run.succeeded && run.lastError == Some(UploadFailed)
  {
    var a1 := attempts[1..];
    var a2 := a1[1..];
    assert a1[0] == attempts[1] && a2[0] == attempts[2];
  }

  /**
   * A read-back that finds nothing after a successful add makes the loop try
   * again, so a second, identical document is written.
   */
  lemma ReadBackFailureWritesTwice(attempts: seq<Attempt>, preview: Option<string>, doc: MealDoc)
    requires |attempts| >= MaxAttempts
    requires attempts[0] == Attempt(Some("u"), None, NotFound)
    requires attempts[1] == Attempt(Some("u"), None, Found)
    ensures var run := Run(attempts, MaxAttempts, true, preview, doc, None);
      run.succeeded && run.writes == [doc.(imageUrl := Some("u")), doc.(imageUrl := Some("u"))]
  {
    assert attempts[1..][0] == attempts[1];
  }

  /** The offline check before the loop gives the offline message, and "offline" inside a later error gives it too. */
  lemma OfflineMessages()
    ensures FailureMessage("offline") == OfflineMessage
    ensures FailureMessage("Failed to get document because the client is offline.") == OfflineMessage
  {
    assert OccursAt("offline", "offline", 0);
    var m := "Failed to get document because the client is offline.";
    assert OccursAt(m, "offline", 45);
  }
}
