/**
 * app/api/calculate-bmi/route.ts: POST handler that validates height (cm)
 * and weight (kg) and runs an embedded Python script computing the BMI, its
 * category and a recommended daily calorie intake. The script's rules are
 * modelled directly; running it through a shell is not.
 */
module BmiRoute {
  import opened Common
  import opened JsText

  datatype Category = Underweight | NormalWeight | Overweight | Obese {
    function Label(): string
    {
      match this
      case Underweight => "Underweight"
      case NormalWeight => "Normal weight"
      case Overweight => "Overweight"
      case Obese => "Obese"
    }

    /** Position of the band from the lowest BMI to the highest. */
    function Rank(): nat
    {
      match this
      case Underweight => 0
      case NormalWeight => 1
      case Overweight => 2
      case Obese => 3
    }
  }

  /**
   * A field of the JSON request body: absent or null, a number, a string, or
   * a boolean. Arrays and objects are not modelled.
   */
  datatype Field = Absent | Number(x: real) | Text(s: string) | Bool(b: bool)

  /** JavaScript truthiness of the field. */
  predicate Truthy(f: Field)
  {
    match f
    case Absent => false
    case Number(x) => x != 0.0
    case Text(s) => s != ""
    case Bool(b) => b
  }

  /**
   * The global `isNaN`, which first converts its argument with `Number`: text
   * such as "1e2", "0x10" or "Infinity" is a number, and a boolean is 0 or 1.
   */
  predicate IsNaN(f: Field)
  {
    match f
    case Absent => true
    case Number(_) => false
    case Text(s) => NumberFromString(s) == NaN
    case Bool(_) => false
  }

  /** The fields Python computes with: a number, or a boolean as 0 or 1. */
  predicate Numeric(f: Field) { f.Number? || f.Bool? }

  function NumericValue(f: Field): real
    requires Numeric(f)
  {
    if f.Number? then f.x else if f.b then 1.0 else 0.0
  }

  datatype BmiRequest = BmiRequest(height: Field, weight: Field)

  datatype BmiResult = BmiResult(bmi: real, category: Category, recommendedCalories: int)

  datatype Response = Ok(result: BmiResult) | Error(status: int, message: string)

  const InvalidInputMessage: string := "Invalid height or weight"
  const FailureMessage: string := "Failed to calculate BMI"

  /** `weight / (height / 100) ** 2`. */
  function Bmi(height: real, weight: real): real
    requires height != 0.0
  {
    var metres := height / 100.0;
    weight / (metres * metres)
  }

  /** The script's category chain. */
  function CategoryOf(bmi: real): Category
  {
    if bmi < 18.5 then Underweight
    else if bmi < 25.0 then NormalWeight
    else if bmi < 30.0 then Overweight
    else Obese
  }

  /** The script's second chain: calories per kilogram of body weight. */
  function CalorieMultiplier(bmi: real): int
  {
    if bmi < 18.5 then 35
    else if bmi < 25.0 then 30
    else if bmi < 30.0 then 25
    else 22
  }

  /** `round(base_calories / 50) * 50`, with Python's half-to-even `round`. */
  function RecommendedCalories(weight: real, bmi: real): int
  {
    RoundHalfEven(weight * CalorieMultiplier(bmi) as real / 50.0) * 50
  }

  /** What the script prints for numeric inputs (`round(bmi, 1)` taken over exact reals). */
  function Script(height: real, weight: real): BmiResult
    requires height != 0.0
  {
    var bmi := Bmi(height, weight);
    BmiResult(RoundHalfEven(bmi * 10.0) as real / 10.0, CategoryOf(bmi), RecommendedCalories(weight, bmi))
  }

  /**
   * The handler. `body` is `None` when `request.json()` fails. A numeric
   * string passes the validation but makes the script's arithmetic raise, so
   * the route answers 500; Python computes with `True` as 1.
   */
  function Calculate(body: Option<BmiRequest>): Response
  {
    match body
    case None => Error(500, FailureMessage)
    case Some(BmiRequest(height, weight)) =>
      if !Truthy(height) || !Truthy(weight) || IsNaN(height) || IsNaN(weight) then
        Error(400, InvalidInputMessage)
      else if Numeric(height) && Numeric(weight) then
        Ok(Script(NumericValue(height), NumericValue(weight)))
      else
        Error(500, FailureMessage)
  }

  /** Missing, zero, empty or non-numeric inputs are rejected with 400 before any computation. */
  lemma RejectsInvalidInput(req: BmiRequest)
    ensures Calculate(Some(req)) == Error(400, InvalidInputMessage) <==>
      !Truthy(req.height) || !Truthy(req.weight) || IsNaN(req.height) || IsNaN(req.weight)
  {
  }

  /** Two non-zero numbers always produce a result computed from them. */
  lemma AcceptsNonZeroNumbers(height: real, weight: real)
    requires height != 0.0 && weight != 0.0
    ensures Calculate(Some(BmiRequest(Number(height), Number(weight)))) == Ok(Script(height, weight))
  {
  }

  /**
   * Text that `Number` reads as a number (with an exponent, a radix prefix or
   * as an infinity as much as plain digits) passes the validation, and then
   * the script's arithmetic on a string raises: the route answers 500.
   */
  lemma NumberTextFails(text: string, other: Field)
    requires text != "" && NumberFromString(text) != NaN
    requires Truthy(other) && !IsNaN(other)
    ensures Calculate(Some(BmiRequest(Text(text), other))) == Error(500, FailureMessage)
    ensures Calculate(Some(BmiRequest(other, Text(text)))) == Error(500, FailureMessage)
  {
  }

  /** "1e3" is such a text. */
  lemma ExponentTextFails()
    ensures Calculate(Some(BmiRequest(Text("1e3"), Number(70.0)))) == Error(500, FailureMessage)
  {
    NumberOfExponent();
    NumberTextFails("1e3", Number(70.0));
  }

  /** So is "-Infinity". */
  lemma InfinityTextFails()
    ensures Calculate(Some(BmiRequest(Number(175.0), Text("-Infinity")))) == Error(500, FailureMessage)
  {
    NumberOfInfinity();
    NumberTextFails("-Infinity", Number(175.0));
  }

  /** A boolean `true` passes the validation and is computed with as 1. */
  lemma TrueHeightComputes(weight: real)
    requires weight != 0.0
    ensures Calculate(Some(BmiRequest(Bool(true), Number(weight)))) == Ok(Script(1.0, weight))
  {
  }

  /** And so is a plain numeric string such as "175". */
  lemma NumericTextFails()
    ensures Calculate(Some(BmiRequest(Text("175"), Number(70.0)))) == Error(500, FailureMessage)
  {
    NumberOfDigitText();
    NumberTextFails("175", Number(70.0));
  }

  /** Each BMI falls in exactly the band its thresholds name; a boundary value belongs to the higher band. */
  lemma CategoryBands(bmi: real)
    ensures CategoryOf(bmi) == Underweight <==> bmi < 18.5
    ensures CategoryOf(bmi) == NormalWeight <==> 18.5 <= bmi < 25.0
    ensures CategoryOf(bmi) == Overweight <==> 25.0 <= bmi < 30.0
    ensures CategoryOf(bmi) == Obese <==> 30.0 <= bmi
  {
  }

  /** A larger BMI never falls in a lower band. */
  lemma CategoryMonotone(a: real, b: real)
    requires a <= b
    ensures CategoryOf(a).Rank() <= CategoryOf(b).Rank()
  {
  }

  /** The calorie chain uses the category chain's thresholds: category and multiplier always correspond. */
  lemma MultiplierMatchesCategory(bmi: real)
    ensures CalorieMultiplier(bmi) == match CategoryOf(bmi)
      case Underweight => 35
      case NormalWeight => 30
      case Overweight => 25
      case Obese => 22
  {
  }

  /** The recommendation is a multiple of 50 within 25 kcal of `weight × multiplier`. */
  lemma RecommendedCaloriesNearBase(weight: real, bmi: real)
    ensures RecommendedCalories(weight, bmi) % 50 == 0
    ensures var base := weight * CalorieMultiplier(bmi) as real;
      -25.0 <= RecommendedCalories(weight, bmi) as real - base <= 25.0
  {
    var base := weight * CalorieMultiplier(bmi) as real;
    var n := RoundHalfEven(base / 50.0);
    assert n as real - 0.5 <= base / 50.0 <= n as real + 0.5;
  }

  /** 70 kg at 175 cm: BMI 22.9, normal weight, 2100 kcal. */
  lemma ExampleNormalWeight()
    ensures Calculate(Some(BmiRequest(Number(175.0), Number(70.0)))) == Ok(BmiResult(22.9, NormalWeight, 2100))
  {
    assert Bmi(175.0, 70.0) == 70.0 / 3.0625;
    assert RoundHalfEven(Bmi(175.0, 70.0) * 10.0) == 229;
    assert RoundHalfEven(70.0 * 30.0 / 50.0) == 42;
  }

  /** 45 kg at 170 cm: BMI 15.6, underweight, and 1575 / 50 = 31.5 rounds to even, giving 1600 kcal. */
  lemma ExampleUnderweight()
    ensures Calculate(Some(BmiRequest(Number(170.0), Number(45.0)))) == Ok(BmiResult(15.6, Underweight, 1600))
  {
    assert Bmi(170.0, 45.0) == 45.0 / 2.89;
    assert RoundHalfEven(Bmi(170.0, 45.0) * 10.0) == 156;
    assert RoundHalfEven(45.0 * 35.0 / 50.0) == 32;
  }
}
