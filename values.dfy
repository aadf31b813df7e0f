/** The JSON values the fitness service returns, as Python sees them after
    decoding, and Python's `int(...)` applied to one of them. */
module Values {
  import opened Results
  import Decimal

  datatype Value =
    | Int(i: int)      // a JSON integer
    | Num(x: real)     // a JSON number with a fraction (a Python float)
    | Str(s: string)   // a JSON string
    | Null             // JSON null (Python None)

  /** A decoded JSON object (a Python dict with string keys). */
  type Record = map<string, Value>

  /** The keys the calculator reads from the fitness service's records. */
  const TotalStepsKey := "totalSteps"
  const StepsKey := "steps"
  const DistanceKey := "distance"
  const DurationKey := "duration"
  const CaloriesKey := "calories"

  /** Python's `int(x)` for a float: the fraction is cut off toward zero. */
  function Truncate(x: real): (r: int)
    ensures 0.0 <= x ==> r as real <= x < r as real + 1.0
    ensures x < 0.0 ==> r as real - 1.0 < x <= r as real
  {
    if x >= 0.0 then x.Floor else -((-x).Floor)
  }

  /** Python's `int(v)`: an int is kept, a float truncated, a string parsed
      as a decimal numeral (ValueError otherwise), and None is a TypeError. */
  function ToInt(v: Value): (r: Result<int>)
    ensures r.Ok? <==> !v.Null? && (v.Str? ==> Decimal.Parse(v.s).Some?)
    ensures v.Int? ==> r == Ok(v.i)
    ensures v.Num? ==> r == Ok(Truncate(v.x))
    ensures v.Str? && Decimal.Parse(v.s).Some? ==> r == Ok(Decimal.Parse(v.s).value)
    ensures v.Null? ==> r == Err(TypeError)
    ensures v.Str? && r.Err? ==> r.error == ValueError
  {
    match v
    case Int(i) => Ok(i)
    case Num(x) => Ok(Truncate(x))
    case Str(s) =>
      (match Decimal.Parse(s)
       case Some(n) => Ok(n)
       case None => Err(ValueError))
    case Null => Err(TypeError)
  }

  /** The text of a step count read back with `int(...)` is that count. */
  lemma ToIntShow(n: int)
    ensures ToInt(Str(Decimal.Show(n))) == Ok(n)
  {
    Decimal.ShowRoundTrip(n);
  }
}
