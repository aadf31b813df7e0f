/** The step arithmetic of the calculator as functions of the two responses
    of the fitness service: the daily-steps list and the day's activities. */
module Steps {
  import opened Results
  import opened Values
  import Decimal

  /** `daily[0]['totalSteps']`: the first record of the daily-steps response
      must exist and carry the key; its value is passed on as it is. */
  function TotalSteps(daily: seq<Record>): (r: Result<Value>)
    ensures r.Ok? <==> |daily| > 0 && TotalStepsKey in daily[0]
    ensures r.Ok? ==> r.value == daily[0][TotalStepsKey]
    ensures daily == [] ==> r == Err(IndexError)
    ensures daily != [] && TotalStepsKey !in daily[0] ==> r == Err(KeyError(TotalStepsKey))
  {
    if |daily| == 0 then Err(IndexError)
    else if TotalStepsKey !in daily[0] then Err(KeyError(TotalStepsKey))
    else Ok(daily[0][TotalStepsKey])
  }

  /** `int(...)` of the total steps. */
  function TotalStepCount(daily: seq<Record>): Result<int>
  {
    match TotalSteps(daily)
    case Err(e) => Err(e)
    case Ok(v) => ToInt(v)
  }

  /** The steps an accumulator `total += activity['steps']` takes from one
      activity: the key must be present and (in this model) an integer. */
  function StepsOf(activity: Record): Result<int>
  {
    if StepsKey !in activity then Err(KeyError(StepsKey))
    else
      match activity[StepsKey]
      case Int(n) => Ok(n)
      case _ => Err(TypeError)
  }

  /** Sum of step counts, first element first. */
  function Sum(xs: seq<int>): int
  {
    if xs == [] then 0 else xs[0] + Sum(xs[1..])
  }

  lemma {:induction false} SumSnoc(xs: seq<int>, x: int)
    ensures Sum(xs + [x]) == Sum(xs) + x
  {
    if xs == [] {
      assert xs + [x] == [x];
    } else {
      assert (xs + [x])[1..] == xs[1..] + [x];
      SumSnoc(xs[1..], x);
    }
  }

  /** The activity step count: every activity's steps, in payload order, summed. */
  function ActivityStepCount(activities: seq<Record>): Result<int>
  {
    match Traverse(StepsOf, activities)
    case Err(e) => Err(e)
    case Ok(counts) => Ok(Sum(counts))
  }

  ghost predicate AllHaveSteps(activities: seq<Record>)
  {
    forall i :: 0 <= i < |activities| ==> StepsOf(activities[i]).Ok?
  }

  /** Reference definition: the `steps` values of the activities added up directly. */
  function StepsTotal(activities: seq<Record>): int
    requires AllHaveSteps(activities)
  {
    if activities == [] then 0
    else StepsOf(activities[0]).value + StepsTotal(activities[1..])
  }

  lemma {:induction false} SumIsStepsTotal(counts: seq<int>, activities: seq<Record>)
    requires AllHaveSteps(activities)
    requires |counts| == |activities|
    requires forall i :: 0 <= i < |counts| ==> counts[i] == StepsOf(activities[i]).value
    ensures Sum(counts) == StepsTotal(activities)
    decreases |counts|
  {
    if counts != [] {
      SumIsStepsTotal(counts[1..], activities[1..]);
    }
  }

  /** Activity steps are the sum of `steps` over every activity (0 for no
      activities); otherwise the first activity without an integer `steps`
      decides the error. */
  lemma ActivityStepsAreSum(activities: seq<Record>)
    ensures ActivityStepCount(activities).Ok? <==> AllHaveSteps(activities)
    ensures ActivityStepCount(activities).Ok? ==>
              ActivityStepCount(activities).value == StepsTotal(activities)
    ensures activities == [] ==> ActivityStepCount(activities) == Ok(0)
    ensures ActivityStepCount(activities).Err? ==>
              exists i :: FirstFailure(StepsOf, activities, i) &&
                          ActivityStepCount(activities).error == StepsOf(activities[i]).error
  {
    TraverseOk(StepsOf, activities);
    TraverseErr(StepsOf, activities);
    if AllHaveSteps(activities) {
      SumIsStepsTotal(Traverse(StepsOf, activities).value, activities);
    }
  }

  /** Walking steps: total minus activity steps, evaluated left operand first. */
  function WalkingStepCount(daily: seq<Record>, activities: seq<Record>): Result<int>
  {
    match TotalStepCount(daily)
    case Err(e) => Err(e)
    case Ok(total) =>
      match ActivityStepCount(activities)
      case Err(e) => Err(e)
      case Ok(activity) => Ok(total - activity)
  }

  /** Walking steps undo nothing and clamp nothing: added back to the activity
      steps they give the total, and they are negative exactly when the
      activities count more steps than the whole day. */
  lemma WalkingIsRemainder(daily: seq<Record>, activities: seq<Record>)
    ensures WalkingStepCount(daily, activities).Ok? <==>
              TotalStepCount(daily).Ok? && ActivityStepCount(activities).Ok?
    ensures WalkingStepCount(daily, activities).Ok? ==>
              WalkingStepCount(daily, activities).value + ActivityStepCount(activities).value
              == TotalStepCount(daily).value
    ensures WalkingStepCount(daily, activities).Ok? ==>
              (WalkingStepCount(daily, activities).value < 0 <==>
               ActivityStepCount(activities).value > TotalStepCount(daily).value)
  {
  }

  /** Python's `a // b` for a positive divisor: the floor of a / b, also for a
      negative `a` (Dafny's Euclidean `/` agrees with it there). */
  function FloorDiv(a: int, b: int): (q: int)
    requires b > 0
    ensures q * b <= a < q * b + b
  {
    a / b
  }

  /** Allowed RuneScape steps: walking steps over the walking ratio plus
      activity steps over the running ratio, both rounded down. */
  function AllowedStepCount(daily: seq<Record>, activities: seq<Record>,
                            walkingRatio: int, runningRatio: int): Result<int>
    requires walkingRatio > 0 && runningRatio > 0
  {
    match WalkingStepCount(daily, activities)
    case Err(e) => Err(e)
    case Ok(walking) =>
      match ActivityStepCount(activities)
      case Err(e) => Err(e)
      case Ok(activity) => Ok(FloorDiv(walking, walkingRatio) + FloorDiv(activity, runningRatio))
  }

  /** With ordinary data (no negative counts, activities inside the day's
      total) the conversion never grants more RuneScape steps than real steps
      were taken, and never a negative number. */
  lemma AllowedStepsBound(daily: seq<Record>, activities: seq<Record>,
                          walkingRatio: int, runningRatio: int)
    requires walkingRatio > 0 && runningRatio > 0
    requires AllowedStepCount(daily, activities, walkingRatio, runningRatio).Ok?
    requires 0 <= ActivityStepCount(activities).value <= TotalStepCount(daily).value
    ensures 0 <= AllowedStepCount(daily, activities, walkingRatio, runningRatio).value
                <= TotalStepCount(daily).value
  {
    var total := TotalStepCount(daily).value;
    var activity := ActivityStepCount(activities).value;
    var walking := total - activity;
    var w := FloorDiv(walking, walkingRatio);
    var a := FloorDiv(activity, runningRatio);
    FloorDivBetween(walking, walkingRatio);
    FloorDivBetween(activity, runningRatio);
  }

  lemma FloorDivBetween(a: int, b: int)
    requires a >= 0 && b > 0
    ensures 0 <= FloorDiv(a, b) <= a
  {
    var q := a / b;
    assert a == q * b + a % b;
    MulAtLeast(q, b);
  }

  lemma MulAtLeast(x: int, y: int)
    requires x >= 0 && y >= 1
    ensures x <= x * y
  {
    assert x * y == x * (y - 1) + x;
  }

  /** `str(...)` of a count, passing errors on. */
  function AsText(r: Result<int>): (t: Result<string>)
    ensures t.Ok? <==> r.Ok?
    ensures t.Ok? ==> Decimal.Parse(t.value) == Some(r.value)
    ensures t.Err? ==> t.error == r.error
  {
    match r
    case Err(e) => Err(e)
    case Ok(n) => Decimal.ShowRoundTrip(n); Ok(Decimal.Show(n))
  }

  /** A day of 10000 steps, 2000 of them in one activity, at ratios 5 and 2
      gives 8000 // 5 + 2000 // 2 = 1600 + 1000 = 2600 RuneScape steps. */
  lemma AllowedStepsExample()
    ensures AllowedStepCount([map[TotalStepsKey := Int(10000)]],
                             [map[StepsKey := Int(2000)]], 5, 2) == Ok(2600)
  {
    var activities := [map[StepsKey := Int(2000)]];
    assert StepsOf(activities[0]) == Ok(2000);
    ActivityStepsAreSum(activities);
    assert StepsTotal(activities) == 2000 by { assert activities[1..] == []; }
  }

  /** Activities of 100 and 250 steps make 350 activity steps. */
  lemma ActivityStepsExample()
    ensures ActivityStepCount([map[StepsKey := Int(100)], map[StepsKey := Int(250)]]) == Ok(350)
  {
    var activities := [map[StepsKey := Int(100)], map[StepsKey := Int(250)]];
    assert StepsOf(activities[0]) == Ok(100) && StepsOf(activities[1]) == Ok(250);
    ActivityStepsAreSum(activities);
    assert StepsTotal(activities[1..]) == 250 by { assert activities[1..][1..] == []; }
  }
}
