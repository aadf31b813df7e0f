/** The calculator object: two conversion ratios fixed at construction, and
    operations that turn the fitness service's responses for a date into step
    counts, returned as text. The two responses are parameters here:
    `daily` is the daily-steps list and `activities` the day's activity payload. */
module Calculator {
  import opened Results
  import opened Values
  import Decimal
  import opened Steps
  import opened Activities

  /** Real walking steps per RuneScape step. */
  const WalkingRatio := 5
  /** Real running (activity) steps per RuneScape step. */
  const RunningRatio := 2

  class RunescapeStepCalculator {
    var walkingRatio: int
    var runningRatio: int

    /** The ratios keep the values the constructor gives them: no operation
        assigns them. */
    ghost predicate Valid()
      reads this
    {
      walkingRatio == WalkingRatio && runningRatio == RunningRatio
    }

    constructor ()
      ensures Valid()
      ensures walkingRatio > 0 && runningRatio > 0
    {
      walkingRatio := WalkingRatio;
      runningRatio := RunningRatio;
    }

    /** Adds up the `steps` of every activity and returns the sum as text. */
    method ActivityStepsForDate(activities: seq<Record>) returns (r: Result<string>)
      ensures r == AsText(ActivityStepCount(activities))
      ensures r.Ok? <==> AllHaveSteps(activities)
      ensures r.Ok? ==> Decimal.Parse(r.value) == Some(StepsTotal(activities))
    {
      var total := 0;
      ghost var counts: seq<int> := [];
      var i := 0;
      while i < |activities|
        invariant 0 <= i <= |activities|
        invariant Traverse(StepsOf, activities[..i]) == Ok(counts)
        invariant total == Sum(counts)
      {
        var steps := StepsOf(activities[i]);
        TraverseStep(StepsOf, activities, i);
        if steps.Err? {
          TraversePrefixErr(StepsOf, activities, i + 1);
          ActivityStepsAreSum(activities);
          return Err(steps.error);
        }
        SumSnoc(counts, steps.value);
        counts := counts + [steps.value];
        total := total + steps.value;
        i := i + 1;
      }
      assert activities[..i] == activities;
      ActivityStepsAreSum(activities);
      r := Ok(Decimal.Show(total));
    }

    /** Total steps (read with `int`) minus activity steps (read back with
        `int` from their text), returned as text. */
    method WalkingStepsForDate(daily: seq<Record>, activities: seq<Record>) returns (r: Result<string>)
      ensures r == AsText(WalkingStepCount(daily, activities))
      ensures r.Ok? ==>
                Decimal.Parse(r.value) ==
                Some(TotalStepCount(daily).value - ActivityStepCount(activities).value)
    {
      var totalSteps := TotalSteps(daily);
      if totalSteps.Err? {
        return Err(totalSteps.error);
      }
      var total := ToInt(totalSteps.value);
      if total.Err? {
        return Err(total.error);
      }
      var activitySteps := ActivityStepsForDate(activities);
      if activitySteps.Err? {
        return Err(activitySteps.error);
      }
      Decimal.ShowRoundTrip(ActivityStepCount(activities).value);
      var activity := Decimal.Parse(activitySteps.value).value;
      r := Ok(Decimal.Show(total.value - activity));
    }

    /** Walking steps over the walking ratio plus activity steps over the
        running ratio, both floor-divided, returned as text. The activity steps
        are computed a second time, as a separate request. */
    method AllowedRunescapeStepsForDate(daily: seq<Record>, activities: seq<Record>) returns (r: Result<string>)
      requires Valid()
      ensures r == AsText(AllowedStepCount(daily, activities, walkingRatio, runningRatio))
      ensures r.Ok? ==>
                Decimal.Parse(r.value) ==
                Some(FloorDiv(WalkingStepCount(daily, activities).value, WalkingRatio) +
                     FloorDiv(ActivityStepCount(activities).value, RunningRatio))
    {
      var walkingText := WalkingStepsForDate(daily, activities);
      if walkingText.Err? {
        return Err(walkingText.error);
      }
      Decimal.ShowRoundTrip(WalkingStepCount(daily, activities).value);
      var walkingSteps := FloorDiv(Decimal.Parse(walkingText.value).value, walkingRatio);
      var activityText := ActivityStepsForDate(activities);
      assert activityText.Ok?;
      Decimal.ShowRoundTrip(ActivityStepCount(activities).value);
      var runningSteps := FloorDiv(Decimal.Parse(activityText.value).value, runningRatio);
      r := Ok(Decimal.Show(walkingSteps + runningSteps));
    }

    /** The running ratio as text: always "2". */
    function RunningStepRatio(): (r: string)
      reads this
      requires Valid()
      ensures r == "2"
      ensures Decimal.Parse(r) == Some(runningRatio)
    {
      Decimal.ShowRoundTrip(runningRatio);
      Decimal.Show(runningRatio)
    }

    /** The walking ratio as text: always "5". */
    function WalkingStepRatio(): (r: string)
      reads this
      requires Valid()
      ensures r == "5"
      ensures Decimal.Parse(r) == Some(walkingRatio)
    {
      Decimal.ShowRoundTrip(walkingRatio);
      Decimal.Show(walkingRatio)
    }

    /** The day's activities, each projected onto its reported fields, in
        payload order. */
    method ActivitiesForDate(activities: seq<Record>) returns (r: Result<seq<Record>>)
      ensures r == ParsedActivities(activities)
      ensures r.Ok? ==>
                |r.value| == |activities| &&
                forall i :: 0 <= i < |activities| ==>
                  ParsedActivity(activities[i]).Ok? && r.value[i] == ParsedActivity(activities[i]).value
    {
      var parsed: seq<Record> := [];
      var i := 0;
      while i < |activities|
        invariant 0 <= i <= |activities|
        invariant Traverse(ParsedActivity, activities[..i]) == Ok(parsed)
      {
        var activity := ParseActivity(activities[i]);
        TraverseStep(ParsedActivity, activities, i);
        if activity.Err? {
          TraversePrefixErr(ParsedActivity, activities, i + 1);
          return Err(activity.error);
        }
        parsed := parsed + [activity.value];
        i := i + 1;
      }
      assert activities[..i] == activities;
      ParsedActivitiesPointwise(activities);
      r := Ok(parsed);
    }

    /** Copies the reported keys of `activity` one by one into a new
        dictionary; a missing key is a KeyError. */
    static method ParseActivity(activity: Record) returns (r: Result<Record>)
      ensures r == ParsedActivity(activity)
      ensures r.Ok? ==>
                r.value.Keys == ReportedKeys &&
                forall k :: k in r.value ==> k in activity && r.value[k] == activity[k]
    {
      var parsed: Record := map[];
      var i := 0;
      while i < |KeysToReturn|
        invariant 0 <= i <= |KeysToReturn|
        invariant forall j :: 0 <= j < i ==> KeysToReturn[j] in activity
        invariant parsed == map k | k in KeysToReturn[..i] && k in activity :: activity[k]
      {
        var key := KeysToReturn[i];
        if key !in activity {
          FirstMissingKeyAt(activity, KeysToReturn, i);
          return Err(KeyError(key));
        }
        assert KeysToReturn[..i + 1] == KeysToReturn[..i] + [key];
        parsed := parsed[key := activity[key]];
        i := i + 1;
      }
      FirstMissingKeyNone(activity, KeysToReturn);
      assert KeysToReturn[..i] == KeysToReturn;
      ParsedActivityFields(activity);
      r := Ok(parsed);
    }
  }
}
