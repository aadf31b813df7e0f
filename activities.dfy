/** The projection of an activity record onto the fields the calculator
    reports, and of the day's activity list onto such projections. */
module Activities {
  import opened Results
  import opened Values

  /** The keys copied from an activity, in the order they are looked up;
      `duration` is listed twice. */
  const KeysToReturn: seq<string> := [DistanceKey, DurationKey, CaloriesKey, StepsKey, DurationKey]

  /** The keys of a parsed activity. */
  const ReportedKeys: set<string> := {DistanceKey, DurationKey, CaloriesKey, StepsKey}

  /** The first of `keys` that `activity` lacks, if any. */
  function FirstMissingKey(activity: Record, keys: seq<string>): Option<string>
    decreases |keys|
  {
    if keys == [] then None
    else if keys[0] !in activity then Some(keys[0])
    else FirstMissingKey(activity, keys[1..])
  }

  lemma {:induction false} FirstMissingKeyNone(activity: Record, keys: seq<string>)
    requires forall j :: 0 <= j < |keys| ==> keys[j] in activity
    ensures FirstMissingKey(activity, keys) == None
    decreases |keys|
  {
    if keys != [] {
      FirstMissingKeyNone(activity, keys[1..]);
    }
  }

  lemma {:induction false} FirstMissingKeyAt(activity: Record, keys: seq<string>, i: nat)
    requires i < |keys| && keys[i] !in activity
    requires forall j :: 0 <= j < i ==> keys[j] in activity
    ensures FirstMissingKey(activity, keys) == Some(keys[i])
    decreases i
  {
    if i > 0 {
      FirstMissingKeyAt(activity, keys[1..], i - 1);
    }
  }

  /** A dictionary holding exactly the reported keys of `activity`, each with
      the activity's own value; the first reported key it lacks is a KeyError. */
  function ParsedActivity(activity: Record): Result<Record>
  {
    match FirstMissingKey(activity, KeysToReturn)
    case Some(k) => Err(KeyError(k))
    case None => Ok(map k | k in KeysToReturn && k in activity :: activity[k])
  }

  /** The parsed activity has exactly the keys distance, duration, calories and
      steps (the repeated duration adds no fifth), each mapped to the input's
      value; it exists exactly when all four are present, and otherwise the
      error names the first of them, in lookup order, that is missing. */
  lemma ParsedActivityFields(activity: Record)
    ensures ParsedActivity(activity).Ok? <==>
              DistanceKey in activity && DurationKey in activity &&
              CaloriesKey in activity && StepsKey in activity
    ensures ParsedActivity(activity).Ok? ==>
              ParsedActivity(activity).value.Keys == ReportedKeys &&
              forall k :: k in ParsedActivity(activity).value ==>
                            k in activity && ParsedActivity(activity).value[k] == activity[k]
    ensures ParsedActivity(activity).Err? ==>
              exists i :: 0 <= i < |KeysToReturn| &&
                          KeysToReturn[i] !in activity &&
                          ParsedActivity(activity).error == KeyError(KeysToReturn[i]) &&
                          forall j :: 0 <= j < i ==> KeysToReturn[j] in activity
  {
    var keys := KeysToReturn;
    assert keys[0] == DistanceKey && keys[1] == DurationKey && keys[2] == CaloriesKey;
    assert keys[3] == StepsKey && keys[4] == DurationKey;
    if forall j :: 0 <= j < |keys| ==> keys[j] in activity {
      FirstMissingKeyNone(activity, keys);
    } else {
      var i :| 0 <= i < |keys| && keys[i] !in activity && forall j :: 0 <= j < i ==> keys[j] in activity;
      FirstMissingKeyAt(activity, keys, i);
    }
  }

  /** `[_parse_activity(a) for a in payload]`, stopping at the first KeyError. */
  function ParsedActivities(payload: seq<Record>): Result<seq<Record>>
  {
    Traverse(ParsedActivity, payload)
  }

  /** The parsed list keeps the payload's length and order: element i is the
      projection of payload element i; otherwise the first activity that cannot
      be parsed decides the error. */
  lemma ParsedActivitiesPointwise(payload: seq<Record>)
    ensures ParsedActivities(payload).Ok? <==>
              forall i :: 0 <= i < |payload| ==> ParsedActivity(payload[i]).Ok?
    ensures ParsedActivities(payload).Ok? ==>
              |ParsedActivities(payload).value| == |payload| &&
              forall i :: 0 <= i < |payload| ==>
                            ParsedActivities(payload).value[i] == ParsedActivity(payload[i]).value
    ensures ParsedActivities(payload).Err? ==>
              exists i :: FirstFailure(ParsedActivity, payload, i) &&
                          ParsedActivities(payload).error == ParsedActivity(payload[i]).error
  {
    TraverseOk(ParsedActivity, payload);
    TraverseErr(ParsedActivity, payload);
  }
}
