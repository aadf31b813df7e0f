# RuneScape step calculator — a Dafny model

This project models the calculator at the heart of the RuneScape step calculator.
The calculator reads two responses from a wearable fitness service for a date:
- the daily-steps list, whose first record carries `totalSteps`;
- the day's activity payload, a list of activity records with `steps`, `distance`, `duration` and `calories`.

From these it derives four step counts, each returned as text:
- total steps;
- activity steps, the sum of `steps` over the activities;
- walking steps, total minus activity;
- allowed RuneScape steps: walking steps floor-divided by a walking ratio (5) plus activity steps floor-divided by a running ratio (2).

It also reports the two ratios as text and projects each activity onto its four reported fields.

The model replaces the fitness-service client with two parameters: `daily` (the daily-steps list) and `activities` (the payload list).
Decoded JSON values are the datatype `Values.Value` (integer, float, string, null), and a JSON object is a `map<string, Value>`.
Python exceptions the calculator lets escape are `Results.Error` values (IndexError, KeyError, TypeError, ValueError), carried in a `Result`.

Layout:
- `results.dfy`: errors, `Result`, and `Traverse`, the "process a list in order and stop at the first exception" shape shared by both loops, with its lemmas.
- `decimal.dfy`: Python `str(int)` and `int(str)`, with the proved round trip `int(str(n)) == n`.
- `values.dfy`: JSON values and Python `int(value)`.
- `steps.dfy`: the step arithmetic as functions of the two responses, and lemmas about it.
- `activities.dfy`: the activity projection as functions, and lemmas about it.
- `calculator.dfy`: the calculator class.
  - The ratios are fields, set by the constructor and never assigned again.
  - The operations are methods. Where the source loops, the method loops too, and each method is proved equal to the function that specifies it.
  - The methods convert numbers to text and read them back exactly where the source calls `str` and `int`. The round-trip lemma is what lets the proofs go through those conversions.

Two points where the source's own text and its code differ, and where the model follows the code:
- The docstring of the allowed-steps method (backend/runescape_step_calculator.py:54-55) lists `walking_ratio` and `running_ratio` as parameters, but the method takes neither. It reads the object's fields, fixed at 5 and 2, and so does the model.
- The source never checks the sign of a step count, so the model accepts any integers. Walking steps can be negative, for one.

## Model

| member | source | states |
|---|---|---|
| Calculator.RunescapeStepCalculator.constructor | backend/runescape_step_calculator.py:15-16 | the walking ratio is 5 and the running ratio 2 after construction (both positive); no other operation modifies them |
| Calculator.RunescapeStepCalculator.ActivityStepsForDate | backend/runescape_step_calculator.py:36-39 | the accumulator loop returns the text of the sum of `steps` over all activities; it succeeds exactly when every activity has an integer `steps` |
| Steps.ActivityStepsAreSum | backend/runescape_step_calculator.py:36-39 | activity steps equal a direct sum of every activity's `steps` and are 0 for an empty payload; otherwise the error comes from the first activity lacking an integer `steps` (KeyError or TypeError) |
| Steps.ActivityStepsExample | backend/runescape_step_calculator.py:36-39 | activities of 100 and 250 steps give 350 activity steps |
| Steps.TotalSteps | backend/runescape_step_calculator.py:25 | total steps are the `totalSteps` of the first daily record; an empty response is an IndexError and a missing key a KeyError |
| Values.ToInt | backend/runescape_step_calculator.py:47 | `int(...)` of the total steps keeps an int, truncates a float (Truncate), reads a numeral string as Decimal.Parse does, and fails with TypeError on None and with ValueError on a non-numeral string |
| Values.Truncate | backend/runescape_step_calculator.py:47 | `int(...)` of a float drops the fraction toward zero |
| Calculator.RunescapeStepCalculator.WalkingStepsForDate | backend/runescape_step_calculator.py:41-47 | walking steps are the text of total minus activity steps, with total's errors checked first |
| Steps.WalkingIsRemainder | backend/runescape_step_calculator.py:47 | walking plus activity steps equals total steps; walking steps are negative exactly when activity exceeds total (no clamping) |
| Steps.FloorDiv | backend/runescape_step_calculator.py:58-59 | Python's `//` by a positive ratio yields the floor q with q*b <= a < q*b + b, also for negative walking steps |
| Calculator.RunescapeStepCalculator.AllowedRunescapeStepsForDate | backend/runescape_step_calculator.py:49-60 | allowed steps are the text of walking // 5 + activity // 2 |
| Steps.AllowedStepsExample | backend/runescape_step_calculator.py:58-60 | total 10000 and activity 2000 at ratios 5 and 2 give 1600 + 1000 = 2600 |
| Steps.AllowedStepsBound | backend/runescape_step_calculator.py:58-60 | with 0 <= activity <= total and positive ratios, allowed steps lie between 0 and total steps |
| Steps.AsText | backend/runescape_step_calculator.py:60 | the returned text reads back with `int` as the computed count, and errors pass through unchanged |
| Decimal.ShowRoundTrip | backend/runescape_step_calculator.py:58-59 | `int(str(n)) == n` for every integer, negative ones included |
| Decimal.ShowInjective | backend/runescape_step_calculator.py:39 | different step counts never have the same text |
| Values.ToIntShow | backend/runescape_step_calculator.py:47 | `int(...)` of the activity-steps text gives back the activity count |
| Calculator.RunescapeStepCalculator.RunningStepRatio | backend/runescape_step_calculator.py:62-67 | the running ratio's text is "2" and reads back as the field |
| Calculator.RunescapeStepCalculator.WalkingStepRatio | backend/runescape_step_calculator.py:69-74 | the walking ratio's text is "5" and reads back as the field |
| Calculator.RunescapeStepCalculator.ActivitiesForDate | backend/runescape_step_calculator.py:76-80 | the list-building loop returns one parsed activity per payload entry, in the same order |
| Activities.ParsedActivitiesPointwise | backend/runescape_step_calculator.py:76-80 | the parsed list has the payload's length and element i is the projection of entry i; otherwise the first unparsable entry decides the error |
| Calculator.RunescapeStepCalculator.ParseActivity | backend/runescape_step_calculator.py:82-96 | the key-copying loop yields a dictionary with exactly the keys distance, duration, calories and steps, each holding the input's value |
| Activities.ParsedActivityFields | backend/runescape_step_calculator.py:84-96 | parsing succeeds exactly when all four keys are present; the repeated `duration` adds no fifth key; a failure is a KeyError naming the first missing key in lookup order |

## Left out

- The fitness-service client (`garminconnect.Garmin`, `login`, `get_daily_steps`, `get_activities_fordate`; backend/runescape_step_calculator.py:12-13, 25, 33, 78) is a remote foreign library. Its two responses are parameters.
- The credential path and its default `~/.garth` only feed the login, which is not modelled.
- The lookups `['ActivitiesForDay']['payload']` (lines 34 and 78) are not modelled. The model starts from the payload list, so a response without those keys is not modelled.
- Dates and `str(date)` are only query keys for the remote client, so they are not modelled.
- The `__main__` block (lines 99-101) only prints JSON.
- main.py is not part of this model: it wires HTTP routes to the calculator's methods.
- backend/generate_token.py is not part of this model: it is an interactive login that saves credentials.
- Calculator.RunescapeStepCalculator.ActivityStepsForDate: a float `steps` value is reported as TypeError. Python would add it into a float and return its float text, and the model does not format floats. Python booleans, which Python adds as 0 or 1, are not modelled either.
- Values.ToInt: decoded values are idealised in three ways.
  - A Python float is modelled as an exact real number. So the model does not capture an infinite float (`int()` raises OverflowError), NaN (`int()` raises ValueError), or a decimal literal that rounds when decoded to a float.
  - `Value` has no booleans, arrays or objects, so it cannot represent `int(True) == 1` for a boolean `totalSteps`.
  - Python 3.11 and later refuse `str` and `int` conversions of more than 4300 digits. `Decimal.Show`, `Decimal.Parse` and their round trip have no such limit.
- Decimal.Parse: Python's `int` of a string also accepts surrounding whitespace, `_` between digits and non-ASCII digits. The model does not. This only matters when `totalSteps` arrives as a string, because the calculator's own text never contains them.
- Calculator.RunescapeStepCalculator.AllowedRunescapeStepsForDate: the source fetches the activities twice. The model gives both computations the same payload, so the second one cannot fail after the first has succeeded.
- Steps.TotalSteps: `get_total_steps_for_date` is a method in the source. The only state it reads is the fitness-service client (`self.garmin`, line 25), which the model replaces with the `daily` parameter, so the model makes it a function beside the class.
- The key order of a parsed activity dictionary, which shows up only when it is printed, is not modelled: Dafny maps are unordered.
