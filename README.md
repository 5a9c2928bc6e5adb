# Workout metrics of the fitness tracker

A Dafny model of `homework.py`, a small fitness tracker. A sensor package is a
workout type tag (`SWM`, `RUN`, `WLK`) and a list of readings. The tag selects
one of three workout classes: running, sports walking or swimming. The
readings become that class's constructor arguments. From the workout the
tracker computes three metrics:

- the distance in kilometres, from the count of steps or strokes;
- the mean speed in km/h, which for swimming comes from pool length times laps;
- the calories spent, by a fixed formula for each class.

The classes never change their fields after construction, so the model is
pure. `Training.Workout` is a datatype with one constructor per class, and
each one carries that class's constructor parameters. The metrics are
functions over exact `real` values. A Python `ZeroDivisionError` becomes
`Failure(DivisionByZero)` in a `Result`, so a zero duration is an error and
not a value. `Package.ReadPackage` is the tag table and the constructor call.
The summary record `InfoMessage` is the datatype `Training.InfoMessage`, which
stores its five fields unchanged.

Files:

- `wrappers.dfy` holds the `Result` and `Option` types.
- `training.dfy` holds the workouts, the metrics and their lemmas (module `Training`).
- `package.dfy` holds the package reader and the built-in sample batch (module `Package`).

Two choices in the formulas:

- A per-minute running formula would read
  `(18 * speed - 20) * weight / (1000 * 60) * duration * 60`. The code at
  homework.py:79-80 stops after the division by `1000 * 60` and has no
  duration factor; the model follows the code. `Training.RunningCaloriesNoDurationFactor`
  proves that the duration cancels out. For the built-in run (15000 steps,
  1 h, 75 kg) the model gives 0.194375 kcal, where the per-minute formula gives 11.6625
  (`Package.SampleBatch`).
- The walking formula keeps the floor division `//` of homework.py:108. A
  zero height is a division by zero and yields `Failure(DivisionByZero)`. The
  model does not exclude it with a precondition.

## Model

| member | source | states |
|---|---|---|
| `Training.InfoMessageStoresFields` | homework.py:6-17 | the summary record keeps its five fields (type, duration, distance, speed, calories) exactly as given |
| `Training.Distance` | homework.py:44-47 | the distance is non-negative exactly when the action count is, and zero exactly when the count is zero |
| `Training.DistanceRoundTrip` | homework.py:44-47 | converting kilometres back to steps or strokes (at 0.65 m, or 1.38 m for swimming, and 1000 m per km) undoes the distance, in both directions |
| `Training.DistanceStrictlyIncreasing` | homework.py:47 | for a fixed variant, more steps or strokes give strictly more distance |
| `Training.DistanceAdditive` | homework.py:47 | the distance of a+b actions is the sum of the distances of a and of b actions |
| `Training.PoolDistance` | homework.py:139-140 | the pool distance is non-negative for a non-negative pool length and lap count |
| `Training.MeanSpeed` | homework.py:50-53 | the mean speed fails with a division by zero exactly when the duration is zero |
| `Training.MeanSpeedCoversDistance` | homework.py:50-53 | mean speed times duration gives back the step distance, or the pool distance for swimming |
| `Training.MeanSpeedNonNegative` | homework.py:50-53 | with a positive duration and non-negative readings the mean speed exists and is non-negative |
| `Training.MeanSpeedIgnoresWeight` | homework.py:50-53 | the mean speed does not depend on the body weight |
| `Training.SwimmingSpeedIgnoresStrokes` | homework.py:136-142 | the swimming speed does not depend on the stroke count, and equals length_pool * count_pool / 1000 / duration |
| `Training.FloorDiv` | homework.py:108-109 | floor division gives a whole number q with q <= a/b < q+1 |
| `Training.SpentCalories` | homework.py:77-146 | the calories fail with a division by zero exactly when the duration is zero, or when a walk's height is zero |
| `Training.RunningCaloriesSign` | homework.py:77-80 | for a positive weight, the running calories are positive exactly when the speed exceeds 20/18 km/h, and zero exactly at that speed |
| `Training.RunningCaloriesNoDurationFactor` | homework.py:77-80 | the same pace kept k times as long spends the same running calories: the formula has no duration factor |
| `Training.RunningCaloriesScale` | homework.py:79-80 | the running formula is proportional to the weight |
| `Training.WalkingSlowSpeedBaseTerm` | homework.py:105-110 | when speed squared is below the height, the floor-divided term vanishes and the walking calories are 0.035 * weight * duration |
| `Training.WalkingCaloriesBounds` | homework.py:105-110 | the walking calories lie between 0.035 * weight * duration and the real-division formula, and at most 0.029 * weight * duration below the latter |
| `Training.WalkingFormulaBounds` | homework.py:107-110 | the same bounds for the walking formula at any speed |
| `Training.WalkingCaloriesScale` | homework.py:107-110 | the walking formula is proportional to the weight |
| `Training.SwimmingCaloriesLowerBound` | homework.py:144-146 | for a non-zero duration, non-negative weight and non-negative mean speed, the swimming calories are at least 1.1 * 2 * weight |
| `Training.SwimmingCaloriesScale` | homework.py:146 | the swimming formula is proportional to the weight |
| `Training.CaloriesProportionalToWeight` | homework.py:77-146 | for every variant, scaling the weight by k scales the calories by k |
| `Training.SpentCaloriesAsWritten` | homework.py:79 | as written, every calorie formula fails with a type error, because it does arithmetic on the uncalled method |
| `Training.CaloriesAsWrittenNeverSucceed` | homework.py:77-146 | with no zero divisor, the as-written calories fail and the intended calories succeed |
| `Package.Tag` | homework.py:160-163 | each class's tag is in the table and maps back to that class |
| `Package.Readings` | homework.py:125-134 | a workout's readings have its constructor's arity and start with action, duration and weight |
| `Package.Construct` | homework.py:165 | the constructor call succeeds exactly when the list has the class's arity, otherwise the sample is malformed; the result's readings are the list |
| `Package.ReadPackage` | homework.py:157-165 | reading succeeds exactly for a known tag with the right arity; an unknown tag is an invalid workout type, and a wrong arity is a malformed sample; a workout read has the given tag and readings |
| `Package.TagTable` | homework.py:160-163 | `SWM` reads 5 values as a swim, `RUN` reads 3 as a run, and `WLK` reads 4 as a walk |
| `Package.ReadPackageRoundTrip` | homework.py:157-165 | reading a workout's own tag and readings rebuilds that workout |
| `Package.ReadPackageInjective` | homework.py:157-165 | two packages that read as the same workout are the same package |
| `Package.ReadPackageAsWritten` | homework.py:157-165 | as written, the reader never returns a workout |
| `Package.ReadPackageAsWrittenLosesWorkout` | homework.py:165 | for the built-in run the intended reader returns the run and the as-written reader returns nothing |
| `Package.ReadPackageAsWrittenSameErrors` | homework.py:157-165 | the as-written and the intended reader fail on the same packages, with the same error |
| `Package.SampleBatch` | homework.py:176-180 | the three built-in packages read as the expected workouts; their distances are 0.9936, 9.75 and 5.85; their speeds are 1.0, 9.75 and 5.85; their calories are 336.0, 0.194375 and 2.625 |

## Left out

- The `main` function, the batch loop under `__main__` and the `print` calls (homework.py:167-184) are console I/O and are not modelled. As written the loop computes nothing: `read_package` returns `None` (homework.py:165) and `main` raises a TypeError at homework.py:172. `Package.SampleBatch` gives what the corrected reader and the intended, called formulas yield for its three packages.
- `InfoMessage.get_message` (homework.py:19-24) is not modelled. It formats Python floats as text, and those digits have no counterpart over exact reals.
- The `show_training_info` methods (homework.py:60-63, 87-90, 115-118, 152-155) are not modelled. Each one calls itself on the class without passing `self`, so it always raises a TypeError and never returns an InfoMessage.
- The base `Training.get_spent_calories` (homework.py:56-58) returns `None`. The base class is treated as abstract, so it is not a fourth variant.
- The coefficient class attributes (homework.py:82-84, 112-113, 149-150) are not used by the formulas. The model writes the formulas with the literals, as the code does.
- IEEE floating-point rounding is not modelled. All quantities are exact `real` values. The integer type hints on `action`, `length_pool` and `count_pool`, and on `InfoMessage`'s `duration`, are not enforced in Python, so these values are `real` too.
- Python's `TypeError` for an unknown tag (calling `None`) becomes `InvalidWorkoutType`, and the one for a wrong number of readings becomes `MalformedSample`.

## Findings

| source | as written | input that shows it | evidently intended | confidence | as-written member | corrected member |
|---|---|---|---|---|---|---|
| homework.py:79 | The calorie formulas use `self.get_mean_speed` without calling it (also at lines 108 and 146). Arithmetic on a bound method raises a TypeError. | any workout, e.g. `Running(15000, 1, 75)` | use the value of `get_mean_speed()` | high; not executed | `Training.SpentCaloriesAsWritten`, `Training.CaloriesAsWrittenNeverSucceed` | `Training.SpentCalories` |
| homework.py:165 | `read_package` assigns the new workout to a local and has no `return`, so it returns `None`. | `("RUN", [15000, 1, 75])` | return the workout | high; not executed | `Package.ReadPackageAsWritten`, `Package.ReadPackageAsWrittenLosesWorkout` | `Package.ReadPackage` |
