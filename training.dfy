/**
 * The workout classes of the fitness tracker: a running, sports-walking or
 * swimming session built from sensor readings, and the metrics computed from
 * it (distance in kilometres, mean speed in km/h, calories spent).
 *
 * Every quantity is an exact `real`; the tracker's floating-point rounding is
 * not modelled. Arithmetic that would raise ZeroDivisionError yields
 * `Failure(DivisionByZero)`.
 */
module Training {
  import opened Wrappers

  /** What stops a computation where the tracker would raise. */
  datatype Error =
    | InvalidWorkoutType  // the tag has no entry in the type table
    | MalformedSample     // the reading list does not match the constructor's arity
    | DivisionByZero      // zero duration, or zero height in the walking formula
    | UncalledMethod      // arithmetic applied to the bound method `get_mean_speed`

  /** Step length shared by running and sports walking. */
  const StepLength: real := 0.65
  /** Stroke length of swimming. */
  const StrokeLength: real := 1.38

  /**
   * One workout. `action` counts steps (running, walking) or strokes
   * (swimming); `duration` is in hours, `weight` in kg, `height` in cm,
   * `lengthPool` in metres and `countPool` in laps.
   */
  datatype Workout =
    | Running(action: real, duration: real, weight: real)
    | SportsWalking(action: real, duration: real, weight: real, height: real)
    | Swimming(action: real, duration: real, weight: real, lengthPool: real, countPool: real)

  /** The summary record of one workout; it stores its five fields unchanged. */
  datatype InfoMessage = InfoMessage(trainingType: string, duration: real, distance: real, speed: real, calories: real)

  /** Building the record keeps each of its five fields as given. */
  lemma InfoMessageStoresFields(trainingType: string, duration: real, distance: real, speed: real, calories: real)
    ensures var m := InfoMessage(trainingType, duration, distance, speed, calories);
      && m.trainingType == trainingType && m.duration == duration && m.distance == distance
      && m.speed == speed && m.calories == calories
  {
  }

  /** Distance in metres covered by one step or stroke. */
  function LenStep(w: Workout): (len: real)
    ensures len > 0.0
  {
    if w.Swimming? then StrokeLength else StepLength
  }

  /** Kilometres covered by the workout's steps or strokes. */
  function Distance(w: Workout): (km: real)
    ensures km >= 0.0 <==> w.action >= 0.0
    ensures km == 0.0 <==> w.action == 0.0
  {
    w.action * LenStep(w) / 1000.0
  }

  /** Number of steps or strokes of `w`'s kind that cover `km` kilometres. */
  function ActionsFor(w: Workout, km: real): (n: real)
    ensures n >= 0.0 <==> km >= 0.0
  {
    km * 1000.0 / LenStep(w)
  }

  /** The same workout with `a` steps or strokes instead. */
  function WithAction(w: Workout, a: real): (v: Workout)
    ensures v.action == a && v.duration == w.duration && v.weight == w.weight
    ensures LenStep(v) == LenStep(w)
    ensures v.Running? == w.Running? && v.SportsWalking? == w.SportsWalking? && v.Swimming? == w.Swimming?
    ensures v.SportsWalking? ==> v.height == w.height
    ensures v.Swimming? ==> v.lengthPool == w.lengthPool && v.countPool == w.countPool
  {
    match w
    case Running(_, duration, weight) => Running(a, duration, weight)
    case SportsWalking(_, duration, weight, height) => SportsWalking(a, duration, weight, height)
    case Swimming(_, duration, weight, lengthPool, countPool) => Swimming(a, duration, weight, lengthPool, countPool)
  }

  /** The same workout with body weight `m` instead. */
  function WithWeight(w: Workout, m: real): (v: Workout)
    ensures v.weight == m && v.action == w.action && v.duration == w.duration
    ensures v.Running? == w.Running? && v.SportsWalking? == w.SportsWalking? && v.Swimming? == w.Swimming?
    ensures v.SportsWalking? ==> v.height == w.height
    ensures v.Swimming? ==> v.lengthPool == w.lengthPool && v.countPool == w.countPool
  {
    match w
    case Running(action, duration, _) => Running(action, duration, m)
    case SportsWalking(action, duration, _, height) => SportsWalking(action, duration, m, height)
    case Swimming(action, duration, _, lengthPool, countPool) => Swimming(action, duration, m, lengthPool, countPool)
  }

  /** Kilometres swum: pool length times laps. */
  function PoolDistance(w: Workout): (km: real)
    requires w.Swimming?
    ensures w.lengthPool >= 0.0 && w.countPool >= 0.0 ==> km >= 0.0
  {
    w.lengthPool * w.countPool / 1000.0
  }

  /**
   * Mean speed in km/h: the distance of the steps over the duration, except
   * that swimming measures the distance by the pool.
   */
  function MeanSpeed(w: Workout): (r: Result<real, Error>)
    ensures r.Failure? <==> w.duration == 0.0
    ensures r.Failure? ==> r.error == DivisionByZero
  {
    if w.duration == 0.0 then Failure(DivisionByZero)
    else if w.Swimming? then Success(PoolDistance(w) / w.duration)
    else Success(Distance(w) / w.duration)
  }

  /** Floor division `a // b` of two floats, for a non-zero divisor. */
  function FloorDiv(a: real, b: real): (q: real)
    requires b != 0.0
    ensures q == q.Floor as real
    ensures q <= a / b < q + 1.0
  {
    (a / b).Floor as real
  }

  /** Running calories at mean speed `speed`: linear in the speed, normalised per minute. */
  function RunningCalories(speed: real, weight: real): real
  {
    (18.0 * speed - 20.0) * weight / (1000.0 * 60.0)
  }

  /** Walking calories: the squared speed is floor-divided by the height. */
  function WalkingCalories(speed: real, duration: real, weight: real, height: real): real
    requires height != 0.0
  {
    (0.035 * weight + FloorDiv(speed * speed, height) * 0.029 * weight) * duration
  }

  /** Swimming calories: the speed shifted by 1.1, times twice the weight. */
  function SwimmingCalories(speed: real, weight: real): real
  {
    (speed + 1.1) * 2.0 * weight
  }

  /**
   * Calories spent: each variant's formula applied to the workout's mean
   * speed. A zero duration, or a zero height when walking, is a division
   * by zero.
   */
  function SpentCalories(w: Workout): (r: Result<real, Error>)
    ensures r.Failure? <==> w.duration == 0.0 || (w.SportsWalking? && w.height == 0.0)
    ensures r.Failure? ==> r.error == DivisionByZero
  {
    var speed :- MeanSpeed(w);
    match w
    case Running(_, _, weight) => Success(RunningCalories(speed, weight))
    case SportsWalking(_, duration, weight, height) =>
      if height == 0.0 then Failure(DivisionByZero)
      else Success(WalkingCalories(speed, duration, weight, height))
    case Swimming(_, _, weight, _, _) => Success(SwimmingCalories(speed, weight))
  }

  /**
   * Calories as the tracker computes them: each formula applies arithmetic
   * to the bound method `get_mean_speed` instead of its value, which raises
   * a TypeError before anything is divided.
   */
  function SpentCaloriesAsWritten(w: Workout): (r: Result<real, Error>)
    ensures r.Failure? && r.error == UncalledMethod
  {
    match w
    case Running(_, _, _) => Failure(UncalledMethod)        // `18 * method` at homework.py:79
    case SportsWalking(_, _, _, _) => Failure(UncalledMethod)  // `method ** 2` at homework.py:108
    case Swimming(_, _, _, _, _) => Failure(UncalledMethod)    // `method + 1.1` at homework.py:146
  }

  // ----- Arithmetic facts the calorie proofs rest on -----

  lemma SquareNonNegative(a: real)
    ensures a * a >= 0.0
  {
  }

  lemma ProductNonNegative(a: real, b: real)
    requires a >= 0.0 && b >= 0.0
    ensures a * b >= 0.0
  {
  }

  lemma ProductMonotone(a: real, b: real, c: real)
    requires a <= b && c >= 0.0
    ensures a * c <= b * c
  {
  }

  lemma ProductSign(a: real, b: real)
    requires b > 0.0
    ensures a * b > 0.0 <==> a > 0.0
    ensures a * b == 0.0 <==> a == 0.0
  {
  }

  lemma QuotientBelowOne(a: real, b: real)
    requires 0.0 <= a < b
    ensures 0.0 <= a / b < 1.0
  {
  }

  // ----- Calorie formulas -----

  /** The running formula is proportional to the weight. */
  lemma RunningCaloriesScale(speed: real, m: real, k: real)
    ensures RunningCalories(speed, k * m) == k * RunningCalories(speed, m)
  {
  }

  /** The walking formula is proportional to the weight. */
  lemma WalkingCaloriesScale(speed: real, d: real, m: real, h: real, k: real)
    requires h != 0.0
    ensures WalkingCalories(speed, d, k * m, h) == k * WalkingCalories(speed, d, m, h)
  {
  }

  /** The swimming formula is proportional to the weight. */
  lemma SwimmingCaloriesScale(speed: real, m: real, k: real)
    ensures SwimmingCalories(speed, k * m) == k * SwimmingCalories(speed, m)
  {
  }

  /** Bounds of the walking formula, with the floor division replaced by real division. */
  lemma WalkingFormulaBounds(speed: real, d: real, m: real, h: real)
    requires d > 0.0 && m >= 0.0 && h > 0.0
    ensures 0.035 * m * d <= WalkingCalories(speed, d, m, h)
    ensures WalkingCalories(speed, d, m, h) <= (0.035 + speed * speed / h * 0.029) * m * d
    ensures (0.035 + speed * speed / h * 0.029) * m * d - 0.029 * m * d
      <= WalkingCalories(speed, d, m, h)
  {
    var x := speed * speed / h;
    var q := FloorDiv(speed * speed, h);
    var md := m * d;
    var c := WalkingCalories(speed, d, m, h);
    var exact := (0.035 + x * 0.029) * m * d;
    ProductNonNegative(m, d);
    assert c == 0.035 * md + 0.029 * (q * md);
    assert exact == 0.035 * md + 0.029 * (x * md);
    assert 0.035 * m * d <= c by {
      SquareNonNegative(speed);
      assert x >= 0.0;
      assert q >= 0.0;
      ProductNonNegative(q, md);
    }
    assert c <= exact by {
      ProductMonotone(q, x, md);
    }
    assert exact - 0.029 * m * d <= c by {
      ProductMonotone(x - 1.0, q, md);
      assert (x - 1.0) * md == x * md - md;
    }
  }

  // ----- Distance -----

  /** Converting kilometres to actions undoes Distance, and the other way round. */
  lemma DistanceRoundTrip(w: Workout, km: real)
    ensures ActionsFor(w, Distance(w)) == w.action
    ensures Distance(WithAction(w, ActionsFor(w, km))) == km
  {
  }

  /** For a fixed variant, more steps or strokes cover strictly more distance. */
  lemma DistanceStrictlyIncreasing(w: Workout, a: real, b: real)
    requires a < b
    ensures Distance(WithAction(w, a)) < Distance(WithAction(w, b))
  {
  }

  /** Distance is additive in the number of steps or strokes. */
  lemma DistanceAdditive(w: Workout, a: real, b: real)
    ensures Distance(WithAction(w, a + b)) == Distance(WithAction(w, a)) + Distance(WithAction(w, b))
  {
  }

  // ----- Mean speed -----

  /**
   * Mean speed times duration gives back the distance the speed was
   * measured over: the steps' distance, or the pool's for swimming.
   */
  lemma MeanSpeedCoversDistance(w: Workout)
    requires w.duration != 0.0
    ensures !w.Swimming? ==> MeanSpeed(w).value * w.duration == Distance(w)
    ensures w.Swimming? ==> MeanSpeed(w).value * w.duration == PoolDistance(w)
  {
  }

  /** With non-negative readings and a positive duration the mean speed is non-negative. */
  lemma MeanSpeedNonNegative(w: Workout)
    requires w.duration > 0.0
    requires !w.Swimming? ==> w.action >= 0.0
    requires w.Swimming? ==> w.lengthPool >= 0.0 && w.countPool >= 0.0
    ensures MeanSpeed(w).Success? && MeanSpeed(w).value >= 0.0
  {
  }

  /** Swimming speed depends on the pool, not on the strokes nor on the stroke length. */
  lemma SwimmingSpeedIgnoresStrokes(w: Workout, strokes: real)
    requires w.Swimming?
    ensures MeanSpeed(WithAction(w, strokes)) == MeanSpeed(w)
    ensures w.duration != 0.0 ==> MeanSpeed(w).value == w.lengthPool * w.countPool / 1000.0 / w.duration
  {
    assert PoolDistance(WithAction(w, strokes)) == PoolDistance(w);
  }

  /** The mean speed does not depend on the body weight. */
  lemma MeanSpeedIgnoresWeight(w: Workout, m: real)
    ensures MeanSpeed(WithWeight(w, m)) == MeanSpeed(w)
  {
    var v := WithWeight(w, m);
    assert LenStep(v) == LenStep(w);
    assert Distance(v) == Distance(w);
    if v.Swimming? {
      assert PoolDistance(v) == PoolDistance(w);
    }
  }

  // ----- Calories -----

  /**
   * Running calories for a positive weight are positive exactly when the
   * mean speed exceeds 20/18 km/h, and zero exactly at that speed.
   */
  lemma RunningCaloriesSign(w: Workout)
    requires w.Running? && w.duration != 0.0 && w.weight > 0.0
    ensures SpentCalories(w).Success?
    ensures SpentCalories(w).value > 0.0 <==> MeanSpeed(w).value > 20.0 / 18.0
    ensures SpentCalories(w).value == 0.0 <==> MeanSpeed(w).value == 20.0 / 18.0
  {
    var speed := MeanSpeed(w).value;
    var a := 18.0 * speed - 20.0;
    assert SpentCalories(w) == Success(RunningCalories(speed, w.weight));
    assert RunningCalories(speed, w.weight) == a * w.weight / (1000.0 * 60.0);
    ProductSign(a, w.weight);
  }

  /**
   * Running calories have no duration factor: the same pace kept k times as
   * long (k times the steps in k times the hours) spends the same calories.
   */
  lemma RunningCaloriesNoDurationFactor(w: Workout, k: real)
    requires w.Running? && w.duration != 0.0 && k > 0.0
    ensures SpentCalories(Running(k * w.action, k * w.duration, w.weight)) == SpentCalories(w)
  {
    var v := Running(k * w.action, k * w.duration, w.weight);
    var speed := MeanSpeed(w).value;
    assert Distance(v) == k * Distance(w);
    assert speed * (k * w.duration) == Distance(v);
    assert MeanSpeed(v).value == speed;
  }

  /**
   * When the squared speed is below the height the floor-divided term
   * vanishes and walking calories are 0.035 * weight * duration.
   */
  lemma WalkingSlowSpeedBaseTerm(w: Workout)
    requires w.SportsWalking? && w.duration != 0.0 && w.height > 0.0
    requires MeanSpeed(w).value * MeanSpeed(w).value < w.height
    ensures SpentCalories(w) == Success(0.035 * w.weight * w.duration)
  {
    var speed := MeanSpeed(w).value;
    SquareNonNegative(speed);
    QuotientBelowOne(speed * speed, w.height);
    assert FloorDiv(speed * speed, w.height) == 0.0;
    assert WalkingCalories(speed, w.duration, w.weight, w.height) == 0.035 * w.weight * w.duration by {
      assert (0.035 * w.weight + 0.0 * 0.029 * w.weight) * w.duration
        == 0.035 * w.weight * w.duration;
    }
  }

  /**
   * Walking calories lie between the base term and the formula with real
   * instead of floor division, less than 0.029 * weight * duration below
   * the latter.
   */
  lemma WalkingCaloriesBounds(w: Workout)
    requires w.SportsWalking? && w.duration > 0.0 && w.weight >= 0.0 && w.height > 0.0
    ensures SpentCalories(w).Success?
    ensures var speed, c := MeanSpeed(w).value, SpentCalories(w).value;
      var exact := (0.035 + speed * speed / w.height * 0.029) * w.weight * w.duration;
      && 0.035 * w.weight * w.duration <= c <= exact
      && exact - 0.029 * w.weight * w.duration <= c
  {
    var speed := MeanSpeed(w).value;
    WalkingFormulaBounds(speed, w.duration, w.weight, w.height);
  }

  /** Swimming calories are at least 2.2 times the weight for a non-negative speed and weight. */
  lemma SwimmingCaloriesLowerBound(w: Workout)
    requires w.Swimming? && w.duration != 0.0 && w.weight >= 0.0
    requires MeanSpeed(w).value >= 0.0
    ensures SpentCalories(w).Success?
    ensures SpentCalories(w).value >= 1.1 * 2.0 * w.weight
  {
  }

  /** Every variant's calories are proportional to the weight. */
  lemma CaloriesProportionalToWeight(w: Workout, k: real)
    requires SpentCalories(w).Success?
    ensures SpentCalories(WithWeight(w, k * w.weight)).Success?
    ensures SpentCalories(WithWeight(w, k * w.weight)).value == k * SpentCalories(w).value
  {
    var v := WithWeight(w, k * w.weight);
    MeanSpeedIgnoresWeight(w, k * w.weight);
    var speed := MeanSpeed(w).value;
    assert MeanSpeed(v) == Success(speed);
    if w.Running? {
      assert SpentCalories(v) == Success(RunningCalories(speed, v.weight));
      assert SpentCalories(w) == Success(RunningCalories(speed, w.weight));
      RunningCaloriesScale(speed, w.weight, k);
    } else if w.SportsWalking? {
      WalkingCaloriesScale(speed, w.duration, w.weight, w.height, k);
    } else {
      SwimmingCaloriesScale(speed, w.weight, k);
    }
  }

  /**
   * The calorie formulas as written never produce a value, while the
   * intended ones do whenever no divisor is zero.
   */
  lemma CaloriesAsWrittenNeverSucceed(w: Workout)
    requires w.duration != 0.0 && (w.SportsWalking? ==> w.height != 0.0)
    ensures SpentCaloriesAsWritten(w).Failure?
    ensures SpentCalories(w).Success?
  {
  }
}
