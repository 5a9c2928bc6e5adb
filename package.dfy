/**
 * Reading a sensor package: a workout type tag and the list of readings
 * that the tag's workout constructor takes, in its parameter order.
 */
module Package {
  import opened Wrappers
  import opened Training

  /** The workout class a tag selects. */
  datatype Kind = Swim | Run | Walk

  /** The tag table of the package reader. */
  const TypeTable: map<string, Kind> := map["SWM" := Swim, "RUN" := Run, "WLK" := Walk]

  /** Tag under which `k` appears in the table. */
  function Tag(k: Kind): (tag: string)
    ensures tag in TypeTable && TypeTable[tag] == k
  {
    match k
    case Swim => "SWM"
    case Run => "RUN"
    case Walk => "WLK"
  }

  /** Number of readings the constructor of `k` takes. */
  function Arity(k: Kind): nat
  {
    match k
    case Run => 3
    case Walk => 4
    case Swim => 5
  }

  function KindOf(w: Workout): Kind
  {
    match w
    case Running(_, _, _) => Run
    case SportsWalking(_, _, _, _) => Walk
    case Swimming(_, _, _, _, _) => Swim
  }

  /** The readings a workout was built from, in constructor parameter order. */
  function Readings(w: Workout): (data: seq<real>)
    ensures |data| == Arity(KindOf(w))
    ensures data[0] == w.action && data[1] == w.duration && data[2] == w.weight
  {
    match w
    case Running(action, duration, weight) => [action, duration, weight]
    case SportsWalking(action, duration, weight, height) => [action, duration, weight, height]
    case Swimming(action, duration, weight, lengthPool, countPool) =>
      [action, duration, weight, lengthPool, countPool]
  }

  /**
   * Calls the constructor of `k` with `data` spread over its parameters; a
   * list of the wrong length is a malformed sample.
   */
  function Construct(k: Kind, data: seq<real>): (r: Result<Workout, Error>)
    ensures r.Success? <==> |data| == Arity(k)
    ensures r.Failure? ==> r.error == MalformedSample
    ensures r.Success? ==> KindOf(r.value) == k && Readings(r.value) == data
  {
    if |data| != Arity(k) then Failure(MalformedSample)
    else
      match k
      case Run => Success(Running(data[0], data[1], data[2]))
      case Walk => Success(SportsWalking(data[0], data[1], data[2], data[3]))
      case Swim => Success(Swimming(data[0], data[1], data[2], data[3], data[4]))
  }

  /**
   * The workout a package describes: the tag selects the class, the readings
   * are its constructor's arguments. A tag outside the table is an invalid
   * workout type.
   */
  function ReadPackage(workoutType: string, data: seq<real>): (r: Result<Workout, Error>)
    ensures r.Success? <==> workoutType in TypeTable && |data| == Arity(TypeTable[workoutType])
    ensures workoutType !in TypeTable ==> r == Failure(InvalidWorkoutType)
    ensures workoutType in TypeTable && r.Failure? ==> r.error == MalformedSample
    ensures r.Success? ==> Tag(KindOf(r.value)) == workoutType && Readings(r.value) == data
  {
    if workoutType !in TypeTable then Failure(InvalidWorkoutType)
    else Construct(TypeTable[workoutType], data)
  }

  /**
   * The package reader as written: it builds the workout but has no return
   * statement, so a well-formed package yields no workout at all.
   */
  function ReadPackageAsWritten(workoutType: string, data: seq<real>): (r: Result<Option<Workout>, Error>)
    ensures r.Success? ==> r.value == None
  {
    if workoutType !in TypeTable then Failure(InvalidWorkoutType)
    else
      match Construct(TypeTable[workoutType], data)
      case Failure(e) => Failure(e)
      case Success(_) => Success(None)
  }

  /** Each tag selects its class and takes that constructor's number of readings. */
  lemma TagTable(data: seq<real>)
    ensures ReadPackage("SWM", data).Success? <==> |data| == 5
    ensures ReadPackage("RUN", data).Success? <==> |data| == 3
    ensures ReadPackage("WLK", data).Success? <==> |data| == 4
    ensures ReadPackage("SWM", data).Success? ==> ReadPackage("SWM", data).value.Swimming?
    ensures ReadPackage("RUN", data).Success? ==> ReadPackage("RUN", data).value.Running?
    ensures ReadPackage("WLK", data).Success? ==> ReadPackage("WLK", data).value.SportsWalking?
  {
  }

  /** Reading back a workout's tag and readings rebuilds the same workout. */
  lemma ReadPackageRoundTrip(w: Workout)
    ensures ReadPackage(Tag(KindOf(w)), Readings(w)) == Success(w)
  {
  }

  /** A successfully read workout determines the package it was read from. */
  lemma ReadPackageInjective(workoutType: string, data: seq<real>, workoutType': string, data': seq<real>)
    requires ReadPackage(workoutType, data).Success? && ReadPackage(workoutType', data').Success?
    requires ReadPackage(workoutType, data) == ReadPackage(workoutType', data')
    ensures workoutType == workoutType' && data == data'
  {
  }

  /** The reader as written returns nothing even for the package that the intended reader turns into a run. */
  lemma ReadPackageAsWrittenLosesWorkout()
    ensures ReadPackage("RUN", [15000.0, 1.0, 75.0]) == Success(Running(15000.0, 1.0, 75.0))
    ensures ReadPackageAsWritten("RUN", [15000.0, 1.0, 75.0]) == Success(None)
  {
  }

  /** The as-written and the intended reader agree on which packages fail, and how. */
  lemma ReadPackageAsWrittenSameErrors(workoutType: string, data: seq<real>)
    ensures ReadPackageAsWritten(workoutType, data).Failure? <==> ReadPackage(workoutType, data).Failure?
    ensures ReadPackage(workoutType, data).Failure? ==>
      ReadPackageAsWritten(workoutType, data).error == ReadPackage(workoutType, data).error
  {
  }

  /**
   * The built-in batch of three packages: what each reads as and the
   * metrics of the workout read.
   */
  lemma SampleBatch()
    ensures ReadPackage("SWM", [720.0, 1.0, 80.0, 25.0, 40.0]) == Success(Swimming(720.0, 1.0, 80.0, 25.0, 40.0))
    ensures ReadPackage("RUN", [15000.0, 1.0, 75.0]) == Success(Running(15000.0, 1.0, 75.0))
    ensures ReadPackage("WLK", [9000.0, 1.0, 75.0, 180.0]) == Success(SportsWalking(9000.0, 1.0, 75.0, 180.0))
    ensures Distance(Swimming(720.0, 1.0, 80.0, 25.0, 40.0)) == 0.9936
    ensures MeanSpeed(Swimming(720.0, 1.0, 80.0, 25.0, 40.0)) == Success(1.0)
    ensures SpentCalories(Swimming(720.0, 1.0, 80.0, 25.0, 40.0)) == Success(336.0)
    ensures Distance(Running(15000.0, 1.0, 75.0)) == 9.75
    ensures MeanSpeed(Running(15000.0, 1.0, 75.0)) == Success(9.75)
    ensures SpentCalories(Running(15000.0, 1.0, 75.0)) == Success(0.194375)
    ensures Distance(SportsWalking(9000.0, 1.0, 75.0, 180.0)) == 5.85
    ensures MeanSpeed(SportsWalking(9000.0, 1.0, 75.0, 180.0)) == Success(5.85)
    ensures SpentCalories(SportsWalking(9000.0, 1.0, 75.0, 180.0)) == Success(2.625)
  {
  }
}
