/** The two per-cycle accumulators that SwerveSubsystem.periodic keeps:
    the swerveRuntime counter and the avgMotorTemp average. */
module Accumulators {

  /** Control-loop period added per cycle in which motion is seen. */
  const Period: real := 0.03
  /** Smallest signed increase that counts as motion. */
  const Threshold: real := 0.05
  /** Four drive and four steering motors are summed. */
  const MotorCount: nat := 8

  /** The pose of the previous cycle (x, y and distance from the origin) and
      the runtime accumulated so far. */
  datatype Tracker = Tracker(prevX: real, prevY: real, prevDist: real, runtime: real)

  /** One cycle's pose: x, y and the distance of (x, y) from the origin. */
  datatype Sample = Sample(x: real, y: real, dist: real)

  /** `dist` is the Euclidean distance of (x, y) from the origin. */
  predicate IsDistance(x: real, y: real, dist: real) {
    dist >= 0.0 && dist * dist == x * x + y * y
  }

  predicate ValidSample(s: Sample) {
    IsDistance(s.x, s.y, s.dist)
  }

  /** Motion is a signed increase of at least the threshold in x, in y or
      in the distance from the origin. */
  predicate Moved(t: Tracker, s: Sample) {
    s.x - t.prevX >= Threshold || s.y - t.prevY >= Threshold || s.dist - t.prevDist >= Threshold
  }

  /** One cycle: add a period when motion is seen, then the current pose
      becomes the previous one. */
  function Step(t: Tracker, s: Sample): (t': Tracker)
    ensures t'.prevX == s.x && t'.prevY == s.y && t'.prevDist == s.dist
  {
    Tracker(s.x, s.y, s.dist, if Moved(t, s) then t.runtime + Period else t.runtime)
  }

  /** Many cycles, oldest sample first. The runtime never decreases and
      grows by at most one period per cycle; afterwards the tracker holds
      the last sample. */
  function Run(t: Tracker, samples: seq<Sample>): (t': Tracker)
    ensures t.runtime <= t'.runtime <= t.runtime + Period * |samples| as real
    ensures samples != [] ==> var last := samples[|samples| - 1];
      t'.prevX == last.x && t'.prevY == last.y && t'.prevDist == last.dist
    decreases |samples|
  {
    if samples == [] then t else Run(Step(t, samples[0]), samples[1..])
  }

  /** How many of the cycles see motion. */
  function MovingCycles(t: Tracker, samples: seq<Sample>): (n: nat)
    ensures n <= |samples|
    decreases |samples|
  {
    if samples == [] then 0
    else (if Moved(t, samples[0]) then 1 else 0) + MovingCycles(Step(t, samples[0]), samples[1..])
  }

  /** One cycle adds exactly one period when motion is seen and nothing
      otherwise. */
  lemma StepRuntime(t: Tracker, s: Sample)
    ensures Moved(t, s) ==> Step(t, s).runtime == t.runtime + 0.03
    ensures !Moved(t, s) ==> Step(t, s).runtime == t.runtime
  {
  }

  /** The comparison is signed: a cycle in which x, y and the distance all
      stay level or shrink adds nothing, however far the robot moved. */
  lemma NoIncreaseNoRuntime(t: Tracker, s: Sample)
    requires s.x <= t.prevX && s.y <= t.prevY && s.dist <= t.prevDist
    ensures Step(t, s).runtime == t.runtime
  {
  }

  /** Driving along the positive x axis toward the origin, from (a, 0) to
      (b, 0) with a >= b >= 0, shrinks x and the distance and adds nothing,
      however far the robot moved. */
  lemma ShrinkingPositiveXNotCounted(a: real, b: real, runtime: real)
    requires a >= b >= 0.0
    ensures ValidSample(Sample(a, 0.0, a)) && ValidSample(Sample(b, 0.0, b))
    ensures Step(Tracker(a, 0.0, a, runtime), Sample(b, 0.0, b)).runtime == runtime
  {
  }

  /** The same approach from the negative side is counted: from (-1, 0)
      to (-0.5, 0) x grows by 0.5, so a period is added. */
  lemma ApproachFromNegativeXCounted()
    ensures ValidSample(Sample(-1.0, 0.0, 1.0)) && ValidSample(Sample(-0.5, 0.0, 0.5))
    ensures Step(Tracker(-1.0, 0.0, 1.0, 0.0), Sample(-0.5, 0.0, 0.5)).runtime == Period
  {
  }

  /** Over many cycles the runtime grows by one period per moving cycle. */
  lemma {:induction false} RunRuntime(t: Tracker, samples: seq<Sample>)
    ensures Run(t, samples).runtime == t.runtime + Period * MovingCycles(t, samples) as real
    decreases |samples|
  {
    if samples != [] {
      RunRuntime(Step(t, samples[0]), samples[1..]);
    }
  }

  /** Cycles in which no motion is seen leave the runtime unchanged. */
  lemma {:induction false} StillRunKeepsRuntime(t: Tracker, samples: seq<Sample>)
    requires MovingCycles(t, samples) == 0
    ensures Run(t, samples).runtime == t.runtime
  {
    RunRuntime(t, samples);
  }

  /** Sum of the readings, first to last. */
  function Sum(temps: seq<real>): real
    decreases |temps|
  {
    if temps == [] then 0.0 else Sum(temps[..|temps| - 1]) + temps[|temps| - 1]
  }

  /** Adding the next reading extends the sum of a prefix. */
  lemma SumPrefix(temps: seq<real>, k: nat)
    requires k < |temps|
    ensures Sum(temps[..k + 1]) == Sum(temps[..k]) + temps[k]
  {
    assert temps[..k + 1][..k] == temps[..k];
  }

  /** The mean of the readings. */
  function Mean(temps: seq<real>): real
    requires temps != []
  {
    Sum(temps) / |temps| as real
  }

  /** The temperature accumulator is not cleared before the readings are
      added, so each cycle yields (previous value + sum of readings) / 8:
      for eight readings, their mean plus one eighth of the previous value. */
  function TempStep(previous: real, temps: seq<real>): (next: real)
    ensures |temps| == MotorCount ==> next == Mean(temps) + previous / 8.0
  {
    (previous + Sum(temps)) / MotorCount as real
  }

  /** Eight equal readings sum to eight times the reading. */
  lemma {:induction false} SumConstant(temps: seq<real>, reading: real)
    requires forall i :: 0 <= i < |temps| ==> temps[i] == reading
    ensures Sum(temps) == |temps| as real * reading
    decreases |temps|
  {
    if temps != [] {
      SumConstant(temps[..|temps| - 1], reading);
    }
  }

  /** With every motor steady at `reading`, the accumulator stays put only
      at 8/7 of the reading; it equals the reading only when the reading
      is 0. */
  lemma {:induction false} TempSteadyState(previous: real, temps: seq<real>, reading: real)
    requires |temps| == MotorCount
    requires forall i :: 0 <= i < |temps| ==> temps[i] == reading
    ensures TempStep(previous, temps) == previous <==> previous * 7.0 == reading * 8.0
    ensures TempStep(reading, temps) == reading <==> reading == 0.0
  {
    SumConstant(temps, reading);
  }
}
