/**
 * The computational core of the pitch speed equivalency calculator: the
 * reaction time of a pitch thrown at a given speed over a given distance,
 * its inverse (the speed that gives the same reaction time over another
 * distance), the fixed series of distances the curve is drawn over, and
 * the validation of the user's speed and distance.
 *
 * Arithmetic is exact over `real`; speeds are in mph, distances in feet,
 * times in seconds.
 */
module Utils {

  /** Feet per second in one mile per hour, as the calculator rounds it. */
  const MphToFps: real := 1.467

  /** The closed interval of distances the validator accepts, in feet. */
  const MinDistance: real := 15.0
  const MaxDistance: real := 60.5

  /** The arguments of the distance series: start, exclusive stop, step. */
  const RangeStart: real := 15.0
  const RangeStop: real := 61.0
  const RangeStep: real := 0.5

  const SpeedError: string := "Speed must be a positive number"
  const DistanceError: string := "Distance must be between 15 and 60.5 feet"

  /** A user input: a number (int or float) or anything else. */
  datatype Value = Numeric(n: real) | NonNumeric

  // ---------------------------------------------------------------------
  // Reaction time and its inverse
  // ---------------------------------------------------------------------

  /**
   * Seconds a pitch at `speed` mph needs to cover `distance` feet:
   * the distance over the speed converted to feet per second.
   */
  function ReactionTime(speed: real, distance: real): (t: real)
    requires speed != 0.0
    ensures t * (speed * MphToFps) == distance
    ensures speed > 0.0 ==> (t > 0.0 <==> distance > 0.0)
    ensures distance != 0.0 ==> t != 0.0
  {
    distance / (speed * MphToFps)
  }

  /**
   * The speed in mph that covers `distance` feet in `time` seconds: the
   * distance over the time gives feet per second, converted back to mph.
   */
  function EquivalentSpeed(time: real, distance: real): (s: real)
    requires time != 0.0
    ensures s * MphToFps * time == distance
    ensures time > 0.0 ==> (s > 0.0 <==> distance > 0.0)
    ensures distance != 0.0 ==> s != 0.0 && ReactionTime(s, distance) == time
  {
    (distance / time) / MphToFps
  }

  /** The speed series for a series of distances, element by element. */
  function EquivalentSpeeds(time: real, distances: seq<real>): (speeds: seq<real>)
    requires time != 0.0
    ensures |speeds| == |distances|
    ensures forall i :: 0 <= i < |distances| ==> speeds[i] == EquivalentSpeed(time, distances[i])
    ensures forall i :: 0 <= i < |distances| && distances[i] != 0.0 ==>
              speeds[i] != 0.0 && ReactionTime(speeds[i], distances[i]) == time
  {
    seq(|distances|, i requires 0 <= i < |distances| => EquivalentSpeed(time, distances[i]))
  }

  /**
   * Round trip: the equivalent speed, at the same distance, for the reaction
   * time of `speed` over `distance` is `speed` itself.
   */
  lemma RoundTrip(speed: real, distance: real)
    requires speed != 0.0 && distance != 0.0
    ensures ReactionTime(speed, distance) != 0.0
    ensures EquivalentSpeed(ReactionTime(speed, distance), distance) == speed
  {
  }

  /**
   * Equal reaction times mean speed proportional to distance: the speed that
   * matches `speed` over `from` feet, at `to` feet, is speed * to / from.
   */
  lemma ProportionalSpeed(speed: real, from: real, to: real)
    requires speed != 0.0 && from != 0.0
    ensures ReactionTime(speed, from) != 0.0
    ensures EquivalentSpeed(ReactionTime(speed, from), to) == speed * to / from
  {
  }

  /** With a positive time, a longer distance needs a strictly higher speed. */
  lemma EquivalentSpeedIncreasing(time: real, d1: real, d2: real)
    requires time > 0.0 && d1 < d2
    ensures EquivalentSpeed(time, d1) < EquivalentSpeed(time, d2)
  {
  }

  predicate StrictlyIncreasing(s: seq<real>)
  {
    forall i, j :: 0 <= i < j < |s| ==> s[i] < s[j]
  }

  /** A strictly increasing distance series gives a strictly increasing speed series. */
  lemma EquivalentSpeedsIncreasing(time: real, distances: seq<real>)
    requires time > 0.0 && StrictlyIncreasing(distances)
    ensures StrictlyIncreasing(EquivalentSpeeds(time, distances))
  {
    var speeds := EquivalentSpeeds(time, distances);
    forall i, j | 0 <= i < j < |speeds| ensures speeds[i] < speeds[j] {
      EquivalentSpeedIncreasing(time, distances[i], distances[j]);
    }
  }

  /**
   * The 90 mph over 60.5 ft scenario: a reaction time of about 0.458 s, and
   * the speed matching it at 46 ft is 90 * 46 / 60.5, about 68.43 mph.
   */
  lemma MajorLeagueToTenUnder()
    ensures 0.4582 < ReactionTime(90.0, 60.5) < 0.4583
    ensures EquivalentSpeed(ReactionTime(90.0, 60.5), 46.0) == 90.0 * 46.0 / 60.5
    ensures 68.42 < EquivalentSpeed(ReactionTime(90.0, 60.5), 46.0) < 68.43
  {
  }

  // ---------------------------------------------------------------------
  // The distance series
  // ---------------------------------------------------------------------

  /** The least integer not below x. */
  function Ceil(x: real): (c: int)
    ensures x <= c as real < x + 1.0
  {
    -((-x).Floor)
  }

  /** The number of values numpy's arange yields for a positive step. */
  function ArangeLength(start: real, stop: real, step: real): nat
    requires step > 0.0
  {
    if start < stop then Ceil((stop - start) / step) else 0
  }

  /** The value after `i` steps of size `step` from `start`. */
  function Tick(start: real, step: real, i: int): real
  {
    start + i as real * step
  }

  /**
   * numpy's arange for a positive step: start, start + step, ... while below
   * stop; there are ceil((stop - start) / step) values, or none.
   */
  function Arange(start: real, stop: real, step: real): (r: seq<real>)
    requires step > 0.0
    ensures |r| == ArangeLength(start, stop, step)
    ensures forall i :: 0 <= i < |r| ==> r[i] == Tick(start, step, i)
    ensures forall i :: 0 <= i < |r| ==> start <= r[i] < stop
    ensures Tick(start, step, |r|) >= stop
    ensures StrictlyIncreasing(r)
  {
    var n := ArangeLength(start, stop, step);
    StepsBelow(start, stop, step);
    StepsReach(start, stop, step);
    TicksIncrease(start, step, n);
    seq(n, i requires 0 <= i < n => Tick(start, step, i))
  }

  /** Fewer than ceil((stop - start) / step) steps stay within [start, stop). */
  lemma StepsBelow(start: real, stop: real, step: real)
    requires step > 0.0
    ensures forall i :: 0 <= i < ArangeLength(start, stop, step) ==>
              start <= Tick(start, step, i) < stop
  {
    var n := ArangeLength(start, stop, step);
    forall i | 0 <= i < n ensures start <= Tick(start, step, i) < stop {
      var q := (stop - start) / step;
      assert i as real < q;
      assert q * step == stop - start;
      assert i as real * step < q * step;
    }
  }

  /** After ceil((stop - start) / step) steps, stop is reached. */
  lemma StepsReach(start: real, stop: real, step: real)
    requires step > 0.0
    ensures Tick(start, step, ArangeLength(start, stop, step)) >= stop
  {
  }

  /** More steps of a positive size reach further. */
  lemma TicksIncrease(start: real, step: real, n: int)
    requires step > 0.0
    ensures forall i, j :: 0 <= i < j < n ==> Tick(start, step, i) < Tick(start, step, j)
  {
  }

  /**
   * The distances the curve is drawn over: 15 ft to 60.5 ft in half-foot
   * steps, 92 values, each accepted by the validator.
   */
  function DistanceRange(): (r: seq<real>)
    ensures |r| == 92
    ensures r[0] == MinDistance && r[91] == MaxDistance
    ensures forall i :: 0 <= i < |r| ==> r[i] == MinDistance + i as real * RangeStep
    ensures forall i :: 0 < i < |r| ==> r[i] - r[i - 1] == RangeStep
    ensures forall i :: 0 <= i < |r| ==> DistanceValid(Numeric(r[i]))
    ensures StrictlyIncreasing(r)
  {
    assert Ceil((RangeStop - RangeStart) / RangeStep) == 92;
    Arange(RangeStart, RangeStop, RangeStep)
  }

  // ---------------------------------------------------------------------
  // Validation
  // ---------------------------------------------------------------------

  /** A speed is accepted when it is a number above zero. */
  predicate SpeedValid(speed: Value)
  {
    speed.Numeric? && speed.n > 0.0
  }

  /** A distance is accepted when it is a number within [15, 60.5] feet. */
  predicate DistanceValid(distance: Value)
  {
    distance.Numeric? && MinDistance <= distance.n <= MaxDistance
  }

  predicate InputsValid(speed: Value, distance: Value)
  {
    SpeedValid(speed) && DistanceValid(distance)
  }

  /**
   * The messages describing what is wrong with the inputs: one for the
   * speed, then one for the distance, each only when that input is rejected.
   */
  function Messages(speed: Value, distance: Value): (errors: seq<string>)
    ensures errors == [] <==> InputsValid(speed, distance)
    ensures SpeedError in errors <==> !SpeedValid(speed)
    ensures DistanceError in errors <==> !DistanceValid(distance)
    ensures forall e :: e in errors ==> e == SpeedError || e == DistanceError
    ensures |errors| == (if SpeedValid(speed) then 0 else 1) + (if DistanceValid(distance) then 0 else 1)
    ensures !SpeedValid(speed) ==> errors[0] == SpeedError
  {
    (if SpeedValid(speed) then [] else [SpeedError]) +
    (if DistanceValid(distance) then [] else [DistanceError])
  }

  /** Builds the validator's message list by appending, as the page receives it. */
  method ValidateInputs(speed: Value, distance: Value) returns (errors: seq<string>)
    ensures errors == Messages(speed, distance)
    ensures errors == [] <==> InputsValid(speed, distance)
  {
    errors := [];
    if !speed.Numeric? || speed.n <= 0.0 {
      errors := errors + [SpeedError];
    }
    if !distance.Numeric? || distance.n < 15.0 || distance.n > 60.5 {
      errors := errors + [DistanceError];
    }
  }

  /** The validation examples: speeds 0 and -5 and distances 14.99, 60.51 are rejected; 15 and 60.5 are accepted. */
  method ValidationExamples()
  {
    var e := ValidateInputs(Numeric(0.0), Numeric(46.0));
    assert e == [SpeedError];
    e := ValidateInputs(Numeric(-5.0), Numeric(46.0));
    assert e == [SpeedError];
    e := ValidateInputs(Numeric(90.0), Numeric(14.99));
    assert e == [DistanceError];
    e := ValidateInputs(Numeric(90.0), Numeric(60.51));
    assert e == [DistanceError];
    e := ValidateInputs(Numeric(90.0), Numeric(15.0));
    assert e == [];
    e := ValidateInputs(Numeric(90.0), Numeric(60.5));
    assert e == [];
    e := ValidateInputs(NonNumeric, Numeric(70.0));
    assert e == [SpeedError, DistanceError];
  }
}
