/**
 * One pass of the calculator page: validate the user's speed and distance,
 * and either report every validation message or compute the reaction time
 * and the equivalent-speed curve over the fixed distance series. Widgets,
 * chart rendering and the reference-distance annotations are not modelled.
 */
module Calculator {
  import opened Utils

  /** What the page shows: the validation messages, or the curve. */
  datatype Outcome =
    | Rejected(errors: seq<string>)
    | Chart(reactionTime: real, distances: seq<real>, speeds: seq<real>)

  /**
   * Validation gates the computation; on valid input the curve passes
   * through the user's own point and every point on it has the user's
   * reaction time.
   */
  method Compute(speed: Value, distance: Value) returns (outcome: Outcome)
    ensures outcome.Rejected? <==> !InputsValid(speed, distance)
    ensures outcome.Rejected? ==> outcome.errors == Messages(speed, distance) && outcome.errors != []
    ensures outcome.Chart? ==>
              && outcome.reactionTime > 0.0
              && outcome.reactionTime == ReactionTime(speed.n, distance.n)
              && outcome.distances == DistanceRange()
              && |outcome.speeds| == |outcome.distances|
              && (forall i :: 0 <= i < |outcome.speeds| ==>
                    outcome.speeds[i] > 0.0 &&
                    ReactionTime(outcome.speeds[i], outcome.distances[i]) == outcome.reactionTime)
              && StrictlyIncreasing(outcome.speeds)
              && EquivalentSpeed(outcome.reactionTime, distance.n) == speed.n
              && (forall i :: 0 <= i < |outcome.distances| && outcome.distances[i] == distance.n ==>
                    outcome.speeds[i] == speed.n)
  {
    var errors := ValidateInputs(speed, distance);
    if errors != [] {
      return Rejected(errors);
    }
    var reactionTime := ReactionTime(speed.n, distance.n);
    var distances := DistanceRange();
    var speeds := EquivalentSpeeds(reactionTime, distances);
    RoundTrip(speed.n, distance.n);
    EquivalentSpeedsIncreasing(reactionTime, distances);
    outcome := Chart(reactionTime, distances, speeds);
  }
}
