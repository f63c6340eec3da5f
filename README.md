# Pitch speed equivalency calculator — verified model

The calculator takes a pitch speed (mph) and a pitching distance (ft). It
computes the batter's reaction time, which is the time the ball needs to
cover the distance. It then draws, over distances from 15 ft to 60.5 ft in
half-foot steps, the speed that gives the same reaction time at each
distance.

This project models the calculator's computational core, `utils.py`, in
module `Utils` (`utils.dfy`):

- `ReactionTime` is `calculate_reaction_time`: distance / (speed × 1.467).
- `EquivalentSpeed` and `EquivalentSpeeds` are the scalar and array forms
  of `calculate_equivalent_speeds`: (distance / time) / 1.467, element by
  element.
- `Arange` models numpy's `arange`, and `DistanceRange` is
  `generate_distance_range`, i.e. `arange(15, 61, 0.5)`.
- `ValidateInputs` is `validate_inputs`, a method that appends one message
  per rejected input. It checks the speed first, then the distance.
  `Messages` is the list it builds, stated as a function.
- `Value = Numeric(n) | NonNumeric` stands for the `isinstance(…, (int, float))`
  test.

Module `Calculator` (`calculator.dfy`) models how the page chains these
functions (`main.py` lines 60-70). Validation gates the computation. On
valid input, the page computes the reaction time, the distance series and
the equivalent-speed curve.

Arithmetic is exact over `real`. The conversion constant is the real
literal `1.467`, which is exactly 1467/1000.

Take the 90 mph pitch at 60.5 ft. Exact arithmetic gives a reaction time
of 60.5 / 132.03 ≈ 0.4582 s. The matching speed at 46 ft is
90 × 46 / 60.5 ≈ 68.43 mph. `MajorLeagueToTenUnder` proves
these figures.

## Model

| member | source | states |
|---|---|---|
| `Utils.ReactionTime` | utils.py:3-7 | the time t satisfies t × (speed × 1.467) = distance, so covering the distance at the converted speed takes exactly t; for a positive speed, t is positive iff the distance is; a non-zero distance gives a non-zero time |
| `Utils.EquivalentSpeed` | utils.py:9-12 | the speed s satisfies s × 1.467 × time = distance; for a positive time, s is positive iff the distance is; for a non-zero distance, ReactionTime(s, distance) is the target time (the inverse of ReactionTime) |
| `Utils.EquivalentSpeeds` | utils.py:9-12 | same length and order as the distances; element i is the equivalent speed of distance i; every element over a non-zero distance reproduces the target reaction time |
| `Utils.RoundTrip` | utils.py:3-12 | for non-zero speed and distance, the equivalent speed at the same distance, for that pair's reaction time, is the original speed: the user's point lies on the curve |
| `Utils.ProportionalSpeed` | utils.py:3-12 | at equal reaction time, speed is proportional to distance: the speed matching `speed` over `from` feet is speed × to / from at `to` feet |
| `Utils.EquivalentSpeedIncreasing` | utils.py:12 | for a positive time, a strictly longer distance gives a strictly higher equivalent speed |
| `Utils.EquivalentSpeedsIncreasing` | utils.py:9-12 | for a positive time, a strictly increasing distance series gives a strictly increasing speed series |
| `Utils.MajorLeagueToTenUnder` | utils.py:3-12 | 90 mph over 60.5 ft gives a reaction time between 0.4582 and 0.4583 s; the speed matching it at 46 ft is exactly 90 × 46 / 60.5, between 68.42 and 68.43 mph |
| `Utils.Arange` | utils.py:16 | numpy's arange with a positive step yields ceil((stop − start) / step) values, or none when start ≥ stop; value i is start + i × step; every value lies in [start, stop); one more step reaches stop, so no value is missed; the values strictly increase |
| `Utils.DistanceRange` | utils.py:14-16 | 92 distances; the first is 15 and the last is 60.5; value i is 15 + i × 0.5, so consecutive values differ by 0.5; the values strictly increase; every value passes the validator's distance check |
| `Utils.Messages` | utils.py:18-28 | the message list is empty iff the speed is a number > 0 and the distance a number in [15, 60.5]; the speed message is present iff the speed is rejected, and the distance message iff the distance is; no other message appears; there is one message per rejected input; the speed message comes first |
| `Utils.ValidateInputs` | utils.py:18-28 | the list built by successive appends is exactly `Messages(speed, distance)`, so it is empty iff both inputs are valid |
| `Calculator.Compute` | main.py:60-70 | the inputs are rejected iff validation fails, and then the reported list is exactly the validator's `Messages(speed, distance)`, in order; otherwise the reaction time is positive, the curve spans the 92-point distance series, every curve point is positive and reproduces the user's reaction time, the curve strictly increases, and it passes through the user's (distance, speed) point |

## Left out

- Floating-point rounding is not modelled. Neither is the step accumulation inside numpy's `arange`: arithmetic is exact over `real`.
- NaN and infinity are left out. Python raises `ZeroDivisionError` for float division by zero, and numpy returns inf. `ReactionTime` and `EquivalentSpeed` instead require a non-zero speed or time; validation guarantees this on the page.
- Python's `bool` is a subclass of `int`, so the `isinstance` test also accepts `True`/`False`. `Value` leaves this out; a caller would map such an input to `Numeric(1.0)` or `Numeric(0.0)`.
- numpy broadcasting is left out: the array form takes a `seq<real>`, and the scalar form is a separate function.
- The rest of `main.py` is presentation and is left out: page setup, CSS, widgets and their 1–200 mph and 15–60.5 ft clamping, the plotly figure, the reference-distance annotations (lines 102-129) and the help text.
