# Mapty workouts: a Dafny model

Mapty is a browser widget: the user clicks a spot on a map, fills in a
form, and the application records a running or cycling workout there. This
project models the part of `js/script.js` that has logic in it:

- the `Workout` record (`coords`, `distance` in km, `duration` in minutes,
  a creation `date` and an `id`) and its two variants: `Running`, which
  stores its `cadence` and computes its `pace` in min/km, and `Cycling`,
  which stores its `elevationGain` and computes its `speed` in km/h
  (module `Workouts`, file `workouts.dfy`);
- the workout id, the last ten characters of the decimal form of the
  creation timestamp in milliseconds (module `WorkoutIds`,
  `workout_id.dfy`);
- the controller `App`: `_showForm` remembers the map click, and
  `_newWorkout` decides whether a submission is rejected (`validInputs`
  fails on a run) or places its marker at the remembered click (module
  `MaptyApp`, `app.dfy`);
- JavaScript numbers as far as these need them: finite values as reals, and
  one case for Infinity, -Infinity and NaN, with `Number.isFinite` and the
  division `/` (module `Numbers`, `numbers.dfy`).

The workout classes update their fields in place, so they are Dafny
classes. Dafny has no inheritance here, so a `Running` or a `Cycling` owns
a `Workout` object, `base`, built first as the superclass constructor does.
The constructors call `CalcPace`/`CalcSpeed` exactly like the source. The
clock is a parameter `now`. The division by a zero distance (pace) or a
zero duration (speed) is not excluded by a precondition. Like JavaScript, it
yields a non-finite number, and `PaceOf`/`SpeedOf` say so.

Only a `"running"` submission is checked. The check accepts any finite
numbers, zero and negative ones included, although the alert it shows says
"Inputs must contain only positive numbers!". A `"cycling"` submission,
or any other type value, is never rejected. A submission decided before any
map click fails when it reads the click's position: `Outcome.Threw`.
The model follows the code as written here: there is no positivity check,
the elevation of a ride is read but never checked, and an accepted
submission places a marker without creating or storing a workout object
(only a comment at `js/script.js:148` stands for that step).

## Model

| member | source | states |
|---|---|---|
| `Numbers.Divide` | js/script.js:26 | JavaScript `/` on finite numbers: on exact reals, the quotient is finite exactly when the divisor is non-zero (a zero divisor gives Infinity or NaN) |
| `Numbers.DivideInverse` | js/script.js:26 | a finite quotient times the divisor gives back the dividend |
| `Workouts.PaceOf` | js/script.js:24-27 | `duration / distance`; on exact reals the pace is finite exactly when the distance is non-zero |
| `Workouts.PaceMeaning` | js/script.js:24-27 | for a non-zero distance, pace (min/km) times distance (km) is the duration (min) |
| `Workouts.SpeedOf` | js/script.js:37-40 | `distance / (duration / 60)`; on exact reals the speed is finite exactly when the duration is non-zero |
| `Workouts.SpeedMeaning` | js/script.js:37-40 | for a non-zero duration, speed (km/h) times the duration in hours is the distance, so speed times the duration in minutes is 60 times the distance |
| `Workouts.PaceTimesSpeed` | js/script.js:24-40 | for a non-zero distance and duration, pace in min/km times speed in km/h is 60: the two metrics are reciprocal unit conversions of the same movement |
| `Workouts.Workout.constructor` | js/script.js:6-14 | stores coords, distance and duration unchanged; the date is the clock reading and the id is `WorkoutId` of it |
| `Workouts.Running.constructor` | js/script.js:17-22 | a fresh Workout part with the given coords, distance, duration, date and id; the cadence stored unchanged; the pace equals `PaceOf(distance, duration)` because the constructor calls `CalcPace` |
| `Workouts.Running.CalcPace` | js/script.js:24-28 | stores the pace of the current distance and duration, returns exactly the stored value, and changes no other field |
| `Workouts.Cycling.constructor` | js/script.js:30-35 | a fresh Workout part with the given coords, distance, duration, date and id; the elevation gain stored unchanged; the speed equals `SpeedOf(distance, duration)` because the constructor calls `CalcSpeed` |
| `Workouts.Cycling.CalcSpeed` | js/script.js:37-41 | stores the speed of the current distance and duration, returns exactly the stored value, and changes no other field |
| `Workouts.RecalculatePace` | js/script.js:24-28 | idempotence from any state: two calls return the same value, the pace of the current distance and duration, and leave it stored; if the stored pace was already current it is unchanged |
| `Workouts.RecalculateSpeed` | js/script.js:37-41 | idempotence from any state: two calls return the same value, the speed of the current distance and duration, and leave it stored; if the stored speed was already current it is unchanged |
| `Workouts.SampleWorkouts` | js/script.js:44-45 | the sample run (5.2 km, 24 min) has pace 60/13, between 4.615 and 4.616 min/km; the sample ride (27 km, 95 min) has speed 324/19, between 17.05 and 17.06 km/h; coords, cadence and elevation are stored as given |
| `WorkoutIds.DecimalString` | js/script.js:8 | `timestamp + ''` is a non-empty string of digits with a leading `0` only for the timestamp 0 |
| `WorkoutIds.DecimalStringValue` | js/script.js:8 | the decimal form read back as a number is the timestamp itself |
| `WorkoutIds.TakeLastIsSuffix` | js/script.js:8 | `.slice(-k)` for k >= 1 (`TakeLast`; `.slice(-0)` would keep the whole string): the result is a suffix of the string, of length min(k, length of the string) |
| `WorkoutIds.WorkoutId` | js/script.js:8 | the id initializer `(Date.now() + '').slice(-10)` on the injected timestamp; what it promises is stated by IdIsSuffix, IdValue and IdCollision |
| `WorkoutIds.IdIsSuffix` | js/script.js:8 | the id is a suffix of the timestamp's decimal form, all digits, of length min(10, number of digits of the timestamp) |
| `WorkoutIds.SuffixValue` | js/script.js:8 | the last k digits of a digit string, read as a number, are its value modulo 10^k |
| `WorkoutIds.IdValue` | js/script.js:8 | the id read as a number is the timestamp modulo 10^10 |
| `WorkoutIds.IdCollision` | js/script.js:8 | from 10^9 ms on (12 January 1970) every id has 10 digits, and two timestamps get equal ids exactly when they are equal modulo 10^10 ms: ids are unique only within such a window |
| `Numbers.IsFinite` | js/script.js:125 | `Number.isFinite`: true exactly for the finite numbers, false for Infinity, -Infinity and NaN |
| `MaptyApp.RunningInputs` | js/script.js:138 | the argument list `validInputs(distance, duration, cadence)`: the three numbers of a run, in that order |
| `MaptyApp.ValidInputs` | js/script.js:123-125 | `validInputs` holds exactly when every argument is finite |
| `MaptyApp.Decide` | js/script.js:134-151 | a submission is rejected exactly when its type is `running` and its distance, duration or cadence is not finite; otherwise it fails exactly when no click is pending, and when accepted its marker is at the pending click |
| `MaptyApp.RunningRejectedIffNotFinite` | js/script.js:135-140 | corollary of `Decide` for runs: a run is rejected exactly when its distance, duration or cadence is not finite |
| `MaptyApp.NonPositiveRunAccepted` | js/script.js:123-140 | a run with any finite numbers, zero or negative ones included, is accepted at the pending click |
| `MaptyApp.OnlyRunsAreChecked` | js/script.js:142-146 | a ride (any type other than running) is never rejected, and is accepted at the pending click when there is one |
| `MaptyApp.IgnoredFields` | js/script.js:134-146 | the elevation field never changes the decision; the cadence field changes it only for a run |
| `MaptyApp.App.constructor` | js/script.js:58-62 | no click is pending when the application starts |
| `MaptyApp.App.ShowForm` | js/script.js:106-110 | a map click becomes the pending click |
| `MaptyApp.App.NewWorkout` | js/script.js:122-151 | the outcome is `Decide` of the pending click and the form, and no field changes, so the pending click survives the submission |
| `MaptyApp.ClickThenSubmitTwice` | js/script.js:106-152 | after one click, every submission that is not rejected places its marker at that click, a second submission too |

## Left out

- The Leaflet map: creating it, its tile layer, click registration, markers and popups. An accepted outcome carries the marker position only.
- Geolocation (`_getPosition`, `_loadMap`): an asynchronous browser service with alert and console output.
- DOM wiring: element lookups, showing the form and focusing a field, `_toggleElevationField`, event listeners. The form values arrive as a `Submission`.
- The string-to-number conversion `+input.value`: the `Submission` holds the converted numbers.
- The clock: `new Date()` and `Date.now()` are one parameter `now`, a non-negative millisecond count; the two reads are taken to fall in the same millisecond. The date is kept as that count, not as a Date object.
- `WorkoutIds.DecimalString` models the decimal form of integers only; JavaScript switches to exponent notation from 10^21 on, far beyond any clock reading (at most 8.64 * 10^15).
- IEEE-754 rounding, overflow, underflow, signed zero and the difference between Infinity, -Infinity and NaN: finite numbers are exact reals, and the Workout fields are finite reals.
- Numbers.Divide: "finite exactly when the divisor is non-zero" holds for exact reals only; in JavaScript finite operands can still give Infinity by overflow (`1e308 / 0.5`) or by underflow of the divisor (a duration of `1e-323` makes `duration / 60` round to 0, so the speed is Infinity). `Workouts.PaceOf` and `Workouts.SpeedOf` inherit this.
- The `months` table (line 4) is not used by any code in this file.
- The workout list, rendering on the list, hiding and clearing the form, and persistence: only comments stand for them in this file.
- Subclassing: in JavaScript a run is one object; here the `Running` object and its `Workout` part are two objects, so the model does not capture code that treats a run as a plain workout by reference.
