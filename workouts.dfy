/** The workout entities: a Workout holds where, how far and how long; a
    Running adds the cadence and its pace, a Cycling the elevation gain and
    its speed. */
module Workouts {
  import opened Numbers
  import opened WorkoutIds

  /** A point on the map, `[lat, lng]`. */
  datatype LatLng = LatLng(lat: real, lng: real)

  /** Pace in min/km of a workout of `distance` km lasting `duration`
      minutes: the minutes spent per kilometre. */
  function PaceOf(distance: real, duration: real): (pace: Number)
    ensures IsFinite(pace) <==> distance != 0.0
  {
    Divide(duration, distance)
  }

  /** Speed in km/h of a workout of `distance` km lasting `duration`
      minutes: the duration is converted to hours before dividing. */
  function SpeedOf(distance: real, duration: real): (speed: Number)
    ensures IsFinite(speed) <==> duration != 0.0
  {
    Divide(distance, duration / 60.0)
  }

  /** A finite pace is the number of minutes per kilometre: times the
      distance it gives the duration. */
  lemma PaceMeaning(distance: real, duration: real)
    requires distance != 0.0
    ensures PaceOf(distance, duration).value * distance == duration
  {
    DivideInverse(duration, distance);
  }

  /** A finite speed is the number of kilometres per hour: times the
      duration in hours it gives the distance, so times the duration in
      minutes it gives 60 times the distance. */
  lemma SpeedMeaning(distance: real, duration: real)
    requires duration != 0.0
    ensures SpeedOf(distance, duration).value * (duration / 60.0) == distance
    ensures SpeedOf(distance, duration).value * duration == 60.0 * distance
  {
    var s := SpeedOf(distance, duration).value;
    DivideInverse(distance, duration / 60.0);
    calc {
      s * duration;
      60.0 * (s * (duration / 60.0));
      60.0 * distance;
    }
  }

  /** The two metrics describe the same movement in reciprocal units: a
      pace in min/km times a speed in km/h is 60 minutes per hour. */
  lemma PaceTimesSpeed(distance: real, duration: real)
    requires distance != 0.0 && duration != 0.0
    ensures IsFinite(PaceOf(distance, duration)) && IsFinite(SpeedOf(distance, duration))
    ensures PaceOf(distance, duration).value * SpeedOf(distance, duration).value == 60.0
  {
    var p, s := PaceOf(distance, duration).value, SpeedOf(distance, duration).value;
    PaceMeaning(distance, duration);
    SpeedMeaning(distance, duration);
    calc {
      (p * s) * duration;
      p * (s * duration);
      p * (60.0 * distance);
      60.0 * (p * distance);
      60.0 * duration;
    }
    CancelFactor(p * s, 60.0, duration);
  }

  lemma CancelFactor(x: real, y: real, d: real)
    requires d != 0.0 && x * d == y * d
    ensures x == y
  {
    assert (x - y) * d == 0.0;
  }

  /** The fields every workout has. Like the JavaScript object, every field
      can be reassigned; no operation of the model does so after
      construction. */
  class Workout {
    /** `new Date()`, as a millisecond timestamp. */
    var date: nat
    var id: string
    var coords: LatLng
    /** In km. */
    var distance: real
    /** In minutes. */
    var duration: real

    /** `now` is the clock reading taken when the object is created. */
    constructor (coords: LatLng, distance: real, duration: real, now: nat)
      ensures this.coords == coords && this.distance == distance && this.duration == duration
      ensures date == now && id == WorkoutId(now)
    {
      date := now;
      id := WorkoutId(now);
      this.coords := coords;
      this.distance := distance;
      this.duration := duration;
    }
  }

  /** A run. `base` is the Workout part that the superclass constructor
      initialises. */
  class Running {
    const base: Workout
    /** In steps per minute. */
    var cadence: real
    /** In min/km. */
    var pace: Number

    constructor (coords: LatLng, distance: real, duration: real, cadence: real, now: nat)
      ensures fresh(base)
      ensures base.coords == coords && base.distance == distance && base.duration == duration
      ensures base.date == now && base.id == WorkoutId(now)
      ensures this.cadence == cadence
      ensures pace == PaceOf(distance, duration)
    {
      base := new Workout(coords, distance, duration, now);
      this.cadence := cadence;
      new;
      var _ := CalcPace();
    }

    /** Stores and returns the pace of the current distance and duration. */
    method CalcPace() returns (result: Number)
      modifies this`pace
      ensures pace == PaceOf(base.distance, base.duration)
      ensures result == pace
    {
      pace := PaceOf(base.distance, base.duration);
      result := pace;
    }
  }

  /** A bike ride. `base` is the Workout part that the superclass
      constructor initialises. */
  class Cycling {
    const base: Workout
    /** In metres. */
    var elevationGain: real
    /** In km/h. */
    var speed: Number

    constructor (coords: LatLng, distance: real, duration: real, elevationGain: real, now: nat)
      ensures fresh(base)
      ensures base.coords == coords && base.distance == distance && base.duration == duration
      ensures base.date == now && base.id == WorkoutId(now)
      ensures this.elevationGain == elevationGain
      ensures speed == SpeedOf(distance, duration)
    {
      base := new Workout(coords, distance, duration, now);
      this.elevationGain := elevationGain;
      new;
      var _ := CalcSpeed();
    }

    /** Stores and returns the speed of the current distance and duration. */
    method CalcSpeed() returns (result: Number)
      modifies this`speed
      ensures speed == SpeedOf(base.distance, base.duration)
      ensures result == speed
    {
      speed := SpeedOf(base.distance, base.duration);
      result := speed;
    }
  }

  /** Recomputing the pace is idempotent: two calls in a row return the same
      value, the one left stored. When the distance and duration have not
      changed since the pace was stored, that is the stored value itself. */
  method RecalculatePace(run: Running) returns (first: Number, second: Number)
    modifies run`pace
    ensures first == second == run.pace == PaceOf(run.base.distance, run.base.duration)
    ensures old(run.pace) == PaceOf(run.base.distance, run.base.duration) ==> run.pace == old(run.pace)
  {
    first := run.CalcPace();
    second := run.CalcPace();
  }

  /** Recomputing the speed is idempotent: two calls in a row return the
      same value, the one left stored. When the distance and duration have
      not changed since the speed was stored, that is the stored value
      itself. */
  method RecalculateSpeed(ride: Cycling) returns (first: Number, second: Number)
    modifies ride`speed
    ensures first == second == ride.speed == SpeedOf(ride.base.distance, ride.base.duration)
    ensures old(ride.speed) == SpeedOf(ride.base.distance, ride.base.duration) ==> ride.speed == old(ride.speed)
  {
    first := ride.CalcSpeed();
    second := ride.CalcSpeed();
  }

  /** The two sample workouts written out next to the classes: a 5.2 km run
      of 24 minutes at cadence 178 has a pace of 60/13 (about 4.615) min/km,
      a 27 km ride of 95 minutes with 523 m of climbing a speed of 324/19
      (about 17.05) km/h. */
  method SampleWorkouts(now: nat) returns (run: Running, ride: Cycling)
    ensures run.base.coords == ride.base.coords == LatLng(39.0, -12.0)
    ensures run.cadence == 178.0 && ride.elevationGain == 523.0
    ensures run.pace == Finite(60.0 / 13.0)
    ensures ride.speed == Finite(324.0 / 19.0)
    ensures 4.615 < run.pace.value < 4.616 && 17.05 < ride.speed.value < 17.06
  {
    run := new Running(LatLng(39.0, -12.0), 5.2, 24.0, 178.0, now);
    ride := new Cycling(LatLng(39.0, -12.0), 27.0, 95.0, 523.0, now);
  }
}
