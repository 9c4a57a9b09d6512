/** The application controller: it remembers the last map click and decides
    what a form submission does. */
module MaptyApp {
  import opened Numbers
  import opened Workouts

  datatype Option<T> = None | Some(value: T)

  /** The form fields, already converted to numbers. `kind` is the value of
      the workout type selector. */
  datatype Submission = Submission(
    kind: string,
    distance: Number,
    duration: Number,
    cadence: Number,
    elevation: Number)

  /** What submitting the form does: it is rejected with an alert, a marker
      is placed at the remembered click, or reading the click fails because
      the map was never clicked (a TypeError). */
  datatype Outcome = Rejected | Accepted(marker: LatLng) | Threw

  /** `validInputs(...inputs)`: every input is a finite number. The sign is
      not examined. */
  function ValidInputs(inputs: seq<Number>): (ok: bool)
    ensures ok <==> forall i :: 0 <= i < |inputs| ==> IsFinite(inputs[i])
  {
    |inputs| == 0 || (IsFinite(inputs[0]) && ValidInputs(inputs[1..]))
  }

  /** The inputs a running submission is checked on. */
  function RunningInputs(form: Submission): seq<Number> {
    [form.distance, form.duration, form.cadence]
  }

  /** The decision taken by a form submission when the last map click is
      `pending`. Only a running submission is checked; it is rejected before
      the click is read. */
  function Decide(pending: Option<LatLng>, form: Submission): (outcome: Outcome)
    ensures outcome.Rejected?
        <==> form.kind == "running"
             && !(IsFinite(form.distance) && IsFinite(form.duration) && IsFinite(form.cadence))
    ensures outcome.Threw? <==> !outcome.Rejected? && pending.None?
    ensures outcome.Accepted? ==> pending == Some(outcome.marker)
  {
    var inputs := RunningInputs(form);
    assert inputs[0] == form.distance && inputs[1] == form.duration && inputs[2] == form.cadence;
    if form.kind == "running" && !ValidInputs(inputs) then Rejected
    else if pending.None? then Threw
    else Accepted(pending.value)
  }

  /** A running submission is rejected exactly when its distance, duration
      or cadence is not finite: `Decide`'s contract read for runs only. */
  lemma RunningRejectedIffNotFinite(pending: Option<LatLng>, form: Submission)
    requires form.kind == "running"
    ensures Decide(pending, form).Rejected?
        <==> !IsFinite(form.distance) || !IsFinite(form.duration) || !IsFinite(form.cadence)
  {
  }

  /** Zero and negative numbers pass the check, although the alert asks for
      positive numbers: a run of any finite distance, duration and cadence is
      accepted once the map has been clicked. */
  lemma NonPositiveRunAccepted(at: LatLng, distance: real, duration: real, cadence: real, elevation: Number)
    ensures Decide(Some(at), Submission("running", Finite(distance), Finite(duration), Finite(cadence), elevation))
         == Accepted(at)
  {
    var form := Submission("running", Finite(distance), Finite(duration), Finite(cadence), elevation);
    assert forall i :: 0 <= i < 3 ==> IsFinite(RunningInputs(form)[i]);
  }

  /** Any submission that is not a run, a ride among them, is never
      rejected, whatever its numbers; it is accepted at the remembered click
      when there is one. */
  lemma OnlyRunsAreChecked(pending: Option<LatLng>, form: Submission)
    requires form.kind != "running"
    ensures !Decide(pending, form).Rejected?
    ensures pending.Some? ==> Decide(pending, form) == Accepted(pending.value)
  {
  }

  /** The elevation field never influences the decision, and the cadence
      field influences it only for a run. */
  lemma IgnoredFields(pending: Option<LatLng>, form: Submission, cadence: Number, elevation: Number)
    ensures Decide(pending, form) == Decide(pending, form.(elevation := elevation))
    ensures form.kind != "running" ==> Decide(pending, form) == Decide(pending, form.(cadence := cadence))
  {
    assert RunningInputs(form) == RunningInputs(form.(elevation := elevation));
  }

  /** The controller's state: the last map click, `#mapEvent`. The Leaflet
      map `#map` is not part of this model. */
  class App {
    var mapEvent: Option<LatLng>

    /** Before any click there is no pending position. */
    constructor ()
      ensures mapEvent == None
    {
      mapEvent := None;
    }

    /** `_showForm`: a map click is remembered for the next submission. */
    method ShowForm(click: LatLng)
      modifies this
      ensures mapEvent == Some(click)
    {
      mapEvent := Some(click);
    }

    /** `_newWorkout`: decides a submission. It changes no field, so the
        pending click survives it. */
    method NewWorkout(form: Submission) returns (outcome: Outcome)
      ensures outcome == Decide(mapEvent, form)
    {
      if form.kind == "running" {
        if !ValidInputs(RunningInputs(form)) {
          return Rejected;
        }
      }
      // A ride reads its elevation and performs no check.
      if mapEvent.None? {
        return Threw;
      }
      outcome := Accepted(mapEvent.value);
    }
  }

  /** One map click followed by two submissions: every submission that is
      not rejected places its marker at that click, the second one too,
      since a submission does not clear the pending click. */
  method ClickThenSubmitTwice(app: App, click: LatLng, first: Submission, second: Submission)
    returns (o1: Outcome, o2: Outcome)
    modifies app
    ensures app.mapEvent == Some(click)
    ensures o1.Rejected?
        <==> first.kind == "running"
             && !(IsFinite(first.distance) && IsFinite(first.duration) && IsFinite(first.cadence))
    ensures o2.Rejected?
        <==> second.kind == "running"
             && !(IsFinite(second.distance) && IsFinite(second.duration) && IsFinite(second.cadence))
    ensures !o1.Rejected? ==> o1 == Accepted(click)
    ensures !o2.Rejected? ==> o2 == Accepted(click)
  {
    app.ShowForm(click);
    o1 := app.NewWorkout(first);
    o2 := app.NewWorkout(second);
  }
}
