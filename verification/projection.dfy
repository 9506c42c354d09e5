/** The read-time view of the store: every stored record, whatever its shape,
    passed through one normalisation into UI shape. The view is derived on
    every read and never stored. */
module Projection {
  import opened JsValues
  import opened Records
  import opened Timestamps
  import opened Store

  /** One record as the view shows it. `name` is `title || name`; a `date`
      holding a combined timestamp (it contains a 'T') is cut to its calendar
      date, any other `date` passes through; `time` is the stored time when it
      is truthy, else the timestamp's local clock time, else "". Throws, as
      `formatDate` does, when a combined timestamp is not a date. */
  function Normalize(cal: Calendar, app: Appointment): (r: Completion<Appointment>)
    ensures r.Throw? <==> HasT(app.date) && cal.parse(app.date.value).None?
    ensures r.Throw? ==> r.message == cal.rangeError
    ensures r.Normal? ==>
      && r.value.id == app.id
      && r.value.title.None?
      && r.value.description == app.description
      && r.value.attendee == app.attendee
      && (Truthy(app.title) ==> r.value.name == app.title)
      && (!Truthy(app.title) ==> r.value.name == app.name)
      && !HasT(r.value.date)
      && r.value.time.Some?
      && (Truthy(app.time) ==> r.value.time == app.time)
    ensures r.Normal? && !HasT(app.date) ==>
      r.value.date == app.date && (!Truthy(app.time) ==> r.value.time == Some(""))
    ensures r.Normal? && HasT(app.date) ==>
      var m := cal.parse(app.date.value).value;
      && r.value.date.Some? && r.value.date.value <= m.iso
      && (r.value.date.value == m.iso || m.iso[|r.value.date.value|] == 'T')
      && (!Truthy(app.time) ==> ReadClock(r.value.time.value) == Some((m.hour as int, m.minute as int)))
  {
    var date: Completion<Option<string>> :=
      if HasT(app.date) then
        match FormatDate(cal, app.date)
        case Throw(e) => Throw(e)
        case Normal(day) => Normal(Some(day))
      else Normal(app.date);
    var time :=
      if Truthy(app.time) then app.time
      else if HasT(app.date) then Some(FormatTime(cal, app.date))
      else Some("");
    match date
    case Throw(e) => Throw(e)
    case Normal(d) => Normal(Appointment(app.id, None, Or(app.title, app.name), d, time, app.description, app.attendee))
  }

  /** `state.appointments.map(normalize)`: the view of the whole list, record
      by record and in order; it throws exactly when some record's
      normalisation throws. */
  function Project(cal: Calendar, xs: seq<Appointment>): (r: Completion<seq<Appointment>>)
    ensures r.Normal? ==> |r.value| == |xs| && forall i :: 0 <= i < |xs| ==> Normalize(cal, xs[i]) == Normal(r.value[i])
    ensures r.Throw? <==> exists i :: 0 <= i < |xs| && Normalize(cal, xs[i]).Throw?
    ensures r.Throw? ==> r.message == cal.rangeError
  {
    if xs == [] then Normal([])
    else
      match Normalize(cal, xs[0])
      case Throw(e) => Throw(e)
      case Normal(y) =>
        match Project(cal, xs[1..])
        case Throw(e) => Throw(e)
        case Normal(ys) =>
          assert forall i :: 1 <= i < |xs| ==> xs[i] == xs[1..][i - 1];
          Normal([y] + ys)
  }

  /** The view of a one-record list is that record's normalisation. */
  lemma ProjectSingleton(cal: Calendar, x: Appointment, y: Appointment)
    requires Normalize(cal, x) == Normal(y)
    ensures Project(cal, [x]) == Normal([y])
  {
    assert [x][1..] == [];
    assert Project(cal, []) == Normal([]);
    assert [y] + [] == [y];
  }

  /** The view the store exposes for state `s`: one normalised record per
      stored record, in the stored order, or the first error a normalisation
      throws. It reads only the list, never `loading` or `error`. */
  function View(cal: Calendar, s: State): (r: Completion<seq<Appointment>>)
    ensures r.Normal? ==>
      && |r.value| == |s.appointments|
      && forall i :: 0 <= i < |s.appointments| ==> Normalize(cal, s.appointments[i]) == Normal(r.value[i])
    ensures r.Throw? <==> exists i :: 0 <= i < |s.appointments| && Normalize(cal, s.appointments[i]).Throw?
    ensures r.Throw? ==> r.message == cal.rangeError
  {
    Project(cal, s.appointments)
  }

  /** The view follows the store through ADD_APPOINTMENT: after an add, the
      view is the earlier view with the new record's normalisation at its end. */
  lemma ViewAfterAdd(cal: Calendar, s: State, p: Appointment)
    requires View(cal, s).Normal?
    requires Normalize(cal, p).Normal?
    ensures View(cal, Reduce(s, Add(p))) == Normal(View(cal, s).value + [Normalize(cal, p).value])
  {
    var xs := s.appointments + [p];
    var v := View(cal, s).value;
    var w := v + [Normalize(cal, p).value];
    assert forall i :: 0 <= i < |s.appointments| ==> xs[i] == s.appointments[i];
    assert xs[|s.appointments|] == p;
    assert !(exists i :: 0 <= i < |xs| && Normalize(cal, xs[i]).Throw?);
    var r := Project(cal, xs).value;
    assert r == w by {
      forall i | 0 <= i < |xs| ensures r[i] == w[i] {
        assert Normalize(cal, xs[i]) == Normal(r[i]);
        if i < |s.appointments| {
          assert Normalize(cal, s.appointments[i]) == Normal(v[i]);
        }
      }
    }
  }

  /** Normalising a normalised record changes nothing. */
  lemma NormalizeIdempotent(cal: Calendar, app: Appointment)
    requires Normalize(cal, app).Normal?
    ensures Normalize(cal, Normalize(cal, app).value) == Normalize(cal, app)
  {
    var u := Normalize(cal, app).value;
    assert !HasT(u.date);
    if !Truthy(u.time) {
      assert !Truthy(app.time) && !HasT(app.date);
    }
  }

  /** The view of a view is the view itself. */
  lemma ProjectIdempotent(cal: Calendar, xs: seq<Appointment>)
    requires Project(cal, xs).Normal?
    ensures Project(cal, Project(cal, xs).value) == Project(cal, xs)
  {
    var ys := Project(cal, xs).value;
    forall i | 0 <= i < |ys| ensures Normalize(cal, ys[i]) == Normal(ys[i]) {
      NormalizeIdempotent(cal, xs[i]);
    }
    var zs := Project(cal, ys).value;
    assert zs == ys by {
      forall i | 0 <= i < |ys| ensures zs[i] == ys[i] {
        assert Normalize(cal, ys[i]) == Normal(zs[i]);
      }
    }
  }

  /** Every record in UI shape with no 'T' in its date, as the client writes
      them, appears in the view with its fields unchanged except that an absent
      or empty time shows as "" and `title` is dropped. */
  lemma UiShapedRecordsPassThrough(cal: Calendar, app: Appointment)
    requires !Truthy(app.title) && !HasT(app.date)
    ensures Normalize(cal, app) == Normal(app.(title := None, name := app.name, time := if Truthy(app.time) then app.time else Some("")))
  {
  }
}
