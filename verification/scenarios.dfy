/** Worked runs of the store: a fetch in UTC whose record the view splits into
    date and time, and an add whose created record lands in an empty store. */
module Scenarios {
  import opened JsValues
  import opened Records
  import opened Timestamps
  import opened Store
  import opened Sync
  import opened Projection

  /** A calendar in UTC that knows two instants and nothing else, with V8's
      RangeError message. */
  const Utc := Calendar(
    s => if s == "2024-05-01T09:30:00Z" then Some(Moment("2024-05-01T09:30:00.000Z", 9, 30))
         else if s == "2024-06-01T14:00:00Z" then Some(Moment("2024-06-01T14:00:00.000Z", 14, 0))
         else None,
    (d, t) => if d == "2024-06-01" && t == Some("14:00") then Some("2024-06-01T14:00:00.000Z") else None,
    "2024-01-01T00:00:00.000Z",
    "Invalid time value")

  const Dentist := Appointment(Some(Num(1)), Some("Dentist"), None, Some("2024-05-01T09:30:00Z"), None, Some(""), Some(""))

  const DentistView := Appointment(Some(Num(1)), None, Some("Dentist"), Some("2024-05-01"), Some("09:30"), Some(""), Some(""))

  /** The calendar reads the fetched timestamp as 9:30 UTC. */
  lemma UtcReadsDentist()
    ensures Utc.parse("2024-05-01T09:30:00Z") == Some(Moment("2024-05-01T09:30:00.000Z", 9, 30))
  {
  }

  /** The timestamp's calendar date is the text before its 'T'. */
  lemma DentistDate()
    ensures FormatDate(Utc, Dentist.date) == Normal("2024-05-01")
  {
    var iso := "2024-05-01T09:30:00.000Z";
    UtcReadsDentist();
    assert iso[..10] == "2024-05-01";
    assert forall j :: 0 <= j < 10 ==> iso[j] != 'T';
    UpToFirstTEndsAtFirstT(iso, 10);
  }

  /** The timestamp's clock time is 9:30, padded. */
  lemma DentistTime()
    ensures FormatTime(Utc, Dentist.date) == "09:30"
  {
    UtcReadsDentist();
    assert TwoDigits(9) == "09";
    assert TwoDigits(30) == "30" by {
      assert Decimal(3) == "3";
    }
  }

  /** The wire record is shown as "Dentist" on "2024-05-01" at "09:30". */
  lemma DentistIsNormalizedSplit()
    ensures Normalize(Utc, Dentist) == Normal(DentistView)
  {
    assert HasT(Dentist.date) by {
      assert Dentist.date.value[10] == 'T';
    }
    DentistDate();
    DentistTime();
  }

  /** After a fetch that returns the one wire record, the view holds it in UI shape. */
  lemma DentistIsShownSplit()
    ensures var t := FetchAppointments(Initial, Normal([Dentist]));
      View(Utc, t.state) == Normal([DentistView])
  {
    var t := FetchAppointments(Initial, Normal([Dentist]));
    assert t.state.appointments == [Dentist];
    DentistIsNormalizedSplit();
    ProjectSingleton(Utc, Dentist, DentistView);
  }

  /** An add the service answers with id 42 leaves an empty store holding
      exactly that one record, named "Demo". */
  lemma DemoAddIsStored()
    ensures var input := Appointment(None, None, Some("Demo"), Some("2024-06-01"), Some("14:00"), Some(""), Some("Bob"));
      var created := Appointment(Some(Num(42)), Some("Demo"), None, Some("2024-06-01T14:00:00Z"), None, Some(""), Some("Bob"));
      var t := AddAppointment(Utc, Initial, input, Normal(created));
      && t.request == Create(Appointment(None, Some("Demo"), None, Some("2024-06-01T14:00:00.000Z"), None, Some(""), Some("Bob")))
      && |t.state.appointments| == 1
      && t.state.appointments[0].id == Some(Num(42))
      && t.state.appointments[0].name == Some("Demo")
  {
  }
}
