/** The four operations that pair a call to the remote appointment service
    with dispatches into the store: fetch, add, delete and update.

    The network is not modelled. Each operation receives the settled outcome of
    its remote call (`reply`) and the calendar its date helpers consult, and
    returns a `Step`: the state after its dispatches, the dispatches themselves,
    the request it sent, and what its caller observes. */
module Sync {
  import opened JsValues
  import opened Records
  import opened Timestamps
  import opened Store

  /** The remote endpoint an operation called, with the body it sent. */
  datatype Request =
    | NoRequest                                  // threw before calling the service
    | List                                       // GET  /api/appointment
    | Create(body: Appointment)                  // POST /api/appointment
    | Put(key: Option<Id>, body: Appointment)    // PUT  /api/appointment/{id}
    | Remove(key: Option<Id>)                    // DELETE /api/appointment/{id}

  /** One operation run to completion. */
  datatype Step<+T> = Step(state: State, dispatched: seq<Action>, request: Request, result: Completion<T>)

  /** The wire body built from a UI record: `name` travels as `title`, date and
      time are combined into one timestamp, and a falsy `attendee` is sent as "".
      Only `key` decides whether an `id` is sent. */
  function ToWire(cal: Calendar, input: Appointment, key: Option<Id>): (r: Completion<Appointment>)
    ensures r.Throw? <==> CombineDateTime(cal, input.date, input.time).Throw?
    ensures r.Throw? ==> r.message == cal.rangeError
    ensures r.Normal? ==>
      && r.value.id == key
      && r.value.title == input.name
      && r.value.name.None? && r.value.time.None?
      && r.value.date == Some(CombineDateTime(cal, input.date, input.time).value)
      && r.value.description == input.description
      && r.value.attendee.Some?
      && (Truthy(input.attendee) ==> r.value.attendee == input.attendee)
      && (!Truthy(input.attendee) ==> r.value.attendee == Some(""))
  {
    match CombineDateTime(cal, input.date, input.time)
    case Throw(e) => Throw(e)
    case Normal(stamp) =>
      Normal(Appointment(key, input.name, None, Some(stamp), None, input.description, Or(input.attendee, Some(""))))
  }

  /** The UI record built from a record the service returned: `title` becomes
      `name`, the timestamp is split into a calendar date (never containing a
      'T') and a local "HH:MM" time. It throws when the timestamp is not a date. */
  function FromWire(cal: Calendar, w: Appointment): (r: Completion<Appointment>)
    ensures r.Throw? <==> Truthy(w.date) && cal.parse(w.date.value).None?
    ensures r.Throw? ==> r.message == cal.rangeError
    ensures r.Normal? ==>
      && r.value.id == w.id
      && r.value.title.None?
      && r.value.name == w.title
      && r.value.date.Some? && 'T' !in r.value.date.value
      && r.value.time.Some?
      && r.value.description == w.description
      && r.value.attendee == w.attendee
    ensures r.Normal? && Truthy(w.date) ==>
      var m := cal.parse(w.date.value).value;
      && r.value.date.value <= m.iso
      && (r.value.date.value == m.iso || m.iso[|r.value.date.value|] == 'T')
      && ReadClock(r.value.time.value) == Some((m.hour as int, m.minute as int))
    ensures !Truthy(w.date) ==> r.Normal? && r.value.date == Some("") && r.value.time == Some("")
  {
    match FormatDate(cal, w.date)
    case Throw(e) => Throw(e)
    case Normal(day) =>
      Normal(Appointment(w.id, None, w.title, Some(day), Some(FormatTime(cal, w.date)), w.description, w.attendee))
  }

  /** The catch block shared by every write: record the message through
      FETCH_APPOINTMENTS_ERROR, then rethrow it to the caller. */
  function Fail<T>(s: State, message: string, request: Request): (t: Step<T>)
    ensures t.state == State(s.appointments, false, Some(message))
    ensures t.result == Throw(message)
    ensures t.dispatched == [FetchError(message)]
  {
    Step(Reduce(s, FetchError(message)), [FetchError(message)], request, Throw(message))
  }

  /** `fetchAppointments`: dispatch START, ask for the list, then dispatch
      SUCCESS with it or ERROR with the failure's message. It never throws. */
  function FetchAppointments(s: State, reply: Completion<seq<Appointment>>): (t: Step<()>)
    ensures t.result == Normal(())
    ensures t.request == List
    ensures |t.dispatched| == 2 && t.dispatched[0] == FetchStart
    ensures !t.state.loading
    ensures reply.Normal? ==> t.dispatched[1] == FetchSuccess(reply.value) && t.state == State(reply.value, false, s.error)
    ensures reply.Throw? ==> t.dispatched[1] == FetchError(reply.message) && t.state == State(s.appointments, false, Some(reply.message))
  {
    var started := Reduce(s, FetchStart);
    match reply
    case Normal(data) =>
      Step(Reduce(started, FetchSuccess(data)), [FetchStart, FetchSuccess(data)], List, Normal(()))
    case Throw(e) =>
      Step(Reduce(started, FetchError(e)), [FetchStart, FetchError(e)], List, Normal(()))
  }

  /** `addAppointment`: send the wire body without an id, convert the created
      record back to UI shape, append it and return it. Any id the caller put
      on `input` is dropped; the stored id is the one the service assigned.
      Every failure is recorded in `error` and rethrown. */
  function AddAppointment(cal: Calendar, s: State, input: Appointment, reply: Completion<Appointment>): (t: Step<Appointment>)
    ensures t.request.NoRequest? || t.request.Create?
    ensures t.request.Create? <==> CombineDateTime(cal, input.date, input.time).Normal?
    ensures t.request.Create? ==> ToWire(cal, input, None) == Normal(t.request.body)
    ensures t.request.Create? ==> t.request.body.id.None? && t.request.body.title == input.name
    ensures t.request.NoRequest? ==> t.result == Throw(cal.rangeError)
    ensures t.request.Create? && reply.Throw? ==> t.result == Throw(reply.message)
    ensures t.request.Create? && reply.Normal? ==> (t.result.Normal? <==> FromWire(cal, reply.value).Normal?)
    ensures t.request.Create? && reply.Normal? && FromWire(cal, reply.value).Throw? ==> t.result == Throw(cal.rangeError)
    ensures t.result.Normal? ==>
      && reply.Normal?
      && FromWire(cal, reply.value) == Normal(t.result.value)
      && t.result.value.id == reply.value.id
      && t.dispatched == [Add(t.result.value)]
      && t.state == State(s.appointments + [t.result.value], s.loading, s.error)
    ensures t.result.Throw? ==>
      && t.dispatched == [FetchError(t.result.message)]
      && t.state == State(s.appointments, false, Some(t.result.message))
  {
    match ToWire(cal, input, None)
    case Throw(e) => Fail(s, e, NoRequest)
    case Normal(body) =>
      match reply
      case Throw(e) => Fail(s, e, Create(body))
      case Normal(created) =>
        match FromWire(cal, created)
        case Throw(e) => Fail(s, e, Create(body))
        case Normal(record) => Step(Reduce(s, Add(record)), [Add(record)], Create(body), Normal(record))
  }

  /** `deleteAppointment`: ask the service to delete `key`, then dispatch
      DELETE with that same key. A failure is recorded and rethrown. */
  function DeleteAppointment(s: State, key: Option<Id>, reply: Completion<()>): (t: Step<()>)
    ensures t.request == Remove(key)
    ensures reply.Normal? ==>
      && t.result == Normal(())
      && t.dispatched == [Delete(key)]
      && (forall x :: x in t.state.appointments <==> x in s.appointments && x.id != key)
      && t.state.loading == s.loading && t.state.error == s.error
    ensures reply.Throw? ==>
      && t.result == Throw(reply.message)
      && t.dispatched == [FetchError(reply.message)]
      && t.state == State(s.appointments, false, Some(reply.message))
  {
    match reply
    case Throw(e) => Fail(s, e, Remove(key))
    case Normal(_) => Step(Reduce(s, Delete(key)), [Delete(key)], Remove(key), Normal(()))
  }

  /** `updateAppointment`: send the full wire body under the record's own id,
      then dispatch UPDATE with the caller's input (not the service's reply)
      and return that input. A failure is recorded and rethrown. */
  function UpdateAppointment(cal: Calendar, s: State, input: Appointment, reply: Completion<Option<Appointment>>): (t: Step<Appointment>)
    ensures t.request.NoRequest? || t.request.Put?
    ensures t.request.Put? <==> CombineDateTime(cal, input.date, input.time).Normal?
    ensures t.request.Put? ==> ToWire(cal, input, input.id) == Normal(t.request.body)
    ensures t.request.Put? ==> t.request.key == input.id && t.request.body.id == input.id && t.request.body.title == input.name
    ensures t.request.NoRequest? ==> t.result == Throw(cal.rangeError)
    ensures t.request.Put? && reply.Throw? ==> t.result == Throw(reply.message)
    ensures t.request.Put? && reply.Normal? ==> t.result == Normal(input)
    ensures t.result.Normal? ==>
      && reply.Normal?
      && t.result.value == input
      && t.dispatched == [Update(input)]
      && |t.state.appointments| == |s.appointments|
      && (forall i :: 0 <= i < |s.appointments| && s.appointments[i].id == input.id ==> t.state.appointments[i] == input)
      && (forall i :: 0 <= i < |s.appointments| && s.appointments[i].id != input.id ==> t.state.appointments[i] == s.appointments[i])
      && t.state.loading == s.loading && t.state.error == s.error
    ensures t.result.Throw? ==>
      && t.dispatched == [FetchError(t.result.message)]
      && t.state == State(s.appointments, false, Some(t.result.message))
  {
    match ToWire(cal, input, input.id)
    case Throw(e) => Fail(s, e, NoRequest)
    case Normal(body) =>
      match reply
      case Throw(e) => Fail(s, e, Put(input.id, body))
      case Normal(_) => Step(Reduce(s, Update(input)), [Update(input)], Put(input.id, body), Normal(input))
  }

  /** Every operation's final state is the state it started from with its
      dispatches applied in order: the reducer is the only mutation path. */
  lemma OperationsReplayDispatches(cal: Calendar, s: State, input: Appointment, key: Option<Id>,
                                   list: Completion<seq<Appointment>>, created: Completion<Appointment>,
                                   deleted: Completion<()>, updated: Completion<Option<Appointment>>)
    ensures var t := FetchAppointments(s, list); t.state == ApplyAll(s, t.dispatched)
    ensures var t := AddAppointment(cal, s, input, created); t.state == ApplyAll(s, t.dispatched)
    ensures var t := DeleteAppointment(s, key, deleted); t.state == ApplyAll(s, t.dispatched)
    ensures var t := UpdateAppointment(cal, s, input, updated); t.state == ApplyAll(s, t.dispatched)
  {
    var f := FetchAppointments(s, list);
    ApplyAllConcat(s, [FetchStart], [f.dispatched[1]]);
    assert f.dispatched == [FetchStart] + [f.dispatched[1]];
    ApplyAllSingle(s, FetchStart);
    ApplyAllSingle(Reduce(s, FetchStart), f.dispatched[1]);
    ApplyAllSingle(s, AddAppointment(cal, s, input, created).dispatched[0]);
    ApplyAllSingle(s, DeleteAppointment(s, key, deleted).dispatched[0]);
    ApplyAllSingle(s, UpdateAppointment(cal, s, input, updated).dispatched[0]);
  }

  /** A failed remote add or update records the failure's message in `error`,
      lowers `loading`, keeps the list, and rethrows that same message to the
      caller. The requires says the request was sent at all: a date that cannot
      be combined fails before the service is called. */
  lemma FailedWritesRecordAndRethrow(cal: Calendar, s: State, input: Appointment, message: string)
    requires CombineDateTime(cal, input.date, input.time).Normal?
    ensures var t := AddAppointment(cal, s, input, Throw(message));
      t.result == Throw(message) && t.state == State(s.appointments, false, Some(message))
    ensures var t := UpdateAppointment(cal, s, input, Throw(message));
      t.result == Throw(message) && t.state == State(s.appointments, false, Some(message))
  {
  }

  /** A failed remote delete, for any id, records the failure's message in
      `error`, lowers `loading`, keeps the list, and rethrows that message. */
  lemma FailedDeleteRecordsAndRethrows(s: State, key: Option<Id>, message: string)
    ensures var t := DeleteAppointment(s, key, Throw(message));
      t.result == Throw(message) && t.state == State(s.appointments, false, Some(message))
  {
  }

  /** What the service answers to an update does not matter: the store and the
      caller see the caller's own input either way. */
  lemma UpdateIgnoresServerReply(cal: Calendar, s: State, input: Appointment, a: Option<Appointment>, b: Option<Appointment>)
    ensures UpdateAppointment(cal, s, input, Normal(a)) == UpdateAppointment(cal, s, input, Normal(b))
  {
  }

  /** The id on an add's input is never used: adds that differ only in it
      send the same request and end in the same state with the same result. */
  lemma AddIgnoresInputId(cal: Calendar, s: State, input: Appointment, clientId: Option<Id>, reply: Completion<Appointment>)
    ensures AddAppointment(cal, s, input.(id := clientId), reply) == AddAppointment(cal, s, input, reply)
  {
  }

  /** Text fields survive the trip to wire shape and back; the date and time
      do only as far as the calendar's zone allows, which is not claimed. */
  lemma WireTripKeepsText(cal: Calendar, input: Appointment, key: Option<Id>)
    requires ToWire(cal, input, key).Normal?
    requires FromWire(cal, ToWire(cal, input, key).value).Normal?
    ensures var u := FromWire(cal, ToWire(cal, input, key).value).value;
      && u.id == key
      && u.name == input.name
      && u.description == input.description
      && u.attendee == Or(input.attendee, Some(""))
  {
  }
}
