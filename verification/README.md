# Appointment store — a Dafny model

This project models the client-side state layer of an appointment-booking
front end (`src/context/AppointmentContext.jsx`). The layer has three parts:

- **The store.** Its state is `{appointments, loading, error}`. A pure reducer is
  the only way to change it. Its actions are FETCH_APPOINTMENTS_START / _SUCCESS /
  _ERROR, ADD_APPOINTMENT, DELETE_APPOINTMENT and UPDATE_APPOINTMENT. Any other
  action type leaves the state as it was.
- **The synchronisation operations.** `fetchAppointments`, `addAppointment`,
  `deleteAppointment` and `updateAppointment` each call the remote service and then
  dispatch into the store. Here each one is a pure function. It takes the state and
  the settled outcome of the remote call (`Normal(v)` or `Throw(message)`). It
  returns a `Step`: the new state, the actions dispatched, the request sent, and
  what the caller sees (a value, or the rethrown error).
- **The read-time projection.** The store holds records in two shapes. Wire
  records have `title` and one combined timestamp. UI records have `name`, a
  calendar `date` and a clock `time`. The view passes every record through one
  normalisation, which decides by whether `date` contains a `"T"`.

`Date` behaviour depends on the local time zone and the clock. That part is a
`Calendar` value the caller passes in. It parses a timestamp (into its UTC ISO text
and its local hour and minute), combines a date with a time, gives the current
instant, and supplies the message of the RangeError an invalid date throws. What the code does with those answers is modelled exactly:
`split("T")[0]`, `toString()`, `padStart(2, "0")`, and the `||` fallbacks.

Files: `js_values.dfy` (optional fields, truthiness, completions), `records.dfy`,
`timestamps.dfy`, `store.dfy`, `sync.dfy`, `projection.dfy`, `scenarios.dfy`.

Behaviour of the code worth knowing:

- A failed write dispatches FETCH_APPOINTMENTS_ERROR, and that action also sets
  `loading` to false. So a failed add, delete or update lowers `loading` too.
- FETCH_APPOINTMENTS_SUCCESS does not clear `error`. An old error message stays
  after a later successful fetch.
- The projection prefers a truthy `title` over `name`. It does not only fall back
  to `title` when `name` is absent.
- DELETE_APPOINTMENT removes every record with the id, not just the first one.
- An unknown action leaves the state unchanged. No error is raised.
- `addAppointment` never sends the id on its input. The stored id is the one the
  service returns. So the client-generated id that `src/pages/Home.jsx` puts on a
  new record is dropped (`Sync.AddIgnoresInputId`).

## Model

| member | source | states |
|---|---|---|
| `Store.Without` | src/context/AppointmentContext.jsx:33-35 | the filtered list is no longer than the input; it holds exactly the records whose id differs from the key, with their multiplicities; it equals the input when no id matches |
| `Store.Replace` | src/context/AppointmentContext.jsx:40-42 | the mapped list has the input's length; every index whose id matches holds the payload; every other index holds its original record |
| `Store.InitialIsIdle` | src/context/AppointmentContext.jsx:10-14 | the store starts with no appointments, not loading and with no error |
| `Store.Reduce` | src/context/AppointmentContext.jsx:17-47 | only the three fetch actions change `loading` (START sets it, SUCCESS and ERROR clear it); only FETCH_APPOINTMENTS_ERROR changes `error`; START, ERROR and unknown actions keep the list |
| `Store.ApplyAll` | src/context/AppointmentContext.jsx:54 | dispatching actions in order: a batch without FETCH_APPOINTMENTS_ERROR keeps `error`, and a batch without fetch actions keeps `loading` |
| `Store.FetchStartSetsLoading` | src/context/AppointmentContext.jsx:19-20 | FETCH_APPOINTMENTS_START sets `loading` and leaves the list and `error` alone |
| `Store.FetchSuccessReplacesList` | src/context/AppointmentContext.jsx:21-22 | FETCH_APPOINTMENTS_SUCCESS replaces the list with the payload and clears `loading`; `error` is kept |
| `Store.FetchErrorRecordsMessage` | src/context/AppointmentContext.jsx:23-24 | FETCH_APPOINTMENTS_ERROR stores the message in `error` and clears `loading`; the list is untouched |
| `Store.AddAppends` | src/context/AppointmentContext.jsx:25-29 | ADD_APPOINTMENT makes the list one longer; the old list is a prefix; the payload is last; `loading` and `error` are unchanged |
| `Store.DeleteRemovesMatches` | src/context/AppointmentContext.jsx:30-36 | DELETE_APPOINTMENT keeps exactly the records with another id, as a subsequence of the old list; it never grows the list; it is a no-op when nothing matches |
| `Store.UpdateReplacesMatches` | src/context/AppointmentContext.jsx:37-43 | UPDATE_APPOINTMENT keeps the length; matching records become the payload; others stay at their index; it is a no-op when nothing matches |
| `Store.UnrecognizedIsIdentity` | src/context/AppointmentContext.jsx:44-45 | an action of any other type returns the state unchanged |
| `Store.WithoutConcat` | src/context/AppointmentContext.jsx:33-35 | filtering a concatenation is the concatenation of the filtered parts, so survivors keep their relative order |
| `Store.WithoutIsSubsequence` | src/context/AppointmentContext.jsx:33-35 | the survivors of a delete form a subsequence of the original list |
| `Store.DeleteIdempotent` | src/context/AppointmentContext.jsx:30-36 | deleting the same id twice gives the same state as deleting it once |
| `Store.AddThenDeleteRestores` | src/context/AppointmentContext.jsx:25-36 | adding a record with a new id and then deleting that id restores the earlier state |
| `Store.UpdateKeepsIds` | src/context/AppointmentContext.jsx:40-42 | an update never changes the id at any index |
| `Store.UpdateIdempotent` | src/context/AppointmentContext.jsx:37-43 | applying the same update twice gives the same state as applying it once |
| `Store.FetchThenAddKeepsOrder` | src/context/AppointmentContext.jsx:21-29 | after a fetched list and then an add, the list is the fetched list followed by the added record |
| `Timestamps.Decimal` | src/context/AppointmentContext.jsx:152-154 | `toString()` of a non-negative integer is a non-empty digit string with no leading zero; it has one digit exactly when the number is below ten |
| `Timestamps.DecimalRoundTrip` | src/context/AppointmentContext.jsx:152-154 | reading the decimal text back gives the number |
| `Timestamps.PadStart2` | src/context/AppointmentContext.jsx:152-155 | `padStart(2, "0")` keeps text of length two or more; shorter text becomes two characters, the original at the end and '0' in front |
| `Timestamps.TwoDigits` | src/context/AppointmentContext.jsx:152-155 | `padStart(2, "0")` of a number below 100 is two digits whose value is the number; from 100 on, the text is not cut |
| `Timestamps.ClockText` | src/context/AppointmentContext.jsx:152-155 | the formatted time has five characters, "HH:MM", both parts zero-padded, and reads back as the same hour and minute |
| `Timestamps.UpToFirstT` | src/context/AppointmentContext.jsx:145 | `split("T")[0]` has no 'T', is a prefix of its input, and ends at the input's end or at a 'T' |
| `Timestamps.UpToFirstTEndsAtFirstT` | src/context/AppointmentContext.jsx:145 | `split("T")[0]` is exactly the prefix before the first 'T' |
| `Timestamps.CombineDateTime` | src/context/AppointmentContext.jsx:128-139 | with no date the result is the current instant; otherwise it is the platform's combination of the date with the time (when the time is truthy), and it fails exactly when the platform cannot combine, then only with the RangeError message |
| `Timestamps.FormatDate` | src/context/AppointmentContext.jsx:142-146 | a falsy argument gives ""; an unparseable one throws the RangeError; otherwise the result is all of the ISO text before its first 'T' |
| `Timestamps.FormatTime` | src/context/AppointmentContext.jsx:149-156 | a falsy argument gives ""; an unparseable one gives "NaN:NaN"; otherwise the text reads back as the local hour and minute |
| `Sync.ToWire` | src/context/AppointmentContext.jsx:70-75 | the wire body carries `name` as `title`, the combined timestamp, the description and a present attendee (a falsy one becomes ""); it carries no `name` or `time`; it fails only when combining fails |
| `Sync.FromWire` | src/context/AppointmentContext.jsx:80-87 | the UI record keeps the id, takes `title` as `name`, has as date all of the ISO text before its first 'T', and a clock time reading back as the local hour and minute; it throws exactly when the timestamp is not a date |
| `Sync.Fail` | src/context/AppointmentContext.jsx:91-94 | the catch block dispatches only FETCH_APPOINTMENTS_ERROR; the list is kept, `loading` is cleared, the message is recorded and rethrown |
| `Sync.FetchAppointments` | src/context/AppointmentContext.jsx:57-65 | a fetch never throws; it dispatches START then SUCCESS with the reply or ERROR with the rejection's message, and ends with `loading` cleared; on success the list is the reply and `error` is kept; on failure the list is kept and the message recorded |
| `Sync.AddAppointment` | src/context/AppointmentContext.jsx:67-95 | a create request is sent exactly when combining date and time succeeds, and its body is the wire form of the input without an id; with a successful reply the add succeeds exactly when the reply decodes, and otherwise throws the platform's RangeError message; on success the decoded server record (with the server's id) is appended and returned; on failure only the error action is dispatched, the list is kept and the message rethrown |
| `Sync.DeleteAppointment` | src/context/AppointmentContext.jsx:97-105 | the request and the DELETE dispatch use the same id; on success exactly the records with that id are gone; on failure the list is kept and the message recorded and rethrown |
| `Sync.UpdateAppointment` | src/context/AppointmentContext.jsx:107-125 | a PUT is sent exactly when combining date and time succeeds, to the input's own id with the wire form of the input as body; a successful reply makes the update return the caller's input; a combining failure throws the platform's RangeError message; on success the caller's input is dispatched and returned, matching records become it and the others stay put; on failure the list is kept and the message recorded and rethrown |
| `Sync.OperationsReplayDispatches` | src/context/AppointmentContext.jsx:57-125 | each operation's final state is its starting state with its dispatched actions applied in order |
| `Sync.FailedWritesRecordAndRethrow` | src/context/AppointmentContext.jsx:91-124 | a rejected add or update (once its date combined) records the rejection's message, keeps the list, and rethrows that same message |
| `Sync.FailedDeleteRecordsAndRethrows` | src/context/AppointmentContext.jsx:101-104 | a rejected delete records the rejection's message, keeps the list, and rethrows that same message |
| `Sync.UpdateIgnoresServerReply` | src/context/AppointmentContext.jsx:118-120 | an update ends the same way whatever the service answers on success |
| `Sync.AddIgnoresInputId` | src/context/AppointmentContext.jsx:70-81 | the input's id has no effect on an add's request, state or result |
| `Sync.WireTripKeepsText` | src/context/AppointmentContext.jsx:70-87 | converting to wire shape and back keeps the id given, the name, the description and the attendee (defaulted to "") |
| `Projection.Normalize` | src/context/AppointmentContext.jsx:159-176 | it keeps id, description and attendee; `name` is a truthy `title`, else `name`; a date without 'T' passes through; a 'T' date becomes all of its ISO text before the first 'T'; `time` is a truthy stored time, else the timestamp's local clock time, else ""; it throws the platform's RangeError message, exactly when a 'T' date is not a date |
| `Projection.View` | src/context/AppointmentContext.jsx:158-176 | the exposed `appointments` has one normalised record per stored record, in stored order, and throws the platform's RangeError message, exactly when some stored record's normalisation throws |
| `Projection.Project` | src/context/AppointmentContext.jsx:158-176 | the view has the list's length and normalises each record in place; it throws the platform's RangeError message, exactly when some record's normalisation throws |
| `Projection.ViewAfterAdd` | src/context/AppointmentContext.jsx:25-29 | after ADD_APPOINTMENT the view is the earlier view followed by the added record's normalisation |
| `Projection.NormalizeIdempotent` | src/context/AppointmentContext.jsx:159-176 | normalising a normalised record changes nothing |
| `Projection.ProjectIdempotent` | src/context/AppointmentContext.jsx:158-176 | the view of a view is the view |
| `Projection.UiShapedRecordsPassThrough` | src/context/AppointmentContext.jsx:161-173 | a UI-shaped record without a truthy title or a 'T' date is shown as stored, except that `title` is dropped and a falsy time shows as "" |
| `Scenarios.DentistIsShownSplit` | src/context/AppointmentContext.jsx:158-176 | in UTC, a fetched wire record "Dentist" at 2024-05-01T09:30:00Z is shown with date "2024-05-01" and time "09:30" |
| `Scenarios.DemoAddIsStored` | src/context/AppointmentContext.jsx:67-90 | an add answered with id 42 sends a body without an id and leaves an empty store holding exactly one record, id 42, named "Demo" |

## Left out

- HTTP transport and JSON parsing (`src/api.js`). A remote call is modelled only by its settled outcome. `api.js` does not check the response status, so an HTTP error answered with a JSON body reaches the store as a success. The model covers that as whatever `Normal` reply the caller supplies.
- Every successful reply is taken to be a record (for add) or a list of records (for fetch). A `null` reply would make `addAppointment` throw a TypeError, which is not modelled.
- A fetched JSON reply that is not an array would make the view's `.map` fail; that case is not modelled.
- Field values other than strings and ids (numbers in text fields, `null`, nested objects) are not modelled. Ids are numbers or strings, compared with `===`. NaN ids are not modelled.
- The `instanceof Date` branch of the projection is not modelled. Stored dates are always strings: they come from JSON replies, from `formatDate`, or from form fields.
- The internals of `combineDateTime`, `new Date(...)`, `getHours`/`getMinutes` and `toISOString` are not modelled. They depend on the time zone, the clock and the engine, so they are the `Calendar` parameter. This includes the text of the RangeError `toISOString` throws: ECMAScript does not fix it, and V8's "Invalid time value" is used only in the worked scenarios. For the same reason, the date/time round trip through wire shape is not claimed.
- React plumbing is not modelled: `useReducer`, the context provider, and the `useAppointments` lookup with its "must be used within" error.
- Concurrency is not modelled. Each operation runs as if nothing else dispatched between its awaits. Out-of-order resolution and dispatches after unmount are out of scope.
- `src/pages/Home.jsx` and `src/App.jsx` are not modelled. They are UI: forms, modals and `window.confirm`. `App.jsx` also talks to the service without the store.
