/** The appointment records the store holds.

    The store does not fix a record's shape: a record fetched from the server is
    in wire shape (`title`, one combined timestamp in `date`, no `time`), and a
    record the client dispatched itself is in UI shape (`name`, a calendar date in
    `date`, a clock time in `time`). Both are values of one datatype whose
    fields are all optional. */
module Records {
  import opened JsValues

  /** An identifier as JSON carries it: the server's numeric id or a string.
      Strict equality (`===`) between ids is equality of these values, so a
      number never equals a string. */
  datatype Id = Num(n: int) | Text(s: string)

  /** One appointment object; an absent field is `None`. */
  datatype Appointment = Appointment(
    id: Option<Id>,
    title: Option<string>,
    name: Option<string>,
    date: Option<string>,
    time: Option<string>,
    description: Option<string>,
    attendee: Option<string>)

  /** No record of `xs` carries the identifier `key`. */
  predicate NoneWithId(xs: seq<Appointment>, key: Option<Id>) {
    forall i :: 0 <= i < |xs| ==> xs[i].id != key
  }
}
