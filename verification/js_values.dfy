/** The few JavaScript value notions the appointment store relies on:
    optional object fields, truthiness of string fields, the `||` operator,
    and the completion of an evaluation (a value, or a thrown error). */
module JsValues {

  /** An object field that may be absent (`undefined`) or present. */
  datatype Option<+T> = None | Some(value: T)

  /** How an evaluation ends, in the terms of ECMAScript's completion records:
      it produces a value, or it throws an error whose `message` is kept.
      A settled promise is read the same way: fulfilled or rejected. */
  datatype Completion<+T> = Normal(value: T) | Throw(message: string)

  /** JavaScript truthiness of an optional string field: present and non-empty. */
  predicate Truthy(v: Option<string>) {
    v.Some? && v.value != ""
  }

  /** JavaScript `a || b` on optional string fields: `a` when it is truthy, `b` otherwise. */
  function Or(a: Option<string>, b: Option<string>): Option<string> {
    if Truthy(a) then a else b
  }

  /** `s.includes("T")` on a field that holds a string; false for an absent field. */
  predicate HasT(v: Option<string>) {
    v.Some? && 'T' in v.value
  }
}
