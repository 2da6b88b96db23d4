/** Small shared vocabulary: optional values, notification channels and the
    JavaScript truthiness test the scheduler applies to contact fields. */
module Common {

  /** An optional value; `None` models an absent (`undefined`) TypeScript field. */
  datatype Option<+T> = None | Some(value: T)

  /** The two notification channels a tracked product can ask for. */
  datatype Channel = Email | Sms

  /** `if (field)` on an optional string: true exactly when the field is
      defined and not the empty string. */
  predicate Present(field: Option<string>)
  {
    field.Some? && field.value != ""
  }

  /** Concatenation is associative. */
  lemma ConcatAssoc<T>(x: seq<T>, y: seq<T>, z: seq<T>)
    ensures x + (y + z) == (x + y) + z
  {
  }
}
