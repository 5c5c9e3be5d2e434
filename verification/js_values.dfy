/** Values as the pages see them: fields that may be null or missing, remote calls that
    may throw, and JavaScript's `||` defaulting on falsy values. */
module JsValues {

  /** A field that may be null or missing. */
  datatype Option<+T> = None | Some(value: T)

  /** The settled outcome of an awaited remote call: its value, or a thrown error and its message. */
  datatype Outcome<+T> = Ok(value: T) | Threw(message: string)

  /** `x || d` for a string field: a missing field and the empty string are both falsy. */
  function OrElse(x: Option<string>, d: string): (r: string)
    ensures r == d || (x.Some? && r == x.value)
    ensures x.Some? && x.value != "" ==> r == x.value
    ensures (x.None? || x.value == "") ==> r == d
  {
    if x.Some? && x.value != "" then x.value else d
  }

  /** `x || 0` for a numeric field: a missing field and 0 both give 0. */
  function OrZero(x: Option<int>): (r: int)
    ensures x.Some? ==> r == x.value
    ensures x.None? ==> r == 0
  {
    if x.Some? && x.value != 0 then x.value else 0
  }

  /** `data?.length || 0` and friends: a query that returned null behaves as an empty list. */
  function OrEmpty<T>(data: Option<seq<T>>): (r: seq<T>)
    ensures data.Some? ==> r == data.value
    ensures data.None? ==> r == []
  {
    if data.Some? then data.value else []
  }
}
