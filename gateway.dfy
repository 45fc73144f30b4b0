/** The `{success, data, message}` envelope every API call resolves to, and how
    the pages read it. The network itself is not modelled: a page method receives
    the envelope (or the exception) its awaited call produced as a parameter. */
module Gateway {
  import opened Wrappers

  /** `response.data` as far as a page reads it: either `data` is missing, or it
      is present and its one interesting field (`categories`, `items`, `stats`,
      `overview`) is present or missing. */
  datatype Payload<T> = Missing | Present(field: Option<T>)

  /** `message` is "" when the gateway sent none (both are falsy). */
  datatype Envelope<T> = Envelope(success: bool, data: Payload<T>, message: string)

  /** What a `catch` clause receives: an `Error` (with `.message`) or any other thrown value. */
  datatype Exception = Error(message: string) | NonError

  /** The admin gateway rejects on transport failure; the public gateway never does. */
  datatype Outcome<T> = Returned(envelope: Envelope<T>) | Threw(exception: Exception)

  /** A stand-in for the message of the `TypeError` raised by reading a property
      of `undefined`; the engine's own text also names the property read. */
  const TypeErrorText: string := "Cannot read properties of undefined"

  /** A read of `data.field` that a page goes on to use as a list or record. */
  datatype Read<T> = Value(value: T) | TypeError

  /** `a || b` on strings: the empty string is falsy. */
  function Or(a: string, b: string): (r: string)
    ensures a != "" ==> r == a
    ensures a == "" ==> r == b
  {
    if a != "" then a else b
  }

  /** `err.message` as the `||` chains read it: undefined for a non-Error. */
  function MessageOf(e: Exception): string
  {
    match e
    case Error(m) => m
    case NonError => ""
  }

  /** `response.data.field`, dereferenced afterwards (`.find`, `.map`, `.length`):
      a `TypeError` when either `data` or the field is missing. */
  function Required<T>(p: Payload<T>): (r: Read<T>)
    ensures r.Value? <==> p.Present? && p.field.Some?
    ensures r.Value? ==> r.value == p.field.value
  {
    match p
    case Missing => TypeError
    case Present(None) => TypeError
    case Present(Some(v)) => Value(v)
  }

  /** `response.data.field || []`: a `TypeError` only when `data` itself is missing. */
  function FieldOrEmpty<T>(p: Payload<seq<T>>): (r: Read<seq<T>>)
    ensures r.TypeError? <==> p.Missing?
    ensures p.Present? && p.field.None? ==> r == Value([])
    ensures p.Present? && p.field.Some? ==> r == Value(p.field.value)
  {
    match p
    case Missing => TypeError
    case Present(f) => Value(f.GetOr([]))
  }

  /** `response.data?.field || []`: never throws. */
  function OptionalFieldOrEmpty<T>(p: Payload<seq<T>>): (r: seq<T>)
    ensures p.Present? && p.field.Some? ==> r == p.field.value
    ensures !(p.Present? && p.field.Some?) ==> r == []
  {
    match p
    case Missing => []
    case Present(f) => f.GetOr([])
  }
}
