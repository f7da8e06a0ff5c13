/**
  The shape of an answer from the WHOIS collaborator: an open-ended map from
  vendor-specific field names to values, kept in JavaScript's property
  enumeration order.
*/
module Whois {
  import opened Wrappers

  /** Milliseconds since the Unix epoch. */
  type Time = int

  /**
    A field value. Strings are kept with their text, which the substring scan
    reads. Every other JSON value (number, array, nested object, boolean,
    null) is an opaque token `id` together with its JavaScript truthiness:
    the search itself only tests truthiness, and the date parser receives the
    token, so distinct values, such as an object and an epoch number, may
    parse differently.
  */
  datatype Value = Str(text: string) | Other(id: nat, truthy: bool)

  datatype Field = Field(name: string, value: Value)

  /** The fields in the order `for ... in` visits them. */
  type Record = seq<Field>

  /** What the WHOIS call gave back: a field map, or a thrown error's message. */
  datatype Lookup = Answer(record: Record) | LookupError(message: string)

  /**
    `new Date(v)` followed by the `isNaN(date.getTime())` test: the instant
    the value denotes, or None for an invalid date.
  */
  type Parser = Value -> Option<Time>

  predicate Truthy(v: Value) {
    match v
    case Str(text) => text != ""
    case Other(_, truthy) => truthy
  }

  /** `whoisData[name]`: the value bound to `name`, if any. */
  function FieldValue(rec: Record, name: string): (r: Option<Value>)
    ensures r.Some? ==> Field(name, r.value) in rec
    ensures r.None? ==> forall f :: f in rec ==> f.name != name
  {
    if rec == [] then None
    else if rec[0].name == name then Some(rec[0].value)
    else FieldValue(rec[1..], name)
  }
}
