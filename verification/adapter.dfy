/** The decision the tick makes on the backend's reply: use the reported
    `value` when it is present and truthy, otherwise the fallback 400.
    The fetch itself is abstracted into a `Reply`.
 */
module Adapter {
  import opened Numerals

  const Fallback := 400

  /** The `value` field of the parsed JSON body, as far as an integer model
      can see it: missing, `null`, a boolean, an integral number, or a string
      of decimal digits. */
  datatype Field = Absent | Null | Bool(b: bool) | Num(n: int) | Text(digits: Digits)

  /** What `await response.json()` delivered: nothing (the fetch or the parse
      threw), the JSON literal `null`, or an object with a `value` field. */
  datatype Reply = Unreachable | JsonNull | JsonObject(value: Field)

  /** JavaScript truthiness of the field: `undefined`, `null`, `false`, `0`
      and `""` are falsy. */
  predicate Truthy(f: Field) {
    match f
    case Absent => false
    case Null => false
    case Bool(b) => b
    case Num(n) => n != 0
    case Text(s) => s != ""
  }

  /** `Number(f)` for a truthy field. */
  function ToNumber(f: Field): int
    requires Truthy(f)
  {
    match f
    case Bool(_) => 1
    case Num(n) => n
    case Text(s) => DecimalValue(s)
  }

  /** The value S1 shows for this tick. */
  function ExternalReading(reply: Reply): (r: int)
    ensures r != Fallback ==> reply.JsonObject? && Truthy(reply.value)
    ensures reply.JsonObject? && reply.value.Num? && reply.value.n != 0 ==> r == reply.value.n
  {
    if reply.JsonObject? && Truthy(reply.value) then ToNumber(reply.value) else Fallback
  }

  /** A failed fetch, a `null` body, or a missing, null, false or zero `value`
      all fall back to 400; so does an empty string. */
  lemma FallbackCases()
    ensures ExternalReading(Unreachable) == Fallback
    ensures ExternalReading(JsonNull) == Fallback
    ensures ExternalReading(JsonObject(Absent)) == Fallback
    ensures ExternalReading(JsonObject(Null)) == Fallback
    ensures ExternalReading(JsonObject(Bool(false))) == Fallback
    ensures ExternalReading(JsonObject(Num(0))) == Fallback
    ensures ExternalReading(JsonObject(Text(""))) == Fallback
  {
  }

  /** Any non-zero number the relay reports reaches S1 unchanged; a zero is
      indistinguishable from an outage. */
  lemma ReportedNumberPassesThrough(n: int)
    ensures ExternalReading(JsonObject(Num(n))) == (if n == 0 then Fallback else n)
  {
  }

  /** A reading the device sends as text (a form-encoded post) reaches S1 as
      its number, including "0", which, unlike the number 0, is truthy. */
  lemma ReportedTextPassesThrough(n: nat)
    ensures ExternalReading(JsonObject(Text(DecimalText(n)))) == n
  {
    DecimalRoundTrip(n);
  }

  /** The reading is the fallback exactly when the reply carries no usable
      value, or carries the value 400 itself. */
  lemma FallbackIffNoValue(reply: Reply)
    ensures ExternalReading(reply) == Fallback <==>
            !(reply.JsonObject? && Truthy(reply.value)) || ToNumber(reply.value) == Fallback
  {
  }
}
