/** The cash-value check of the passenger declaration: the converted amount
    of declared cash must reach 10000 for the route to answer 200. */
module CashValue {
  import opened Wrappers
  import opened Js

  const Threshold: real := 10000.0

  /** The currency-conversion call: a non-ok HTTP status, a body that could
      not be parsed (with the parser's message), or the parsed body. */
  datatype ConversionReply = NotOk | Unparsable(message: string) | Parsed(value: Record)

  /** The route's answer: the HTTP status with either the conversion body or
      an error message. */
  datatype CashResponse = CashResponse(status: int, value: Option<Record>, message: Option<string>)

  /** The threshold test `value.converted_amount < 10000`. */
  predicate BelowThreshold(value: Record) {
    LessThan(Get(value, "converted_amount"), Threshold)
  }

  /** The route's decision. */
  function Decide(reply: ConversionReply): (r: CashResponse)
    ensures r.status == 200 || r.status == 500
    ensures r.status == 200 <==> reply.Parsed? && !BelowThreshold(reply.value)
    ensures r.status == 200 ==> r.value == Some(reply.value) && r.message.None?
    ensures reply.NotOk? ==> r == CashResponse(500, None, Some("Failed to fetch data"))
    ensures reply.Unparsable? ==> r == CashResponse(500, None, Some(reply.message))
    ensures reply.Parsed? && BelowThreshold(reply.value) ==> r == CashResponse(500, None, Some("Value is less than 10000"))
  {
    match reply
    case NotOk => CashResponse(500, None, Some("Failed to fetch data"))
    case Unparsable(message) => CashResponse(500, None, Some(message))
    case Parsed(value) =>
      if BelowThreshold(value) then CashResponse(500, None, Some("Value is less than 10000"))
      else CashResponse(200, Some(value), None)
  }

  /** For a numeric amount the route accepts exactly the amounts of at
      least 10000: 10000 itself passes, 5000 does not. */
  lemma NumericThreshold(value: Record, x: real)
    requires Get(value, "converted_amount") == Num(x)
    ensures Decide(Parsed(value)).status == 200 <==> x >= Threshold
  {
  }

  lemma ThresholdExamples()
    ensures Decide(Parsed(map["converted_amount" := Num(10000.0)])).status == 200
    ensures Decide(Parsed(map["converted_amount" := Num(5000.0)])).message == Some("Value is less than 10000")
  {
    var at: Record := map["converted_amount" := Num(10000.0)];
    var below: Record := map["converted_amount" := Num(5000.0)];
    assert Get(at, "converted_amount") == Num(10000.0);
    assert Get(below, "converted_amount") == Num(5000.0);
  }

  /** The comparison lets through what it cannot read as a number: a body
      without `converted_amount` is accepted, while a `null` amount
      compares as 0 and is rejected. */
  lemma MissingAmountIsAccepted(value: Record)
    requires "converted_amount" !in value
    ensures Decide(Parsed(value)).status == 200
    ensures Decide(Parsed(value)).value == Some(value)
  {
  }

  lemma NullAmountIsRejected(value: Record)
    requires Get(value, "converted_amount") == Null
    ensures Decide(Parsed(value)).status == 500
  {
  }
}
