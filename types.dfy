/** The request record of a transfer-with-authorization, as the transport layer hands it over. */
module Types {
  import opened Outcomes

  /**
   * A numeric field (`value`, `validAfter`, `validBefore`) as it arrives in JSON:
   * absent, the empty string, text or a number that `BigInt` refuses, or an integer.
   */
  datatype Numeric = Undefined | EmptyText | Malformed | Integer(n: int)
  {
    /** JavaScript truthiness of the field when it holds a string. */
    predicate Truthy()
    {
      !Undefined? && !EmptyText?
    }
  }

  /** `BigInt(x)`: `None` when the conversion throws. The empty string converts to 0. */
  function BigInt(x: Numeric): (r: Option<int>)
    ensures r.None? <==> x.Undefined? || x.Malformed?
    ensures x.EmptyText? ==> r == Some(0)
    ensures x.Integer? ==> r == Some(x.n)
  {
    match x
    case Undefined => None
    case EmptyText => Some(0)
    case Malformed => None
    case Integer(n) => Some(n)
  }

  /** JavaScript truthiness of a string field that may be absent. */
  predicate Present(x: Option<string>)
  {
    x.Some? && x.value != ""
  }

  /** The nine fields of an authorization; any of them may be missing from the request. */
  datatype Authorization = Authorization(
    from: Option<string>,
    to: Option<string>,
    value: Numeric,
    validAfter: Numeric,
    validBefore: Numeric,
    nonce: Option<string>,
    v: Option<int>,
    r: Option<string>,
    s: Option<string>)
}
