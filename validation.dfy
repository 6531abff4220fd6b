/**
 * The field validator of `validateAuthorization`: deterministic guards over the
 * authorization record, checked in a fixed order, the first failure winning.
 * The wall clock is the parameter `now` (whole seconds), and viem's `isAddress`
 * is the parameter `isAddress`.
 */
module Validation {
  import opened Outcomes
  import opened Text
  import opened Types
  import opened Reasons

  /** The recovery identifiers accepted for `v`. */
  const AcceptedV: set<int> := {27, 28, 0, 1}

  /** The shape demanded of `r` and `s`: `0x` followed by 64 characters. */
  predicate IsWord(x: string)
  {
    StartsWith(x, "0x") && |x| == 66
  }

  /** A numeric field whose `BigInt` conversion throws. */
  datatype Field = Value | ValidAfter | ValidBefore

  /** An authorization whose fields passed every check, with its numbers parsed. */
  datatype Checked = Checked(
    from: string,
    to: string,
    value: int,
    validAfter: int,
    validBefore: int,
    nonce: string,
    v: int,
    r: string,
    s: string)

  /**
   * The outcome of validation: the record is valid, it is rejected with a reason,
   * or converting one of its numeric fields throws.
   */
  datatype Validation = Valid(auth: Checked) | Invalid(reason: Reason) | Raised(field: Field)

  function ValidateAuthorization(a: Authorization, now: int, isAddress: string -> bool): (res: Validation)
    ensures res.Valid? ==>
      var c := res.auth;
      a.from == Some(c.from) && a.to == Some(c.to) && a.nonce == Some(c.nonce) &&
      a.v == Some(c.v) && a.r == Some(c.r) && a.s == Some(c.s) &&
      BigInt(a.value) == Some(c.value) && BigInt(a.validAfter) == Some(c.validAfter) &&
      BigInt(a.validBefore) == Some(c.validBefore) &&
      c.from != "" && c.to != "" && c.nonce != "" &&
      isAddress(c.from) && isAddress(c.to) && IsWord(c.r) && IsWord(c.s) && c.v in AcceptedV &&
      c.value > 0 && c.validAfter <= now <= c.validBefore && c.validAfter < c.validBefore
    ensures res.Raised? <==>
      Present(a.from) && Present(a.to) && a.value.Truthy() && Present(a.nonce) && a.v.Some? &&
      Present(a.r) && Present(a.s) && isAddress(a.from.value) && isAddress(a.to.value) &&
      IsWord(a.r.value) && IsWord(a.s.value) && a.v.value in AcceptedV &&
      (a.value.Malformed? ||
       (BigInt(a.value).value > 0 && (BigInt(a.validAfter).None? || BigInt(a.validBefore).None?)))
  {
    if !Present(a.from) || !Present(a.to) || !a.value.Truthy() || !Present(a.nonce)
       || a.v.None? || !Present(a.r) || !Present(a.s) then
      Invalid(MissingFields)
    else if !isAddress(a.from.value) then
      Invalid(InvalidFrom)
    else if !isAddress(a.to.value) then
      Invalid(InvalidTo)
    else if !IsWord(a.r.value) then
      Invalid(InvalidR)
    else if !IsWord(a.s.value) then
      Invalid(InvalidS)
    else if a.v.value !in AcceptedV then
      Invalid(InvalidV)
    else
      var value := BigInt(a.value);
      if value.None? then
        Raised(Value)
      else if value.value <= 0 then
        Invalid(NonPositiveValue)
      else
        var validAfter := BigInt(a.validAfter);
        var validBefore := BigInt(a.validBefore);
        if validAfter.None? then
          Raised(ValidAfter)
        else if validBefore.None? then
          Raised(ValidBefore)
        else if validAfter.value > now then
          Invalid(NotYetValid)
        else if validBefore.value < now then
          Invalid(Expired)
        else if validAfter.value >= validBefore.value then
          Invalid(InvalidWindow)
        else
          Valid(Checked(a.from.value, a.to.value, value.value, validAfter.value, validBefore.value,
                        a.nonce.value, a.v.value, a.r.value, a.s.value))
  }

  /*
   * An independent statement of the validator: each check on its own, its rank in
   * the order of evaluation, and what the validator reports when it fails.
   */

  datatype Check =
    | Presence | FromAddress | ToAddress | RShape | SShape | VRange
    | ValueParses | ValuePositive | ValidAfterParses | ValidBeforeParses
    | Started | NotExpired | Window
  {
    function Rank(): nat
    {
      match this
      case Presence => 0
      case FromAddress => 1
      case ToAddress => 2
      case RShape => 3
      case SShape => 4
      case VRange => 5
      case ValueParses => 6
      case ValuePositive => 7
      case ValidAfterParses => 8
      case ValidBeforeParses => 9
      case Started => 10
      case NotExpired => 11
      case Window => 12
    }

    function OnFailure(): Validation
    {
      match this
      case Presence => Invalid(MissingFields)
      case FromAddress => Invalid(InvalidFrom)
      case ToAddress => Invalid(InvalidTo)
      case RShape => Invalid(InvalidR)
      case SShape => Invalid(InvalidS)
      case VRange => Invalid(InvalidV)
      case ValueParses => Raised(Value)
      case ValuePositive => Invalid(NonPositiveValue)
      case ValidAfterParses => Raised(ValidAfter)
      case ValidBeforeParses => Raised(ValidBefore)
      case Started => Invalid(NotYetValid)
      case NotExpired => Invalid(Expired)
      case Window => Invalid(InvalidWindow)
    }
  }

  /** Whether the record satisfies one check, judged on its own. */
  predicate Passes(c: Check, a: Authorization, now: int, isAddress: string -> bool)
  {
    match c
    case Presence =>
      Present(a.from) && Present(a.to) && a.value.Truthy() && Present(a.nonce) &&
      a.v.Some? && Present(a.r) && Present(a.s)
    case FromAddress => a.from.Some? && isAddress(a.from.value)
    case ToAddress => a.to.Some? && isAddress(a.to.value)
    case RShape => a.r.Some? && IsWord(a.r.value)
    case SShape => a.s.Some? && IsWord(a.s.value)
    case VRange => a.v.Some? && a.v.value in AcceptedV
    case ValueParses => BigInt(a.value).Some?
    case ValuePositive => BigInt(a.value).Some? && BigInt(a.value).value > 0
    case ValidAfterParses => BigInt(a.validAfter).Some?
    case ValidBeforeParses => BigInt(a.validBefore).Some?
    case Started => BigInt(a.validAfter).Some? && BigInt(a.validAfter).value <= now
    case NotExpired => BigInt(a.validBefore).Some? && now <= BigInt(a.validBefore).value
    case Window =>
      BigInt(a.validAfter).Some? && BigInt(a.validBefore).Some? &&
      BigInt(a.validAfter).value < BigInt(a.validBefore).value
  }

  /** Every check before `c` in the order of evaluation passes. */
  predicate PassesBefore(c: Check, a: Authorization, now: int, isAddress: string -> bool)
  {
    forall d: Check :: d.Rank() < c.Rank() ==> Passes(d, a, now, isAddress)
  }

  /**
   * The validator accepts exactly the records that pass every check, and otherwise
   * reports the failure of the first check, in the order above, that the record fails.
   */
  lemma {:induction false} ValidateReportsFirstFailure(a: Authorization, now: int, isAddress: string -> bool)
    ensures ValidateAuthorization(a, now, isAddress).Valid? <==>
              forall c: Check :: Passes(c, a, now, isAddress)
    ensures !ValidateAuthorization(a, now, isAddress).Valid? ==>
              exists c: Check :: !Passes(c, a, now, isAddress) && PassesBefore(c, a, now, isAddress) &&
                                 ValidateAuthorization(a, now, isAddress) == c.OnFailure()
  {
    var res := ValidateAuthorization(a, now, isAddress);
    var first: Check;
    if !Passes(Presence, a, now, isAddress) {
      first := Presence;
    } else if !Passes(FromAddress, a, now, isAddress) {
      first := FromAddress;
    } else if !Passes(ToAddress, a, now, isAddress) {
      first := ToAddress;
    } else if !Passes(RShape, a, now, isAddress) {
      first := RShape;
    } else if !Passes(SShape, a, now, isAddress) {
      first := SShape;
    } else if !Passes(VRange, a, now, isAddress) {
      first := VRange;
    } else if !Passes(ValueParses, a, now, isAddress) {
      first := ValueParses;
    } else if !Passes(ValuePositive, a, now, isAddress) {
      first := ValuePositive;
    } else if !Passes(ValidAfterParses, a, now, isAddress) {
      first := ValidAfterParses;
    } else if !Passes(ValidBeforeParses, a, now, isAddress) {
      first := ValidBeforeParses;
    } else if !Passes(Started, a, now, isAddress) {
      first := Started;
    } else if !Passes(NotExpired, a, now, isAddress) {
      first := NotExpired;
    } else if !Passes(Window, a, now, isAddress) {
      first := Window;
    } else {
      assert res.Valid?;
      return;
    }
    assert PassesBefore(first, a, now, isAddress);
    assert res == first.OnFailure();
  }

  /** A window that is empty or reversed is rejected, whatever the other fields hold. */
  lemma EmptyWindowRejected(a: Authorization, now: int, isAddress: string -> bool, after: int, before: int)
    requires BigInt(a.validAfter) == Some(after) && BigInt(a.validBefore) == Some(before)
    requires after >= before
    ensures !ValidateAuthorization(a, now, isAddress).Valid?
  {
  }

  /**
   * A record whose `validBefore` equals `now` is still accepted when everything else
   * holds: the expiry guard compares with `<`.
   */
  lemma ExpiryIsInclusive(a: Authorization, now: int, isAddress: string -> bool)
    requires forall c: Check :: c != NotExpired ==> Passes(c, a, now, isAddress)
    requires BigInt(a.validBefore) == Some(now)
    ensures ValidateAuthorization(a, now, isAddress).Valid?
  {
    assert Passes(Presence, a, now, isAddress) && Passes(Started, a, now, isAddress);
    assert Passes(FromAddress, a, now, isAddress) && Passes(ToAddress, a, now, isAddress);
    assert Passes(RShape, a, now, isAddress) && Passes(SShape, a, now, isAddress);
    assert Passes(VRange, a, now, isAddress) && Passes(ValuePositive, a, now, isAddress);
    assert Passes(Window, a, now, isAddress);
  }
}
