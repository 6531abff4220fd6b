/** The closed set of reasons the verifier gives when it rejects an authorization. */
module Reasons {

  datatype Reason =
    | MissingFields
    | InvalidFrom
    | InvalidTo
    | InvalidR
    | InvalidS
    | InvalidV
    | NonPositiveValue
    | NotYetValid
    | Expired
    | InvalidWindow
    | NonceUsed
    | NonceUsedOnChain
    | BalanceUnavailable
    | InsufficientBalance(balance: nat)
    | InvalidSignature
    | SignatureUnrecoverable
  {
    /**
     * The error string the caller receives. For an insufficient balance the source
     * appends the balance in whole tokens and the unit; the model carries the balance
     * in base units as the reason's field instead.
     */
    function Text(): string
    {
      match this
      case MissingFields => "Missing required fields"
      case InvalidFrom => "Invalid from address"
      case InvalidTo => "Invalid to address"
      case InvalidR => "Invalid signature r format"
      case InvalidS => "Invalid signature s format"
      case InvalidV => "Invalid signature v value"
      case NonPositiveValue => "Value must be greater than 0"
      case NotYetValid => "Authorization not yet valid"
      case Expired => "Authorization expired"
      case InvalidWindow => "Invalid time window"
      case NonceUsed => "Nonce already used"
      case NonceUsedOnChain => "Nonce already used on chain"
      case BalanceUnavailable => "Failed to verify balance"
      case InsufficientBalance(_) => "Insufficient balance: "
      case InvalidSignature => "Invalid signature"
      case SignatureUnrecoverable => "Signature verification failed"
    }
  }

  /** Different kinds of rejection are reported with different strings. */
  lemma TextsDistinct(a: Reason, b: Reason)
    requires a.Text() == b.Text()
    ensures a.InsufficientBalance? <==> b.InsufficientBalance?
    ensures !a.InsufficientBalance? ==> a == b
  {
  }
}
