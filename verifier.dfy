/**
 * The decision of `verifyAuthorization`: validation, the replay guard (local set, then
 * on-chain state), the balance check and signature recovery, in that order. Every
 * external collaborator is a field of `Collaborators`, and every external call the
 * decision makes is recorded, in order, in the returned trace.
 */
module Verifier {
  import opened Outcomes
  import opened Text
  import opened Types
  import opened Reasons
  import opened Validation
  import opened ReplayGuard

  /** The EIP-712 signing domain of the token. */
  datatype Domain = Domain(name: string, version: string, chainId: int, verifyingContract: string)

  /** The typed `TransferWithAuthorization` message whose signature is checked. */
  datatype TransferMessage = TransferMessage(
    from: string, to: string, value: int, validAfter: int, validBefore: int, nonce: string)

  /** A signature in the form handed to recovery, with the parity bit in place of `v`. */
  datatype Signature = Signature(r: string, s: string, yParity: int)

  datatype TxStatus = Succeeded | Reverted

  datatype Receipt = Receipt(status: TxStatus)

  /** The configuration read when the signing domain is built: chain id and token address. */
  datatype Config = Config(chainId: int, token: string)

  /**
   * The collaborators the facilitator consults: viem's address check and typed-data
   * recovery, and the token contract's reads and write with the receipt wait.
   * A `Failure` outcome is a thrown error.
   */
  datatype Collaborators = Collaborators(
    isAddress: string -> bool,
    recoverTypedDataAddress: (Domain, TransferMessage, Signature) -> Outcome<string>,
    authorizationState: (string, string) -> Outcome<nat>,
    balanceOf: string -> Outcome<nat>,
    transferWithAuthorization: Checked -> Outcome<string>,
    waitForTransactionReceipt: string -> Outcome<Receipt>)

  /** One call made to an external collaborator. */
  datatype Call =
    | ReadAuthorizationState(authorizer: string, nonce: string)
    | ReadBalance(account: string)
    | Recover(domain: Domain, message: TransferMessage, signature: Signature)
    | SubmitTransfer(args: Checked)
    | WaitReceipt(hash: string)

  /** What verify answers: `{ ok: true }`, `{ ok: false, error }`, or a thrown conversion error. */
  datatype Verdict = Accepted | Rejected(reason: Reason) | Threw(field: Field)

  datatype Verification = Verification(verdict: Verdict, calls: seq<Call>)

  function DomainOf(cfg: Config): (d: Domain)
    ensures d.name == "JPY Coin" && d.version == "1"
    ensures d.chainId == cfg.chainId && d.verifyingContract == cfg.token
  {
    Domain("JPY Coin", "1", cfg.chainId, cfg.token)
  }

  /** The message is built from the six signed fields of the validated record. */
  function MessageOf(c: Checked): (m: TransferMessage)
    ensures m.from == c.from && m.to == c.to && m.value == c.value
    ensures m.validAfter == c.validAfter && m.validBefore == c.validBefore && m.nonce == c.nonce
  {
    TransferMessage(c.from, c.to, c.value, c.validAfter, c.validBefore, c.nonce)
  }

  /** The legacy recovery ids 27 and 28 become parities 0 and 1; 0 and 1 stay as they are. */
  function YParity(v: int): (p: int)
    ensures v in AcceptedV ==> p in {0, 1}
    ensures v in AcceptedV ==> (p == 0 <==> v in {27, 0})
  {
    if v == 27 || v == 28 then v - 27 else v
  }

  function SignatureOf(c: Checked): (sig: Signature)
    ensures sig.r == c.r && sig.s == c.s && sig.yParity == YParity(c.v)
  {
    Signature(c.r, c.s, YParity(c.v))
  }

  /** On-chain state that marks the nonce as used: a successful read of a non-zero state. */
  predicate UsedOnChain(state: Outcome<nat>)
  {
    state.Success? && state.value != 0
  }

  /** The balance read succeeded and covers the value. */
  predicate Covers(balance: Outcome<nat>, value: int)
  {
    balance.Success? && balance.value >= value
  }

  /** The recovery succeeded and gave the claimed signer, up to letter case. */
  predicate SignedBy(recovered: Outcome<string>, from: string)
  {
    recovered.Success? && EqualsIgnoreCase(recovered.value, from)
  }

  function VerifyAuthorization(used: set<string>, cfg: Config, a: Authorization, now: int,
                               lib: Collaborators): (r: Verification)
    // a record the validator refuses is answered with the validator's verdict, before any call
    ensures ValidateAuthorization(a, now, lib.isAddress).Invalid? ==>
              r == Verification(Rejected(ValidateAuthorization(a, now, lib.isAddress).reason), [])
    ensures ValidateAuthorization(a, now, lib.isAddress).Raised? ==>
              r == Verification(Threw(ValidateAuthorization(a, now, lib.isAddress).field), [])
    // the local replay guard answers before any external read
    ensures ValidateAuthorization(a, now, lib.isAddress).Valid? ==>
              var c := ValidateAuthorization(a, now, lib.isAddress).auth;
              (NonceKey(c.from, c.nonce) in used <==> r.verdict == Rejected(NonceUsed)) &&
              (NonceKey(c.from, c.nonce) in used ==> r.calls == [])
    // past the local guard, each stage's failure gives its own reason, and some call is made
    ensures ValidateAuthorization(a, now, lib.isAddress).Valid? ==>
              var c := ValidateAuthorization(a, now, lib.isAddress).auth;
              var state := lib.authorizationState(c.from, c.nonce);
              var balance := lib.balanceOf(c.from);
              var recovered := lib.recoverTypedDataAddress(DomainOf(cfg), MessageOf(c), SignatureOf(c));
              NonceKey(c.from, c.nonce) !in used ==>
                r.calls != [] &&
                (UsedOnChain(state) ==>
                   r == Verification(Rejected(NonceUsedOnChain), [ReadAuthorizationState(c.from, c.nonce)])) &&
                (!UsedOnChain(state) && balance.Failure? ==>
                   r.verdict == Rejected(BalanceUnavailable)) &&
                (!UsedOnChain(state) && balance.Success? && balance.value < c.value ==>
                   r.verdict == Rejected(InsufficientBalance(balance.value))) &&
                (!UsedOnChain(state) && Covers(balance, c.value) && recovered.Failure? ==>
                   r.verdict == Rejected(SignatureUnrecoverable)) &&
                (!UsedOnChain(state) && Covers(balance, c.value) && recovered.Success? &&
                 !EqualsIgnoreCase(recovered.value, c.from) ==>
                   r.verdict == Rejected(InvalidSignature))
    // every call made comes in this order, and each only after the previous check passed
    ensures r.calls != [] ==>
              var c := ValidateAuthorization(a, now, lib.isAddress).auth;
              ValidateAuthorization(a, now, lib.isAddress).Valid? &&
              NonceKey(c.from, c.nonce) !in used &&
              r.calls[0] == ReadAuthorizationState(c.from, c.nonce) &&
              (|r.calls| > 1 <==> !UsedOnChain(lib.authorizationState(c.from, c.nonce))) &&
              (|r.calls| > 1 ==> r.calls[1] == ReadBalance(c.from)) &&
              (|r.calls| > 2 <==> |r.calls| > 1 && Covers(lib.balanceOf(c.from), c.value)) &&
              (|r.calls| > 2 ==> r.calls[2] == Recover(DomainOf(cfg), MessageOf(c), SignatureOf(c))) &&
              |r.calls| <= 3
    // the asymmetric handling of the two contract reads
    ensures r.verdict == Rejected(NonceUsedOnChain) ==>
              var c := ValidateAuthorization(a, now, lib.isAddress).auth;
              UsedOnChain(lib.authorizationState(c.from, c.nonce))
    ensures r.verdict == Rejected(BalanceUnavailable) ==>
              lib.balanceOf(ValidateAuthorization(a, now, lib.isAddress).auth.from).Failure?
    ensures r.verdict.Rejected? && r.verdict.reason.InsufficientBalance? ==>
              var c := ValidateAuthorization(a, now, lib.isAddress).auth;
              lib.balanceOf(c.from) == Success(r.verdict.reason.balance) && r.verdict.reason.balance < c.value
    // the verdict is ok exactly when every stage passes
    ensures r.verdict.Accepted? <==>
              ValidateAuthorization(a, now, lib.isAddress).Valid? &&
              var c := ValidateAuthorization(a, now, lib.isAddress).auth;
              NonceKey(c.from, c.nonce) !in used &&
              !UsedOnChain(lib.authorizationState(c.from, c.nonce)) &&
              Covers(lib.balanceOf(c.from), c.value) &&
              SignedBy(lib.recoverTypedDataAddress(DomainOf(cfg), MessageOf(c), SignatureOf(c)), c.from)
  {
    var validation := ValidateAuthorization(a, now, lib.isAddress);
    if validation.Invalid? then
      Verification(Rejected(validation.reason), [])
    else if validation.Raised? then
      Verification(Threw(validation.field), [])
    else
      var c := validation.auth;
      if NonceKey(c.from, c.nonce) in used then
        Verification(Rejected(NonceUsed), [])
      else
        var stateRead := [ReadAuthorizationState(c.from, c.nonce)];
        // a failed state read is ignored: only a successful non-zero state rejects
        if UsedOnChain(lib.authorizationState(c.from, c.nonce)) then
          Verification(Rejected(NonceUsedOnChain), stateRead)
        else
          var balanceRead := stateRead + [ReadBalance(c.from)];
          var balance := lib.balanceOf(c.from);
          if balance.Failure? then
            Verification(Rejected(BalanceUnavailable), balanceRead)
          else if balance.value < c.value then
            Verification(Rejected(InsufficientBalance(balance.value)), balanceRead)
          else
            var domain, message, signature := DomainOf(cfg), MessageOf(c), SignatureOf(c);
            var recovery := balanceRead + [Recover(domain, message, signature)];
            var recovered := lib.recoverTypedDataAddress(domain, message, signature);
            if recovered.Failure? then
              Verification(Rejected(SignatureUnrecoverable), recovery)
            else if !EqualsIgnoreCase(recovered.value, c.from) then
              Verification(Rejected(InvalidSignature), recovery)
            else
              Verification(Accepted, recovery)
  }

  /**
   * The signed message binds the six signed fields: two validated records give the same
   * message exactly when `from`, `to`, `value`, `validAfter`, `validBefore` and `nonce`
   * agree. The signature triple does not enter the message.
   */
  lemma MessageBindsSignedFields(c: Checked, d: Checked)
    ensures MessageOf(c) == MessageOf(d) <==>
              c.from == d.from && c.to == d.to && c.value == d.value &&
              c.validAfter == d.validAfter && c.validBefore == d.validBefore && c.nonce == d.nonce
  {
  }

  /**
   * For accepted recovery ids, recovery receives the same signature exactly when `r` and
   * `s` agree and both ids lie in the same class, {27, 0} or {28, 1}.
   */
  lemma SignatureBindsTriple(c: Checked, d: Checked)
    requires c.v in AcceptedV && d.v in AcceptedV
    ensures SignatureOf(c) == SignatureOf(d) <==>
              c.r == d.r && c.s == d.s && (c.v in {27, 0} <==> d.v in {27, 0})
  {
  }

  /**
   * A failed read of the on-chain authorization state changes nothing: the verdict is
   * the one a successful read of state 0 would give.
   */
  lemma StateReadFailureIgnored(used: set<string>, cfg: Config, a: Authorization, now: int,
                                lib: Collaborators, lib': Collaborators, c: Checked)
    requires ValidateAuthorization(a, now, lib.isAddress) == Valid(c)
    requires lib'.isAddress == lib.isAddress && lib'.balanceOf == lib.balanceOf
    requires lib'.recoverTypedDataAddress == lib.recoverTypedDataAddress
    requires lib.authorizationState(c.from, c.nonce) == Failure
    requires lib'.authorizationState(c.from, c.nonce) == Success(0)
    ensures VerifyAuthorization(used, cfg, a, now, lib) == VerifyAuthorization(used, cfg, a, now, lib')
  {
  }

  /**
   * Once the pair of a validated record is in the set, any record with the same
   * signer (up to case) and the same nonce is refused as a replay, before any read.
   */
  lemma ReplayRejected(used: set<string>, cfg: Config, a: Authorization, now: int,
                       lib: Collaborators, c: Checked, from: string, nonce: string)
    requires ValidateAuthorization(a, now, lib.isAddress) == Valid(c)
    requires NonceKey(from, nonce) in used
    requires EqualsIgnoreCase(c.from, from) && c.nonce == nonce
    ensures VerifyAuthorization(used, cfg, a, now, lib) == Verification(Rejected(NonceUsed), [])
  {
  }
}
