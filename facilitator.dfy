/**
 * The facilitator's mutable state, the set of consumed nonce keys, with the two
 * operations of the service: verify, which only reads the set, and settle, which
 * re-verifies, submits the transfer, waits for its receipt and only then records
 * the key.
 */
module Facilitator {
  import opened Outcomes
  import opened Text
  import opened Types
  import opened Validation
  import opened ReplayGuard
  import opened Verifier

  /** How a settlement ends: a confirmed transaction, or the error it throws. */
  datatype SettleOutcome =
    | Settled(hash: string, receipt: Receipt)
    | Refused(verdict: Verdict)
    | SubmitFailed
    | ReceiptFailed(hash: string)

  datatype Settlement = Settlement(outcome: SettleOutcome, calls: seq<Call>)

  class Facilitator {
    /** The keys `lower(from) + ":" + nonce` of the authorizations settled so far. */
    var usedNonces: set<string>
    const config: Config

    constructor (config: Config)
      ensures usedNonces == {} && this.config == config
    {
      usedNonces := {};
      this.config := config;
    }

    /** `verifyAuthorization`: reads the set and changes nothing (there is no `modifies`). */
    method Verify(a: Authorization, now: int, lib: Collaborators) returns (r: Verification)
      ensures r == VerifyAuthorization(usedNonces, config, a, now, lib)
      ensures r.verdict.Accepted? ==>
                var c := ValidateAuthorization(a, now, lib.isAddress).auth;
                NonceKey(c.from, c.nonce) !in usedNonces
    {
      r := VerifyAuthorization(usedNonces, config, a, now, lib);
    }

    /** `settleAuthorization` */
    method Settle(a: Authorization, now: int, lib: Collaborators) returns (r: Settlement)
      modifies this
      // a refused verification submits nothing and leaves the set alone
      ensures var v := VerifyAuthorization(old(usedNonces), config, a, now, lib);
              !v.verdict.Accepted? ==>
                r == Settlement(Refused(v.verdict), v.calls) && usedNonces == old(usedNonces)
      // otherwise: submit, wait, and record the key once any receipt comes back
      ensures var v := VerifyAuthorization(old(usedNonces), config, a, now, lib);
              v.verdict.Accepted? ==>
                var c := ValidateAuthorization(a, now, lib.isAddress).auth;
                var submitted := v.calls + [SubmitTransfer(c)];
                match lib.transferWithAuthorization(c)
                case Failure =>
                  r == Settlement(SubmitFailed, submitted) && usedNonces == old(usedNonces)
                case Success(hash) =>
                  match lib.waitForTransactionReceipt(hash)
                  case Failure =>
                    r == Settlement(ReceiptFailed(hash), submitted + [WaitReceipt(hash)]) &&
                    usedNonces == old(usedNonces)
                  case Success(receipt) =>
                    r == Settlement(Settled(hash, receipt), submitted + [WaitReceipt(hash)]) &&
                    usedNonces == old(usedNonces) + {NonceKey(c.from, c.nonce)}
      // the set only grows, and only by the settled pair
      ensures r.outcome.Settled? ==>
                ValidateAuthorization(a, now, lib.isAddress).Valid? &&
                var c := ValidateAuthorization(a, now, lib.isAddress).auth;
                usedNonces == old(usedNonces) + {NonceKey(c.from, c.nonce)} &&
                NonceKey(c.from, c.nonce) !in old(usedNonces)
      ensures !r.outcome.Settled? ==> usedNonces == old(usedNonces)
    {
      var verification := VerifyAuthorization(usedNonces, config, a, now, lib);
      if !verification.verdict.Accepted? {
        return Settlement(Refused(verification.verdict), verification.calls);
      }
      var c := ValidateAuthorization(a, now, lib.isAddress).auth;
      var calls := verification.calls + [SubmitTransfer(c)];
      var submission := lib.transferWithAuthorization(c);
      if submission.Failure? {
        return Settlement(SubmitFailed, calls);
      }
      var hash := submission.value;
      calls := calls + [WaitReceipt(hash)];
      var receipt := lib.waitForTransactionReceipt(hash);
      if receipt.Failure? {
        return Settlement(ReceiptFailed(hash), calls);
      }
      // the key is recorded whatever the receipt's status
      usedNonces := usedNonces + {NonceKey(c.from, c.nonce)};
      r := Settlement(Settled(hash, receipt.value), calls);
    }
  }

  /** Two records that validate and name the same signer (up to case) and the same nonce. */
  predicate SamePair(a: Authorization, now: int, lib: Collaborators,
                     b: Authorization, later: int, lib': Collaborators)
  {
    ValidateAuthorization(a, now, lib.isAddress).Valid? &&
    ValidateAuthorization(b, later, lib'.isAddress).Valid? &&
    EqualsIgnoreCase(ValidateAuthorization(a, now, lib.isAddress).auth.from,
                     ValidateAuthorization(b, later, lib'.isAddress).auth.from) &&
    ValidateAuthorization(a, now, lib.isAddress).auth.nonce ==
      ValidateAuthorization(b, later, lib'.isAddress).auth.nonce
  }

  /**
   * Replay after settlement: once a settle succeeds, verifying and then settling a
   * record with the same signer (up to case) and nonce are both refused as a replay,
   * with no external call and no further change to the set, whatever the chain
   * answers by then.
   */
  method SettleThenReplay(f: Facilitator, a: Authorization, b: Authorization, now: int, later: int,
                          lib: Collaborators, lib': Collaborators)
    returns (first: Settlement, again: Verification, retry: Settlement)
    modifies f
    ensures first.outcome.Settled? && SamePair(a, now, lib, b, later, lib') ==>
              again == Verification(Rejected(Reasons.NonceUsed), []) &&
              retry == Settlement(Refused(Rejected(Reasons.NonceUsed)), [])
    ensures first.outcome.Settled? ==> retry.outcome.Refused? ==> |f.usedNonces - old(f.usedNonces)| == 1
  {
    first := f.Settle(a, now, lib);
    again := f.Verify(b, later, lib');
    retry := f.Settle(b, later, lib');
    if first.outcome.Settled? && SamePair(a, now, lib, b, later, lib') {
      var c := ValidateAuthorization(a, now, lib.isAddress).auth;
      var d := ValidateAuthorization(b, later, lib'.isAddress).auth;
      ReplayRejected(f.usedNonces, f.config, b, later, lib', d, c.from, c.nonce);
    }
  }
}
