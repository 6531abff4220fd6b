# JPYC x402 facilitator: verify and settle, modelled in Dafny

This project models the core of a facilitator for EIP-3009 "transfer with
authorization" on the JPY Coin token. A token holder signs an EIP-712 typed
`TransferWithAuthorization` message. The facilitator checks the signed request
(`verify`). It then submits the transfer on the holder's behalf and waits for
the transaction receipt (`settle`). A process-wide set of consumed
`lower(from) + ":" + nonce` keys guards against replay. The start-up check of
the configuration (`validateEnv`) is modelled as well.

Modules, one per component:

- `Outcomes` holds `Option` (a JavaScript `undefined`) and `Outcome` (a collaborator's value or thrown error).
- `Text` holds `startsWith` and ASCII `toLowerCase`.
- `Types` holds the nine-field request record. `BigInt` conversion of its numeric fields can throw.
- `Reasons` holds the closed set of rejection reasons and their error strings.
- `Validation` holds `validateAuthorization`, together with an independent, check-by-check statement of the same rules.
- `ReplayGuard` holds the nonce key.
- `Verifier` holds the decision of `verifyAuthorization`. Every external read is an oracle result, and every external call is recorded in a trace.
- `Facilitator` holds the class that owns `usedNonces`. Its methods are `Verify` (reads only) and `Settle` (the only mutation).
- `Env` holds `validateEnv` over an explicit environment map.

The collaborators are fields of the datatype `Verifier.Collaborators`:
- viem's `isAddress`;
- `recoverTypedDataAddress`;
- the contract reads `authorizationState` and `balanceOf`;
- the contract write `transferWithAuthorization`;
- `waitForTransactionReceipt`.

The wall clock is the parameter `now`. In `Env`, "is a number" is the parameter `isNumeric`.

## Model

| member | source | states |
|---|---|---|
| `Text.Lower` | src/services3009.ts:204 | lower-casing keeps the length, maps every character independently, and leaves no upper-case ASCII letter |
| `Reasons.TextsDistinct` | src/services3009.ts:69-213 | two different rejection reasons never share an error string; only insufficient-balance reasons share their fixed prefix |
| `Validation.ValidateAuthorization` | src/services3009.ts:69-117 | a valid result carries exactly the request's fields. The addresses are well-formed, `r` and `s` are `0x` plus 64 characters, and `v` is in {27, 28, 0, 1}. Also `value > 0`, `validAfter <= now <= validBefore` and `validAfter < validBefore`. A conversion error is raised exactly when all earlier guards pass and `value`, or (after a positive `value`) a window bound, does not convert |
| `Validation.ValidateReportsFirstFailure` | src/services3009.ts:69-117 | the record is valid iff it passes all thirteen checks. Otherwise the result is the failure of the first check, in source order, that it fails |
| `Validation.EmptyWindowRejected` | src/services3009.ts:112-114 | when `validAfter >= validBefore`, the record is never valid, whatever its other fields |
| `Validation.ExpiryIsInclusive` | src/services3009.ts:108-110 | `validBefore == now` is accepted when every other check passes |
| `ReplayGuard.NonceKey` | src/services3009.ts:127 | the key is the lowered signer, then `:` at position `|from|`, then the nonce unchanged |
| `ReplayGuard.KeyIgnoresSignerCase` | src/services3009.ts:242 | signers equal up to case give the same key, so settle's insert and verify's lookup agree |
| `ReplayGuard.KeySeparatesNonces` | src/services3009.ts:127 | the nonce is not case-folded: different nonces, letter case included, give different keys |
| `ReplayGuard.KeyDeterminesPair` | src/services3009.ts:127 | for signers without `:`, equal keys imply the same lowered signer and the same nonce |
| `Verifier.MessageBindsSignedFields` | src/services3009.ts:178-185 | two validated records give recovery the same message exactly when `from`, `to`, `value`, `validAfter`, `validBefore` and `nonce` all agree, so changing any of them changes what is recovered over; `v`, `r` and `s` do not enter the message |
| `Verifier.YParity` | src/services3009.ts:188 | for an accepted `v` the parity is 0 or 1, and it is 0 exactly for `v` in {27, 0} |
| `Verifier.SignatureBindsTriple` | src/services3009.ts:187-193 | for accepted `v`, recovery receives the same signature exactly when `r` and `s` agree and both `v` lie in the same class, {27, 0} or {28, 1} |
| `Verifier.VerifyAuthorization` | src/services3009.ts:119-214 | a validation failure is returned as is, with no external call. A used local key rejects with "Nonce already used", with no external call; otherwise at least one call is made, in this order: state read, balance read, recovery, each only after the previous check passed. A successful non-zero state rejects with "Nonce already used on chain" after the state read alone, and only that rejects as used on chain; a failed state read is passed over. Then a failed balance read rejects with "Failed to verify balance", a balance below `value` rejects with that balance, a failed recovery rejects with "Signature verification failed", and a recovered signer other than `from` (up to case) rejects with "Invalid signature". Each of these reasons occurs only for its cause, and ok is returned exactly when every stage passes |
| `Verifier.StateReadFailureIgnored` | src/services3009.ts:133-146 | a failed on-chain state read gives the same verdict and the same calls as a read of state 0 |
| `Verifier.ReplayRejected` | src/services3009.ts:126-130 | when the key of a validated record's signer (up to case) and nonce is in the set, verify answers "Nonce already used" with no external call |
| `Facilitator.Facilitator.constructor` | src/services3009.ts:66 | the set of used nonce keys starts empty |
| `Facilitator.Facilitator.Verify` | src/services3009.ts:119-130 | verify returns the decision over the current set, and it has no `modifies` clause, so it never changes the set; an accepted record's key is not in the set |
| `Facilitator.Facilitator.Settle` | src/services3009.ts:216-248 | a refused verification is rethrown with nothing submitted and the set unchanged. A failed submission or receipt wait leaves the set unchanged. Once any receipt returns, whatever its status, exactly the settled key is added, and that key was absent before |
| `Facilitator.SettleThenReplay` | src/services3009.ts:218-243 | after a successful settle, verify and settle of a record with the same signer (up to case) and nonce are refused as replays, with no external call |
| `Env.Missing` | src/env.ts:4-18 | the missing names are exactly the required variables that are undefined or empty, and they keep the declaration order |
| `Env.MissingSnoc` | src/env.ts:14-18 | each loop step extends the missing list by the current variable exactly when that variable is unset |
| `Env.ValidateEnv` | src/env.ts:11-41 | missing variables throw first, with their names joined by ", ". Then a non-numeric `CHAIN_ID` throws, then a `RELAYER_PK` without `0x`, then a `JPYC_SEPOLIA` without `0x`. The call returns normally exactly when all four variables are set, `CHAIN_ID` is numeric and both prefixes hold |

## Left out

- Construction of the viem clients, wallet and contract (src/services3009.ts:8-63) is left out; it is RPC plumbing, and its effects are the oracle fields of `Collaborators`.
- EIP-712 hashing and ECDSA recovery are an uninterpreted oracle. So the claim that changing a signed field breaks the signature is not modelled; the model shows only that every signed field reaches the message.
- `isAddress` (hex shape and checksum) is a parameter, not a definition.
- Reasons.Text: the insufficient-balance error appends `formatUnits(balance, 18)` and " JPYC". The model gives only the fixed prefix and carries the balance in base units.
- `Date.now()` with `Math.floor` is the integer parameter `now`.
- `BigInt` parsing of decimal, hexadecimal and whitespace-padded text is abstracted. A field is `Undefined`, `EmptyText`, `Malformed` (conversion throws) or an `Integer`. `value` follows `types.ts` and is a string, so only undefined or `""` count as missing.
- `v` is modelled as an integer. Non-integer JavaScript numbers and non-number values of `v` are not modelled.
- Text.Lower: lower-cases only ASCII letters, not the full Unicode mapping of `toLowerCase`. Well-formed addresses are hexadecimal.
- String lengths count Dafny characters. They count characters outside the Basic Multilingual Plane once, where JavaScript counts two UTF-16 units.
- The chain id in the signing domain is an integer in the configuration. `Number(process.env.CHAIN_ID)` of non-integral text is not modelled.
- Logging (`console.log`, `console.error`) and the async suspension points are left out. Two concurrent settles of the same key are not modelled, because the model runs each operation to completion.
- The on-chain effect of a submitted transfer is not modelled. A later call takes a fresh `Collaborators` value that stands for the chain as it is then.
- In `validateEnv`, `isNaN(Number(x))` is the parameter `isNumeric`. The success log line is left out.
- src/server.ts (HTTP routing, status codes, process exit) is not part of this model. src/types.ts gives only the shape of `Types.Authorization`.
