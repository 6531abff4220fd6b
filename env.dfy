/**
 * `validateEnv`: the start-up check of the configuration. The process environment is
 * an explicit map, and "is a number" (`!isNaN(Number(x))`) is the parameter `isNumeric`.
 */
module Env {
  import opened Outcomes
  import opened Text

  const RequiredEnvVars: seq<string> := ["RPC_URL", "RELAYER_PK", "JPYC_SEPOLIA", "CHAIN_ID"]

  /** `process.env[name]` is truthy: defined and not empty. */
  predicate IsSet(env: map<string, string>, name: string)
  {
    name in env && env[name] != ""
  }

  /** `process.env[name]`, with the empty string for an undefined variable. */
  function Get(env: map<string, string>, name: string): string
  {
    if name in env then env[name] else ""
  }

  /** `xs` occurs in `ys` with its elements in the same order. */
  predicate IsSubsequence(xs: seq<string>, ys: seq<string>)
  {
    if xs == [] then true
    else if ys == [] then false
    else if xs[0] == ys[0] then IsSubsequence(xs[1..], ys[1..])
    else IsSubsequence(xs, ys[1..])
  }

  /** The names among `names` that are not set, in the order of `names`. */
  function Missing(env: map<string, string>, names: seq<string>): (r: seq<string>)
    ensures forall x :: x in r <==> x in names && !IsSet(env, x)
    ensures IsSubsequence(r, names)
  {
    if names == [] then []
    else if IsSet(env, names[0]) then Missing(env, names[1..])
    else [names[0]] + Missing(env, names[1..])
  }

  /** Looking at one more name extends the missing list by that name when it is unset. */
  lemma {:induction false} MissingSnoc(env: map<string, string>, names: seq<string>, name: string)
    ensures Missing(env, names + [name]) ==
            Missing(env, names) + (if IsSet(env, name) then [] else [name])
  {
    if names != [] {
      assert (names + [name])[1..] == names[1..] + [name];
      MissingSnoc(env, names[1..], name);
    } else {
      assert names + [name] == [name];
    }
  }

  /** `items.join(sep)` */
  function Join(items: seq<string>, sep: string): string
  {
    if items == [] then ""
    else if |items| == 1 then items[0]
    else items[0] + sep + Join(items[1..], sep)
  }

  /** The error `validateEnv` throws. */
  datatype EnvError =
    | MissingVariables(names: seq<string>)
    | ChainIdNotNumber
    | RelayerKeyNotHex
    | TokenAddressNotHex
  {
    function Message(): string
    {
      match this
      case MissingVariables(names) => "Missing required environment variables: " + Join(names, ", ")
      case ChainIdNotNumber => "CHAIN_ID must be a number"
      case RelayerKeyNotHex => "RELAYER_PK must be a valid hex string starting with 0x"
      case TokenAddressNotHex => "JPYC_SEPOLIA must be a valid address starting with 0x"
    }
  }

  /** Everything `validateEnv` demands of the environment. */
  predicate WellConfigured(env: map<string, string>, isNumeric: string -> bool)
  {
    (forall name :: name in RequiredEnvVars ==> IsSet(env, name)) &&
    isNumeric(Get(env, "CHAIN_ID")) &&
    StartsWith(Get(env, "RELAYER_PK"), "0x") &&
    StartsWith(Get(env, "JPYC_SEPOLIA"), "0x")
  }

  /**
   * Returns `None` when `validateEnv` returns normally and `Some(e)` when it throws `e`.
   * The environment is a value parameter, so it is only read.
   */
  method ValidateEnv(env: map<string, string>, isNumeric: string -> bool) returns (error: Option<EnvError>)
    ensures error.None? <==> WellConfigured(env, isNumeric)
    ensures Missing(env, RequiredEnvVars) != [] ==>
              error == Some(MissingVariables(Missing(env, RequiredEnvVars)))
    ensures Missing(env, RequiredEnvVars) == [] && !isNumeric(Get(env, "CHAIN_ID")) ==>
              error == Some(ChainIdNotNumber)
    ensures Missing(env, RequiredEnvVars) == [] && isNumeric(Get(env, "CHAIN_ID")) &&
            !StartsWith(Get(env, "RELAYER_PK"), "0x") ==>
              error == Some(RelayerKeyNotHex)
    ensures Missing(env, RequiredEnvVars) == [] && isNumeric(Get(env, "CHAIN_ID")) &&
            StartsWith(Get(env, "RELAYER_PK"), "0x") && !StartsWith(Get(env, "JPYC_SEPOLIA"), "0x") ==>
              error == Some(TokenAddressNotHex)
  {
    var missing: seq<string> := [];
    for i := 0 to |RequiredEnvVars|
      invariant missing == Missing(env, RequiredEnvVars[..i])
    {
      var name := RequiredEnvVars[i];
      MissingSnoc(env, RequiredEnvVars[..i], name);
      assert RequiredEnvVars[..i + 1] == RequiredEnvVars[..i] + [name];
      if !IsSet(env, name) {
        missing := missing + [name];
      }
    }
    assert RequiredEnvVars[..|RequiredEnvVars|] == RequiredEnvVars;

    if |missing| > 0 {
      assert missing[0] in RequiredEnvVars && !IsSet(env, missing[0]);
      return Some(MissingVariables(missing));
    }
    if !isNumeric(Get(env, "CHAIN_ID")) {
      return Some(ChainIdNotNumber);
    }
    if !StartsWith(Get(env, "RELAYER_PK"), "0x") {
      return Some(RelayerKeyNotHex);
    }
    if !StartsWith(Get(env, "JPYC_SEPOLIA"), "0x") {
      return Some(TokenAddressNotHex);
    }
    return None;
  }
}
