/**
 * `getClientEnv`: the variables handed to the bundle through `DefinePlugin`.
 * Only names that start with `REACT_APP`, in any letter case, are passed
 * through, on top of a seed entry `NODE_ENV` that carries the build mode.
 */
module ClientEnv {
  import opened Strings
  import opened ProcessEnv

  const ReactAppPrefix := "REACT_APP"
  const NodeEnvName := "NODE_ENV"

  /** The name starts with REACT_APP, letter case ignored. */
  predicate IsClientName(name: string)
  {
    StartsWithIgnoreCase(name, ReactAppPrefix)
  }

  /** The seed name can never pass the filter, so no environment entry can
      overwrite the mode the seed carries. */
  lemma NodeEnvIsNotClientName()
    ensures !IsClientName(NodeEnvName)
  {
  }

  /** The prefix test ignores letter case but nothing else: the prefix
      must start the name and keep its underscore. */
  lemma ClientNameExamples()
    ensures IsClientName("react_App_API_URL")
    ensures IsClientName("REACT_APP")
    ensures !IsClientName("MY_REACT_APP_X")
    ensures !IsClientName("REACT-APP_X")
    ensures !IsClientName("REACTAPP_X")
  {
    assert AsciiUpper("MY_REACT_APP_X"[0]) != AsciiUpper(ReactAppPrefix[0]);
    assert AsciiUpper("REACT-APP_X"[5]) != AsciiUpper(ReactAppPrefix[5]);
    assert AsciiUpper("REACTAPP_X"[5]) != AsciiUpper(ReactAppPrefix[5]);
  }

  /** The environment's names that pass the
      filter, in the environment's order. */
  function ClientNames(env: Env): (names: seq<string>)
    ensures forall k :: k in names <==> k in Names(env) && IsClientName(k)
  {
    if env == [] then []
    else
      var rest := ClientNames(env[1..]);
      assert Names(env) == {env[0].0} + Names(env[1..]) by {
        forall k | k in Names(env) ensures k in {env[0].0} + Names(env[1..]) {
          var i :| 0 <= i < |env| && env[i].0 == k;
          if i > 0 { assert env[1..][i - 1].0 == k; }
        }
        forall k | k in Names(env[1..]) ensures k in Names(env) {
          var i :| 0 <= i < |env[1..]| && env[1..][i].0 == k;
          assert env[i + 1].0 == k;
        }
      }
      if IsClientName(env[0].0) then [env[0].0] + rest else rest
  }

  /** The object `getClientEnv(nodeEnv)` serialises: the seed `NODE_ENV`
      entry, then every filtered name with its value copied unchanged. */
  function ClientEnvOf(nodeEnv: string, env: Env): (m: map<string, string>)
    ensures NodeEnvName in m && m[NodeEnvName] == nodeEnv
    ensures forall k :: k in m <==> k == NodeEnvName || (k in Names(env) && IsClientName(k))
    ensures forall k :: k in m && k != NodeEnvName ==> m[k] == EnvMap(env)[k]
  {
    NodeEnvIsNotClientName();
    var dict := EnvMap(env);
    map[NodeEnvName := nodeEnv] + map k | k in dict && IsClientName(k) :: dict[k]
  }

  /** The `reduce` of `getClientEnv`: starting from `{ NODE_ENV: nodeEnv }`,
      each filtered name is written into the accumulator with the value
      the environment holds for it. */
  method GetClientEnv(nodeEnv: string, env: Env) returns (clientEnv: map<string, string>)
    ensures clientEnv == ClientEnvOf(nodeEnv, env)
  {
    var dict := EnvMap(env);
    var keys := ClientNames(env);
    NodeEnvIsNotClientName();
    clientEnv := map[NodeEnvName := nodeEnv];
    var i := 0;
    while i < |keys|
      invariant 0 <= i <= |keys|
      invariant NodeEnvName in clientEnv && clientEnv[NodeEnvName] == nodeEnv
      invariant forall k :: k in clientEnv <==> k == NodeEnvName || k in keys[..i]
      invariant forall k :: k in clientEnv && k != NodeEnvName ==> k in dict && clientEnv[k] == dict[k]
    {
      assert keys[..i + 1] == keys[..i] + [keys[i]];
      clientEnv := clientEnv[keys[i] := dict[keys[i]]];
      i := i + 1;
    }
    assert keys[..i] == keys;
    var spec := ClientEnvOf(nodeEnv, env);
    assert clientEnv.Keys == spec.Keys;
  }
}
