/** The process environment the configuration reads (`process.env`). */
module ProcessEnv {

  /** The environment's entries in `Object.keys` order. */
  type Env = seq<(string, string)>

  /** The names that occur in the environment. */
  function Names(env: Env): set<string>
  {
    set i | 0 <= i < |env| :: env[i].0
  }

  /** The environment as a dictionary: `process.env[name]`. When a name is
      listed twice the later entry is the one that is read. */
  function EnvMap(env: Env): (m: map<string, string>)
    ensures m.Keys == Names(env)
  {
    if env == [] then map[]
    else
      var init, last := env[..|env| - 1], env[|env| - 1];
      assert Names(env) == Names(init) + {last.0} by {
        forall k | k in Names(env) ensures k in Names(init) + {last.0} {
          var i :| 0 <= i < |env| && env[i].0 == k;
          if i < |init| { assert init[i].0 == k; }
        }
        forall k | k in Names(init) ensures k in Names(env) {
          var i :| 0 <= i < |init| && init[i].0 == k;
          assert env[i].0 == k;
        }
      }
      EnvMap(init)[last.0 := last.1]
  }

  /** An entry that no later entry renames is the value read for its name. */
  lemma {:induction false} EnvMapLastWins(env: Env, i: nat)
    requires i < |env|
    requires forall j :: i < j < |env| ==> env[j].0 != env[i].0
    ensures EnvMap(env)[env[i].0] == env[i].1
  {
    if i < |env| - 1 {
      var init := env[..|env| - 1];
      assert init[i] == env[i];
      EnvMapLastWins(init, i);
    }
  }
}
