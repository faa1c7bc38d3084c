/** The process environment as the configuration loader reads it. */
module Environment {
  import opened Results

  /** Variable name to value; a variable may be set to the empty string. */
  type Env = map<string, string>

  /** `os.getenv(name)`: the value, or `None` when the variable is unset. */
  function Getenv(env: Env, name: string): (r: Option<string>)
    ensures r.Some? <==> name in env
    ensures r.Some? ==> r.value == env[name]
  {
    if name in env then Some(env[name]) else None
  }

  /** `os.getenv(name, default)`: the default replaces only an unset variable, never an empty one. */
  function GetenvOr(env: Env, name: string, default: string): (r: string)
    ensures name in env ==> r == env[name]
    ensures name !in env ==> r == default
  {
    match Getenv(env, name)
    case Some(v) => v
    case None => default
  }

  /** Python truthiness of a `getenv` result: set and not empty. */
  predicate IsSet(env: Env, name: string) {
    name in env && env[name] != ""
  }

  /**
   * `os.getenv(n0) or os.getenv(n1) or ... or fallback`: the value of the first
   * variable that is set to a non-empty string, else the fallback literal.
   */
  function FirstNonEmpty(env: Env, names: seq<string>, fallback: string): (r: string)
    ensures r == "" ==> fallback == ""
  {
    if |names| == 0 then fallback
    else if IsSet(env, names[0]) then env[names[0]]
    else FirstNonEmpty(env, names[1..], fallback)
  }

  /**
   * The chain picks the first candidate set to a non-empty value, and the
   * fallback only when no candidate is; whatever it picks is one of those.
   */
  lemma {:induction false} FirstNonEmptyRule(env: Env, names: seq<string>, fallback: string)
    ensures forall i :: (0 <= i < |names| && IsSet(env, names[i]) &&
                         (forall j :: 0 <= j < i ==> !IsSet(env, names[j]))) ==>
              FirstNonEmpty(env, names, fallback) == env[names[i]]
    ensures (forall i :: 0 <= i < |names| ==> !IsSet(env, names[i])) ==>
              FirstNonEmpty(env, names, fallback) == fallback
    ensures FirstNonEmpty(env, names, fallback) == fallback ||
            exists i :: 0 <= i < |names| && IsSet(env, names[i]) && FirstNonEmpty(env, names, fallback) == env[names[i]]
    decreases |names|
  {
    if |names| > 0 && !IsSet(env, names[0]) {
      FirstNonEmptyRule(env, names[1..], fallback);
      assert forall i :: 1 <= i < |names| ==> names[1..][i - 1] == names[i];
      var r := FirstNonEmpty(env, names, fallback);
      if r != fallback {
        var k :| 0 <= k < |names[1..]| && IsSet(env, names[1..][k]) && r == env[names[1..][k]];
        assert IsSet(env, names[k + 1]) && r == env[names[k + 1]];
      }
    }
  }

  /** An empty-string value never wins an `or` chain: it reads as if the variable were unset. */
  lemma {:induction false} EmptyIsSkipped(env: Env, names: seq<string>, fallback: string, name: string)
    requires name in env && env[name] == ""
    ensures FirstNonEmpty(env, names, fallback) == FirstNonEmpty(env - {name}, names, fallback)
    decreases |names|
  {
    if |names| > 0 {
      assert IsSet(env, names[0]) <==> IsSet(env - {name}, names[0]);
      EmptyIsSkipped(env, names[1..], fallback, name);
    }
  }
}
