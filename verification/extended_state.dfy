/** The machine's extended state: the variables map that guards and actions
    share, restricted to `int` values (the only kind the configuration stores). */
module ExtendedState {
  import opened JavaInt

  type Variables = map<string, int32>

  /** `Map.getOrDefault`: the stored value, or `default` when the key is absent. */
  function GetOrDefault(vars: Variables, key: string, default: int32): (v: int32)
    ensures key in vars ==> v == vars[key]
    ensures key !in vars ==> v == default
  {
    if key in vars then vars[key] else default
  }

  /** `a` and `b` hold the same keys with the same values, except possibly `key`. */
  ghost predicate AgreeExcept(a: Variables, b: Variables, key: string) {
    forall k :: k != key ==> (k in a <==> k in b) && (k in a ==> a[k] == b[k])
  }

  /** `Map.put`: binds `key` to `value` and leaves every other entry alone. */
  function Put(vars: Variables, key: string, value: int32): (r: Variables)
    ensures key in r && r[key] == value
    ensures AgreeExcept(vars, r, key)
    ensures r.Keys == vars.Keys + {key}
  {
    vars[key := value]
  }
}
