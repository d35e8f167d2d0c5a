/**
 * API-key lookup of `src/utils/keys.js`. The keys file is read and parsed
 * once at module load; its parsed contents and the process environment are
 * given here as maps from key name to value. A JavaScript value that is
 * absent, `undefined` or the empty string is falsy; `Value` returns `""` for
 * all of them.
 */
module Keys {
  import opened Text

  datatype Result<+T, +E> = Ok(value: T) | Err(error: E)

  type Store = map<string, string>

  /** `store[name]`, with `""` standing for a falsy (missing or empty) entry. */
  function Value(store: Store, name: string): string {
    if name in store then store[name] else ""
  }

  /** The module-load step: a missing or unparsable keys file leaves the store empty. */
  function LoadKeys(parsed: Option<Store>): (keys: Store)
    ensures parsed.None? ==> keys == map[]
    ensures parsed.Some? ==> keys == parsed.value
  {
    match parsed
    case None => map[]
    case Some(m) => m
  }

  function NotFound(name: string): string {
    "API key \"" + name + "\" not found in keys.json or environment variables!"
  }

  /** `getKey(name)`: the keys file wins, the environment is the fallback, and nothing falsy is ever returned. */
  function GetKey(keys: Store, env: Store, name: string): (r: Result<string, string>)
    ensures r.Ok? ==> r.value != ""
    ensures r.Ok? ==> r.value == Value(keys, name) || r.value == Value(env, name)
    ensures Value(keys, name) != "" ==> r == Ok(keys[name])
    ensures Value(keys, name) == "" && Value(env, name) != "" ==> r == Ok(env[name])
    ensures r.Err? <==> Value(keys, name) == "" && Value(env, name) == ""
    ensures r.Err? ==> r.error == NotFound(name)
  {
    var key := Value(keys, name);
    var key' := if key == "" then Value(env, name) else key;
    if key' == "" then Err(NotFound(name)) else Ok(key')
  }

  /** `hasKey(name)`: `Boolean(keys[name] || process.env[name])`. */
  function HasKey(keys: Store, env: Store, name: string): (b: bool) {
    Value(keys, name) != "" || Value(env, name) != ""
  }

  /** `hasKey` answers exactly whether `getKey` would return rather than throw. */
  lemma HasKeyIffGetKeySucceeds(keys: Store, env: Store, name: string)
    ensures HasKey(keys, env, name) <==> GetKey(keys, env, name).Ok?
  {
  }

  /** Without a usable keys file every lookup is answered by the environment alone. */
  lemma NoKeysFileFallsThrough(env: Store, name: string)
    ensures GetKey(LoadKeys(None), env, name)
         == if Value(env, name) != "" then Ok(env[name]) else Err(NotFound(name))
  {
  }
}
