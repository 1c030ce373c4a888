/** Values and failures shared by every module: optional values, the Python
    exceptions the integration raises or catches, and the outcome of a call
    that either returns a value or raises. */
module Wrappers {

  datatype Option<+T> = None | Some(value: T)

  /** `dict.get(key, default)` on a dictionary of strings. */
  function GetOr<K, V>(m: map<K, V>, key: K, default: V): (v: V)
    ensures key in m ==> v == m[key]
    ensures key !in m ==> v == default
  {
    if key in m then m[key] else default
  }

  /** `dict.get(key)`: the value under `key`, or None. */
  function Get<K, V>(m: map<K, V>, key: K): (v: Option<V>)
    ensures v.Some? <==> key in m
    ensures v.Some? ==> v.value == m[key]
  {
    if key in m then Some(m[key]) else None
  }

  /** The exceptions that the modelled code raises, catches or lets through. */
  datatype Error =
    // raised by the pricing client
    | AuthException
    | RequestException(msg: string)
    | ConnectionException
    // raised by, or for, the host framework
    | UpdateFailed
    | ConfigEntryAuthFailed
    | ConfigEntryNotReady
    // Python built-ins
    | ValueError(msg: string)
    | KeyError(key: string)
    | TypeError
    | NameError(name: string)
    | AttributeError(name: string)
    | GenericException(msg: string)

  /** What a Python call ends with: a returned value or a raised exception. */
  datatype Outcome<+T> = Ok(value: T) | Raise(error: Error)
}
