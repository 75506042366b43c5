/** Value types shared by every component. */
module Common {

  datatype Option<+T> = None | Some(value: T)

  /** The error codes the modelled operations tell apart; every other code a backend may use is Other. */
  datatype Code =
    | NotFound
    | NotModified
    | PreconditionFailed
    | AlreadyExists
    | InvalidURI
    | InvalidOperation
    | TransactionClosed
    | Timeout
    | Unsupported
    | LockHeld
    | LockNotHeld
    | LockExpired
    | FencingTokenStale
    | Cancelled
    | IO
    | Other(n: nat)

  datatype Error = Error(code: Code, retriable: bool)

  datatype Result<+T> = Ok(value: T) | Err(error: Error)

  function Max(a: int, b: int): int {
    if a < b then b else a
  }

  function Min(a: int, b: int): int {
    if a < b then a else b
  }

  function Lookup<K(==), V>(m: map<K, V>, k: K): Option<V> {
    if k in m then Some(m[k]) else None
  }

  /** The map after its entry for `k` was set to `o`; entries are never removed. */
  function Remember<K(==), V>(m: map<K, V>, k: K, o: Option<V>): map<K, V> {
    match o
    case None => m
    case Some(v) => m[k := v]
  }

  lemma RememberTwice<K, V>(m: map<K, V>, m': map<K, V>, k: K, o: Option<V>)
    requires m' == Remember(m, k, Lookup(m', k)) && Lookup(Remember(m', k, o), k) == o
    ensures Remember(m', k, o) == Remember(m, k, o)
  {
  }

  lemma RememberSelf<K, V>(m: map<K, V>, k: K)
    ensures Remember(m, k, Lookup(m, k)) == m
  {
  }
}
