/** Shared value types: optional values, the C# integer widths the model
    needs, and the "TryGetValue ? value : default" lookup that every
    dictionary accessor of the game uses. */
module Common {

  datatype Option<+T> = None | Some(value: T) {
    function GetOr(default: T): T {
      match this
      case Some(v) => v
      case None => default
    }
  }

  /** C# `ulong` (Steam ids, lobby ids). */
  type U64 = x: int | 0 <= x < 0x1_0000_0000_0000_0000

  /** C# `int` as produced by `int.TryParse`. */
  type I32 = x: int | -0x8000_0000 <= x < 0x8000_0000

  /** `dict.TryGetValue(k, out var v) ? v : def`. */
  function Lookup<K, V>(m: map<K, V>, k: K, def: V): (v: V)
    ensures k in m ==> v == m[k]
    ensures k !in m ==> v == def
  {
    if k in m then m[k] else def
  }

  /** A write is seen by the next read of the same key, whatever the default. */
  lemma LookupAfterWrite<K, V>(m: map<K, V>, k: K, v: V, def: V)
    ensures Lookup(m[k := v], k, def) == v
  {
  }

  /** A write to one key is invisible to reads of every other key. */
  lemma LookupOtherKey<K, V>(m: map<K, V>, k: K, v: V, k': K, def: V)
    requires k' != k
    ensures Lookup(m[k := v], k', def) == Lookup(m, k', def)
  {
  }
}
