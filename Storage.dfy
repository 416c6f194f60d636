/**
 * The observable behaviour of the key-value store the repository is written
 * against: a map from string keys to stored values, with set, delete,
 * exists and a scan of the keys under a prefix.  Reading a key is a lookup
 * in `entries`; how the value parses is decided by the repository's reads.
 * Connection handling and JSON serialisation are not part of this model.
 */
module Storage {

  /** No element of `s` occurs twice. */
  ghost predicate NoDuplicates<T>(s: seq<T>) {
    forall i, j :: 0 <= i < j < |s| ==> s[i] != s[j]
  }

  /** The keys of `entries` that start with `prefix`. */
  function KeysWithPrefix<V>(entries: map<string, V>, prefix: string): set<string> {
    set k | k in entries && prefix <= k
  }

  /**
   * `keys` is one scan of the keys matching `prefix + "*"`: each matching
   * key exactly once, in some order, and nothing else.
   */
  ghost predicate IsKeyScan<V>(entries: map<string, V>, prefix: string, keys: seq<string>) {
    && NoDuplicates(keys)
    && (forall i :: 0 <= i < |keys| ==> keys[i] in entries && prefix <= keys[i])
    && (forall k :: k in entries && prefix <= k ==> k in keys)
  }

  /** A scan holds as many keys as there are matching keys. */
  lemma {:induction false} KeyScanSize<V>(entries: map<string, V>, prefix: string, keys: seq<string>)
    requires IsKeyScan(entries, prefix, keys)
    ensures |keys| == |KeysWithPrefix(entries, prefix)|
  {
    DistinctSize(keys);
    assert (set k | k in keys) == KeysWithPrefix(entries, prefix);
  }

  /** A duplicate-free sequence has as many elements as its set. */
  lemma {:induction false} DistinctSize<T>(s: seq<T>)
    requires NoDuplicates(s)
    ensures |set x | x in s| == |s|
  {
    if s != [] {
      DistinctSize(s[1..]);
      assert (set x | x in s) == (set x | x in s[1..]) + {s[0]};
      assert s[0] !in s[1..];
    }
  }

  class KeyValueStore<V(==)> {
    /** The store's contents. */
    var entries: map<string, V>

    constructor (initial: map<string, V>)
      ensures entries == initial
    {
      entries := initial;
    }

    /**
     * `exists(key)`: whether the key is present, whatever its value.  For a
     * key under a prefix it agrees with every scan of that prefix.
     */
    function Exists(key: string): (b: bool)
      reads this
      ensures forall p, keys :: IsKeyScan(entries, p, keys) && p <= key ==> (b <==> key in keys)
    {
      key in entries
    }

    /** `setValue(key, value)` without expiry: last writer wins. */
    method SetValue(key: string, value: V)
      modifies this
      ensures entries == old(entries)[key := value]
    {
      entries := entries[key := value];
    }

    /** `deleteValue(key)`: removes the key and reports whether it was there. */
    method DeleteValue(key: string) returns (removed: bool)
      modifies this
      ensures removed == (key in old(entries))
      ensures entries == old(entries) - {key}
    {
      removed := key in entries;
      entries := entries - {key};
    }

    /** `getKeys(prefix + "*")`: every key under `prefix`, once, in store order. */
    method GetKeys(prefix: string) returns (keys: seq<string>)
      ensures IsKeyScan(entries, prefix, keys)
    {
      keys := [];
      var rest := entries.Keys;
      while rest != {}
        invariant rest <= entries.Keys
        invariant NoDuplicates(keys)
        invariant forall i :: 0 <= i < |keys| ==> keys[i] in entries && prefix <= keys[i] && keys[i] !in rest
        invariant forall k :: k in entries && prefix <= k && k !in rest ==> k in keys
        decreases rest
      {
        var k :| k in rest;
        if prefix <= k {
          keys := keys + [k];
        }
        rest := rest - {k};
      }
    }
  }
}
