/** Vocabulary shared by every part of the model: optional values, bytes and
    tables of queues. */
module Basics {

  datatype Option<+T> = None | Some(value: T)

  newtype Byte = b: int | 0 <= b < 0x100

  type Bytes = seq<Byte>

  /** The queue filed under a key; a key that was never used has an empty one. */
  function At<K, V>(table: map<K, seq<V>>, key: K): seq<V> {
    if key in table then table[key] else []
  }

  function Push<K(!new), V>(table: map<K, seq<V>>, key: K, v: V): (r: map<K, seq<V>>)
    ensures At(r, key) == At(table, key) + [v]
    ensures forall k :: k != key ==> At(r, k) == At(table, k)
  {
    table[key := At(table, key) + [v]]
  }

  function Pop<K(!new), V>(table: map<K, seq<V>>, key: K): (r: map<K, seq<V>>)
    requires At(table, key) != []
    ensures At(table, key) == [At(table, key)[0]] + At(r, key)
    ensures forall k :: k != key ==> At(r, k) == At(table, k)
  {
    table[key := At(table, key)[1..]]
  }

  function Clear<K(!new), V>(table: map<K, seq<V>>, key: K): (r: map<K, seq<V>>)
    ensures At(r, key) == []
    ensures forall k :: k != key ==> At(r, k) == At(table, k)
  {
    table - {key}
  }

  /** A text of which every character is blank, or that has none. */
  predicate IsBlank(blank: char -> bool, s: string) {
    forall k :: 0 <= k < |s| ==> blank(s[k])
  }

  ghost predicate NoDuplicates<T>(q: seq<T>) {
    forall i, j :: 0 <= i < j < |q| ==> q[i] != q[j]
  }
}
