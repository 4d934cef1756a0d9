/** The optional value: a SQL column that may be NULL, a lookup that may miss. */
module Options {
  datatype Option<+T> = None | Some(value: T)

  /** Maps with the same keys and the same values are equal. */
  lemma SameMap<K, V>(m: map<K, V>, n: map<K, V>)
    requires m.Keys == n.Keys && forall k | k in m :: m[k] == n[k]
    ensures m == n
  {
  }

  /** Some element of a nonempty set. */
  ghost function Pick<T>(s: set<T>): (x: T)
    requires s != {}
    ensures x in s
  {
    var x :| x in s; x
  }

  /** The same, for a set that is looped over. */
  method Any<K(==)>(s: set<K>) returns (k: K)
    requires s != {}
    ensures k in s
  {
    k :| k in s;
  }
}
