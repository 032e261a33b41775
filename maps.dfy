/** Facts about updating maps that the document serializers rely on. */
module Maps {
  /** Renaming key `a` to a key `b` not in use, and back again, gives the map back. */
  lemma RenameBack<K, V>(m: map<K, V>, a: K, b: K, v: V)
    requires a in m && b !in m
    ensures ((m[b := v] - {a}) - {b})[a := m[a]] == m
  {
  }
}
