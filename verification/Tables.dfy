/** Tables as finite maps from row keys to rows. */
module Tables {
  /** What is left of a table after some of its rows went: exactly the other rows, as they were. */
  ghost predicate Without<K(!new), V>(before: map<K, V>, after: map<K, V>, gone: iset<K>) {
    && (forall k :: k in after <==> k in before && k !in gone)
    && forall k | k in after :: after[k] == before[k]
  }
}
