/** Small facts about maps that the managers' loops use. */
module MapFacts {
  /** Removing keys one at a time is removing them all at once. */
  lemma RemoveOneMore<K, V>(m: map<K, V>, done: set<K>, k: K)
    ensures (m - done) - {k} == m - (done + {k})
  {
    assert ((m - done) - {k}).Keys == (m - (done + {k})).Keys;
  }
}
