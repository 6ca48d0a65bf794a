/** The registries are dictionaries whose entries each account for one item at the broker.
    These lemmas say exactly when filling or emptying an entry keeps the account. */
module Slots {

  ghost predicate Accounted<K(!new), V>(m: imap<K, V>, v: V) { exists k :: k in m && m[k] == v }

  /** Some entry other than `k` accounts for `v` too. */
  ghost predicate Elsewhere<K(!new), V>(m: imap<K, V>, k: K, v: V) { exists j :: j in m && j != k && m[j] == v }

  /** The items at the broker are exactly those the entries account for. */
  ghost predicate Balanced<K(!new), V(!new)>(items: set<V>, m: imap<K, V>) {
    forall v :: v in items <==> Accounted(m, v)
  }

  /** The entry is written and overwrites no item that only it accounts for; or the entry is
      not written, and another one accounts for the item already. */
  ghost predicate PutGuard<K(!new), V>(m: imap<K, V>, k: K, v: V, written: bool) {
    if written then k in m && m[k] != v ==> Elsewhere(m, k, m[k]) else Accounted(m, v)
  }

  /** No other entry accounts for the removed item, and the forgotten entry was for the
      removed item or for one accounted for elsewhere. */
  ghost predicate PopGuard<K(!new), V>(m: imap<K, V>, k: K, v: V) {
    !Elsewhere(m, k, v) && (k in m && m[k] != v ==> Elsewhere(m, k, m[k]))
  }

  lemma AccountedAfterPut<K(!new), V>(m: imap<K, V>, k: K, v: V, w: V)
    ensures Accounted(m[k := v], w) <==> w == v || Elsewhere(m, k, w)
  {
    var n := m[k := v];
    assert n[k] == v;
    if Elsewhere(m, k, w) {
      var j :| j in m && j != k && m[j] == w;
      assert n[j] == w;
    }
  }

  lemma PutKeepsBalance<K(!new), V(!new)>(items: set<V>, m: imap<K, V>, k: K, v: V)
    requires Balanced(items, m)
    ensures Balanced(items + {v}, m[k := v]) <==> PutGuard(m, k, v, true)
  {
    forall w ensures Accounted(m[k := v], w) <==> w == v || Elsewhere(m, k, w) {
      AccountedAfterPut(m, k, v, w);
    }
    forall w ensures Accounted(m, w) <==> Elsewhere(m, k, w) || (k in m && m[k] == w) {
    }
    if k in m { assert m[k] in items; }
  }

  lemma SkipKeepsBalance<K(!new), V(!new)>(items: set<V>, m: imap<K, V>, k: K, v: V)
    requires Balanced(items, m)
    ensures Balanced(items + {v}, m) <==> PutGuard(m, k, v, false)
  {
    assert v in items + {v};
  }

  lemma PopKeepsBalance<K(!new), V(!new)>(items: set<V>, m: imap<K, V>, k: K, v: V)
    requires Balanced(items, m)
    ensures Balanced(items - {v}, m - {k}) <==> PopGuard(m, k, v)
  {
    forall w ensures Accounted(m - {k}, w) <==> Elsewhere(m, k, w) {
      if Elsewhere(m, k, w) {
        var j :| j in m && j != k && m[j] == w;
        assert (m - {k})[j] == w;
      }
    }
    forall w ensures Accounted(m, w) <==> Elsewhere(m, k, w) || (k in m && m[k] == w) {
    }
    if k in m { assert m[k] in items; }
  }
}
