/**
  Counting the entries of a finite map that satisfy a property, and how the count moves when
  one entry is added, replaced or removed.
 */
module Counting {

  ghost function Where<K, V>(m: map<K, V>, p: V -> bool): set<K> {
    set k | k in m && p(m[k])
  }

  ghost function Count<K, V>(m: map<K, V>, p: V -> bool): nat {
    |Where(m, p)|
  }

  ghost function One(b: bool): nat {
    if b then 1 else 0
  }

  lemma WhereAdd<K, V>(m: map<K, V>, k: K, v: V, p: V -> bool)
    requires k !in m
    ensures k !in Where(m, p) && Where(m[k := v], p) == Where(m, p) + (if p(v) then {k} else {})
  {
    forall x: K
      ensures x in Where(m[k := v], p) <==> x in Where(m, p) || (x == k && p(v))
    {
    }
  }

  lemma CountAdd<K, V>(m: map<K, V>, k: K, v: V, p: V -> bool)
    requires k !in m
    ensures Count(m[k := v], p) == Count(m, p) + One(p(v))
  {
    WhereAdd(m, k, v, p);
  }

  lemma CountRemove<K, V>(m: map<K, V>, k: K, p: V -> bool)
    requires k in m
    ensures Count(m - {k}, p) + One(p(m[k])) == Count(m, p)
  {
    if p(m[k]) {
      assert Where(m, p) == Where(m - {k}, p) + {k};
    } else {
      assert Where(m, p) == Where(m - {k}, p);
    }
  }

  lemma CountReplace<K, V>(m: map<K, V>, k: K, v: V, p: V -> bool)
    requires k in m
    ensures Count(m[k := v], p) + One(p(m[k])) == Count(m, p) + One(p(v))
  {
    CountRemove(m, k, p);
    CountAdd(m - {k}, k, v, p);
    assert (m - {k})[k := v] == m[k := v];
  }

  lemma CountZero<K, V>(m: map<K, V>, p: V -> bool)
    requires forall k :: k in m ==> !p(m[k])
    ensures Count(m, p) == 0
  {
    assert Where(m, p) == {};
  }

  lemma CountPositive<K, V>(m: map<K, V>, k: K, p: V -> bool)
    requires k in m && p(m[k])
    ensures Count(m, p) >= 1
  {
    assert k in Where(m, p);
  }

  lemma CountWitness<K, V>(m: map<K, V>, p: V -> bool) returns (k: K)
    requires Count(m, p) >= 1
    ensures k in m && p(m[k])
  {
    k :| k in Where(m, p);
  }
}
