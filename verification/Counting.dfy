/** How many threads are at a program point, and how one step changes it. */
module Counting {
  function Where<K, V>(m: map<K, V>, p: V -> bool): set<K> {
    set k | k in m && p(m[k])
  }

  function Count<K, V>(m: map<K, V>, p: V -> bool): nat {
    |Where(m, p)|
  }

  function Bit(b: bool): int {
    if b then 1 else 0
  }

  /** Moving one thread changes a count by what it leaves and what it enters. */
  lemma CountMoves<K, V>(m: map<K, V>, k: K, v: V, p: V -> bool)
    requires k in m
    ensures Count(m[k := v], p) == Count(m, p) - Bit(p(m[k])) + Bit(p(v))
  {
    var m' := m[k := v];
    var others := Where(m, p) - {k};
    assert Where(m, p) == others + if p(m[k]) then {k} else {};
    assert Where(m', p) == others + if p(v) then {k} else {};
  }

  lemma CountSome<K, V>(m: map<K, V>, p: V -> bool)
    requires Count(m, p) > 0
    ensures exists k :: k in m && p(m[k])
  {
    var k :| k in Where(m, p);
    assert k in m && p(m[k]);
  }

  lemma CountMember<K, V>(m: map<K, V>, k: K, p: V -> bool)
    requires k in m && p(m[k])
    ensures Count(m, p) > 0
  {
    assert k in Where(m, p);
  }

  lemma CountOne<K, V>(m: map<K, V>, a: K, b: K, p: V -> bool)
    requires a in m && b in m && p(m[a]) && p(m[b]) && Count(m, p) <= 1
    ensures a == b
  {
    if a != b {
      assert {a, b} <= Where(m, p);
      Smaller({a, b}, Where(m, p));
    }
  }

  lemma Smaller<K>(a: set<K>, b: set<K>)
    requires a <= b
    ensures |a| <= |b|
  {
    assert b == a + (b - a);
  }

  lemma CountNone<K, V>(m: map<K, V>, p: V -> bool)
    requires forall k :: k in m ==> !p(m[k])
    ensures Count(m, p) == 0
  {
    assert Where(m, p) == {};
  }
}
