/** Small shared vocabulary: optional values and counting over finite maps. */
module Basics {

  datatype Option<+T> = None | Some(value: T) {
    function GetOr(default: T): T {
      match this
      case Some(v) => v
      case None => default
    }
  }

  function Max(a: int, b: int): int {
    if a < b then b else a
  }

  ghost function Satisfying<K, V>(m: map<K, V>, p: V -> bool): set<K> {
    set k | k in m && p(m[k])
  }

  /** How many keys of `m` carry a value that satisfies `p`. */
  ghost function Tally<K, V>(m: map<K, V>, p: V -> bool): nat {
    |Satisfying(m, p)|
  }

  /** Replacing one binding moves the tally by at most one, in the obvious direction. */
  lemma TallyReplace<K, V>(m: map<K, V>, k: K, v: V, p: V -> bool)
    requires k in m
    ensures Tally(m[k := v], p) == Tally(m, p) - (if p(m[k]) then 1 else 0) + (if p(v) then 1 else 0)
  {
    var rest := map i | i in m && i != k :: m[i];
    assert rest[k := m[k]] == m;
    assert rest[k := v] == m[k := v];
    TallyAdd(rest, k, m[k], p);
    TallyAdd(rest, k, v, p);
  }

  lemma TallyAdd<K, V>(m: map<K, V>, k: K, v: V, p: V -> bool)
    requires k !in m
    ensures Tally(m[k := v], p) == Tally(m, p) + (if p(v) then 1 else 0)
  {
    var before, after := Satisfying(m, p), Satisfying(m[k := v], p);
    assert k !in before;
    if p(v) {
      assert after == before + {k};
    } else {
      assert after == before;
    }
  }

  /** A tally of zero means nobody satisfies the predicate, and conversely. */
  lemma TallyZero<K, V>(m: map<K, V>, p: V -> bool)
    ensures Tally(m, p) == 0 <==> forall k :: k in m ==> !p(m[k])
  {
    forall k | k in m && p(m[k])
      ensures Tally(m, p) != 0
    {
      assert k in Satisfying(m, p);
    }
    if Tally(m, p) != 0 {
      var k :| k in Satisfying(m, p);
      assert k in m && p(m[k]);
    }
  }
}
