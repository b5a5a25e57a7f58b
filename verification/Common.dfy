/** Small vocabulary shared by the other modules. */
module Common {

  /** A nullable pointer or an absent value. */
  datatype Option<+T> = None | Some(value: T)

  /** An unsigned char. */
  type byte = x: int | 0 <= x < 256

  // Messages below this size are kept in the message itself.
  const MAX_VSM_SIZE := 33

  /** Counts a truth value as 0 or 1. */
  function Bit(b: bool): nat {
    if b then 1 else 0
  }

  // ----- Sums over the values of a map --------------------------------------------------------

  ghost function Pick(m: map<nat, nat>): (k: nat)
    requires m != map[]
    ensures k in m
  {
    assert exists k :: k in m;
    var k :| k in m; k
  }

  ghost function Sum(m: map<nat, nat>): nat
    decreases m.Keys
  {
    if m == map[] then 0 else m[Pick(m)] + Sum(m - {Pick(m)})
  }

  lemma {:induction false} SumAt(m: map<nat, nat>, k: nat)
    requires k in m
    ensures Sum(m) == m[k] + Sum(m - {k})
    decreases m.Keys
  {
    var p := Pick(m);
    if p != k {
      SumAt(m - {p}, k);
      SumAt(m - {k}, p);
      assert m - {p} - {k} == m - {k} - {p};
    }
  }

  function At(m: map<nat, nat>, k: nat): nat {
    if k in m then m[k] else 0
  }

  /** If the maps differ at k only, so do the sums. */
  lemma SumChange(m: map<nat, nat>, n: map<nat, nat>, k: nat)
    requires m - {k} == n - {k}
    ensures Sum(n) - At(n, k) == Sum(m) - At(m, k)
  {
    SumWithout(m, k);
    SumWithout(n, k);
  }

  lemma SumWithout(m: map<nat, nat>, k: nat)
    ensures Sum(m) == At(m, k) + Sum(m - {k})
  {
    if k in m { SumAt(m, k); } else { assert m - {k} == m; }
  }
}
