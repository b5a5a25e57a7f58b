/**
 * One node of the subscription multi-trie of src/generic_mtrie_impl.hpp: its three
 * shapes, and the reshaping of its child table when a child comes or goes.
 */
module MTrieNode {
  import opened Common

  /** A node address; 0 is the null pointer. */
  type Addr = nat
  const NULL: Addr := 0

  /** A subscriber, that is, the address of a pipe. */
  type Value = nat

  /** The union _next: nothing stored yet, one node, or a table of nodes. */
  datatype Next = Raw | One(node: Addr) | Many(table: seq<Addr>)

  datatype Node = Node(pipes: Option<set<Value>>, min: byte, count: nat, live: nat, next: Next)

  /** The node that the constructor makes. */
  const EMPTY := Node(None, 0, 0, 0, Raw)

  /** How many entries of a table are not null. */
  function NonNull(t: seq<Addr>): nat {
    if t == [] then 0 else Bit(t[0] != NULL) + NonNull(t[1..])
  }

  /** The child that a lookup of byte c finds, or null. */
  function Kid(n: Node, c: byte): Addr {
    if n.count == 0 then NULL
    else if n.count == 1 then (if c == n.min && n.next.One? then n.next.node else NULL)
    else if n.next.Many? && n.min <= c < n.min + |n.next.table| then n.next.table[c - n.min]
    else NULL
  }

  predicate Redundant(n: Node) {
    n.pipes.None? && n.live == 0
  }

  /** The union member in use and the size of the table agree with the count. */
  predicate Sized(n: Node) {
    && (n.count == 1 ==> n.next.One?)
    && (n.count > 1 ==> n.next.Many? && |n.next.table| == n.count && n.min + n.count <= 256)
  }

  /** live counts the children, except that one more child is about to come. */
  predicate Counted(n: Node) {
    && Sized(n)
    && (n.count == 0 ==> n.live == 0)
    && (n.count == 1 ==> n.live == Bit(n.next.node != NULL))
    && (n.count > 1 ==> n.live == NonNull(n.next.table))
  }

  /** The shape every node has between operations. */
  predicate ShapeOk(n: Node) {
    && Counted(n)
    && (n.count == 1 ==> n.next.node != NULL)
    && (n.count > 1 ==> n.next.table[0] != NULL && n.next.table[n.count - 1] != NULL)
    && (n.pipes.Some? ==> n.pipes.value != {})
  }

  predicate InRange(n: Node, c: byte) {
    n.min <= c < n.min + n.count
  }

  // ----- Counting entries ----------------------------------------------------------

  lemma {:induction false} NonNullAppend(a: seq<Addr>, b: seq<Addr>)
    ensures NonNull(a + b) == NonNull(a) + NonNull(b)
  {
    if a == [] {
      assert a + b == b;
    } else {
      assert (a + b)[1..] == a[1..] + b;
      NonNullAppend(a[1..], b);
    }
  }

  lemma {:induction false} NonNullZero(t: seq<Addr>)
    requires forall i :: 0 <= i < |t| ==> t[i] == NULL
    ensures NonNull(t) == 0
  {
    if t != [] {
      assert forall i :: 0 <= i < |t[1..]| ==> t[1..][i] == t[i + 1];
      NonNullZero(t[1..]);
    }
  }

  lemma {:induction false} NonNullBound(t: seq<Addr>)
    ensures NonNull(t) <= |t|
  {
    if t != [] { NonNullBound(t[1..]); }
  }

  lemma NonNullUpdate(t: seq<Addr>, i: nat, a: Addr)
    requires i < |t|
    ensures NonNull(t[i := a]) + Bit(t[i] != NULL) == NonNull(t) + Bit(a != NULL)
  {
    var l, r := t[..i], t[i + 1..];
    assert t == l + [t[i]] + r;
    assert t[i := a] == l + [a] + r;
    NonNullAppend(l + [t[i]], r);
    NonNullAppend(l, [t[i]]);
    NonNullAppend(l + [a], r);
    NonNullAppend(l, [a]);
    assert [a][1..] == [] && [t[i]][1..] == [];
  }

  lemma {:induction false} NonNullWitness(t: seq<Addr>) returns (i: nat)
    requires NonNull(t) > 0
    ensures i < |t| && t[i] != NULL && forall j :: 0 <= j < i ==> t[j] == NULL
  {
    if t[0] != NULL {
      i := 0;
    } else {
      i := NonNullWitness(t[1..]);
      assert forall j :: 0 < j < i + 1 ==> t[j] == t[1..][j - 1];
      i := i + 1;
    }
  }

  /** Two different children in a table make its count at least two. */
  lemma NonNullTwo(t: seq<Addr>, i: nat, j: nat)
    requires i < j < |t| && t[i] != NULL && t[j] != NULL
    ensures NonNull(t) >= 2
  {
    NonNullUpdate(t, i, NULL);
    NonNullUpdate(t[i := NULL], j, NULL);
  }

  /** With at most one child, any two non-null entries are the same entry. */
  lemma NonNullOne(t: seq<Addr>, i: nat)
    requires NonNull(t) <= 1 && i < |t| && t[i] != NULL
    ensures forall j :: 0 <= j < |t| && t[j] != NULL ==> j == i
  {
    forall j | 0 <= j < |t| && t[j] != NULL ensures j == i {
      if j < i { NonNullTwo(t, j, i); } else if i < j { NonNullTwo(t, i, j); }
    }
  }

  // ----- A child comes ---------------------------------------------------------------

  /** g is n with room for a child under c: nothing else about its children changed. */
  predicate MadeRoom(n: Node, g: Node, c: byte) {
    && Counted(g) && InRange(g, c)
    && g.pipes == n.pipes && g.live == n.live
    && (forall b: byte :: Kid(g, b) == Kid(n, b))
    && (g.count > 1 ==> (g.next.table[0] != NULL || g.min == c))
    && (g.count > 1 ==> (g.next.table[g.count - 1] != NULL || g.min + g.count - 1 == c))
  }

  /** k null entries. */
  method Nulls(k: nat) returns (t: seq<Addr>)
    ensures |t| == k && (forall i :: 0 <= i < k ==> t[i] == NULL) && NonNull(t) == 0
  {
    t := [];
    var i := 0;
    while i != k
      invariant 0 <= i <= k && |t| == i
      invariant forall j :: 0 <= j < i ==> t[j] == NULL
    {
      t := t + [NULL];
      i := i + 1;
    }
    NonNullZero(t);
  }

  /** Extends the range of n until it covers c, in whichever direction that is. */
  method Grow(n: Node, c: byte) returns (g: Node)
    requires ShapeOk(n) && !InRange(n, c)
    ensures MadeRoom(n, g, c) && Kid(n, c) == NULL
  {
    if n.count == 0 {
      g := n.(min := c, count := 1, next := One(NULL));
    } else if n.count == 1 {
      g := GrowFromOne(n, c);
    } else if n.min < c {
      var more := Nulls(c - n.min + 1 - n.count);
      g := n.(count := c - n.min + 1, next := Many(n.next.table + more));
      NonNullAppend(n.next.table, more);
    } else {
      var more := Nulls(n.min - c);
      g := n.(min := c, count := n.min + n.count - c, next := Many(more + n.next.table));
      NonNullAppend(more, n.next.table);
    }
  }

  method GrowFromOne(n: Node, c: byte) returns (g: Node)
    requires ShapeOk(n) && !InRange(n, c) && n.count == 1
    ensures MadeRoom(n, g, c) && Kid(n, c) == NULL
  {
    var count := (if n.min < c then c - n.min else n.min - c) + 1;
    var t := Nulls(count);
    var min := if n.min < c then n.min else c;
    NonNullUpdate(t, n.min - min, n.next.node);
    g := n.(min := min, count := count, next := Many(t[n.min - min := n.next.node]));
  }

  /** n with child a under c. */
  function WithKid(n: Node, c: byte, a: Addr): Node
    requires Sized(n) && InRange(n, c)
  {
    if n.count == 1 then n.(next := One(a), live := n.live + 1)
    else n.(next := Many(n.next.table[c - n.min := a]), live := n.live + 1)
  }

  lemma WithKidOk(n: Node, c: byte, a: Addr)
    requires Counted(n) && InRange(n, c) && Kid(n, c) == NULL && a != NULL
    requires n.count > 1 ==> n.next.table[0] != NULL || n.min == c
    requires n.count > 1 ==> n.next.table[n.count - 1] != NULL || n.min + n.count - 1 == c
    requires n.pipes.Some? ==> n.pipes.value != {}
    ensures ShapeOk(WithKid(n, c, a))
    ensures forall b: byte :: Kid(WithKid(n, c, a), b) == if b == c then a else Kid(n, b)
  {
    if n.count > 1 { NonNullUpdate(n.next.table, c - n.min, a); }
  }

  // ----- A child goes ----------------------------------------------------------------

  /** r is n without its child under c: nothing else about its children changed. */
  predicate Lost(n: Node, r: Node, c: byte) {
    && r.pipes == n.pipes
    && (forall b: byte :: Kid(r, b) == if b == c then NULL else Kid(n, b))
  }

  /** Removes the child under c and compacts the table as far as that uncovers null entries. */
  method Prune(n: Node, c: byte) returns (r: Node)
    requires ShapeOk(n) && Kid(n, c) != NULL
    ensures ShapeOk(r) && Lost(n, r, c)
  {
    if n.count == 1 {
      r := n.(next := One(NULL), count := 0, live := n.live - 1);
      assert r.live == 0;
      return;
    }
    var t := n.next.table[c - n.min := NULL];
    NonNullUpdate(n.next.table, c - n.min, NULL);
    NonNullTwo(n.next.table, 0, n.count - 1);
    assert n.live > 1;
    var live := n.live - 1;
    if live == 1 {
      var i := FirstFrom(t, 0);
      NonNullOne(t, i);
      r := n.(min := n.min + i, count := 1, live := 1, next := One(t[i]));
      forall b: byte ensures Kid(r, b) == if b == c then NULL else Kid(n, b) {
        if n.min <= b < n.min + n.count && b != c { assert t[b - n.min] == Kid(n, b); }
      }
    } else if c == n.min {
      r := PruneLeft(n, t, live);
    } else if c == n.min + n.count - 1 {
      r := PruneRight(n, t, live);
    } else {
      r := n.(live := live, next := Many(t));
    }
  }

  /** The first non-null entry at or after position k. */
  method FirstFrom(t: seq<Addr>, k: nat) returns (i: nat)
    requires k <= |t| && NonNull(t) > 0 && forall j :: 0 <= j < k ==> t[j] == NULL
    ensures k <= i < |t| && t[i] != NULL && forall j :: 0 <= j < i ==> t[j] == NULL
  {
    i := k;
    while i < |t| && t[i] == NULL
      invariant k <= i <= |t| && forall j :: 0 <= j < i ==> t[j] == NULL
    {
      i := i + 1;
    }
    if i == |t| { NonNullZero(t); }
  }

  method PruneLeft(n: Node, t: seq<Addr>, live: nat) returns (r: Node)
    requires ShapeOk(n) && n.count > 1 && t == n.next.table[0 := NULL] && live == NonNull(t) && live > 1
    ensures ShapeOk(r) && Lost(n, r, n.min)
  {
    var i := FirstFrom(t, 1);
    NonNullZero(t[..i]);
    assert t == t[..i] + t[i..];
    NonNullAppend(t[..i], t[i..]);
    NonNullBound(t[i..]);
    r := n.(min := n.min + i, count := n.count - i, live := live, next := Many(t[i..]));
  }

  lemma NonNullCut(t: seq<Addr>, k: nat)
    requires k <= |t| && forall i :: k <= i < |t| ==> t[i] == NULL
    ensures NonNull(t[..k]) == NonNull(t) <= k
  {
    NonNullZero(t[k..]);
    assert t == t[..k] + t[k..];
    NonNullAppend(t[..k], t[k..]);
    NonNullBound(t[..k]);
  }

  method PruneRight(n: Node, t: seq<Addr>, live: nat) returns (r: Node)
    requires ShapeOk(n) && n.count > 1 && t == n.next.table[n.count - 1 := NULL] && live == NonNull(t) && live > 1
    ensures ShapeOk(r) && Lost(n, r, n.min + n.count - 1)
  {
    var i := 1;
    while i < n.count && t[n.count - 1 - i] == NULL
      invariant 1 <= i <= n.count && forall j :: n.count - i <= j < n.count ==> t[j] == NULL
    {
      i := i + 1;
    }
    if i == n.count { NonNullZero(t); }
    var k := n.count - i;
    NonNullCut(t, k);
    r := n.(count := k, live := live, next := Many(t[..k]));
    forall b: byte ensures Kid(r, b) == if b == n.min + n.count - 1 then NULL else Kid(n, b) {
      if n.min <= b < n.min + n.count { assert t[b - n.min] == NULL || t[b - n.min] == Kid(n, b); }
    }
  }

  /** n with the entry for c cleared and the table left as long as it is. */
  function Cleared(n: Node, c: byte): Node
    requires Counted(n) && n.count > 1 && Kid(n, c) != NULL && n.live > 0
  {
    n.(next := Many(n.next.table[c - n.min := NULL]), live := n.live - 1)
  }

  lemma ClearedOk(n: Node, c: byte)
    requires Counted(n) && n.count > 1 && Kid(n, c) != NULL
    ensures n.live > 0 && Counted(Cleared(n, c)) && Lost(n, Cleared(n, c), c)
  {
    NonNullUpdate(n.next.table, c - n.min, NULL);
  }

  /** lo and hi are the first and the last non-null entries, or the initial guess if there is none. */
  predicate Extremes(t: seq<Addr>, k: nat, lo: nat, hi: nat) {
    && k <= |t|
    && (forall i :: 0 <= i < k && t[i] != NULL ==> lo <= i <= hi)
    && ((lo == |t| - 1 && hi == 0) || (lo < k && hi < k && t[lo] != NULL && t[hi] != NULL))
  }

  /** The end of rm on a table node: shrink the table to the children that are left. */
  method Compact(n: Node, newMin: nat, newMax: nat) returns (r: Node)
    requires Counted(n) && n.count > 1 && (n.pipes.Some? ==> n.pipes.value != {})
    requires n.min <= newMin && n.min <= newMax
    requires Extremes(n.next.table, n.count, newMin - n.min, newMax - n.min)
    ensures ShapeOk(r) && r.pipes == n.pipes && r.live == n.live && forall b: byte :: Kid(r, b) == Kid(n, b)
  {
    var t := n.next.table;
    if n.live == 0 {
      r := n.(count := 0, next := Raw);
      if i :| 0 <= i < |t| && t[i] != NULL { NonNullUpdate(t, i, NULL); }
      return;
    }
    ghost var w := NonNullWitness(t);
    var lo, hi := newMin - n.min, newMax - n.min;
    if n.live == 1 {
      NonNullOne(t, lo);
      assert newMin == newMax && newMin >= n.min && newMin < n.min + n.count;
      assert t[lo] != NULL;
      r := n.(count := 1, min := newMin, next := One(t[lo]));
    } else if newMin > n.min || newMax < n.min + n.count - 1 {
      r := Shrink(n, lo, hi);
    } else {
      r := n;
    }
  }

  lemma NonNullMiddle(t: seq<Addr>, lo: nat, hi: nat)
    requires lo <= hi < |t| && forall i :: 0 <= i < |t| && t[i] != NULL ==> lo <= i <= hi
    ensures NonNull(t[lo..hi + 1]) == NonNull(t)
  {
    var k := hi + 1;
    NonNullPieces(t, t[..k], lo, k);
  }

  lemma NonNullPieces(t: seq<Addr>, front: seq<Addr>, lo: nat, k: nat)
    requires lo <= k <= |t| && front == t[..k] && forall i :: 0 <= i < |t| && t[i] != NULL ==> lo <= i < k
    ensures NonNull(t[lo..k]) == NonNull(t)
  {
    var l, m, r := front[..lo], t[lo..k], t[k..];
    forall i | 0 <= i < |l| ensures l[i] == NULL { assert l[i] == t[i]; }
    forall i | 0 <= i < |r| ensures r[i] == NULL { assert r[i] == t[k + i]; }
    NonNullZero(l);
    NonNullZero(r);
    assert t == front + r && front == l + m;
    NonNullAppend(front, r);
    NonNullAppend(l, m);
  }

  method Shrink(n: Node, lo: nat, hi: nat) returns (r: Node)
    requires Counted(n) && n.count > 1 && n.live > 1 && (n.pipes.Some? ==> n.pipes.value != {})
    requires lo < n.count && hi < n.count && n.next.table[lo] != NULL && n.next.table[hi] != NULL
    requires forall i :: 0 <= i < n.count && n.next.table[i] != NULL ==> lo <= i <= hi
    requires lo > 0 || hi < n.count - 1
    ensures ShapeOk(r) && r.pipes == n.pipes && r.live == n.live && forall b: byte :: Kid(r, b) == Kid(n, b)
  {
    var t := n.next.table;
    NonNullMiddle(t, lo, hi);
    NonNullBound(t[lo..hi + 1]);
    assert hi - lo + 1 > 1 && hi - lo + 1 < n.count;
    r := n.(count := hi - lo + 1, min := n.min + lo, next := Many(t[lo..hi + 1]));
  }
}
