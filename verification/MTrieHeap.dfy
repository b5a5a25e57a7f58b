/**
 * The nodes of a multi-trie in memory: which addresses are in use, which prefix each
 * node stands for, and the three ways in which the structure changes.
 */
module MTrieHeap {
  import opened Common
  import opened MTrieNode

  type Path = seq<byte>

  /** The nodes in memory, and the two-way book of which node stands for which prefix. */
  datatype Forest = Forest(heap: map<Addr, Node>, at: map<Path, Addr>, path: map<Addr, Path>)

  ghost function Look(f: Forest, p: Path): Addr {
    if p in f.at then f.at[p] else NULL
  }

  ghost predicate Has(f: Forest, p: Path) {
    p in f.at && f.at[p] in f.heap
  }

  ghost function NodeAt(f: Forest, p: Path): Node
    requires Has(f, p)
  {
    f.heap[f.at[p]]
  }

  ghost predicate PathOk(f: Forest, p: Path) {
    p in f.at ==>
      && f.at[p] in f.heap && f.at[p] != NULL
      && f.at[p] in f.path && f.path[f.at[p]] == p
      && (p != [] ==> p[..|p| - 1] in f.at)
  }

  /** No leaks: a node in memory is the node of some prefix. */
  ghost predicate AddrOk(f: Forest, a: Addr) {
    a in f.heap ==> a in f.path && f.path[a] in f.at && f.at[f.path[a]] == a
  }

  /** The pointer under c leads to the node of the longer prefix, and is null if there is none. */
  ghost predicate LinkOk(f: Forest, p: Path, c: byte) {
    Has(f, p) ==> Kid(NodeAt(f, p), c) == Look(f, p + [c])
  }

  ghost predicate Linked(f: Forest) {
    && [] in f.at
    && (forall p {:trigger PathOk(f, p)} :: PathOk(f, p))
    && (forall a {:trigger AddrOk(f, a)} :: AddrOk(f, a))
    && (forall p, c {:trigger LinkOk(f, p, c)} :: LinkOk(f, p, c))
  }

  /** Every node outside `loose` has its proper shape, and every such node but the root is of use. */
  ghost predicate FitAt(f: Forest, p: Path) {
    Has(f, p) ==> ShapeOk(NodeAt(f, p)) && (p != [] ==> !Redundant(NodeAt(f, p)))
  }

  ghost predicate Fit(f: Forest, loose: set<Path>) {
    forall p {:trigger FitAt(f, p)} :: p !in loose ==> FitAt(f, p)
  }

  /** The subscriptions that the trie stands for. */
  ghost function Subs(f: Forest): map<Path, set<Value>> {
    map p | p in f.at && f.at[p] in f.heap && f.heap[f.at[p]].pipes.Some? :: f.heap[f.at[p]].pipes.value
  }

  // ----- Paths ------------------------------------------------------------------------

  lemma SnocInjective(p: Path, c: byte, q: Path, d: byte)
    ensures p + [c] == q + [d] ==> p == q && c == d
    ensures (p + [c])[..|p + [c]| - 1] == p
  {
    if p + [c] == q + [d] {
      assert |p| == |q|;
      assert p == (p + [c])[..|p|] == (q + [d])[..|q|] == q;
      assert (p + [c])[|p|] == (q + [d])[|q|];
    }
  }

  lemma {:induction false} PrefixClosed(f: Forest, p: Path, k: nat)
    requires Linked(f) && p in f.at && k <= |p|
    ensures p[..k] in f.at
    decreases |p|
  {
    if k == |p| {
      assert p[..k] == p;
    } else {
      assert PathOk(f, p);
      var q := p[..|p| - 1];
      PrefixClosed(f, q, k);
      assert q[..k] == p[..k];
    }
  }

  /** On the way to q, the node at p has a child. */
  lemma BranchLeads(f: Forest, p: Path, q: Path)
    requires Linked(f) && Has(f, p) && q in f.at && |q| > |p| && q[..|p|] == p
    ensures p + [q[|p|]] in f.at && Kid(NodeAt(f, p), q[|p|]) == f.at[p + [q[|p|]]] != NULL
  {
    var k := |p| + 1;
    PrefixClosed(f, q, k);
    assert q[..k] == p + [q[|p|]];
    assert PathOk(f, q[..k]) && LinkOk(f, p, q[|p|]);
  }

  /** A node without children ends its branch. */
  lemma LeafEnds(f: Forest, p: Path)
    requires Linked(f) && Has(f, p) && NodeAt(f, p).count == 0
    ensures forall q :: q in f.at && |q| > |p| ==> q[..|p|] != p
  {
    forall q | q in f.at && |q| > |p| ensures q[..|p|] != p {
      if q[..|p|] == p { BranchLeads(f, p, q); }
    }
  }

  // ----- No node too many ------------------------------------------------------------------------------

  /** A counted child can be found. */
  lemma LiveKid(n: Node) returns (c: byte)
    requires Counted(n) && n.live > 0
    ensures Kid(n, c) != NULL
  {
    if n.count == 1 {
      c := n.min;
    } else {
      var i := NonNullWitness(n.next.table);
      c := n.min + i;
    }
  }

  lemma LengthBound(paths: set<Path>) returns (bound: nat)
    ensures forall p :: p in paths ==> |p| <= bound
    decreases |paths|
  {
    if paths == {} {
      bound := 0;
    } else {
      var p :| p in paths;
      var b := LengthBound(paths - {p});
      bound := if b > |p| then b else |p|;
      assert forall q :: q in paths ==> q == p || q in paths - {p};
    }
  }

  /** From a node that is of use the way goes on to a subscription. */
  lemma {:induction false} LeadsOn(f: Forest, p: Path, bound: nat) returns (t: Path)
    requires Linked(f) && Fit(f, {}) && p in f.at && p != [] && forall q :: q in f.at ==> |q| <= bound
    ensures t in Subs(f) && p <= t
    decreases bound - |p|
  {
    assert PathOk(f, p) && FitAt(f, p);
    var n := NodeAt(f, p);
    if n.pipes.Some? {
      t := p;
    } else {
      var c := LiveKid(n);
      assert LinkOk(f, p, c);
      t := LeadsOn(f, p + [c], bound);
      assert p <= p + [c] <= t;
    }
  }

  /** Between operations there is a node for exactly the prefixes of the topics, besides the root. */
  lemma NodesAreNeeded(f: Forest, p: Path)
    requires Linked(f) && Fit(f, {})
    ensures p in f.at <==> p == [] || exists t :: t in Subs(f) && p <= t
  {
    if p in f.at && p != [] {
      var bound := LengthBound(f.at.Keys);
      var t := LeadsOn(f, p, bound);
      assert t in Subs(f) && p <= t;
    }
    forall t | t in Subs(f) && p <= t ensures p in f.at {
      PrefixClosed(f, t, |p|);
      assert t[..|p|] == p;
    }
  }

  // ----- The three changes -------------------------------------------------------------

  /** The node at p is replaced by one with the same children. */
  ghost function Put(f: Forest, p: Path, n: Node): Forest
    requires p in f.at
  {
    f.(heap := f.heap[f.at[p] := n])
  }

  lemma PutLinked(f: Forest, p: Path, n: Node)
    requires Linked(f) && Has(f, p) && forall b: byte :: Kid(n, b) == Kid(NodeAt(f, p), b)
    ensures Linked(Put(f, p, n))
    ensures forall q :: q in f.at ==>
              Has(f, q) && Has(Put(f, p, n), q) && NodeAt(Put(f, p, n), q) == if q == p then n else NodeAt(f, q)
  {
    var g := Put(f, p, n);
    assert PathOk(f, p);
    forall q ensures PathOk(g, q) { assert PathOk(f, q); }
    forall a ensures AddrOk(g, a) { assert AddrOk(f, a); }
    forall q | q in f.at ensures Has(f, q) && Has(g, q) && NodeAt(g, q) == if q == p then n else NodeAt(f, q) {
      assert PathOk(f, q);
    }
    forall q, c ensures LinkOk(g, q, c) {
      assert LinkOk(f, q, c);
    }
  }

  /** A new empty node a appears under byte c of the node at p, which becomes n. */
  ghost function Sprout(f: Forest, p: Path, c: byte, a: Addr, n: Node): Forest
    requires p in f.at
  {
    Forest(f.heap[f.at[p] := n][a := EMPTY], f.at[p + [c] := a], f.path[a := p + [c]])
  }

  lemma SproutLinked(f: Forest, p: Path, c: byte, a: Addr, n: Node)
    requires Linked(f) && Has(f, p) && a !in f.heap && a != NULL && Kid(NodeAt(f, p), c) == NULL
    requires forall b: byte :: Kid(n, b) == if b == c then a else Kid(NodeAt(f, p), b)
    ensures Linked(Sprout(f, p, c, a, n))
    ensures var g := Sprout(f, p, c, a, n);
            && Has(g, p + [c]) && NodeAt(g, p + [c]) == EMPTY && p + [c] !in f.at
            && forall q :: q in f.at ==> Has(f, q) && Has(g, q) && NodeAt(g, q) == if q == p then n else NodeAt(f, q)
  {
    var g := Sprout(f, p, c, a, n);
    assert LinkOk(f, p, c) && PathOk(f, p) && PathOk(f, p + [c]);
    SnocInjective(p, c, p, c);
    forall q ensures PathOk(g, q) { assert PathOk(f, q); }
    forall b ensures AddrOk(g, b) { assert AddrOk(f, b); }
    forall q | q in f.at ensures Has(f, q) && Has(g, q) && NodeAt(g, q) == if q == p then n else NodeAt(f, q) {
      assert PathOk(f, q);
    }
    forall q, b ensures LinkOk(g, q, b) { SproutLink(f, p, c, a, n, q, b); }
  }

  lemma SproutLink(f: Forest, p: Path, c: byte, a: Addr, n: Node, q: Path, b: byte)
    requires Linked(f) && Has(f, p) && a !in f.heap && a != NULL && p + [c] !in f.at
    requires p in f.at
    requires forall d: byte :: Kid(n, d) == if d == c then a else Kid(NodeAt(f, p), d)
    ensures LinkOk(Sprout(f, p, c, a, n), q, b)
  {
    assert LinkOk(f, q, b) && PathOk(f, q) && PathOk(f, p);
    SnocInjective(q, b, p, c);
    assert PathOk(f, q + [b]);
    SnocInjective(q, b, q, b);
  }

  /** The childless node under byte c of the node at p is deleted, and the node at p becomes n. */
  ghost function Wither(f: Forest, p: Path, c: byte, n: Node): Forest
    requires p in f.at && p + [c] in f.at
  {
    Forest(f.heap[f.at[p] := n] - {f.at[p + [c]]}, f.at - {p + [c]}, f.path - {f.at[p + [c]]})
  }

  lemma WitherLinked(f: Forest, p: Path, c: byte, n: Node)
    requires Linked(f) && Has(f, p) && Has(f, p + [c]) && NodeAt(f, p + [c]).count == 0
    requires forall b: byte :: Kid(n, b) == if b == c then NULL else Kid(NodeAt(f, p), b)
    ensures Linked(Wither(f, p, c, n))
    ensures var g := Wither(f, p, c, n);
            && p + [c] !in g.at
            && forall q :: q in g.at ==> Has(f, q) && Has(g, q) && NodeAt(g, q) == if q == p then n else NodeAt(f, q)
  {
    var g := Wither(f, p, c, n);
    var leaf := p + [c];
    assert PathOk(f, p) && PathOk(f, leaf);
    LeafEnds(f, leaf);
    forall q ensures PathOk(g, q) {
      assert PathOk(f, q);
      assert q != [] && q[..|q| - 1] == leaf ==> |q| > |leaf| && q[..|leaf|] == leaf;
    }
    forall b ensures AddrOk(g, b) { assert AddrOk(f, b); }
    forall q | q in g.at ensures Has(f, q) && Has(g, q) && NodeAt(g, q) == if q == p then n else NodeAt(f, q) {
      assert PathOk(f, q) && PathOk(g, q);
    }
    forall q, b ensures LinkOk(g, q, b) {
      assert LinkOk(f, q, b) && PathOk(f, q);
      SnocInjective(q, b, p, c);
    }
    assert [] != leaf;
  }

  // ----- What the changes do to the subscriptions -----------------------------------------

  /** The subscriptions m with those of prefix p replaced. */
  function Replaced(m: map<Path, set<Value>>, p: Path, pipes: Option<set<Value>>): map<Path, set<Value>> {
    match pipes
    case None => m - {p}
    case Some(s) => m[p := s]
  }

  lemma PutSubs(f: Forest, p: Path, n: Node)
    requires Linked(f) && Has(f, p) && forall b: byte :: Kid(n, b) == Kid(NodeAt(f, p), b)
    ensures Subs(Put(f, p, n)) == Replaced(Subs(f), p, n.pipes)
  {
    PutLinked(f, p, n);
    var g := Put(f, p, n);
    forall q ensures q in Subs(g) <==> q in Replaced(Subs(f), p, n.pipes) {
      if q in f.at { assert Has(g, q); }
    }
  }

  lemma SproutSubs(f: Forest, p: Path, c: byte, a: Addr, n: Node)
    requires Linked(f) && Has(f, p) && a !in f.heap && a != NULL && Kid(NodeAt(f, p), c) == NULL
    requires forall b: byte :: Kid(n, b) == if b == c then a else Kid(NodeAt(f, p), b)
    requires n.pipes == NodeAt(f, p).pipes
    ensures Subs(Sprout(f, p, c, a, n)) == Subs(f)
  {
    SproutLinked(f, p, c, a, n);
  }

  lemma WitherSubs(f: Forest, p: Path, c: byte, n: Node)
    requires Linked(f) && Has(f, p) && Has(f, p + [c]) && NodeAt(f, p + [c]).count == 0
    requires forall b: byte :: Kid(n, b) == if b == c then NULL else Kid(NodeAt(f, p), b)
    requires n.pipes == NodeAt(f, p).pipes && NodeAt(f, p + [c]).pipes.None?
    ensures Subs(Wither(f, p, c, n)) == Subs(f)
  {
    WitherLinked(f, p, c, n);
    var g := Wither(f, p, c, n);
    forall q ensures q in Subs(g) <==> q in Subs(f) {
      if q in f.at && q != p + [c] { assert Has(g, q); }
    }
  }
}
