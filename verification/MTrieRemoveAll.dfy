/**
 * rm of a subscriber from the whole trie: an explicit stack drives a walk over all
 * nodes that takes the subscriber out, calls back, and prunes and compacts on the way up.
 */
module MTrieRemoveAll {
  import opened Common
  import opened MTrieNode
  import opened MTrieHeap
  import opened MTrie
  import opened MTrieWalk

  // ----- What it is meant to do ------------------------------------------------------------

  /** Every prefix keeps its subscribers except v, and a prefix that is left without any goes. */
  ghost function WithoutAll(m: map<Path, set<Value>>, v: Value): map<Path, set<Value>> {
    map p | p in m && m[p] != {v} :: m[p] - {v}
  }

  /** The removal of v from p is reported: always, or only if v was the last subscriber. */
  ghost predicate Reported(m: map<Path, set<Value>>, v: Value, uniq: bool, p: Path) {
    p in m && v in m[p] && (uniq ==> m[p] == {v})
  }

  ghost predicate LosesAllAt(m: map<Path, set<Value>>, n: map<Path, set<Value>>, v: Value, q: Path, u: Value) {
    u in SubscribersOf(n, q) <==> u in SubscribersOf(m, q) && u != v
  }

  /** Exactly the entries of v are gone. */
  ghost predicate LosesAll(m: map<Path, set<Value>>, n: map<Path, set<Value>>, v: Value) {
    Neat(n) && forall q, u {:trigger LosesAllAt(m, n, v, q, u)} :: LosesAllAt(m, n, v, q, u)
  }

  lemma WithoutAllLoses(m: map<Path, set<Value>>, v: Value, n: map<Path, set<Value>>)
    requires Neat(m) && n == WithoutAll(m, v)
    ensures LosesAll(m, n, v)
  {
    forall q ensures NeatAt(n, q) {
      assert NeatAt(m, q);
      if q in n && v in m[q] { OthersLeft(m[q], v); }
    }
    forall q, u ensures LosesAllAt(m, n, v, q, u) { }
  }

  // ----- The walk is under way as long as the stack is not empty -----------------------------

  ghost predicate Unvisited(stack: seq<Visit>) {
    stack != [] && !Last(stack).processed && Last(stack).currentChild == 0
  }

  /** Rounds that the entries on the stack still take, not counting first visits. */
  ghost function Rounds(stack: seq<Visit>): nat {
    if stack == [] then 0
    else Rounds(stack[..|stack| - 1]) + RoundsOf(Last(stack))
  }

  ghost function RoundsOf(it: Visit): nat {
    if it.currentChild > 257 || (!it.processed && it.currentChild == 0) then 0
    else 2 * (257 - it.currentChild) + Bit(!it.processed)
  }

  lemma RoundsPush(stack: seq<Visit>, it: Visit)
    ensures Rounds(stack + [it]) == Rounds(stack) + RoundsOf(it)
  {
    assert (stack + [it])[..|stack|] == stack;
  }

  lemma MinusTwice(pipes: Option<set<Value>>, v: Value, uniq: bool)
    ensures Minus(Minus(pipes, v), v) == Minus(pipes, v) && !Fires(Minus(pipes, v), v, uniq)
  {
    if pipes.Some? { assert pipes.value - {v} - {v} == pipes.value - {v}; }
  }

  // ----- One visit ------------------------------------------------------------------------------

  /** The buffer holds the prefix of the node on top and has room for one more byte when it is needed. */
  ghost predicate BufferOk(buff: seq<byte>, cur: Path) {
    |cur| <= |buff| && buff[..|cur|] == cur
  }

  /** Takes v out of one node and calls back with the prefix that the buffer spells. */
  method RemoveValue(t: MTrie, it: Visit, v: Value, uniq: bool, buff: seq<byte>, calls: seq<Path>)
      returns (r: seq<Path>)
    requires it.node in t.heap && it.size <= |buff|
    requires t.heap[it.node].pipes.Some? ==> t.heap[it.node].pipes.value != {}
    modifies t`heap
    ensures var n := old(t.heap[it.node]);
            && t.heap == old(t.heap)[it.node := n.(pipes := Minus(n.pipes, v))]
            && r == if Fires(n.pipes, v, uniq) then calls + [buff[..it.size]] else calls
  {
    r := calls;
    var n := t.heap[it.node];
    if n.pipes.Some? && v in n.pipes.value {
      var left := n.pipes.value - {v};
      if !uniq || left == {} {
        r := r + [buff[..it.size]];
      }
      assert left == {} <==> n.pipes.value == {v};
      n := n.(pipes := if left == {} then None else Some(left));
      t.heap := t.heap[it.node := n];
    } else {
      assert n.pipes.Some? ==> n.pipes.value - {v} == n.pipes.value;
      assert t.heap == t.heap[it.node := n];
    }
  }

  /** Makes room in the buffer, in steps of 256 bytes. */
  method AdjustBuffer(buff: seq<byte>, size: nat) returns (r: seq<byte>)
    requires size <= |buff|
    ensures |r| > size && r[..size] == buff[..size]
  {
    r := buff;
    if size >= |r| {
      r := r + seq(size + 256 - |r|, _ => 0);
    }
  }

  /** The top entry is at a child of its node. */
  lemma TopIsOpen(j: Job, w: Walk, rest: seq<Visit>, it: Visit)
    requires WalkOk(j, w) && !w.untouched && w.stack == rest + [it]
    ensures |w.cur| == |rest| == it.size && Has(w.f, w.cur) && w.f.at[w.cur] == it.node && Top(w) == it
    ensures var n := NodeAt(w.f, w.cur);
            && it.node in w.f.heap && n == w.f.heap[it.node]
            && it.currentChild < n.count && n.min + it.currentChild < 256
            && (n.count == 1 ==> n.next.One?) && (n.count > 1 ==> n.next.Many? && |n.next.table| == n.count)
            && Kid(n, n.min + it.currentChild) == (if n.count == 1 then n.next.node else n.next.table[it.currentChild])
            && AtByte(w, n.min + it.currentChild)
  {
    assert FrameOk(j, w, |rest|) && w.cur[..|rest|] == w.cur;
  }

  /**
   * Pushes the node again, to be revisited, and its current child on top of it.  Here
   * `w` is the walk with the node on top, visited and with its current child to come.
   */
  method PushChild(t: MTrie, rest: seq<Visit>, it: Visit, buff: seq<byte>, ghost j: Job, ghost w: Walk)
      returns (stack: seq<Visit>, b: seq<byte>, ghost r: Walk)
    requires WalkOk(j, w) && !w.untouched && w.f == t.Memory() && w.stack == rest + [it] && !it.processed
    requires it.node in t.heap && t.heap[it.node].count > 0
    requires BufferOk(buff, w.cur) && |buff| > |w.cur|
    ensures WalkOk(j, r) && r == Walk(t.Memory(), stack, r.cur, w.seen, w.calls, Unvisited(stack))
    ensures BufferOk(b, r.cur)
    ensures Rounds(stack) <= Rounds(rest) + RoundsOf(it.(processed := true))
  {
    TopIsOpen(j, w, rest, it);
    var n := t.heap[it.node];
    var again := it.(processed := true);
    stack := rest + [again];
    RoundsPush(rest, again);
    var c: byte := n.min + it.currentChild;
    var kid := if n.count == 1 then n.next.node else n.next.table[it.currentChild];
    b := buff[it.size := c];
    assert w.stack[..|w.stack| - 1] == rest;
    if kid == NULL {
      MarkedOk(j, w, c);
      r := Marked(w);
    } else {
      EnteredOk(j, w, c, kid);
      RoundsPush(stack, Visit(kid, it.size + 1, 0, 0, 0, false));
      stack := stack + [Visit(kid, it.size + 1, 0, 0, 0, false)];
      r := Entered(w, c, kid);
      assert b[..|r.cur|] == r.cur;
    }
  }

  /** The work on a node before its (next) child: the subscriber goes, then the child is pushed. */
  method PreVisit(t: MTrie, rest: seq<Visit>, it: Visit, v: Value, uniq: bool, buff: seq<byte>, calls: seq<Path>,
                  ghost j: Job, ghost w: Walk)
      returns (stack: seq<Visit>, b: seq<byte>, cs: seq<Path>, ghost r: Walk)
    requires WalkOk(j, w) && j.v == v && j.uniq == uniq && !it.processed && BufferOk(buff, w.cur)
    requires w == Walk(t.Memory(), rest + [it], w.cur, w.seen, calls, Unvisited(rest + [it]))
    modifies t`heap
    ensures WalkOk(j, r) && r == Walk(t.Memory(), stack, r.cur, r.seen, cs, Unvisited(stack))
    ensures BufferOk(b, r.cur)
    ensures (w.untouched && r.seen == w.seen + {w.cur} && w.cur !in w.seen)
            || (r.seen == w.seen && Rounds(stack) < Rounds(rest + [it]))
  {
    ghost var last := |rest|;
    assert FrameOk(j, w, last) && w.cur[..last] == w.cur && Top(w) == it;
    assert Last(rest + [it]) == it;
    if it.currentChild == 0 {
      stack, b, cs, r := FirstVisit(t, rest, it, v, uniq, buff, calls, j, w);
    } else {
      assert KeptAt(j, w, w.cur);
      MinusTwice(NodeAt(j.f0, w.cur).pipes, v, uniq);
      cs := RemoveValue(t, it, v, uniq, buff, calls);
      assert t.heap == w.f.heap;
      b := AdjustBuffer(buff, it.size);
      RoundsPush(rest, it);
      stack, b, r := PushChild(t, rest, it, b, j, w);
    }
  }

  method FirstVisit(t: MTrie, rest: seq<Visit>, it: Visit, v: Value, uniq: bool, buff: seq<byte>, calls: seq<Path>,
                    ghost j: Job, ghost w: Walk)
      returns (stack: seq<Visit>, b: seq<byte>, cs: seq<Path>, ghost r: Walk)
    requires WalkOk(j, w) && j.v == v && j.uniq == uniq && w.untouched && BufferOk(buff, w.cur)
    requires w == Walk(t.Memory(), rest + [it], w.cur, w.seen, calls, true)
    modifies t`heap
    ensures WalkOk(j, r) && r == Walk(t.Memory(), stack, r.cur, r.seen, cs, Unvisited(stack))
    ensures BufferOk(b, r.cur) && r.seen == w.seen + {w.cur} && w.cur !in w.seen
  {
    ghost var last := |rest|;
    assert FrameOk(j, w, last) && w.cur[..last] == w.cur && Top(w) == it;
    TouchedLinked(j, w);
    cs := RemoveValue(t, it, v, uniq, buff, calls);
    assert t.Memory() == Touched(j, w).f;
    b := AdjustBuffer(buff, it.size);
    var n := t.heap[it.node];
    if n.count == 0 {
      stack := rest;
      LeftOk(j, w);
      r := Left(j, w);
      assert w.stack[..|w.stack| - 1] == rest;
      PoppedTop(j, w, r);
    } else {
      stack, b, r := PushFirst(t, rest, it, b, j, w);
    }
  }

  /** A node with children was visited: the first one is pushed. */
  method PushFirst(t: MTrie, rest: seq<Visit>, it: Visit, buff: seq<byte>, ghost j: Job, ghost w: Walk)
      returns (stack: seq<Visit>, b: seq<byte>, ghost r: Walk)
    requires WalkOk(j, w) && w.untouched && w.stack == rest + [it] && !it.processed
    requires Has(w.f, w.cur) && it.node == w.f.at[w.cur] && NodeAt(w.f, w.cur).count > 0
    requires t.Memory() == Touched(j, w).f && it.node in t.heap && BufferOk(buff, w.cur) && |buff| > |w.cur|
    requires t.heap[it.node].count == NodeAt(w.f, w.cur).count && t.heap[it.node].min == NodeAt(w.f, w.cur).min
    ensures WalkOk(j, r) && r == Walk(t.Memory(), stack, r.cur, w.seen + {w.cur}, Touched(j, w).calls, Unvisited(stack))
    ensures BufferOk(b, r.cur)
  {
    var n := t.heap[it.node];
    var at0 := if n.count > 1 then it.(newMin := n.min + n.count - 1, newMax := n.min) else it;
    BegunOk(j, w);
    ghost var u := Begun(j, w);
    assert u.stack == rest + [at0];
    stack, b, r := PushChild(t, rest, at0, buff, j, u);
  }

  /** What is on top after a pop waits for its revisit. */
  lemma PoppedTop(j: Job, w: Walk, r: Walk)
    requires WalkStackOk(j, w) && w.stack != [] && r.stack == w.stack[..|w.stack| - 1]
    ensures !Unvisited(r.stack)
  {
    if r.stack != [] {
      assert FrameOk(j, w, |r.stack| - 1);
    }
  }

  // ----- One revisit ------------------------------------------------------------------------------

  /** The child under c of node `node` is deleted; the node itself becomes n. */
  method DeleteChild(t: MTrie, node: Addr, child: Addr, n: Node, ghost p: Path, ghost c: byte)
    requires Linked(t.Memory()) && Look(t.Memory(), p) == node != NULL && Look(t.Memory(), p + [c]) == child != NULL
    requires node in t.heap && child in t.heap && t.heap[child].count == 0
    requires n.pipes == t.heap[node].pipes && Lost(t.heap[node], n, c)
    modifies t`heap, t`at, t`path
    ensures t.Memory() == Wither(old(t.Memory()), p, c, n) && Linked(t.Memory())
  {
    ghost var f := t.Memory();
    WitherLinked(f, p, c, n);
    t.heap := t.heap[node := n] - {child};
    t.at, t.path := t.at - {p + [c]}, t.path - {child};
  }

  lemma WitherTrims(w: Walk, c: byte, n: Node)
    requires Linked(w.f) && Has(w.f, w.cur) && Has(w.f, w.cur + [c])
    requires NodeAt(w.f, w.cur + [c]).count == 0 && NodeAt(w.f, w.cur + [c]).pipes.None?
    requires n.pipes == NodeAt(w.f, w.cur).pipes && Lost(NodeAt(w.f, w.cur), n, c)
    ensures Trimmed(w, Wither(w.f, w.cur, c, n), c) && NodeAt(Wither(w.f, w.cur, c, n), w.cur) == n
  {
    WitherLinked(w.f, w.cur, c, n);
    assert PathOk(w.f, w.cur) && PathOk(w.f, w.cur + [c]);
    assert |w.cur + [c]| != |w.cur|;
    assert w.cur in Wither(w.f, w.cur, c, n).at;
  }

  /** Nothing was deleted; the node on top may have changed its shape but not its children. */
  lemma PutTrims(w: Walk, c: byte, n: Node)
    requires Linked(w.f) && Has(w.f, w.cur) && n.pipes == NodeAt(w.f, w.cur).pipes
    requires forall b: byte :: Kid(n, b) == Kid(NodeAt(w.f, w.cur), b)
    requires Has(w.f, w.cur + [c]) ==> !Redundant(NodeAt(w.f, w.cur + [c]))
    ensures Trimmed(w, Put(w.f, w.cur, n), c) && NodeAt(Put(w.f, w.cur, n), w.cur) == n
  {
    PutLinked(w.f, w.cur, n);
    assert |w.cur + [c]| != |w.cur|;
    assert PathOk(w.f, w.cur + [c]);
  }

  /** Two trims in a row: first the child, then the shape. */
  lemma TrimThenPut(w: Walk, g: Forest, c: byte, n: Node)
    requires Trimmed(w, g, c) && n.pipes == NodeAt(g, w.cur).pipes
    requires forall b: byte :: Kid(n, b) == Kid(NodeAt(g, w.cur), b)
    ensures Trimmed(w, Put(g, w.cur, n), c) && NodeAt(Put(g, w.cur, n), w.cur) == n
  {
    PutLinked(g, w.cur, n);
    assert |w.cur + [c]| != |w.cur|;
  }

  /** Entry k is taken into account for the limits of what is left of the table. */
  lemma ExtremesNext(t: seq<Addr>, t': seq<Addr>, k: nat, lo: nat, hi: nat)
    requires Extremes(t, k, lo, hi) && k < |t| == |t'| && |t| > 1 && forall i :: 0 <= i < k ==> t'[i] == t[i]
    ensures t'[k] == NULL ==> Extremes(t', k + 1, lo, hi)
    ensures t'[k] != NULL ==> Extremes(t', k + 1, if k < lo then k else lo, if k > hi then k else hi)
  {
  }

  /** What the top entry says while it waits for its revisit. */
  ghost predicate Revisiting(j: Job, w: Walk, it: Visit, c: byte) {
    && Linked(w.f) && AtByte(w, c) && Top(w) == it && it.processed && Has(j.f0, w.cur) && ShapeOk(NodeAt(j.f0, w.cur))
    && OpenOk(NodeAt(j.f0, w.cur), NodeAt(w.f, w.cur), it) && w.f.at[w.cur] == it.node != NULL
    && Kid(NodeAt(w.f, w.cur), c) == Look(w.f, w.cur + [c])
    && (Look(w.f, w.cur + [c]) != NULL ==> Has(w.f, w.cur + [c]) && ShapeOk(NodeAt(w.f, w.cur + [c])))
  }

  lemma RevisitFacts(j: Job, w: Walk, it: Visit, c: byte)
    requires WalkOk(j, w) && !w.untouched && w.stack != [] && Top(w) == it && it.processed && AtByte(w, c)
    ensures Revisiting(j, w, it, c)
  {
    var last := |w.stack| - 1;
    assert FrameOk(j, w, last) && w.cur[..last] == w.cur;
    assert FitAt(j.f0, w.cur) && LinkOk(w.f, w.cur, c) && PathOk(w.f, w.cur + [c]);
    assert OrderAt(w, w.cur + [c]) && (w.cur + [c])[..|w.cur|] == w.cur;
  }

  /** Revisits a node with a single child: a redundant child goes, and the node is done. */
  method PostOne(t: MTrie, it: Visit, ghost c: byte, ghost j: Job, ghost w: Walk) returns (ghost r: Walk)
    requires WalkOk(j, w) && !w.untouched && w.f == t.Memory() && w.stack != [] && Top(w) == it && it.processed
    requires it.node in t.heap && t.heap[it.node].count == 1 && AtByte(w, c)
    modifies t`heap, t`at, t`path
    ensures WalkOk(j, r) && r == Closed(w, t.Memory())
  {
    RevisitFacts(j, w, it, c);
    var n := t.heap[it.node];
    var child := n.next.node;
    if Redundant(t.heap[child]) {
      LeafWhenRedundant(t.heap[child]);
      var n' := n.(next := One(NULL), count := 0, live := n.live - 1);
      assert n'.live == 0;
      WitherTrims(w, c, n');
      DeleteChild(t, it.node, child, n', w.cur, c);
    } else {
      PutTrims(w, c, n);
      assert Put(w.f, w.cur, n) == w.f;
    }
    ClosedOk(j, w, t.Memory(), c);
    r := Closed(w, t.Memory());
  }

  /** Table node m is n after entry k was dealt with, and the limits say what is left up to there. */
  ghost predicate EntryDone(n: Node, m: Node, k: nat, newMin: nat, newMax: nat) {
    && Counted(n) && Counted(m) && m.count == n.count > 1 && m.min == n.min && m.pipes == n.pipes
    && (forall i :: k < i < n.count ==> m.next.table[i] == n.next.table[i])
    && n.min <= newMin && n.min <= newMax
    && Extremes(m.next.table, k + 1, newMin - n.min, newMax - n.min)
  }

  lemma EntryDropped(n0: Node, n: Node, it: Visit, c: byte)
    requires OpenOk(n0, n, it) && n.count > 1 && c == Pivot(n, it) && Kid(n, c) != NULL
    ensures n.live > 0 && Lost(n, Cleared(n, c), c) && Cleared(n, c).pipes == n.pipes
    ensures EntryDone(n, Cleared(n, c), it.currentChild, it.newMin, it.newMax)
  {
    ClearedOk(n, c);
    var m := Cleared(n, c);
    ExtremesNext(n.next.table, m.next.table, it.currentChild, it.newMin - n.min, it.newMax - n.min);
  }

  /** The entry is dealt with and the next one is current. */
  lemma OpenNext(n0: Node, n: Node, m: Node, it: Visit, next: Visit)
    requires OpenOk(n0, n, it) && EntryDone(n, m, it.currentChild, next.newMin, next.newMax)
    requires next.currentChild == it.currentChild + 1 < m.count
    ensures OpenOk(n0, m, next)
  {
  }

  /** The current entry of a table points to a redundant child, which goes. */
  method DropEntry(t: MTrie, it: Visit, c: byte, ghost j: Job, ghost w: Walk)
    requires Revisiting(j, w, it, c) && w.f == t.Memory() && t.heap[it.node].count > 1
    requires Has(w.f, w.cur + [c]) && Redundant(NodeAt(w.f, w.cur + [c]))
    modifies t`heap, t`at, t`path
    ensures Trimmed(w, t.Memory(), c) && it.node in t.heap && t.heap[it.node] == NodeAt(t.Memory(), w.cur)
    ensures EntryDone(old(t.heap[it.node]), t.heap[it.node], it.currentChild, it.newMin, it.newMax)
  {
    var n := t.heap[it.node];
    var child := Kid(n, c);
    assert PathOk(w.f, w.cur + [c]);
    LeafWhenRedundant(t.heap[child]);
    EntryDropped(NodeAt(j.f0, w.cur), n, it, c);
    var n' := Cleared(n, c);
    WitherTrims(w, c, n');
    DeleteChild(t, it.node, child, n', w.cur, c);
  }

  /** The current entry of a table is null or points to a child that stays. */
  method KeepEntry(t: MTrie, it: Visit, c: byte, ghost j: Job, ghost w: Walk) returns (newMin: nat, newMax: nat)
    requires Revisiting(j, w, it, c) && w.f == t.Memory() && t.heap[it.node].count > 1
    requires Has(w.f, w.cur + [c]) ==> !Redundant(NodeAt(w.f, w.cur + [c]))
    ensures Trimmed(w, t.Memory(), c) && t.heap[it.node] == NodeAt(t.Memory(), w.cur)
    ensures EntryDone(t.heap[it.node], t.heap[it.node], it.currentChild, newMin, newMax)
  {
    var n := t.heap[it.node];
    newMin, newMax := it.newMin, it.newMax;
    ExtremesNext(n.next.table, n.next.table, it.currentChild, newMin - n.min, newMax - n.min);
    if n.next.table[it.currentChild] != NULL {
      if it.currentChild + n.min < newMin {
        newMin := it.currentChild + n.min;
      }
      if it.currentChild + n.min > newMax {
        newMax := it.currentChild + n.min;
      }
    }
    PutTrims(w, c, n);
    assert Put(w.f, w.cur, n) == w.f;
  }

  /** Revisits a table node after one child. */
  method TrimEntry(t: MTrie, it: Visit, c: byte, ghost j: Job, ghost w: Walk) returns (newMin: nat, newMax: nat)
    requires WalkOk(j, w) && !w.untouched && w.f == t.Memory() && w.stack != [] && Top(w) == it && it.processed
    requires it.node in t.heap && t.heap[it.node].count > 1 && AtByte(w, c)
    modifies t`heap, t`at, t`path
    ensures Trimmed(w, t.Memory(), c) && it.node in t.heap && t.heap[it.node] == NodeAt(t.Memory(), w.cur)
    ensures EntryDone(old(t.heap[it.node]), t.heap[it.node], it.currentChild, newMin, newMax)
  {
    RevisitFacts(j, w, it, c);
    var child := t.heap[it.node].next.table[it.currentChild];
    assert PathOk(w.f, w.cur + [c]);
    if child != NULL && Redundant(t.heap[child]) {
      newMin, newMax := it.newMin, it.newMax;
      DropEntry(t, it, c, j, w);
    } else {
      newMin, newMax := KeepEntry(t, it, c, j, w);
    }
  }

  /** After the work on a node its entry is gone, or stays for the next child. */
  ghost predicate MovedOn(w: Walk, r: Walk, rest: seq<Visit>, it: Visit, stack: seq<Visit>)
    requires w.stack != []
  {
    || (stack == rest && r == Closed(w, r.f))
    || (stack != [] && stack == rest + [Last(stack)] && r == Advanced(w, r.f, Last(stack))
        && Last(stack).currentChild == it.currentChild + 1 <= 256 && !Last(stack).processed)
  }

  /** A table node after one of its children: on to the next child, or finish. */
  method PostTable(t: MTrie, rest: seq<Visit>, it: Visit, c: byte, ghost j: Job, ghost w: Walk)
      returns (stack: seq<Visit>, ghost r: Walk)
    requires WalkOk(j, w) && !w.untouched && w.f == t.Memory() && w.stack == rest + [it] && it.processed
    requires it.node in t.heap && t.heap[it.node].count > 1 && AtByte(w, c)
    modifies t`heap, t`at, t`path
    ensures WalkOk(j, r) && r.f == t.Memory() && r.stack == stack
    ensures MovedOn(w, r, rest, it, stack)
  {
    assert Top(w) == it && w.stack[..|w.stack| - 1] == rest;
    RevisitFacts(j, w, it, c);
    ghost var n := t.heap[it.node];
    var newMin, newMax := TrimEntry(t, it, c, j, w);
    var m := t.heap[it.node];
    assert |w.cur + [c]| != |w.cur| && Look(t.Memory(), w.cur) == Look(w.f, w.cur);
    if it.currentChild + 1 < m.count {
      var next := it.(currentChild := it.currentChild + 1, newMin := newMin, newMax := newMax, processed := false);
      OpenNext(NodeAt(j.f0, w.cur), n, m, it, next);
      AdvancedOk(j, w, t.Memory(), c, next);
      stack := rest + [next];
      r := Advanced(w, t.Memory(), next);
      assert Last(stack) == next;
    } else {
      stack := rest;
      r := Finish(t, it, newMin, newMax, c, j, w);
    }
  }

  /** All children of a table node were visited: the table is freed, turned into a single child, or cut. */
  method Finish(t: MTrie, it: Visit, newMin: nat, newMax: nat, ghost c: byte, ghost j: Job, ghost w: Walk)
      returns (ghost r: Walk)
    requires WalkOk(j, w) && !w.untouched && w.stack != [] && Top(w) == it && it.processed && AtByte(w, c)
    requires Trimmed(w, t.Memory(), c) && it.node in t.heap && t.heap[it.node] == NodeAt(t.Memory(), w.cur)
    requires t.at[w.cur] == it.node && it.currentChild + 1 >= NodeAt(w.f, w.cur).count
    requires var m := t.heap[it.node];
             && Counted(m) && m.count > 1 && (m.pipes.Some? ==> m.pipes.value != {})
             && m.min <= newMin && m.min <= newMax
             && Extremes(m.next.table, m.count, newMin - m.min, newMax - m.min)
    modifies t`heap
    ensures WalkOk(j, r) && r == Closed(w, t.Memory())
  {
    ghost var g := t.Memory();
    var m := Compact(t.heap[it.node], newMin, newMax);
    TrimThenPut(w, g, c, m);
    t.heap := t.heap[it.node := m];
    assert t.Memory() == Put(g, w.cur, m);
    ClosedOk(j, w, t.Memory(), c);
    r := Closed(w, t.Memory());
  }

  /** The node to be revisited, and the byte of the child it was left for. */
  lemma RevisitedTop(j: Job, w: Walk, rest: seq<Visit>, it: Visit)
    requires WalkOk(j, w) && !w.untouched && w.stack == rest + [it] && it.processed
    ensures Top(w) == it && w.stack[..|w.stack| - 1] == rest && Has(w.f, w.cur) && w.f.at[w.cur] == it.node
    ensures 0 < NodeAt(w.f, w.cur).count && NodeAt(w.f, w.cur).min + it.currentChild < 256
    ensures AtByte(w, NodeAt(w.f, w.cur).min + it.currentChild)
  {
    var last := |rest|;
    assert FrameOk(j, w, last) && w.cur[..last] == w.cur;
  }

  lemma MovedOnIs(j: Job, w: Walk, r: Walk, rest: seq<Visit>, it: Visit, stack: seq<Visit>)
    requires WalkOk(j, w) && !w.untouched && w.stack == rest + [it] && it.processed && MovedOn(w, r, rest, it, stack)
    ensures r == Walk(r.f, stack, r.cur, r.seen, w.calls, Unvisited(stack)) && r.cur <= w.cur && r.seen == w.seen
    ensures Rounds(stack) < Rounds(rest + [it])
  {
    RevisitedTop(j, w, rest, it);
    RoundsPush(rest, it);
    if stack == rest { PoppedTop(j, w, r); } else { RoundsPush(rest, Last(stack)); }
  }

  /** The work on a node after a child. */
  method PostVisit(t: MTrie, rest: seq<Visit>, it: Visit, ghost j: Job, ghost w: Walk)
      returns (stack: seq<Visit>, ghost r: Walk)
    requires WalkOk(j, w) && !w.untouched && w.f == t.Memory() && w.stack == rest + [it] && it.processed
    modifies t`heap, t`at, t`path
    ensures WalkOk(j, r) && r == Walk(t.Memory(), stack, r.cur, r.seen, w.calls, Unvisited(stack))
    ensures r.cur <= w.cur && r.seen == w.seen
    ensures Rounds(stack) < Rounds(rest + [it])
  {
    RevisitedTop(j, w, rest, it);
    var n := t.heap[it.node];
    var c: byte := n.min + it.currentChild;
    if n.count == 1 {
      r := PostOne(t, it, c, j, w);
      stack := rest;
    } else {
      stack, r := PostTable(t, rest, it, c, j, w);
    }
    MovedOnIs(j, w, r, rest, it, stack);
  }

  // ----- The whole walk -----------------------------------------------------------------------------

  lemma StartOk(j: Job, root: Addr)
    requires Linked(j.f0) && Fit(j.f0, {}) && Look(j.f0, []) == root
    ensures WalkOk(j, Walk(j.f0, [Visit(root, 0, 0, 0, 0, false)], [], {}, [], true))
  {
    var w := Walk(j.f0, [Visit(root, 0, 0, 0, 0, false)], [], {}, [], true);
    assert PathOk(j.f0, []);
    forall p ensures KeptAt(j, w, p) { assert PathOk(j.f0, p); }
    assert w.cur[..0] == [];
    assert FrameOk(j, w, 0);
    forall p ensures OrderAt(w, p) { assert FitAt(j.f0, p); }
  }

  /** When the stack is empty, the trie is in order and stands for what was asked. */
  lemma EndOk(j: Job, w: Walk)
    requires WalkOk(j, w) && w.stack == []
    ensures Fit(w.f, {}) && Subs(w.f) == WithoutAll(Subs(j.f0), j.v)
    ensures forall p :: p in w.calls <==> Reported(Subs(j.f0), j.v, j.uniq, p)
  {
    forall p ensures FitAt(w.f, p) { assert OrderAt(w, p); }
    forall p ensures p in Subs(w.f) <==> p in WithoutAll(Subs(j.f0), j.v) { EndAt(j, w, p); }
    forall p | p in Subs(w.f) ensures Subs(w.f)[p] == WithoutAll(Subs(j.f0), j.v)[p] { EndAt(j, w, p); }
    forall p ensures p in w.calls <==> Reported(Subs(j.f0), j.v, j.uniq, p) {
      assert PathOk(j.f0, p);
    }
  }

  lemma EndAt(j: Job, w: Walk, p: Path)
    requires WalkOk(j, w) && w.stack == []
    ensures p in Subs(w.f) <==> p in WithoutAll(Subs(j.f0), j.v)
    ensures p in Subs(w.f) ==> Subs(w.f)[p] == WithoutAll(Subs(j.f0), j.v)[p]
  {
    assert KeptAt(j, w, p) && PathOk(j.f0, p) && PathOk(w.f, p) && FitAt(j.f0, p);
    if p in Subs(j.f0) {
      var s := Subs(j.f0)[p];
      assert s - {j.v} == {} <==> s == {j.v};
    }
  }

  /** The memory at the end uses no address that was not in use at the start. */
  lemma EndMemory(j: Job, w: Walk)
    requires WalkOk(j, w)
    ensures forall a :: a in w.f.heap ==> a in j.f0.heap
    ensures Look(w.f, []) == Look(j.f0, [])
  {
    forall a | a in w.f.heap ensures a in j.f0.heap {
      assert AddrOk(w.f, a);
      assert KeptAt(j, w, w.f.path[a]) && PathOk(j.f0, w.f.path[a]);
    }
    assert KeptAt(j, w, []);
  }

  /** One round of the loop: the top entry is taken off and worked on. */
  method Round(t: MTrie, stack: seq<Visit>, v: Value, uniq: bool, buff: seq<byte>, calls: seq<Path>,
               ghost j: Job, ghost w: Walk)
      returns (stack': seq<Visit>, b: seq<byte>, cs: seq<Path>, ghost r: Walk)
    requires WalkOk(j, w) && j.v == v && j.uniq == uniq && stack != [] && BufferOk(buff, w.cur)
    requires w == Walk(t.Memory(), stack, w.cur, w.seen, calls, Unvisited(stack))
    modifies t`heap, t`at, t`path
    ensures WalkOk(j, r) && r == Walk(t.Memory(), stack', r.cur, r.seen, cs, Unvisited(stack')) && BufferOk(b, r.cur)
    ensures |j.f0.at.Keys - r.seen| < |j.f0.at.Keys - w.seen|
            || (r.seen == w.seen && Rounds(stack') < Rounds(stack))
  {
    var it := Last(stack);
    var rest := stack[..|stack| - 1];
    assert stack == rest + [it];
    if !it.processed {
      stack', b, cs, r := PreVisit(t, rest, it, v, uniq, buff, calls, j, w);
      SeenMore(j, r, w.seen);
    } else {
      b, cs := buff, calls;
      stack', r := PostVisit(t, rest, it, j, w);
    }
  }

  /** Removes v from every prefix; `calls` are the prefixes called back for, in order. */
  method RmAll(t: MTrie, v: Value, uniq: bool) returns (calls: seq<Path>)
    requires t.Valid()
    modifies t`heap, t`at, t`path
    ensures t.Valid() && LosesAll(old(t.Model()), t.Model(), v) && t.Model() == WithoutAll(old(t.Model()), v)
    ensures forall a, b :: 0 <= a < b < |calls| ==> calls[a] != calls[b]
    ensures forall p :: p in calls <==>
                        v in SubscribersOf(old(t.Model()), p) && (uniq ==> SubscribersOf(old(t.Model()), p) == {v})
    ensures forall p :: p in calls <==> Reported(old(t.Model()), v, uniq, p)
  {
    ghost var j := Job(t.Memory(), v, uniq);
    SubsNeat(t.Memory());
    var stack := [Visit(t.root, 0, 0, 0, 0, false)];
    var buff: seq<byte> := [];
    calls := [];
    StartOk(j, t.root);
    ghost var w := Walk(t.Memory(), stack, [], {}, [], true);
    while stack != []
      invariant WalkOk(j, w) && w == Walk(t.Memory(), stack, w.cur, w.seen, calls, Unvisited(stack))
      invariant BufferOk(buff, w.cur)
      decreases |j.f0.at.Keys - w.seen|, Rounds(stack)
    {
      stack, buff, calls, w := Round(t, stack, v, uniq, buff, calls, j, w);
    }
    EndOk(j, w);
    EndMemory(j, w);
    WithoutAllLoses(Subs(j.f0), v, t.Model());
  }

  lemma SeenMore(j: Job, w: Walk, seen: set<Path>)
    requires Kept(j, w) && seen <= w.seen
    ensures w.seen <= j.f0.at.Keys
    ensures w.seen != seen ==> |j.f0.at.Keys - w.seen| < |j.f0.at.Keys - seen|
  {
    forall p | p in w.seen ensures p in j.f0.at { assert KeptAt(j, w, p); }
    if w.seen != seen {
      var p :| p in w.seen && p !in seen;
      assert j.f0.at.Keys - seen > j.f0.at.Keys - w.seen;
      SmallerSet(j.f0.at.Keys - w.seen, j.f0.at.Keys - seen);
    }
  }

  lemma SmallerSet<T>(a: set<T>, b: set<T>)
    requires a < b
    ensures |a| < |b|
  {
    assert b == a + (b - a);
  }
}
