/**
 * The traversal by which a subscriber is removed from every prefix: what its stack,
 * its progress and the half-pruned trie have to do with each other at every moment.
 */
module MTrieWalk {
  import opened Common
  import opened MTrieNode
  import opened MTrieHeap

  /** A stack entry of the traversal. */
  datatype Visit = Visit(node: Addr, size: nat, currentChild: nat, newMin: nat, newMax: nat, processed: bool)

  /** What was asked: the trie at the start, the subscriber to remove, and when to call back. */
  datatype Job = Job(f0: Forest, v: Value, uniq: bool)

  /**
   * A moment of the traversal: the trie, the stack, the prefix of the node on top, the
   * prefixes visited so far, the callbacks so far, and whether the node on top is yet to be visited.
   */
  datatype Walk = Walk(f: Forest, stack: seq<Visit>, cur: Path, seen: set<Path>, calls: seq<Path>, untouched: bool)

  /** The subscribers that are left when v goes. */
  function Minus(pipes: Option<set<Value>>, v: Value): Option<set<Value>> {
    match pipes
    case None => None
    case Some(s) => if s - {v} == {} then None else Some(s - {v})
  }

  /** Removing v from these subscribers is reported. */
  predicate Fires(pipes: Option<set<Value>>, v: Value, uniq: bool) {
    pipes.Some? && v in pipes.value && (uniq ==> pipes.value == {v})
  }

  ghost function Top(w: Walk): Visit
    requires w.stack != []
  {
    w.stack[|w.stack| - 1]
  }

  ghost function Pivot(n: Node, it: Visit): int {
    n.min + it.currentChild
  }

  // ----- The invariant --------------------------------------------------------------------

  /** One prefix: untouched before its visit, without v after it, and pruned only if nothing is left. */
  ghost predicate KeptAt(j: Job, w: Walk, p: Path) {
    && (p in w.f.at ==> p in j.f0.at && w.f.at[p] == j.f0.at[p])
    && (Has(j.f0, p) && p !in w.seen ==> Has(w.f, p) && NodeAt(w.f, p) == NodeAt(j.f0, p))
    && (Has(j.f0, p) && p in w.seen && Has(w.f, p) ==> NodeAt(w.f, p).pipes == Minus(NodeAt(j.f0, p).pipes, j.v))
    && (Has(j.f0, p) && p in w.seen && p !in w.f.at ==> Minus(NodeAt(j.f0, p).pipes, j.v).None?)
    && (p in w.seen ==> p in j.f0.at)
  }

  ghost predicate Kept(j: Job, w: Walk) {
    forall p {:trigger KeptAt(j, w, p)} :: KeptAt(j, w, p)
  }

  /** One callback per visited prefix whose removal is reported. */
  ghost predicate CallsOk(j: Job, w: Walk) {
    && (forall a, b :: 0 <= a < b < |w.calls| ==> w.calls[a] != w.calls[b])
    && (forall p :: p in w.calls <==> p in w.seen && Has(j.f0, p) && Fires(NodeAt(j.f0, p).pipes, j.v, j.uniq))
  }

  /** A node whose children are being visited, up to the current one. */
  ghost predicate OpenOk(n0: Node, n: Node, it: Visit) {
    && n.count == n0.count >= 1 && n.min == n0.min && it.currentChild < n.count
    && Counted(n) && (n.pipes.Some? ==> n.pipes.value != {}) && Sized(n0)
    && (n.count == 1 ==> n.next == n0.next)
    && (n.count > 1 ==>
          && (forall i :: it.currentChild < i < n.count ==> n.next.table[i] == n0.next.table[i])
          && (n.next.table[it.currentChild] == n0.next.table[it.currentChild]
              || (it.processed && n.next.table[it.currentChild] == NULL))
          && n.min <= it.newMin && n.min <= it.newMax
          && Extremes(n.next.table, it.currentChild, it.newMin - n.min, it.newMax - n.min))
  }

  ghost predicate FrameOk(j: Job, w: Walk, i: nat)
    requires i < |w.stack| && |w.cur| + 1 == |w.stack|
  {
    var it, q, last := w.stack[i], w.cur[..i], i + 1 == |w.stack|;
    && it.size == i && it.node != NULL && Look(w.f, q) == it.node
    && Has(w.f, q) && Has(j.f0, q)
    && (last && w.untouched ==> q !in w.seen && !it.processed && it.currentChild == 0)
    && (!(last && w.untouched) ==> q in w.seen && OpenOk(NodeAt(j.f0, q), NodeAt(w.f, q), it))
    && (!last ==> it.processed && w.cur[i] == Pivot(NodeAt(w.f, q), it))
  }

  /** Below the node of entry i, the children left of the current one are done and those right of it are not begun. */
  ghost predicate RegionOk(j: Job, w: Walk, i: nat, p: Path)
    requires i < |w.stack| && |w.cur| + 1 == |w.stack|
  {
    var it, q, last := w.stack[i], w.cur[..i], i + 1 == |w.stack|;
    p in j.f0.at && |p| > i && p[..i] == q && Has(j.f0, q) ==>
      if last && w.untouched then p !in w.seen
      else
        var b := Pivot(NodeAt(j.f0, q), it);
        && (p[i] < b ==> p in w.seen)
        && (p[i] > b ==> p !in w.seen)
        && (last && p[i] == b ==> (p in w.seen <==> it.processed))
  }

  ghost predicate WalkStackOk(j: Job, w: Walk) {
    && (w.stack == [] ==> w.cur == [] && !w.untouched && j.f0.at.Keys <= w.seen)
    && (w.stack != [] ==> |w.cur| + 1 == |w.stack|)
    && (forall i {:trigger FrameOk(j, w, i)} :: 0 <= i < |w.stack| ==> FrameOk(j, w, i))
    && (forall i, p {:trigger RegionOk(j, w, i, p)} :: 0 <= i < |w.stack| ==> RegionOk(j, w, i, p))
  }

  /** The prefix of the child under the current byte of the top entry. */
  ghost predicate Completed(w: Walk, p: Path) {
    if w.stack == [] then p == []
    else Top(w).processed && |p| == |w.cur| + 1 && p[..|w.cur|] == w.cur &&
         Has(w.f, w.cur) && p[|w.cur|] == Pivot(NodeAt(w.f, w.cur), Top(w))
  }

  ghost predicate OnStack(w: Walk, p: Path) {
    w.stack != [] && |p| <= |w.cur| && w.cur[..|p|] == p
  }

  /** Away from the stack the trie is in order; the child just completed may only be redundant. */
  ghost predicate OrderAt(w: Walk, p: Path) {
    && (!OnStack(w, p) && !Completed(w, p) ==> FitAt(w.f, p))
    && (Completed(w, p) && Has(w.f, p) ==> ShapeOk(NodeAt(w.f, p)))
  }

  ghost predicate InOrder(w: Walk) {
    forall p {:trigger OrderAt(w, p)} :: OrderAt(w, p)
  }

  ghost predicate WalkOk(j: Job, w: Walk) {
    && Linked(j.f0) && Fit(j.f0, {})
    && Linked(w.f) && Kept(j, w) && CallsOk(j, w) && WalkStackOk(j, w) && InOrder(w)
  }

  // ----- Visiting a node: v leaves it -------------------------------------------------------

  /** The trie, the progress and the callbacks after the node on top lost v. */
  ghost function Touched(j: Job, w: Walk): Walk
    requires Has(w.f, w.cur)
  {
    var n := NodeAt(w.f, w.cur);
    w.(f := Put(w.f, w.cur, n.(pipes := Minus(n.pipes, j.v))),
       seen := w.seen + {w.cur},
       calls := if Fires(n.pipes, j.v, j.uniq) then w.calls + [w.cur] else w.calls,
       untouched := false)
  }

  lemma TouchedLinked(j: Job, w: Walk)
    requires WalkOk(j, w) && w.stack != [] && w.untouched
    ensures Has(w.f, w.cur) && w.cur !in w.seen && Has(j.f0, w.cur) && NodeAt(w.f, w.cur) == NodeAt(j.f0, w.cur)
    ensures ShapeOk(NodeAt(w.f, w.cur))
    ensures var g := Touched(j, w).f;
            && Linked(g) && g.at == w.f.at
            && (forall q :: q in w.f.at ==> Has(w.f, q) && Has(g, q))
            && (forall q :: q in w.f.at && q != w.cur ==> NodeAt(g, q) == NodeAt(w.f, q))
            && NodeAt(g, w.cur) == NodeAt(w.f, w.cur).(pipes := Minus(NodeAt(w.f, w.cur).pipes, j.v))
  {
    var i := |w.stack| - 1;
    assert FrameOk(j, w, i) && w.cur[..i] == w.cur;
    assert KeptAt(j, w, w.cur);
    assert FitAt(j.f0, w.cur);
    var n := NodeAt(w.f, w.cur);
    PutLinked(w.f, w.cur, n.(pipes := Minus(n.pipes, j.v)));
  }

  lemma TouchedKept(j: Job, w: Walk)
    requires WalkOk(j, w) && w.stack != [] && w.untouched && Has(w.f, w.cur)
    ensures Kept(j, Touched(j, w)) && CallsOk(j, Touched(j, w))
  {
    TouchedLinked(j, w);
    var r := Touched(j, w);
    forall p ensures KeptAt(j, r, p) { assert KeptAt(j, w, p); }
  }

  /** The top entry with the limits of its table as the first guess for what will be left of it. */
  ghost function Guessed(n: Node, it: Visit): Visit {
    if n.count > 1 then it.(newMin := n.min + n.count - 1, newMax := n.min) else it
  }

  /** A node with children was visited: its first child is next. */
  ghost function Begun(j: Job, w: Walk): Walk
    requires Has(w.f, w.cur) && w.stack != []
  {
    Touched(j, w).(stack := w.stack[..|w.stack| - 1] + [Guessed(NodeAt(w.f, w.cur), Top(w))])
  }

  lemma BegunStack(j: Job, w: Walk)
    requires WalkOk(j, w) && w.stack != [] && w.untouched && Has(w.f, w.cur) && NodeAt(w.f, w.cur).count > 0
    ensures WalkStackOk(j, Begun(j, w))
  {
    TouchedLinked(j, w);
    var r, last := Begun(j, w), |w.stack| - 1;
    assert w.cur[..last] == w.cur;
    forall i | 0 <= i < |r.stack| ensures FrameOk(j, r, i) {
      assert FrameOk(j, w, i);
      if i < last { assert r.stack[i] == w.stack[i] && w.cur[..i] != w.cur; }
    }
    forall i, p | 0 <= i < |r.stack| ensures RegionOk(j, r, i, p) {
      assert FrameOk(j, w, i) && RegionOk(j, w, i, p);
      if i < last {
        assert r.stack[i] == w.stack[i];
      } else if p in j.f0.at && |p| > i && p[..i] == w.cur {
        BranchLeads(j.f0, w.cur, p);
      }
    }
  }

  lemma BegunOk(j: Job, w: Walk)
    requires WalkOk(j, w) && w.stack != [] && w.untouched && Has(w.f, w.cur) && NodeAt(w.f, w.cur).count > 0
    ensures WalkOk(j, Begun(j, w))
  {
    var r := Begun(j, w);
    TouchedLinked(j, w);
    TouchedKept(j, w);
    BegunStack(j, w);
    forall p ensures KeptAt(j, r, p) { assert KeptAt(j, Touched(j, w), p); }
    assert FrameOk(j, w, |w.stack| - 1);
    TouchedOrder(j, w, r);
  }

  lemma TouchedOrder(j: Job, w: Walk, r: Walk)
    requires WalkOk(j, w) && w.stack != [] && w.untouched && Has(w.f, w.cur)
    requires r.f == Touched(j, w).f && r.cur == w.cur && |r.stack| == |w.stack| && !Top(r).processed
    ensures InOrder(r)
  {
    TouchedLinked(j, w);
    forall p ensures OrderAt(r, p) {
      assert FrameOk(j, w, |w.stack| - 1);
      assert OrderAt(w, p);
      assert w.cur[..|w.cur|] == w.cur;
    }
  }

  // ----- Going down to the current child ------------------------------------------------------

  /** The byte under which the top entry's current child hangs. */
  ghost predicate AtByte(w: Walk, b: byte) {
    Has(w.f, w.cur) && w.stack != [] && b == Pivot(NodeAt(w.f, w.cur), Top(w))
  }

  ghost function Marked(w: Walk): Walk
    requires w.stack != []
  {
    w.(stack := w.stack[..|w.stack| - 1] + [Top(w).(processed := true)])
  }

  /** The current entry of the table is null: there is nothing to go down to. */
  ghost predicate AtNull(j: Job, w: Walk, b: byte) {
    WalkOk(j, w) && !w.untouched && AtByte(w, b) && !Top(w).processed && Kid(NodeAt(w.f, w.cur), b) == NULL
  }

  /** Where the table has no child now, it had none at the start either. */
  lemma NoBranch(j: Job, w: Walk, b: byte)
    requires AtNull(j, w, b)
    ensures Has(j.f0, w.cur)
    ensures forall p :: p in j.f0.at && |p| > |w.cur| && p[..|w.cur|] == w.cur ==> p[|w.cur|] != b
  {
    var last := |w.stack| - 1;
    assert FrameOk(j, w, last) && w.cur[..last] == w.cur;
    assert Kid(NodeAt(j.f0, w.cur), b) == NULL;
    forall p | p in j.f0.at && |p| > |w.cur| && p[..|w.cur|] == w.cur ensures p[|w.cur|] != b {
      BranchLeads(j.f0, w.cur, p);
    }
  }

  lemma MarkedStack(j: Job, w: Walk, b: byte)
    requires AtNull(j, w, b)
    ensures WalkStackOk(j, Marked(w))
  {
    var r, last := Marked(w), |w.stack| - 1;
    assert w.cur[..last] == w.cur;
    forall i | 0 <= i < |r.stack| ensures FrameOk(j, r, i) {
      assert FrameOk(j, w, i);
    }
    NoBranch(j, w, b);
    forall i, p | 0 <= i < |r.stack| ensures RegionOk(j, r, i, p) {
      assert RegionOk(j, w, i, p) && FrameOk(j, w, i);
    }
  }

  lemma MarkedOk(j: Job, w: Walk, b: byte)
    requires AtNull(j, w, b)
    ensures WalkOk(j, Marked(w))
  {
    var r := Marked(w);
    MarkedStack(j, w, b);
    forall p ensures KeptAt(j, r, p) { assert KeptAt(j, w, p); }
    assert LinkOk(w.f, w.cur, b);
    forall p ensures OrderAt(r, p) {
      assert OrderAt(w, p) && PathOk(w.f, p);
      if Completed(r, p) { assert p == w.cur + [b]; }
    }
  }

  /** The current child goes on the stack. */
  ghost function Entered(w: Walk, b: byte, kid: Addr): Walk
    requires w.stack != []
  {
    w.(stack := Marked(w).stack + [Visit(kid, |w.stack|, 0, 0, 0, false)], cur := w.cur + [b], untouched := true)
  }

  /** The new entry on top: its node is there, as it was, and has not been visited. */
  lemma EnteredTop(j: Job, w: Walk, b: byte, kid: Addr)
    requires WalkOk(j, w) && !w.untouched && AtByte(w, b) && !Top(w).processed
    requires Kid(NodeAt(w.f, w.cur), b) == kid != NULL
    ensures var r := Entered(w, b, kid); |r.cur| + 1 == |r.stack| && FrameOk(j, r, |w.stack|)
  {
    var r, last := Entered(w, b, kid), |w.stack| - 1;
    assert FrameOk(j, w, last) && w.cur[..last] == w.cur;
    assert LinkOk(w.f, w.cur, b) && PathOk(w.f, r.cur) && KeptAt(j, w, r.cur) && PathOk(j.f0, r.cur);
    assert RegionOk(j, w, last, r.cur);
    assert r.cur[..last] == w.cur && r.cur[..last + 1] == r.cur;
  }

  lemma EnteredFrames(j: Job, w: Walk, b: byte, kid: Addr)
    requires WalkOk(j, w) && !w.untouched && AtByte(w, b) && !Top(w).processed
    requires Kid(NodeAt(w.f, w.cur), b) == kid != NULL
    ensures var r := Entered(w, b, kid);
            |r.cur| + 1 == |r.stack| && forall i {:trigger FrameOk(j, r, i)} :: 0 <= i < |r.stack| ==> FrameOk(j, r, i)
  {
    var r, last := Entered(w, b, kid), |w.stack| - 1;
    EnteredTop(j, w, b, kid);
    assert w.cur[..last] == w.cur;
    forall i | 0 <= i <= last ensures FrameOk(j, r, i) {
      assert FrameOk(j, w, i);
      assert r.cur[..i] == w.cur[..i];
    }
  }

  lemma EnteredStack(j: Job, w: Walk, b: byte, kid: Addr)
    requires WalkOk(j, w) && !w.untouched && AtByte(w, b) && !Top(w).processed
    requires Kid(NodeAt(w.f, w.cur), b) == kid != NULL
    ensures WalkStackOk(j, Entered(w, b, kid))
  {
    var r, last := Entered(w, b, kid), |w.stack| - 1;
    EnteredFrames(j, w, b, kid);
    assert FrameOk(j, w, last) && w.cur[..last] == w.cur;
    forall i, p | 0 <= i < |r.stack| ensures RegionOk(j, r, i, p) {
      if i <= last {
        assert FrameOk(j, w, i) && RegionOk(j, w, i, p);
        assert r.cur[..i] == w.cur[..i];
      } else if |p| > i && p[..i] == r.cur[..i] {
        assert r.cur[..i] == r.cur;
        assert RegionOk(j, w, last, p);
        assert p[..last] == p[..i][..last] == w.cur;
      }
    }
  }

  lemma EnteredOk(j: Job, w: Walk, b: byte, kid: Addr)
    requires WalkOk(j, w) && !w.untouched && AtByte(w, b) && !Top(w).processed
    requires Kid(NodeAt(w.f, w.cur), b) == kid != NULL
    ensures WalkOk(j, Entered(w, b, kid))
  {
    var r := Entered(w, b, kid);
    EnteredStack(j, w, b, kid);
    forall p ensures KeptAt(j, r, p) { assert KeptAt(j, w, p); }
    forall p ensures OrderAt(r, p) {
      assert OrderAt(w, p);
      if OnStack(w, p) { assert r.cur[..|p|] == w.cur[..|p|]; }
    }
  }

  // ----- Leaving a node ---------------------------------------------------------------------------

  /** The top entry is taken off the stack. */
  ghost function Popped(w: Walk): Walk
    requires w.stack != []
  {
    w.(stack := w.stack[..|w.stack| - 1], cur := if w.cur == [] then [] else w.cur[..|w.cur| - 1], untouched := false)
  }

  /** All that lies below the node on top, and the node itself, has been visited. */
  ghost predicate AllBelowSeen(j: Job, w: Walk) {
    forall p :: p in j.f0.at && |p| >= |w.cur| && p[..|w.cur|] == w.cur ==> p in w.seen
  }

  /**
   * g, seen are what a step made of the trie and of the progress of w while it finished
   * the node on top; the entries below the top do not notice.
   */
  ghost predicate Undisturbed(w: Walk, r: Walk) {
    && w.stack != [] && r.stack == w.stack[..|w.stack| - 1] && !r.untouched
    && r.cur == (if w.cur == [] then [] else w.cur[..|w.cur| - 1])
    && (forall i :: 0 <= i < |w.cur| ==> Look(r.f, w.cur[..i]) == Look(w.f, w.cur[..i]))
    && (forall i :: 0 <= i < |w.cur| && Has(w.f, w.cur[..i]) ==>
          Has(r.f, w.cur[..i]) && NodeAt(r.f, w.cur[..i]) == NodeAt(w.f, w.cur[..i]))
    && r.seen == w.seen + {w.cur}
  }

  lemma PoppedFrames(j: Job, w: Walk, r: Walk, i: nat)
    requires WalkOk(j, w) && Undisturbed(w, r) && i < |r.stack|
    ensures |r.cur| + 1 == |r.stack| && FrameOk(j, r, i)
  {
    assert FrameOk(j, w, |w.stack| - 1) && FrameOk(j, w, i);
    assert r.stack[i] == w.stack[i] && r.cur[..i] == w.cur[..i];
  }

  lemma PoppedRegion(j: Job, w: Walk, r: Walk, i: nat, p: Path)
    requires WalkOk(j, w) && Undisturbed(w, r) && AllBelowSeen(j, r.(cur := w.cur)) && i < |r.stack|
    ensures |r.cur| + 1 == |r.stack| && RegionOk(j, r, i, p)
  {
    assert FrameOk(j, w, i) && RegionOk(j, w, i, p);
    assert r.stack[i] == w.stack[i] && r.cur[..i] == w.cur[..i];
    if i + 1 == |r.stack| && |p| > i && p[..i] == w.cur[..i] && p[i] == w.cur[i] {
      assert p[..i + 1] == w.cur;
    }
  }

  lemma PoppedStack(j: Job, w: Walk, r: Walk)
    requires WalkOk(j, w) && Undisturbed(w, r) && AllBelowSeen(j, r.(cur := w.cur))
    ensures WalkStackOk(j, r)
  {
    forall i | 0 <= i < |r.stack| ensures |r.cur| + 1 == |r.stack| && FrameOk(j, r, i) {
      PoppedFrames(j, w, r, i);
    }
    forall i, p | 0 <= i < |r.stack| ensures RegionOk(j, r, i, p) {
      PoppedRegion(j, w, r, i, p);
    }
    if r.stack == [] {
      forall p | p in j.f0.at ensures p in r.seen {
        assert p[..0] == [] == w.cur;
      }
    }
  }

  /** After a pop, the child just completed is the node that was on top. */
  lemma PoppedOrder(j: Job, w: Walk, r: Walk)
    requires WalkOk(j, w) && w.stack != [] && Undisturbed(w, r)
    requires Has(r.f, w.cur) ==> ShapeOk(NodeAt(r.f, w.cur))
    requires forall p :: !OnStack(w, p) ==> FitAt(r.f, p)
    ensures InOrder(r)
  {
    forall p ensures OrderAt(r, p) {
      if w.cur == [] {
        assert p != [] ==> !OnStack(w, p);
      } else {
        var k := |w.cur| - 1;
        assert FrameOk(j, w, k);
        assert r.stack[k] == w.stack[k] && r.cur == w.cur[..k];
        if Completed(r, p) { assert p == w.cur; }
        if OnStack(w, p) {
          assert p == w.cur[..|p|];
          if |p| <= k { assert r.cur[..|p|] == p; } else { assert p == w.cur; }
        }
      }
    }
  }

  /** A visited node without children is done at once. */
  ghost function Left(j: Job, w: Walk): Walk
    requires Has(w.f, w.cur) && w.stack != []
  {
    Popped(Touched(j, w))
  }

  lemma LeftOk(j: Job, w: Walk)
    requires WalkOk(j, w) && w.stack != [] && w.untouched && Has(w.f, w.cur) && NodeAt(w.f, w.cur).count == 0
    ensures WalkOk(j, Left(j, w))
  {
    var r := Left(j, w);
    TouchedLinked(j, w);
    TouchedKept(j, w);
    assert FrameOk(j, w, |w.stack| - 1);
    forall p ensures KeptAt(j, r, p) { assert KeptAt(j, Touched(j, w), p); }
    LeafEnds(j.f0, w.cur);
    forall p | p in j.f0.at && |p| >= |w.cur| && p[..|w.cur|] == w.cur ensures p in r.seen {
      if |p| == |w.cur| { assert p == w.cur; }
    }
    forall i | 0 <= i < |w.cur| ensures w.cur[..i] != w.cur { assert |w.cur[..i]| == i; }
    PoppedStack(j, w, r);
    forall p | !OnStack(w, p) ensures FitAt(r.f, p) {
      assert OrderAt(w, p);
      assert w.cur[..|w.cur|] == w.cur;
    }
    PoppedOrder(j, w, r);
  }

  // ----- After a child: prune it, then move on ---------------------------------------------------

  /**
   * The trie g is that of w after the node on top was trimmed: its current child is
   * gone if nothing is left of it and stays if something is, and no other node but the
   * one on top has changed.
   */
  ghost predicate Trimmed(w: Walk, g: Forest, b: byte) {
    var c := w.cur + [b];
    && Linked(g) && Has(w.f, w.cur) && Has(g, w.cur)
    && NodeAt(g, w.cur).pipes == NodeAt(w.f, w.cur).pipes
    && (forall q :: q != c ==> Look(g, q) == Look(w.f, q))
    && (forall q :: q in g.at ==> Has(w.f, q) && Has(g, q))
    && (forall q :: q in g.at && q != w.cur ==> NodeAt(g, q) == NodeAt(w.f, q))
    && (c in g.at ==> g.at[c] == w.f.at[c] && !Redundant(NodeAt(g, c)))
    && (c !in g.at && Has(w.f, c) ==> NodeAt(w.f, c).pipes.None?)
  }

  lemma TrimmedKept(j: Job, w: Walk, g: Forest, b: byte)
    requires WalkOk(j, w) && !w.untouched && AtByte(w, b) && Top(w).processed && Trimmed(w, g, b)
    ensures Kept(j, w.(f := g))
  {
    var last := |w.stack| - 1;
    var c := w.cur + [b];
    assert FrameOk(j, w, last) && w.cur[..last] == w.cur && RegionOk(j, w, last, c) && c[..last] == w.cur;
    forall p ensures KeptAt(j, w.(f := g), p) {
      assert KeptAt(j, w, p) && PathOk(w.f, p) && PathOk(g, p) && PathOk(j.f0, p);
      assert p != c ==> Look(g, p) == Look(w.f, p);
    }
  }

  lemma TrimmedFit(j: Job, w: Walk, g: Forest, b: byte)
    requires WalkOk(j, w) && !w.untouched && AtByte(w, b) && Top(w).processed && Trimmed(w, g, b)
    ensures forall p :: !OnStack(w, p) ==> FitAt(g, p)
  {
    assert w.cur[..|w.cur|] == w.cur;
    forall p | !OnStack(w, p) ensures FitAt(g, p) {
      assert OrderAt(w, p);
      assert FrameOk(j, w, |w.stack| - 1);
      if Completed(w, p) { assert p == w.cur + [b]; }
    }
  }

  /** The next child of a table is current. */
  ghost function Advanced(w: Walk, g: Forest, it: Visit): Walk
    requires w.stack != []
  {
    w.(f := g, stack := w.stack[..|w.stack| - 1] + [it])
  }

  ghost predicate NextEntry(w: Walk, it: Visit) {
    w.stack != [] && it == Top(w).(currentChild := Top(w).currentChild + 1, processed := false,
                                   newMin := it.newMin, newMax := it.newMax)
  }

  lemma AdvancedStack(j: Job, w: Walk, g: Forest, b: byte, it: Visit)
    requires WalkOk(j, w) && !w.untouched && AtByte(w, b) && Top(w).processed && Trimmed(w, g, b) && NextEntry(w, it)
    requires Has(j.f0, w.cur) && OpenOk(NodeAt(j.f0, w.cur), NodeAt(g, w.cur), it)
    ensures WalkStackOk(j, Advanced(w, g, it))
  {
    var r, last := Advanced(w, g, it), |w.stack| - 1;
    assert FrameOk(j, w, last) && w.cur[..last] == w.cur;
    forall i | 0 <= i < |r.stack| ensures FrameOk(j, r, i) {
      assert FrameOk(j, w, i);
      assert |w.cur[..i]| == i;
      if i < last { assert r.stack[i] == w.stack[i]; }
    }
    forall i, p | 0 <= i < |r.stack| ensures RegionOk(j, r, i, p) {
      assert FrameOk(j, w, i) && RegionOk(j, w, i, p);
      if i < last { assert r.stack[i] == w.stack[i]; }
    }
  }

  lemma AdvancedOk(j: Job, w: Walk, g: Forest, b: byte, it: Visit)
    requires WalkOk(j, w) && !w.untouched && AtByte(w, b) && Top(w).processed && Trimmed(w, g, b) && NextEntry(w, it)
    requires Has(j.f0, w.cur) && OpenOk(NodeAt(j.f0, w.cur), NodeAt(g, w.cur), it)
    ensures WalkOk(j, Advanced(w, g, it))
  {
    var r := Advanced(w, g, it);
    AdvancedStack(j, w, g, b, it);
    TrimmedKept(j, w, g, b);
    forall p ensures KeptAt(j, r, p) { assert KeptAt(j, w.(f := g), p); }
    TrimmedFit(j, w, g, b);
    forall p ensures OrderAt(r, p) { }
  }

  /** The last child is done: the node leaves the stack in its final form. */
  ghost function Closed(w: Walk, g: Forest): Walk
    requires w.stack != []
  {
    Popped(w.(f := g))
  }

  lemma ClosedBelow(j: Job, w: Walk, b: byte)
    requires WalkOk(j, w) && !w.untouched && AtByte(w, b) && Top(w).processed
    requires Top(w).currentChild + 1 >= NodeAt(w.f, w.cur).count
    ensures AllBelowSeen(j, w) && w.cur in w.seen
  {
    var last := |w.stack| - 1;
    assert FrameOk(j, w, last) && w.cur[..last] == w.cur;
    forall p | p in j.f0.at && |p| >= |w.cur| && p[..|w.cur|] == w.cur ensures p in w.seen {
      if |p| == |w.cur| {
        assert p == w.cur;
      } else {
        BranchLeads(j.f0, w.cur, p);
        assert RegionOk(j, w, last, p);
      }
    }
  }

  lemma ClosedOk(j: Job, w: Walk, g: Forest, b: byte)
    requires WalkOk(j, w) && !w.untouched && AtByte(w, b) && Top(w).processed && Trimmed(w, g, b)
    requires Top(w).currentChild + 1 >= NodeAt(w.f, w.cur).count && ShapeOk(NodeAt(g, w.cur))
    ensures WalkOk(j, Closed(w, g))
  {
    var r := Closed(w, g);
    ClosedBelow(j, w, b);
    assert FrameOk(j, w, |w.stack| - 1);
    assert r.seen == w.seen + {w.cur};
    forall i | 0 <= i < |w.cur| ensures w.cur[..i] != w.cur + [b] && w.cur[..i] != w.cur { assert |w.cur[..i]| == i; }
    forall i | 0 <= i < |w.cur| ensures Has(g, w.cur[..i]) && NodeAt(g, w.cur[..i]) == NodeAt(w.f, w.cur[..i]) {
      assert FrameOk(j, w, i);
    }
    PoppedStack(j, w, r);
    TrimmedKept(j, w, g, b);
    forall p ensures KeptAt(j, r, p) { assert KeptAt(j, w.(f := g), p); }
    TrimmedFit(j, w, g, b);
    PoppedOrder(j, w, r);
  }
}
