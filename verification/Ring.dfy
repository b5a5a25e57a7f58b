/**
 * The round-robin order that lb_t and fq_t keep in an array: the first `active` slots
 * take turns, starting from slot `current`; pipes that refuse are swapped out behind
 * them.  Here as a value, with what the swaps do to each pipe's place in the queue.
 */
module Ring {
  import opened PipeArray

  datatype Ring = Ring(items: seq<Pipe>, active: nat, current: nat)

  ghost predicate Ok(r: Ring) {
    && r.active <= |r.items|
    && (if r.active == 0 then r.current == 0 else r.current < r.active)
    && forall i, j :: 0 <= i < j < |r.items| ==> r.items[i] != r.items[j]
  }

  ghost predicate Active(r: Ring, p: Pipe)
    requires r.active <= |r.items|
  {
    p in r.items[..r.active]
  }

  function Turn(r: Ring): Pipe
    requires Ok(r) && r.active > 0
  {
    r.items[r.current]
  }

  function Swapped(s: seq<Pipe>, i: nat, j: nat): seq<Pipe>
    requires i < |s| && j < |s|
  {
    s[i := s[j]][j := s[i]]
  }

  // ----- What the operations do to the ring --------------------------------------------------

  /** The pipe whose turn it is leaves the active slots; the last active pipe takes its slot. */
  function Deactivated(r: Ring): Ring
    requires Ok(r) && r.active > 0
  {
    var n := r.active - 1;
    Ring(Swapped(r.items, r.current, n), n, if r.current == n then 0 else r.current)
  }

  function Advanced(r: Ring): Ring
    requires Ok(r) && r.active > 0
  {
    r.(current := if r.current + 1 == r.active then 0 else r.current + 1)
  }

  /** No slot is left behind the active ones: the swap that activates a pipe would reach past the array. */
  predicate Overruns(r: Ring) {
    r.active >= |r.items|
  }

  /** The pipe at slot i gets the slot behind the active ones, and that one's pipe its slot. */
  function Entered(r: Ring, i: nat): Ring
    requires Ok(r) && !Overruns(r) && i < |r.items|
  {
    r.(items := Swapped(r.items, i, r.active), active := r.active + 1)
  }

  function Added(r: Ring, p: Pipe): Ring
    requires Ok(r) && p !in r.items
  {
    Entered(r.(items := r.items + [p]), |r.items|)
  }

  function Erased(s: seq<Pipe>, i: nat): seq<Pipe>
    requires i < |s|
  {
    s[i := s[|s| - 1]][..|s| - 1]
  }

  /** The pipe at slot i is swapped behind the active ones, if it is one of them. */
  function TakenOut(r: Ring, i: nat): Ring
    requires Ok(r) && i < |r.items|
  {
    if i >= r.active then r
    else
      var n := r.active - 1;
      Ring(Swapped(r.items, i, n), n, if r.current == n then 0 else r.current)
  }

  function Removed(r: Ring, i: nat): Ring
    requires Ok(r) && i < |r.items|
  {
    var out := TakenOut(r, i);
    out.(items := Erased(out.items, if i < r.active then r.active - 1 else i))
  }

  /** Skips, and deactivates, pipes that are not ready, until one is or none is left. */
  function Seek(r: Ring, ready: set<Pipe>): Ring
    requires Ok(r)
    decreases r.active
  {
    if r.active == 0 || Turn(r) in ready then r
    else
      DeactivatedOk(r);
      Seek(Deactivated(r), ready)
  }

  /** One part is passed through the first pipe that is ready; the last part of a message ends the turn. */
  function Served(r: Ring, ready: set<Pipe>, last: bool): Ring
    requires Ok(r)
  {
    var s := Seek(r, ready);
    SeekOk(r, ready);
    if s.active > 0 && last then Advanced(s) else s
  }

  // ----- The ring stays in order ---------------------------------------------------------------

  lemma DeactivatedOk(r: Ring)
    requires Ok(r) && r.active > 0
    ensures Ok(Deactivated(r))
    ensures forall p :: p in Deactivated(r).items <==> p in r.items
    ensures forall p :: Active(Deactivated(r), p) <==> Active(r, p) && p != Turn(r)
  {
    var d := Deactivated(r);
    var n := r.active - 1;
    assert d.items[r.current] == r.items[n] && d.items[n] == r.items[r.current];
    forall p ensures p in d.items <==> p in r.items {
      if p in r.items {
        var i :| 0 <= i < |r.items| && r.items[i] == p;
        assert d.items[if i == n then r.current else if i == r.current then n else i] == p;
      }
    }
    forall p ensures Active(d, p) <==> Active(r, p) && p != Turn(r) {
      if Active(r, p) && p != Turn(r) {
        var i :| 0 <= i < r.active && r.items[i] == p;
        assert d.items[if i == n then r.current else i] == p;
      }
    }
  }

  /** A passive pipe becomes active; if it was active already, another one does, and the turn may change. */
  lemma EnteredOk(r: Ring, i: nat)
    requires Ok(r) && !Overruns(r) && i < |r.items|
    ensures Ok(Entered(r, i)) && (r.active > 0 ==> (Turn(Entered(r, i)) == Turn(r) <==> i != r.current))
    ensures forall p :: p in Entered(r, i).items <==> p in r.items
    ensures forall p :: Active(Entered(r, i), p) <==> Active(r, p) || p == r.items[if i < r.active then r.active else i]
  {
    SwappedIs(r.items, i, r.active);
    var e := Entered(r, i);
    forall p ensures Active(e, p) <==> Active(r, p) || p == r.items[if i < r.active then r.active else i] {
      if Active(r, p) {
        var k :| 0 <= k < r.active && r.items[k] == p;
        assert e.items[if k == i then r.active else k] == p;
      }
      assert e.items[if i < r.active then i else r.active] == r.items[if i < r.active then r.active else i];
    }
  }

  lemma AddedOk(r: Ring, p: Pipe)
    requires Ok(r) && p !in r.items
    ensures Ok(Added(r, p)) && (r.active > 0 ==> Turn(Added(r, p)) == Turn(r))
    ensures forall q :: q in Added(r, p).items <==> q in r.items || q == p
    ensures forall q :: Active(Added(r, p), q) <==> Active(r, q) || q == p
  {
    var w := r.(items := r.items + [p]);
    EnteredOk(w, |r.items|);
    assert w.items[..w.active] == r.items[..r.active] && w.items[|r.items|] == p;
  }

  lemma ErasedIs(s: seq<Pipe>, i: nat)
    requires i < |s| && forall a, b :: 0 <= a < b < |s| ==> s[a] != s[b]
    ensures var e := Erased(s, i);
            && (forall a, b :: 0 <= a < b < |e| ==> e[a] != e[b])
            && (forall p :: p in e <==> p in s && p != s[i])
  {
    var e := Erased(s, i);
    forall p ensures p in e <==> p in s && p != s[i] {
      if p in s && p != s[i] {
        var k :| 0 <= k < |s| && s[k] == p;
        assert e[if k == |s| - 1 then i else k] == p;
      }
    }
  }

  lemma SwappedIs(s: seq<Pipe>, i: nat, j: nat)
    requires i < |s| && j < |s| && forall a, b :: 0 <= a < b < |s| ==> s[a] != s[b]
    ensures var e := Swapped(s, i, j);
            && (forall a, b :: 0 <= a < b < |e| ==> e[a] != e[b])
            && (forall p :: p in e <==> p in s)
  {
    var e := Swapped(s, i, j);
    forall p ensures p in e <==> p in s {
      if p in s {
        var k :| 0 <= k < |s| && s[k] == p;
        assert e[if k == i then j else if k == j then i else k] == p;
      }
    }
  }

  /** The pipe is gone; every other one is where it was, active or not. */
  lemma RemovedOk(r: Ring, i: nat)
    requires Ok(r) && i < |r.items|
    ensures Ok(Removed(r, i)) && forall p :: p in Removed(r, i).items <==> p in r.items && p != r.items[i]
    ensures forall p :: Active(Removed(r, i), p) <==> Active(r, p) && p != r.items[i]
  {
    if i < r.active {
      SwappedIs(r.items, i, r.active - 1);
      ErasedIs(Swapped(r.items, i, r.active - 1), r.active - 1);
    } else {
      ErasedIs(r.items, i);
    }
    forall p ensures Active(Removed(r, i), p) <==> Active(r, p) && p != r.items[i] { RemovedActive(r, i, p); }
  }

  lemma RemovedActive(r: Ring, i: nat, p: Pipe)
    requires Ok(r) && i < |r.items|
    ensures Removed(r, i).active <= |Removed(r, i).items|
    ensures Active(Removed(r, i), p) <==> Active(r, p) && p != r.items[i]
  {
    var d, n := Removed(r, i), r.active - 1;
    if Active(r, p) && p != r.items[i] {
      var k :| 0 <= k < r.active && r.items[k] == p;
      assert d.items[if k == n && i < r.active then i else k] == p;
    }
    if Active(d, p) {
      var k :| 0 <= k < d.active && d.items[k] == p;
      assert r.items[if k == i && i < r.active then n else k] == p;
    }
  }

  /**
   * A termination moves the pipe whose turn it is into the freed slot, if it was in the last
   * active one, but then the turn goes to slot 0.
   */
  predicate Misplaces(r: Ring, i: nat) {
    0 < i < r.current && r.current == r.active - 1
  }

  /** The turn stays with the same pipe exactly unless that pipe goes, or is misplaced. */
  lemma RemovedKeepsTurn(r: Ring, i: nat)
    requires Ok(r) && i < |r.items| && r.active > 0
    ensures Ok(Removed(r, i))
    ensures (Removed(r, i).active > 0 && Turn(Removed(r, i)) == Turn(r)) <==> i != r.current && !Misplaces(r, i)
    ensures Removed(r, i).active > 0 && (i == r.current || Misplaces(r, i)) ==>
              Turn(Removed(r, i)) == r.items[if r.current == r.active - 1 then 0 else r.active - 1]
  {
    RemovedOk(r, i);
    var d := Removed(r, i);
    if i < r.active {
      var n := r.active - 1;
      var s := Swapped(r.items, i, n);
      assert forall k :: 0 <= k < n ==> d.items[k] == s[k];
    }
  }

  lemma {:induction false} SeekOk(r: Ring, ready: set<Pipe>)
    requires Ok(r)
    ensures var s := Seek(r, ready);
            && Ok(s) && s.active <= r.active
            && (s.active > 0 ==> Turn(s) in ready)
            && (forall p :: p in s.items <==> p in r.items)
            && (forall p :: Active(s, p) ==> Active(r, p))
            && (forall p :: Active(r, p) && p in ready ==> Active(s, p))
    decreases r.active
  {
    if r.active > 0 && Turn(r) !in ready {
      DeactivatedOk(r);
      SeekOk(Deactivated(r), ready);
    }
  }

  // ----- The order in which pipes are asked ---------------------------------------------------------

  function Backwards(s: seq<Pipe>): (r: seq<Pipe>)
    ensures |r| == |s| && forall i :: 0 <= i < |s| ==> r[i] == s[|s| - 1 - i]
  {
    if s == [] then [] else [s[|s| - 1]] + Backwards(s[..|s| - 1])
  }

  /**
   * The order in which pipes are asked as long as they are not ready: the one whose turn it is, then
   * those behind it from the last to the first, because the last one takes each freed slot; then the
   * first slot, and those between, again from the last on.
   */
  function Order(r: Ring): seq<Pipe>
    requires Ok(r)
  {
    if r.active == 0 then [] else Rounds(r.items[..r.current], r.items[r.current..r.active])
  }

  /** First the pipes from the current slot on, then those before it. */
  function Rounds(front: seq<Pipe>, rear: seq<Pipe>): seq<Pipe>
    requires rear != []
  {
    Sweep(rear) + if front == [] then [] else Sweep(front)
  }

  function Sweep(s: seq<Pipe>): seq<Pipe>
    requires s != []
  {
    [s[0]] + Backwards(s[1..])
  }

  /** The last pipe takes the first slot: the sweep goes on with it. */
  lemma SweepNext(s: seq<Pipe>, t: seq<Pipe>)
    requires |s| > 1 && |t| == |s| - 1 && t[0] == s[|s| - 1] && t[1..] == s[1..|s| - 1]
    ensures Sweep(s)[1..] == Sweep(t)
  {
    assert s[1..][..|s| - 2] == t[1..];
  }

  /** The current slot is the last active one. */
  lemma LastOrder(r: Ring)
    requires Ok(r) && r.active > 0 && r.current == r.active - 1 && Ok(Deactivated(r))
    ensures Order(Deactivated(r)) == Order(r)[1..]
  {
    var d, n := Deactivated(r), r.active - 1;
    var front := r.items[..n];
    assert r.items[r.current..r.active] == [Turn(r)] && Sweep([Turn(r)]) == [Turn(r)];
    assert d.items[0..n] == front && d.items[..0] == [];
    if n > 0 { assert Rounds([], front) == Sweep(front); }
  }

  /** The last active pipe takes the current slot. */
  lemma MovedOrder(r: Ring)
    requires Ok(r) && r.active > 0 && r.current < r.active - 1 && Ok(Deactivated(r))
    ensures Order(Deactivated(r)) == Order(r)[1..]
  {
    var d, n := Deactivated(r), r.active - 1;
    var front, s, t := r.items[..r.current], r.items[r.current..r.active], d.items[r.current..n];
    assert d.items[..r.current] == front;
    assert t[1..] == s[1..|s| - 1];
    SweepNext(s, t);
    var tail := if front == [] then [] else Sweep(front);
    assert (Sweep(s) + tail)[1..] == Sweep(s)[1..] + tail;
  }

  lemma DeactivatedOrder(r: Ring)
    requires Ok(r) && r.active > 0
    ensures Ok(Deactivated(r)) && Order(r) != [] && Order(r)[0] == Turn(r) && Order(Deactivated(r)) == Order(r)[1..]
  {
    DeactivatedOk(r);
    if r.current == r.active - 1 { LastOrder(r); } else { MovedOrder(r); }
  }

  /** The first that is ready; all before it are not. */
  function FirstReady(order: seq<Pipe>, ready: set<Pipe>): (k: nat)
    ensures k <= |order| && (k < |order| ==> order[k] in ready) && forall i :: 0 <= i < k ==> order[i] !in ready
  {
    if order == [] || order[0] in ready then 0 else 1 + FirstReady(order[1..], ready)
  }

  /**
   * Exactly the pipes that come before the first one that is ready are taken out; it is the one whose
   * turn it is then, and all that come after it are active as before.
   */
  lemma {:induction false} SeekOrder(r: Ring, ready: set<Pipe>)
    requires Ok(r)
    ensures Ok(Seek(r, ready)) && Order(Seek(r, ready)) == Order(r)[FirstReady(Order(r), ready)..]
    decreases r.active
  {
    SeekOk(r, ready);
    if r.active > 0 {
      DeactivatedOrder(r);
      if Turn(r) !in ready { SeekOrder(Deactivated(r), ready); }
    }
  }

  lemma BackwardsHas(s: seq<Pipe>, p: Pipe)
    ensures p in Backwards(s) <==> p in s
  {
    var b := Backwards(s);
    if p in s {
      var i :| 0 <= i < |s| && s[i] == p;
      assert b[|s| - 1 - i] == p;
    }
  }

  lemma SweepHas(s: seq<Pipe>, p: Pipe)
    requires s != []
    ensures p in Sweep(s) <==> p in s
  {
    BackwardsHas(s[1..], p);
    assert s == [s[0]] + s[1..];
  }

  /** All active pipes are in it, each once, and no other. */
  lemma OrderOfActive(r: Ring)
    requires Ok(r)
    ensures |Order(r)| == r.active && (r.active > 0 ==> Order(r)[0] == Turn(r))
    ensures forall p :: p in Order(r) <==> Active(r, p)
  {
    if r.active > 0 {
      var rear, front := r.items[r.current..r.active], r.items[..r.current];
      assert r.items[..r.active] == front + rear;
      forall p ensures p in Order(r) <==> Active(r, p) {
        SweepHas(rear, p);
        if r.current > 0 { SweepHas(front, p); }
      }
    }
  }

  /** Exactly these pipes are active. */
  ghost predicate ActiveAre(r: Ring, ps: seq<Pipe>)
    requires r.active <= |r.items|
  {
    forall p :: Active(r, p) <==> p in ps
  }

  /**
   * A part passed through pipe p of ring r, which is t then: p is the first in order that was ready,
   * exactly those asked before it are left out, and the last part of a message ends the turn.
   */
  ghost predicate PassedThrough(r: Ring, ready: set<Pipe>, last: bool, p: Pipe, t: Ring)
    requires Ok(r) && Ok(t)
  {
    var k := FirstReady(Order(r), ready);
    && k < |Order(r)| && p == Order(r)[k] && p in ready && ActiveAre(t, Remaining(r, ready))
    && t.active > 0 && (Turn(t) == p <==> !last || t.active == 1)
  }

  lemma AdvancedActive(r: Ring, ps: seq<Pipe>)
    requires Ok(r) && r.active > 0 && ActiveAre(r, ps)
    ensures Ok(Advanced(r)) && ActiveAre(Advanced(r), ps) && (Turn(Advanced(r)) == Turn(r) <==> r.active == 1)
  {
    assert forall p :: Active(Advanced(r), p) <==> Active(r, p);
  }

  lemma ServedExact(r: Ring, ready: set<Pipe>, last: bool)
    requires Ok(r) && Seek(r, ready).active > 0
    ensures Ok(Seek(r, ready)) && Ok(Served(r, ready, last))
    ensures PassedThrough(r, ready, last, Turn(Seek(r, ready)), Served(r, ready, last))
  {
    SeekOk(r, ready);
    SeekOrder(r, ready);
    OrderOfActive(Seek(r, ready));
    FoundExact(r, ready);
    AdvancedActive(Seek(r, ready), Remaining(r, ready));
  }

  /** The first in order that is ready, and those after it. */
  function Remaining(r: Ring, ready: set<Pipe>): seq<Pipe>
    requires Ok(r)
  {
    Order(r)[FirstReady(Order(r), ready)..]
  }

  lemma FoundExact(r: Ring, ready: set<Pipe>)
    requires Ok(r)
    ensures Ok(Seek(r, ready)) && ActiveAre(Seek(r, ready), Remaining(r, ready))
  {
    SeekOrder(r, ready);
    OrderOfActive(Seek(r, ready));
  }

  /** Nobody is ready exactly if none is left. */
  lemma NobodyReady(r: Ring, ready: set<Pipe>)
    requires Ok(r)
    ensures Seek(r, ready).active == 0 <==> forall p :: Active(r, p) ==> p !in ready
  {
    SeekOk(r, ready);
    if Seek(r, ready).active > 0 { assert Active(Seek(r, ready), Turn(Seek(r, ready))); }
  }

  // ----- Bounded waiting -------------------------------------------------------------------------

  ghost function Slot(r: Ring, p: Pipe): (i: nat)
    requires Ok(r) && Active(r, p)
    ensures i < r.active && r.items[i] == p
  {
    var i :| 0 <= i < r.active && r.items[i] == p; i
  }

  /** How many turns come before p's. */
  ghost function Distance(r: Ring, p: Pipe): (d: nat)
    requires Ok(r) && Active(r, p)
    ensures d < r.active && (d == 0 <==> Turn(r) == p)
  {
    var i := Slot(r, p);
    if i >= r.current then i - r.current else i + r.active - r.current
  }

  /**
   * Taking a pipe out never moves another one back in the queue, though it may change slots: the last
   * active one is next, those before the slot move up, and those behind it stay.
   */
  lemma DeactivatedDistance(r: Ring, p: Pipe)
    requires Ok(r) && Active(r, p) && p != Turn(r)
    ensures Ok(Deactivated(r)) && Active(Deactivated(r), p)
    ensures Distance(Deactivated(r), p) <= Distance(r, p)
    ensures Distance(Deactivated(r), p) ==
            if r.current == r.active - 1 then Distance(r, p) - 1
            else if p == r.items[r.active - 1] then 0
            else if Distance(r, p) < r.active - r.current then Distance(r, p)
            else Distance(r, p) - 1
  {
    DeactivatedOk(r);
    var i, d, n := Slot(r, p), Deactivated(r), r.active - 1;
    assert d.items[if i == n then r.current else i] == p;
  }

  lemma {:induction false} SeekDistance(r: Ring, ready: set<Pipe>, p: Pipe)
    requires Ok(r) && Active(r, p) && p in ready
    ensures Ok(Seek(r, ready)) && Active(Seek(r, ready), p)
    ensures Distance(Seek(r, ready), p) <= Distance(r, p)
    decreases r.active
  {
    if r.active > 0 && Turn(r) !in ready {
      DeactivatedDistance(r, p);
      SeekDistance(Deactivated(r), ready, p);
    }
  }

  lemma AdvancedDistance(r: Ring, p: Pipe)
    requires Ok(r) && Active(r, p) && p != Turn(r)
    ensures Ok(Advanced(r)) && Active(Advanced(r), p) && Distance(Advanced(r), p) == Distance(r, p) - 1
    ensures Active(Advanced(r), Turn(r)) && Distance(Advanced(r), Turn(r)) == r.active - 1
  {
    var i := Slot(r, p);
    assert r.items[Slot(Advanced(r), p)] == p;
    assert Active(r, Turn(r)) && r.items[Slot(Advanced(r), Turn(r))] == Turn(r);
  }
}
