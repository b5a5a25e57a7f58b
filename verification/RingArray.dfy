/**
 * The array of pipes and the two counters that lb_t and fq_t both keep, updated in
 * place; each operation is proved against its meaning on the ring.
 */
module RingArray {
  import opened PipeArray
  import opened Ring

  class RingArray {
    const pipes: PipeArray
    var active: nat
    var current: nat

    ghost function View(): Ring
      reads this, pipes
    {
      Ring(pipes.items, active, current)
    }

    ghost predicate Valid()
      reads this, pipes
    {
      pipes.Valid() && Ok(View())
    }

    constructor ()
      ensures Valid() && fresh(pipes) && View() == Ring([], 0, 0)
    {
      pipes := new PipeArray();
      active, current := 0, 0;
    }

    /** The pipe whose turn it is. */
    function First(): (p: Pipe)
      requires Valid() && active > 0
      reads this, pipes
      ensures p in pipes.index && p == Turn(View())
    {
      pipes.items[current]
    }

    method Add(p: Pipe)
      requires Valid() && p !in pipes.index
      modifies this, pipes
      ensures p !in old(View()).items && Valid() && View() == Added(old(View()), p)
    {
      AddedOk(View(), p);
      pipes.PushBack(p);
      var ok := Enter(p);
    }

    /** A pipe gets the slot behind the active ones; without one, the swap would be out of bounds. */
    method Enter(p: Pipe) returns (ok: bool)
      requires Valid() && p in pipes.index
      modifies this, pipes
      ensures Valid() && (ok <==> !Overruns(old(View())))
      ensures View() == if ok then Entered(old(View()), old(pipes.index)[p]) else old(View())
    {
      ok := active < |pipes.items|;
      if ok {
        EnteredOk(View(), pipes.index[p]);
        pipes.Swap(pipes.Index(p), active);
        active := active + 1;
      }
    }

    /** The pipe whose turn it is refused: it leaves the active ones. */
    method Deactivate()
      requires Valid() && active > 0
      modifies this, pipes
      ensures Valid() && View() == Deactivated(old(View()))
    {
      DeactivatedOk(View());
      active := active - 1;
      pipes.Swap(current, active);
      if current == active {
        current := 0;
      }
    }

    method Remove(p: Pipe)
      requires Valid() && p in pipes.index
      modifies this, pipes
      ensures Valid() && View() == Removed(old(View()), old(pipes.index)[p])
      ensures forall q :: Active(View(), q) <==> Active(old(View()), q) && q != p
    {
      RemovedOk(View(), pipes.index[p]);
      TakeOut(p);
      EraseFrom(p);
    }

    /** An active pipe is swapped behind the active ones. */
    method TakeOut(p: Pipe)
      requires Valid() && p in pipes.index
      modifies this, pipes
      ensures pipes.Valid() && p in pipes.index && View() == TakenOut(old(View()), old(pipes.index)[p])
      ensures pipes.index[p] == if old(pipes.index[p] < active) then old(active) - 1 else old(pipes.index)[p]
    {
      var index := pipes.Index(p);
      if index < active {
        active := active - 1;
        pipes.Swap(index, active);
        if current == active {
          current := 0;
        }
      }
    }

    method EraseFrom(p: Pipe)
      requires pipes.Valid() && p in pipes.index
      modifies pipes
      ensures pipes.Valid() && View() == old(View()).(items := Erased(old(pipes.items), old(pipes.index)[p]))
    {
      pipes.Erase(p);
    }

    /** The turn passes to the next active pipe. */
    method Advance()
      requires Valid() && active > 0
      modifies this`current
      ensures Valid() && View() == Advanced(old(View()))
    {
      current := current + 1;
      if current >= active {
        current := 0;
      }
    }

    /** Deactivates pipes that are not ready until one is; tells whether there is one. */
    method FindReady(ready: set<Pipe>) returns (found: bool)
      requires Valid()
      modifies this, pipes
      ensures Valid() && View() == Seek(old(View()), ready)
      ensures found <==> exists p :: Active(old(View()), p) && p in ready
    {
      ghost var r := View();
      SeekOk(r, ready);
      while active > 0
        invariant Valid() && Seek(View(), ready) == Seek(r, ready)
        decreases active
      {
        if First() in ready {
          assert Active(View(), First());
          return true;
        }
        Deactivate();
      }
      return false;
    }
  }
}
