/**
 * array_t of src/array.hpp: a vector of pipes in which every pipe knows its own
 * position, so that finding, swapping and erasing take constant time.
 */
module PipeArray {

  /** The address of a pipe. */
  type Pipe = nat

  class PipeArray {
    var items: seq<Pipe>
    // The _array_index field of each pipe that is in this array.
    var index: map<Pipe, nat>

    /** Every pipe is stored at the position it believes in, and only there. */
    ghost predicate Valid()
      reads this
    {
      && (forall i {:trigger items[i]} :: 0 <= i < |items| ==> items[i] in index && index[items[i]] == i)
      && (forall p {:trigger index[p]} :: p in index ==> index[p] < |items| && items[index[p]] == p)
    }

    constructor ()
      ensures Valid() && items == [] && index == map[]
    {
      items, index := [], map[];
    }

    method PushBack(p: Pipe)
      requires Valid() && p !in index
      modifies this
      ensures Valid() && items == old(items) + [p] && index == old(index)[p := |old(items)|]
      ensures forall k: nat {:trigger Zone(index, k)} :: k <= |old(items)| ==> Zone(index, k) == old(Zone(index, k))
    {
      index := index[p := |items|];
      items := items + [p];
    }

    /** The last pipe takes the place of the one that goes. */
    method Erase(p: Pipe)
      requires Valid() && p in index
      modifies this
      ensures Valid() && |items| == |old(items)| - 1
      ensures items == old(items[index[p] := items[|items| - 1]][..|items| - 1])
      ensures var last := old(items)[|old(items)| - 1];
              index == (if p == last then old(index) else old(index)[last := old(index)[p]]) - {p}
      ensures forall k: nat {:trigger Zone(index, k)} :: k <= old(index)[p] ==> Zone(index, k) == old(Zone(index, k))
    {
      var i, last := index[p], items[|items| - 1];
      index := index[last := i];
      items := items[i := last];
      items := items[..|items| - 1];
      index := index - {p};
    }

    method Swap(i: nat, j: nat)
      requires Valid() && i < |items| && j < |items|
      modifies this
      ensures Valid() && |items| == |old(items)|
      ensures items == old(items)[i := old(items)[j]][j := old(items)[i]]
      ensures index == old(index)[old(items)[i] := j][old(items)[j] := i]
      ensures forall k: nat {:trigger Zone(index, k)} ::
                (i < k <==> j < k) ==> Zone(index, k) == old(Zone(index, k))
    {
      index := index[items[i] := j];
      index := index[items[j] := i];
      items := items[i := items[j]][j := items[i]];
    }

    function Index(p: Pipe): nat
      requires p in index
      reads this
    {
      index[p]
    }
  }

  /** A zone grows by the pipe at its end. */
  lemma ZoneEnd(a: PipeArray, p: Pipe)
    requires a.Valid() && p in a.index
    ensures Zone(a.index, a.index[p] + 1) == Zone(a.index, a.index[p]) + {p}
    ensures p !in Zone(a.index, a.index[p])
  {
    assert forall q :: q in a.index && a.index[q] == a.index[p] ==> a.items[a.index[q]] == p;
  }

  /** The pipes at the first k positions. */
  ghost function Zone(index: map<Pipe, nat>, k: nat): set<Pipe> {
    set p | p in index && index[p] < k
  }
}
