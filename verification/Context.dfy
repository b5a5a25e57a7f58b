/**
 * ctx_t of src/ctx.cpp: the slots of sockets, and the end of the context, which waits for
 * the thread that reaps closed sockets to stop.
 */
module Context {
  import opened Common
  import opened PipeArray

  /** A socket, by its unique number. */
  type Sid = nat

  // The slots of the thread that terminates the context and of the reaper come first.
  const TERM_AND_REAPER := 2

  // ----- Slots ---------------------------------------------------------------------------------------------

  /** Slot i is free and listed as free, or it is the slot of a live socket. */
  ghost predicate SlotAt(slots: seq<Option<Sid>>, free: seq<nat>, tids: map<Sid, nat>, live: set<Sid>, first: nat,
                         i: nat) {
    first <= i < |slots| ==>
      match slots[i]
      case None => i in free
      case Some(s) => i !in free && s in live && s in tids && tids[s] == i
  }

  ghost predicate SocketAt(slots: seq<Option<Sid>>, tids: map<Sid, nat>, live: set<Sid>, first: nat, s: Sid) {
    s in live ==> s in tids && first <= tids[s] < |slots| && slots[tids[s]] == Some(s)
  }

  /** Every slot is listed as free once, or belongs to exactly one live socket. */
  ghost predicate Shared(slots: seq<Option<Sid>>, free: seq<nat>, tids: map<Sid, nat>, live: set<Sid>, first: nat) {
    && (forall i {:trigger SlotAt(slots, free, tids, live, first, i)} :: SlotAt(slots, free, tids, live, first, i))
    && (forall s {:trigger SocketAt(slots, tids, live, first, s)} :: SocketAt(slots, tids, live, first, s))
    && (forall i :: 0 <= i < |free| ==> first <= free[i] < |slots|)
    && (forall i, j :: 0 <= i < j < |free| ==> free[i] != free[j])
  }

  /** The last free slot is taken by a new socket. */
  lemma TakeSlot(slots: seq<Option<Sid>>, free: seq<nat>, tids: map<Sid, nat>, live: set<Sid>, first: nat, s: Sid)
    requires Shared(slots, free, tids, live, first) && free != [] && s !in live
    ensures var slot := free[|free| - 1];
            Shared(slots[slot := Some(s)], free[..|free| - 1], tids[s := slot], live + {s}, first)
  {
    var slot, less := free[|free| - 1], free[..|free| - 1];
    var slots1, tids1, live1 := slots[slot := Some(s)], tids[s := slot], live + {s};
    assert SlotAt(slots, free, tids, live, first, slot);
    forall i ensures SlotAt(slots1, less, tids1, live1, first, i) {
      assert SlotAt(slots, free, tids, live, first, i);
      assert i in free <==> i in less || i == slot;
    }
    forall t ensures SocketAt(slots1, tids1, live1, first, t) { assert SocketAt(slots, tids, live, first, t); }
  }

  /** A socket gives its slot back. */
  lemma FreeSlot(slots: seq<Option<Sid>>, free: seq<nat>, tids: map<Sid, nat>, live: set<Sid>, first: nat, s: Sid)
    requires Shared(slots, free, tids, live, first) && s in live && s in tids && tids[s] < |slots|
    ensures Shared(slots[tids[s] := None], free + [tids[s]], tids, live - {s}, first)
  {
    var slot := tids[s];
    var slots1, more, live1 := slots[slot := None], free + [slot], live - {s};
    assert SocketAt(slots, tids, live, first, s) && SlotAt(slots, free, tids, live, first, slot);
    forall i ensures SlotAt(slots1, more, tids, live1, first, i) {
      assert SlotAt(slots, free, tids, live, first, i);
      assert i in more <==> i in free || i == slot;
    }
    forall t ensures SocketAt(slots1, tids, live1, first, t) { assert SocketAt(slots, tids, live, first, t); }
  }

  // ----- The context -----------------------------------------------------------------------------------------

  datatype Error = Eterm | Emfile | Efail

  class Ctx {
    const maxSockets: nat
    const ios: nat
    var starting: bool
    var terminating: bool
    const sockets: PipeArray
    var slots: seq<Option<Sid>>
    var emptySlots: seq<nat>
    var maxSocketId: Sid
    // The slot each socket was created with.
    var tids: map<Sid, nat>
    // The sockets of inproc connections that wait for a bind.
    var pending: seq<Sid>
    // How often the reaper was told to stop.
    ghost var stops: nat

    ghost function Live(): set<Sid>
      reads sockets
    {
      sockets.index.Keys
    }

    /** The slots are shared out, and sockets and free slots are together as many as the limit. */
    ghost predicate Slotted()
      reads this, sockets
    {
      && sockets.Valid() && (forall s :: s in Live() ==> s <= maxSocketId)
      && (forall i :: 0 <= i < |pending| ==> pending[i] in Live())
      && if starting then sockets.items == [] && slots == [] && emptySlots == []
         else && |slots| == maxSockets + ios + TERM_AND_REAPER
              && Shared(slots, emptySlots, tids, Live(), ios + TERM_AND_REAPER)
              && |sockets.items| + |emptySlots| == maxSockets
    }

    /** The reaper was told to stop exactly if there is one, the context terminates, and no socket is left. */
    ghost predicate Stopped()
      reads this, sockets
    {
      stops == Bit(!starting && terminating && sockets.items == [])
    }

    ghost predicate Valid()
      reads this, sockets
    {
      Slotted() && Stopped()
    }

    constructor (maxSockets: nat, ios: nat)
      ensures Valid() && fresh(sockets) && starting && !terminating && stops == 0
      ensures this.maxSockets == maxSockets && this.ios == ios && pending == []
    {
      this.maxSockets, this.ios := maxSockets, ios;
      sockets := new PipeArray();
      starting, terminating, slots, emptySlots, maxSocketId, tids := true, false, [], [], 0, map[];
      stops, pending := 0, [];
    }

    method ReaperStop()
      modifies this`stops
      ensures stops == old(stops) + 1
    {
      stops := stops + 1;
    }

    /** Starts the threads, successfully, and lists all slots of sockets as free, the lowest last. */
    method Start()
      requires Slotted() && starting
      modifies this`starting, this`slots, this`emptySlots
      ensures Slotted() && !starting && |emptySlots| == maxSockets
      ensures forall k :: 0 <= k < maxSockets ==> emptySlots[k] == |slots| - 1 - k
    {
      var first, count := ios + TERM_AND_REAPER, maxSockets + ios + TERM_AND_REAPER;
      slots := seq(count, _ => None);
      var i := count;
      while i > first
        invariant first <= i <= count && |emptySlots| == count - i
        invariant |slots| == count && starting && forall k :: 0 <= k < count ==> slots[k] == None
        invariant forall k :: 0 <= k < |emptySlots| ==> emptySlots[k] == count - 1 - k
      {
        i := i - 1;
        emptySlots := emptySlots + [i];
      }
      forall k: nat ensures SlotAt(slots, emptySlots, tids, {}, first, k) {
        if first <= k < count { assert emptySlots[count - 1 - k] == k; }
      }
      assert Live() == {};
      starting := false;
    }

    /** Creates a socket, unless the context terminates, the limit is reached, or its construction fails. */
    method CreateSocket(constructed: bool) returns (r: Option<Sid>, err: Error)
      requires Valid()
      modifies this`starting, this`slots, this`emptySlots, this`maxSocketId, this`tids, sockets
      ensures Valid()
      ensures r.Some? ==> !starting && |emptySlots| == (if old(starting) then maxSockets else |old(emptySlots)|) - 1
      ensures r.Some? <==> !terminating && constructed && old(if starting then maxSockets else |emptySlots|) > 0
      ensures r.Some? ==>
                r.value !in old(Live()) && Live() == old(Live()) + {r.value} && r.value == old(maxSocketId) + 1
      ensures r.Some? && !old(starting) ==>
                var free := old(emptySlots);
                emptySlots == free[..|free| - 1] && tids == old(tids)[r.value := free[|free| - 1]]
      ensures r.None? ==> Live() == old(Live()) && sockets.items == old(sockets.items)
      ensures r.None? ==> err == if terminating then Eterm else if emptySlots == [] then Emfile else Efail
    {
      err := Efail;
      if terminating {
        return None, Eterm;
      }
      if starting {
        Start();
      }
      if emptySlots == [] {
        return None, Emfile;
      }
      ghost var free := emptySlots;
      var slot := emptySlots[|emptySlots| - 1];
      emptySlots := emptySlots[..|emptySlots| - 1];
      assert emptySlots + [slot] == free;
      maxSocketId := maxSocketId + 1;
      if !constructed {
        emptySlots := emptySlots + [slot];
        return None, Efail;
      }
      r := Some(maxSocketId);
      Register(maxSocketId, slot);
    }

    /** The new socket gets its slot. */
    method Register(s: Sid, slot: nat)
      requires sockets.Valid() && s !in Live() && !starting && |slots| == maxSockets + ios + TERM_AND_REAPER
      requires Shared(slots, emptySlots + [slot], tids, Live(), ios + TERM_AND_REAPER)
      modifies this`slots, this`tids, sockets
      ensures sockets.Valid() && Live() == old(Live()) + {s} && |sockets.items| == |old(sockets.items)| + 1
      ensures |slots| == |old(slots)| && Shared(slots, emptySlots, tids, Live(), ios + TERM_AND_REAPER)
      ensures tids == old(tids)[s := slot]
    {
      ghost var live := Live();
      TakeSlot(slots, emptySlots + [slot], tids, Live(), ios + TERM_AND_REAPER, s);
      assert (emptySlots + [slot])[..|emptySlots|] == emptySlots;
      assert (emptySlots + [slot])[|emptySlots|] == slot;
      sockets.PushBack(s);
      assert Live() == live + {s};
      slots, tids := slots[slot := Some(s)], tids[s := slot];
    }

    /** A socket goes, of which no connection waits for a bind; the last one to go stops the reaper. */
    method DestroySocket(s: Sid)
      requires Valid() && s in Live() && s !in pending
      modifies this`slots, this`emptySlots, this`stops, sockets
      ensures Valid() && Live() == old(Live()) - {s}
      ensures stops == old(stops) + Bit(terminating && Live() == {})
    {
      ghost var live, items := Live(), sockets.items;
      assert SocketAt(slots, tids, Live(), ios + TERM_AND_REAPER, s);
      FreeSlot(slots, emptySlots, tids, Live(), ios + TERM_AND_REAPER, s);
      var tid := tids[s];
      emptySlots := emptySlots + [tid];
      slots := slots[tid := None];
      sockets.Erase(s);
      assert Live() == live - {s};
      EmptyIsNone();
      if terminating && sockets.items == [] {
        ReaperStop();
      }
    }

    /** A connection of s waits for a bind; its sequence number keeps s alive. */
    method PendConnection(s: Sid)
      requires Valid() && s in Live()
      modifies this`pending
      ensures Valid() && pending == old(pending) + [s]
    {
      pending := pending + [s];
    }

    /** A bind was found for the i-th connection that waits. */
    method ConnectPending(i: nat)
      requires Valid() && i < |pending|
      modifies this`pending
      ensures Valid() && pending == old(pending)[..i] + old(pending)[i + 1..]
    {
      pending := pending[..i] + pending[i + 1..];
    }

    /** Interrupts the sockets; without any, the reaper can stop at once. */
    method StopAll() returns (told: seq<Sid>)
      requires Slotted() && !starting && terminating && stops == 0
      modifies this`stops
      ensures Valid() && told == sockets.items && stops == Bit(Live() == {})
    {
      told := [];
      var i := 0;
      while i < |sockets.items|
        invariant i <= |sockets.items| && told == sockets.items[..i]
      {
        told := told + [sockets.items[i]];
        i := i + 1;
      }
      EmptyIsNone();
      if sockets.items == [] {
        ReaperStop();
      }
    }

    method Shutdown() returns (told: seq<Sid>)
      requires Valid()
      modifies this`terminating, this`stops
      ensures Valid() && terminating && told == if !old(terminating) && !starting then sockets.items else []
      ensures stops == old(stops) + Bit(!old(terminating) && !starting && Live() == {})
    {
      told := [];
      if !terminating {
        terminating := true;
        if !starting {
          told := StopAll();
        }
      }
    }

    /**
     * Terminates up to where it waits for the reaper.  Connections that wait for a bind are
     * bound to sockets made for the purpose, of which so many can be constructed; the process
     * is aborted if there are too few.  A context that terminates already does nothing more.
     */
    method BeginTerminate(constructible: nat) returns (ok: bool, told: seq<Sid>)
      requires Valid()
      modifies this, sockets
      ensures ok <==> |old(pending)| <= |old(emptySlots)| && |old(pending)| <= constructible
      ensures ok ==> Valid() && starting == old(starting) && pending == [] && old(Live()) <= Live()
      ensures ok ==> terminating == (old(terminating) || !starting)
      ensures ok ==> told == if !old(terminating) && !starting then sockets.items else []
      ensures ok ==> stops == old(stops) + Bit(!old(terminating) && !starting && Live() == {})
    {
      told := [];
      var save := terminating;
      assert pending != [] ==> pending[0] in Live();
      EmptyIsNone();
      terminating := false;
      ok := BindPending(|pending|, constructible);
      if !ok {
        return;
      }
      terminating := save;
      EmptyIsNone();
      if !starting {
        var restarted := terminating;
        terminating := true;
        if !restarted {
          told := StopAll();
        }
      }
    }

    /** Makes a socket for each connection that waits, and binds it. */
    method BindPending(n: nat, constructible: nat) returns (ok: bool)
      requires n == |pending| && Slotted() && !terminating && (pending != [] ==> stops == 0)
      modifies this`starting, this`slots, this`emptySlots, this`maxSocketId, this`tids, this`pending, sockets
      ensures ok <==> |old(pending)| <= |old(emptySlots)| && |old(pending)| <= constructible
      ensures Slotted() && starting == old(starting) && pending == (if ok then [] else old(pending))
              && old(Live()) <= Live()
      ensures old(pending) == [] ==> Live() == old(Live()) && sockets.items == old(sockets.items)
    {
      var k := 0;
      assert pending != [] ==> pending[0] in Live();
      EmptyIsNone();
      while k < n
        invariant k <= n == |pending| && pending == old(pending) && Slotted() && starting == old(starting)
        invariant k <= constructible && k + |emptySlots| == |old(emptySlots)| && old(Live()) <= Live()
                  && (n > 0 ==> !starting)
        invariant n == 0 ==> Live() == old(Live()) && sockets.items == old(sockets.items)
      {
        var s, err := CreateSocket(k < constructible);
        if s.None? {
          return false;
        }
        k := k + 1;
      }
      pending := [];
      ok := true;
    }

    /** When the reaper has stopped, no socket is left. */
    lemma Finished()
      requires Valid() && stops > 0
      ensures Live() == {} && pending == [] && terminating && stops == 1
    {
      EmptyIsNone();
      if pending != [] { PendingLive(); }
    }

    lemma PendingLive()
      requires Slotted() && pending != []
      ensures Live() != {}
    {
      assert pending[0] in Live();
    }

    lemma EmptyIsNone()
      requires sockets.Valid()
      ensures sockets.items == [] <==> Live() == {}
    {
      if sockets.items != [] { assert sockets.items[0] in Live(); }
    }
  }

  /** The only socket that the limit allows waits for a bind when the context ends: there is none left to bind to. */
  method NoSlotToBind() returns (ok: bool)
    ensures !ok
  {
    var ctx := new Ctx(1, 1);
    var s, err := ctx.CreateSocket(true);
    ctx.PendConnection(s.value);
    var told;
    ok, told := ctx.BeginTerminate(1);
  }
}
