/**
 * lb_t of src/lb.cpp, which sends every message to one pipe, taking turns.
 */
module LoadBalancer {
  import opened PipeArray
  import opened Ring
  import opened RingArray

  datatype Balance = Balance(ring: Ring, more: bool, dropping: bool)

  datatype Outcome =
    | Wrote(to: Pipe)
    | Dropped
    | NoPipe
    | RolledBack(from: Pipe)

  ghost predicate Fine(v: Balance) {
    Ok(v.ring) && (v.more && !v.dropping ==> v.ring.active > 0)
  }

  /** What becomes of one part; `room` are the pipes that would take it now. */
  function Fate(v: Balance, room: set<Pipe>): Outcome
    requires Fine(v)
  {
    if v.dropping then Dropped
    else if v.more && Turn(v.ring) !in room then RolledBack(Turn(v.ring))
    else
      SeekOk(v.ring, room);
      if Seek(v.ring, room).active == 0 then NoPipe else Wrote(Turn(Seek(v.ring, room)))
  }

  function Sent(v: Balance, room: set<Pipe>, last: bool): Balance
    requires Fine(v)
  {
    match Fate(v, room)
    case Dropped => v.(more := !last, dropping := !last)
    case RolledBack(_) => v.(more := false, dropping := !last)
    case NoPipe => v.(ring := Seek(v.ring, room))
    case Wrote(_) => Balance(Served(v.ring, room, last), !last, false)
  }

  function Terminated(v: Balance, i: nat): Balance
    requires Fine(v) && i < |v.ring.items|
  {
    Balance(Removed(v.ring, i), v.more, v.dropping || (i == v.ring.current && v.more))
  }

  lemma TerminatedFine(v: Balance, i: nat)
    requires Fine(v) && i < |v.ring.items|
    ensures Fine(Terminated(v, i))
  {
    RemovedOk(v.ring, i);
  }

  lemma SentFine(v: Balance, room: set<Pipe>, last: bool)
    requires Fine(v)
    ensures Fine(Sent(v, room, last))
  {
    SeekOk(v.ring, room);
  }

  /**
   * What the socket's user is told of a part, said without the search: it is dropped, or refused by
   * the pipe of its message, or no active pipe has room, or it is written.
   */
  ghost predicate Answered(v: Balance, room: set<Pipe>, f: Outcome)
    requires Fine(v)
  {
    && (f.Dropped? <==> v.dropping)
    && (f.RolledBack? <==> !v.dropping && v.more && Turn(v.ring) !in room)
    && (f.RolledBack? ==> f.from == Turn(v.ring))
    && (f.NoPipe? <==> !v.dropping && !v.more && forall p :: Active(v.ring, p) ==> p !in room)
    && (f.Wrote? ==> v.more ==> f.to == Turn(v.ring))
  }

  /**
   * What is left behind: a part that was written leaves out exactly the pipes that were asked before,
   * and the last part ends the turn; without a pipe none is active; otherwise no pipe changes.
   */
  ghost predicate LeftBehind(v: Balance, room: set<Pipe>, last: bool, f: Outcome, w: Balance)
    requires Fine(v) && Fine(w)
  {
    && w.more == ((f.Dropped? || f.Wrote?) && !last)
    && w.dropping == ((f.Dropped? || f.RolledBack?) && !last)
    && (f.Dropped? || f.RolledBack? ==> w.ring == v.ring)
    && (f.NoPipe? ==> w.ring.active == 0)
    && (f.Wrote? ==> PassedThrough(v.ring, room, last, f.to, w.ring))
  }

  lemma FateExact(v: Balance, room: set<Pipe>)
    requires Fine(v)
    ensures Answered(v, room, Fate(v, room))
  {
    NobodyReady(v.ring, room);
  }

  lemma SentExact(v: Balance, room: set<Pipe>, last: bool)
    requires Fine(v)
    ensures Fine(Sent(v, room, last)) && LeftBehind(v, room, last, Fate(v, room), Sent(v, room, last))
  {
    SeekOk(v.ring, room);
    if Fate(v, room).Wrote? { ServedExact(v.ring, room, last); }
  }

  class Lb {
    const ring: RingArray
    var more: bool
    var dropping: bool

    ghost function View(): Balance
      reads this, ring, ring.pipes
    {
      Balance(ring.View(), more, dropping)
    }

    ghost predicate Valid()
      reads this, ring, ring.pipes
    {
      ring.Valid() && Fine(View())
    }

    constructor ()
      ensures Valid() && fresh(ring) && fresh(ring.pipes) && View() == Balance(Ring([], 0, 0), false, false)
    {
      ring := new RingArray();
      more, dropping := false, false;
    }

    method Attach(p: Pipe)
      requires Valid() && p !in ring.pipes.index
      modifies ring, ring.pipes
      ensures p !in old(View()).ring.items && Valid()
      ensures View() == old(View()).(ring := Added(old(View()).ring, p))
      ensures forall q :: Active(ring.View(), q) <==> Active(old(ring.View()), q) || q == p
      ensures old(ring.active) > 0 ==> Turn(ring.View()) == Turn(old(ring.View()))
    {
      AddedOk(ring.View(), p);
      ring.Add(p);
    }

    method Activated(p: Pipe) returns (ok: bool)
      requires Valid() && p in ring.pipes.index
      modifies ring, ring.pipes
      ensures Valid() && (ok <==> !Overruns(old(View()).ring))
      ensures ok ==> View() == old(View()).(ring := Entered(old(View()).ring, old(ring.pipes.index)[p]))
      ensures !ok ==> View() == old(View())
      ensures ok && !Active(old(ring.View()), p) ==>
                && (forall q :: Active(ring.View(), q) <==> Active(old(ring.View()), q) || q == p)
                && (old(ring.active) > 0 ==> Turn(ring.View()) == Turn(old(ring.View())))
    {
      if !Overruns(ring.View()) { EnteredOk(ring.View(), ring.pipes.index[p]); }
      ok := ring.Enter(p);
    }

    /** If the pipe goes that is getting a message, the rest of the message is dropped. */
    method PipeTerminated(p: Pipe)
      requires Valid() && p in ring.pipes.index
      modifies this, ring, ring.pipes
      ensures Valid() && View() == Terminated(old(View()), old(ring.pipes.index)[p])
      ensures more == old(more) && (dropping <==> old(dropping) || (more && p == Turn(old(ring.View()))))
      ensures forall q :: q in ring.pipes.items <==> q in old(ring.pipes.items) && q != p
      ensures forall q :: Active(ring.View(), q) <==> Active(old(ring.View()), q) && q != p
    {
      TerminatedFine(View(), ring.pipes.index[p]);
      RemovedOk(ring.View(), ring.pipes.index[p]);
      if ring.pipes.Index(p) == ring.current && more {
        dropping := true;
      }
      ring.Remove(p);
    }

    /** Sends one part of a message; tells what became of it. */
    method SendPipe(room: set<Pipe>, last: bool) returns (outcome: Outcome)
      requires Valid()
      modifies this, ring, ring.pipes
      ensures Valid() && outcome == Fate(old(View()), room)
      ensures View() == Sent(old(View()), room, last)
      ensures Answered(old(View()), room, outcome) && LeftBehind(old(View()), room, last, outcome, View())
    {
      FateExact(View(), room);
      SentExact(View(), room, last);
      outcome := Pass(room, last);
    }

    method Pass(room: set<Pipe>, last: bool) returns (outcome: Outcome)
      requires Valid()
      modifies this, ring, ring.pipes
      ensures Valid() && outcome == Fate(old(View()), room)
      ensures View() == Sent(old(View()), room, last)
    {
      SentFine(View(), room, last);
      if dropping {
        more := !last;
        dropping := more;
        return Dropped;
      }
      outcome := Offer(room);
      match outcome
      case RolledBack(_) =>
        dropping, more := !last, false;
      case NoPipe =>
      case Wrote(_) =>
        more := !last;
        if !more {
          ring.Advance();
        }
    }

    /** Offers the part to the pipes in turn; only the first part of a message may look for another one. */
    method Offer(room: set<Pipe>) returns (outcome: Outcome)
      requires Valid() && !dropping
      modifies ring, ring.pipes
      ensures outcome == Fate(old(View()), room) && ring.Valid()
      ensures ring.View() == if outcome.RolledBack? then old(ring.View()) else Seek(old(ring.View()), room)
    {
      SeekOk(ring.View(), room);
      while ring.active > 0
        invariant ring.Valid() && (more ==> ring.View() == old(ring.View()))
        invariant Seek(ring.View(), room) == Seek(old(ring.View()), room)
        decreases ring.active
      {
        if ring.First() in room {
          return Wrote(ring.First());
        }
        if more {
          return RolledBack(ring.First());
        }
        ring.Deactivate();
      }
      return NoPipe;
    }

    method HasOut(room: set<Pipe>) returns (b: bool)
      requires Valid()
      modifies ring, ring.pipes
      ensures Valid() && View() == if more then old(View()) else old(View()).(ring := Seek(old(View()).ring, room))
      ensures b <==> more || exists p :: Active(old(View()).ring, p) && p in room
      ensures !more ==> ActiveAre(ring.View(), Remaining(old(ring.View()), room))
    {
      if more {
        return true;
      }
      FoundExact(ring.View(), room);
      b := ring.FindReady(room);
    }
  }
}
