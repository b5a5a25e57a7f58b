/**
 * fq_t of src/fq.cpp, which reads messages from many pipes in turn.
 */
module FairQueue {
  import opened Common
  import opened Multipart
  import opened PipeArray
  import opened Ring
  import opened RingArray

  datatype Inbox = Inbox(ring: Ring, more: bool, lastIn: Option<Pipe>)

  /** What can be read from each pipe now. */
  type Queues = map<Pipe, seq<Part>>

  function Readable(queues: Queues): set<Pipe> {
    set p | p in queues && queues[p] != []
  }

  /** The pipe the next part is read from. */
  function Source(v: Inbox, queues: Queues): Option<Pipe>
    requires Ok(v.ring)
  {
    var s := Seek(v.ring, Readable(queues));
    SeekOk(v.ring, Readable(queues));
    if s.active == 0 then None else Some(Turn(s))
  }

  /** What comes of a call: a part, nothing, or the end of the process. */
  datatype Reading = Read(from: Pipe) | Nothing | Abort

  /** The code's assertion: in the middle of a message the pipe whose turn it is has the next part. */
  predicate Asserted(v: Inbox, queues: Queues)
    requires Ok(v.ring)
  {
    v.more && v.ring.active > 0 ==> Turn(v.ring) in Readable(queues)
  }

  function Reads(v: Inbox, queues: Queues): Reading
    requires Ok(v.ring)
  {
    if !Asserted(v, queues) then Abort
    else match Source(v, queues)
         case None => Nothing
         case Some(p) => Read(p)
  }

  function Received(v: Inbox, queues: Queues): Inbox
    requires Ok(v.ring)
  {
    SeekOk(v.ring, Readable(queues));
    match Reads(v, queues)
    case Abort => v
    case Nothing => v.(ring := Seek(v.ring, Readable(queues)))
    case Read(p) =>
      var last := queues[p][0].last;
      Inbox(Served(v.ring, Readable(queues), last), !last, if last then Some(p) else v.lastIn)
  }

  function Terminated(v: Inbox, i: nat): Inbox
    requires Ok(v.ring) && i < |v.ring.items|
  {
    Inbox(Removed(v.ring, i), v.more, if v.lastIn == Some(v.ring.items[i]) then None else v.lastIn)
  }

  /** The rest of a message that was begun can be read at once. */
  predicate Atomic(v: Inbox, queues: Queues)
    requires Ok(v.ring)
  {
    v.more ==> v.ring.active > 0 && Turn(v.ring) in Readable(queues)
  }

  /**
   * What comes of a call, said without the search: the process ends, or no active pipe has anything,
   * or a pipe that has something is read from, and the one of the message if one was begun.
   */
  ghost predicate Answered(v: Inbox, queues: Queues, r: Reading)
    requires Ok(v.ring)
  {
    && (r.Abort? <==> v.more && v.ring.active > 0 && Turn(v.ring) !in Readable(queues))
    && (r.Nothing? <==> !r.Abort? && forall p :: Active(v.ring, p) ==> p !in Readable(queues))
    && (r.Read? ==> r.from in queues && queues[r.from] != [] && (v.more ==> r.from == Turn(v.ring)))
  }

  /**
   * What is left behind: a part that was read leaves out exactly the pipes that were asked before, and
   * the last part ends the turn and says where the message came from.
   */
  ghost predicate LeftBehind(v: Inbox, queues: Queues, r: Reading, w: Inbox)
    requires Ok(v.ring) && Ok(w.ring)
  {
    && (r.Abort? ==> w == v)
    && (r.Nothing? ==> w.ring.active == 0 && w.more == v.more && w.lastIn == v.lastIn)
    && (r.Read? && r.from in queues && queues[r.from] != [] ==>
          var last := queues[r.from][0].last;
          && PassedThrough(v.ring, Readable(queues), last, r.from, w.ring)
          && w.more == !last && w.lastIn == if last then Some(r.from) else v.lastIn)
  }

  lemma ReadsExact(v: Inbox, queues: Queues)
    requires Ok(v.ring)
    ensures Answered(v, queues, Reads(v, queues))
  {
    NobodyReady(v.ring, Readable(queues));
    SeekOk(v.ring, Readable(queues));
  }

  lemma ReceivedExact(v: Inbox, queues: Queues)
    requires Ok(v.ring)
    ensures Ok(Received(v, queues).ring) && LeftBehind(v, queues, Reads(v, queues), Received(v, queues))
  {
    SeekOk(v.ring, Readable(queues));
    if Reads(v, queues).Read? {
      ServedExact(v.ring, Readable(queues), queues[Reads(v, queues).from][0].last);
    }
  }

  class Fq {
    const ring: RingArray
    var lastIn: Option<Pipe>
    var more: bool

    ghost function View(): Inbox
      reads this, ring, ring.pipes
    {
      Inbox(ring.View(), more, lastIn)
    }

    ghost predicate Valid()
      reads this, ring, ring.pipes
    {
      ring.Valid()
    }

    constructor ()
      ensures Valid() && fresh(ring) && fresh(ring.pipes) && View() == Inbox(Ring([], 0, 0), false, None)
    {
      ring := new RingArray();
      lastIn, more := None, false;
    }

    method Attach(p: Pipe)
      requires Valid() && p !in ring.pipes.index
      modifies ring, ring.pipes
      ensures p !in old(View()).ring.items && Valid()
      ensures View() == old(View()).(ring := Added(old(View()).ring, p))
      ensures forall q :: Active(ring.View(), q) <==> Active(old(ring.View()), q) || q == p
      ensures old(ring.active) > 0 ==> Turn(ring.View()) == Turn(old(ring.View()))
    {
      AddedOk(ring.View(), p);
      ring.Add(p);
    }

    method Activated(p: Pipe) returns (ok: bool)
      requires Valid() && p in ring.pipes.index
      modifies ring, ring.pipes
      ensures Valid() && (ok <==> !Overruns(old(View()).ring))
      ensures ok ==> View() == old(View()).(ring := Entered(old(View()).ring, old(ring.pipes.index)[p]))
      ensures !ok ==> View() == old(View())
      ensures ok && !Active(old(ring.View()), p) ==>
                && (forall q :: Active(ring.View(), q) <==> Active(old(ring.View()), q) || q == p)
                && (old(ring.active) > 0 ==> Turn(ring.View()) == Turn(old(ring.View())))
    {
      if !Overruns(ring.View()) { EnteredOk(ring.View(), ring.pipes.index[p]); }
      ok := ring.Enter(p);
    }

    method PipeTerminated(p: Pipe)
      requires Valid() && p in ring.pipes.index
      modifies this, ring, ring.pipes
      ensures Valid() && View() == Terminated(old(View()), old(ring.pipes.index)[p])
      ensures more == old(more) && lastIn == if old(lastIn) == Some(p) then None else old(lastIn)
      ensures forall q :: q in ring.pipes.items <==> q in old(ring.pipes.items) && q != p
      ensures forall q :: Active(ring.View(), q) <==> Active(old(ring.View()), q) && q != p
    {
      RemovedOk(ring.View(), ring.pipes.index[p]);
      ring.Remove(p);
      if lastIn == Some(p) {
        lastIn := None;
      }
    }

    /** Reads one part; aborts if a message was begun and the pipe whose turn it is does not go on with it. */
    method RecvPipe(queues: Queues) returns (r: Reading)
      requires Valid()
      modifies this, ring, ring.pipes
      ensures Valid() && r == Reads(old(View()), queues) && View() == Received(old(View()), queues)
      ensures Answered(old(View()), queues, r) && LeftBehind(old(View()), queues, r, View())
    {
      ReadsExact(View(), queues);
      ReceivedExact(View(), queues);
      r := Pass(queues);
    }

    method Pass(queues: Queues) returns (r: Reading)
      requires Valid()
      modifies this, ring, ring.pipes
      ensures Valid() && r == Reads(old(View()), queues) && View() == Received(old(View()), queues)
    {
      r := Fetch(queues);
      if r.Read? {
        more := !queues[r.from][0].last;
        if !more {
          lastIn := Some(r.from);
          ring.Advance();
        }
      }
    }

    /** Finds the pipe to read from; pipes that have nothing are deactivated, except in the middle of a message. */
    method Fetch(queues: Queues) returns (r: Reading)
      requires Valid()
      modifies ring, ring.pipes
      ensures Valid() && r == Reads(old(View()), queues)
      ensures ring.View() == if r.Abort? then old(ring.View()) else Seek(old(ring.View()), Readable(queues))
      ensures r.Read? ==> r.from in Readable(queues) && ring.active > 0 && r.from == Turn(ring.View())
    {
      SeekOk(ring.View(), Readable(queues));
      while ring.active > 0
        invariant ring.Valid() && Seek(ring.View(), Readable(queues)) == Seek(old(ring.View()), Readable(queues))
        invariant more ==> ring.View() == old(ring.View())
        decreases ring.active
      {
        var p := ring.First();
        if p in queues && queues[p] != [] {
          return Read(p);
        }
        if more {
          return Abort;
        }
        ring.Deactivate();
      }
      return Nothing;
    }

    method HasIn(queues: Queues) returns (b: bool)
      requires Valid()
      modifies ring, ring.pipes
      ensures Valid()
      ensures View() == if more then old(View()) else old(View()).(ring := Seek(old(View()).ring, Readable(queues)))
      ensures b <==> more || exists p :: Active(old(View()).ring, p) && p in Readable(queues)
      ensures !more ==> ActiveAre(ring.View(), Remaining(old(ring.View()), Readable(queues)))
    {
      if more {
        return true;
      }
      FoundExact(ring.View(), Readable(queues));
      b := ring.FindReady(Readable(queues));
    }
  }
}
