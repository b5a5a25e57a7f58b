/**
 * How long a pipe can wait for its turn in lb_t and in fq_t, over any calls of the socket's user.
 */
module Waiting {
  import opened Common
  import opened PipeArray
  import opened Ring
  import opened LoadBalancer
  import F = FairQueue

  /** A turn that goes to others brings p nearer, by one for each complete message. */
  lemma ServedDistance(r: Ring, ready: set<Pipe>, last: bool, p: Pipe)
    requires Ok(r) && Active(r, p) && p in ready
    ensures var s := Seek(r, ready);
            && Ok(s) && s.active > 0
            && (Turn(s) != p ==> var t := Served(r, ready, last);
                                 Ok(t) && Active(t, p) && Distance(t, p) + Bit(last) <= Distance(r, p))
  {
    SeekOk(r, ready);
    SeekDistance(r, ready, p);
    var s := Seek(r, ready);
    if last && Turn(s) != p { AdvancedDistance(s, p); }
  }

  // ----- Sending -----------------------------------------------------------------------------------------

  /** One call: a part is sent, or the user asks whether one could be. */
  datatype Sending = Send(room: set<Pipe>, last: bool) | HasOut(room: set<Pipe>)

  function AfterSending(v: Balance, c: Sending): Balance
    requires Fine(v)
  {
    match c
    case Send(room, last) => Sent(v, room, last)
    case HasOut(room) => if v.more then v else v.(ring := Seek(v.ring, room))
  }

  lemma AfterSendingFine(v: Balance, c: Sending)
    requires Fine(v)
    ensures Fine(AfterSending(v, c))
  {
    match c
    case Send(room, last) => SentFine(v, room, last);
    case HasOut(room) => SeekOk(v.ring, room);
  }

  /** A part is written; parts that are dropped, refused or taken back are not. */
  ghost predicate Writes(v: Balance, c: Sending)
    requires Fine(v)
  {
    c.Send? && Fate(v, c.room).Wrote?
  }

  /** Calls in which p has room all the time, but nothing is written to it. */
  ghost predicate PassedOver(v: Balance, calls: seq<Sending>, p: Pipe)
    requires Fine(v)
    decreases |calls|
  {
    calls != [] ==>
      var c := calls[0];
      AfterSendingFine(v, c);
      p in c.room && (Writes(v, c) ==> Fate(v, c.room).to != p) && PassedOver(AfterSending(v, c), calls[1..], p)
  }

  /** The messages whose last part was written. */
  ghost function Written(v: Balance, calls: seq<Sending>): nat
    requires Fine(v)
    decreases |calls|
  {
    if calls == [] then 0
    else
      var c := calls[0];
      AfterSendingFine(v, c);
      Bit(Writes(v, c) && c.last) + Written(AfterSending(v, c), calls[1..])
  }

  lemma OneSending(v: Balance, c: Sending, p: Pipe)
    requires Fine(v) && Active(v.ring, p) && p in c.room && (Writes(v, c) ==> Fate(v, c.room).to != p)
    ensures var t := AfterSending(v, c);
            && Fine(t) && Active(t.ring, p)
            && Distance(t.ring, p) + Bit(Writes(v, c) && c.last) <= Distance(v.ring, p)
  {
    AfterSendingFine(v, c);
    SeekDistance(v.ring, c.room, p);
    if c.Send? { ServedDistance(v.ring, c.room, c.last, p); }
  }

  /**
   * While an active pipe with room waits, fewer complete messages are written to others than there
   * are active pipes, whatever is refused, taken back or dropped in between.
   */
  lemma {:induction false} EveryoneIsSentTo(v: Balance, calls: seq<Sending>, p: Pipe)
    requires Fine(v) && Active(v.ring, p) && PassedOver(v, calls, p)
    ensures Written(v, calls) <= Distance(v.ring, p) < v.ring.active
    decreases |calls|
  {
    if calls != [] {
      OneSending(v, calls[0], p);
      EveryoneIsSentTo(AfterSending(v, calls[0]), calls[1..], p);
    }
  }

  // ----- Receiving ---------------------------------------------------------------------------------------

  /** One call: a part is read, or the user asks whether one could be. */
  datatype Receiving = Recv(queues: F.Queues) | HasIn(queues: F.Queues)

  function AfterReceiving(v: F.Inbox, c: Receiving): F.Inbox
    requires Ok(v.ring)
  {
    match c
    case Recv(queues) => F.Received(v, queues)
    case HasIn(queues) => if v.more then v else v.(ring := Seek(v.ring, F.Readable(queues)))
  }

  lemma AfterReceivingOk(v: F.Inbox, c: Receiving)
    requires Ok(v.ring)
    ensures Ok(AfterReceiving(v, c).ring)
  {
    SeekOk(v.ring, F.Readable(c.queues));
  }

  ghost predicate Reads(v: F.Inbox, c: Receiving)
    requires Ok(v.ring)
  {
    c.Recv? && F.Reads(v, c.queues).Read?
  }

  /** The part that is read is the last one of its message. */
  ghost predicate ReadsLast(v: F.Inbox, c: Receiving)
    requires Ok(v.ring)
  {
    Reads(v, c) && (SeekOk(v.ring, F.Readable(c.queues)); c.queues[F.Reads(v, c.queues).from][0].last)
  }

  /** Calls in which p has something to read all the time, but nothing is read from it. */
  ghost predicate Ignored(v: F.Inbox, calls: seq<Receiving>, p: Pipe)
    requires Ok(v.ring)
    decreases |calls|
  {
    calls != [] ==>
      var c := calls[0];
      AfterReceivingOk(v, c);
      && p in F.Readable(c.queues) && (Reads(v, c) ==> F.Reads(v, c.queues).from != p)
      && Ignored(AfterReceiving(v, c), calls[1..], p)
  }

  /** The messages whose last part was read. */
  ghost function Finished(v: F.Inbox, calls: seq<Receiving>): nat
    requires Ok(v.ring)
    decreases |calls|
  {
    if calls == [] then 0
    else
      var c := calls[0];
      AfterReceivingOk(v, c);
      Bit(ReadsLast(v, c)) + Finished(AfterReceiving(v, c), calls[1..])
  }

  lemma OneReceiving(v: F.Inbox, c: Receiving, p: Pipe)
    requires Ok(v.ring) && Active(v.ring, p) && p in F.Readable(c.queues)
    requires Reads(v, c) ==> F.Reads(v, c.queues).from != p
    ensures var t := AfterReceiving(v, c);
            Ok(t.ring) && Active(t.ring, p) && Distance(t.ring, p) + Bit(ReadsLast(v, c)) <= Distance(v.ring, p)
  {
    SeekDistance(v.ring, F.Readable(c.queues), p);
    ServedDistance(v.ring, F.Readable(c.queues), ReadsLast(v, c), p);
  }

  /**
   * While an active pipe with something to read waits, fewer complete messages are read from others
   * than there are active pipes.
   */
  lemma {:induction false} EveryoneIsReadFrom(v: F.Inbox, calls: seq<Receiving>, p: Pipe)
    requires Ok(v.ring) && Active(v.ring, p) && Ignored(v, calls, p)
    ensures Finished(v, calls) <= Distance(v.ring, p) < v.ring.active
    decreases |calls|
  {
    if calls != [] {
      OneReceiving(v, calls[0], p);
      EveryoneIsReadFrom(AfterReceiving(v, calls[0]), calls[1..], p);
    }
  }
}
