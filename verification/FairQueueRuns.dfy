/**
 * Multipart messages through fq_t: what the user reads is one whole message after the other,
 * and nothing is lost, doubled or reordered, up to the first event that takes the pipe away
 * from which a message is being read; that event breaks it.
 */
module FairQueueRuns {
  import opened Common
  import opened Multipart
  import opened PipeArray
  import opened Ring
  import opened FairQueue

  datatype Got = Got(from: Pipe, x: Part)

  /** The queue, what can be read, what was read in order, all that was sent, and the pipes shut for reading. */
  datatype State = State(v: Inbox, queues: Queues, out: seq<Got>, sent: map<Pipe, seq<Part>>, shut: set<Pipe>)

  datatype Event =
    | Attach(p: Pipe)
    | Activate(slot: nat)
    | Terminate(slot: nat)
    | Shut(p: Pipe)
    | Deliver(p: Pipe, parts: seq<Part>)
    | Poll
    | Recv

  /** Parts that follow each other and end with a message. */
  ghost predicate Joined(h: seq<Part>) {
    && (forall i {:trigger h[i]} :: 0 < i < |h| ==> Follows(h[i - 1], h[i]))
    && (h != [] ==> h[|h| - 1].last)
  }

  /** Pipes are attached once, and senders send whole messages. */
  ghost predicate Allowed(s: State, e: Event) {
    match e
    case Attach(p) => p !in s.sent
    case Activate(slot) => slot < |s.v.ring.items|
    case Terminate(slot) => slot < |s.v.ring.items|
    case Shut(p) => p in s.queues
    case Deliver(p, parts) => p in s.queues && p !in s.shut && parts != [] && parts[0].part == 0 && Joined(parts)
    case Poll => true
    case Recv => true
  }

  /**
   * The event leaves the turn, and the rest of the message, with the pipe a message is being read
   * from, and no swap is out of bounds.
   */
  ghost predicate Harmless(s: State, e: Event)
    requires Ok(s.v.ring)
  {
    match e
    case Activate(slot) => !Overruns(s.v.ring) && (s.v.more ==> slot != s.v.ring.current)
    case Terminate(slot) => s.v.more ==> slot != s.v.ring.current && !Misplaces(s.v.ring, slot)
    case Shut(p) => !Here(s, p)
    case _ => true
  }

  ghost predicate Sane(s: State) {
    Ok(s.v.ring) && (forall p :: p in s.queues <==> p in s.v.ring.items) && s.queues.Keys <= s.sent.Keys
  }

  /** The call ends the process by a failed assertion, or swaps with a slot that the array does not have. */
  predicate Aborts(s: State, e: Event)
    requires Ok(s.v.ring)
  {
    (e.Recv? && Reads(s.v, s.queues).Abort?) || (e.Activate? && Overruns(s.v.ring))
  }

  ghost function After(s: State, e: Event): State
    requires Sane(s) && Allowed(s, e)
  {
    match e
    case Attach(p) => s.(v := s.v.(ring := Added(s.v.ring, p)), queues := s.queues[p := []], sent := s.sent[p := []])
    case Activate(slot) => if Overruns(s.v.ring) then s else s.(v := s.v.(ring := Entered(s.v.ring, slot)))
    case Terminate(slot) => s.(v := Terminated(s.v, slot), queues := s.queues - {s.v.ring.items[slot]})
    case Shut(p) => s.(queues := s.queues[p := []], shut := s.shut + {p})
    case Deliver(p, parts) => s.(queues := s.queues[p := s.queues[p] + parts], sent := s.sent[p := s.sent[p] + parts])
    case Poll => if s.v.more then s else s.(v := s.v.(ring := Seek(s.v.ring, Readable(s.queues))))
    case Recv =>
      SeekOk(s.v.ring, Readable(s.queues));
      var t := s.(v := Received(s.v, s.queues));
      match Reads(s.v, s.queues)
      case Abort => t
      case Nothing => t
      case Read(p) => t.(queues := s.queues[p := s.queues[p][1..]], out := s.out + [Got(p, s.queues[p][0])])
  }

  /** The parts that were read from p. */
  ghost function From(out: seq<Got>, p: Pipe): seq<Part> {
    if out == [] then []
    else From(out[..|out| - 1], p) + if out[|out| - 1].from == p then [out[|out| - 1].x] else []
  }

  /** The next part continues the message, or a message starts. */
  ghost predicate Starts(h: seq<Part>, before: Option<Part>) {
    match before
    case None => h != [] ==> h[0].part == 0
    case Some(x) => h != [] && Follows(x, h[0])
  }

  ghost predicate StreamAt(out: seq<Got>, i: nat)
    requires 0 < i < |out|
  {
    Follows(out[i - 1].x, out[i].x) && (!out[i - 1].x.last ==> out[i].from == out[i - 1].from)
  }

  /** What is read is one whole message after the other, each from one pipe. */
  ghost predicate Stream(out: seq<Got>) {
    && (out != [] ==> out[0].x.part == 0)
    && forall i {:trigger StreamAt(out, i)} :: 0 < i < |out| ==> StreamAt(out, i)
  }

  ghost predicate Here(s: State, p: Pipe)
    requires Ok(s.v.ring)
  {
    s.v.more && s.v.ring.active > 0 && p == Turn(s.v.ring)
  }

  ghost predicate PipeOk(s: State, p: Pipe)
    requires Sane(s)
  {
    p in s.queues ==>
      && Joined(s.queues[p])
      && Starts(s.queues[p], if Here(s, p) && s.out != [] then Some(s.out[|s.out| - 1].x) else None)
      && Conserved(s, p)
  }

  /** What was read and what is left are what was sent; from a pipe that was shut the rest is lost. */
  ghost predicate Conserved(s: State, p: Pipe)
    requires p in s.queues && p in s.sent
  {
    AddsUp(From(s.out, p), s.queues[p], s.sent[p], p in s.shut)
  }

  ghost predicate AddsUp(read: seq<Part>, left: seq<Part>, sent: seq<Part>, shut: bool) {
    if shut then left == [] && read <= sent else read + left == sent
  }

  lemma AddsUpStill(read: seq<Part>, left: seq<Part>, sent: seq<Part>, shut: bool)
    requires AddsUp(read, left, sent, shut) && left != []
    ensures AddsUp(read + [left[0]], left[1..], sent, shut)
  {
    assert read + left == read + [left[0]] + left[1..];
  }

  /** From a pipe that was never attached nothing was read. */
  ghost predicate UnknownOk(s: State, p: Pipe) {
    p !in s.sent ==> From(s.out, p) == [] && p !in s.shut
  }

  ghost predicate StreamOk(s: State)
    requires Ok(s.v.ring)
  {
    && Stream(s.out)
    && (s.v.more ==> s.v.ring.active > 0 && s.out != [] && s.out[|s.out| - 1].from == Turn(s.v.ring))
    && (s.out != [] ==> (s.v.more <==> !s.out[|s.out| - 1].x.last))
  }

  ghost predicate Inv(s: State) {
    && Sane(s) && StreamOk(s)
    && (forall p {:trigger UnknownOk(s, p)} :: UnknownOk(s, p))
    && (forall p {:trigger PipeOk(s, p)} :: PipeOk(s, p))
  }

  /** Nothing is read, and the turn stays where it is while a message is being read. */
  lemma NothingRead(s: State, t: State)
    requires Inv(s) && Sane(t) && t.out == s.out && t.v.more == s.v.more && s.sent.Keys <= t.sent.Keys
    requires t.shut <= s.shut + s.sent.Keys
    requires t.v.more ==> t.v.ring.active > 0 && Turn(t.v.ring) == Turn(s.v.ring)
    requires forall p :: p in t.queues ==> PipeOk(t, p)
    ensures Inv(t)
  {
    forall p ensures UnknownOk(t, p) { assert UnknownOk(s, p); }
  }

  lemma SameQueues(s: State, t: State)
    requires Inv(s) && Sane(t) && t.out == s.out && t.v.more == s.v.more && t.sent == s.sent && t.shut == s.shut
    requires forall p :: p in t.queues ==> p in s.queues && t.queues[p] == s.queues[p]
    requires t.v.more ==> t.v.ring.active > 0 && Turn(t.v.ring) == Turn(s.v.ring)
    ensures Inv(t)
  {
    forall p | p in t.queues ensures PipeOk(t, p) { assert PipeOk(s, p); }
    NothingRead(s, t);
  }

  lemma AttachKeepsInv(s: State, p: Pipe)
    requires Inv(s) && Allowed(s, Attach(p))
    ensures Inv(After(s, Attach(p)))
  {
    var t := After(s, Attach(p));
    AddedOk(s.v.ring, p);
    assert UnknownOk(s, p);
    forall q | q in t.queues ensures PipeOk(t, q) { assert PipeOk(s, q); }
    NothingRead(s, t);
  }

  lemma DeliverKeepsInv(s: State, p: Pipe, parts: seq<Part>)
    requires Inv(s) && Allowed(s, Deliver(p, parts))
    ensures Inv(After(s, Deliver(p, parts)))
  {
    var t := After(s, Deliver(p, parts));
    forall q | q in t.queues ensures PipeOk(t, q) {
      assert PipeOk(s, q);
      if q == p { DeliveredPipeOk(s, p, parts); }
    }
    NothingRead(s, t);
  }

  lemma DeliveredPipeOk(s: State, p: Pipe, parts: seq<Part>)
    requires Inv(s) && Allowed(s, Deliver(p, parts))
    ensures Sane(After(s, Deliver(p, parts))) && PipeOk(After(s, Deliver(p, parts)), p)
  {
    assert PipeOk(s, p);
    var before := if Here(s, p) && s.out != [] then Some(s.out[|s.out| - 1].x) else None;
    JoinedMore(s.queues[p], parts, before);
    AddsUpMore(From(s.out, p), s.queues[p], parts, s.sent[p]);
  }

  lemma AddsUpMore(read: seq<Part>, left: seq<Part>, parts: seq<Part>, sent: seq<Part>)
    requires AddsUp(read, left, sent, false)
    ensures AddsUp(read, left + parts, sent + parts, false)
  {
    assert read + (left + parts) == (read + left) + parts;
  }

  /** Whole messages behind whole messages. */
  lemma JoinedMore(h: seq<Part>, parts: seq<Part>, before: Option<Part>)
    requires Joined(h) && Starts(h, before) && parts != [] && parts[0].part == 0 && Joined(parts)
    ensures Joined(h + parts) && Starts(h + parts, before)
  {
    var all := h + parts;
    forall i | 0 < i < |all| ensures Follows(all[i - 1], all[i]) {
      if i < |h| { assert Follows(h[i - 1], h[i]); }
      if i > |h| { assert Follows(parts[i - |h| - 1], parts[i - |h|]); }
    }
  }

  lemma FromMore(out: seq<Got>, g: Got, p: Pipe)
    ensures From(out + [g], p) == From(out, p) + if g.from == p then [g.x] else []
  {
    assert (out + [g])[..|out|] == out;
  }

  /** The part that is read continues the stream. */
  lemma ReadStream(s: State, p: Pipe)
    requires Inv(s) && Reads(s.v, s.queues) == Read(p)
    ensures p in s.queues && s.queues[p] != []
    ensures s.v.more ==> p == Turn(s.v.ring)
    ensures Stream(s.out + [Got(p, s.queues[p][0])])
  {
    SeekOk(s.v.ring, Readable(s.queues));
    assert PipeOk(s, p);
    if s.v.more { assert PipeOk(s, Turn(s.v.ring)); }
    var out := s.out + [Got(p, s.queues[p][0])];
    forall i | 0 < i < |out| ensures StreamAt(out, i) {
      if i < |s.out| { assert StreamAt(s.out, i); }
    }
  }

  lemma RecvTail(h: seq<Part>)
    requires Joined(h) && h != []
    ensures Joined(h[1..]) && Starts(h[1..], if h[0].last then None else Some(h[0]))
  {
  }

  lemma RecvSane(s: State, p: Pipe)
    requires Inv(s) && Reads(s.v, s.queues) == Read(p)
    ensures p in s.queues && s.queues[p] != [] && (s.v.more ==> p == Turn(s.v.ring))
    ensures Sane(After(s, Recv)) && forall q :: Here(After(s, Recv), q) <==> q == p && !s.queues[p][0].last
  {
    SeekOk(s.v.ring, Readable(s.queues));
    ReadStream(s, p);
  }

  lemma RecvConserved(s: State, p: Pipe, q: Pipe)
    requires Inv(s) && Reads(s.v, s.queues) == Read(p) && q in s.queues
    ensures Sane(After(s, Recv)) && Conserved(After(s, Recv), q)
  {
    RecvSane(s, p);
    assert PipeOk(s, q);
    FromMore(s.out, Got(p, s.queues[p][0]), q);
    if q == p { AddsUpStill(From(s.out, p), s.queues[p], s.sent[p], p in s.shut); }
  }

  lemma RecvPipeOk(s: State, p: Pipe, q: Pipe)
    requires Inv(s) && Reads(s.v, s.queues) == Read(p)
    ensures Sane(After(s, Recv)) && PipeOk(After(s, Recv), q)
  {
    RecvSane(s, p);
    assert PipeOk(s, q);
    if q == p { RecvTail(s.queues[p]); }
    if q in s.queues { RecvConserved(s, p, q); }
  }

  lemma RecvKeepsInv(s: State, p: Pipe)
    requires Inv(s) && Reads(s.v, s.queues) == Read(p)
    ensures Inv(After(s, Recv))
  {
    var t := After(s, Recv);
    SeekOk(s.v.ring, Readable(s.queues));
    ReadStream(s, p);
    forall q ensures UnknownOk(t, q) {
      assert UnknownOk(s, q);
      FromMore(s.out, Got(p, s.queues[p][0]), q);
    }
    forall q ensures Sane(t) && PipeOk(t, q) { RecvPipeOk(s, p, q); }
    RecvPipeOk(s, p, p);
  }

  /** In the middle of a message there is always more to read. */
  lemma MoreHasSource(s: State)
    requires Inv(s) && s.v.more
    ensures Reads(s.v, s.queues) == Read(Turn(s.v.ring))
  {
    assert PipeOk(s, Turn(s.v.ring));
  }

  lemma ShutKeepsInv(s: State, p: Pipe)
    requires Inv(s) && Allowed(s, Shut(p)) && !Here(s, p)
    ensures Inv(After(s, Shut(p)))
  {
    var t := After(s, Shut(p));
    forall q | q in t.queues ensures PipeOk(t, q) { assert PipeOk(s, q); }
    NothingRead(s, t);
  }

  lemma TurnKeepsInv(s: State, e: Event)
    requires Inv(s) && Allowed(s, e) && Harmless(s, e) && (e.Activate? || e.Terminate? || e.Poll?)
    ensures Inv(After(s, e))
  {
    match e {
      case Activate(slot) => EnteredOk(s.v.ring, slot);
      case Terminate(slot) =>
        RemovedOk(s.v.ring, slot);
        if s.v.more { RemovedKeepsTurn(s.v.ring, slot); }
      case Poll => SeekOk(s.v.ring, Readable(s.queues));
    }
    SameQueues(s, After(s, e));
  }

  lemma StepKeepsInv(s: State, e: Event)
    requires Inv(s) && Allowed(s, e) && Harmless(s, e)
    ensures !Aborts(s, e) && Inv(After(s, e))
  {
    match e
    case Attach(p) => AttachKeepsInv(s, p);
    case Activate(_) => TurnKeepsInv(s, e);
    case Terminate(_) => TurnKeepsInv(s, e);
    case Shut(p) => ShutKeepsInv(s, p);
    case Deliver(p, parts) => DeliverKeepsInv(s, p, parts);
    case Poll => TurnKeepsInv(s, e);
    case Recv =>
      SeekOk(s.v.ring, Readable(s.queues));
      if s.v.more { MoreHasSource(s); }
      match Reads(s.v, s.queues)
      case Nothing => SameQueues(s, After(s, e));
      case Read(p) => RecvKeepsInv(s, p);
  }

  // ----- Exactly when it works ---------------------------------------------------------------------------

  /** The user has read whole messages so far, and what is read next goes on with the message that was begun. */
  ghost predicate Good(s: State)
    requires Sane(s)
  {
    && Stream(s.out) && Atomic(s.v, s.queues)
    && (s.v.more ==> Stream(s.out + [Got(Turn(s.v.ring), s.queues[Turn(s.v.ring)][0])]))
  }

  lemma InvIsGood(s: State)
    requires Inv(s)
    ensures Good(s)
  {
    if s.v.more {
      MoreHasSource(s);
      ReadStream(s, Turn(s.v.ring));
    }
  }

  lemma AfterSane(s: State, e: Event)
    requires Inv(s) && Allowed(s, e)
    ensures Sane(After(s, e))
  {
    if Harmless(s, e) {
      StepKeepsInv(s, e);
    } else {
      match e
      case Activate(slot) => if !Overruns(s.v.ring) { EnteredOk(s.v.ring, slot); }
      case Terminate(slot) => RemovedOk(s.v.ring, slot);
      case Shut(p) =>
    }
  }

  /** A first part does not go on with a message that was begun. */
  lemma WrongPart(s: State, q: Pipe)
    requires Inv(s) && s.v.more && q in s.queues && s.queues[q] != [] && q != Turn(s.v.ring)
    ensures !Stream(s.out + [Got(q, s.queues[q][0])])
  {
    assert PipeOk(s, q);
    var n := |s.out|;
    var out := s.out + [Got(q, s.queues[q][0])];
    assert !Follows(out[n - 1].x, out[n].x);
    assert !StreamAt(out, n);
  }

  /**
   * An event that is not harmless aborts, or the next call aborts or mixes two messages, unless no
   * pipe is active.
   */
  lemma HarmShows(s: State, e: Event)
    requires Inv(s) && Allowed(s, e) && !Harmless(s, e)
    ensures Sane(After(s, e)) && (Aborts(s, e) || !Good(After(s, e)))
    ensures var t := After(s, e);
            !Aborts(s, e) && t.v.ring.active > 0 ==> Aborts(t, Recv) || !Stream(After(t, Recv).out)
  {
    AfterSane(s, e);
    if !Aborts(s, e) {
      TurnTaken(s, e);
      TakenShows(s, After(s, e));
    }
  }

  lemma TakenShows(s: State, t: State)
    requires Inv(s) && Sane(t) && Taken(s, t)
    ensures !Good(t) && (t.v.ring.active > 0 ==> Aborts(t, Recv) || !Stream(After(t, Recv).out))
  {
    if t.v.ring.active > 0 && Turn(t.v.ring) in Readable(t.queues) {
      WrongPart(s, Turn(t.v.ring));
    }
  }

  /** A message was begun, and the turn is with another pipe, or its pipe has nothing more to read. */
  ghost predicate Taken(s: State, t: State)
    requires Ok(s.v.ring) && Ok(t.v.ring)
  {
    && s.v.more && t.v.more && s.v.ring.active > 0 && t.out == s.out
    && (forall q :: q in t.queues && t.queues[q] != [] ==> q in s.queues && t.queues[q] == s.queues[q])
    && (t.v.ring.active > 0 && Turn(t.v.ring) in Readable(t.queues) ==> Turn(t.v.ring) != Turn(s.v.ring))
  }

  lemma TurnTaken(s: State, e: Event)
    requires Inv(s) && Allowed(s, e) && !Harmless(s, e) && !Aborts(s, e)
    ensures Ok(After(s, e).v.ring) && Taken(s, After(s, e))
  {
    match e
    case Activate(slot) => EnteredOk(s.v.ring, slot);
    case Terminate(slot) =>
      RemovedOk(s.v.ring, slot);
      RemovedKeepsTurn(s.v.ring, slot);
    case Shut(p) =>
  }

  /** One event after a good run aborts nothing and leaves the user with whole messages exactly if it is harmless. */
  lemma StepExact(s: State, e: Event)
    requires Inv(s) && Allowed(s, e)
    ensures Sane(After(s, e)) && (!Aborts(s, e) && Good(After(s, e)) <==> Harmless(s, e))
  {
    if Harmless(s, e) {
      StepKeepsInv(s, e);
      InvIsGood(After(s, e));
    } else {
      HarmShows(s, e);
    }
  }

  const START := State(Inbox(Ring([], 0, 0), false, None), map[], [], map[], {})

  ghost predicate Steps(s: State, e: Event, t: State) {
    Sane(s) && Allowed(s, e) && !Aborts(s, e) && t == After(s, e)
  }

  ghost predicate IsRun(states: seq<State>, events: seq<Event>) {
    && |states| == |events| + 1 && states[0] == START
    && forall i :: 0 <= i < |events| ==> Steps(states[i], events[i], states[i + 1])
  }

  /** Some run leads to the state. */
  ghost predicate Reachable(s: State) {
    exists states: seq<State>, events: seq<Event> {:trigger IsRun(states, events)} ::
      IsRun(states, events) && states[|events|] == s
  }

  lemma Onward(s: State, e: Event, t: State)
    requires Reachable(s) && Steps(s, e, t)
    ensures Reachable(t)
  {
    var states: seq<State>, events: seq<Event> :| IsRun(states, events) && states[|events|] == s;
    var states1, events1 := states + [t], events + [e];
    forall i | 0 <= i < |events1| ensures Steps(states1[i], events1[i], states1[i + 1]) {
      if i < |events| { assert Steps(states[i], events[i], states[i + 1]); }
    }
    assert IsRun(states1, events1) && states1[|events1|] == t;
  }

  /** The first n events of the run are harmless. */
  ghost predicate HarmlessUpto(states: seq<State>, events: seq<Event>, n: nat)
    requires |states| == |events| + 1 && n <= |events|
  {
    forall i :: 0 <= i < n ==> Ok(states[i].v.ring) && Harmless(states[i], events[i])
  }

  lemma {:induction false} RunKeepsInv(states: seq<State>, events: seq<Event>, n: nat)
    requires IsRun(states, events) && n <= |events| && HarmlessUpto(states, events, n)
    ensures Inv(states[n])
  {
    if n > 0 {
      RunKeepsInv(states, events, n - 1);
      assert Steps(states[n - 1], events[n - 1], states[n]);
      StepKeepsInv(states[n - 1], events[n - 1]);
    }
  }

  /**
   * Over every run, up to the first event that is not harmless: the user reads whole messages,
   * each from one pipe; the rest of a message that was begun can be read at once, so the code's
   * assertion holds; and what was read from a pipe and what is left of it are what was sent.
   * That first event breaks it: the message that was begun does not go on.
   */
  lemma MessagesAreReadWhole(states: seq<State>, events: seq<Event>, n: nat)
    requires IsRun(states, events) && n <= |events| && HarmlessUpto(states, events, n)
    ensures var s := states[n];
            && Sane(s) && Good(s) && !Aborts(s, Recv)
            && (s.out != [] ==> (s.v.more <==> !s.out[|s.out| - 1].x.last))
            && (forall p :: p in s.queues ==> Conserved(s, p))
            && (n < |events| ==>
                  && Sane(states[n + 1])
                  && (!Aborts(s, events[n]) && Good(states[n + 1]) <==> Harmless(s, events[n])))
  {
    RunKeepsInv(states, events, n);
    var s := states[n];
    InvIsGood(s);
    StepExact(s, Recv);
    forall p | p in s.queues ensures Conserved(s, p) { assert PipeOk(s, p); }
    if n < |events| {
      assert Steps(s, events[n], states[n + 1]);
      StepExact(s, events[n]);
    }
  }
}
