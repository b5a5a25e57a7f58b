/**
 * Multipart messages through lb_t: every pipe holds whole messages only, apart from the one
 * being written, and no message is spread over two pipes, up to the first event that breaks it:
 * the turn is taken from the pipe being written to, or a last part that was refused is repeated.
 */
module LoadBalancerRuns {
  import opened Multipart
  import opened PipeArray
  import opened Ring
  import opened LoadBalancer

  /** The balancer, what each pipe holds, and the number of the next part to be sent. */
  datatype State = State(v: Balance, given: map<Pipe, seq<Part>>, msg: nat, part: nat)

  datatype Event =
    | Attach(p: Pipe)
    | Activate(slot: nat)
    | Terminate(slot: nat)
    | Poll(room: set<Pipe>)
    // With `again`, the caller keeps a part that is refused with the rest of its message, and repeats it.
    | Send(room: set<Pipe>, last: bool, again: bool)

  /** A message is being written, to the pipe whose turn it is. */
  predicate Writing(v: Balance) {
    v.more && !v.dropping
  }

  /** Pipes are attached once. */
  ghost predicate Allowed(s: State, e: Event)
    requires Fine(s.v)
  {
    match e
    case Attach(p) => p !in s.given
    case Activate(slot) => slot < |s.v.ring.items|
    case Terminate(slot) => slot < |s.v.ring.items|
    case Poll(_) => true
    case Send(_, _, _) => true
  }

  /** The event swaps with a slot that the array does not have; what follows is not defined. */
  predicate OutOfBounds(s: State, e: Event) {
    e.Activate? && Overruns(s.v.ring)
  }

  /**
   * The turn stays with the pipe being written to or it goes itself, no refused last part is
   * repeated, and no swap is out of bounds.
   */
  ghost predicate Harmless(s: State, e: Event)
    requires Fine(s.v)
  {
    match e
    case Activate(slot) => !Overruns(s.v.ring) && (Writing(s.v) ==> slot != s.v.ring.current)
    case Terminate(slot) => Writing(s.v) ==> !Misplaces(s.v.ring, slot)
    case Send(room, last, again) => !(Fate(s.v, room).RolledBack? && last && again)
    case _ => true
  }

  function Next(s: State, last: bool): State {
    if last then s.(msg := s.msg + 1, part := 0) else s.(part := s.part + 1)
  }

  ghost predicate Sane(s: State) {
    Fine(s.v) && forall p :: p in s.v.ring.items ==> p in s.given
  }

  ghost function After(s: State, e: Event): State
    requires Sane(s) && Allowed(s, e)
  {
    match e
    case Attach(p) => s.(v := s.v.(ring := Added(s.v.ring, p)), given := s.given[p := []])
    case Activate(slot) => if Overruns(s.v.ring) then s else s.(v := s.v.(ring := Entered(s.v.ring, slot)))
    case Terminate(slot) =>
      var p := s.v.ring.items[slot];
      s.(v := Terminated(s.v, slot), given := s.given[p := Rollback(s.given[p])])
    case Poll(room) => if s.v.more then s else s.(v := s.v.(ring := Seek(s.v.ring, room)))
    case Send(room, last, again) =>
      var t := s.(v := Sent(s.v, room, last));
      SeekOk(s.v.ring, room);
      match Fate(s.v, room)
      case Dropped => Next(t, last)
      case NoPipe => t
      case RolledBack(p) => (if again then t else Next(t, last)).(given := s.given[p := Rollback(s.given[p])])
      case Wrote(p) => Next(t, last).(given := s.given[p := s.given[p] + [Part(s.msg, s.part, last)]])
  }

  // ----- What every run keeps ------------------------------------------------------------------

  ghost predicate Here(s: State, p: Pipe)
    requires Fine(s.v)
  {
    Writing(s.v) && p == Turn(s.v.ring)
  }

  ghost predicate PipeOk(s: State, p: Pipe)
    requires Fine(s.v)
  {
    p in s.given ==>
      && Whole(s.given[p], Here(s, p))
      && (forall i :: 0 <= i < |s.given[p]| ==> s.given[p][i].msg < s.msg || (s.given[p][i].msg == s.msg && Here(s, p)))
      && (Here(s, p) ==>
            s.part > 0 && s.given[p] != [] && s.given[p][|s.given[p]| - 1] == Part(s.msg, s.part - 1, false))
  }

  ghost predicate Apart(g: seq<Part>, h: seq<Part>) {
    forall i, j :: 0 <= i < |g| && 0 <= j < |h| ==> g[i].msg != h[j].msg
  }

  ghost predicate ApartAt(s: State, p: Pipe, q: Pipe) {
    p in s.given && q in s.given && p != q ==> Apart(s.given[p], s.given[q])
  }

  ghost predicate Inv(s: State) {
    && Sane(s)
    && (s.part > 0 <==> s.v.more || s.v.dropping)
    && (forall p {:trigger PipeOk(s, p)} :: PipeOk(s, p))
    && (forall p, q {:trigger ApartAt(s, p, q)} :: ApartAt(s, p, q))
  }

  // ----- Every step keeps it ---------------------------------------------------------------------

  /** Only p changes its contents, and gets at most parts of the current message that no other pipe has. */
  lemma OneChanges(s: State, t: State, p: Pipe)
    requires Inv(s) && Fine(t.v) && p in s.given && p in t.given && t.given == s.given[p := t.given[p]]
    requires forall q :: q in t.v.ring.items ==> q in s.v.ring.items
    requires t.part > 0 <==> t.v.more || t.v.dropping
    requires PipeOk(t, p) && t.msg >= s.msg
    requires forall q :: q in s.given && q != p ==> (Here(t, q) <==> Here(s, q))
    requires forall q :: q in s.given && q != p && Here(s, q) ==>
               t.msg == s.msg && t.part == s.part && t.given[p] <= s.given[p]
    requires forall i :: 0 <= i < |t.given[p]| ==>
               t.given[p][i].msg == s.msg || (i < |s.given[p]| && t.given[p][i] == s.given[p][i])
    ensures Inv(t)
  {
    forall q ensures PipeOk(t, q) { assert PipeOk(s, q); }
    forall a, b ensures ApartAt(t, a, b) {
      assert ApartAt(s, a, b) && PipeOk(s, a) && PipeOk(s, b);
    }
  }

  /** Nothing that a pipe holds changes, nor whose turn it is while a message is written. */
  lemma NoneChanges(s: State, t: State)
    requires Inv(s) && Fine(t.v) && t.given == s.given && t.msg >= s.msg
    requires forall q :: q in t.v.ring.items ==> q in s.v.ring.items
    requires t.part > 0 <==> t.v.more || t.v.dropping
    requires Writing(s.v) <==> Writing(t.v)
    requires Writing(t.v) ==> Turn(t.v.ring) == Turn(s.v.ring) && t.msg == s.msg && t.part == s.part
    ensures Inv(t)
  {
    forall q ensures PipeOk(t, q) { assert PipeOk(s, q); }
    forall a, b ensures ApartAt(t, a, b) { assert ApartAt(s, a, b); }
  }

  lemma AttachKeepsInv(s: State, p: Pipe)
    requires Inv(s) && Allowed(s, Attach(p))
    ensures Inv(After(s, Attach(p)))
  {
    var t := After(s, Attach(p));
    AddedOk(s.v.ring, p);
    forall q ensures PipeOk(t, q) { assert PipeOk(s, q); }
    forall a, b ensures ApartAt(t, a, b) { assert ApartAt(s, a, b); }
  }

  lemma TerminateKeepsInv(s: State, slot: nat)
    requires Inv(s) && Allowed(s, Terminate(slot)) && Harmless(s, Terminate(slot))
    ensures Inv(After(s, Terminate(slot)))
  {
    var t, p := After(s, Terminate(slot)), s.v.ring.items[slot];
    RemovedOk(s.v.ring, slot);
    TerminatedFine(s.v, slot);
    assert PipeOk(s, p);
    RollbackOk(s.given[p], Here(s, p), s.msg);
    if s.v.ring.active > 0 { RemovedKeepsTurn(s.v.ring, slot); }
    if Writing(t.v) { assert PipeOk(s, Turn(s.v.ring)); }
    OneChanges(s, t, p);
  }

  lemma WroteKeepsInv(s: State, room: set<Pipe>, last: bool, again: bool)
    requires Inv(s) && Fate(s.v, room).Wrote?
    ensures Inv(After(s, Send(room, last, again)))
  {
    var t, p := After(s, Send(room, last, again)), Fate(s.v, room).to;
    SeekOk(s.v.ring, room);
    SentFine(s.v, room, last);
    assert PipeOk(s, p);
    WroteOk(s.given[p], Here(s, p), Part(s.msg, s.part, last));
    assert PipeOk(t, p);
    OneChanges(s, t, p);
  }

  lemma RolledBackKeepsInv(s: State, room: set<Pipe>, last: bool, again: bool)
    requires Inv(s) && Fate(s.v, room).RolledBack? && !(last && again)
    ensures Inv(After(s, Send(room, last, again)))
  {
    var t, p := After(s, Send(room, last, again)), Fate(s.v, room).from;
    SentFine(s.v, room, last);
    assert PipeOk(s, p);
    RollbackOk(s.given[p], Here(s, p), s.msg);
    OneChanges(s, t, p);
  }

  lemma SendKeepsInv(s: State, room: set<Pipe>, last: bool, again: bool)
    requires Inv(s) && Harmless(s, Send(room, last, again))
    ensures Inv(After(s, Send(room, last, again)))
  {
    SeekOk(s.v.ring, room);
    SentFine(s.v, room, last);
    match Fate(s.v, room)
    case Dropped => NoneChanges(s, After(s, Send(room, last, again)));
    case NoPipe => NoneChanges(s, After(s, Send(room, last, again)));
    case RolledBack(_) => RolledBackKeepsInv(s, room, last, again);
    case Wrote(_) => WroteKeepsInv(s, room, last, again);
  }

  lemma StepKeepsInv(s: State, e: Event)
    requires Inv(s) && Allowed(s, e) && Harmless(s, e)
    ensures !OutOfBounds(s, e) && Inv(After(s, e))
  {
    match e
    case Attach(p) => AttachKeepsInv(s, p);
    case Activate(slot) =>
      EnteredOk(s.v.ring, slot);
      NoneChanges(s, After(s, e));
    case Terminate(slot) => TerminateKeepsInv(s, slot);
    case Poll(room) =>
      SeekOk(s.v.ring, room);
      NoneChanges(s, After(s, e));
    case Send(room, last, again) => SendKeepsInv(s, room, last, again);
  }

  // ----- Exactly when it works ---------------------------------------------------------------------------

  /** If the next part is written at all, it goes where the parts before it are. */
  ghost predicate NextFits(s: State, room: set<Pipe>, last: bool)
    requires Sane(s)
  {
    Fate(s.v, room).Wrote? ==>
      var p := Fate(s.v, room).to;
      SeekOk(s.v.ring, room);
      Whole(s.given[p] + [Part(s.msg, s.part, last)], !last)
  }

  ghost predicate Good(s: State)
    requires Sane(s)
  {
    forall room, last {:trigger NextFits(s, room, last)} :: NextFits(s, room, last)
  }

  lemma InvIsGood(s: State)
    requires Inv(s)
    ensures Good(s)
  {
    forall room, last ensures NextFits(s, room, last) {
      if Fate(s.v, room).Wrote? {
        SeekOk(s.v.ring, room);
        var p := Fate(s.v, room).to;
        assert PipeOk(s, p);
        WroteOk(s.given[p], Here(s, p), Part(s.msg, s.part, last));
      }
    }
  }

  /** A later part without the parts before it. */
  lemma Headless(h: seq<Part>, msg: nat, part: nat, last: bool)
    requires part > 0 && forall i :: 0 <= i < |h| ==> h[i].msg < msg
    ensures !Whole(h + [Part(msg, part, last)], !last)
  {
    var g := h + [Part(msg, part, last)];
    assert !JoinsAt(g, |h|);
  }

  /** The pipe whose turn it is would be given a part without its head. */
  lemma NotGood(t: State, last: bool)
    requires Sane(t) && t.v.ring.active > 0 && !t.v.dropping && t.part > 0
    requires forall i :: 0 <= i < |t.given[Turn(t.v.ring)]| ==> t.given[Turn(t.v.ring)][i].msg < t.msg
    ensures Fate(t.v, {Turn(t.v.ring)}) == Wrote(Turn(t.v.ring)) && !NextFits(t, {Turn(t.v.ring)}, last) && !Good(t)
  {
    var p := Turn(t.v.ring);
    SeekOk(t.v.ring, {p});
    Headless(t.given[p], t.msg, t.part, last);
    assert !NextFits(t, {p}, last);
  }

  lemma TurnLost(s: State, e: Event)
    requires Inv(s) && Allowed(s, e) && !Harmless(s, e) && !e.Send? && !OutOfBounds(s, e)
    ensures Sane(After(s, e)) && !Good(After(s, e))
  {
    var t := After(s, e);
    match e {
      case Activate(slot) => EnteredOk(s.v.ring, slot);
      case Terminate(slot) =>
        RemovedOk(s.v.ring, slot);
        RemovedKeepsTurn(s.v.ring, slot);
        TerminatedFine(s.v, slot);
    }
    assert PipeOk(s, Turn(t.v.ring)) && PipeOk(s, Turn(s.v.ring));
    NotGood(t, true);
  }

  lemma TailKept(s: State, room: set<Pipe>)
    requires Inv(s) && Fate(s.v, room).RolledBack?
    ensures Sane(After(s, Send(room, true, true))) && !Good(After(s, Send(room, true, true)))
  {
    var t, p := After(s, Send(room, true, true)), Fate(s.v, room).from;
    SentFine(s.v, room, true);
    assert PipeOk(s, p);
    RollbackOk(s.given[p], Here(s, p), s.msg);
    NotGood(t, true);
  }

  /** A refused part that is repeated goes out, and then without its head, exactly if it was the last one. */
  lemma RepeatExact(s: State, room: set<Pipe>, last: bool)
    requires Inv(s) && Fate(s.v, room).RolledBack?
    ensures var t := After(s, Send(room, last, true));
            && Sane(t) && (last <==> exists r :: Fate(t.v, r).Wrote?)
            && forall r :: Fate(t.v, r).Wrote? ==> !NextFits(t, r, last)
  {
    var t, p := After(s, Send(room, last, true)), Fate(s.v, room).from;
    SentFine(s.v, room, last);
    assert PipeOk(s, p);
    RollbackOk(s.given[p], Here(s, p), s.msg);
    if last { NotGood(t, last); }
    forall r | Fate(t.v, r).Wrote? ensures !NextFits(t, r, last) {
      SeekOk(t.v.ring, r);
      var q := Fate(t.v, r).to;
      assert PipeOk(s, q);
      Headless(t.given[q], t.msg, t.part, last);
    }
  }

  /** One event after a good run is defined and leaves the next part a place to go exactly if it is harmless. */
  lemma StepExact(s: State, e: Event)
    requires Inv(s) && Allowed(s, e)
    ensures Sane(After(s, e)) && (!OutOfBounds(s, e) && Good(After(s, e)) <==> Harmless(s, e))
  {
    if Harmless(s, e) {
      StepKeepsInv(s, e);
      InvIsGood(After(s, e));
    } else if e.Send? {
      TailKept(s, e.room);
    } else if !OutOfBounds(s, e) {
      TurnLost(s, e);
    }
  }

  const START := State(Balance(Ring([], 0, 0), false, false), map[], 0, 0)

  ghost predicate Steps(s: State, e: Event, t: State) {
    Sane(s) && Allowed(s, e) && t == After(s, e)
  }

  ghost predicate IsRun(states: seq<State>, events: seq<Event>) {
    && |states| == |events| + 1 && states[0] == START
    && forall i :: 0 <= i < |events| ==> Steps(states[i], events[i], states[i + 1])
  }

  /** Some run leads to the state. */
  ghost predicate Reachable(s: State) {
    exists states: seq<State>, events: seq<Event> {:trigger IsRun(states, events)} ::
      IsRun(states, events) && states[|events|] == s
  }

  lemma Onward(s: State, e: Event, t: State)
    requires Reachable(s) && Steps(s, e, t)
    ensures Reachable(t)
  {
    var states: seq<State>, events: seq<Event> :| IsRun(states, events) && states[|events|] == s;
    var states1, events1 := states + [t], events + [e];
    forall i | 0 <= i < |events1| ensures Steps(states1[i], events1[i], states1[i + 1]) {
      if i < |events| { assert Steps(states[i], events[i], states[i + 1]); }
    }
    assert IsRun(states1, events1) && states1[|events1|] == t;
  }

  /** The first n events of the run are harmless. */
  ghost predicate HarmlessUpto(states: seq<State>, events: seq<Event>, n: nat)
    requires |states| == |events| + 1 && n <= |events|
  {
    forall i :: 0 <= i < n ==> Fine(states[i].v) && Harmless(states[i], events[i])
  }

  lemma {:induction false} RunKeepsInv(states: seq<State>, events: seq<Event>, n: nat)
    requires IsRun(states, events) && n <= |events| && HarmlessUpto(states, events, n)
    ensures Inv(states[n])
  {
    if n > 0 {
      RunKeepsInv(states, events, n - 1);
      assert Steps(states[n - 1], events[n - 1], states[n]);
      StepKeepsInv(states[n - 1], events[n - 1]);
    }
  }

  /**
   * Over every run, up to the first event that is not harmless: a pipe holds whole messages, but
   * for the parts so far of the one being written to it; all parts of a message that were not
   * dropped are in one pipe; and the next part has a place to go.  That first event takes it away,
   * or is out of bounds.
   */
  lemma MessagesStayWhole(states: seq<State>, events: seq<Event>, n: nat, p: Pipe)
    requires IsRun(states, events) && n <= |events| && HarmlessUpto(states, events, n)
    ensures var s := states[n];
            && Sane(s) && Good(s)
            && (p in s.given ==> Whole(s.given[p], Here(s, p)))
            && (forall q :: p in s.given && q in s.given && q != p ==> Apart(s.given[p], s.given[q]))
            && (n < |events| ==>
                  && Sane(states[n + 1])
                  && (!OutOfBounds(s, events[n]) && Good(states[n + 1]) <==> Harmless(s, events[n])))
  {
    RunKeepsInv(states, events, n);
    var s := states[n];
    InvIsGood(s);
    assert PipeOk(s, p);
    forall q | p in s.given && q in s.given && q != p ensures Apart(s.given[p], s.given[q]) {
      assert ApartAt(s, p, q);
    }
    if n < |events| {
      assert Steps(s, events[n], states[n + 1]);
      StepExact(s, events[n]);
    }
  }
}
