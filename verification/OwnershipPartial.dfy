/**
 * Terminating a part of the tree: an object that is not a root asks its owner to terminate it.  The
 * request is heard exactly if the object is past launch_child when it asks, and then delivering
 * commands ends with its whole tree gone.
 */
module OwnershipPartial {
  import opened Common
  import opened OwnershipProtocol
  import opened OwnershipSafety
  import opened OwnershipRuns
  import opened OwnershipTheorems
  import opened OwnershipEffects
  import opened OwnershipProgress

  // ----- What a delivery leaves of mailboxes and owned objects ---------------------------------------------

  lemma GrownTrans(a: State, b: State, c: State)
    requires Grown(a, b) && Grown(b, c)
    ensures Grown(a, c)
  {
    forall t ensures Box(a, t) <= Box(c, t) { assert Box(a, t) <= Box(b, t) <= Box(c, t); }
  }

  lemma ApplyGrows(s: State, o: Id, e: Effect)
    ensures Grown(s, Apply(s, o, e))
  {
    var n := SetObject(s, o, e.obj);
    PostAllGrows(n, e.sends);
    forall t ensures Box(s, t) <= Box(Apply(s, o, e), t) { assert Box(n, t) == Box(s, t); }
  }

  lemma CountedGrows(s: State, c: Command, ch: Choice)
    requires Alive(s, c.dst) && Counted(c)
    ensures Grown(s, Dispatch(s, c, ch).state)
  {
    var o, x := c.dst, s.objects[c.dst];
    var e := if c.Own? then ProcessOwn(x, c.child)
             else if c.Attach? || c.Bind? then Effect(WithAcks(x, ch.acks), [])
             else Effect(x, []);
    var r := Apply(s, o, e);
    ApplyGrows(s, o, e);
    AppliedGrows(r, o, Effect(CountCommand(r.objects[o]), []));
    GrownTrans(s, r, SeqnumStep(r, o));
    if c.Plug? || c.InprocConnected? { Unchanged(s, o); }
  }

  /** Handling a command takes nothing else out of a mailbox. */
  lemma DispatchGrows(s: State, c: Command, ch: Choice)
    requires Dispatch(s, c, ch).Next?
    ensures Grown(s, Dispatch(s, c, ch).state)
  {
    var o, x := c.dst, s.objects[c.dst];
    if Counted(c) {
      CountedGrows(s, c, ch);
    } else {
      match c
      case TermReq(_, child) => ApplyGrows(s, o, ProcessTermReq(x, child));
      case Term(_, linger) =>
        if !ch.defer || x.terminating {
          AppliedGrows(s, o, BeginTerm(x, if ch.zeroLinger then 0 else linger, ch.acks, ch.order));
        }
      case TermAck(_) => AppliedGrows(s, o, Effect(DropAck(x), []));
      case TermEndpoint(_, _) =>
    }
  }

  /** Only these three commands change which children an object owns, and only for their target. */
  lemma OwnedSame(s: State, c: Command, ch: Choice, o: Id)
    requires Dispatch(s, c, ch).Next? && o in s.objects
    requires o == c.dst ==> !c.Own? && !c.TermReq? && !c.Term?
    ensures o in Dispatch(s, c, ch).state.objects && Dispatch(s, c, ch).state.objects[o].owned == s.objects[o].owned
  {
  }

  /** A delivery leaves the thread and the owner of an object as they are, and who was asked stays asked. */
  lemma SameObject(s: State, t: Tid, ch: Choice, o: Id)
    requires Step(s, Deliver(t, ch)).Next? && o in s.objects
    ensures var r := Step(s, Deliver(t, ch)).state;
            && o in r.objects && r.objects[o].tid == s.objects[o].tid && r.objects[o].owner == s.objects[o].owner
            && (s.objects[o].asked ==> r.objects[o].asked)
  {
    DeliveryKeeps(s, t, ch);
    assert KeepsAt(s, Step(s, Deliver(t, ch)).state, Loud(Box(s, t)[0], ch), o);
  }

  /** An owned child stays owned until it is asked to terminate. */
  lemma OwnedOrAsked(s: State, t: Tid, ch: Choice, o: Id, c: Id)
    requires Inv(s) && Step(s, Deliver(t, ch)).Next? && o in s.objects && c in s.objects[o].owned
    ensures var r := Step(s, Deliver(t, ch)).state;
            o in r.objects && c in r.objects && (c in r.objects[o].owned || r.objects[c].asked)
  {
    var d := Box(s, t)[0];
    OwnedIsQuiet(s, o, c);
    SameObject(s, t, ch, c);
    if d.dst != o || (!d.Own? && !d.TermReq? && !d.Term?) {
      OwnedSame(Pop(s, t), d, ch, o);
    } else if d.Own? {
      OwnHandled(s, t, ch);
      FlagsOk(s, o);
    } else if d.TermReq? {
      RequestHandled(s, t, ch);
    } else {
      OwnedAtTerm(s, t, ch, o, c);
    }
  }

  lemma OwnedAtTerm(s: State, t: Tid, ch: Choice, o: Id, c: Id)
    requires Inv(s) && Step(s, Deliver(t, ch)).Next? && o in s.objects && c in s.objects[o].owned && c in s.objects
    requires Box(s, t)[0].Term? && Box(s, t)[0].dst == o
    ensures var r := Step(s, Deliver(t, ch)).state;
            o in r.objects && c in r.objects && (c in r.objects[o].owned || r.objects[c].asked)
  {
    TermHandled(s, t, ch);
    var linger := if ch.zeroLinger then 0 else Box(s, t)[0].linger;
    if !ch.defer { assert TermSent(Pop(s, t), Step(s, Deliver(t, ch)).state, o, c, linger); }
  }

  // ----- Requests that will be heard ------------------------------------------------------------------------

  /** The request at place j will find the child owned: it is, or the command that makes it so is before it. */
  ghost predicate Heard(s: State, o: Id, c: Id, j: nat) {
    && o in s.objects && j < |Box(s, s.objects[o].tid)| && Box(s, s.objects[o].tid)[j] == TermReq(o, c)
    && (c in s.objects[o].owned || Own(o, c) in Box(s, s.objects[o].tid)[..j])
  }

  /** Object c was asked to terminate, or its owner will ask it. */
  ghost predicate Doomed(s: State, c: Id) {
    && c in s.objects && s.objects[c].owner.Some?
    && (s.objects[c].asked || exists j :: Heard(s, s.objects[c].owner.value, c, j))
  }

  /** The call of launch_child that made c has not sent own yet. */
  ghost predicate InLaunch(s: State, c: Id) {
    c in s.objects && s.objects[c].owner.Some? && s.objects[c].owner.value in s.objects &&
    BeingLaunched(s.launching, s.objects[s.objects[c].owner.value].tid, c)
  }

  /** Past launch_child, an object that was not asked is owned or about to be. */
  lemma Adopted(s: State, c: Id)
    requires Inv(s) && c in s.objects && s.objects[c].owner.Some? && !s.objects[c].asked
    ensures var o := s.objects[c].owner.value;
            && o in s.objects
            && (InLaunch(s, c) <==> c !in s.objects[o].owned && Own(o, c) !in Box(s, s.objects[o].tid))
  {
    assert PhaseOk(BooksOf(s), c);
    var o := s.objects[c].owner.value;
    var t := s.objects[o].tid;
    var q := Box(s, t);
    if Own(o, c) in q {
      var i :| 0 <= i < |q| && q[i] == Own(o, c);
      CountPositive(q, OwnOf(c), i);
    }
    if InFlight(s, OwnOf(c)) > 0 {
      var i := CountWitness(q, OwnOf(c));
      assert BoxOk(s, t, Box(s, t)) && CommandOk(s, t, q, i);
    }
  }

  /** An object that terminates itself will be asked by its owner exactly if it is past launch_child. */
  lemma TerminateDooms(s: State, c: Id, extra: nat, order: seq<Id>)
    requires Inv(s) && Step(s, Terminate(c, extra, order)).Next? && s.objects[c].owner.Some?
    ensures Doomed(Step(s, Terminate(c, extra, order)).state, c) <==> !InLaunch(s, c)
  {
    var r := Step(s, Terminate(c, extra, order)).state;
    TerminateHandled(s, c, extra, order);
    assert PhaseOk(BooksOf(s), c) && AccountsOk(BooksOf(s), c);
    if !s.objects[c].asked {
      Adopted(s, c);
      var o := s.objects[c].owner.value;
      var q, t := Box(s, s.objects[o].tid), s.objects[o].tid;
      assert Box(r, t) == q + [TermReq(o, c)];
      assert Box(r, t)[..|q|] == q;
      if !InLaunch(s, c) {
        assert Heard(r, o, c, |q|);
      } else {
        forall j: nat ensures !Heard(r, o, c, j) {
          assert j < |Box(r, t)| ==> Own(o, c) !in Box(r, t)[..j];
        }
      }
    }
  }

  // ----- They are heard ----------------------------------------------------------------------------------------

  /** What is behind the next command of its mailbox moves up by at most one place. */
  lemma MovesUp(s: State, t: Tid, ch: Choice, u: Tid, j: nat)
    requires Step(s, Deliver(t, ch)).Next? && j < |Box(s, u)| && (u == t ==> j > 0)
    ensures var b, k := Box(Step(s, Deliver(t, ch)).state, u), j - Bit(u == t);
            k < |b| && b[k] == Box(s, u)[j]
  {
    DispatchGrows(Pop(s, t), Box(s, t)[0], ch);
    assert Box(Pop(s, t), u) <= Box(Step(s, Deliver(t, ch)).state, u);
  }

  /** A request that is not the next command. */
  lemma HeardLater(s: State, t: Tid, ch: Choice, c: Id, j: nat)
    requires Inv(s) && Step(s, Deliver(t, ch)).Next? && c in s.objects && s.objects[c].owner.Some?
    requires var o := s.objects[c].owner.value; Heard(s, o, c, j) && (s.objects[o].tid == t ==> j > 0)
    ensures Doomed(Step(s, Deliver(t, ch)).state, c)
  {
    var o, r := s.objects[c].owner.value, Step(s, Deliver(t, ch)).state;
    var u := s.objects[o].tid;
    SameObject(s, t, ch, c);
    SameObject(s, t, ch, o);
    MovesUp(s, t, ch, u, j);
    var k := j - Bit(u == t);
    if c in s.objects[o].owned {
      OwnedOrAsked(s, t, ch, o, c);
    } else if u == t && Box(s, t)[0] == Own(o, c) {
      OwnHandled(s, t, ch);
    } else {
      OwnMovesUp(s, t, ch, u, j, Own(o, c));
    }
    assert r.objects[c].asked || Heard(r, o, c, k);
  }

  lemma OwnMovesUp(s: State, t: Tid, ch: Choice, u: Tid, j: nat, own: Command)
    requires Step(s, Deliver(t, ch)).Next? && j < |Box(s, u)| && own in Box(s, u)[..j]
    requires u == t ==> Box(s, t)[0] != own
    ensures var b, k := Box(Step(s, Deliver(t, ch)).state, u), j - Bit(u == t);
            k <= |b| && own in b[..k]
  {
    var i :| 0 <= i < j && Box(s, u)[i] == own;
    MovesUp(s, t, ch, u, i);
    MovesUp(s, t, ch, u, j);
    assert Box(Step(s, Deliver(t, ch)).state, u)[..j - Bit(u == t)][i - Bit(u == t)] == own;
  }

  /** No delivery loses a request that will be heard. */
  lemma DoomedKept(s: State, t: Tid, ch: Choice, c: Id)
    requires Inv(s) && Step(s, Deliver(t, ch)).Next? && Doomed(s, c)
    ensures Doomed(Step(s, Deliver(t, ch)).state, c)
  {
    var o := s.objects[c].owner.value;
    if s.objects[c].asked {
      SameObject(s, t, ch, c);
    } else {
      var j :| Heard(s, o, c, j);
      if s.objects[o].tid == t && j == 0 { RequestHandled(s, t, ch); } else { HeardLater(s, t, ch, c, j); }
    }
  }

  lemma {:induction false} StaysDoomed(states: seq<State>, events: seq<Event>, i: nat, n: nat, c: Id)
    requires IsRun(states, events) && DeliversOnly(events, i, n) && Doomed(states[i], c)
    ensures Doomed(states[n], c)
    decreases n - i
  {
    if i < n {
      StaysDoomed(states, events, i, n - 1, c);
      StillDoomed(states, events, n - 1, c);
    }
  }

  lemma StillDoomed(states: seq<State>, events: seq<Event>, k: nat, c: Id)
    requires IsRun(states, events) && k < |events| && events[k].Deliver? && Doomed(states[k], c)
    ensures Doomed(states[k + 1], c)
  {
    var s, e := states[k], events[k];
    RunKeepsInv(states, events, k);
    assert StepAt(states, events, k);
    DoomedKept(s, e.thread, e.choice, c);
  }

  lemma {:induction false} StaysCalmUnder(states: seq<State>, events: seq<Event>, i: nat, n: nat, r: Id)
    requires IsRun(states, events) && DeliversPlainly(states, events, i, n, r) && CalmUnder(states[i], r)
    ensures CalmUnder(states[n], r)
    decreases n - i
  {
    if i < n {
      StaysCalmUnder(states, events, i, n - 1, r);
      assert PlainAt(states, events, r, n - 1);
      DeliveryStaysCalm(states, events, n - 1, r);
    }
  }

  /** No request of c to its owner is in flight. */
  ghost predicate RequestTaken(s: State, c: Id)
    requires c in s.objects && s.objects[c].owner.Some?
  {
    forall t, i :: 0 <= i < |Box(s, t)| ==> Box(s, t)[i] != TermReq(s.objects[c].owner.value, c)
  }

  /** Once nothing is in flight below it and its request was taken, a doomed object terminates. */
  lemma DoomedTerminates(s: State, c: Id)
    requires Inv(s) && Doomed(s, c) && CalmUnder(s, c) && QuietUnder(s, c)
    requires RequestTaken(s, c)
    ensures s.objects[c].terminating
  {
    var q := Box(s, s.objects[c].tid);
    assert Under(s, c, c) && CalmAt(s, c);
    CountZero(q, TermTo(c));
    assert AccountsOk(BooksOf(s), c);
  }

  /**
   * Partial shutdown comes to an end.  In every run, once an object c that is not a root and is past
   * launch_child terminates itself, and nobody under it launches, holds a promise or waits for
   * something outside, let commands be delivered in any order the mailboxes allow: there are at most
   * so many deliveries, another one is possible for as long as a command waits, and when none is left
   * for the tree under c and c's request was taken, all of that tree is gone.
   */
  lemma PartialShutdownEnds(states: seq<State>, events: seq<Event>, i: nat, n: nat, c: Id)
    requires IsRun(states, events) && i < |events| && events[i].Terminate? && events[i].o == c
    requires c in states[i].objects && states[i].objects[c].owner.Some? && !InLaunch(states[i], c)
    requires DeliversPlainly(states, events, i + 1, n, c) && CalmUnder(states[i + 1], c)
    ensures n - (i + 1) <= Load(states[i + 1]) && CanGoOn(states[n])
    ensures var s := states[n];
            && c in s.objects && s.objects[c].owner == states[i].objects[c].owner
            && (QuietUnder(s, c) && RequestTaken(s, c) ==>
                  forall o :: o in s.objects && Under(s, o, c) ==> s.objects[o].destroyed)
  {
    RunKeepsInv(states, events, i);
    assert StepAt(states, events, i);
    TerminateDooms(states[i], c, events[i].extra, events[i].order);
    TerminateHandled(states[i], c, events[i].extra, events[i].order);
    OnlyDeliveries(states, events, i + 1, n, c);
    OwnerSame(states, events, i + 1, n, c);
    StaysDoomed(states, events, i + 1, n, c);
    StaysCalmUnder(states, events, i + 1, n, c);
    DeliveriesEnd(states, events, i + 1, n);
    RunKeepsInv(states, events, n);
    InvCanGoOn(states[n]);
    var s := states[n];
    if QuietUnder(s, c) && RequestTaken(s, c) {
      DoomedTerminates(s, c);
      CalmEnd(s, c);
    }
  }

  lemma {:induction false} OwnerSame(states: seq<State>, events: seq<Event>, i: nat, n: nat, c: Id)
    requires IsRun(states, events) && DeliversOnly(events, i, n) && c in states[i].objects
    ensures c in states[n].objects && states[n].objects[c].owner == states[i].objects[c].owner
    decreases n - i
  {
    if i < n {
      OwnerSame(states, events, i, n - 1, c);
      var s, e := states[n - 1], events[n - 1];
      assert StepAt(states, events, n - 1);
      SameObject(s, e.thread, e.choice, c);
    }
  }
}
