/** The main results about the ownership protocol, stated over whole runs. */
module OwnershipTheorems {
  import opened Common
  import opened OwnershipProtocol
  import opened OwnershipSafety
  import opened OwnershipRuns
  import opened OwnedObject

  /** Every event keeps the invariant, and none fails an assertion or touches a deleted object. */
  lemma StepKeepsInv(s: State, e: Event)
    requires Inv(s)
    ensures Step(s, e) != Aborted
    ensures Step(s, e).Next? ==> Inv(Step(s, e).state)
  {
    match e {
      case CreateRoot(id, tid, linger) => if NewId(s, id) { CreateRootKeepsInv(s, id, tid, linger); }
      case LaunchPlug(p, c, tid, linger, reserve) =>
        if NewId(s, c) && Free(s, p) { LaunchPlugKeepsInv(s, p, c, tid, linger, reserve); }
      case LaunchOwn(t) => if t in s.launching { LaunchOwnKeepsInv(s, t); }
      case Terminate(o, extra, order) => TerminateKeepsInv(s, o, extra, order);
      case TermChild(o, c) => if Free(s, o) { TermReqKeepsInv(s, o, c); }
      case IncSeqnum(o) => if Alive(s, o) { IncSeqnumKeepsInv(s, o); }
      case SendReserved(c) =>
        if SentLater(c) && c.dst in s.objects && s.objects[c.dst].reserved > 0 { SendReservedKeepsInv(s, c); }
      case ProcessReserved(o, acks) =>
        if o in s.objects && s.objects[o].reserved > 0 && s.objects[o].tid !in s.launching {
          ProcessReservedKeepsInv(s, o, acks);
        }
      case RegisterAcks(o, acks) => if Free(s, o) { RegisterKeepsInv(s, o, acks); }
      case UnregisterAck(o) =>
        if o in s.objects && s.objects[o].external > 0 && s.objects[o].tid !in s.launching { UnregisterKeepsInv(s, o); }
      case ResumeTerm(o, extra, order) =>
        if o in s.objects && s.objects[o].deferred && s.objects[o].tid !in s.launching {
          ResumeKeepsInv(s, o, extra, order);
        }
      case SendTermEndpoint(d, via) => TermEndpointKeepsInv(s, d, via);
      case Deliver(t, ch) => DeliverKeepsInv(s, t, ch);
    }
  }

  lemma {:induction false} RunKeepsInv(states: seq<State>, events: seq<Event>, i: nat)
    requires IsRun(states, events) && i < |states|
    ensures Inv(states[i])
  {
    if i == 0 {
      assert forall t :: Box(START, t) == [];
      assert forall t :: BoxOk(START, t, Box(START, t));
    } else {
      RunKeepsInv(states, events, i - 1);
      assert StepAt(states, events, i - 1);
      StepKeepsInv(states[i - 1], events[i - 1]);
    }
  }

  // ----- Safety ---------------------------------------------------------------------------

  /** What a mailbox never holds, said without the accounting that proves it. */
  ghost predicate SafeCommand(s: State, t: Tid, i: nat)
    requires i < |Box(s, t)|
  {
    var q := Box(s, t);
    var c := q[i];
    // Its target still exists and lives on this thread.
    && Alive(s, c.dst) && s.objects[c.dst].tid == t
    // A term command finds its target plugged, not terminating and not holding another.
    && (c.Term? ==> !s.objects[c.dst].terminating && !s.objects[c.dst].deferred)
    && (c.Term? ==> forall j :: 0 <= j < |q| && (q[j] == Plug(c.dst) || (q[j].Term? && q[j].dst == c.dst)) ==> j <= i)
    // An ack is awaited.
    && (c.TermAck? ==> s.objects[c.dst].termAcks > 0)
  }

  ghost predicate Safe(s: State) {
    && (forall t, i {:trigger SafeCommand(s, t, i)} :: 0 <= i < |Box(s, t)| ==> SafeCommand(s, t, i))
    // A parent is gone only after all its children.
    && (forall c :: c in s.objects && s.objects[c].owner.Some? ==>
          s.objects[c].owner.value in s.objects &&
          (s.objects[s.objects[c].owner.value].destroyed ==> s.objects[c].destroyed))
    // A gone object has nothing left: no children, no acks, no commands, no promises.
    && (forall o :: o in s.objects && s.objects[o].destroyed ==>
          && s.objects[o].terminating && s.objects[o].owned == {} && s.objects[o].termAcks == 0
          && s.objects[o].processed == s.objects[o].sent && s.objects[o].reserved == 0 && s.objects[o].external == 0)
  }

  lemma {:induction false} CountTwo(q: seq<Command>, p: Pattern, i: nat, j: nat)
    requires i < j < |q| && Matches(q[i], p) && Matches(q[j], p)
    ensures Count(q, p) >= 2
  {
    if i > 0 {
      CountTwo(q[1..], p, i - 1, j - 1);
    } else {
      CountPositive(q[1..], p, j - 1);
    }
  }

  lemma SafeAt(s: State, t: Tid, i: nat)
    requires Inv(s) && i < |Box(s, t)|
    ensures SafeCommand(s, t, i)
  {
    var q := Box(s, t);
    var c := q[i];
    TargetsAlive(s, t, i);
    assert BoxOk(s, t, Box(s, t)) && CommandOk(s, t, q, i);
    assert AccountsOk(BooksOf(s), c.dst);
    if c.Term? {
      TermExpected(s, t, i);
      forall j | i < j < |q| ensures q[j] != Plug(c.dst) {
        assert q[i + 1..][j - i - 1] == q[j];
      }
      forall j | 0 <= j < |q| && (q[j] == Plug(c.dst) || (q[j].Term? && q[j].dst == c.dst)) ensures j <= i {
        if q[j].Term? && i < j { CountTwo(q, TermTo(c.dst), i, j); }
      }
    } else if c.TermAck? {
      CountPositive(q, AckTo(c.dst), i);
    }
  }

  lemma InvIsSafe(s: State)
    requires Inv(s)
    ensures Safe(s)
  {
    forall t, i | 0 <= i < |Box(s, t)| ensures SafeCommand(s, t, i) {
      SafeAt(s, t, i);
    }
    forall c | c in s.objects && s.objects[c].owner.Some?
      ensures s.objects[c].owner.value in s.objects
      ensures s.objects[s.objects[c].owner.value].destroyed ==> s.objects[c].destroyed
    {
      ChildrenFirst(s, c);
    }
    forall o | o in s.objects && s.objects[o].destroyed
      ensures s.objects[o].terminating && s.objects[o].owned == {} && s.objects[o].termAcks == 0
      ensures s.objects[o].processed == s.objects[o].sent && s.objects[o].reserved == 0 && s.objects[o].external == 0
    {
      assert LifeOk(s.objects[o]) && AccountsOk(BooksOf(s), o);
    }
  }

  /**
   * In every state of every run: nothing is in flight to an object that is gone,
   * process_term never runs twice, no unexpected ack arrives, parents outlive their
   * children, and whatever happens next fails no assertion.
   */
  lemma RunsAreSafe(states: seq<State>, events: seq<Event>, i: nat)
    requires IsRun(states, events) && i < |states|
    ensures Safe(states[i])
    ensures forall e :: Step(states[i], e) != Aborted
  {
    RunKeepsInv(states, events, i);
    InvIsSafe(states[i]);
    forall e ensures Step(states[i], e) != Aborted {
      StepKeepsInv(states[i], e);
    }
  }

  // ----- No stuck shutdown ------------------------------------------------------------------

  /** Nothing is left to happen to o: no command, no launch, no promise, no outside event. */
  ghost predicate Idle(s: State, o: Id) {
    o in s.objects ==>
      && (forall t, i :: 0 <= i < |Box(s, t)| ==> Box(s, t)[i].dst != o)
      && (forall t :: t in s.launching ==> s.launching[t].parent != o)
      && s.objects[o].reserved == 0 && s.objects[o].external == 0 && !s.objects[o].deferred
  }

  ghost predicate IdleUnder(s: State, r: Id) {
    forall o {:trigger Idle(s, o)} :: Under(s, o, r) ==> Idle(s, o)
  }

  lemma IdleCounts(s: State, o: Id)
    requires o in s.objects && Idle(s, o)
    ensures InFlight(s, CountedTo(o)) == InFlight(s, TermTo(o)) == InFlight(s, AckTo(o)) == 0
  {
    var q := Box(s, s.objects[o].tid);
    CountZero(q, CountedTo(o));
    CountZero(q, TermTo(o));
    CountZero(q, AckTo(o));
  }

  /** A terminating object with an idle tree is gone, because each child it waits for would be. */
  lemma {:induction false} TerminatingIsGone(s: State, o: Id, bound: nat)
    requires Inv(s) && IdleUnder(s, o) && o in s.objects && s.objects[o].terminating
    requires forall k :: k in s.objects ==> k < bound
    ensures s.objects[o].destroyed
    decreases bound - o
  {
    assert Under(s, o, o) && Idle(s, o);
    IdleCounts(s, o);
    assert AccountsOk(BooksOf(s), o) && LifeOk(s.objects[o]);
    if !s.objects[o].destroyed {
      var k :| k in AskedKids(s, o);
      AskedIsTerminating(s, k, o);
      TerminatingIsGone(s, k, bound);
    }
  }

  lemma AskedIsTerminating(s: State, k: Id, o: Id)
    requires Inv(s) && IdleUnder(s, o) && k in AskedKids(s, o)
    ensures k > o && s.objects[k].terminating && IdleUnder(s, k)
  {
    assert PhaseOk(BooksOf(s), k) && AccountsOk(BooksOf(s), k);
    assert Under(s, o, o) && Under(s, k, o);
    assert Idle(s, k);
    IdleCounts(s, k);
    forall d | Under(s, d, k) ensures Idle(s, d) {
      UnderTwice(s, d, k, o);
    }
  }

  lemma {:induction false} UnderTwice(s: State, d: Id, k: Id, o: Id)
    requires Under(s, d, k) && Under(s, k, o)
    ensures Under(s, d, o)
    decreases d
  {
    if d != k {
      UnderTwice(s, s.objects[d].owner.value, k, o);
    }
  }

  lemma {:induction false} GoneBelow(s: State, d: Id, r: Id)
    requires Inv(s) && d in s.objects && Under(s, d, r) && r in s.objects && s.objects[r].destroyed
    ensures s.objects[d].destroyed
    decreases d
  {
    if d != r {
      ChildrenFirst(s, d);
      GoneBelow(s, s.objects[d].owner.value, r);
    }
  }

  lemma IdBound(m: map<Id, Object>) returns (bound: nat)
    ensures forall k :: k in m ==> k < bound
    decreases |m|
  {
    if m == map[] {
      bound := 0;
    } else {
      var k :| k in m;
      var b := IdBound(m - {k});
      bound := if b > k then b else k + 1;
      assert forall j :: j in m ==> j == k || j in m - {k};
    }
  }

  /**
   * No stuck shutdown: in every state of every run, once termination of r has begun
   * and nothing is left to happen in the tree under r, all of that tree is gone.
   */
  lemma NoStuckShutdown(states: seq<State>, events: seq<Event>, i: nat, r: Id)
    requires IsRun(states, events) && i < |states|
    requires r in states[i].objects && states[i].objects[r].terminating && IdleUnder(states[i], r)
    ensures forall o :: o in states[i].objects && Under(states[i], o, r) ==> states[i].objects[o].destroyed
  {
    var s := states[i];
    RunKeepsInv(states, events, i);
    var bound := IdBound(s.objects);
    TerminatingIsGone(s, r, bound);
    forall o | o in s.objects && Under(s, o, r) ensures s.objects[o].destroyed {
      GoneBelow(s, o, r);
    }
  }

  // ----- The objects that run are the objects of the protocol ---------------------------------

  /**
   * In every state of every run, taking the next command of a thread is what the
   * receiving object's own process_command does, and its preconditions hold.
   */
  lemma DeliveryIsHandled(states: seq<State>, events: seq<Event>, i: nat, t: Tid, ch: Choice)
    requires IsRun(states, events) && i < |states|
    requires Box(states[i], t) != [] && t !in states[i].launching
    ensures var s := states[i];
            var c := Box(s, t)[0];
            && Alive(s, c.dst)
            && var x := s.objects[c.dst];
               && (x.terminating ==> x.owned == {})
               && (c.Term? ==> !x.terminating && !x.deferred)
               && (c.TermAck? ==> x.termAcks > 0)
               && (MayHandle(x, c, ch) ==> Step(s, Deliver(t, ch)) == Next(Apply(Pop(s, t), c.dst, Handle(x, c, ch))))
  {
    var s := states[i];
    var c := Box(s, t)[0];
    RunKeepsInv(states, events, i);
    TargetsAlive(s, t, 0);
    SafeAt(s, t, 0);
    FlagsOk(s, c.dst);
    assert BoxOk(s, t, Box(s, t)) && CommandOk(s, t, Box(s, t), 0);
    if MayHandle(s.objects[c.dst], c, ch) {
      if c.Own? { ChildrenFirst(s, c.child); }
      if c.Term? && !ch.defer { OwnedKnown(s, c.dst, ch.order); }
      DispatchIsHandle(Pop(s, t), c, ch);
    }
  }
}
