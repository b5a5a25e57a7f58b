/**
 * Two runs of the ownership protocol that show what rests on the order of commands.  After the
 * first, if the last command overtook the one before it, a request would be left in flight to an
 * object that is gone.  In the second, a request is sent before launch_child is done and is lost.
 */
module OwnershipOrder {
  import opened Common
  import opened OwnershipProtocol

  // A parent 0 on thread 0 and its child 1 on thread 1.
  const P0 := Fresh(0, 0, None, 0, 0)
  const C0 := Fresh(1, 0, Some(0), 1, 0)
  const P1 := P0.(sent := 1)
  const P2 := P1.(processed := 1, owned := {1})
  const P3 := P2.(owned := {}, termAcks := 1, terminating := true)
  const C1 := C0.(processed := 1)
  const C2 := C1.(asked := true)
  const C3 := C2.(terminating := true, destroyed := true)

  const NO_CHOICE := Choice(0, false, false, [])

  const S1 := State(map[0 := P0], map[], map[])
  const S2 := State(map[0 := P0, 1 := C0], map[1 := [Plug(1)]], map[0 := Launch(0, 1)])
  const S3 := State(map[0 := P1, 1 := C0], map[0 := [Own(0, 1)], 1 := [Plug(1)]], map[])
  const S4 := State(map[0 := P1, 1 := C1], map[0 := [Own(0, 1)], 1 := []], map[])
  const S5 := State(map[0 := P2, 1 := C1], map[0 := [], 1 := []], map[])
  const S6 := State(map[0 := P2, 1 := C1], map[0 := [TermReq(0, 1)], 1 := []], map[])
  const S7 := State(map[0 := P3, 1 := C2], map[0 := [TermReq(0, 1)], 1 := [Term(1, 0)]], map[])
  const S8 := State(map[0 := P3, 1 := C3], map[0 := [TermReq(0, 1), TermAck(0)], 1 := []], map[])

  const STATES := [START, S1, S2, S3, S4, S5, S6, S7, S8]
  const EVENTS := [CreateRoot(0, 0, 0), LaunchPlug(0, 1, 1, 0, 0), LaunchOwn(0), Deliver(1, NO_CHOICE),
                   Deliver(0, NO_CHOICE),
                   Terminate(1, 0, []), Terminate(0, 0, [1]), Deliver(1, NO_CHOICE)]

  lemma Appended(q: seq<Command>, c: Command)
    ensures |q| == 0 ==> q + [c] == [c]
    ensures |q| == 1 ==> q + [c] == [q[0], c]
  {
  }

  lemma Created()
    ensures Step(START, EVENTS[0]) == Next(S1)
  {
  }

  lemma PlugSent()
    ensures Step(S1, EVENTS[1]) == Next(S2)
  {
    assert S1.objects[1 := C0] == S2.objects;
    assert S1.launching[0 := Launch(0, 1)] == S2.launching;
    Appended([], Plug(1));
    assert S1.mailboxes[1 := [] + [Plug(1)]] == S2.mailboxes;
  }

  lemma OwnSent()
    ensures Step(S2, EVENTS[2]) == Next(S3)
  {
    assert S2.objects[0 := P1] == S3.objects;
    assert S2.launching - {0} == S3.launching;
    Appended([], Own(0, 1));
    assert S2.mailboxes[0 := [] + [Own(0, 1)]] == S3.mailboxes;
  }

  lemma Plugged()
    ensures Step(S3, EVENTS[3]) == Next(S4)
  {
    assert Box(S3, 1)[1..] == [];
    var s := State(map[0 := P1, 1 := C0], map[0 := [Own(0, 1)], 1 := []], map[]);
    assert SeqnumStep(s, 1) == S4;
  }

  /** Sending one command to a mailbox. */
  lemma OneSent(s: State, c: Command, r: State)
    requires r == PostOne(s, c)
    ensures PostAll(s, [c]) == r
  {
    assert [c][1..] == [];
  }

  lemma Owned()
    ensures Step(S4, EVENTS[4]) == Next(S5)
  {
    assert Box(S4, 0)[1..] == [];
    var s := State(map[0 := P1, 1 := C1], map[0 := [], 1 := []], map[]);
    assert s.mailboxes == S4.mailboxes[0 := []];
    var t := State(map[0 := P1.(owned := {1}), 1 := C1], map[0 := [], 1 := []], map[]);
    assert P1.owned + {1} == {1};
    assert t.objects == s.objects[0 := P1.(owned := {1})];
    assert Apply(s, 0, ProcessOwn(P1, 1)) == t;
    assert t.objects[0 := P2] == S5.objects;
    assert SeqnumStep(t, 0) == S5;
  }

  lemma Requested()
    ensures Step(S5, EVENTS[5]) == Next(S6)
  {
    Appended([], TermReq(0, 1));
    assert S5.mailboxes[0 := [] + [TermReq(0, 1)]] == S6.mailboxes;
  }

  lemma Asked()
    ensures Step(S6, EVENTS[6]) == Next(S7)
  {
    assert Enumerates([1], P2.owned);
    var e := BeginTerm(P2, 0, 0, [1]);
    assert e.sends == [Term(1, 0)] && e.obj == P3;
    var s := State(map[0 := P3, 1 := C1], map[0 := [TermReq(0, 1)], 1 := []], map[]);
    assert s.objects == S6.objects[0 := P3];
    Appended([], Term(1, 0));
    assert s.objects[1 := C2] == S7.objects && s.mailboxes[1 := [] + [Term(1, 0)]] == S7.mailboxes;
    OneSent(s, Term(1, 0), S7);
    assert Apply(S6, 0, e) == S7;
    assert S7.objects[0 := P3] == S7.objects;
  }

  // The child takes the command off its mailbox.
  const T7 := State(map[0 := P3, 1 := C2], map[0 := [TermReq(0, 1)], 1 := []], map[])

  lemma Answered()
    ensures Step(S7, EVENTS[7]) == Next(S8)
  {
    assert Box(S7, 1)[1..] == [];
    assert S7.mailboxes[1 := []] == T7.mailboxes;
    Taken(S7, T7, Term(1, 0));
    Terminated();
    Dispatched(T7, C2);
  }

  lemma Taken(s: State, t: State, c: Command)
    requires Box(s, 1) != [] && Box(s, 1)[0] == c && Box(s, 1)[1..] == [] && s.launching == map[]
    requires t == s.(mailboxes := s.mailboxes[1 := []])
    ensures Step(s, Deliver(1, NO_CHOICE)) == Dispatch(t, c, NO_CHOICE)
  {
  }

  lemma Dispatched(t: State, x: Object)
    requires 1 in t.objects && t.objects[1] == x && !x.destroyed && !x.deferred
    ensures Dispatch(t, Term(1, 0), NO_CHOICE) == RunTerm(t, 1, 0, 0, [])
  {
  }

  lemma Terminated()
    ensures RunTerm(T7, 1, 0, 0, []) == Next(S8)
  {
    var e := BeginTerm(C2, 0, 0, []);
    assert e.sends == [] && Enumerates([], C2.owned);
    var t := State(map[0 := P3, 1 := e.obj], map[0 := [TermReq(0, 1)], 1 := []], map[]);
    assert t.objects == T7.objects[1 := e.obj];
    assert Apply(T7, 1, e) == t;
    Acked(t, e.obj);
  }

  lemma Acked(t: State, x: Object)
    requires x == C2.(terminating := true)
    requires t == State(map[0 := P3, 1 := x], map[0 := [TermReq(0, 1)], 1 := []], map[])
    ensures Checked(t, 1) == S8
  {
    assert CheckTermAcks(x) == Effect(C3, [TermAck(0)]);
    var u := State(map[0 := P3, 1 := C3], map[0 := [TermReq(0, 1)], 1 := []], map[]);
    assert u.objects == t.objects[1 := C3];
    Appended([TermReq(0, 1)], TermAck(0));
    assert u.mailboxes[0 := [TermReq(0, 1)] + [TermAck(0)]] == S8.mailboxes;
    OneSent(u, TermAck(0), S8);
  }

  /**
   * The states and events are a run.  After it, the parent's mailbox holds the child's request
   * and then its ack.  Were the ack taken first, the parent would be gone with the request
   * still on its way to it.
   */
  lemma OvertakenRequest()
    ensures IsRun(STATES, EVENTS)
    ensures var s := STATES[|EVENTS|];
            var r := Dispatch(s.(mailboxes := s.mailboxes[0 := [Box(s, 0)[0]]]), Box(s, 0)[1], NO_CHOICE);
            && Box(s, 0) == [TermReq(0, 1), TermAck(0)]
            && r.Next? && !Alive(r.state, 0) && Box(r.state, 0) == [TermReq(0, 1)]
  {
    forall i: nat | i < |EVENTS| ensures StepAt(STATES, EVENTS, i) { Stepped(i); }
    AckFirst();
  }

  lemma Stepped(i: nat)
    requires i < |EVENTS|
    ensures StepAt(STATES, EVENTS, i)
  {
    if i == 0 { Created(); }
    else if i == 1 { PlugSent(); }
    else if i == 2 { OwnSent(); }
    else if i == 3 { Plugged(); }
    else if i == 4 { Owned(); }
    else if i == 5 { Requested(); }
    else if i == 6 { Asked(); }
    else { Answered(); }
  }

  lemma AckFirst()
    ensures var r := Dispatch(S8.(mailboxes := S8.mailboxes[0 := [Box(S8, 0)[0]]]), Box(S8, 0)[1], NO_CHOICE);
            r.Next? && !Alive(r.state, 0) && Box(r.state, 0) == [TermReq(0, 1)]
  {
  }

  // ----- A request that is lost ------------------------------------------------------------------------

  // The child is plugged and terminates itself while the parent is still inside launch_child.
  const L3 := State(map[0 := P0, 1 := C1], map[1 := []], map[0 := Launch(0, 1)])
  const L4 := State(map[0 := P0, 1 := C1], map[0 := [TermReq(0, 1)], 1 := []], map[0 := Launch(0, 1)])
  const L5 := State(map[0 := P1, 1 := C1], map[0 := [TermReq(0, 1), Own(0, 1)], 1 := []], map[])

  const LOST_STATES := [START, S1, S2, L3, L4, L5, S4, S5]
  const LOST_EVENTS := [CreateRoot(0, 0, 0), LaunchPlug(0, 1, 1, 0, 0), Deliver(1, NO_CHOICE), Terminate(1, 0, []),
                        LaunchOwn(0), Deliver(0, NO_CHOICE), Deliver(0, NO_CHOICE)]

  lemma PluggedEarly()
    ensures Step(S2, LOST_EVENTS[2]) == Next(L3)
  {
    assert Box(S2, 1)[1..] == [];
    var s := State(map[0 := P0, 1 := C0], map[1 := []], map[0 := Launch(0, 1)]);
    assert s.mailboxes == S2.mailboxes[1 := []];
    assert SeqnumStep(s, 1) == L3;
  }

  lemma RequestedEarly()
    ensures Step(L3, LOST_EVENTS[3]) == Next(L4)
  {
    Appended([], TermReq(0, 1));
    assert L3.mailboxes[0 := [] + [TermReq(0, 1)]] == L4.mailboxes;
  }

  lemma OwnSentLate()
    ensures Step(L4, LOST_EVENTS[4]) == Next(L5)
  {
    assert L4.objects[0 := P1] == L5.objects;
    assert L4.launching - {0} == L5.launching;
    Appended([TermReq(0, 1)], Own(0, 1));
    assert L4.mailboxes[0 := [TermReq(0, 1)] + [Own(0, 1)]] == L5.mailboxes;
  }

  lemma Ignored()
    ensures Step(L5, LOST_EVENTS[5]) == Next(S4)
  {
    assert Box(L5, 0)[1..] == [Own(0, 1)];
    assert L5.mailboxes[0 := [Own(0, 1)]] == S4.mailboxes;
    assert ProcessTermReq(P1, 1) == Effect(P1, []);
    assert S4.objects[0 := P1] == S4.objects;
  }

  /**
   * The states and events are a run in which object 1 terminates itself.  After it nothing is in
   * flight and nobody launches, and object 1 was not asked to terminate: its owner owns it and lives on.
   */
  lemma LostRequest()
    ensures IsRun(LOST_STATES, LOST_EVENTS) && LOST_EVENTS[3] == Terminate(1, 0, [])
    ensures var s := LOST_STATES[|LOST_EVENTS|];
            && (forall t :: Box(s, t) == []) && s.launching == map[]
            && Alive(s, 0) && Alive(s, 1) && s.objects[0].owned == {1}
            && !s.objects[1].asked && !s.objects[1].terminating && !s.objects[0].terminating
  {
    forall i: nat | i < |LOST_EVENTS| ensures StepAt(LOST_STATES, LOST_EVENTS, i) { SteppedEarly(i); }
  }

  lemma SteppedEarly(i: nat)
    requires i < |LOST_EVENTS|
    ensures StepAt(LOST_STATES, LOST_EVENTS, i)
  {
    if i == 0 { Created(); }
    else if i == 1 { PlugSent(); }
    else if i == 2 { PluggedEarly(); }
    else if i == 3 { RequestedEarly(); }
    else if i == 4 { OwnSentLate(); }
    else if i == 5 { Ignored(); }
    else { Owned(); }
  }
}
