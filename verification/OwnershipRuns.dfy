/**
 * Safety over whole runs of the ownership protocol, and the absence of a stuck shutdown.
 */
module OwnershipRuns {
  import opened Common
  import opened OwnershipProtocol
  import opened OwnershipSafety
  import opened OwnershipSteps

  // ----- Consequences of the invariant ---------------------------------------------

  /** A parent is gone only after all its children. */
  lemma ChildrenFirst(s: State, c: Id)
    requires Inv(s) && c in s.objects && s.objects[c].owner.Some?
    ensures s.objects[c].owner.value in s.objects && s.objects[c].owner.value < c
    ensures s.objects[s.objects[c].owner.value].destroyed ==> s.objects[c].destroyed
  {
    var b := BooksOf(s);
    assert PhaseOk(b, c);
    var o := s.objects[c].owner.value;
    assert AccountsOk(b, o) && LifeOk(s.objects[o]);
    assert LaunchOk(s, s.objects[o].tid);
    if s.objects[o].destroyed && !s.objects[c].destroyed {
      NoOwnInFlight(s, o, c);
      assert false;
    }
  }

  lemma NoOwnInFlight(s: State, o: Id, c: Id)
    requires BoxesOk(s) && o in s.objects && c in s.objects && s.objects[c].owner == Some(o)
    requires InFlight(s, CountedTo(o)) == 0
    ensures InFlight(s, OwnOf(c)) == 0
  {
    var t := s.objects[o].tid;
    var q := Box(s, t);
    if Count(q, OwnOf(c)) > 0 {
      var i := CountWitness(q, OwnOf(c));
      assert BoxOk(s, t, Box(s, t)) && CommandOk(s, t, q, i);
      CountPositive(q, CountedTo(o), i);
    }
  }

  /** No command is in flight to an object that is gone. */
  lemma TargetsAlive(s: State, t: Tid, i: nat)
    requires Inv(s) && i < |Box(s, t)|
    ensures Alive(s, Box(s, t)[i].dst) && s.objects[Box(s, t)[i].dst].tid == t
  {
    var q := Box(s, t);
    var c := q[i];
    assert BoxOk(s, t, Box(s, t)) && CommandOk(s, t, q, i);
    var o := c.dst;
    var b := BooksOf(s);
    assert PhaseOk(b, o) && AccountsOk(b, o) && LifeOk(s.objects[o]);
    if s.objects[o].destroyed {
      if Counted(c) {
        CountPositive(q, CountedTo(o), i);
      } else if c.Term? {
        CountPositive(q, TermTo(o), i);
      } else if c.TermAck? {
        CountPositive(q, AckTo(o), i);
      } else {
        ChildrenFirst(s, c.child);
        var j :| i + 1 <= j < |q| && q[j] == TermAck(o);
        CountPositive(q, AckTo(o), j);
      }
      assert false;
    }
  }

  /** Whoever is above a living object is alive. */
  lemma {:induction false} AncestorsAlive(s: State, d: Id, a: Id)
    requires Inv(s) && Alive(s, d) && Under(s, d, a)
    ensures Alive(s, a)
    decreases d
  {
    if d != a {
      ChildrenFirst(s, d);
      AncestorsAlive(s, s.objects[d].owner.value, a);
    }
  }

  // ----- Delivering a command --------------------------------------------------------

  lemma FlagsOk(s: State, o: Id)
    requires Inv(s) && o in s.objects
    ensures s.objects[o].owner.None? ==> !s.objects[o].deferred && !s.objects[o].asked
    ensures s.objects[o].terminating ==> s.objects[o].owned == {}
    ensures s.objects[o].terminating ==> !s.objects[o].deferred
  {
    assert PhaseOk(BooksOf(s), o) && AccountsOk(BooksOf(s), o);
  }

  /** Taking a command changes o alone and leaves its check_term_acks to be done. */
  lemma TakeCommand(s: State, t: Tid, o: Id, y: Object)
    requires Inv(s) && Box(s, t) != [] && t !in s.launching && Alive(s, o) && s.objects[o].tid == t
    requires Balanced(o, s.objects[o], y, None, Some(Box(s, t)[0]))
    ensures InvBut(PopSet(s, t, o, y), o)
  {
    PopSetCore(s, t, o, y);
    LivesBut(s, PopSet(s, t, o, y), o);
  }

  lemma LivesBut(s: State, r: State, o: Id)
    requires LivesOk(s, {o}) && r.objects.Keys == s.objects.Keys
    requires forall k :: k in s.objects && k != o ==> r.objects[k].(asked := s.objects[k].asked) == s.objects[k]
    ensures LivesOk(r, {o})
  {
    forall k | k in r.objects && k != o ensures LifeOk(r.objects[k]) {
      assert LifeOk(s.objects[k]);
    }
  }

  lemma LivesAll(s: State, o: Id)
    requires LivesOk(s, {o}) && (o in s.objects ==> LifeOk(s.objects[o]))
    ensures LivesOk(s, {})
  {
  }

  lemma DeliverCounted(s: State, t: Tid, acks: nat)
    requires Inv(s) && Box(s, t) != [] && t !in s.launching
    requires Counted(Box(s, t)[0]) && !Box(s, t)[0].Own?
    ensures var o := Box(s, t)[0].dst;
            Alive(s, o) && Inv(SeqnumStep(SetObject(Pop(s, t), o, WithAcks(s.objects[o], acks)), o))
  {
    TargetsAlive(s, t, 0);
    var o := Box(s, t)[0].dst;
    var y := CountCommand(WithAcks(s.objects[o], acks));
    FlagsOk(s, o);
    TakeCommand(s, t, o, y);
    CheckedKeepsInv(PopSet(s, t, o, y), o);
    assert SetObject(SetObject(Pop(s, t), o, WithAcks(s.objects[o], acks)), o, y) == PopSet(s, t, o, y);
  }

  lemma DeliverOwn(s: State, t: Tid)
    requires Inv(s) && Box(s, t) != [] && t !in s.launching && Box(s, t)[0].Own?
    ensures var c := Box(s, t)[0];
            Alive(s, c.dst) && Inv(SeqnumStep(Apply(Pop(s, t), c.dst, ProcessOwn(s.objects[c.dst], c.child)), c.dst))
  {
    TargetsAlive(s, t, 0);
    var c := Box(s, t)[0];
    assert BoxOk(s, t, Box(s, t)) && CommandOk(s, t, Box(s, t), 0);
    if s.objects[c.dst].terminating {
      DeliverOwnLate(s, t, c.dst, c.child);
    } else {
      DeliverOwnInTime(s, t, c.dst, c.child);
    }
  }

  lemma DeliverOwnInTime(s: State, t: Tid, o: Id, c: Id)
    requires Inv(s) && Box(s, t) != [] && t !in s.launching && Box(s, t)[0] == Own(o, c)
    requires Alive(s, o) && s.objects[o].tid == t && !s.objects[o].terminating
    requires c in s.objects && s.objects[c].owner == Some(o)
    ensures Inv(SeqnumStep(Apply(Pop(s, t), o, ProcessOwn(s.objects[o], c)), o))
  {
    var m := PopSet(s, t, o, Adopted(s.objects[o], c));
    AdoptCore(s, t, o, c);
    LivesBut(s, m, o);
    CheckedKeepsInv(m, o);
    assert SetObject(Apply(Pop(s, t), o, ProcessOwn(s.objects[o], c)), o, Adopted(s.objects[o], c)) == m;
  }

  lemma DeliverOwnLate(s: State, t: Tid, o: Id, c: Id)
    requires Inv(s) && Box(s, t) != [] && t !in s.launching && Box(s, t)[0] == Own(o, c)
    requires Alive(s, o) && s.objects[o].tid == t && s.objects[o].terminating
    requires c in s.objects && s.objects[c].owner == Some(o)
    ensures Inv(SeqnumStep(Apply(Pop(s, t), o, ProcessOwn(s.objects[o], c)), o))
  {
    OwnInFlightAskable(s, t, o, c);
    AdoptAndAskCore(s, t, o, c);
    var m := AdoptAndAsk(s, t, o, c);
    LivesBut(s, m, o);
    CheckedKeepsInv(m, o);
    AdoptAndAskIs(s, t, o, c);
  }

  lemma OwnInFlightAskable(s: State, t: Tid, o: Id, c: Id)
    requires Inv(s) && Box(s, t) != [] && Box(s, t)[0] == Own(o, c) && o in s.objects && s.objects[o].tid == t
    requires c in s.objects && s.objects[c].owner == Some(o)
    ensures Askable(s, o, c)
  {
    CountPositive(Box(s, t), OwnOf(c), 0);
    assert PhaseOk(BooksOf(s), c) && LifeOk(s.objects[c]);
    UnaskedAlive(s, c);
  }

  lemma AdoptAndAskIs(s: State, t: Tid, o: Id, c: Id)
    requires Box(s, t) != [] && o in s.objects && s.objects[o].terminating && c in s.objects && o != c
    ensures var m := Apply(Pop(s, t), o, ProcessOwn(s.objects[o], c));
            o in m.objects && SetObject(m, o, CountCommand(m.objects[o])) == AdoptAndAsk(s, t, o, c)
  {
    var x := s.objects[o];
    var e := ProcessOwn(x, c);
    var m := Apply(Pop(s, t), o, e);
    assert e.sends[1..] == [];
    var m1 := SetObject(Pop(s, t), o, e.obj);
    assert PostAll(m1, e.sends) == PostAll(PostOne(m1, Term(c, 0)), []);
  }

  lemma DeliverTermReq(s: State, t: Tid)
    requires Inv(s) && Box(s, t) != [] && t !in s.launching && Box(s, t)[0].TermReq?
    ensures var c := Box(s, t)[0];
            Alive(s, c.dst) && Inv(Apply(Pop(s, t), c.dst, ProcessTermReq(s.objects[c.dst], c.child)))
  {
    var c := Box(s, t)[0];
    DeliverUncounted(s, t);
    TermReqKeepsInv(Pop(s, t), c.dst, c.child);
  }

  lemma DeliverUncounted(s: State, t: Tid)
    requires Inv(s) && Box(s, t) != [] && t !in s.launching
    requires Box(s, t)[0].TermReq? || Box(s, t)[0].TermEndpoint?
    ensures Free(s, Box(s, t)[0].dst) && Inv(Pop(s, t))
  {
    TargetsAlive(s, t, 0);
    var o := Box(s, t)[0].dst;
    FlagsOk(s, o);
    TakeCommand(s, t, o, s.objects[o]);
    assert PopSet(s, t, o, s.objects[o]) == Pop(s, t);
    assert LifeOk(s.objects[o]);
    LivesAll(Pop(s, t), o);
  }

  /** process_term_req, also called directly as term_child. */
  lemma TermReqKeepsInv(s: State, o: Id, c: Id)
    requires Inv(s) && Free(s, o)
    ensures Inv(Apply(s, o, ProcessTermReq(s.objects[o], c)))
  {
    var x := s.objects[o];
    if x.terminating || c !in x.owned {
      assert Apply(s, o, ProcessTermReq(x, c)) == s;
    } else {
      OwnedAskable(s, o, c);
      AskKeepsInv(s, o, c, x.linger);
      AskIs(s, o, c, x.linger);
    }
  }

  lemma AskKeepsInv(s: State, o: Id, c: Id, linger: int)
    requires Inv(s) && Free(s, o) && !s.objects[o].terminating && c in s.objects[o].owned && Askable(s, o, c)
    ensures Inv(Ask(s, o, Asking(s.objects[o], c), c, linger))
    ensures Free(Ask(s, o, Asking(s.objects[o], c), c, linger), o)
  {
    var r := Ask(s, o, Asking(s.objects[o], c), c, linger);
    AskCore(s, o, c, linger);
    LivesBut(s, r, o);
    LivesAll(r, o);
  }

  lemma AskIs(s: State, o: Id, c: Id, linger: int)
    requires o in s.objects && c in s.objects && o != c
    ensures Apply(s, o, Effect(Asking(s.objects[o], c), [Term(c, linger)]))
            == Ask(s, o, Asking(s.objects[o], c), c, linger)
  {
    var m := SetObject(s, o, Asking(s.objects[o], c));
    var cs := [Term(c, linger)];
    assert cs[1..] == [];
    assert PostAll(m, cs) == PostAll(PostOne(m, cs[0]), []);
  }

  lemma DeliverAck(s: State, t: Tid)
    requires Inv(s) && Box(s, t) != [] && t !in s.launching && Box(s, t)[0].TermAck?
    ensures var o := Box(s, t)[0].dst;
            Alive(s, o) && s.objects[o].termAcks > 0 && Inv(Checked(SetObject(Pop(s, t), o, DropAck(s.objects[o])), o))
  {
    TargetsAlive(s, t, 0);
    var o := Box(s, t)[0].dst;
    AckExpected(s, t);
    FlagsOk(s, o);
    TakeCommand(s, t, o, DropAck(s.objects[o]));
    CheckedKeepsInv(PopSet(s, t, o, DropAck(s.objects[o])), o);
  }

  /** An ack never arrives when none is expected. */
  lemma AckExpected(s: State, t: Tid)
    requires Inv(s) && Box(s, t) != [] && Box(s, t)[0].TermAck?
    ensures Box(s, t)[0].dst in s.objects && s.objects[Box(s, t)[0].dst].termAcks > 0
  {
    TargetsAlive(s, t, 0);
    var o := Box(s, t)[0].dst;
    CountPositive(Box(s, t), AckTo(o), 0);
    assert AccountsOk(BooksOf(s), o);
  }

  /** A term command finds its target neither terminating nor already holding one. */
  lemma TermExpected(s: State, t: Tid, i: nat)
    requires Inv(s) && i < |Box(s, t)| && Box(s, t)[i].Term?
    ensures var o := Box(s, t)[i].dst;
            o in s.objects && !s.objects[o].terminating && !s.objects[o].deferred && s.objects[o].owner.Some?
  {
    TargetsAlive(s, t, i);
    var o := Box(s, t)[i].dst;
    CountPositive(Box(s, t), TermTo(o), i);
    assert AccountsOk(BooksOf(s), o) && PhaseOk(BooksOf(s), o);
  }

  lemma DeferKeepsInv(s: State, t: Tid)
    requires Inv(s) && Box(s, t) != [] && t !in s.launching && Box(s, t)[0].Term?
    ensures var o := Box(s, t)[0].dst;
            Alive(s, o) && Inv(PopSet(s, t, o, s.objects[o].(deferred := true)))
  {
    TargetsAlive(s, t, 0);
    TermExpected(s, t, 0);
    var o := Box(s, t)[0].dst;
    var y := s.objects[o].(deferred := true);
    TakeCommand(s, t, o, y);
    assert LifeOk(s.objects[o]);
    LivesAll(PopSet(s, t, o, y), o);
  }

  // ----- process_term ------------------------------------------------------------------

  /** The walk of process_term over its owned objects, one at a time. */
  ghost function AskAll(s: State, o: Id, order: seq<Id>, linger: int): State
    decreases |order|
  {
    if order == [] || o !in s.objects then s
    else AskAll(Ask(s, o, Asking(s.objects[o], order[0]), order[0], linger), o, order[1..], linger)
  }

  lemma {:induction false} AskAllKeepsInv(s: State, o: Id, order: seq<Id>, linger: int)
    requires Inv(s) && Free(s, o) && !s.objects[o].terminating && Enumerates(order, s.objects[o].owned)
    ensures Inv(AskAll(s, o, order, linger)) && Free(AskAll(s, o, order, linger), o)
    ensures AskAll(s, o, order, linger).objects[o]
            == s.objects[o].(owned := {}, termAcks := s.objects[o].termAcks + |order|)
    decreases |order|
  {
    if order == [] {
      assert s.objects[o].owned == {};
    } else {
      var c := order[0];
      assert c in s.objects[o].owned;
      OwnedAskable(s, o, c);
      AskKeepsInv(s, o, c, linger);
      EnumeratesRest(order, s.objects[o].owned);
      AskAllKeepsInv(Ask(s, o, Asking(s.objects[o], c), c, linger), o, order[1..], linger);
    }
  }

  lemma EnumeratesRest(order: seq<Id>, s: set<Id>)
    requires Enumerates(order, s) && order != []
    ensures Enumerates(order[1..], s - {order[0]})
  {
    var rest := order[1..];
    assert forall i :: 0 <= i < |rest| ==> rest[i] == order[i + 1];
    assert forall c :: c in order ==> c == order[0] || c in rest;
  }

  /** Replacing o after the walk is the same as replacing it before. */
  lemma {:induction false} AskAllIs(s: State, o: Id, order: seq<Id>, linger: int, y: Object)
    requires SamePlace(s, o, y) && o !in order && (forall c :: c in order ==> c in s.objects)
    ensures SetObject(AskAll(s, o, order, linger), o, y) == PostAll(SetObject(s, o, y), TermAll(order, linger))
    decreases |order|
  {
    if order != [] {
      var c := order[0];
      var m := Ask(s, o, Asking(s.objects[o], c), c, linger);
      assert SetObject(m, o, y) == PostOne(SetObject(s, o, y), Term(c, linger));
      assert TermAll(order, linger)[1..] == TermAll(order[1..], linger);
      AskAllIs(m, o, order[1..], linger, y);
    }
  }

  lemma RunTermKeepsInv(s: State, o: Id, linger: int, extra: nat, order: seq<Id>)
    requires Inv(s) && Free(s, o) && !s.objects[o].terminating && Enumerates(order, s.objects[o].owned)
    requires s.objects[o].deferred || s.objects[o].owner.None?
    ensures Inv(Checked(Apply(s, o, BeginTerm(s.objects[o], linger, extra, order)), o))
  {
    var m := AskAll(s, o, order, linger);
    var y := BeginTerm(s.objects[o], linger, extra, order).obj;
    AskAllKeepsInv(s, o, order, linger);
    StartTermCore(m, o, y, extra);
    CheckedKeepsInv(SetObject(m, o, y), o);
    OwnedKnown(s, o, order);
    AskAllIs(s, o, order, linger, y);
  }

  lemma StartTermCore(m: State, o: Id, y: Object, extra: nat)
    requires Inv(m) && Free(m, o) && !m.objects[o].terminating && m.objects[o].owned == {}
    requires m.objects[o].deferred || m.objects[o].owner.None?
    requires y == WithAcks(m.objects[o], extra).(terminating := true, deferred := false)
    ensures InvBut(SetObject(m, o, y), o)
  {
    FlagsOk(m, o);
    SetCore(m, o, y);
    LivesBut(m, SetObject(m, o, y), o);
  }

  lemma OwnedKnown(s: State, o: Id, order: seq<Id>)
    requires Inv(s) && o in s.objects && Enumerates(order, s.objects[o].owned)
    ensures o !in order && forall c :: c in order ==> c in s.objects
  {
    assert AccountsOk(BooksOf(s), o) && PhaseOk(BooksOf(s), o);
    forall c | c in order ensures c in s.objects && c != o {
      assert c in s.objects[o].owned;
    }
  }

  lemma DeliverTermNow(s: State, t: Tid, linger: int, extra: nat, order: seq<Id>)
    requires Inv(s) && Box(s, t) != [] && t !in s.launching && Box(s, t)[0].Term?
    requires Alive(s, Box(s, t)[0].dst) && Enumerates(order, s.objects[Box(s, t)[0].dst].owned)
    ensures var o := Box(s, t)[0].dst;
            Inv(Checked(Apply(Pop(s, t), o, BeginTerm(s.objects[o], linger, extra, order)), o))
  {
    TargetsAlive(s, t, 0);
    TermExpected(s, t, 0);
    DeferKeepsInv(s, t);
    var o := Box(s, t)[0].dst;
    var m := PopSet(s, t, o, s.objects[o].(deferred := true));
    RunTermKeepsInv(m, o, linger, extra, order);
    BeginTermAfterDefer(Pop(s, t), o, linger, extra, order);
  }

  /** Passing a term command on at once is taking it and passing it on later. */
  lemma BeginTermAfterDefer(s: State, o: Id, linger: int, extra: nat, order: seq<Id>)
    requires o in s.objects
    ensures var x := s.objects[o];
            var d := x.(deferred := true);
            Apply(SetObject(s, o, d), o, BeginTerm(d, linger, extra, order))
                == Apply(s, o, BeginTerm(x, linger, extra, order))
  {
    var x := s.objects[o];
    var d := x.(deferred := true);
    var e := BeginTerm(x, linger, extra, order);
    assert BeginTerm(d, linger, extra, order) == e;
    assert s.objects[o := d][o := e.obj] == s.objects[o := e.obj];
  }

  lemma DeliverTerm(s: State, t: Tid, ch: Choice)
    requires Inv(s) && Box(s, t) != [] && t !in s.launching && Box(s, t)[0].Term?
    ensures Dispatch(Pop(s, t), Box(s, t)[0], ch) != Aborted
    ensures Dispatch(Pop(s, t), Box(s, t)[0], ch).Next? ==> Inv(Dispatch(Pop(s, t), Box(s, t)[0], ch).state)
  {
    var c := Box(s, t)[0];
    TargetsAlive(s, t, 0);
    TermExpected(s, t, 0);
    if ch.defer {
      DeferKeepsInv(s, t);
    } else if Enumerates(ch.order, s.objects[c.dst].owned) {
      DeliverTermNow(s, t, if ch.zeroLinger then 0 else c.linger, ch.acks, ch.order);
    }
  }

  lemma DeliverKeepsInv(s: State, t: Tid, ch: Choice)
    requires Inv(s)
    ensures Step(s, Deliver(t, ch)) != Aborted
    ensures Step(s, Deliver(t, ch)).Next? ==> Inv(Step(s, Deliver(t, ch)).state)
  {
    if t !in s.launching && Box(s, t) != [] {
      match Box(s, t)[0] {
        case Plug(o) => DeliverPlain(s, t);
        case InprocConnected(o) => DeliverPlain(s, t);
        case Attach(_) => DeliverCounted(s, t, ch.acks);
        case Bind(_) => DeliverCounted(s, t, ch.acks);
        case Own(_, _) => DeliverOwn(s, t);
        case TermReq(_, _) => DeliverTermReq(s, t);
        case Term(_, _) => DeliverTerm(s, t, ch);
        case TermAck(_) => DeliverAck(s, t);
        case TermEndpoint(_, _) => DeliverUncounted(s, t);
      }
    }
  }

  lemma DeliverPlain(s: State, t: Tid)
    requires Inv(s) && Box(s, t) != [] && t !in s.launching
    requires Counted(Box(s, t)[0]) && !Box(s, t)[0].Own?
    ensures var o := Box(s, t)[0].dst; Alive(s, o) && Inv(SeqnumStep(Pop(s, t), o))
  {
    DeliverCounted(s, t, 0);
    var o := Box(s, t)[0].dst;
    assert SetObject(Pop(s, t), o, WithAcks(s.objects[o], 0)) == Pop(s, t);
  }

  // ----- Events that deliver nothing ------------------------------------------------------

  lemma TerminateKeepsInv(s: State, o: Id, extra: nat, order: seq<Id>)
    requires Inv(s)
    ensures Step(s, Terminate(o, extra, order)) != Aborted
    ensures Step(s, Terminate(o, extra, order)).Next? ==> Inv(Step(s, Terminate(o, extra, order)).state)
  {
    if Free(s, o) && !s.objects[o].terminating {
      var x := s.objects[o];
      if x.owner.Some? {
        ChildrenFirst(s, o);
        PostUpKeepsInv(s, TermReq(x.owner.value, o));
      } else if Enumerates(order, x.owned) {
        RunTermKeepsInv(s, o, x.linger, extra, order);
      }
    }
  }

  /** A living child may send its parent a command that nobody counts. */
  lemma PostUpKeepsInv(s: State, c: Command)
    requires Inv(s) && (c.TermReq? || c.TermEndpoint?) && WellAddressed(s, c) && Alive(s, c.child)
    ensures Inv(Post(s, c))
  {
    FlagsOk(s, c.dst);
    SetPostCore(s, c.dst, s.objects[c.dst], c);
    assert SetPost(s, c.dst, s.objects[c.dst], c) == Post(s, c);
    LivesBut(s, Post(s, c), c.dst);
    assert LifeOk(s.objects[c.dst]);
    LivesAll(Post(s, c), c.dst);
  }

  lemma TermEndpointKeepsInv(s: State, d: Id, via: Id)
    requires Inv(s)
    ensures Step(s, SendTermEndpoint(d, via)) != Aborted
    ensures Step(s, SendTermEndpoint(d, via)).Next? ==> Inv(Step(s, SendTermEndpoint(d, via)).state)
  {
    if Free(s, d) && Under(s, d, via) && via in s.objects && s.objects[via].owner.Some? {
      AncestorsAlive(s, d, via);
      ChildrenFirst(s, via);
      PostUpKeepsInv(s, TermEndpoint(s.objects[via].owner.value, via));
    }
  }

  lemma IncSeqnumKeepsInv(s: State, o: Id)
    requires Inv(s) && Alive(s, o)
    ensures Inv(Step(s, IncSeqnum(o)).state)
  {
    var y := Reserving(s.objects[o]);
    ReservingKeepsInv(s, o);
    assert Step(s, IncSeqnum(o)) == Next(SetObject(s, o, y));
  }

  /** One more command will be sent to the object, and it waits for it. */
  function Reserving(x: Object): Object {
    x.(sent := x.sent + 1, reserved := x.reserved + 1)
  }

  lemma ReservingKeepsInv(s: State, o: Id)
    requires Inv(s) && Alive(s, o)
    ensures Inv(SetObject(s, o, Reserving(s.objects[o])))
  {
    var y := Reserving(s.objects[o]);
    FlagsOk(s, o);
    SetCore(s, o, y);
    LivesBut(s, SetObject(s, o, y), o);
    assert LifeOk(s.objects[o]);
    assert AccountsOk(BooksOf(s), o);
    LivesAll(SetObject(s, o, y), o);
  }

  lemma SendReservedKeepsInv(s: State, c: Command)
    requires Inv(s) && SentLater(c) && c.dst in s.objects && s.objects[c.dst].reserved > 0
    ensures Inv(Step(s, SendReserved(c)).state)
  {
    var x := s.objects[c.dst];
    var y := x.(reserved := x.reserved - 1);
    FlagsOk(s, c.dst);
    SetPostCore(s, c.dst, y, c);
    LivesBut(s, SetPost(s, c.dst, y, c), c.dst);
    assert LifeOk(s.objects[c.dst]);
    LivesAll(SetPost(s, c.dst, y, c), c.dst);
  }

  /** Whoever holds an inc_seqnum or a registered ack keeps the object alive. */
  lemma HeldAlive(s: State, o: Id)
    requires Inv(s) && o in s.objects
             && (s.objects[o].reserved > 0 || s.objects[o].external > 0 || s.objects[o].deferred)
    ensures Alive(s, o) && (s.objects[o].external > 0 ==> s.objects[o].termAcks > 0)
  {
    FlagsOk(s, o);
    assert AccountsOk(BooksOf(s), o) && LifeOk(s.objects[o]);
  }

  /** A handler that needs no command: counters of o change, then check_term_acks runs. */
  lemma LocalKeepsInv(s: State, o: Id, y: Object)
    requires Inv(s) && Free(s, o) && Balanced(o, s.objects[o], y, None, None)
    ensures Inv(Checked(SetObject(s, o, y), o))
  {
    SetCore(s, o, y);
    LivesBut(s, SetObject(s, o, y), o);
    CheckedKeepsInv(SetObject(s, o, y), o);
  }

  lemma ProcessReservedKeepsInv(s: State, o: Id, acks: nat)
    requires Inv(s) && o in s.objects && s.objects[o].reserved > 0 && s.objects[o].tid !in s.launching
    ensures Step(s, ProcessReserved(o, acks)).Next? && Inv(Step(s, ProcessReserved(o, acks)).state)
  {
    HeldAlive(s, o);
    FlagsOk(s, o);
    var x := s.objects[o];
    var z := WithAcks(x.(reserved := x.reserved - 1), acks);
    LocalKeepsInv(s, o, CountCommand(z));
    assert SetObject(SetObject(s, o, z), o, CountCommand(z)) == SetObject(s, o, CountCommand(z));
  }

  lemma UnregisterKeepsInv(s: State, o: Id)
    requires Inv(s) && o in s.objects && s.objects[o].external > 0 && s.objects[o].tid !in s.launching
    ensures Step(s, UnregisterAck(o)).Next? && Inv(Step(s, UnregisterAck(o)).state)
  {
    HeldAlive(s, o);
    FlagsOk(s, o);
    LocalKeepsInv(s, o, DropAck(s.objects[o].(external := s.objects[o].external - 1)));
  }

  lemma RegisterKeepsInv(s: State, o: Id, acks: nat)
    requires Inv(s) && Free(s, o)
    ensures Inv(SetObject(s, o, WithAcks(s.objects[o], acks)))
  {
    var r := SetObject(s, o, WithAcks(s.objects[o], acks));
    FlagsOk(s, o);
    SetCore(s, o, WithAcks(s.objects[o], acks));
    LivesBut(s, r, o);
    assert LifeOk(s.objects[o]);
    LivesAll(r, o);
  }

  lemma ResumeKeepsInv(s: State, o: Id, extra: nat, order: seq<Id>)
    requires Inv(s) && o in s.objects && s.objects[o].deferred && s.objects[o].tid !in s.launching
    ensures Step(s, ResumeTerm(o, extra, order)) != Aborted
    ensures Step(s, ResumeTerm(o, extra, order)).Next? ==> Inv(Step(s, ResumeTerm(o, extra, order)).state)
  {
    HeldAlive(s, o);
    FlagsOk(s, o);
    if Enumerates(order, s.objects[o].owned) {
      RunTermKeepsInv(s, o, 0, extra, order);
    }
  }

  // ----- New objects ---------------------------------------------------------------------

  /** Nothing in flight, and nobody, knows an object that is still to be made. */
  lemma NewCounts(s: State, o: Id, x: Object)
    requires BoxesOk(s) && NewId(s, o) && (x.owner.Some? ==> x.owner.value in s.objects)
    requires forall c :: c in s.objects && s.objects[c].owner.Some? ==> s.objects[c].owner.value in s.objects
    ensures forall p :: InFlight(SetObject(s, o, x), p) == InFlight(s, p)
  {
    var r := SetObject(s, o, x);
    forall p ensures InFlight(r, p) == InFlight(s, p) {
      if p.o == o {
        match Home(r, p)
        case None =>
        case Some(t) => NoneInFlight(s, t, p);
      } else {
        assert Home(r, p) == Home(s, p);
      }
    }
  }

  lemma NoneInFlight(s: State, t: Tid, p: Pattern)
    requires BoxesOk(s) && p.o !in s.objects
    ensures Count(Box(s, t), p) == 0
  {
    var q := Box(s, t);
    assert BoxOk(s, t, Box(s, t));
    forall i | 0 <= i < |q| ensures !Matches(q[i], p) {
      assert CommandOk(s, t, q, i);
    }
    CountZero(q, p);
  }

  lemma NewRest(s: State, o: Id, x: Object)
    requires RestOk(s) && NewId(s, o)
    ensures RestOk(SetObject(s, o, x))
  {
    var r := SetObject(s, o, x);
    forall t ensures BoxOk(r, t, Box(r, t)) {
      assert BoxOk(s, t, Box(s, t));
      forall i | 0 <= i < |Box(r, t)| ensures CommandOk(r, t, Box(r, t), i) {
        assert CommandOk(s, t, Box(s, t), i);
      }
    }
    KeepLaunches(s, r);
  }

  lemma NewRel(s: State, o: Id, x: Object)
    requires BoxesOk(s) && NewId(s, o) && (x.owner.Some? ==> x.owner.value in s.objects) && !x.asked
    requires BooksOk(BooksOf(s))
    ensures Moved(BooksOf(s), BooksOf(SetObject(s, o, x)), None, None, None, None)
  {
    OwnersKnown(s);
    NewCounts(s, o, x);
    assert forall k: Id :: AskedKids(SetObject(s, o, x), k) == AskedKids(s, k);
  }

  lemma NewAccounts(s: State, o: Id)
    requires BooksOk(BooksOf(s)) && NewId(s, o)
    ensures forall p: Pattern :: p.o == o ==> InFlight(s, p) == 0
    ensures AskedKids(s, o) == {}
  {
    OwnersKnown(s);
  }

  lemma OwnersKnown(s: State)
    requires BooksOk(BooksOf(s))
    ensures forall c :: c in s.objects && s.objects[c].owner.Some? ==> s.objects[c].owner.value in s.objects
  {
    forall c | c in s.objects && s.objects[c].owner.Some? ensures s.objects[c].owner.value in s.objects {
      assert PhaseOk(BooksOf(s), c);
    }
  }

  lemma RootBooks(b: Books, b': Books, o: Id, tid: Tid, linger: int)
    requires BooksOk(b) && o !in b.objects && b'.launching == b.launching
    requires b'.objects == b.objects[o := Fresh(tid, linger, None, 0, 0)]
    requires Moved(b, b', None, None, None, None)
    requires b.waitingFor(o) == 0 && forall p: Pattern :: p.o == o ==> b.inFlight(p) == 0
    ensures BooksOk(b')
  {
    forall k | k in b'.objects ensures PhaseOk(b', k) && AccountsOk(b', k) {
      if k != o { assert PhaseOk(b, k) && AccountsOk(b, k); }
    }
  }

  lemma CreateRootKeepsInv(s: State, o: Id, tid: Tid, linger: int)
    requires Inv(s) && NewId(s, o)
    ensures Inv(SetObject(s, o, Fresh(tid, linger, None, 0, 0)))
  {
    var r := SetObject(s, o, Fresh(tid, linger, None, 0, 0));
    NewRel(s, o, r.objects[o]);
    NewAccounts(s, o);
    RootBooks(BooksOf(s), BooksOf(r), o, tid, linger);
    NewRest(s, o, r.objects[o]);
    forall k | k in r.objects ensures LifeOk(r.objects[k]) {
      if k != o { assert LifeOk(s.objects[k]); }
    }
  }

  // ----- launch_child ---------------------------------------------------------------------

  ghost function Relaunch(s: State, launching: map<Tid, Launch>): State {
    s.(launching := launching)
  }

  lemma RelaunchRel(b: Books, m: State, launching: map<Tid, Launch>, post: Option<Command>)
    requires Moved(b, BooksOf(m), post, None, None, None)
    ensures Moved(b, BooksOf(Relaunch(m, launching)), post, None, None, None)
  {
    var r := Relaunch(m, launching);
    assert forall k: Id :: AskedKids(r, k) == AskedKids(m, k);
    forall p ensures InFlight(r, p) == InFlight(m, p) {
      assert Home(r, p) == Home(m, p);
    }
  }

  lemma PostAfter(b: Books, m: State, c: Command)
    requires Moved(b, BooksOf(m), None, None, None, None) && WellAddressed(m, c)
    ensures Moved(b, BooksOf(Post(m, c)), Some(c), None, None, None)
  {
    PostCounts(m, c);
    assert forall k: Id :: AskedKids(Post(m, c), k) == AskedKids(m, k);
  }

  lemma RelaunchBoxes(s: State, launching: map<Tid, Launch>)
    requires BoxesOk(s)
    ensures BoxesOk(Relaunch(s, launching))
  {
    var r := Relaunch(s, launching);
    forall t ensures BoxOk(r, t, Box(r, t)) {
      assert BoxOk(s, t, Box(s, t));
      forall i | 0 <= i < |Box(r, t)| ensures CommandOk(r, t, Box(r, t), i) {
        assert CommandOk(s, t, Box(s, t), i);
      }
    }
  }

  /** The state after set_owner and send_plug. */
  ghost function Plugged(s: State, p: Id, c: Id, tid: Tid, linger: int, reserve: nat): State
    requires p in s.objects
  {
    var m := SetObject(s, c, Fresh(tid, linger, Some(p), 1 + reserve, reserve));
    Relaunch(Post(m, Plug(c)), s.launching[s.objects[p].tid := Launch(p, c)])
  }

  lemma PlugBooks(b: Books, b': Books, p: Id, c: Id, tid: Tid, linger: int, reserve: nat)
    requires BooksOk(b) && p in b.objects && p < c && c !in b.objects && b.objects[p].tid !in b.launching
    requires b'.launching == b.launching[b.objects[p].tid := Launch(p, c)]
    requires b'.objects == b.objects[c := Fresh(tid, linger, Some(p), 1 + reserve, reserve)]
    requires Moved(b, b', Some(Plug(c)), None, None, None)
    requires b.waitingFor(c) == 0 && forall q: Pattern :: q.o == c ==> b.inFlight(q) == 0
    ensures BooksOk(b')
  {
    assert AccountsOk(b, p);
    forall k | k in b'.objects ensures PhaseOk(b', k) && AccountsOk(b', k) {
      if k != c { assert PhaseOk(b, k) && AccountsOk(b, k); }
    }
  }

  lemma PluggedRest(s: State, p: Id, c: Id, tid: Tid, linger: int, reserve: nat)
    requires RestOk(s) && BooksOk(BooksOf(s)) && Free(s, p) && NewId(s, c)
    ensures RestOk(Plugged(s, p, c, tid, linger, reserve))
  {
    var m := SetObject(s, c, Fresh(tid, linger, Some(p), 1 + reserve, reserve));
    var r := Plugged(s, p, c, tid, linger, reserve);
    NewRest(s, c, m.objects[c]);
    NoneInFlight(s, tid, TermTo(c));
    PostBoxes(m, Plug(c));
    RelaunchBoxes(Post(m, Plug(c)), r.launching);
    forall t ensures LaunchOk(r, t) {
      assert LaunchOk(s, t);
    }
  }

  lemma PluggedBooks(s: State, p: Id, c: Id, tid: Tid, linger: int, reserve: nat)
    requires BoxesOk(s) && BooksOk(BooksOf(s)) && Free(s, p) && NewId(s, c)
    ensures BooksOk(BooksOf(Plugged(s, p, c, tid, linger, reserve)))
  {
    var m := SetObject(s, c, Fresh(tid, linger, Some(p), 1 + reserve, reserve));
    var r := Plugged(s, p, c, tid, linger, reserve);
    NewRel(s, c, m.objects[c]);
    PostAfter(BooksOf(s), m, Plug(c));
    RelaunchRel(BooksOf(s), Post(m, Plug(c)), r.launching, Some(Plug(c)));
    NewAccounts(s, c);
    PlugBooks(BooksOf(s), BooksOf(r), p, c, tid, linger, reserve);
  }

  lemma LaunchPlugKeepsInv(s: State, p: Id, c: Id, tid: Tid, linger: int, reserve: nat)
    requires Inv(s) && Free(s, p) && NewId(s, c)
    ensures Step(s, LaunchPlug(p, c, tid, linger, reserve)) == Next(Plugged(s, p, c, tid, linger, reserve))
    ensures Inv(Plugged(s, p, c, tid, linger, reserve))
  {
    var r := Plugged(s, p, c, tid, linger, reserve);
    PluggedRest(s, p, c, tid, linger, reserve);
    PluggedBooks(s, p, c, tid, linger, reserve);
    forall k | k in r.objects ensures LifeOk(r.objects[k]) {
      if k != c { assert LifeOk(s.objects[k]); }
    }
  }

  /** The state after the send_own that ends launch_child. */
  ghost function OwnSent(s: State, t: Tid): State
    requires t in s.launching && s.launching[t].parent in s.objects
  {
    var Launch(p, c) := s.launching[t];
    Relaunch(SetPost(s, p, s.objects[p].(sent := s.objects[p].sent + 1), Own(p, c)), s.launching - {t})
  }

  lemma OwnSentBooks(b: Books, b': Books, t: Tid, p: Id, c: Id)
    requires BooksOk(b) && p in b.objects && c in b.objects && b.objects[c].owner == Some(p)
    requires t in b.launching && b.launching[t] == Launch(p, c) && b.objects[p].tid == t
    requires b'.launching == b.launching - {t}
    requires b'.objects == b.objects[p := b.objects[p].(sent := b.objects[p].sent + 1)]
    requires Moved(b, b', Some(Own(p, c)), None, None, None)
    ensures BooksOk(b')
  {
    forall k | k in b'.objects ensures PhaseOk(b', k) && AccountsOk(b', k) {
      assert PhaseOk(b, k) && AccountsOk(b, k);
    }
  }

  lemma OwnSentRest(s: State, t: Tid)
    requires RestOk(s) && t in s.launching
    ensures LaunchOk(s, t) && RestOk(OwnSent(s, t))
  {
    assert LaunchOk(s, t);
    var Launch(p, c) := s.launching[t];
    var y := s.objects[p].(sent := s.objects[p].sent + 1);
    SetPostRest(s, p, y, Own(p, c));
    RelaunchBoxes(SetPost(s, p, y, Own(p, c)), s.launching - {t});
    forall u ensures LaunchOk(OwnSent(s, t), u) {
      assert LaunchOk(s, u);
    }
  }

  lemma LaunchOwnKeepsInv(s: State, t: Tid)
    requires Inv(s) && t in s.launching
    ensures LaunchOk(s, t) && Step(s, LaunchOwn(t)) == Next(OwnSent(s, t)) && Inv(OwnSent(s, t))
  {
    OwnSentRest(s, t);
    var Launch(p, c) := s.launching[t];
    var y := s.objects[p].(sent := s.objects[p].sent + 1);
    SetPostRel(s, p, y, Own(p, c));
    RelaunchRel(BooksOf(s), SetPost(s, p, y, Own(p, c)), s.launching - {t}, Some(Own(p, c)));
    OwnSentBooks(BooksOf(s), BooksOf(OwnSent(s, t)), t, p, c);
    LivesBut(s, OwnSent(s, t), p);
    SentMoreLives(s, p);
    LivesAll(OwnSent(s, t), p);
  }

  /** A living object stays alive, and in order, when one more command is sent to it. */
  lemma SentMoreLives(s: State, p: Id)
    requires Inv(s) && Alive(s, p)
    ensures LifeOk(s.objects[p].(sent := s.objects[p].sent + 1))
  {
    assert LifeOk(s.objects[p]) && AccountsOk(BooksOf(s), p);
  }
}
