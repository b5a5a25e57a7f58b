/**
 * What each event of the ownership protocol does, said of the objects and mailboxes it changes and
 * not of the handler: who is asked to terminate, with which linger, and who waits for an ack.
 */
module OwnershipEffects {
  import opened Common
  import opened OwnershipProtocol
  import opened OwnershipSafety
  import opened OwnershipRuns
  import opened OwnershipTheorems

  // ----- Mailboxes ------------------------------------------------------------------------------------

  /** Exactly this command was added, at the end of the mailbox of its target's thread. */
  ghost predicate Added(s: State, r: State, c: Command) {
    && c.dst in s.objects
    && forall t {:trigger Box(r, t)} :: Box(r, t) == Box(s, t) + if t == s.objects[c.dst].tid then [c] else []
  }

  /** Mailboxes only grow. */
  ghost predicate Grown(s: State, r: State) {
    forall t {:trigger Box(r, t)} :: Box(s, t) <= Box(r, t)
  }

  lemma AddedByPost(s: State, c: Command)
    requires c.dst in s.objects
    ensures Added(s, Post(s, c), c) && Added(s, PostOne(s, c), c)
  {
  }

  lemma {:induction false} PostAllGrows(s: State, cs: seq<Command>)
    ensures Grown(s, PostAll(s, cs))
    decreases |cs|
  {
    if cs != [] {
      var r := PostOne(s, cs[0]);
      PostAllGrows(r, cs[1..]);
      forall t ensures Box(s, t) <= Box(PostAll(s, cs), t) { assert Box(s, t) <= Box(r, t); }
    }
  }

  /** What is posted is there. */
  lemma {:induction false} PostAllArrives(s: State, cs: seq<Command>, i: nat)
    requires i < |cs| && cs[i].dst in s.objects
    ensures cs[i] in Box(PostAll(s, cs), s.objects[cs[i].dst].tid)
    ensures cs[i].Term? ==> PostAll(s, cs).objects[cs[i].dst].asked
    decreases |cs|
  {
    var r := PostOne(s, cs[0]);
    if i == 0 {
      PostAllGrows(r, cs[1..]);
      assert cs[0] in Box(r, s.objects[cs[0].dst].tid);
      PostAllAsked(r, cs[1..], cs[0].dst);
    } else {
      PostAllArrives(r, cs[1..], i - 1);
    }
  }

  /** Who was asked to terminate stays asked. */
  lemma {:induction false} PostAllAsked(s: State, cs: seq<Command>, o: Id)
    requires o in s.objects
    ensures s.objects[o].asked ==> PostAll(s, cs).objects[o].asked
    decreases |cs|
  {
    if cs != [] { PostAllAsked(PostOne(s, cs[0]), cs[1..], o); }
  }

  // ----- Requests to terminate ----------------------------------------------------------------------------

  /** A child that is owned was not asked to terminate and has not begun to. */
  lemma OwnedIsQuiet(s: State, o: Id, c: Id)
    requires Inv(s) && o in s.objects && c in s.objects[o].owned
    ensures c in s.objects && c > o && s.objects[c].owner == Some(o)
    ensures !s.objects[c].asked && !s.objects[c].terminating && !s.objects[c].deferred
  {
    assert AccountsOk(BooksOf(s), o) && PhaseOk(BooksOf(s), c) && AccountsOk(BooksOf(s), c);
  }

  /** The object does not own c any more and waits for one more ack. */
  function Without(x: Object, c: Id): Object {
    x.(owned := x.owned - {c}, termAcks := x.termAcks + 1)
  }

  /**
   * Object o has asked child c to terminate, with this linger: c was told so, by exactly one term
   * command in flight; o does not own it any more and waits for one more ack; nothing else changed.
   */
  ghost predicate AsksChild(s: State, r: State, o: Id, c: Id, linger: int) {
    && o in s.objects && c in s.objects && o != c && r.launching == s.launching
    && r.objects == s.objects[o := Without(s.objects[o], c)][c := s.objects[c].(asked := true)]
    && Added(s, r, Term(c, linger)) && InFlight(r, TermTo(c)) == 1
  }

  /** A handler of o that asks an owned child. */
  lemma ChildIsAsked(s: State, m: State, o: Id, c: Id)
    requires Inv(s) && o in s.objects && c in s.objects[o].owned && !s.objects[o].terminating
    requires m.objects == s.objects
    requires Inv(Apply(m, o, ProcessTermReq(m.objects[o], c)))
    ensures AsksChild(m, Apply(m, o, ProcessTermReq(m.objects[o], c)), o, c, s.objects[o].linger)
  {
    OwnedIsQuiet(s, o, c);
    TermPosted(m, o, c);
    assert AccountsOk(BooksOf(Apply(m, o, ProcessTermReq(m.objects[o], c))), c);
  }

  lemma TermPosted(m: State, o: Id, c: Id)
    requires o in m.objects && c in m.objects && o != c && c in m.objects[o].owned && !m.objects[o].terminating
    ensures var r := Apply(m, o, ProcessTermReq(m.objects[o], c));
            && r.launching == m.launching && Added(m, r, Term(c, m.objects[o].linger))
            && r.objects == m.objects[o := Without(m.objects[o], c)][c := m.objects[c].(asked := true)]
  {
    var e := ProcessTermReq(m.objects[o], c);
    var n, d := SetObject(m, o, e.obj), Term(c, m.objects[o].linger);
    assert e.sends == [d] && [d][1..] == [];
    assert PostAll(n, [d]) == PostOne(n, d);
    AddedByPost(n, d);
    forall t ensures Box(n, t) == Box(m, t) { }
  }

  /**
   * A request of a child to be terminated arrives: if it is owned, it is asked to terminate with the
   * linger of its owner; otherwise nothing happens.
   */
  lemma RequestHandled(s: State, t: Tid, ch: Choice)
    requires Inv(s) && Box(s, t) != [] && Box(s, t)[0].TermReq? && t !in s.launching
    ensures var o, c, out := Box(s, t)[0].dst, Box(s, t)[0].child, Step(s, Deliver(t, ch));
            && out.Next? && o in s.objects
            && (c in s.objects[o].owned ==> AsksChild(Pop(s, t), out.state, o, c, s.objects[o].linger))
            && (c !in s.objects[o].owned ==> out.state == Pop(s, t))
  {
    TargetsAlive(s, t, 0);
    StepKeepsInv(s, Deliver(t, ch));
    AskedOrNot(s, Pop(s, t), Box(s, t)[0].dst, Box(s, t)[0].child);
  }

  lemma AskedOrNot(s: State, m: State, o: Id, c: Id)
    requires Inv(s) && o in s.objects && m.objects == s.objects
    requires Inv(Apply(m, o, ProcessTermReq(m.objects[o], c)))
    ensures var r := Apply(m, o, ProcessTermReq(m.objects[o], c));
            && (c in s.objects[o].owned ==> AsksChild(m, r, o, c, s.objects[o].linger))
            && (c !in s.objects[o].owned ==> r == m)
  {
    assert AccountsOk(BooksOf(s), o);
    if c in s.objects[o].owned { ChildIsAsked(s, m, o, c); } else { Unchanged(m, o); }
  }

  lemma Unchanged(s: State, o: Id)
    requires o in s.objects
    ensures Apply(s, o, Effect(s.objects[o], [])) == s
  {
    assert s.objects[o := s.objects[o]] == s.objects;
  }

  /** The owner itself terminates a child. */
  lemma TermChildHandled(s: State, o: Id, c: Id)
    requires Inv(s) && Free(s, o)
    ensures var out := Step(s, TermChild(o, c));
            && out.Next?
            && (c in s.objects[o].owned ==> AsksChild(s, out.state, o, c, s.objects[o].linger))
            && (c !in s.objects[o].owned ==> out.state == s)
  {
    StepKeepsInv(s, TermChild(o, c));
    AskedOrNot(s, s, o, c);
  }

  // ----- Termination ------------------------------------------------------------------------------------

  /**
   * Object o has begun to terminate: every child it owned was told so, with this linger and by exactly
   * one term command in flight, and as many acks more are awaited.
   */
  ghost predicate Begins(s: State, r: State, o: Id, linger: int, extra: nat) {
    && o in s.objects && o in r.objects && r.objects.Keys == s.objects.Keys
    && r.objects[o].terminating && r.objects[o].owned == {}
    && r.objects[o].termAcks == s.objects[o].termAcks + extra + |s.objects[o].owned|
    && Grown(s, r) && forall c {:trigger TermSent(s, r, o, c, linger)} :: TermSent(s, r, o, c, linger)
  }

  ghost predicate TermSent(s: State, r: State, o: Id, c: Id, linger: int)
    requires o in s.objects
  {
    c in s.objects[o].owned && c in s.objects ==>
      && c in r.objects && r.objects[c] == s.objects[c].(asked := true) && InFlight(r, TermTo(c)) == 1
      && Term(c, linger) in Box(r, s.objects[c].tid)
  }

  lemma {:induction false} EnumeratesCount(order: seq<Id>, ids: set<Id>)
    requires Enumerates(order, ids)
    ensures |order| == |ids|
    decreases |order|
  {
    if order == [] {
      assert ids == {};
    } else {
      var rest, k := order[..|order| - 1], order[|order| - 1];
      assert forall i :: 0 <= i < |rest| ==> rest[i] == order[i] != k;
      assert (set i | i in rest) == ids - {k} by {
        assert forall x :: x in order <==> x in rest || x == k;
        assert (set i | i in order) == ids;
      }
      EnumeratesCount(rest, ids - {k});
      assert k in (set i | i in order);
    }
  }

  /** Child c, which was x, is told to terminate. */
  ghost predicate Told(r: State, c: Id, x: Object, linger: int) {
    c in r.objects && r.objects[c] == x.(asked := true) && Term(c, linger) in Box(r, x.tid)
  }

  lemma TermAllTells(n: State, order: seq<Id>, linger: int, c: Id)
    requires c in n.objects && c in order
    ensures Told(PostAll(n, TermAll(order, linger)), c, n.objects[c], linger)
  {
    var i :| 0 <= i < |order| && order[i] == c;
    var cs := TermAll(order, linger);
    assert cs[i] == Term(c, linger);
    PostAllArrives(n, cs, i);
  }

  /** The check at the end of a handler does not take that back. */
  lemma CheckedKeepsTold(p: State, o: Id, c: Id, x: Object, linger: int)
    requires o in p.objects && c != o && Told(p, c, x, linger)
    ensures Told(Checked(p, o), c, x, linger)
  {
    var f := CheckTermAcks(p.objects[o]);
    var q := SetObject(p, o, f.obj);
    PostAllAsked(q, f.sends, c);
    PostAllGrows(q, f.sends);
    assert Box(q, x.tid) <= Box(PostAll(q, f.sends), x.tid);
  }

  lemma CheckedGrows(p: State, o: Id)
    requires o in p.objects
    ensures Grown(p, Checked(p, o)) && o in Checked(p, o).objects && Checked(p, o).objects.Keys == p.objects.Keys
    ensures var x, y := p.objects[o], Checked(p, o).objects[o];
            y.terminating == x.terminating && y.owned == x.owned && y.termAcks == x.termAcks
  {
    var f := CheckTermAcks(p.objects[o]);
    var q := SetObject(p, o, f.obj);
    PostAllGrows(q, f.sends);
    forall t ensures Box(p, t) <= Box(Checked(p, o), t) { assert Box(q, t) == Box(p, t); }
  }

  lemma RunTermTells(s: State, m: State, o: Id, linger: int, extra: nat, order: seq<Id>, c: Id)
    requires Inv(s) && Alive(s, o) && m.objects == s.objects && c in s.objects[o].owned
    requires RunTerm(m, o, linger, extra, order).Next? && Inv(RunTerm(m, o, linger, extra, order).state)
    ensures TermSent(m, RunTerm(m, o, linger, extra, order).state, o, c, linger)
  {
    OwnedIsQuiet(s, o, c);
    var e := BeginTerm(m.objects[o], linger, extra, order);
    assert c in (set i | i in order);
    TermAllTells(SetObject(m, o, e.obj), order, linger, c);
    CheckedKeepsTold(Apply(m, o, e), o, c, m.objects[c], linger);
    var r := RunTerm(m, o, linger, extra, order).state;
    assert AccountsOk(BooksOf(r), c);
  }

  lemma RunTermBegins(s: State, m: State, o: Id, linger: int, extra: nat, order: seq<Id>)
    requires Inv(s) && Alive(s, o) && m.objects == s.objects
    requires RunTerm(m, o, linger, extra, order).Next? && Inv(RunTerm(m, o, linger, extra, order).state)
    ensures Begins(m, RunTerm(m, o, linger, extra, order).state, o, linger, extra)
  {
    var r := RunTerm(m, o, linger, extra, order).state;
    EnumeratesCount(order, s.objects[o].owned);
    AppliedGrows(m, o, BeginTerm(m.objects[o], linger, extra, order));
    forall c ensures TermSent(m, r, o, c, linger) {
      if c in s.objects[o].owned { RunTermTells(s, m, o, linger, extra, order, c); }
    }
  }

  lemma AppliedGrows(m: State, o: Id, e: Effect)
    requires o in m.objects
    ensures o in Apply(m, o, e).objects && Grown(m, Checked(Apply(m, o, e), o))
    ensures var r := Checked(Apply(m, o, e), o);
            && o in r.objects && r.objects.Keys == m.objects.Keys && r.objects[o].terminating == e.obj.terminating
            && r.objects[o].owned == e.obj.owned && r.objects[o].termAcks == e.obj.termAcks
  {
    var n, p := SetObject(m, o, e.obj), Apply(m, o, e);
    PostAllGrows(n, e.sends);
    CheckedGrows(p, o);
    forall t ensures Box(m, t) <= Box(Checked(p, o), t) { assert Box(n, t) <= Box(p, t) <= Box(Checked(p, o), t); }
  }

  /** A term command arrives: the object begins to terminate, or puts it off. */
  lemma TermHandled(s: State, t: Tid, ch: Choice)
    requires Inv(s) && Box(s, t) != [] && Box(s, t)[0].Term? && Step(s, Deliver(t, ch)).Next?
    ensures var d, r := Box(s, t)[0], Step(s, Deliver(t, ch)).state;
            && d.dst in s.objects
            && (!ch.defer ==> Begins(Pop(s, t), r, d.dst, if ch.zeroLinger then 0 else d.linger, ch.acks))
            && (ch.defer ==> r == SetObject(Pop(s, t), d.dst, s.objects[d.dst].(deferred := true)))
  {
    var d := Box(s, t)[0];
    TargetsAlive(s, t, 0);
    TermExpected(s, t, 0);
    StepKeepsInv(s, Deliver(t, ch));
    if !ch.defer { RunTermBegins(s, Pop(s, t), d.dst, if ch.zeroLinger then 0 else d.linger, ch.acks, ch.order); }
  }

  /** A root begins to terminate, any other object asks its owner, and one that terminates does nothing. */
  lemma TerminateHandled(s: State, o: Id, extra: nat, order: seq<Id>)
    requires Inv(s) && Step(s, Terminate(o, extra, order)).Next?
    ensures var r := Step(s, Terminate(o, extra, order)).state;
            && o in s.objects
            && (s.objects[o].terminating ==> r == s)
            && (!s.objects[o].terminating && s.objects[o].owner.None? ==> Begins(s, r, o, s.objects[o].linger, extra))
            && (!s.objects[o].terminating && s.objects[o].owner.Some? ==>
                  && r.objects == s.objects && r.launching == s.launching
                  && Added(s, r, TermReq(s.objects[o].owner.value, o)))
  {
    StepKeepsInv(s, Terminate(o, extra, order));
    assert PhaseOk(BooksOf(s), o);
    if !s.objects[o].terminating && s.objects[o].owner.None? {
      RunTermBegins(s, s, o, s.objects[o].linger, extra, order);
    }
  }

  /** A termination that was put off goes on, without linger. */
  lemma ResumeHandled(s: State, o: Id, extra: nat, order: seq<Id>)
    requires Inv(s) && Step(s, ResumeTerm(o, extra, order)).Next?
    ensures Begins(s, Step(s, ResumeTerm(o, extra, order)).state, o, 0, extra)
  {
    StepKeepsInv(s, ResumeTerm(o, extra, order));
    RunTermBegins(s, s, o, 0, extra, order);
  }

  /**
   * In every run, when the request of child c to its owner o is delivered: if o owns c, and so does
   * not terminate, c was asked, exactly one term command with o's linger is in c's mailbox and o waits
   * for one more ack; otherwise only the request is gone.
   */
  lemma RequestsAreHeard(states: seq<State>, events: seq<Event>, i: nat)
    requires IsRun(states, events) && i < |events| && events[i].Deliver?
    requires Box(states[i], events[i].thread) != [] && Box(states[i], events[i].thread)[0].TermReq?
    ensures var s, r, t := states[i], states[i + 1], events[i].thread;
            var o, c := Box(s, t)[0].dst, Box(s, t)[0].child;
            && o in s.objects && o in r.objects && c in r.objects && c in s.objects
            && (c in s.objects[o].owned ==>
                  && !s.objects[o].terminating && r.objects[c].asked && r.objects[o].owned == s.objects[o].owned - {c}
                  && Term(c, s.objects[o].linger) in Box(r, s.objects[c].tid) && InFlight(r, TermTo(c)) == 1
                  && r.objects[o].termAcks == s.objects[o].termAcks + 1)
            && (c !in s.objects[o].owned ==> r == Pop(s, t))
  {
    var s, r, e := states[i], states[i + 1], events[i];
    RunKeepsInv(states, events, i);
    assert StepAt(states, events, i);
    RequestHandled(s, e.thread, e.choice);
    var q := Box(s, e.thread);
    assert BoxOk(s, e.thread, q) && CommandOk(s, e.thread, q, 0);
    FlagsOk(s, q[0].dst);
  }

  // ----- Adoption -----------------------------------------------------------------------------------------

  /** A new child arrives: it is owned, or asked at once, without linger, if its owner terminates already. */
  lemma OwnHandled(s: State, t: Tid, ch: Choice)
    requires Inv(s) && Box(s, t) != [] && Box(s, t)[0].Own? && t !in s.launching
    ensures var o, c, out := Box(s, t)[0].dst, Box(s, t)[0].child, Step(s, Deliver(t, ch));
            && out.Next? && o in s.objects && c in s.objects && o in out.state.objects && c in out.state.objects
            && (!s.objects[o].terminating ==>
                  && out.state.objects[o].owned == s.objects[o].owned + {c} && out.state.objects[c] == s.objects[c]
                  && out.state.objects[o].termAcks == s.objects[o].termAcks)
            && (s.objects[o].terminating ==>
                  && out.state.objects[c] == s.objects[c].(asked := true) && InFlight(out.state, TermTo(c)) == 1
                  && Term(c, 0) in Box(out.state, s.objects[c].tid)
                  && out.state.objects[o].termAcks == s.objects[o].termAcks + 1)
  {
    var o, c := Box(s, t)[0].dst, Box(s, t)[0].child;
    TargetsAlive(s, t, 0);
    StepKeepsInv(s, Deliver(t, ch));
    OwnIsComing(s, t);
    OwnTaken(s, Pop(s, t), o, c, Step(s, Deliver(t, ch)).state);
  }

  lemma OwnIsComing(s: State, t: Tid)
    requires Inv(s) && Box(s, t) != [] && Box(s, t)[0].Own?
    ensures var o, c := Box(s, t)[0].dst, Box(s, t)[0].child;
            && o in s.objects && c in s.objects && o != c && s.objects[c].owner == Some(o) && c !in s.objects[o].owned
            && !s.objects[c].asked && !s.objects[c].terminating && !s.objects[c].deferred
  {
    var o, c := Box(s, t)[0].dst, Box(s, t)[0].child;
    assert BoxOk(s, t, Box(s, t)) && CommandOk(s, t, Box(s, t), 0);
    CountPositive(Box(s, t), OwnOf(c), 0);
    assert PhaseOk(BooksOf(s), c) && AccountsOk(BooksOf(s), c);
  }

  lemma OwnTaken(s: State, m: State, o: Id, c: Id, r: State)
    requires Alive(m, o) && c in m.objects && o != c && Inv(r) && m.objects == s.objects
    requires m.objects[c].owner == Some(o) && !m.objects[c].terminating && !m.objects[c].deferred
    requires r == SeqnumStep(Apply(m, o, ProcessOwn(m.objects[o], c)), o)
    ensures o in r.objects && c in r.objects
    ensures !s.objects[o].terminating ==>
              && r.objects[o].owned == s.objects[o].owned + {c} && r.objects[c] == s.objects[c]
              && r.objects[o].termAcks == s.objects[o].termAcks
    ensures s.objects[o].terminating ==>
              && r.objects[c] == s.objects[c].(asked := true) && InFlight(r, TermTo(c)) == 1
              && Term(c, 0) in Box(r, s.objects[c].tid) && r.objects[o].termAcks == s.objects[o].termAcks + 1
  {
    var e := ProcessOwn(m.objects[o], c);
    var n := SetObject(m, o, e.obj);
    var p := PostAll(n, e.sends);
    var q := SetObject(p, o, CountCommand(p.objects[o]));
    if s.objects[o].terminating {
      PostAllArrives(n, e.sends, 0);
      assert CheckTermAcks(q.objects[o]).sends == [];
      assert AccountsOk(BooksOf(r), c);
    }
  }

  // ----- Counting -------------------------------------------------------------------------------------------

  /** A terminating object for which nothing is in flight, promised or awaited. */
  predicate Finished(x: Object) {
    x.terminating && x.processed == x.sent && x.termAcks == 0
  }

  /**
   * Object o has the fields x now, and if it is finished, it is gone and its owner is sent an ack.
   * Nothing else changed.
   */
  ghost predicate Settles(s: State, r: State, o: Id, x: Object) {
    && r.launching == s.launching && r.objects == s.objects[o := x.(destroyed := Finished(x))]
    && if Finished(x) && x.owner.Some? then Added(s, r, TermAck(x.owner.value)) else SameBoxes(s, r)
  }

  ghost predicate SameBoxes(s: State, r: State) {
    forall t {:trigger Box(r, t)} :: Box(r, t) == Box(s, t)
  }

  lemma CheckedSettles(s: State, o: Id, x: Object)
    requires o in s.objects && !x.destroyed && (x.owner.Some? ==> x.owner.value in s.objects)
    requires s.objects[o].tid == x.tid
    ensures o in SetObject(s, o, x).objects && Settles(s, Checked(SetObject(s, o, x), o), o, x)
  {
    var m := SetObject(s, o, x);
    var f := CheckTermAcks(x);
    var n := SetObject(m, o, f.obj);
    if f.sends != [] {
      assert f.sends == [TermAck(x.owner.value)] && f.sends[1..] == [];
      assert PostAll(n, f.sends) == PostOne(n, f.sends[0]);
      AddedByPost(n, f.sends[0]);
      forall t ensures Box(n, t) == Box(s, t) { }
    }
  }

  /** An object that may be counted: it is alive, and its owner is known. */
  lemma Countable(s: State, o: Id)
    requires Inv(s) && Alive(s, o)
    ensures s.objects[o].owner.Some? ==> s.objects[o].owner.value in s.objects
  {
    if s.objects[o].owner.Some? { ChildrenFirst(s, o); }
  }

  lemma SeqnumSettles(s: State, o: Id, y: Object)
    requires o in s.objects && !y.destroyed && (y.owner.Some? ==> y.owner.value in s.objects)
    requires s.objects[o].tid == y.tid
    ensures o in SetObject(s, o, y).objects
    ensures Settles(s, SeqnumStep(SetObject(s, o, y), o), o, y.(processed := y.processed + 1))
  {
    CheckedSettles(s, o, CountCommand(y));
    assert SetObject(SetObject(s, o, y), o, CountCommand(y)) == SetObject(s, o, CountCommand(y));
  }

  /** How many acks of something outside a command brings. */
  function Brings(c: Command, ch: Choice): nat {
    if c.Attach? || c.Bind? then ch.acks else 0
  }

  lemma DispatchCounts(s: State, c: Command, ch: Choice)
    requires Alive(s, c.dst) && Counted(c) && !c.Own?
    requires s.objects[c.dst].owner.Some? ==> s.objects[c.dst].owner.value in s.objects
    ensures Dispatch(s, c, ch).Next?
    ensures var x, n := s.objects[c.dst], Brings(c, ch);
            Settles(s, Dispatch(s, c, ch).state, c.dst,
                    x.(processed := x.processed + 1, termAcks := x.termAcks + n, external := x.external + n))
  {
    var y := WithAcks(s.objects[c.dst], Brings(c, ch));
    DispatchIs(s, c, ch, y);
    SeqnumSettles(s, c.dst, y);
  }

  lemma DispatchIs(s: State, c: Command, ch: Choice, y: Object)
    requires Alive(s, c.dst) && Counted(c) && !c.Own? && y == WithAcks(s.objects[c.dst], Brings(c, ch))
    ensures Dispatch(s, c, ch) == Next(SeqnumStep(SetObject(s, c.dst, y), c.dst))
  {
    if !c.Attach? && !c.Bind? { Unset(s, c.dst); }
  }

  /** A command that carries a sequence number is counted, and what it brings is awaited. */
  lemma CountedHandled(s: State, t: Tid, ch: Choice)
    requires Inv(s) && Box(s, t) != [] && Counted(Box(s, t)[0]) && !Box(s, t)[0].Own? && t !in s.launching
    ensures var c, out := Box(s, t)[0], Step(s, Deliver(t, ch));
            && out.Next? && c.dst in s.objects
            && var x, n := s.objects[c.dst], Brings(c, ch);
               Settles(Pop(s, t), out.state, c.dst,
                       x.(processed := x.processed + 1, termAcks := x.termAcks + n, external := x.external + n))
  {
    TargetsAlive(s, t, 0);
    Countable(s, Box(s, t)[0].dst);
    DispatchCounts(Pop(s, t), Box(s, t)[0], ch);
  }

  lemma Unset(s: State, o: Id)
    requires o in s.objects
    ensures SetObject(s, o, s.objects[o]) == s
  {
    assert s.objects[o := s.objects[o]] == s.objects;
  }

  /** An ack arrives: one less is awaited. */
  lemma AckHandled(s: State, t: Tid, ch: Choice)
    requires Inv(s) && Box(s, t) != [] && Box(s, t)[0].TermAck? && t !in s.launching
    ensures var o, out := Box(s, t)[0].dst, Step(s, Deliver(t, ch));
            && out.Next? && o in s.objects && s.objects[o].termAcks > 0
            && Settles(Pop(s, t), out.state, o, s.objects[o].(termAcks := s.objects[o].termAcks - 1))
  {
    var o := Box(s, t)[0].dst;
    TargetsAlive(s, t, 0);
    SafeAt(s, t, 0);
    Countable(s, o);
    CheckedSettles(Pop(s, t), o, DropAck(s.objects[o]));
  }

  /** An ack of something outside the tree is registered, and comes. */
  lemma OutsideHandled(s: State, o: Id, acks: nat)
    requires Inv(s)
    ensures var out := Step(s, RegisterAcks(o, acks));
            out.Next? ==>
              && o in s.objects && SameBoxes(s, out.state) && out.state.launching == s.launching
              && out.state.objects == s.objects[o := s.objects[o].(termAcks := s.objects[o].termAcks + acks,
                                                                   external := s.objects[o].external + acks)]
    ensures var out := Step(s, UnregisterAck(o));
            out.Next? ==>
              && o in s.objects && s.objects[o].external > 0 && s.objects[o].termAcks > 0
              && Settles(s, out.state, o, s.objects[o].(termAcks := s.objects[o].termAcks - 1,
                                                        external := s.objects[o].external - 1))
  {
    if Step(s, UnregisterAck(o)).Next? {
      var x := s.objects[o];
      Countable(s, o);
      CheckedSettles(s, o, DropAck(x.(external := x.external - 1)));
    }
  }

  /** A command is promised, and sent later. */
  lemma PromiseHandled(s: State, o: Id, c: Command)
    ensures var out := Step(s, IncSeqnum(o));
            out.Next? ==>
              && o in s.objects && SameBoxes(s, out.state) && out.state.launching == s.launching
              && out.state.objects == s.objects[o := s.objects[o].(sent := s.objects[o].sent + 1,
                                                                   reserved := s.objects[o].reserved + 1)]
    ensures var out := Step(s, SendReserved(c));
            out.Next? ==>
              && c.dst in s.objects && s.objects[c.dst].reserved > 0 && Added(s, out.state, c)
              && out.state.objects == s.objects[c.dst := s.objects[c.dst].(reserved := s.objects[c.dst].reserved - 1)]
  {
  }

  /** The promised command is handled at once, without being sent. */
  lemma PromiseKept(s: State, o: Id, acks: nat)
    requires Inv(s) && Step(s, ProcessReserved(o, acks)).Next?
    ensures o in s.objects && s.objects[o].reserved > 0
    ensures var x := s.objects[o];
            Settles(s, Step(s, ProcessReserved(o, acks)).state, o,
                    x.(reserved := x.reserved - 1, processed := x.processed + 1,
                       termAcks := x.termAcks + acks, external := x.external + acks))
  {
    var x := s.objects[o];
    Countable(s, o);
    SeqnumSettles(s, o, WithAcks(x.(reserved := x.reserved - 1), acks));
  }

  /** A child is made and plugged, then its parent is told to own it. */
  lemma LaunchHandled(s: State, p: Id, c: Id, tid: Tid, linger: int, reserve: nat, t: Tid)
    requires Inv(s)
    ensures var out := Step(s, LaunchPlug(p, c, tid, linger, reserve));
            out.Next? ==>
              && c !in s.objects && c in out.state.objects && out.state.objects - {c} == s.objects
              && var x := out.state.objects[c];
                 && x.tid == tid && x.linger == linger && x.owner == Some(p) && x.sent == 1 + reserve
                 && x.processed == 0 && x.reserved == reserve && !x.terminating && !x.asked
                 && Plug(c) in Box(out.state, tid) && InLaunchOf(out.state, p, c)
    ensures var out := Step(s, LaunchOwn(t));
            out.Next? ==>
              && t in s.launching && out.state.launching == s.launching - {t}
              && var l := s.launching[t];
                 && l.parent in s.objects && Added(s, out.state, Own(l.parent, l.child))
                 && out.state.objects
                    == s.objects[l.parent := s.objects[l.parent].(sent := s.objects[l.parent].sent + 1)]
  {
    if Step(s, LaunchPlug(p, c, tid, linger, reserve)).Next? {
      assert Step(s, LaunchPlug(p, c, tid, linger, reserve)).state.objects - {c} == s.objects;
    }
  }

  ghost predicate InLaunchOf(s: State, p: Id, c: Id) {
    p in s.objects && s.objects[p].tid in s.launching && s.launching[s.objects[p].tid] == Launch(p, c)
  }
}
