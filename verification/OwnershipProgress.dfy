/**
 * Delivering commands comes to an end: every delivery lowers a measure of the state, and when
 * nothing is left to deliver, the tree of an object that terminates is gone.
 */
module OwnershipProgress {
  import opened Common
  import opened OwnershipProtocol
  import opened OwnershipSafety
  import opened OwnershipRuns
  import opened OwnershipTheorems

  // ----- The measure --------------------------------------------------------------------------------

  ghost function Lengths(m: map<Tid, seq<Command>>): map<nat, nat> {
    map t | t in m :: |m[t]|
  }

  /** What an object may still cause: it can be asked to terminate once, and be destroyed once. */
  function Weight(x: Object): nat {
    2 * Bit(!x.asked) + 2 * Bit(!x.destroyed)
  }

  ghost function Weights(m: map<Id, Object>): map<nat, nat> {
    map o | o in m :: Weight(m[o])
  }

  /** The commands in flight, and what the objects may still cause. */
  ghost function Load(s: State): nat {
    Sum(Lengths(s.mailboxes)) + Sum(Weights(s.objects))
  }

  lemma LoadSet(s: State, o: Id, x: Object)
    requires o in s.objects
    ensures Load(SetObject(s, o, x)) == Load(s) + Weight(x) - Weight(s.objects[o])
  {
    var m, n := Weights(s.objects), Weights(s.objects[o := x]);
    assert m - {o} == n - {o};
    SumChange(m, n, o);
  }

  lemma LoadBox(s: State, t: Tid, q: seq<Command>)
    ensures Load(s.(mailboxes := s.mailboxes[t := q])) == Load(s) + |q| - |Box(s, t)|
  {
    var m, n := Lengths(s.mailboxes), Lengths(s.mailboxes[t := q]);
    assert m - {t} == n - {t};
    SumChange(m, n, t);
  }

  lemma LoadPost(s: State, c: Command)
    ensures Load(Post(s, c)) == Load(s) + 1
  {
    LoadBox(s, Route(s, c), Box(s, Route(s, c)) + [c]);
  }

  lemma LoadPop(s: State, t: Tid)
    requires Box(s, t) != []
    ensures Load(Pop(s, t)) == Load(s) - 1
  {
    LoadBox(s, t, Box(s, t)[1..]);
  }

  /** A command that asks an object to terminate for the first time weighs less than the asking. */
  lemma LoadAsk(s: State, c: Command)
    requires c.Term? && c.dst in s.objects && !s.objects[c.dst].asked
    ensures Load(PostOne(s, c)) == Load(s) - 1
  {
    LoadPost(s, c);
    LoadSet(Post(s, c), c.dst, s.objects[c.dst].(asked := true));
  }

  /** The commands ask different objects, none of which was asked before. */
  ghost predicate AskAnew(s: State, cs: seq<Command>) {
    && (forall i :: 0 <= i < |cs| ==> cs[i].Term? && cs[i].dst in s.objects && !s.objects[cs[i].dst].asked)
    && (forall i, j :: 0 <= i < j < |cs| ==> cs[i].dst != cs[j].dst)
  }

  lemma {:induction false} LoadAskAll(s: State, cs: seq<Command>)
    requires AskAnew(s, cs)
    ensures Load(PostAll(s, cs)) == Load(s) - |cs|
    decreases |cs|
  {
    if cs != [] {
      LoadAsk(s, cs[0]);
      LoadAskAll(PostOne(s, cs[0]), cs[1..]);
    }
  }

  /** The check may send an ack, but then the object goes. */
  lemma LoadChecked(s: State, o: Id)
    requires Alive(s, o)
    ensures Load(Checked(s, o)) <= Load(s)
  {
    var e := CheckTermAcks(s.objects[o]);
    LoadSet(s, o, e.obj);
    if e.sends != [] {
      var r, c := SetObject(s, o, e.obj), e.sends[0];
      LoadPost(r, c);
      PostOnly(r, c);
      assert e.sends == [c];
    }
  }

  lemma PostOnly(s: State, c: Command)
    ensures PostAll(s, [c]) == PostOne(s, c)
  {
    assert [c][1..] == [];
  }

  lemma LoadSeqnum(s: State, o: Id)
    requires Alive(s, o)
    ensures Load(SeqnumStep(s, o)) <= Load(s)
  {
    var r := SetObject(s, o, CountCommand(s.objects[o]));
    LoadSet(s, o, CountCommand(s.objects[o]));
    LoadChecked(r, o);
  }

  /** A handler that changes nothing that weighs and asks objects anew. */
  lemma LoadApply(s: State, o: Id, e: Effect)
    requires o in s.objects && Weight(e.obj) == Weight(s.objects[o]) && e.obj.asked == s.objects[o].asked
    requires AskAnew(s, e.sends)
    ensures Load(Apply(s, o, e)) <= Load(s)
  {
    LoadSet(s, o, e.obj);
    LoadAskAll(SetObject(s, o, e.obj), e.sends);
  }

  // ----- Every delivery lowers it ---------------------------------------------------------------------

  /** A child that is owned, or on its way to be, was not asked to terminate. */
  lemma NotAsked(s: State, o: Id, c: Id)
    requires Inv(s) && o in s.objects && c in s.objects[o].owned
    ensures c in s.objects && c != o && !s.objects[c].asked
  {
    assert AccountsOk(BooksOf(s), o) && PhaseOk(BooksOf(s), c);
  }

  lemma ComingNotAsked(s: State, t: Tid)
    requires Inv(s) && Box(s, t) != [] && Box(s, t)[0].Own?
    ensures var c := Box(s, t)[0]; c.child in s.objects && c.child != c.dst && !s.objects[c.child].asked
  {
    var c := Box(s, t)[0];
    assert BoxOk(s, t, Box(s, t)) && CommandOk(s, t, Box(s, t), 0);
    assert PhaseOk(BooksOf(s), c.child);
    CountPositive(Box(s, t), OwnOf(c.child), 0);
  }

  lemma TermAllAsksAnew(s: State, r: State, o: Id, order: seq<Id>, linger: int)
    requires Inv(s) && o in s.objects && r.objects == s.objects && Enumerates(order, s.objects[o].owned)
    ensures AskAnew(r, TermAll(order, linger))
  {
    forall i | 0 <= i < |order| ensures order[i] in s.objects && !s.objects[order[i]].asked {
      assert order[i] in (set k | k in order);
      NotAsked(s, o, order[i]);
    }
  }

  lemma LoadRunTerm(s: State, r: State, o: Id, linger: int, extra: nat, order: seq<Id>)
    requires Inv(s) && Alive(s, o) && r.objects == s.objects && RunTerm(r, o, linger, extra, order).Next?
    ensures Load(RunTerm(r, o, linger, extra, order).state) <= Load(r)
  {
    var e := BeginTerm(r.objects[o], linger, extra, order);
    TermAllAsksAnew(s, r, o, order, linger);
    LoadApply(r, o, e);
    LoadChecked(Apply(r, o, e), o);
  }

  lemma LoadOwn(s: State, t: Tid)
    requires Inv(s) && Box(s, t) != [] && t !in s.launching && Box(s, t)[0].Own? && Alive(s, Box(s, t)[0].dst)
    ensures var c, r := Box(s, t)[0], Pop(s, t);
            Load(SeqnumStep(Apply(r, c.dst, ProcessOwn(r.objects[c.dst], c.child)), c.dst)) <= Load(r)
  {
    var c, r := Box(s, t)[0], Pop(s, t);
    ComingNotAsked(s, t);
    var e := ProcessOwn(r.objects[c.dst], c.child);
    LoadApply(r, c.dst, e);
    LoadSeqnum(Apply(r, c.dst, e), c.dst);
  }

  lemma LoadTermReq(s: State, r: State, o: Id, child: Id)
    requires Inv(s) && o in s.objects && r.objects == s.objects
    ensures Load(Apply(r, o, ProcessTermReq(r.objects[o], child))) <= Load(r)
  {
    if child in s.objects[o].owned { NotAsked(s, o, child); }
    LoadApply(r, o, ProcessTermReq(r.objects[o], child));
  }

  /** Every delivery, whatever the receiver chooses, lowers the measure. */
  lemma DeliveryLowers(s: State, t: Tid, ch: Choice)
    requires Inv(s) && Step(s, Deliver(t, ch)).Next?
    ensures Load(Step(s, Deliver(t, ch)).state) < Load(s)
  {
    var c, r := Box(s, t)[0], Pop(s, t);
    var x := s.objects[c.dst];
    LoadPop(s, t);
    match c
    case Plug(o) => LoadSeqnum(r, o);
    case Own(_, _) => LoadOwn(s, t);
    case Attach(o) =>
      LoadSet(r, o, WithAcks(x, ch.acks));
      LoadSeqnum(SetObject(r, o, WithAcks(x, ch.acks)), o);
    case Bind(o) =>
      LoadSet(r, o, WithAcks(x, ch.acks));
      LoadSeqnum(SetObject(r, o, WithAcks(x, ch.acks)), o);
    case InprocConnected(o) => LoadSeqnum(r, o);
    case TermReq(o, child) => LoadTermReq(s, r, o, child);
    case Term(o, linger) =>
      if ch.defer && !x.terminating {
        LoadSet(r, o, x.(deferred := true));
      } else {
        LoadRunTerm(s, r, o, if ch.zeroLinger then 0 else linger, ch.acks, ch.order);
      }
    case TermAck(o) =>
      LoadSet(r, o, DropAck(x));
      LoadChecked(SetObject(r, o, DropAck(x)), o);
    case TermEndpoint(_, _) =>
  }

  // ----- Deliveries alone ---------------------------------------------------------------------------------

  /** From event i to event n the run only delivers commands. */
  ghost predicate DeliversOnly(events: seq<Event>, i: nat, n: nat) {
    i <= n <= |events| && forall k :: i <= k < n ==> events[k].Deliver?
  }

  /** However commands are delivered, there are at most as many deliveries in a row as the measure says. */
  lemma {:induction false} DeliveriesEnd(states: seq<State>, events: seq<Event>, i: nat, n: nat)
    requires IsRun(states, events) && DeliversOnly(events, i, n)
    ensures Load(states[n]) + (n - i) <= Load(states[i])
    decreases n - i
  {
    if i < n {
      DeliveriesEnd(states, events, i, n - 1);
      RunLowers(states, events, n - 1);
    }
  }

  lemma RunLowers(states: seq<State>, events: seq<Event>, k: nat)
    requires IsRun(states, events) && k < |events| && events[k].Deliver?
    ensures Load(states[k + 1]) < Load(states[k])
  {
    RunKeepsInv(states, events, k);
    assert StepAt(states, events, k);
    DeliveryLowers(states[k], events[k].thread, events[k].choice);
  }

  // ----- What deliveries leave alone --------------------------------------------------------------------

  /** The object holds no promise, waits for nothing outside, and has put nothing off. */
  ghost predicate CalmAt(s: State, o: Id) {
    o in s.objects ==> s.objects[o].reserved == 0 && s.objects[o].external == 0 && !s.objects[o].deferred
  }

  /** Nobody under r launches, holds a promise, waits for something outside, or has put anything off. */
  ghost predicate CalmUnder(s: State, r: Id) {
    && (forall t :: t in s.launching ==> !Under(s, s.launching[t].parent, r))
    && forall o {:trigger CalmAt(s, o)} :: Under(s, o, r) ==> CalmAt(s, o)
  }

  /** The receiver does not put its termination off and registers no acks of its own. */
  predicate Plain(ch: Choice) {
    !ch.defer && ch.acks == 0
  }

  /**
   * What an object keeps: its thread, its owner, that it terminates, that it was asked to, and, unless
   * it is loud, that it is calm.
   */
  ghost predicate KeepsAt(s: State, r: State, loud: set<Id>, o: Id) {
    o in s.objects ==>
      && o in r.objects && r.objects[o].owner == s.objects[o].owner && r.objects[o].tid == s.objects[o].tid
      && (s.objects[o].terminating ==> r.objects[o].terminating) && (s.objects[o].asked ==> r.objects[o].asked)
      && (o !in loud && CalmAt(s, o) ==> CalmAt(r, o))
  }

  ghost predicate Keeps(s: State, r: State, loud: set<Id>) {
    && r.launching == s.launching && r.objects.Keys == s.objects.Keys
    && forall o {:trigger KeepsAt(s, r, loud, o)} :: KeepsAt(s, r, loud, o)
  }

  lemma KeepsTrans(a: State, b: State, c: State, loud: set<Id>)
    requires Keeps(a, b, loud) && Keeps(b, c, loud)
    ensures Keeps(a, c, loud)
  {
    forall o ensures KeepsAt(a, c, loud, o) { assert KeepsAt(a, b, loud, o) && KeepsAt(b, c, loud, o); }
  }

  lemma {:induction false} PostAllKeeps(s: State, cs: seq<Command>, loud: set<Id>)
    ensures Keeps(s, PostAll(s, cs), loud)
    decreases |cs|
  {
    if cs == [] {
      forall o ensures KeepsAt(s, s, loud, o) { }
    } else {
      var r := PostOne(s, cs[0]);
      forall o ensures KeepsAt(s, r, loud, o) { }
      PostAllKeeps(r, cs[1..], loud);
      KeepsTrans(s, r, PostAll(r, cs[1..]), loud);
    }
  }

  lemma ApplyKeeps(s: State, o: Id, e: Effect, loud: set<Id>)
    requires o in s.objects && KeepsAt(s, SetObject(s, o, e.obj), loud, o)
    ensures Keeps(s, Apply(s, o, e), loud)
  {
    var r := SetObject(s, o, e.obj);
    forall k ensures KeepsAt(s, r, loud, k) { }
    PostAllKeeps(r, e.sends, loud);
    KeepsTrans(s, r, PostAll(r, e.sends), loud);
  }

  lemma CheckedKeeps(s: State, o: Id, loud: set<Id>)
    requires o in s.objects
    ensures Keeps(s, Checked(s, o), loud)
  {
    ApplyKeeps(s, o, CheckTermAcks(s.objects[o]), loud);
  }

  /** A handler and the check after it. */
  lemma ThenCheckedKeeps(s: State, o: Id, e: Effect, loud: set<Id>)
    requires o in s.objects && KeepsAt(s, SetObject(s, o, e.obj), loud, o)
    ensures o in Apply(s, o, e).objects && Keeps(s, Checked(Apply(s, o, e), o), loud)
  {
    ApplyKeeps(s, o, e, loud);
    CheckedKeeps(Apply(s, o, e), o, loud);
    KeepsTrans(s, Apply(s, o, e), Checked(Apply(s, o, e), o), loud);
  }

  lemma ThenCountedKeeps(s: State, o: Id, e: Effect, loud: set<Id>)
    requires o in s.objects && KeepsAt(s, SetObject(s, o, e.obj), loud, o)
    ensures o in Apply(s, o, e).objects && Keeps(s, SeqnumStep(Apply(s, o, e), o), loud)
  {
    ApplyKeeps(s, o, e, loud);
    var r := Apply(s, o, e);
    var f := Effect(CountCommand(r.objects[o]), []);
    ThenCheckedKeeps(r, o, f, loud);
    KeepsTrans(s, r, SeqnumStep(r, o), loud);
  }

  /** The receiver is loud if it puts its termination off or registers acks. */
  function Loud(c: Command, ch: Choice): set<Id> {
    if Plain(ch) then {} else {c.dst}
  }

  lemma CountedKeeps(s: State, c: Command, ch: Choice)
    requires Alive(s, c.dst) && Counted(c)
    ensures Keeps(s, Dispatch(s, c, ch).state, Loud(c, ch))
  {
    var o, x, l := c.dst, s.objects[c.dst], Loud(c, ch);
    match c
    case Plug(_) => ThenCheckedKeeps(s, o, Effect(CountCommand(x), []), l);
    case Own(_, child) => ThenCountedKeeps(s, o, ProcessOwn(x, child), l);
    case Attach(_) => ThenCountedKeeps(s, o, Effect(WithAcks(x, ch.acks), []), l);
    case Bind(_) => ThenCountedKeeps(s, o, Effect(WithAcks(x, ch.acks), []), l);
    case InprocConnected(_) => ThenCheckedKeeps(s, o, Effect(CountCommand(x), []), l);
  }

  lemma TermKeeps(s: State, o: Id, linger: int, extra: nat, order: seq<Id>, loud: set<Id>)
    requires o in s.objects && RunTerm(s, o, linger, extra, order).Next? && (extra > 0 ==> o in loud)
    ensures Keeps(s, RunTerm(s, o, linger, extra, order).state, loud)
  {
    ThenCheckedKeeps(s, o, BeginTerm(s.objects[o], linger, extra, order), loud);
  }

  lemma DispatchKeeps(s: State, c: Command, ch: Choice)
    requires Dispatch(s, c, ch).Next?
    ensures Keeps(s, Dispatch(s, c, ch).state, Loud(c, ch))
  {
    var o, x, l := c.dst, s.objects[c.dst], Loud(c, ch);
    if Counted(c) {
      CountedKeeps(s, c, ch);
    } else {
      match c
      case TermReq(_, child) => ApplyKeeps(s, o, ProcessTermReq(x, child), l);
      case Term(_, linger) =>
        if ch.defer && !x.terminating {
          forall k ensures KeepsAt(s, SetObject(s, o, x.(deferred := true)), l, k) { }
        } else {
          TermKeeps(s, o, if ch.zeroLinger then 0 else linger, ch.acks, ch.order, l);
        }
      case TermAck(_) => ThenCheckedKeeps(s, o, Effect(DropAck(x), []), l);
      case TermEndpoint(_, _) => forall k ensures KeepsAt(s, s, l, k) { }
    }
  }

  /** A delivery leaves whoever is calm calm, but for a receiver that is loud, and what terminates terminating. */
  lemma DeliveryKeeps(s: State, t: Tid, ch: Choice)
    requires Step(s, Deliver(t, ch)).Next?
    ensures Keeps(s, Step(s, Deliver(t, ch)).state, Loud(Box(s, t)[0], ch))
  {
    var r, l := Pop(s, t), Loud(Box(s, t)[0], ch);
    forall o ensures KeepsAt(s, r, l, o) { }
    DispatchKeeps(r, Box(s, t)[0], ch);
    KeepsTrans(s, r, Step(s, Deliver(t, ch)).state, l);
  }

  lemma {:induction false} UnderKept(s: State, r: State, loud: set<Id>, d: Id, a: Id)
    requires Keeps(s, r, loud)
    ensures Under(s, d, a) <==> Under(r, d, a)
    decreases d
  {
    assert KeepsAt(s, r, loud, d);
    if d in s.objects && s.objects[d].owner.Some? && s.objects[d].owner.value < d {
      UnderKept(s, r, loud, s.objects[d].owner.value, a);
    }
  }

  lemma CalmKept(s: State, q: State, loud: set<Id>, r: Id)
    requires Keeps(s, q, loud) && CalmUnder(s, r) && forall o :: o in loud ==> !Under(s, o, r)
    ensures CalmUnder(q, r)
  {
    forall t | t in q.launching ensures !Under(q, q.launching[t].parent, r) {
      UnderKept(s, q, loud, q.launching[t].parent, r);
    }
    forall o | Under(q, o, r) ensures CalmAt(q, o) {
      UnderKept(s, q, loud, o, r);
      assert CalmAt(s, o) && KeepsAt(s, q, loud, o);
    }
  }

  lemma {:induction false} SomeOrder(ids: set<Id>) returns (order: seq<Id>)
    ensures Enumerates(order, ids)
    decreases |ids|
  {
    if ids == {} {
      order := [];
      assert (set j | j in order) == ids;
    } else {
      var k :| k in ids;
      var rest := SomeOrder(ids - {k});
      order := rest + [k];
      OneMore(rest, ids - {k}, k);
      assert ids - {k} + {k} == ids;
    }
  }

  lemma OneMore(order: seq<Id>, ids: set<Id>, k: Id)
    requires Enumerates(order, ids) && k !in ids
    ensures Enumerates(order + [k], ids + {k})
  {
    assert forall i :: 0 <= i < |order| ==> order[i] in (set j | j in order);
    assert (set j | j in order + [k]) == (set j | j in order) + {k};
  }

  /** A command that waits can be delivered, and its receiver need not put anything off. */
  lemma DeliveryPossible(s: State, t: Tid) returns (ch: Choice)
    requires Inv(s) && Box(s, t) != [] && t !in s.launching
    ensures Plain(ch) && Step(s, Deliver(t, ch)).Next?
  {
    TargetsAlive(s, t, 0);
    var order := SomeOrder(s.objects[Box(s, t)[0].dst].owned);
    ch := Choice(0, false, false, order);
    StepKeepsInv(s, Deliver(t, ch));
  }

  // ----- Shutdown comes to an end ---------------------------------------------------------------------------

  /** No command is in flight to an object under r. */
  ghost predicate QuietUnder(s: State, r: Id) {
    forall t, i :: 0 <= i < |Box(s, t)| ==> !Under(s, Box(s, t)[i].dst, r)
  }

  /** With nothing in flight below it, the tree of an object that terminates is gone. */
  lemma CalmEnd(s: State, r: Id)
    requires Inv(s) && CalmUnder(s, r) && QuietUnder(s, r) && r in s.objects && s.objects[r].terminating
    ensures forall o :: o in s.objects && Under(s, o, r) ==> s.objects[o].destroyed
  {
    forall o | Under(s, o, r) ensures Idle(s, o) { assert CalmAt(s, o); }
    var bound := IdBound(s.objects);
    TerminatingIsGone(s, r, bound);
    forall o | o in s.objects && Under(s, o, r) ensures s.objects[o].destroyed { GoneBelow(s, o, r); }
  }

  /** The k-th event is a delivery, and a receiver under r puts nothing off and registers no acks. */
  ghost predicate PlainAt(states: seq<State>, events: seq<Event>, r: Id, k: nat)
    requires k < |events| && k < |states|
  {
    events[k].Deliver? && Box(states[k], events[k].thread) != [] &&
    (Under(states[k], Box(states[k], events[k].thread)[0].dst, r) ==> Plain(events[k].choice))
  }

  /** From event i to event n the run only delivers commands, under r to receivers that put nothing off. */
  ghost predicate DeliversPlainly(states: seq<State>, events: seq<Event>, i: nat, n: nat, r: Id)
    requires |states| == |events| + 1
  {
    && i <= n <= |events|
    && forall k {:trigger PlainAt(states, events, r, k)} :: i <= k < n ==> PlainAt(states, events, r, k)
  }

  lemma OnlyDeliveries(states: seq<State>, events: seq<Event>, i: nat, n: nat, r: Id)
    requires |states| == |events| + 1 && DeliversPlainly(states, events, i, n, r)
    ensures DeliversOnly(events, i, n)
  {
    forall k | i <= k < n ensures events[k].Deliver? { assert PlainAt(states, events, r, k); }
  }

  /** One delivery of such a run. */
  lemma DeliveryStaysCalm(states: seq<State>, events: seq<Event>, k: nat, r: Id)
    requires IsRun(states, events) && k < |events| && PlainAt(states, events, r, k) && CalmUnder(states[k], r)
    ensures CalmUnder(states[k + 1], r)
    ensures Keeps(states[k], states[k + 1], Loud(Box(states[k], events[k].thread)[0], events[k].choice))
  {
    var s, e := states[k], events[k];
    assert StepAt(states, events, k);
    DeliveryKeeps(s, e.thread, e.choice);
    CalmKept(s, states[k + 1], Loud(Box(s, e.thread)[0], e.choice), r);
  }

  lemma {:induction false} StaysCalm(states: seq<State>, events: seq<Event>, i: nat, n: nat, r: Id)
    requires IsRun(states, events) && DeliversPlainly(states, events, i, n, r) && CalmUnder(states[i], r)
    requires r in states[i].objects && states[i].objects[r].terminating
    ensures CalmUnder(states[n], r) && r in states[n].objects && states[n].objects[r].terminating
    decreases n - i
  {
    if i < n {
      StaysCalm(states, events, i, n - 1, r);
      assert PlainAt(states, events, r, n - 1);
      DeliveryStaysCalm(states, events, n - 1, r);
      var s, e := states[n - 1], events[n - 1];
      assert KeepsAt(s, states[n], Loud(Box(s, e.thread)[0], e.choice), r);
    }
  }

  /** Whatever waits for a thread that is not launching can be delivered. */
  ghost predicate CanGoOn(s: State) {
    forall t :: Box(s, t) != [] && t !in s.launching ==> exists ch :: Plain(ch) && Step(s, Deliver(t, ch)).Next?
  }

  lemma InvCanGoOn(s: State)
    requires Inv(s)
    ensures CanGoOn(s)
  {
    forall t | Box(s, t) != [] && t !in s.launching ensures exists ch :: Plain(ch) && Step(s, Deliver(t, ch)).Next? {
      var ch := DeliveryPossible(s, t);
    }
  }

  /**
   * Shutdown comes to an end.  In every run, once an object r terminates and nobody under it
   * launches, holds a promise or waits for something outside, let commands be delivered in any order
   * the mailboxes allow: there are at most so many deliveries, another one is possible for as long as
   * a command waits, and when none is left for the tree under r, all of that tree is gone.
   */
  lemma ShutdownEnds(states: seq<State>, events: seq<Event>, i: nat, n: nat, r: Id)
    requires IsRun(states, events) && DeliversPlainly(states, events, i, n, r) && CalmUnder(states[i], r)
    requires r in states[i].objects && states[i].objects[r].terminating
    ensures n - i <= Load(states[i]) && CanGoOn(states[n])
    ensures var s := states[n];
            QuietUnder(s, r) ==> forall o :: o in s.objects && Under(s, o, r) ==> s.objects[o].destroyed
  {
    OnlyDeliveries(states, events, i, n, r);
    DeliveriesEnd(states, events, i, n);
    StaysCalm(states, events, i, n, r);
    RunKeepsInv(states, events, n);
    InvCanGoOn(states[n]);
    if QuietUnder(states[n], r) { CalmEnd(states[n], r); }
  }
}
