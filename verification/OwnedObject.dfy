/**
 * own_t as an object that changes in place, and the dispatcher of object_t that
 * drives it.  Every method is proved against the handlers of OwnershipProtocol, and
 * the last lemmas show that a whole dispatch is one step of the protocol.
 */
module OwnedObject {
  import opened Common
  import opened OwnershipProtocol
  import opened OwnershipSafety

  // ----- One dispatch as a single effect --------------------------------------------

  /** A handler followed by check_term_acks. */
  function ThenCheck(e: Effect): Effect {
    var k := CheckTermAcks(e.obj);
    Effect(k.obj, e.sends + k.sends)
  }

  /** A handler followed by process_seqnum. */
  function ThenSeqnum(e: Effect): Effect {
    ThenCheck(Effect(CountCommand(e.obj), e.sends))
  }

  lemma CheckAlone(x: Object)
    ensures ThenCheck(Effect(x, [])) == CheckTermAcks(x)
  {
    var k := CheckTermAcks(x);
    assert [] + k.sends == k.sends;
  }

  /** The assertions that the source makes when object x handles c. */
  predicate MayHandle(x: Object, c: Command, ch: Choice) {
    match c
    case Term(_, _) => !x.terminating && !x.deferred && (!ch.defer ==> Enumerates(ch.order, x.owned))
    case TermAck(_) => x.termAcks > 0
    case _ => true
  }

  /** What object x makes of command c. */
  function Handle(x: Object, c: Command, ch: Choice): Effect
    requires MayHandle(x, c, ch)
  {
    match c
    case Plug(_) => ThenSeqnum(Effect(x, []))
    case Own(_, child) => ThenSeqnum(ProcessOwn(x, child))
    case Attach(_) => ThenSeqnum(Effect(WithAcks(x, ch.acks), []))
    case Bind(_) => ThenSeqnum(Effect(WithAcks(x, ch.acks), []))
    case InprocConnected(_) => ThenSeqnum(Effect(x, []))
    case TermReq(_, child) => ProcessTermReq(x, child)
    case Term(_, linger) =>
      if ch.defer then Effect(x.(deferred := true), [])
      else ThenCheck(BeginTerm(x, if ch.zeroLinger then 0 else linger, ch.acks, ch.order))
    case TermAck(_) => ThenCheck(Effect(DropAck(x), []))
    case TermEndpoint(_, _) => Effect(x, [])
  }

  // ----- The objects ------------------------------------------------------------------

  /** ctx_t as far as objects use it: the mailboxes, and the thread of every object. */
  class Context {
    var slots: map<Tid, seq<Command>>
    const tids: map<Id, Tid>

    constructor (tids: map<Id, Tid>)
      ensures slots == map[] && this.tids == tids
    {
      slots := map[];
      this.tids := tids;
    }

    method SendCommand(c: Command)
      modifies this
      ensures slots == Routed(old(slots), tids, [c])
      ensures var t := if c.dst in tids then tids[c.dst] else 0;
              slots == old(slots)[t := (if t in old(slots) then old(slots)[t] else []) + [c]]
    {
      var t := if c.dst in tids then tids[c.dst] else 0;
      slots := slots[t := (if t in slots then slots[t] else []) + [c]];
      assert [c][1..] == [];
    }
  }

  /** Mailboxes after commands were appended to them in order. */
  function Routed(slots: map<Tid, seq<Command>>, tids: map<Id, Tid>, cs: seq<Command>): map<Tid, seq<Command>>
    decreases |cs|
  {
    if cs == [] then slots else
      var t := if cs[0].dst in tids then tids[cs[0].dst] else 0;
      Routed(slots[t := (if t in slots then slots[t] else []) + [cs[0]]], tids, cs[1..])
  }

  lemma {:induction false} RoutedAppend(slots: map<Tid, seq<Command>>, tids: map<Id, Tid>, a: seq<Command>,
                                        b: seq<Command>)
    ensures Routed(slots, tids, a + b) == Routed(Routed(slots, tids, a), tids, b)
    decreases |a|
  {
    if a == [] {
      assert a + b == b;
    } else {
      var t := if a[0].dst in tids then tids[a[0].dst] else 0;
      assert (a + b)[1..] == a[1..] + b;
      RoutedAppend(slots[t := (if t in slots then slots[t] else []) + [a[0]]], tids, a[1..], b);
    }
  }

  class OwnObject {
    const id: Id
    const tid: Tid
    const linger: int
    var owner: Option<Id>
    var terminating: bool
    var sentSeqnum: nat
    var processedSeqnum: nat
    var owned: set<Id>
    var termAcks: nat
    var deleted: bool
    ghost var reserved: nat
    ghost var external: nat
    ghost var deferred: bool
    ghost var asked: bool

    ghost function View(): Object
      reads this
    {
      Object(tid, linger, owner, terminating, sentSeqnum, processedSeqnum, owned, termAcks, deleted,
             reserved, external, deferred, asked)
    }

    constructor (id: Id, tid: Tid, linger: int)
      ensures this.id == id && View() == Fresh(tid, linger, None, 0, 0)
    {
      this.id, this.tid, this.linger := id, tid, linger;
      owner, terminating, sentSeqnum, processedSeqnum := None, false, 0, 0;
      owned, termAcks, deleted := {}, 0, false;
      reserved, external, deferred, asked := 0, 0, false, false;
    }

    method SetOwner(p: Id)
      requires owner.None?
      modifies this`owner
      ensures View() == old(View()).(owner := Some(p))
    {
      owner := Some(p);
    }

    method IncSeqnum()
      modifies this`sentSeqnum
      ensures View() == old(View()).(sent := old(sentSeqnum) + 1)
    {
      sentSeqnum := sentSeqnum + 1;
    }

    method CheckTermAcks(ctx: Context)
      requires terminating ==> owned == {}
      modifies this`deleted, ctx
      ensures var e := OwnershipProtocol.CheckTermAcks(old(View()));
              View() == e.obj && ctx.slots == Routed(old(ctx.slots), ctx.tids, e.sends)
      ensures deleted <==> old(deleted) || (terminating && processedSeqnum == sentSeqnum && termAcks == 0)
      ensures ctx.slots == if terminating && processedSeqnum == sentSeqnum && termAcks == 0 && owner.Some?
                           then Routed(old(ctx.slots), ctx.tids, [TermAck(owner.value)]) else old(ctx.slots)
    {
      if terminating && processedSeqnum == sentSeqnum && termAcks == 0 {
        assert owned == {};
        if owner.Some? {
          ctx.SendCommand(TermAck(owner.value));
        }
        deleted := true;
      }
    }

    method ProcessSeqnum(ctx: Context)
      requires terminating ==> owned == {}
      modifies this`processedSeqnum, this`deleted, ctx
      ensures var e := OwnershipProtocol.CheckTermAcks(CountCommand(old(View())));
              View() == e.obj && ctx.slots == Routed(old(ctx.slots), ctx.tids, e.sends)
    {
      processedSeqnum := processedSeqnum + 1;
      assert View() == CountCommand(old(View()));
      CheckTermAcks(ctx);
    }

    /** set_owner, send_plug and send_own, the last two counting on their targets. */
    method LaunchChild(child: OwnObject, ctx: Context)
      requires child != this && child.owner.None?
      modifies this`sentSeqnum, child`sentSeqnum, child`owner, ctx
      ensures child.View() == old(child.View()).(owner := Some(id), sent := old(child.sentSeqnum) + 1)
      ensures View() == old(View()).(sent := old(sentSeqnum) + 1)
      ensures ctx.slots == Routed(old(ctx.slots), ctx.tids, [Plug(child.id), Own(id, child.id)])
    {
      child.SetOwner(id);
      child.IncSeqnum();
      ctx.SendCommand(Plug(child.id));
      IncSeqnum();
      ctx.SendCommand(Own(id, child.id));
      assert [Plug(child.id), Own(id, child.id)] == [Plug(child.id)] + [Own(id, child.id)];
      RoutedAppend(old(ctx.slots), ctx.tids, [Plug(child.id)], [Own(id, child.id)]);
    }

    method RegisterTermAcks(count: nat)
      modifies this`termAcks
      ensures View() == old(View()).(termAcks := old(termAcks) + count)
    {
      termAcks := termAcks + count;
    }

    method UnregisterTermAck(ctx: Context)
      requires termAcks > 0 && (terminating ==> owned == {})
      modifies this`termAcks, this`deleted, ctx
      ensures var e := OwnershipProtocol.CheckTermAcks(DropAck(old(View())));
              View() == e.obj && ctx.slots == Routed(old(ctx.slots), ctx.tids, e.sends)
    {
      termAcks := termAcks - 1;
      assert View() == DropAck(old(View()));
      CheckTermAcks(ctx);
    }

    method ProcessOwn(child: Id, ctx: Context)
      modifies this`termAcks, this`owned, ctx
      ensures var e := OwnershipProtocol.ProcessOwn(old(View()), child);
              View() == e.obj && ctx.slots == Routed(old(ctx.slots), ctx.tids, e.sends)
      ensures terminating ==>
                && owned == old(owned) && termAcks == old(termAcks) + 1
                && ctx.slots == Routed(old(ctx.slots), ctx.tids, [Term(child, 0)])
      ensures !terminating ==>
                owned == old(owned) + {child} && termAcks == old(termAcks) && ctx.slots == old(ctx.slots)
    {
      if terminating {
        RegisterTermAcks(1);
        ctx.SendCommand(Term(child, 0));
        return;
      }
      owned := owned + {child};
    }

    method ProcessTermReq(child: Id, ctx: Context)
      modifies this`termAcks, this`owned, ctx
      ensures var e := OwnershipProtocol.ProcessTermReq(old(View()), child);
              View() == e.obj && ctx.slots == Routed(old(ctx.slots), ctx.tids, e.sends)
      ensures !terminating && child in old(owned) ==>
                && owned == old(owned) - {child} && termAcks == old(termAcks) + 1
                && ctx.slots == Routed(old(ctx.slots), ctx.tids, [Term(child, linger)])
      ensures terminating || child !in old(owned) ==>
                owned == old(owned) && termAcks == old(termAcks) && ctx.slots == old(ctx.slots)
    {
      if terminating {
        return;
      }
      if child !in owned {
        return;
      }
      owned := owned - {child};
      RegisterTermAcks(1);
      ctx.SendCommand(Term(child, linger));
    }

    /** The walk of process_term over the owned objects; `order` says in which order. */
    method SendTerms(lingerTime: int, ctx: Context) returns (ghost order: seq<Id>)
      modifies ctx
      ensures Enumerates(order, owned) && |order| == |owned|
      ensures ctx.slots == Routed(old(ctx.slots), ctx.tids, TermAll(order, lingerTime))
    {
      var rest := owned;
      order := [];
      assert owned - rest == {};
      while rest != {}
        invariant rest <= owned && Enumerates(order, owned - rest) && |order| + |rest| == |owned|
        invariant ctx.slots == Routed(old(ctx.slots), ctx.tids, TermAll(order, lingerTime))
        decreases rest
      {
        var c :| c in rest;
        ctx.SendCommand(Term(c, lingerTime));
        RoutedAppend(old(ctx.slots), ctx.tids, TermAll(order, lingerTime), [Term(c, lingerTime)]);
        assert TermAll(order + [c], lingerTime) == TermAll(order, lingerTime) + [Term(c, lingerTime)];
        EnumeratesMore(order, owned - rest, c);
        assert owned - rest + {c} == owned - (rest - {c});
        order, rest := order + [c], rest - {c};
      }
      assert owned - rest == owned;
    }

    method ProcessTerm(lingerTime: int, ctx: Context) returns (ghost order: seq<Id>)
      requires !terminating
      modifies this`owned, this`termAcks, this`terminating, this`deferred, this`deleted, ctx
      ensures Enumerates(order, old(owned))
      ensures var e := ThenCheck(BeginTerm(old(View()), lingerTime, 0, order));
              View() == e.obj && ctx.slots == Routed(old(ctx.slots), ctx.tids, e.sends)
    {
      order := SendTerms(lingerTime, ctx);
      RegisterTermAcks(|owned|);
      owned := {};
      terminating := true;
      deferred := false;
      ghost var b := BeginTerm(old(View()), lingerTime, 0, order);
      assert View() == b.obj;
      CheckTermAcks(ctx);
      RoutedAppend(old(ctx.slots), ctx.tids, b.sends, OwnershipProtocol.CheckTermAcks(b.obj).sends);
    }

    /** A handler that may register acks, then process_seqnum. */
    method DispatchCounted(acks: nat, ctx: Context)
      requires terminating ==> owned == {}
      modifies this, ctx
      ensures var e := ThenSeqnum(Effect(WithAcks(old(View()), acks), []));
              View() == e.obj && ctx.slots == Routed(old(ctx.slots), ctx.tids, e.sends)
    {
      RegisterExternal(acks);
      CheckAlone(CountCommand(View()));
      ProcessSeqnum(ctx);
    }

    /** process_own, then process_seqnum. */
    method DispatchOwn(child: Id, ctx: Context)
      requires terminating ==> owned == {}
      modifies this, ctx
      ensures var e := ThenSeqnum(OwnershipProtocol.ProcessOwn(old(View()), child));
              View() == e.obj && ctx.slots == Routed(old(ctx.slots), ctx.tids, e.sends)
    {
      ProcessOwn(child, ctx);
      ghost var e := OwnershipProtocol.ProcessOwn(old(View()), child);
      ProcessSeqnum(ctx);
      RoutedAppend(old(ctx.slots), ctx.tids, e.sends, OwnershipProtocol.CheckTermAcks(CountCommand(e.obj)).sends);
    }

    /** A derived class's process_term: acks of its own first, then that of own_t. */
    method DispatchTerm(lingerTime: int, acks: nat, ctx: Context) returns (ghost order: seq<Id>)
      requires !terminating
      modifies this, ctx
      ensures Enumerates(order, old(owned))
      ensures var e := ThenCheck(BeginTerm(old(View()), lingerTime, acks, order));
              View() == e.obj && ctx.slots == Routed(old(ctx.slots), ctx.tids, e.sends)
    {
      RegisterExternal(acks);
      order := ProcessTerm(lingerTime, ctx);
      assert BeginTerm(WithAcks(old(View()), acks), lingerTime, 0, order)
             == BeginTerm(old(View()), lingerTime, acks, order);
    }

    /** A root terminates itself; any other object asks its owner to be terminated. */
    method Terminate(acks: nat, ctx: Context) returns (ghost order: seq<Id>)
      modifies this, ctx
      ensures !old(terminating) && old(owner).None? ==>
                && Enumerates(order, old(owned))
                && var e := ThenCheck(BeginTerm(old(View()), linger, acks, order));
                   View() == e.obj && ctx.slots == Routed(old(ctx.slots), ctx.tids, e.sends)
      ensures !old(terminating) && old(owner).Some? ==>
                View() == old(View()) && ctx.slots == Routed(old(ctx.slots), ctx.tids, [TermReq(owner.value, id)])
      ensures old(terminating) ==> View() == old(View()) && ctx.slots == old(ctx.slots)
    {
      order := [];
      if terminating {
        return;
      }
      if owner.None? {
        order := DispatchTerm(linger, acks, ctx);
        return;
      }
      ctx.SendCommand(TermReq(owner.value, id));
    }

    /** object_t::process_command for the commands that own_t handles. */
    method ProcessCommand(c: Command, acks: nat, defer: bool, zeroLinger: bool, ctx: Context)
        returns (ghost order: seq<Id>)
      requires terminating ==> owned == {}
      requires c.Term? ==> !terminating && !deferred
      requires c.TermAck? ==> termAcks > 0
      modifies this, ctx
      ensures c.Term? && !defer ==> Enumerates(order, old(owned))
      ensures var ch := Choice(acks, defer, zeroLinger, order);
              var e := Handle(old(View()), c, ch);
              View() == e.obj && ctx.slots == Routed(old(ctx.slots), ctx.tids, e.sends)
    {
      order := [];
      match c {
        case Plug(_) => DispatchCounted(0, ctx);
        case InprocConnected(_) => DispatchCounted(0, ctx);
        case Own(_, child) => DispatchOwn(child, ctx);
        case Attach(_) => DispatchCounted(acks, ctx);
        case Bind(_) => DispatchCounted(acks, ctx);
        case TermReq(_, child) => ProcessTermReq(child, ctx);
        case Term(_, lingerTime) =>
          if defer {
            deferred := true;
          } else {
            order := DispatchTerm(if zeroLinger then 0 else lingerTime, acks, ctx);
          }
        case TermAck(_) =>
          CheckAlone(DropAck(View()));
          UnregisterTermAck(ctx);
        case TermEndpoint(_, _) =>
      }
    }

    /** register_term_acks by a derived class, for events outside the tree. */
    method RegisterExternal(acks: nat)
      modifies this`termAcks, this`external
      ensures View() == WithAcks(old(View()), acks)
    {
      RegisterTermAcks(acks);
      external := external + acks;
    }
  }

  lemma EnumeratesMore(order: seq<Id>, s: set<Id>, c: Id)
    requires Enumerates(order, s) && c !in s
    ensures Enumerates(order + [c], s + {c})
  {
    assert forall i :: i in order + [c] <==> i in order || i == c;
    assert forall i :: 0 <= i < |order| ==> order[i] in s;
  }

  // ----- A dispatch by the class is a step of the protocol -------------------------------

  /** The class's routing and the protocol's mailboxes are the same thing. */
  lemma {:induction false} RoutedIsPostAll(s: State, cs: seq<Command>, tids: map<Id, Tid>)
    requires tids.Keys == s.objects.Keys && forall o :: o in tids ==> tids[o] == s.objects[o].tid
    ensures PostAll(s, cs).mailboxes == Routed(s.mailboxes, tids, cs)
    decreases |cs|
  {
    if cs != [] {
      RoutedIsPostAll(PostOne(s, cs[0]), cs[1..], tids);
    }
  }

  /** Object o can be replaced before or after commands to others are posted. */
  lemma {:induction false} PostAllCommutes(s: State, o: Id, y: Object, cs: seq<Command>)
    requires SamePlace(s, o, y) && forall c :: c in cs ==> c.dst != o
    ensures SetObject(PostAll(s, cs), o, y) == PostAll(SetObject(s, o, y), cs)
    decreases |cs|
  {
    if cs != [] {
      assert SetObject(PostOne(s, cs[0]), o, y) == PostOne(SetObject(s, o, y), cs[0]);
      PostAllCommutes(PostOne(s, cs[0]), o, y, cs[1..]);
    }
  }

  lemma {:induction false} PostAllAppend(s: State, a: seq<Command>, b: seq<Command>)
    ensures PostAll(s, a + b) == PostAll(PostAll(s, a), b)
    decreases |a|
  {
    if a == [] {
      assert a + b == b;
    } else {
      assert (a + b)[1..] == a[1..] + b;
      PostAllAppend(PostOne(s, a[0]), a[1..], b);
    }
  }

  lemma SetTwice(s: State, o: Id, x: Object, y: Object)
    ensures SetObject(SetObject(s, o, x), o, y) == SetObject(s, o, y)
  {
  }

  /** A handler and the check_term_acks after it are one effect of o. */
  lemma ApplyTwice(s: State, o: Id, e: Effect, y: Object)
    requires SamePlace(s, o, e.obj) && y.tid == e.obj.tid && y.owner == e.obj.owner
    requires forall c :: c in e.sends ==> c.dst != o
    ensures var k := CheckTermAcks(y);
            var m := SetObject(Apply(s, o, e), o, y);
            Apply(m, o, k) == Apply(s, o, Effect(k.obj, e.sends + k.sends))
  {
    var k := CheckTermAcks(y);
    var n := SetObject(s, o, e.obj);
    PostAllCommutes(n, o, k.obj, e.sends);
    SetTwice(s, o, e.obj, k.obj);
    SetTwice(Apply(s, o, e), o, y, k.obj);
    PostAllAppend(SetObject(s, o, k.obj), e.sends, k.sends);
  }

  /** No command that o sends while it handles c goes to o itself. */
  ghost predicate SendsAway(x: Object, c: Command, ch: Choice)
    requires MayHandle(x, c, ch)
  {
    && (c.Own? ==> c.child != c.dst)
    && (c.Term? && !ch.defer ==> c.dst !in ch.order)
  }

  /** What the dispatcher does to the system is what the one object makes of the command. */
  lemma DispatchIsHandle(s: State, c: Command, ch: Choice)
    requires Alive(s, c.dst) && MayHandle(s.objects[c.dst], c, ch) && SendsAway(s.objects[c.dst], c, ch)
    ensures Dispatch(s, c, ch) == Next(Apply(s, c.dst, Handle(s.objects[c.dst], c, ch)))
  {
    var o := c.dst;
    var x := s.objects[o];
    if c.Term? && !ch.defer {
      var e := BeginTerm(x, if ch.zeroLinger then 0 else c.linger, ch.acks, ch.order);
      CheckedAfter(s, o, e);
    } else if c.Own? {
      var e := ProcessOwn(x, c.child);
      SeqnumAfter(s, o, e);
    } else if Counted(c) {
      CountedIsHandle(s, c, ch);
    } else if c.TermAck? {
      CheckAlone(DropAck(x));
      SetTwice(s, o, DropAck(x), CheckTermAcks(DropAck(x)).obj);
    } else if c.TermEndpoint? {
      assert SetObject(s, o, x) == s;
    }
  }

  lemma CountedIsHandle(s: State, c: Command, ch: Choice)
    requires Alive(s, c.dst) && Counted(c) && !c.Own?
    ensures Dispatch(s, c, ch) == Next(Apply(s, c.dst, Handle(s.objects[c.dst], c, ch)))
  {
    var o := c.dst;
    var z := if c.Attach? || c.Bind? then WithAcks(s.objects[o], ch.acks) else s.objects[o];
    CheckAlone(CountCommand(z));
    assert SetObject(s, o, s.objects[o]) == s;
    SetTwice(s, o, z, CountCommand(z));
    SetTwice(s, o, CountCommand(z), CheckTermAcks(CountCommand(z)).obj);
  }

  lemma CheckedAfter(s: State, o: Id, e: Effect)
    requires SamePlace(s, o, e.obj) && forall c :: c in e.sends ==> c.dst != o
    ensures Checked(Apply(s, o, e), o) == Apply(s, o, ThenCheck(e))
  {
    ApplyTwice(s, o, e, e.obj);
    PostAllLeaves(SetObject(s, o, e.obj), o, e.sends);
    SetSame(Apply(s, o, e), o);
  }

  lemma SetSame(s: State, o: Id)
    requires o in s.objects
    ensures SetObject(s, o, s.objects[o]) == s
  {
    assert s.objects[o := s.objects[o]] == s.objects;
  }

  lemma SeqnumAfter(s: State, o: Id, e: Effect)
    requires SamePlace(s, o, e.obj) && forall c :: c in e.sends ==> c.dst != o
    ensures SeqnumStep(Apply(s, o, e), o) == Apply(s, o, ThenSeqnum(e))
  {
    ApplyTwice(s, o, e, CountCommand(e.obj));
    PostAllLeaves(SetObject(s, o, e.obj), o, e.sends);
  }

  /** Posting to others leaves o as it is. */
  lemma {:induction false} PostAllLeaves(s: State, o: Id, cs: seq<Command>)
    requires o in s.objects && forall c :: c in cs ==> c.dst != o
    ensures PostAll(s, cs).objects[o] == s.objects[o]
    decreases |cs|
  {
    if cs != [] {
      PostAllLeaves(PostOne(s, cs[0]), o, cs[1..]);
    }
  }
}
