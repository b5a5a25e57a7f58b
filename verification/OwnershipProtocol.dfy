/**
 * The ownership and termination protocol of src/own.cpp, driven by the command
 * dispatch of src/object.cpp.
 *
 * Objects form a tree and talk through one FIFO mailbox per thread.  This module
 * defines the handlers of a single object as functions from the object's fields to
 * its new fields and the commands it sends, and the whole system as a deterministic
 * step function: all scheduling freedom is in the event it is given.
 */
module OwnershipProtocol {
  import opened Common

  /** The address of an object.  Addresses are handed out in creation order and never reused. */
  type Id = nat
  /** A thread slot, which is also the index of that thread's mailbox. */
  type Tid = nat

  /** The commands whose handlers live in own_t, and those that only carry a sequence number. */
  datatype Command =
    | Plug(dst: Id)
    | Own(dst: Id, child: Id)
    | Attach(dst: Id)
    | Bind(dst: Id)
    | InprocConnected(dst: Id)
    | TermReq(dst: Id, child: Id)
    | Term(dst: Id, linger: int)
    | TermAck(dst: Id)
    // Sent by an object below `child`, which is the child of dst on the way to the sender.
    | TermEndpoint(dst: Id, child: Id)

  /** The commands that the dispatcher follows with process_seqnum. */
  predicate Counted(c: Command) {
    c.Plug? || c.Own? || c.Attach? || c.Bind? || c.InprocConnected?
  }

  /** The counted commands that a holder of an inc_seqnum may send later. */
  predicate SentLater(c: Command) {
    c.Attach? || c.Bind? || c.InprocConnected?
  }

  /**
   * The fields of own_t, then four history fields that no handler reads:
   * `reserved` counts inc_seqnum calls whose command was not sent yet, `external`
   * the acks registered for events outside the tree (pipes), `deferred` says that a
   * derived class took the term command and has not yet passed it on to own_t, and
   * `asked` that a term command was sent to this object.
   */
  datatype Object = Object(
    tid: Tid,
    linger: int,
    owner: Option<Id>,
    terminating: bool,
    sent: nat,
    processed: nat,
    owned: set<Id>,
    termAcks: nat,
    destroyed: bool,
    reserved: nat,
    external: nat,
    deferred: bool,
    asked: bool)

  /** What a handler leaves behind: the object's new fields and the commands sent, in order. */
  datatype Effect = Effect(obj: Object, sends: seq<Command>)

  // ----- Handlers of one object -------------------------------------------------

  /** The condition under which check_term_acks tears a terminating object down. */
  predicate CaughtUp(x: Object) {
    x.processed == x.sent && x.termAcks == 0
  }

  function CheckTermAcks(x: Object): Effect {
    if x.terminating && CaughtUp(x) then
      Effect(x.(destroyed := true),
             if x.owner.Some? then [TermAck(x.owner.value)] else [])
    else
      Effect(x, [])
  }

  /** process_seqnum up to its final check_term_acks. */
  function CountCommand(x: Object): Object {
    x.(processed := x.processed + 1)
  }

  function ProcessOwn(x: Object, child: Id): Effect {
    if x.terminating then
      Effect(x.(termAcks := x.termAcks + 1), [Term(child, 0)])
    else
      Effect(x.(owned := x.owned + {child}), [])
  }

  function ProcessTermReq(x: Object, child: Id): Effect {
    if x.terminating || child !in x.owned then
      Effect(x, [])
    else
      Effect(x.(owned := x.owned - {child}, termAcks := x.termAcks + 1),
             [Term(child, x.linger)])
  }

  /** An order in which a walk over the set of owned objects may visit them. */
  predicate Enumerates(order: seq<Id>, s: set<Id>) {
    && (forall i, j :: 0 <= i < j < |order| ==> order[i] != order[j])
    && (set i | i in order) == s
  }

  function TermAll(order: seq<Id>, linger: int): (r: seq<Command>)
    ensures |r| == |order|
    ensures forall i :: 0 <= i < |r| ==> r[i] == Term(order[i], linger)
  {
    seq(|order|, i requires 0 <= i < |order| => Term(order[i], linger))
  }

  /**
   * own_t::process_term up to its final check_term_acks, after a derived class
   * registered `extra` acks of its own.
   */
  function BeginTerm(x: Object, linger: int, extra: nat, order: seq<Id>): Effect {
    Effect(x.(owned := {}, termAcks := x.termAcks + extra + |order|,
              external := x.external + extra, terminating := true, deferred := false),
           TermAll(order, linger))
  }

  /** register_term_acks for events outside the tree. */
  function WithAcks(x: Object, acks: nat): Object {
    x.(termAcks := x.termAcks + acks, external := x.external + acks)
  }

  /** unregister_term_ack up to its final check_term_acks. */
  function DropAck(x: Object): Object
    requires x.termAcks > 0
  {
    x.(termAcks := x.termAcks - 1)
  }

  // ----- The whole system -------------------------------------------------------

  /** A launch_child call that has sent `plug` and not yet `own`. */
  datatype Launch = Launch(parent: Id, child: Id)

  datatype State = State(
    objects: map<Id, Object>,
    mailboxes: map<Tid, seq<Command>>,
    launching: map<Tid, Launch>)

  function Box(s: State, t: Tid): seq<Command> {
    if t in s.mailboxes then s.mailboxes[t] else []
  }

  predicate Alive(s: State, o: Id) {
    o in s.objects && !s.objects[o].destroyed
  }

  /** The thread of object o runs code of o's choice: it is not inside launch_child. */
  predicate Free(s: State, o: Id) {
    Alive(s, o) && s.objects[o].tid !in s.launching
  }

  /** The thread a command goes to; a command to an unknown object goes nowhere useful. */
  function Route(s: State, c: Command): Tid {
    if c.dst in s.objects then s.objects[c.dst].tid else 0
  }

  function Post(s: State, c: Command): State {
    var t := Route(s, c);
    s.(mailboxes := s.mailboxes[t := Box(s, t) + [c]])
  }

  /** Appends a command to its mailbox and notes an object that is asked to terminate. */
  function PostOne(s: State, c: Command): State {
    var s1 := Post(s, c);
    if c.Term? && c.dst in s1.objects
    then s1.(objects := s1.objects[c.dst := s1.objects[c.dst].(asked := true)])
    else s1
  }

  function PostAll(s: State, cs: seq<Command>): (r: State)
    ensures r.objects.Keys == s.objects.Keys
    ensures forall o :: o in s.objects ==> r.objects[o].(asked := s.objects[o].asked) == s.objects[o]
    decreases |cs|
  {
    if cs == [] then s else PostAll(PostOne(s, cs[0]), cs[1..])
  }

  function Apply(s: State, o: Id, e: Effect): State {
    PostAll(s.(objects := s.objects[o := e.obj]), e.sends)
  }

  function SetObject(s: State, o: Id, x: Object): State {
    s.(objects := s.objects[o := x])
  }

  /** The check_term_acks call that ends every handler which may have finished the object. */
  function Checked(s: State, o: Id): State
    requires o in s.objects
  {
    Apply(s, o, CheckTermAcks(s.objects[o]))
  }

  /** process_seqnum, which the dispatcher calls after the handler of a counted command. */
  function SeqnumStep(s: State, o: Id): State
    requires o in s.objects
  {
    Checked(SetObject(s, o, CountCommand(s.objects[o])), o)
  }

  /** The choices a receiver's derived class makes while it handles a command. */
  datatype Choice = Choice(acks: nat, defer: bool, zeroLinger: bool, order: seq<Id>)

  datatype Event =
    | CreateRoot(id: Id, tid: Tid, linger: int)
    | LaunchPlug(parent: Id, child: Id, tid: Tid, linger: int, reserve: nat)
    | LaunchOwn(thread: Tid)
    | Terminate(o: Id, extra: nat, order: seq<Id>)
    | TermChild(o: Id, child: Id)
    | IncSeqnum(o: Id)
    | SendReserved(cmd: Command)
    | ProcessReserved(o: Id, acks: nat)
    | RegisterAcks(o: Id, acks: nat)
    | UnregisterAck(o: Id)
    | ResumeTerm(o: Id, extra: nat, order: seq<Id>)
    | SendTermEndpoint(from: Id, via: Id)
    | Deliver(thread: Tid, choice: Choice)

  /** An assertion of the source failed, or a deleted object was touched. */
  datatype Outcome = Next(state: State) | Aborted | Disabled

  /** A chain of owners leads from d up to a. */
  predicate Under(s: State, d: Id, a: Id)
    decreases d
  {
    d == a ||
    (d in s.objects && s.objects[d].owner.Some? && s.objects[d].owner.value < d &&
     Under(s, s.objects[d].owner.value, a))
  }

  function Fresh(tid: Tid, linger: int, owner: Option<Id>, sent: nat, reserved: nat): Object {
    Object(tid, linger, owner, false, sent, 0, {}, 0, false, reserved, 0, false, false)
  }

  predicate NewId(s: State, o: Id) {
    forall i :: i in s.objects ==> i < o
  }

  /** process_term on an object that may already be terminating, which the source asserts away. */
  function RunTerm(s: State, o: Id, linger: int, extra: nat, order: seq<Id>): Outcome
    requires o in s.objects
  {
    var x := s.objects[o];
    if x.terminating then Aborted
    else if !Enumerates(order, x.owned) then Disabled
    else Next(Checked(Apply(s, o, BeginTerm(x, linger, extra, order)), o))
  }

  /** object_t::process_command on the object that the command names. */
  function Dispatch(s: State, c: Command, ch: Choice): Outcome {
    if !Alive(s, c.dst) then Aborted else
      var x := s.objects[c.dst];
      match c
      case Plug(_) => Next(SeqnumStep(s, c.dst))
      case Own(_, child) => Next(SeqnumStep(Apply(s, c.dst, ProcessOwn(x, child)), c.dst))
      case Attach(_) => Next(SeqnumStep(SetObject(s, c.dst, WithAcks(x, ch.acks)), c.dst))
      case Bind(_) => Next(SeqnumStep(SetObject(s, c.dst, WithAcks(x, ch.acks)), c.dst))
      case InprocConnected(_) => Next(SeqnumStep(s, c.dst))
      case TermReq(_, child) => Next(Apply(s, c.dst, ProcessTermReq(x, child)))
      case Term(_, linger) =>
        if x.deferred then Aborted
        else if ch.defer && !x.terminating then Next(SetObject(s, c.dst, x.(deferred := true)))
        else RunTerm(s, c.dst, if ch.zeroLinger then 0 else linger, ch.acks, ch.order)
      case TermAck(_) =>
        if x.termAcks == 0 then Aborted
        else Next(Checked(SetObject(s, c.dst, DropAck(x)), c.dst))
      case TermEndpoint(_, _) => Next(s)
  }

  function Step(s: State, e: Event): Outcome {
    match e
    case CreateRoot(id, tid, linger) =>
      if !NewId(s, id) then Disabled
      else Next(s.(objects := s.objects[id := Fresh(tid, linger, None, 0, 0)]))
    case LaunchPlug(p, c, tid, linger, reserve) =>
      if !NewId(s, c) || !Free(s, p) then Disabled else
        var s1 := s.(objects := s.objects[c := Fresh(tid, linger, Some(p), 1 + reserve, reserve)],
                     launching := s.launching[s.objects[p].tid := Launch(p, c)]);
        Next(Post(s1, Plug(c)))
    case LaunchOwn(t) =>
      if t !in s.launching then Disabled else
        var Launch(p, c) := s.launching[t];
        if p !in s.objects then Disabled else
          var s1 := s.(objects := s.objects[p := s.objects[p].(sent := s.objects[p].sent + 1)],
                       launching := s.launching - {t});
          Next(Post(s1, Own(p, c)))
    case Terminate(o, extra, order) =>
      if !Free(s, o) then Disabled else
        var x := s.objects[o];
        if x.terminating then Next(s)
        else if x.owner.None? then RunTerm(s, o, x.linger, extra, order)
        else Next(Post(s, TermReq(x.owner.value, o)))
    case TermChild(o, child) =>
      if !Free(s, o) then Disabled
      else Next(Apply(s, o, ProcessTermReq(s.objects[o], child)))
    case IncSeqnum(o) =>
      if !Alive(s, o) then Disabled else
        var x := s.objects[o];
        Next(SetObject(s, o, x.(sent := x.sent + 1, reserved := x.reserved + 1)))
    case SendReserved(c) =>
      if !SentLater(c) || c.dst !in s.objects || s.objects[c.dst].reserved == 0 then Disabled else
        var x := s.objects[c.dst];
        Next(Post(SetObject(s, c.dst, x.(reserved := x.reserved - 1)), c))
    case ProcessReserved(o, acks) =>
      if o !in s.objects || s.objects[o].reserved == 0 || s.objects[o].tid in s.launching then Disabled
      else if s.objects[o].destroyed then Aborted else
        var x := s.objects[o];
        Next(SeqnumStep(SetObject(s, o, WithAcks(x.(reserved := x.reserved - 1), acks)), o))
    case RegisterAcks(o, acks) =>
      if !Free(s, o) then Disabled
      else Next(SetObject(s, o, WithAcks(s.objects[o], acks)))
    case UnregisterAck(o) =>
      if o !in s.objects || s.objects[o].external == 0 || s.objects[o].tid in s.launching then Disabled
      else if s.objects[o].destroyed || s.objects[o].termAcks == 0 then Aborted else
        var x := s.objects[o];
        Next(Checked(SetObject(s, o, DropAck(x.(external := x.external - 1))), o))
    case ResumeTerm(o, extra, order) =>
      if o !in s.objects || !s.objects[o].deferred || s.objects[o].tid in s.launching then Disabled
      else if s.objects[o].destroyed then Aborted
      else RunTerm(s, o, 0, extra, order)
    case SendTermEndpoint(from, via) =>
      if !Free(s, from) || !Under(s, from, via) || via !in s.objects || s.objects[via].owner.None?
      then Disabled
      else Next(Post(s, TermEndpoint(s.objects[via].owner.value, via)))
    case Deliver(t, ch) =>
      if t in s.launching || Box(s, t) == [] then Disabled
      else Dispatch(s.(mailboxes := s.mailboxes[t := Box(s, t)[1..]]), Box(s, t)[0], ch)
  }

  const START := State(map[], map[], map[])

  /** Event i is not refused and leads from its state to the next. */
  predicate StepAt(states: seq<State>, events: seq<Event>, i: nat)
    requires i < |events| && |states| == |events| + 1
  {
    Step(states[i], events[i]) == Next(states[i + 1])
  }

  /** A run: it starts with no objects, and every event leads to the next state. */
  predicate IsRun(states: seq<State>, events: seq<Event>) {
    && |states| == |events| + 1
    && states[0] == START
    && forall i {:trigger StepAt(states, events, i)} :: 0 <= i < |events| ==> StepAt(states, events, i)
  }
}
