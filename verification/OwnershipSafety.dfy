/**
 * What every run of the ownership protocol keeps: the accounting between counters,
 * mailboxes and the tree, proved handler by handler.
 */
module OwnershipSafety {
  import opened Common
  import opened OwnershipProtocol

  // ----- Counting commands in a mailbox -----------------------------------------

  /** The kinds of command that the accounting counts. */
  datatype Pattern = CountedTo(o: Id) | TermTo(o: Id) | AckTo(o: Id) | OwnOf(o: Id)

  ghost predicate Matches(c: Command, p: Pattern) {
    match p
    case CountedTo(o) => Counted(c) && c.dst == o
    case TermTo(o) => c.Term? && c.dst == o
    case AckTo(o) => c == TermAck(o)
    case OwnOf(o) => c.Own? && c.child == o
  }

  ghost function Count(q: seq<Command>, p: Pattern): nat {
    if q == [] then 0 else Bit(Matches(q[0], p)) + Count(q[1..], p)
  }

  lemma {:induction false} CountAppend(q: seq<Command>, c: Command, p: Pattern)
    ensures Count(q + [c], p) == Count(q, p) + Bit(Matches(c, p))
  {
    if q != [] {
      assert (q + [c])[1..] == q[1..] + [c];
      CountAppend(q[1..], c, p);
    }
  }

  lemma {:induction false} CountPositive(q: seq<Command>, p: Pattern, i: nat)
    requires i < |q| && Matches(q[i], p)
    ensures Count(q, p) > 0
  {
    if i > 0 { CountPositive(q[1..], p, i - 1); }
  }

  lemma {:induction false} CountWitness(q: seq<Command>, p: Pattern) returns (i: nat)
    requires Count(q, p) > 0
    ensures i < |q| && Matches(q[i], p)
  {
    if Matches(q[0], p) {
      i := 0;
    } else {
      i := CountWitness(q[1..], p);
      i := i + 1;
    }
  }

  lemma {:induction false} CountZero(q: seq<Command>, p: Pattern)
    requires forall i :: 0 <= i < |q| ==> !Matches(q[i], p)
    ensures Count(q, p) == 0
  {
    if q != [] {
      assert forall i :: 0 <= i < |q[1..]| ==> q[1..][i] == q[i + 1];
      CountZero(q[1..], p);
    }
  }

  /** The thread whose mailbox holds the commands of a pattern. */
  ghost function Home(s: State, p: Pattern): Option<Tid> {
    if p.o !in s.objects then None
    else if !p.OwnOf? then Some(s.objects[p.o].tid)
    else match s.objects[p.o].owner
         case None => None
         case Some(w) => if w in s.objects then Some(s.objects[w].tid) else None
  }

  /** How many commands of a pattern are in flight. */
  ghost function InFlight(s: State, p: Pattern): nat {
    match Home(s, p)
    case None => 0
    case Some(t) => Count(Box(s, t), p)
  }

  // ----- The invariant ----------------------------------------------------------

  /** Children that were sent a term command and have not acknowledged yet. */
  ghost function AskedKids(s: State, o: Id): set<Id> {
    set c | c in s.objects && s.objects[c].owner == Some(o) && s.objects[c].asked && !s.objects[c].destroyed
  }

  ghost predicate BeingLaunched(launching: map<Tid, Launch>, t: Tid, c: Id) {
    t in launching && launching[t].child == c
  }

  /**
   * The books of a state: its objects and launches, the number of commands in
   * flight of every pattern, and the number of children each object waits for.
   */
  datatype Books = Books(
    objects: map<Id, Object>,
    launching: map<Tid, Launch>,
    inFlight: Pattern -> nat,
    waitingFor: Id -> nat)

  ghost function BooksOf(s: State): Books {
    Books(s.objects, s.launching, (p: Pattern) => InFlight(s, p), (o: Id) => |AskedKids(s, o)|)
  }

  /** A child is in exactly one place: still to be owned, owned, or asked to terminate. */
  ghost predicate PhaseOk(b: Books, o: Id)
    requires o in b.objects
  {
    var x := b.objects[o];
    match x.owner
    case None => !x.asked && !x.deferred
    case Some(p) =>
      && p in b.objects && p < o
      && b.inFlight(OwnOf(o)) + Bit(BeingLaunched(b.launching, b.objects[p].tid, o))
         + Bit(o in b.objects[p].owned) + Bit(x.asked) == 1
  }

  /** Counters of one object against the mailboxes and the tree. */
  ghost predicate AccountsOk(b: Books, o: Id)
    requires o in b.objects
  {
    var x := b.objects[o];
    && x.sent == x.processed + b.inFlight(CountedTo(o)) + x.reserved
    && x.termAcks == x.external + b.inFlight(AckTo(o)) + b.waitingFor(o)
    && b.inFlight(TermTo(o)) + Bit(x.deferred) + Bit(x.terminating && x.owner.Some?) == Bit(x.asked)
    && (x.terminating ==> x.owned == {})
    && (forall c :: c in x.owned ==> c in b.objects && b.objects[c].owner == Some(o))
  }

  ghost predicate BooksOk(b: Books) {
    forall o {:trigger PhaseOk(b, o)} {:trigger AccountsOk(b, o)} :: o in b.objects
        ==> PhaseOk(b, o) && AccountsOk(b, o)
  }

  ghost function Gain(c: Option<Command>, p: Pattern): nat {
    match c
    case None => 0
    case Some(d) => Bit(Matches(d, p))
  }

  /** The counts of b' are those of b after one post, one pop and one change of who waits. */
  ghost predicate Moved(b: Books, b': Books, post: Option<Command>, pop: Option<Command>,
                        waits: Option<Id>, served: Option<Id>)
  {
    && (forall p :: b'.inFlight(p) + Gain(pop, p) == b.inFlight(p) + Gain(post, p))
    && (forall k: Id :: b'.waitingFor(k) + Bit(served == Some(k)) == b.waitingFor(k) + Bit(waits == Some(k)))
  }

  /** An object is gone exactly when it is terminating and has nothing left to wait for. */
  ghost predicate LifeOk(x: Object) {
    x.destroyed <==> x.terminating && CaughtUp(x)
  }

  /** A command that names a known object and, if it names a child, a child of that object. */
  ghost predicate WellAddressed(s: State, c: Command) {
    && c.dst in s.objects
    && (c.Own? || c.TermReq? || c.TermEndpoint? ==>
          c.child in s.objects && s.objects[c.child].owner == Some(c.dst))
  }

  /** One command in its mailbox: it is where it belongs, and FIFO order protects its target. */
  ghost predicate CommandOk(s: State, t: Tid, q: seq<Command>, i: nat)
    requires i < |q|
  {
    var c := q[i];
    && WellAddressed(s, c)
    && s.objects[c.dst].tid == t
    && (c.TermReq? || c.TermEndpoint? ==>
          s.objects[c.child].destroyed ==> TermAck(c.dst) in q[i + 1..])
    && (c.Term? ==> Plug(c.dst) !in q[i + 1..])
  }

  ghost predicate BoxOk(s: State, t: Tid, q: seq<Command>) {
    forall i {:trigger CommandOk(s, t, q, i)} :: 0 <= i < |q| ==> CommandOk(s, t, q, i)
  }

  ghost predicate BoxesOk(s: State) {
    forall t {:trigger BoxOk(s, t, Box(s, t))} :: BoxOk(s, t, Box(s, t))
  }

  /** A parent inside launch_child cannot go away: its thread runs nothing else. */
  ghost predicate LaunchOk(s: State, t: Tid) {
    t in s.launching ==>
      var l := s.launching[t];
      && Alive(s, l.parent) && s.objects[l.parent].tid == t
      && l.child in s.objects && s.objects[l.child].owner == Some(l.parent)
  }

  ghost predicate LaunchesOk(s: State) {
    forall t {:trigger LaunchOk(s, t)} :: LaunchOk(s, t)
  }

  ghost predicate Core(s: State) {
    BooksOk(BooksOf(s)) && BoxesOk(s) && LaunchesOk(s)
  }

  ghost predicate LivesOk(s: State, busy: set<Id>) {
    forall o {:trigger LifeOk(s.objects[o])} :: o in s.objects && o !in busy ==> LifeOk(s.objects[o])
  }

  ghost predicate Inv(s: State) {
    Core(s) && LivesOk(s, {})
  }

  /** The invariant while a handler of `o` runs and its check_term_acks is still to come. */
  ghost predicate InvBut(s: State, o: Id) {
    Core(s) && Free(s, o) && LivesOk(s, {o})
  }

  // ----- How the primitive moves change counts, kids and mailboxes ----------------

  function Pop(s: State, t: Tid): State
    requires Box(s, t) != []
  {
    s.(mailboxes := s.mailboxes[t := Box(s, t)[1..]])
  }

  /** x differs from object o in nothing that names or places it. */
  ghost predicate SamePlace(s: State, o: Id, x: Object) {
    o in s.objects && x.tid == s.objects[o].tid && x.owner == s.objects[o].owner
  }

  lemma SetCounts(s: State, o: Id, x: Object)
    requires SamePlace(s, o, x)
    ensures forall p :: InFlight(SetObject(s, o, x), p) == InFlight(s, p)
  {
    var r := SetObject(s, o, x);
    forall p ensures InFlight(r, p) == InFlight(s, p) {
      assert Home(r, p) == Home(s, p);
      assert forall t :: Box(r, t) == Box(s, t);
    }
  }

  lemma PostCounts(s: State, c: Command)
    requires WellAddressed(s, c)
    ensures forall p :: InFlight(Post(s, c), p) == InFlight(s, p) + Bit(Matches(c, p))
  {
    var r := Post(s, c);
    var t := s.objects[c.dst].tid;
    forall p ensures InFlight(r, p) == InFlight(s, p) + Bit(Matches(c, p)) {
      assert Home(r, p) == Home(s, p);
      CountAppend(Box(s, t), c, p);
    }
  }

  lemma PopCounts(s: State, t: Tid)
    requires Box(s, t) != [] && CommandOk(s, t, Box(s, t), 0)
    ensures forall p :: InFlight(s, p) == InFlight(Pop(s, t), p) + Bit(Matches(Box(s, t)[0], p))
  {
    var r := Pop(s, t);
    forall p ensures InFlight(s, p) == InFlight(r, p) + Bit(Matches(Box(s, t)[0], p)) {
      assert Home(r, p) == Home(s, p);
    }
  }

  lemma SetKids(s: State, o: Id, x: Object)
    requires SamePlace(s, o, x)
    requires x.asked == s.objects[o].asked && x.destroyed == s.objects[o].destroyed
    ensures forall k :: AskedKids(SetObject(s, o, x), k) == AskedKids(s, k)
  {
  }

  lemma SetBoxes(s: State, o: Id, x: Object)
    requires BoxesOk(s) && SamePlace(s, o, x)
    requires x.destroyed ==> s.objects[o].destroyed
    ensures BoxesOk(SetObject(s, o, x))
  {
    var r := SetObject(s, o, x);
    forall t ensures BoxOk(r, t, Box(r, t)) {
      assert BoxOk(s, t, Box(s, t));
      forall i | 0 <= i < |Box(r, t)| ensures CommandOk(r, t, Box(r, t), i) {
        assert CommandOk(s, t, Box(s, t), i);
      }
    }
  }

  lemma PostBoxes(s: State, c: Command)
    requires BoxesOk(s) && WellAddressed(s, c)
    requires c.TermReq? || c.TermEndpoint? ==> !s.objects[c.child].destroyed
    requires c.Plug? ==> InFlight(s, TermTo(c.dst)) == 0
    ensures BoxesOk(Post(s, c))
  {
    var r := Post(s, c);
    var u := s.objects[c.dst].tid;
    forall t ensures BoxOk(r, t, Box(r, t)) {
      var q := Box(s, t);
      assert BoxOk(s, t, q);
      forall i | 0 <= i < |Box(r, t)| ensures CommandOk(r, t, Box(r, t), i) {
        if i < |q| {
          assert CommandOk(s, t, q, i);
          if t == u {
            assert (q + [c])[i + 1..] == q[i + 1..] + [c];
            if c.Plug? && q[i].Term? && q[i].dst == c.dst { CountPositive(q, TermTo(c.dst), i); }
          }
        }
      }
    }
  }

  lemma PopBoxes(s: State, t: Tid)
    requires BoxesOk(s) && Box(s, t) != []
    ensures BoxesOk(Pop(s, t))
    ensures CommandOk(s, t, Box(s, t), 0)
  {
    var r := Pop(s, t);
    forall u ensures BoxOk(r, u, Box(r, u)) {
      var q := Box(s, u);
      assert BoxOk(s, u, q);
      forall i | 0 <= i < |Box(r, u)| ensures CommandOk(r, u, Box(r, u), i) {
        if u == t {
          assert CommandOk(s, u, q, i + 1);
          assert q[1..][i + 1..] == q[i + 2..];
        } else {
          assert CommandOk(s, u, q, i);
        }
      }
    }
    assert BoxOk(s, t, Box(s, t));
  }

  lemma KeepLaunches(s: State, r: State)
    requires LaunchesOk(s) && r.launching == s.launching
    requires s.objects.Keys <= r.objects.Keys
    requires forall k :: k in s.objects ==> SamePlace(r, k, s.objects[k])
    requires forall k :: k in s.objects && r.objects[k].destroyed ==>
               s.objects[k].destroyed || s.objects[k].tid !in s.launching
    ensures LaunchesOk(r)
  {
    forall t ensures LaunchOk(r, t) {
      assert LaunchOk(s, t);
    }
  }

  // ----- check_term_acks --------------------------------------------------------

  ghost function Gone(s: State, o: Id): State
    requires o in s.objects
  {
    SetObject(s, o, s.objects[o].(destroyed := true))
  }

  lemma GoneKids(s: State, o: Id)
    requires o in s.objects && !s.objects[o].destroyed
    requires s.objects[o].owner.Some? ==> s.objects[o].asked
    ensures forall k: Id :: |AskedKids(s, k)| == |AskedKids(Gone(s, o), k)| + Bit(s.objects[o].owner == Some(k))
  {
    var r := Gone(s, o);
    forall k: Id ensures |AskedKids(s, k)| == |AskedKids(r, k)| + Bit(s.objects[o].owner == Some(k)) {
      if s.objects[o].owner == Some(k) {
        assert AskedKids(s, k) == AskedKids(r, k) + {o};
      } else {
        assert AskedKids(s, k) == AskedKids(r, k);
      }
    }
  }

  lemma RootGoneBoxes(s: State, o: Id)
    requires BoxesOk(s) && o in s.objects && s.objects[o].owner.None?
    ensures BoxesOk(Gone(s, o))
  {
    var r := Gone(s, o);
    forall t ensures BoxOk(r, t, Box(r, t)) {
      assert BoxOk(s, t, Box(s, t));
      forall i | 0 <= i < |Box(r, t)| ensures CommandOk(r, t, Box(r, t), i) {
        assert CommandOk(s, t, Box(s, t), i);
      }
    }
  }

  /** The ack that a dying child posts lands behind every request that names it. */
  lemma ChildGoneBoxes(s: State, o: Id, p: Id)
    requires BoxesOk(s) && o in s.objects && s.objects[o].owner == Some(p) && p in s.objects
    ensures BoxesOk(Post(Gone(s, o), TermAck(p)))
  {
    var r := Post(Gone(s, o), TermAck(p));
    var u := s.objects[p].tid;
    forall t ensures BoxOk(r, t, Box(r, t)) {
      var q := Box(s, t);
      assert BoxOk(s, t, q);
      forall i | 0 <= i < |Box(r, t)| ensures CommandOk(r, t, Box(r, t), i) {
        if i < |q| {
          assert CommandOk(s, t, q, i);
          if t == u { assert (q + [TermAck(p)])[i + 1..] == q[i + 1..] + [TermAck(p)]; }
        }
      }
    }
  }

  lemma GoneRel(s: State, o: Id)
    requires Alive(s, o) && s.objects[o].owner.None?
    ensures Moved(BooksOf(s), BooksOf(Gone(s, o)), None, None, None, None)
  {
    SetCounts(s, o, Gone(s, o).objects[o]);
    GoneKids(s, o);
  }

  lemma GoneAckRel(s: State, o: Id, p: Id)
    requires Alive(s, o) && s.objects[o].owner == Some(p) && p in s.objects && s.objects[o].asked
    ensures Moved(BooksOf(s), BooksOf(Post(Gone(s, o), TermAck(p))), Some(TermAck(p)), None, None, Some(p))
  {
    var g := Gone(s, o);
    SetCounts(s, o, g.objects[o]);
    PostCounts(g, TermAck(p));
    GoneKids(s, o);
    assert forall k: Id :: AskedKids(Post(g, TermAck(p)), k) == AskedKids(g, k);
  }

  lemma GoneBooks(b: Books, b': Books, o: Id)
    requires BooksOk(b) && o in b.objects && b.objects[o].owner.None?
    requires b'.objects == b.objects[o := b.objects[o].(destroyed := true)] && b'.launching == b.launching
    requires Moved(b, b', None, None, None, None)
    ensures BooksOk(b')
  {
    forall k | k in b'.objects ensures PhaseOk(b', k) && AccountsOk(b', k) {
      assert PhaseOk(b, k) && AccountsOk(b, k);
    }
  }

  lemma GoneAckBooks(b: Books, b': Books, o: Id, p: Id)
    requires BooksOk(b) && o in b.objects && b.objects[o].owner == Some(p) && p in b.objects
    requires b'.objects == b.objects[o := b.objects[o].(destroyed := true)] && b'.launching == b.launching
    requires Moved(b, b', Some(TermAck(p)), None, None, Some(p))
    ensures BooksOk(b')
  {
    forall k | k in b'.objects ensures PhaseOk(b', k) && AccountsOk(b', k) {
      assert PhaseOk(b, k) && AccountsOk(b, k);
    }
  }

  lemma GoneCore(s: State, o: Id)
    requires Core(s) && Free(s, o) && s.objects[o].owner.None?
    ensures Core(Gone(s, o))
  {
    GoneRel(s, o);
    GoneBooks(BooksOf(s), BooksOf(Gone(s, o)), o);
    RootGoneBoxes(s, o);
    KeepLaunches(s, Gone(s, o));
  }

  lemma GoneAckCore(s: State, o: Id, p: Id)
    requires Core(s) && Free(s, o) && s.objects[o].owner == Some(p) && p in s.objects && s.objects[o].asked
    ensures Core(Post(Gone(s, o), TermAck(p)))
  {
    GoneAckRel(s, o, p);
    GoneAckBooks(BooksOf(s), BooksOf(Post(Gone(s, o), TermAck(p))), o, p);
    ChildGoneBoxes(s, o, p);
    KeepLaunches(s, Post(Gone(s, o), TermAck(p)));
  }

  /** check_term_acks restores the invariant, whether or not it ends the object. */
  lemma CheckedKeepsInv(s: State, o: Id)
    requires InvBut(s, o)
    ensures Inv(Checked(s, o))
  {
    var x := s.objects[o];
    var r := Checked(s, o);
    if !(x.terminating && CaughtUp(x)) {
      assert r == s;
      CheckedLives(s, o);
    } else if x.owner.None? {
      assert r == Gone(s, o);
      GoneCore(s, o);
      CheckedLives(s, o);
    } else {
      var p := x.owner.value;
      assert PhaseOk(BooksOf(s), o) && AccountsOk(BooksOf(s), o);
      CheckedOwned(s, o);
      GoneAckCore(s, o, p);
      CheckedLives(s, o);
    }
  }

  lemma CheckedOwned(s: State, o: Id)
    requires o in s.objects && s.objects[o].owner.Some?
    requires s.objects[o].terminating && CaughtUp(s.objects[o])
    ensures Checked(s, o) == Post(Gone(s, o), TermAck(s.objects[o].owner.value))
  {
    var c := TermAck(s.objects[o].owner.value);
    assert [c][1..] == [];
    assert PostAll(Gone(s, o), [c]) == PostAll(PostOne(Gone(s, o), c), []);
  }

  lemma CheckedLives(s: State, o: Id)
    requires Alive(s, o) && LivesOk(s, {o})
    ensures LivesOk(Checked(s, o), {})
  {
    var r := Checked(s, o);
    var x := s.objects[o];
    assert r.objects[o].(asked := x.asked) == CheckTermAcks(x).obj;
    forall k | k in r.objects ensures LifeOk(r.objects[k]) {
      if k != o {
        assert LifeOk(s.objects[k]);
        assert r.objects[k].(asked := s.objects[k].asked) == s.objects[k];
      }
    }
  }
}
