/**
 * Every event of the ownership protocol keeps the invariant, and no event makes an
 * assertion of the source fail or reach an object that is gone.
 */
module OwnershipSteps {
  import opened Common
  import opened OwnershipProtocol
  import opened OwnershipSafety

  // ----- Composite moves: their mailboxes, launches and counts --------------------

  ghost function PopSet(s: State, t: Tid, o: Id, x: Object): State
    requires Box(s, t) != []
  {
    SetObject(Pop(s, t), o, x)
  }

  ghost function SetPost(s: State, o: Id, x: Object, c: Command): State {
    Post(SetObject(s, o, x), c)
  }

  /** Object o takes fields x and sends a term command to its child c. */
  ghost function Ask(s: State, o: Id, x: Object, c: Id, linger: int): State {
    PostOne(SetObject(s, o, x), Term(c, linger))
  }

  /** x may replace object o without anyone else noticing. */
  ghost predicate Private(s: State, o: Id, x: Object) {
    SamePlace(s, o, x) && x.asked == s.objects[o].asked && x.destroyed == s.objects[o].destroyed
  }

  ghost predicate RestOk(s: State) {
    BoxesOk(s) && LaunchesOk(s)
  }

  lemma SetRest(s: State, o: Id, x: Object)
    requires RestOk(s) && Private(s, o, x)
    ensures RestOk(SetObject(s, o, x))
    ensures Moved(BooksOf(s), BooksOf(SetObject(s, o, x)), None, None, None, None)
  {
    SetBoxes(s, o, x);
    KeepLaunches(s, SetObject(s, o, x));
    SetCounts(s, o, x);
    SetKids(s, o, x);
  }

  lemma PopSetRest(s: State, t: Tid, o: Id, x: Object)
    requires RestOk(s) && Box(s, t) != [] && Private(s, o, x)
    ensures RestOk(PopSet(s, t, o, x))
  {
    PopBoxes(s, t);
    SetBoxes(Pop(s, t), o, x);
    KeepLaunches(s, PopSet(s, t, o, x));
  }

  lemma PopSetRel(s: State, t: Tid, o: Id, x: Object)
    requires BoxesOk(s) && Box(s, t) != [] && Private(s, o, x)
    ensures Moved(BooksOf(s), BooksOf(PopSet(s, t, o, x)), None, Some(Box(s, t)[0]), None, None)
  {
    PopBoxes(s, t);
    PopCounts(s, t);
    SetCounts(Pop(s, t), o, x);
    SetKids(Pop(s, t), o, x);
    assert forall k: Id :: AskedKids(Pop(s, t), k) == AskedKids(s, k);
  }

  lemma SetPostRest(s: State, o: Id, x: Object, c: Command)
    requires RestOk(s) && Private(s, o, x) && WellAddressed(s, c)
    requires c.TermReq? || c.TermEndpoint? ==> !s.objects[c.child].destroyed
    requires !c.Plug?
    ensures RestOk(SetPost(s, o, x, c))
  {
    SetBoxes(s, o, x);
    PostBoxes(SetObject(s, o, x), c);
    KeepLaunches(s, SetPost(s, o, x, c));
  }

  lemma SetPostRel(s: State, o: Id, x: Object, c: Command)
    requires Private(s, o, x) && WellAddressed(s, c)
    ensures Moved(BooksOf(s), BooksOf(SetPost(s, o, x, c)), Some(c), None, None, None)
  {
    var m := SetObject(s, o, x);
    SetCounts(s, o, x);
    PostCounts(m, c);
    SetKids(s, o, x);
    assert forall k: Id :: AskedKids(Post(m, c), k) == AskedKids(m, k);
  }

  /** c is a child of o that has not been asked to terminate yet. */
  ghost predicate Askable(s: State, o: Id, c: Id) {
    o in s.objects && Alive(s, c) && s.objects[c].owner == Some(o) && !s.objects[c].asked && o != c
  }

  lemma AskRest(s: State, o: Id, x: Object, c: Id, linger: int)
    requires RestOk(s) && Private(s, o, x) && Askable(s, o, c)
    ensures RestOk(Ask(s, o, x, c, linger))
  {
    var m := SetPost(s, o, x, Term(c, linger));
    SetPostRest(s, o, x, Term(c, linger));
    assert Ask(s, o, x, c, linger) == SetObject(m, c, m.objects[c].(asked := true));
    SetBoxes(m, c, m.objects[c].(asked := true));
    KeepLaunches(m, Ask(s, o, x, c, linger));
  }

  lemma AskKids(s: State, o: Id, c: Id)
    requires Askable(s, o, c)
    ensures forall k: Id ::
              |AskedKids(SetObject(s, c, s.objects[c].(asked := true)), k)| == |AskedKids(s, k)| + Bit(k == o)
  {
    var r := SetObject(s, c, s.objects[c].(asked := true));
    forall k: Id ensures |AskedKids(r, k)| == |AskedKids(s, k)| + Bit(k == o) {
      if k == o {
        assert AskedKids(r, k) == AskedKids(s, k) + {c};
      } else {
        assert AskedKids(r, k) == AskedKids(s, k);
      }
    }
  }

  lemma AskRel(s: State, o: Id, x: Object, c: Id, linger: int)
    requires Private(s, o, x) && Askable(s, o, c)
    ensures Moved(BooksOf(s), BooksOf(Ask(s, o, x, c, linger)), Some(Term(c, linger)), None, Some(o), None)
  {
    var m := SetPost(s, o, x, Term(c, linger));
    assert Ask(s, o, x, c, linger) == SetObject(m, c, m.objects[c].(asked := true));
    SetPostRel(s, o, x, Term(c, linger));
    SetCounts(m, c, m.objects[c].(asked := true));
    AskKids(m, o, c);
  }

  // ----- Composite moves: the books ------------------------------------------------

  /** c concerns object o alone. */
  ghost predicate About(c: Option<Command>, o: Id) {
    c.Some? ==> c.value.dst == o && !c.value.Own?
  }

  /**
   * y is x after a handler that changed counters and flags alone, and those changes
   * account for the one command that was posted and the one that was taken.
   */
  ghost predicate Balanced(o: Id, x: Object, y: Object, post: Option<Command>, pop: Option<Command>) {
    && y.tid == x.tid && y.owner == x.owner && y.owned == x.owned
    && y.asked == x.asked && y.destroyed == x.destroyed
    && About(post, o) && About(pop, o)
    && y.sent - y.processed - y.reserved + Gain(pop, CountedTo(o))
       == x.sent - x.processed - x.reserved + Gain(post, CountedTo(o))
    && y.termAcks - y.external + Gain(pop, AckTo(o)) == x.termAcks - x.external + Gain(post, AckTo(o))
    && Bit(y.deferred) + Bit(y.terminating && y.owner.Some?) + Gain(post, TermTo(o))
       == Bit(x.deferred) + Bit(x.terminating && x.owner.Some?) + Gain(pop, TermTo(o))
    && (y.owner.None? ==> !y.deferred)
    && (y.terminating ==> y.owned == {})
  }

  lemma LocalBooks(b: Books, b': Books, o: Id, y: Object, post: Option<Command>, pop: Option<Command>)
    requires BooksOk(b) && o in b.objects && Balanced(o, b.objects[o], y, post, pop)
    requires b'.launching == b.launching && b'.objects == b.objects[o := y]
    requires Moved(b, b', post, pop, None, None)
    ensures BooksOk(b')
  {
    LocalRow(b, b', o, y, post, pop);
    forall k | k in b'.objects ensures PhaseOk(b', k) && AccountsOk(b', k) {
      assert PhaseOk(b, k) && AccountsOk(b, k);
    }
  }

  lemma LocalRow(b: Books, b': Books, o: Id, y: Object, post: Option<Command>, pop: Option<Command>)
    requires BooksOk(b) && o in b.objects && Balanced(o, b.objects[o], y, post, pop)
    requires b'.launching == b.launching && b'.objects == b.objects[o := y]
    requires Moved(b, b', post, pop, None, None)
    ensures PhaseOk(b', o) && AccountsOk(b', o)
  {
    assert PhaseOk(b, o) && AccountsOk(b, o);
  }

  lemma OwnedBooks(b: Books, b': Books, o: Id, c: Id)
    requires BooksOk(b) && o in b.objects && b'.launching == b.launching
    requires !b.objects[o].terminating && c in b.objects && b.objects[c].owner == Some(o)
    requires Moved(b, b', None, Some(Own(o, c)), None, None)
    requires b'.objects == b.objects[o := CountCommand(b.objects[o].(owned := b.objects[o].owned + {c}))]
    ensures BooksOk(b')
  {
    assert AccountsOk(b, o);
    forall k | k in b'.objects ensures PhaseOk(b', k) && AccountsOk(b', k) {
      assert PhaseOk(b, k) && AccountsOk(b, k);
    }
  }

  lemma AdoptAndAskBooks(b: Books, b': Books, o: Id, c: Id, linger: int)
    requires BooksOk(b) && o in b.objects && b'.launching == b.launching
    requires b.objects[o].terminating && c in b.objects && b.objects[c].owner == Some(o) && c != o
    requires Moved(b, b', Some(Term(c, linger)), Some(Own(o, c)), Some(o), None)
    requires b'.objects == b.objects[o := CountCommand(b.objects[o].(termAcks := b.objects[o].termAcks + 1))]
                                    [c := b.objects[c].(asked := true)]
    ensures BooksOk(b')
  {
    forall k | k in b'.objects ensures PhaseOk(b', k) && AccountsOk(b', k) {
      assert PhaseOk(b, k) && AccountsOk(b, k);
    }
  }

  lemma AskBooks(b: Books, b': Books, o: Id, c: Id, linger: int)
    requires BooksOk(b) && o in b.objects && b'.launching == b.launching
    requires !b.objects[o].terminating && c in b.objects[o].owned && c in b.objects && c != o
    requires Moved(b, b', Some(Term(c, linger)), None, Some(o), None)
    requires b'.objects == b.objects[o := b.objects[o].(owned := b.objects[o].owned - {c},
                                                        termAcks := b.objects[o].termAcks + 1)]
                                    [c := b.objects[c].(asked := true)]
    ensures BooksOk(b')
  {
    assert AccountsOk(b, o);
    forall k | k in b'.objects ensures PhaseOk(b', k) && AccountsOk(b', k) {
      assert PhaseOk(b, k) && AccountsOk(b, k);
    }
  }

  // ----- Whole moves ----------------------------------------------------------------

  lemma SetCore(s: State, o: Id, y: Object)
    requires Core(s) && o in s.objects && Balanced(o, s.objects[o], y, None, None)
    ensures Core(SetObject(s, o, y))
  {
    SetRest(s, o, y);
    LocalBooks(BooksOf(s), BooksOf(SetObject(s, o, y)), o, y, None, None);
  }

  lemma PopSetCore(s: State, t: Tid, o: Id, y: Object)
    requires Core(s) && Box(s, t) != [] && o in s.objects
    requires Balanced(o, s.objects[o], y, None, Some(Box(s, t)[0]))
    ensures Core(PopSet(s, t, o, y))
  {
    PopSetRest(s, t, o, y);
    PopSetRel(s, t, o, y);
    LocalBooks(BooksOf(s), BooksOf(PopSet(s, t, o, y)), o, y, None, Some(Box(s, t)[0]));
  }

  lemma AdoptCore(s: State, t: Tid, o: Id, c: Id)
    requires Core(s) && Box(s, t) != [] && Box(s, t)[0] == Own(o, c) && o in s.objects
    requires !s.objects[o].terminating && c in s.objects && s.objects[c].owner == Some(o)
    ensures Core(PopSet(s, t, o, Adopted(s.objects[o], c)))
  {
    var y := Adopted(s.objects[o], c);
    PopSetRest(s, t, o, y);
    PopSetRel(s, t, o, y);
    OwnedBooks(BooksOf(s), BooksOf(PopSet(s, t, o, y)), o, c);
  }

  /** x after it handled the own command for c. */
  ghost function Adopted(x: Object, c: Id): Object {
    CountCommand(x.(owned := x.owned + {c}))
  }

  lemma SetPostCore(s: State, o: Id, y: Object, c: Command)
    requires Core(s) && o in s.objects && Balanced(o, s.objects[o], y, Some(c), None)
    requires WellAddressed(s, c) && !c.Plug?
    requires c.TermReq? || c.TermEndpoint? ==> !s.objects[c.child].destroyed
    ensures Core(SetPost(s, o, y, c))
  {
    SetPostRest(s, o, y, c);
    SetPostRel(s, o, y, c);
    LocalBooks(BooksOf(s), BooksOf(SetPost(s, o, y, c)), o, y, Some(c), None);
  }

  lemma AskCore(s: State, o: Id, c: Id, linger: int)
    requires Core(s) && o in s.objects && !s.objects[o].terminating && c in s.objects[o].owned
    requires Askable(s, o, c)
    ensures Core(Ask(s, o, Asking(s.objects[o], c), c, linger))
  {
    var y := Asking(s.objects[o], c);
    AskRest(s, o, y, c, linger);
    AskRel(s, o, y, c, linger);
    AskBooks(BooksOf(s), BooksOf(Ask(s, o, y, c, linger)), o, c, linger);
  }

  /** x after it took c out of its owned objects and counted on one more ack. */
  ghost function Asking(x: Object, c: Id): Object {
    x.(owned := x.owned - {c}, termAcks := x.termAcks + 1)
  }

  /** An object that nobody asked to terminate is alive. */
  lemma UnaskedAlive(s: State, c: Id)
    requires BooksOk(BooksOf(s)) && c in s.objects && LifeOk(s.objects[c])
    requires s.objects[c].owner.Some? && !s.objects[c].asked
    ensures Alive(s, c) && s.objects[c].owner.value < c
  {
    assert PhaseOk(BooksOf(s), c) && AccountsOk(BooksOf(s), c);
  }

  lemma OwnedAskable(s: State, o: Id, c: Id)
    requires Core(s) && LivesOk(s, {o}) && o in s.objects && c in s.objects[o].owned
    ensures Askable(s, o, c)
  {
    assert AccountsOk(BooksOf(s), o);
    assert PhaseOk(BooksOf(s), c);
    assert LifeOk(s.objects[c]);
    UnaskedAlive(s, c);
  }

  /** process_own on a terminating owner: the new child is asked to go at once. */
  ghost function AdoptAndAsk(s: State, t: Tid, o: Id, c: Id): State
    requires Box(s, t) != [] && o in s.objects
  {
    var x := s.objects[o];
    Ask(Pop(s, t), o, CountCommand(x.(termAcks := x.termAcks + 1)), c, 0)
  }

  lemma AdoptAndAskCore(s: State, t: Tid, o: Id, c: Id)
    requires Core(s) && Box(s, t) != [] && Box(s, t)[0] == Own(o, c) && o in s.objects
    requires s.objects[o].terminating && Askable(s, o, c)
    ensures Core(AdoptAndAsk(s, t, o, c))
  {
    AdoptAndAskRest(s, t, o, c);
    PopRel(s, t);
    AskAfter(BooksOf(s), Pop(s, t), o, AdoptAndAsk(s, t, o, c).objects[o], c, 0, Some(Own(o, c)));
    AdoptAndAskBooks(BooksOf(s), BooksOf(AdoptAndAsk(s, t, o, c)), o, c, 0);
  }

  lemma AdoptAndAskRest(s: State, t: Tid, o: Id, c: Id)
    requires RestOk(s) && Box(s, t) != [] && Askable(s, o, c)
    ensures RestOk(AdoptAndAsk(s, t, o, c))
  {
    var x := s.objects[o];
    PopBoxes(s, t);
    KeepLaunches(s, Pop(s, t));
    AskRest(Pop(s, t), o, CountCommand(x.(termAcks := x.termAcks + 1)), c, 0);
  }

  lemma AskAfter(b: Books, m: State, o: Id, y: Object, c: Id, linger: int, pop: Option<Command>)
    requires Moved(b, BooksOf(m), None, pop, None, None)
    requires Private(m, o, y) && Askable(m, o, c)
    ensures Moved(b, BooksOf(Ask(m, o, y, c, linger)), Some(Term(c, linger)), pop, Some(o), None)
  {
    AskRel(m, o, y, c, linger);
  }

  lemma PopRel(s: State, t: Tid)
    requires BoxesOk(s) && Box(s, t) != []
    ensures Moved(BooksOf(s), BooksOf(Pop(s, t)), None, Some(Box(s, t)[0]), None, None)
  {
    PopBoxes(s, t);
    PopCounts(s, t);
    assert forall k: Id :: AskedKids(Pop(s, t), k) == AskedKids(s, k);
  }
}
