/**
 * The reference counting of src/msg.cpp.  A message is a handle that either carries its
 * few bytes itself or points to a content that other handles may share; the content is
 * to be released exactly once, when its last reference goes.
 */
module Messages {
  import opened Common

  type Handle = nat
  type ContentId = nat

  /** The types of a message that matter for sharing; Closed is what close leaves behind. */
  datatype Kind = Vsm | Cmsg | Delimiter | Lmsg | Zclmsg | Closed

  /** The union _u of a message: its type, its `shared` flag and the content it points to. */
  datatype Msg = Msg(kind: Kind, shared: bool, content: ContentId)

  /** A content: its counter, whether it has a free function, and how often it was released. */
  datatype Content = Content(refcnt: int, hasFfn: bool, freed: nat, ffnCalls: nat)

  /**
   * All messages and contents.  `owns` says for how many references each handle answers: one as a
   * rule, more after add_refs, none once its bytes were copied and the copy answers instead.
   * `leaked` says how many references to each content were lost by initialising a handle over.
   */
  datatype Store = Store(handles: map<Handle, Msg>, contents: map<ContentId, Content>,
                         owns: map<Handle, nat>, leaked: map<ContentId, nat>)

  const BLANK := Msg(Vsm, false, 0)
  const EMPTY := Store(map[], map[], map[], map[])

  predicate Points(m: Msg) {
    m.kind.Lmsg? || m.kind.Zclmsg?
  }

  /** msg_t::check: the handle was initialised and not closed. */
  predicate Usable(s: Store, h: Handle) {
    h in s.handles && !s.handles[h].kind.Closed?
  }

  predicate Holds(s: Store, h: Handle, c: ContentId) {
    h in s.handles && Points(s.handles[h]) && s.handles[h].content == c
  }

  function Owned(s: Store, h: Handle): nat {
    if h in s.owns then s.owns[h] else 0
  }

  function Lost(s: Store, c: ContentId): nat {
    if c in s.leaked then s.leaked[c] else 0
  }

  /** The references to c that h answers for. */
  function Part(s: Store, h: Handle, c: ContentId): nat {
    if Holds(s, h, c) then Owned(s, h) else 0
  }

  // ----- Sums ---------------------------------------------------------------------------------

  ghost function Parts(s: Store, c: ContentId): map<Handle, nat> {
    map h | h in s.handles && Part(s, h, c) > 0 :: Part(s, h, c)
  }

  /** The references that exist to a content. */
  ghost function References(s: Store, c: ContentId): nat {
    Sum(Parts(s, c)) + Lost(s, c)
  }

  /** Handle k answers for the same references, and says the same of them. */
  ghost predicate Same(s: Store, r: Store, k: Handle, c: ContentId) {
    Part(r, k, c) == Part(s, k, c) && (Part(r, k, c) > 0 ==> r.handles[k].shared == s.handles[k].shared)
  }

  ghost predicate SameBut(s: Store, r: Store, h: Handle, c: ContentId) {
    forall k {:trigger Part(r, k, c)} {:trigger Part(s, k, c)} :: k != h ==> Part(r, k, c) == Part(s, k, c)
  }

  /** If only h changes, the sum changes by what h answers for. */
  lemma PartsChange(s: Store, r: Store, h: Handle, c: ContentId)
    requires SameBut(s, r, h, c)
    ensures Sum(Parts(r, c)) - Part(r, h, c) == Sum(Parts(s, c)) - Part(s, h, c)
  {
    assert Parts(r, c) - {h} == Parts(s, c) - {h};
    WithoutPart(s, h, c);
    WithoutPart(r, h, c);
  }

  /** One more handle than before answers for references that another one answered for. */
  lemma PartsPassed(s: Store, r: Store, from: Handle, to: Handle, c: ContentId)
    requires from != to && forall k {:trigger Same(s, r, k, c)} :: k != from && k != to ==> Same(s, r, k, c)
    requires Part(r, from, c) + Part(r, to, c) == Part(s, from, c) + Part(s, to, c)
    ensures Sum(Parts(r, c)) == Sum(Parts(s, c))
  {
    forall k | k != from && k != to ensures Part(r, k, c) == Part(s, k, c) { assert Same(s, r, k, c); }
    assert Parts(r, c) - {from} - {to} == Parts(s, c) - {from} - {to};
    WithoutTwo(s, from, to, c);
    WithoutTwo(r, from, to, c);
  }

  lemma WithoutTwo(s: Store, h: Handle, k: Handle, c: ContentId)
    requires h != k
    ensures Sum(Parts(s, c)) == Part(s, h, c) + Part(s, k, c) + Sum(Parts(s, c) - {h} - {k})
  {
    WithoutPart(s, h, c);
    SumWithout(Parts(s, c) - {h}, k);
  }

  lemma WithoutPart(s: Store, h: Handle, c: ContentId)
    ensures Sum(Parts(s, c)) == Part(s, h, c) + Sum(Parts(s, c) - {h})
  {
    SumWithout(Parts(s, c), h);
  }

  lemma PartsSame(s: Store, r: Store, c: ContentId)
    requires forall k {:trigger Same(s, r, k, c)} :: Same(s, r, k, c)
    ensures Parts(r, c) == Parts(s, c)
  {
    forall k ensures Part(r, k, c) == Part(s, k, c) { assert Same(s, r, k, c); }
  }

  /** No handle answers for more references than there are. */
  lemma PartOf(s: Store, h: Handle, c: ContentId)
    ensures Part(s, h, c) <= References(s, c)
  {
    WithoutPart(s, h, c);
  }

  lemma TwoParts(s: Store, h: Handle, k: Handle, c: ContentId)
    requires h != k
    ensures Part(s, h, c) + Part(s, k, c) <= References(s, c)
  {
    WithoutTwo(s, h, k, c);
  }

  lemma NoParts(s: Store, c: ContentId)
    ensures References(s, c) == 0 <==> Lost(s, c) == 0 && forall h {:trigger Part(s, h, c)} :: Part(s, h, c) == 0
  {
    if References(s, c) == 0 {
      forall h ensures Part(s, h, c) == 0 { PartOf(s, h, c); }
    } else if Lost(s, c) == 0 {
      var h := Pick(Parts(s, c));
      assert Part(s, h, c) > 0;
    }
  }

  // ----- The operations ----------------------------------------------------------------------

  /** The content c after `refs` references went; it is released when none is left. */
  function Dropped(x: Content, shared: bool, refs: nat): Content {
    var y := if shared then x.(refcnt := x.refcnt - refs) else x;
    if !shared || y.refcnt == 0 then y.(freed := y.freed + 1, ffnCalls := y.ffnCalls + Bit(y.hasFfn)) else y
  }

  /** msg_t::close on a usable message. */
  function Close(s: Store, h: Handle): Store
    requires h in s.handles
  {
    var m := s.handles[h];
    var s1 := s.(handles := s.handles[h := m.(kind := Closed)], owns := s.owns[h := 0]);
    if Points(m) && m.content in s.contents
    then s1.(contents := s.contents[m.content := Dropped(s.contents[m.content], m.shared, 1)])
    else s1
  }

  /** The references that h answers for are forgotten. */
  function Forgotten(s: Store, h: Handle): map<ContentId, nat> {
    if h in s.handles && Points(s.handles[h])
    then s.leaked[s.handles[h].content := Lost(s, s.handles[h].content) + Owned(s, h)] else s.leaked
  }

  /** msg_t::init over whatever was there. */
  function Init(s: Store, h: Handle): Store {
    Store(s.handles[h := BLANK], s.contents, s.owns[h := 0], Forgotten(s, h))
  }

  /** init_size or init_data of a large message, with content c of its own. */
  function InitContent(s: Store, h: Handle, c: ContentId, kind: Kind, hasFfn: bool): Store {
    Store(s.handles[h := Msg(kind, false, c)], s.contents[c := Content(0, hasFfn, 0, 0)],
          s.owns[h := 1], Forgotten(s, h))
  }

  /** msg_t::copy from src to dst, after dst was closed. */
  function Share(s: Store, dst: Handle, src: Handle): Store
    requires src in s.handles
  {
    var m := s.handles[src];
    if Points(m) && m.content in s.contents then
      var x := s.contents[m.content];
      var y := if m.shared then x.(refcnt := x.refcnt + 1) else x.(refcnt := 2);
      s.(handles := s.handles[src := m.(shared := true)][dst := m.(shared := true)],
         contents := s.contents[m.content := y], owns := s.owns[dst := 1])
    else s.(handles := s.handles[dst := m])
  }

  function Copy(s: Store, dst: Handle, src: Handle): Store
    requires src in s.handles && dst in s.handles && src != dst
  {
    Share(Close(s, dst), dst, src)
  }

  /** The bytes of src go to dst, which answers for what src answered for. */
  function Shift(s: Store, dst: Handle, src: Handle): Store
    requires src in s.handles
  {
    s.(handles := s.handles[dst := s.handles[src]][src := BLANK], owns := s.owns[dst := Owned(s, src)][src := 0])
  }

  function Move(s: Store, dst: Handle, src: Handle): Store
    requires src in s.handles && dst in s.handles && src != dst
  {
    Shift(Close(s, dst), dst, src)
  }

  function AddRefs(s: Store, h: Handle, refs: nat): Store
    requires h in s.handles
  {
    var m := s.handles[h];
    if refs > 0 && Points(m) && m.content in s.contents then
      var x := s.contents[m.content];
      var y := if m.shared then x.(refcnt := x.refcnt + refs) else x.(refcnt := refs + 1);
      s.(handles := s.handles[h := m.(shared := true)], contents := s.contents[m.content := y],
         owns := s.owns[h := Owned(s, h) + refs])
    else s
  }

  function RmRefs(s: Store, h: Handle, refs: nat): Store
    requires h in s.handles && (Points(s.handles[h]) ==> refs <= Owned(s, h))
  {
    var m := s.handles[h];
    if refs == 0 then s
    else if !Points(m) || !m.shared then Close(s, h)
    else if m.content in s.contents then
      s.(contents := s.contents[m.content := Dropped(s.contents[m.content], true, refs)],
         owns := s.owns[h := Owned(s, h) - refs])
    else s
  }

  /**
   * A copy of the bytes of src, as a pipe makes it when it takes a message: the copy answers for
   * one of the references that src answered for.
   */
  function PlainCopy(s: Store, dst: Handle, src: Handle): Store
    requires src in s.handles
  {
    var one := if Owned(s, src) > 0 then 1 else 0;
    s.(handles := s.handles[dst := s.handles[src]], owns := s.owns[src := Owned(s, src) - one][dst := one])
  }

  // ----- What the operations do to the handles ------------------------------------------------------

  /** Handle k is as it was. */
  ghost predicate Untouched(s: Store, r: Store, k: Handle) {
    && (k in r.handles <==> k in s.handles) && (k in s.handles ==> r.handles[k] == s.handles[k])
    && Owned(r, k) == Owned(s, k)
  }

  /** All handles but these are as they were. */
  ghost predicate Only(s: Store, r: Store, changed: set<Handle>) {
    forall k {:trigger Untouched(s, r, k)} :: k !in changed ==> Untouched(s, r, k)
  }

  /** Both messages are of the same type and, if that type has a content, of the same content. */
  predicate Alike(m: Msg, n: Msg) {
    m.kind == n.kind && (Points(m) ==> m.content == n.content)
  }

  lemma CloseIs(s: Store, h: Handle)
    requires Usable(s, h)
    ensures var r := Close(s, h); Only(s, r, {h}) && h in r.handles && r.handles[h].kind.Closed?
    ensures forall c :: c in s.contents && !Holds(s, h, c) ==>
                        c in Close(s, h).contents && Close(s, h).contents[c] == s.contents[c]
  {
    forall k | k != h ensures Untouched(s, Close(s, h), k) { }
  }

  /** The old content of the handle is not closed, and the message is empty. */
  lemma InitIs(s: Store, h: Handle)
    ensures var r := Init(s, h);
            Only(s, r, {h}) && h in r.handles && r.handles[h].kind.Vsm? && r.contents == s.contents
  {
    forall k | k != h ensures Untouched(s, Init(s, h), k) { }
  }

  lemma InitContentIs(s: Store, h: Handle, c: ContentId, kind: Kind, hasFfn: bool)
    requires c !in s.contents && (kind.Lmsg? || kind.Zclmsg?)
    ensures var r := InitContent(s, h, c, kind, hasFfn);
            && Only(s, r, {h}) && Holds(r, h, c) && r.handles[h].kind == kind && Owned(r, h) == 1
            && c in r.contents && r.contents[c].hasFfn == hasFfn && r.contents - {c} == s.contents
  {
    forall k | k != h ensures Untouched(s, InitContent(s, h, c, kind, hasFfn), k) { }
    assert InitContent(s, h, c, kind, hasFfn).contents - {c} == s.contents;
  }

  /** The copy is like the original, which stays what it is; whatever the type, nothing else changes. */
  lemma CopyIs(s: Store, dst: Handle, src: Handle)
    requires Usable(s, src) && Usable(s, dst) && src != dst && Known(s, src)
    ensures var r := Copy(s, dst, src);
            && Only(s, r, {dst, src}) && src in r.handles && dst in r.handles
            && Alike(r.handles[dst], s.handles[src]) && Alike(r.handles[src], s.handles[src])
            && Owned(r, src) == Owned(s, src) && Owned(r, dst) == Bit(Points(s.handles[src]))
            && (Points(s.handles[src]) ==> r.handles[dst].shared && r.handles[src].shared)
  {
    var m, r := Close(s, dst), Copy(s, dst, src);
    CloseIs(s, dst);
    assert Untouched(s, m, src);
    forall k | k != dst && k != src ensures Untouched(s, r, k) { assert Untouched(s, m, k); }
  }

  /** The message is moved as it is, and an empty one is left. */
  lemma MoveIs(s: Store, dst: Handle, src: Handle)
    requires Usable(s, src) && Usable(s, dst) && src != dst
    ensures var r := Move(s, dst, src);
            && Only(s, r, {dst, src}) && src in r.handles && dst in r.handles
            && r.handles[dst] == s.handles[src] && r.handles[src].kind.Vsm?
            && Owned(r, dst) == Owned(s, src) && Owned(r, src) == 0
  {
    var m, r := Close(s, dst), Move(s, dst, src);
    CloseIs(s, dst);
    assert Untouched(s, m, src);
    forall k | k != dst && k != src ensures Untouched(s, r, k) { assert Untouched(s, m, k); }
  }

  /** The handle answers for more references to its content, if it has one, and for none otherwise. */
  lemma AddRefsIs(s: Store, h: Handle, refs: nat)
    requires Usable(s, h) && Known(s, h)
    ensures var r := AddRefs(s, h, refs);
            && Only(s, r, {h}) && h in r.handles && Alike(r.handles[h], s.handles[h])
            && Owned(r, h) == Owned(s, h) + (if Points(s.handles[h]) then refs else 0)
            && (Points(s.handles[h]) && refs > 0 ==> r.handles[h].shared)
  {
    forall k | k != h ensures Untouched(s, AddRefs(s, h, refs), k) { }
  }

  /** The handle answers for fewer references; a message that is not shared is closed. */
  lemma RmRefsIs(s: Store, h: Handle, refs: nat)
    requires Usable(s, h) && Known(s, h) && (Points(s.handles[h]) ==> refs <= Owned(s, h))
    ensures var r := RmRefs(s, h, refs);
            && Only(s, r, {h}) && h in r.handles
            && (refs > 0 ==> (r.handles[h].kind.Closed? <==> !Points(s.handles[h]) || !s.handles[h].shared))
            && (refs > 0 && Points(s.handles[h]) && s.handles[h].shared ==>
                  r.handles[h] == s.handles[h] && Owned(r, h) == Owned(s, h) - refs)
            && (refs == 0 ==> r == s)
  {
    forall k | k != h ensures Untouched(s, RmRefs(s, h, refs), k) { }
  }

  lemma PlainCopyIs(s: Store, dst: Handle, src: Handle)
    requires src in s.handles && dst !in s.handles
    ensures var r := PlainCopy(s, dst, src);
            && Only(s, r, {dst, src}) && r.contents == s.contents && src in r.handles && dst in r.handles
            && r.handles[dst] == s.handles[src] && r.handles[src] == s.handles[src]
            && Owned(r, dst) + Owned(r, src) == Owned(s, src) && (Owned(s, src) > 0 ==> Owned(r, dst) == 1)
  {
    forall k | k != dst && k != src ensures Untouched(s, PlainCopy(s, dst, src), k) { }
  }

  // ----- What every operation keeps ---------------------------------------------------------------

  /** What a handle that answers for references says of them: they are counted, or it is the only one. */
  ghost predicate FlagOk(s: Store, h: Handle, c: ContentId)
    requires c in s.contents
  {
    Part(s, h, c) > 0 ==>
      if s.handles[h].shared then s.contents[c].refcnt == References(s, c) else References(s, c) == 1
  }

  /**
   * The books of one content.  It is released once there are no references left and
   * never before; until then the counter, if it is in use, is the number of references.
   */
  ghost predicate ContentOk(s: Store, c: ContentId) {
    if c in s.contents then
      var x := s.contents[c];
      && x.freed <= 1 && x.ffnCalls == (if x.hasFfn then x.freed else 0)
      && (x.freed == 1 <==> References(s, c) == 0)
      && (forall h {:trigger FlagOk(s, h, c)} :: FlagOk(s, h, c))
    else Lost(s, c) == 0
  }

  ghost predicate Known(s: Store, h: Handle) {
    h in s.handles && Points(s.handles[h]) ==> s.handles[h].content in s.contents
  }

  ghost predicate Valid(s: Store) {
    && (forall c {:trigger ContentOk(s, c)} :: ContentOk(s, c))
    && (forall h {:trigger Known(s, h)} :: Known(s, h))
  }

  /** h may be used: it was not closed, and if it points to a content, it answers for it. */
  ghost predicate Answers(s: Store, h: Handle) {
    Usable(s, h) && (Points(s.handles[h]) ==> Owned(s, h) >= 1)
  }

  /** h may be closed: if it points to a content, it answers for one reference. */
  ghost predicate Closable(s: Store, h: Handle) {
    Usable(s, h) && (Points(s.handles[h]) ==> Owned(s, h) == 1)
  }

  /** The content of h, if it points to one, was not released. */
  ghost predicate Live(s: Store, h: Handle) {
    && Usable(s, h)
    && (Points(s.handles[h]) ==>
          s.handles[h].content in s.contents && s.contents[s.handles[h].content].freed == 0)
  }

  /** Who answers for a content finds it alive. */
  lemma AnswersLives(s: Store, h: Handle)
    requires Valid(s) && Answers(s, h)
    ensures Live(s, h)
  {
    assert Known(s, h);
    if Points(s.handles[h]) {
      var c := s.handles[h].content;
      assert ContentOk(s, c);
      PartOf(s, h, c);
    }
  }

  /** Two handles that answer for one content both say that it is shared. */
  lemma Companions(s: Store, h: Handle, c: ContentId)
    requires ContentOk(s, c) && c in s.contents && Part(s, h, c) > 0
    ensures References(s, c) >= Part(s, h, c)
    ensures s.contents[c].freed == 0
    ensures s.handles[h].shared ==> s.contents[c].refcnt == References(s, c)
    ensures !s.handles[h].shared ==> References(s, c) == 1 && Lost(s, c) == 0
    ensures forall k {:trigger Part(s, k, c)} :: k != h && Part(s, k, c) > 0 ==>
              s.handles[h].shared && s.handles[k].shared && References(s, c) >= Part(s, h, c) + Part(s, k, c)
  {
    PartOf(s, h, c);
    assert FlagOk(s, h, c);
    WithoutPart(s, h, c);
    forall k | k != h && Part(s, k, c) > 0
      ensures s.handles[h].shared && s.handles[k].shared && References(s, c) >= Part(s, h, c) + Part(s, k, c)
    {
      TwoParts(s, h, k, c);
      assert FlagOk(s, k, c);
    }
  }

  /** References that pass to a handle with the same flag keep the books right. */
  lemma PassedFlags(s: Store, r: Store, from: Handle, to: Handle, c: ContentId)
    requires ContentOk(s, c) && c in s.contents && c in r.contents && r.contents[c] == s.contents[c]
    requires References(r, c) == References(s, c) && from != to
    requires forall k {:trigger Same(s, r, k, c)} :: k != from && k != to ==> Same(s, r, k, c)
    requires Part(r, to, c) > 0 ==> Part(s, from, c) > 0 && r.handles[to].shared == s.handles[from].shared
    requires Part(r, from, c) > 0 ==> Part(s, from, c) > 0 && r.handles[from].shared == s.handles[from].shared
    ensures ContentOk(r, c)
  {
    assert FlagOk(s, from, c);
    forall k ensures FlagOk(r, k, c) {
      assert FlagOk(s, k, c);
      if k != from && k != to { assert Same(s, r, k, c); }
    }
  }

  /**
   * Only h answers for more or fewer references, and the counter changes by as much: what the
   * others say stays right.
   */
  lemma Recounted(s: Store, r: Store, h: Handle, c: ContentId)
    requires ContentOk(s, c) && c in s.contents && c in r.contents && Part(s, h, c) > 0 && Lost(r, c) == Lost(s, c)
    requires forall k {:trigger Same(s, r, k, c)} :: k != h ==> Same(s, r, k, c)
    requires s.handles[h].shared ==>
               r.contents[c].refcnt == s.contents[c].refcnt + Part(r, h, c) - Part(s, h, c)
    ensures References(r, c) == References(s, c) + Part(r, h, c) - Part(s, h, c)
    ensures s.handles[h].shared ==> r.contents[c].refcnt == References(r, c)
    ensures forall k {:trigger FlagOk(r, k, c)} :: k != h ==> FlagOk(r, k, c)
  {
    forall k | k != h ensures Part(r, k, c) == Part(s, k, c) { assert Same(s, r, k, c); }
    PartsChange(s, r, h, c);
    Companions(s, h, c);
    forall k | k != h ensures FlagOk(r, k, c) { assert Same(s, r, k, c); }
  }

  /** What happens to other contents: nothing. */
  lemma Elsewhere(s: Store, r: Store, c: ContentId)
    requires ContentOk(s, c) && (c in r.contents <==> c in s.contents) && Lost(r, c) == Lost(s, c)
    requires c in s.contents ==> r.contents[c] == s.contents[c]
    requires forall k {:trigger Same(s, r, k, c)} :: Same(s, r, k, c)
    ensures ContentOk(r, c)
  {
    PartsSame(s, r, c);
    if c in s.contents {
      forall k ensures FlagOk(r, k, c) { assert FlagOk(s, k, c) && Same(s, r, k, c); }
    }
  }

  // ----- Closing ------------------------------------------------------------------------------------

  lemma CloseOk(s: Store, h: Handle)
    requires Valid(s) && Closable(s, h)
    ensures Valid(Close(s, h)) && !Usable(Close(s, h), h)
  {
    var r := Close(s, h);
    assert Known(s, h);
    forall k ensures Known(r, k) { assert Known(s, k); }
    forall c ensures ContentOk(r, c) {
      assert ContentOk(s, c);
      if Holds(s, h, c) { ClosedBooks(s, h, c); } else { Elsewhere(s, r, c); }
    }
  }

  lemma ClosedBooks(s: Store, h: Handle, c: ContentId)
    requires ContentOk(s, c) && c in s.contents && Holds(s, h, c) && Owned(s, h) == 1
    ensures ContentOk(Close(s, h), c)
  {
    var r := Close(s, h);
    Companions(s, h, c);
    Recounted(s, r, h, c);
    assert FlagOk(r, h, c);
  }

  // ----- Initialising -------------------------------------------------------------------------------

  lemma InitOk(s: Store, h: Handle)
    requires Valid(s)
    ensures Valid(Init(s, h)) && Closable(Init(s, h), h)
  {
    var r := Init(s, h);
    assert Known(s, h);
    forall k ensures Known(r, k) { assert Known(s, k); }
    forall c ensures ContentOk(r, c) {
      assert ContentOk(s, c);
      if Holds(s, h, c) { ForgottenBooks(s, r, h, c); } else { Elsewhere(s, r, c); }
    }
  }

  /** What h answered for is leaked: it still counts as a reference. */
  lemma ForgottenBooks(s: Store, r: Store, h: Handle, c: ContentId)
    requires ContentOk(s, c) && c in s.contents && Holds(s, h, c)
    requires r.contents == s.contents || (c in r.contents && r.contents[c] == s.contents[c])
    requires r.leaked == Forgotten(s, h) && Part(r, h, c) == 0
    requires forall k :: k != h ==> (k in r.handles <==> k in s.handles) && Owned(r, k) == Owned(s, k)
    requires forall k :: k != h && k in s.handles ==> r.handles[k] == s.handles[k]
    ensures ContentOk(r, c)
  {
    PartsChange(s, r, h, c);
    forall k ensures FlagOk(r, k, c) { assert FlagOk(s, k, c) && (k != h ==> Same(s, r, k, c)); }
  }

  lemma InitContentOk(s: Store, h: Handle, c: ContentId, kind: Kind, hasFfn: bool)
    requires Valid(s) && c !in s.contents && (kind.Lmsg? || (kind.Zclmsg? && hasFfn))
    ensures Valid(InitContent(s, h, c, kind, hasFfn)) && Closable(InitContent(s, h, c, kind, hasFfn), h)
  {
    var r := InitContent(s, h, c, kind, hasFfn);
    assert Known(s, h);
    forall k ensures Known(r, k) { assert Known(s, k); }
    forall d ensures ContentOk(r, d) {
      assert ContentOk(s, d);
      if d == c { FirstBooks(s, r, h, c); }
      else if Holds(s, h, d) { ForgottenBooks(s, r, h, d); }
      else { Elsewhere(s, r, d); }
    }
  }

  lemma FirstBooks(s: Store, r: Store, h: Handle, c: ContentId)
    requires c !in s.contents && Lost(s, c) == 0 && Lost(r, c) == 0 && forall k :: Known(s, k)
    requires c in r.contents && r.contents[c].freed == 0 && r.contents[c].ffnCalls == 0
    requires Part(r, h, c) == 1 && !r.handles[h].shared
    requires forall k :: k != h ==> (k in r.handles <==> k in s.handles)
    requires forall k :: k != h && k in s.handles ==> r.handles[k] == s.handles[k]
    ensures ContentOk(r, c)
  {
    forall k ensures Part(s, k, c) == 0 { assert Known(s, k); }
    forall k | k != h ensures Part(r, k, c) == 0 { assert Known(s, k); }
    NoParts(s, c);
    PartsChange(s, r, h, c);
    forall k ensures FlagOk(r, k, c) { }
  }

  // ----- Sharing and moving ---------------------------------------------------------------------------

  lemma ShareOk(s: Store, dst: Handle, src: Handle)
    requires Valid(s) && Answers(s, src) && src != dst && dst in s.handles && !Points(s.handles[dst])
             && Owned(s, dst) == 0
    ensures Valid(Share(s, dst, src)) && Answers(Share(s, dst, src), src) && Closable(Share(s, dst, src), dst)
  {
    var r := Share(s, dst, src);
    assert Known(s, src);
    forall k ensures Known(r, k) { assert Known(s, k); }
    forall c ensures ContentOk(r, c) {
      assert ContentOk(s, c);
      if Holds(s, src, c) { SharedBooks(s, dst, src, c); } else { Elsewhere(s, r, c); }
    }
  }

  lemma SharedParts(s: Store, dst: Handle, src: Handle, c: ContentId)
    requires c in s.contents && Holds(s, src, c) && src != dst && dst in s.handles && !Points(s.handles[dst])
    ensures var r := Share(s, dst, src);
            && References(r, c) == References(s, c) + 1
            && forall k {:trigger Part(r, k, c)} :: Part(r, k, c) == Part(s, k, c) + Bit(k == dst)
  {
    PartsChange(s, Share(s, dst, src), dst, c);
  }

  lemma SharedBooks(s: Store, dst: Handle, src: Handle, c: ContentId)
    requires ContentOk(s, c) && c in s.contents && Holds(s, src, c) && Owned(s, src) >= 1 && src != dst
    requires dst in s.handles && !Points(s.handles[dst])
    ensures ContentOk(Share(s, dst, src), c)
  {
    var r := Share(s, dst, src);
    Companions(s, src, c);
    SharedParts(s, dst, src, c);
    forall k ensures FlagOk(r, k, c) { assert FlagOk(s, k, c) && Part(r, k, c) == Part(s, k, c) + Bit(k == dst); }
  }

  lemma CopyOk(s: Store, dst: Handle, src: Handle)
    requires Valid(s) && Answers(s, src) && Closable(s, dst) && src != dst
    ensures Valid(Copy(s, dst, src)) && Answers(Copy(s, dst, src), src) && Closable(Copy(s, dst, src), dst)
  {
    CloseOk(s, dst);
    ShareOk(Close(s, dst), dst, src);
  }

  lemma MoveOk(s: Store, dst: Handle, src: Handle)
    requires Valid(s) && Usable(s, src) && Closable(s, dst) && src != dst
    ensures Valid(Move(s, dst, src)) && Closable(Move(s, dst, src), src)
    ensures Usable(Move(s, dst, src), dst) && Owned(Move(s, dst, src), dst) == Owned(s, src)
  {
    CloseOk(s, dst);
    var m, r := Close(s, dst), Move(s, dst, src);
    assert Known(m, src);
    forall k ensures Known(r, k) { assert Known(m, k); }
    forall c ensures ContentOk(r, c) {
      assert ContentOk(m, c);
      if Holds(m, src, c) { ShiftedBooks(m, dst, src, c); } else { Elsewhere(m, r, c); }
    }
  }

  lemma ShiftedBooks(s: Store, dst: Handle, src: Handle, c: ContentId)
    requires ContentOk(s, c) && c in s.contents && Holds(s, src, c) && src != dst
    requires dst in s.handles && !Points(s.handles[dst])
    ensures ContentOk(Shift(s, dst, src), c)
  {
    var r := Shift(s, dst, src);
    PartsPassed(s, r, src, dst, c);
    PassedFlags(s, r, src, dst, c);
  }

  // ----- References given out and taken back ------------------------------------------------------------

  lemma AddRefsOk(s: Store, h: Handle, refs: nat)
    requires Valid(s) && Answers(s, h)
    ensures Valid(AddRefs(s, h, refs)) && Answers(AddRefs(s, h, refs), h)
  {
    var r := AddRefs(s, h, refs);
    assert Known(s, h);
    forall k ensures Known(r, k) { assert Known(s, k); }
    forall c ensures ContentOk(r, c) {
      assert ContentOk(s, c);
      if Holds(s, h, c) { AddedBooks(s, h, refs, c); } else { Elsewhere(s, r, c); }
    }
  }

  lemma AddedBooks(s: Store, h: Handle, refs: nat, c: ContentId)
    requires ContentOk(s, c) && c in s.contents && Holds(s, h, c) && Owned(s, h) >= 1
    ensures ContentOk(AddRefs(s, h, refs), c)
  {
    var r := AddRefs(s, h, refs);
    Companions(s, h, c);
    Recounted(s, r, h, c);
    assert FlagOk(r, h, c);
  }

  lemma RmRefsOk(s: Store, h: Handle, refs: nat)
    requires Valid(s) && Usable(s, h) && (Points(s.handles[h]) ==> refs <= Owned(s, h))
    ensures Valid(RmRefs(s, h, refs))
  {
    var r, m := RmRefs(s, h, refs), s.handles[h];
    assert Known(s, h);
    if refs > 0 && (!Points(m) || !m.shared) {
      if Points(m) { Companions(s, h, m.content); }
      CloseOk(s, h);
    } else if refs > 0 {
      forall k ensures Known(r, k) { assert Known(s, k); }
      forall c ensures ContentOk(r, c) {
        assert ContentOk(s, c);
        if Holds(s, h, c) { RemovedBooks(s, h, refs, c); } else { Elsewhere(s, r, c); }
      }
    }
  }

  lemma RemovedBooks(s: Store, h: Handle, refs: nat, c: ContentId)
    requires ContentOk(s, c) && c in s.contents && Holds(s, h, c) && s.handles[h].shared && 0 < refs <= Owned(s, h)
    ensures ContentOk(RmRefs(s, h, refs), c)
  {
    var r := RmRefs(s, h, refs);
    Companions(s, h, c);
    Recounted(s, r, h, c);
    assert FlagOk(r, h, c);
  }

  lemma PlainCopyOk(s: Store, dst: Handle, src: Handle)
    requires Valid(s) && src in s.handles && dst !in s.handles
    ensures Valid(PlainCopy(s, dst, src))
  {
    var r := PlainCopy(s, dst, src);
    assert Known(s, src);
    forall k ensures Known(r, k) { assert Known(s, k); }
    forall c ensures ContentOk(r, c) {
      assert ContentOk(s, c);
      if Holds(s, src, c) { CopiedBooks(s, dst, src, c); } else { Elsewhere(s, r, c); }
    }
  }

  lemma CopiedBooks(s: Store, dst: Handle, src: Handle, c: ContentId)
    requires ContentOk(s, c) && c in s.contents && Holds(s, src, c) && dst !in s.handles
    ensures ContentOk(PlainCopy(s, dst, src), c)
  {
    var r := PlainCopy(s, dst, src);
    PartsPassed(s, r, src, dst, c);
    PassedFlags(s, r, src, dst, c);
  }

  // ----- Handing one message to many ------------------------------------------------------------------

  /** Plain copies of src appear as the handles hs, in that order. */
  function Spread(s: Store, src: Handle, hs: seq<Handle>): (r: Store)
    requires src in s.handles
    ensures src in r.handles
  {
    if hs == [] then s
    else PlainCopy(Spread(s, src, hs[..|hs| - 1]), hs[|hs| - 1], src)
  }

  ghost function Elems(hs: seq<Handle>): set<Handle> {
    set h | h in hs
  }

  ghost predicate NewHandles(s: Store, hs: seq<Handle>) {
    && (forall i :: 0 <= i < |hs| ==> hs[i] !in s.handles)
    && (forall i, j :: 0 <= i < j < |hs| ==> hs[i] != hs[j])
  }

  /** Spreading adds the handles, each with one of the references of src, and touches nothing else. */
  ghost predicate IsSpread(s: Store, r: Store, src: Handle, hs: seq<Handle>)
    requires src in s.handles
  {
    && r.contents == s.contents && r.leaked == s.leaked
    && r.handles.Keys == s.handles.Keys + Elems(hs)
    && (forall h :: h in s.handles ==> r.handles[h] == s.handles[h])
    && (forall h :: h in hs ==> r.handles[h] == s.handles[src])
    && (forall h {:trigger Owned(r, h)} :: h != src && h !in hs ==> Owned(r, h) == Owned(s, h))
    && (|hs| <= Owned(s, src) ==>
          Owned(r, src) == Owned(s, src) - |hs| && forall h {:trigger Owned(r, h)} :: h in hs ==> Owned(r, h) == 1)
  }

  lemma {:induction false} SpreadIs(s: Store, src: Handle, hs: seq<Handle>)
    requires src in s.handles && NewHandles(s, hs)
    ensures IsSpread(s, Spread(s, src, hs), src, hs)
  {
    if hs != [] {
      var before, last := hs[..|hs| - 1], hs[|hs| - 1];
      SpreadIs(s, src, before);
      assert forall i :: 0 <= i < |before| ==> before[i] == hs[i] != last;
      SpreadMore(s, Spread(s, src, before), src, before, last);
      assert hs == before + [last];
    }
  }

  lemma SpreadMore(s: Store, r: Store, src: Handle, hs: seq<Handle>, h: Handle)
    requires src in s.handles && src in r.handles && IsSpread(s, r, src, hs) && h !in s.handles && h !in hs
             && src !in hs
    ensures IsSpread(s, PlainCopy(r, h, src), src, hs + [h])
  {
    assert Elems(hs + [h]) == Elems(hs) + {h};
    var t := PlainCopy(r, h, src);
    forall k ensures Owned(t, k) == if k == src then Owned(r, src) - Bit(Owned(r, src) > 0)
                                    else if k == h then Bit(Owned(r, src) > 0) else Owned(r, k) { }
  }

  lemma {:induction false} SpreadOk(s: Store, src: Handle, hs: seq<Handle>)
    requires Valid(s) && src in s.handles && NewHandles(s, hs)
    ensures Valid(Spread(s, src, hs))
  {
    if hs != [] {
      var before := hs[..|hs| - 1];
      SpreadOk(s, src, before);
      SpreadIs(s, src, before);
      assert forall h :: h in before ==> h != hs[|hs| - 1];
      PlainCopyOk(Spread(s, src, before), hs[|hs| - 1], src);
    }
  }

  /** The references that are promised to the takers before they are asked, and the copies of those who took. */
  function Asked(s: Store, msg: Handle, hs: seq<Handle>, failed: nat): (r: Store)
    requires msg in s.handles && |hs| + failed > 0
    ensures msg in r.handles
  {
    Spread(AddRefs(s, msg, |hs| + failed - 1), msg, hs)
  }

  /**
   * What is left of message msg after it was offered to |hs| + failed takers, of whom
   * those of hs took it: the reference that msg held goes with it.
   */
  ghost function Handed(s: Store, msg: Handle, hs: seq<Handle>, failed: nat): Store
    requires Ready(s, msg, hs)
  {
    var m := s.handles[msg];
    if |hs| + failed == 0 then Init(Close(s, msg), msg)
    else if m.kind.Vsm? then Init(Spread(s, msg, hs), msg)
    else
      AskedIs(s, msg, hs, failed);
      Init(RmRefs(Asked(s, msg, hs, failed), msg, failed), msg)
  }

  ghost predicate Ready(s: Store, msg: Handle, hs: seq<Handle>) {
    Valid(s) && Closable(s, msg) && NewHandles(s, hs)
  }

  /** After the copies, the handle answers for as many references as takers failed. */
  lemma AskedIs(s: Store, msg: Handle, hs: seq<Handle>, failed: nat)
    requires Ready(s, msg, hs) && |hs| + failed > 0
    ensures var s1, r := AddRefs(s, msg, |hs| + failed - 1), Asked(s, msg, hs, failed);
            && Valid(r) && Usable(r, msg) && NewHandles(s1, hs) && msg !in hs && IsSpread(s1, r, msg, hs)
            && r.handles[msg].kind == s.handles[msg].kind
            && (Points(s.handles[msg]) ==> Owned(r, msg) == failed && (!r.handles[msg].shared ==> failed <= 1))
  {
    var s1 := AddRefs(s, msg, |hs| + failed - 1);
    AddRefsOk(s, msg, |hs| + failed - 1);
    assert s1.handles.Keys == s.handles.Keys && Known(s, msg);
    SpreadOk(s1, msg, hs);
    SpreadIs(s1, msg, hs);
  }

  lemma HandedOk(s: Store, msg: Handle, hs: seq<Handle>, failed: nat)
    requires Ready(s, msg, hs)
    ensures Valid(Handed(s, msg, hs, failed)) && Closable(Handed(s, msg, hs, failed), msg)
  {
    if |hs| + failed == 0 {
      CloseOk(s, msg);
      InitOk(Close(s, msg), msg);
    } else if s.handles[msg].kind.Vsm? {
      SpreadOk(s, msg, hs);
      InitOk(Spread(s, msg, hs), msg);
    } else {
      AskedIs(s, msg, hs, failed);
      RmRefsOk(Asked(s, msg, hs, failed), msg, failed);
      InitOk(RmRefs(Asked(s, msg, hs, failed), msg, failed), msg);
    }
  }

  /**
   * Conservation: the handle of the message gives its content away to exactly those who took the
   * message, each of whom answers for one reference.  No reference is leaked, no other handle is
   * touched, and the content is released if and only if nobody has it.
   */
  lemma HandedCounts(s: Store, msg: Handle, hs: seq<Handle>, failed: nat)
    requires Ready(s, msg, hs) && Points(s.handles[msg])
    ensures var c, r := s.handles[msg].content, Handed(s, msg, hs, failed);
            && c in r.contents && Lost(r, c) == Lost(s, c)
            && r.handles.Keys == s.handles.Keys + Elems(hs) && r.handles[msg] == BLANK
            && (forall h {:trigger Part(r, h, c)} :: Part(r, h, c) ==
                  if h in hs then 1 else if h == msg then 0 else Part(s, h, c))
            && (forall h :: h in s.handles && h != msg ==> r.handles[h] == s.handles[h])
            && r.contents[c].freed == Bit(hs == [] && References(s, c) == 1)
  {
    var c, r := s.handles[msg].content, Handed(s, msg, hs, failed);
    assert Known(s, msg) && ContentOk(s, c);
    HandedOk(s, msg, hs, failed);
    HandedParts(s, msg, hs, failed);
    assert ContentOk(r, c);
    HandedReleases(s, r, msg, hs, c);
  }

  lemma HandedParts(s: Store, msg: Handle, hs: seq<Handle>, failed: nat)
    requires Ready(s, msg, hs) && Points(s.handles[msg])
    ensures var c, r := s.handles[msg].content, Handed(s, msg, hs, failed);
            && c in r.contents && Lost(r, c) == Lost(s, c)
            && r.handles.Keys == s.handles.Keys + Elems(hs) && r.handles[msg] == BLANK
            && (forall h {:trigger Part(r, h, c)} :: Part(r, h, c) ==
                  if h in hs then 1 else if h == msg then 0 else Part(s, h, c))
            && (forall h :: h in s.handles && h != msg ==> r.handles[h] == s.handles[h])
  {
    assert Known(s, msg);
    if |hs| + failed > 0 {
      AskedIs(s, msg, hs, failed);
      AskedParts(s, msg, hs, failed);
      GivenBackParts(Asked(s, msg, hs, failed), msg, failed);
    }
  }

  lemma AskedParts(s: Store, msg: Handle, hs: seq<Handle>, failed: nat)
    requires Ready(s, msg, hs) && Points(s.handles[msg]) && |hs| + failed > 0
    ensures var c, r := s.handles[msg].content, Asked(s, msg, hs, failed);
            && Holds(r, msg, c) && c in r.contents && Lost(r, c) == Lost(s, c) && msg !in hs
            && r.handles.Keys == s.handles.Keys + Elems(hs)
            && (forall h {:trigger Part(r, h, c)} :: h != msg ==> Part(r, h, c) == if h in hs then 1 else Part(s, h, c))
            && (forall h :: h in s.handles && h != msg ==> r.handles[h] == s.handles[h])
  {
    assert Known(s, msg);
    AskedIs(s, msg, hs, failed);
    var c, s1, r := s.handles[msg].content, AddRefs(s, msg, |hs| + failed - 1), Asked(s, msg, hs, failed);
    forall h | h != msg ensures Part(r, h, c) == if h in hs then 1 else Part(s, h, c) {
      assert Owned(s1, h) == Owned(s, h);
      if h in hs { assert Owned(r, h) == 1; } else { assert Owned(r, h) == Owned(s1, h); }
    }
  }

  /** The references of those who failed go, then the handle itself; nothing is leaked. */
  lemma GivenBackParts(s: Store, msg: Handle, failed: nat)
    requires Usable(s, msg) && Points(s.handles[msg]) && Owned(s, msg) == failed
    requires s.handles[msg].content in s.contents && (!s.handles[msg].shared ==> failed <= 1)
    ensures var c, r := s.handles[msg].content, Init(RmRefs(s, msg, failed), msg);
            && c in r.contents && Lost(r, c) == Lost(s, c) && r.handles.Keys == s.handles.Keys
            && Part(r, msg, c) == 0 && r.handles[msg] == BLANK
            && (forall h {:trigger Part(r, h, c)} :: h != msg ==> Part(r, h, c) == Part(s, h, c))
            && (forall h :: h in s.handles && h != msg ==> r.handles[h] == s.handles[h])
  {
  }

  /** Nobody has the content exactly if nobody took it and nobody else had it. */
  lemma HandedReleases(s: Store, r: Store, msg: Handle, hs: seq<Handle>, c: ContentId)
    requires ContentOk(r, c) && c in r.contents && Lost(r, c) == Lost(s, c) && Part(s, msg, c) == 1 && msg !in hs
    requires forall h {:trigger Part(r, h, c)} :: Part(r, h, c) ==
               if h in hs then 1 else if h == msg then 0 else Part(s, h, c)
    ensures r.contents[c].freed == Bit(hs == [] && References(s, c) == 1)
  {
    NoParts(r, c);
    if hs == [] {
      PartsChange(s, r, msg, c);
    } else {
      assert Part(r, hs[0], c) == 1;
    }
  }

  /** Whatever its type, every taker has the message, nobody else was touched, and an empty message is left. */
  lemma HandedCopies(s: Store, msg: Handle, hs: seq<Handle>, failed: nat)
    requires Ready(s, msg, hs)
    ensures var r := Handed(s, msg, hs, failed);
            && Only(s, r, {msg} + Elems(hs)) && msg in r.handles && r.handles[msg].kind.Vsm?
            && forall h :: h in hs ==> h in r.handles && Alike(r.handles[h], s.handles[msg])
  {
    var r := Handed(s, msg, hs, failed);
    assert Known(s, msg);
    if |hs| + failed == 0 {
      forall k | k != msg ensures Untouched(s, r, k) { }
    } else if s.handles[msg].kind.Vsm? {
      SpreadIs(s, msg, hs);
      var t := Spread(s, msg, hs);
      InitIs(t, msg);
      forall k | k !in {msg} + Elems(hs) ensures Untouched(s, r, k) {
        assert Owned(t, k) == Owned(s, k) && Untouched(t, r, k);
      }
    } else {
      AskedCopies(s, msg, hs, failed);
      AskedIs(s, msg, hs, failed);
      assert Known(Asked(s, msg, hs, failed), msg);
      GivenBackCopies(Asked(s, msg, hs, failed), msg, hs, failed, s);
    }
  }

  lemma AskedCopies(s: Store, msg: Handle, hs: seq<Handle>, failed: nat)
    requires Ready(s, msg, hs) && |hs| + failed > 0
    ensures var r := Asked(s, msg, hs, failed);
            && Only(s, r, {msg} + Elems(hs)) && msg in r.handles && Alike(r.handles[msg], s.handles[msg])
            && forall h :: h in hs ==> h in r.handles && Alike(r.handles[h], s.handles[msg])
  {
    var s1, r := AddRefs(s, msg, |hs| + failed - 1), Asked(s, msg, hs, failed);
    assert Known(s, msg);
    AskedIs(s, msg, hs, failed);
    AddRefsIs(s, msg, |hs| + failed - 1);
    forall k | k !in {msg} + Elems(hs) ensures Untouched(s, r, k) {
      assert Untouched(s, s1, k);
      assert Owned(r, k) == Owned(s1, k);
    }
  }

  lemma GivenBackCopies(t: Store, msg: Handle, hs: seq<Handle>, failed: nat, s: Store)
    requires Usable(t, msg) && Known(t, msg) && (Points(t.handles[msg]) ==> failed <= Owned(t, msg)) && msg !in hs
    requires Only(s, t, {msg} + Elems(hs)) && msg in s.handles
    requires forall h :: h in hs ==> h in t.handles && Alike(t.handles[h], s.handles[msg])
    ensures var r := Init(RmRefs(t, msg, failed), msg);
            && Only(s, r, {msg} + Elems(hs)) && msg in r.handles && r.handles[msg].kind.Vsm?
            && forall h :: h in hs ==> h in r.handles && Alike(r.handles[h], s.handles[msg])
  {
    var u := RmRefs(t, msg, failed);
    var r := Init(u, msg);
    RmRefsIs(t, msg, failed);
    InitIs(u, msg);
    forall k | k != msg ensures Untouched(t, r, k) { assert Untouched(t, u, k) && Untouched(u, r, k); }
    forall k | k !in {msg} + Elems(hs) ensures Untouched(s, r, k) { assert Untouched(s, t, k) && Untouched(t, r, k); }
    forall h | h in hs ensures h in r.handles && Alike(r.handles[h], s.handles[msg]) { assert Untouched(t, r, h); }
  }

  lemma {:induction false} DistinctCount(hs: seq<Handle>)
    requires forall i, j :: 0 <= i < j < |hs| ==> hs[i] != hs[j]
    ensures |Elems(hs)| == |hs|
  {
    if hs != [] {
      var before, last := hs[..|hs| - 1], hs[|hs| - 1];
      DistinctCount(before);
      assert forall i :: 0 <= i < |before| ==> before[i] == hs[i] != last;
      assert Elems(hs) == Elems(before) + {last};
    }
  }

  // ----- Whole runs --------------------------------------------------------------------------------------

  datatype Event =
    | DoInit(h: Handle)
    | DoInitContent(h: Handle, c: ContentId, kind: Kind, hasFfn: bool)
    | DoClose(h: Handle)
    | DoCopy(dst: Handle, src: Handle)
    | DoMove(dst: Handle, src: Handle)
    | DoAddRefs(h: Handle, refs: nat)
    | DoPlainCopy(dst: Handle, src: Handle)
    | DoRmRefs(h: Handle, refs: nat)

  /**
   * What each caller sees to with its own handles: it uses those that answer for what they point to
   * and gives back only what it answers for.  Nothing is said of contents or of other handles.
   */
  ghost predicate Allowed(s: Store, e: Event) {
    match e
    case DoInit(h) => true
    case DoInitContent(h, c, kind, hasFfn) => c !in s.contents && (kind.Lmsg? || (kind.Zclmsg? && hasFfn))
    case DoClose(h) => Closable(s, h)
    case DoCopy(dst, src) => Answers(s, src) && Closable(s, dst) && src != dst
    case DoMove(dst, src) => Usable(s, src) && Closable(s, dst) && src != dst
    case DoAddRefs(h, refs) => Answers(s, h)
    case DoPlainCopy(dst, src) => src in s.handles && dst !in s.handles
    case DoRmRefs(h, refs) => Usable(s, h) && (Points(s.handles[h]) ==> refs <= Owned(s, h))
  }

  ghost function After(s: Store, e: Event): Store
    requires Allowed(s, e)
  {
    match e
    case DoInit(h) => Init(s, h)
    case DoInitContent(h, c, kind, hasFfn) => InitContent(s, h, c, kind, hasFfn)
    case DoClose(h) => Close(s, h)
    case DoCopy(dst, src) => Copy(s, dst, src)
    case DoMove(dst, src) => Move(s, dst, src)
    case DoAddRefs(h, refs) => AddRefs(s, h, refs)
    case DoPlainCopy(dst, src) => PlainCopy(s, dst, src)
    case DoRmRefs(h, refs) => RmRefs(s, h, refs)
  }

  lemma StepKeepsValid(s: Store, e: Event)
    requires Valid(s) && Allowed(s, e)
    ensures Valid(After(s, e))
  {
    match e
    case DoInit(h) => InitOk(s, h);
    case DoInitContent(h, c, kind, hasFfn) => InitContentOk(s, h, c, kind, hasFfn);
    case DoClose(h) => CloseOk(s, h);
    case DoCopy(dst, src) => CopyOk(s, dst, src);
    case DoMove(dst, src) => MoveOk(s, dst, src);
    case DoAddRefs(h, refs) => AddRefsOk(s, h, refs);
    case DoPlainCopy(dst, src) => PlainCopyOk(s, dst, src);
    case DoRmRefs(h, refs) => RmRefsOk(s, h, refs);
  }

  ghost predicate IsRun(states: seq<Store>, events: seq<Event>) {
    && |states| == |events| + 1
    && states[0] == EMPTY
    && forall i :: 0 <= i < |events| ==> Allowed(states[i], events[i]) && states[i + 1] == After(states[i], events[i])
  }

  lemma {:induction false} RunsStayValid(states: seq<Store>, events: seq<Event>, i: nat)
    requires IsRun(states, events) && i < |states|
    ensures Valid(states[i])
  {
    if i == 0 {
      forall c ensures ContentOk(states[0], c) { }
    } else {
      RunsStayValid(states, events, i - 1);
      assert Allowed(states[i - 1], events[i - 1]) && states[i] == After(states[i - 1], events[i - 1]);
      StepKeepsValid(states[i - 1], events[i - 1]);
    }
  }

  /** In every state of every run, a handle that answers for a content finds it alive. */
  lemma NoDanglingUse(states: seq<Store>, events: seq<Event>, i: nat, h: Handle)
    requires IsRun(states, events) && i < |states| && Answers(states[i], h)
    ensures Live(states[i], h)
  {
    RunsStayValid(states, events, i);
    AnswersLives(states[i], h);
  }

  /**
   * In every state of every run, however the steps of several threads interleave, a content was
   * released, and its free function called, at most once, and exactly when no handle answers for
   * it any more and no reference to it was leaked; until then the counter, if a handle that
   * answers for it says that it is in use, is the number of references.
   */
  lemma ReleasedExactlyOnce(states: seq<Store>, events: seq<Event>, i: nat, c: ContentId)
    requires IsRun(states, events) && i < |states| && c in states[i].contents
    ensures var s := states[i];
            && s.contents[c].freed <= 1
            && s.contents[c].ffnCalls == (if s.contents[c].hasFfn then s.contents[c].freed else 0)
            && (s.contents[c].freed == 1 <==>
                  Lost(s, c) == 0 && forall h {:trigger Part(s, h, c)} :: Part(s, h, c) == 0)
            && (forall h {:trigger Part(s, h, c)} :: Part(s, h, c) > 0 ==>
                  if s.handles[h].shared then s.contents[c].refcnt == References(s, c) else References(s, c) == 1)
  {
    RunsStayValid(states, events, i);
    var s := states[i];
    assert ContentOk(s, c);
    NoParts(s, c);
    forall h | Part(s, h, c) > 0
      ensures if s.handles[h].shared then s.contents[c].refcnt == References(s, c) else References(s, c) == 1
    {
      assert FlagOk(s, h, c);
    }
  }

  /** The event does not initialise a handle over that still answers for a content. */
  ghost predicate Tidy(s: Store, e: Event) {
    e.DoInit? || e.DoInitContent? ==> e.h in s.handles && Points(s.handles[e.h]) ==> Owned(s, e.h) == 0
  }

  /** References are leaked by such events only; without them, a content is released when its last handle goes. */
  lemma {:induction false} NothingLeaks(states: seq<Store>, events: seq<Event>, i: nat, c: ContentId)
    requires IsRun(states, events) && i < |states| && forall k :: 0 <= k < i ==> Tidy(states[k], events[k])
    ensures Lost(states[i], c) == 0
    ensures c in states[i].contents ==>
              (states[i].contents[c].freed == 1 <==> forall h {:trigger Part(states[i], h, c)} ::
                  Part(states[i], h, c) == 0)
  {
    if i > 0 {
      NothingLeaks(states, events, i - 1, c);
      assert Allowed(states[i - 1], events[i - 1]) && states[i] == After(states[i - 1], events[i - 1]);
      StepLeaks(states[i - 1], events[i - 1], c);
    }
    if c in states[i].contents { ReleasedExactlyOnce(states, events, i, c); }
  }

  lemma StepLeaks(s: Store, e: Event, c: ContentId)
    requires Allowed(s, e) && Tidy(s, e)
    ensures Lost(After(s, e), c) == Lost(s, c)
  {
  }

  /** One event leaves a content alone that was released: it is not counted, not released and not made again. */
  lemma StepLeavesReleased(s: Store, e: Event, c: ContentId)
    requires Valid(s) && Allowed(s, e) && c in s.contents && s.contents[c].freed == 1
    ensures c in After(s, e).contents && After(s, e).contents[c] == s.contents[c]
  {
    assert ContentOk(s, c);
    NoParts(s, c);
    match e
    case DoClose(h) => assert Part(s, h, c) == 0;
    case DoCopy(dst, src) => assert Part(s, dst, c) == 0 && Part(s, src, c) == 0;
    case DoMove(dst, src) => assert Part(s, dst, c) == 0;
    case DoAddRefs(h, refs) => assert Part(s, h, c) == 0;
    case DoRmRefs(h, refs) => assert Part(s, h, c) == 0;
    case _ =>
  }

  /** Once released, a content is never touched again. */
  lemma {:induction false} NeverTouchedAgain(states: seq<Store>, events: seq<Event>, i: nat, j: nat, c: ContentId)
    requires IsRun(states, events) && i <= j < |states| && c in states[i].contents && states[i].contents[c].freed == 1
    ensures c in states[j].contents && states[j].contents[c] == states[i].contents[c]
    decreases j - i
  {
    if i < j {
      NeverTouchedAgain(states, events, i, j - 1, c);
      StaysReleased(states, events, j - 1, c);
    }
  }

  lemma StaysReleased(states: seq<Store>, events: seq<Event>, k: nat, c: ContentId)
    requires IsRun(states, events) && k < |events| && c in states[k].contents && states[k].contents[c].freed == 1
    ensures c in states[k + 1].contents && states[k + 1].contents[c] == states[k].contents[c]
  {
    RunsStayValid(states, events, k);
    assert Allowed(states[k], events[k]) && states[k + 1] == After(states[k], events[k]);
    StepLeavesReleased(states[k], events[k], c);
  }
}
