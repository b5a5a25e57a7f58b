/**
 * dist_t of src/dist.cpp, which sends each message to many pipes.  One array is split
 * by three counters into nested zones and only ever changed by swaps; to the outside
 * the zones are sets, and every operation is proved against its meaning on those sets.
 */
module Dist {
  import opened Common
  import opened PipeArray
  import opened Messages
  import opened MessagePool

  /** The nested zones as sets, and whether a multipart message is under way. */
  datatype Zones = Zones(
    matching: set<Pipe>,
    active: set<Pipe>,
    eligible: set<Pipe>,
    all: set<Pipe>,
    more: bool)

  // ----- What the operations mean ---------------------------------------------------------

  /** A new pipe takes part at once, or from the next message on if one is under way. */
  function Attached(z: Zones, p: Pipe): Zones {
    z.(active := if z.more then z.active else z.active + {p}, eligible := z.eligible + {p}, all := z.all + {p})
  }

  function Matched(z: Zones, p: Pipe): Zones {
    if p in z.eligible then z.(matching := z.matching + {p}) else z
  }

  function Reversed(z: Zones): Zones {
    z.(matching := z.eligible - z.matching)
  }

  function Unmatched(z: Zones): Zones {
    z.(matching := {})
  }

  function Terminated(z: Zones, p: Pipe): Zones {
    Zones(z.matching - {p}, z.active - {p}, z.eligible - {p}, z.all - {p}, z.more)
  }

  /** A pipe that has room again takes part like a new one. */
  function Activated(z: Zones, p: Pipe): Zones {
    z.(active := if z.more then z.active else z.active + {p}, eligible := z.eligible + {p})
  }

  /** Matching pipes that refuse the message leave every zone; the end of a message activates the rest. */
  function SentToMatching(z: Zones, full: set<Pipe>, msgMore: bool): Zones {
    var failed := z.matching * full;
    Zones(z.matching - failed,
          if msgMore then z.active - failed else z.eligible - failed,
          z.eligible - failed, z.all, msgMore)
  }

  function SentToAll(z: Zones, full: set<Pipe>, msgMore: bool): Zones {
    SentToMatching(z.(matching := z.active), full, msgMore)
  }

  // ----- How reverse_match moves through the array -------------------------------------------

  ghost predicate PassedAt(was: map<Pipe, nat>, now: map<Pipe, nat>, prev: nat, i: nat, p: Pipe) {
    p in was && p in now ==>
      && (now[p] >= i || was[p] >= i ==> now[p] == was[p])
      && (now[p] < i - prev <==> prev <= was[p] < i)
  }

  /** Positions from i on are as they were; the first i - prev hold what was from prev to i. */
  ghost predicate Passed(was: map<Pipe, nat>, now: map<Pipe, nat>, prev: nat, i: nat) {
    was.Keys == now.Keys && forall p {:trigger PassedAt(was, now, prev, i, p)} :: PassedAt(was, now, prev, i, p)
  }

  lemma PassedMore(was: map<Pipe, nat>, now: map<Pipe, nat>, next: map<Pipe, nat>, prev: nat, i: nat, a: Pipe, b: Pipe)
    requires Passed(was, now, prev, i) && prev <= i && a in now && b in now && now[a] == i && now[b] == i - prev
    requires forall p :: p in now && (now[p] == i || now[p] == i - prev) ==> p == a || p == b
    requires next == now[a := i - prev][b := i]
    ensures Passed(was, next, prev, i + 1)
  {
    var k := i + 1;
    forall p ensures PassedAt(was, next, prev, k, p) {
      assert PassedAt(was, now, prev, i, p) && PassedAt(was, now, prev, i, a) && PassedAt(was, now, prev, i, b);
    }
  }

  lemma PassedAll(was: map<Pipe, nat>, now: map<Pipe, nat>, prev: nat, i: nat)
    requires Passed(was, now, prev, i) && prev <= i
    ensures Zone(now, i - prev) == Zone(was, i) - Zone(was, prev)
  {
    forall p ensures p in Zone(now, i - prev) <==> p in Zone(was, i) - Zone(was, prev) {
      assert PassedAt(was, now, prev, i, p);
    }
  }

  class Dist {
    const pipes: PipeArray
    var matching: nat
    var active: nat
    var eligible: nat
    var more: bool

    ghost predicate Valid()
      reads this, pipes
    {
      && pipes.Valid()
      && matching <= active <= eligible <= |pipes.items|
      && (!more ==> active == eligible)
    }

    ghost function View(): Zones
      reads this, pipes
    {
      Zones(Zone(pipes.index, matching), Zone(pipes.index, active), Zone(pipes.index, eligible),
            pipes.index.Keys, more)
    }

    constructor ()
      ensures Valid() && fresh(pipes) && View() == Zones({}, {}, {}, {}, false)
    {
      pipes := new PipeArray();
      matching, active, eligible, more := 0, 0, 0, false;
    }

    method Attach(p: Pipe)
      requires Valid() && p !in pipes.index
      modifies this, pipes
      ensures Valid() && View() == Attached(old(View()), p)
      ensures p in View().all && p in View().eligible && (p in View().active <==> !old(more))
    {
      if more {
        pipes.PushBack(p);
        EnterEligible(p, |pipes.items| - 1);
      } else {
        pipes.PushBack(p);
        EnterActive(p, |pipes.items| - 1);
      }
    }

    /** The pipe at position i becomes the last eligible one. */
    method EnterEligible(p: Pipe, i: nat)
      requires Nested() && p in pipes.index && pipes.index[p] == i >= eligible
      modifies this`eligible, pipes
      ensures Nested() && View() == old(View()).(eligible := old(View()).eligible + {p})
      ensures eligible == old(eligible) + 1 && p in pipes.index && pipes.index[p] == eligible - 1
    {
      pipes.Swap(eligible, i);
      ZoneEnd(pipes, p);
      eligible := eligible + 1;
    }

    /** The pipe at position i becomes the last active one, while all eligible pipes are active. */
    method EnterActive(p: Pipe, i: nat)
      requires Nested() && active == eligible && p in pipes.index && pipes.index[p] == i >= active
      modifies this`active, this`eligible, pipes
      ensures Nested() && active == eligible
      ensures View() == old(View()).(active := old(View()).active + {p}, eligible := old(View()).eligible + {p})
    {
      pipes.Swap(active, i);
      ZoneEnd(pipes, p);
      active := active + 1;
      eligible := eligible + 1;
    }

    method Match(p: Pipe)
      requires Valid() && !more && p in pipes.index
      modifies this, pipes
      ensures Valid() && View() == Matched(old(View()), p)
    {
      if pipes.Index(p) < matching {
        return;
      }
      if pipes.Index(p) >= eligible {
        return;
      }
      pipes.Swap(pipes.Index(p), matching);
      ZoneEnd(pipes, p);
      matching := matching + 1;
    }

    method Unmatch()
      requires Valid()
      modifies this`matching
      ensures Valid() && View() == Unmatched(old(View())) && matching == 0
    {
      matching := 0;
    }

    method ReverseMatch()
      requires Valid() && !more
      modifies this, pipes
      ensures Valid() && View() == Reversed(old(View()))
    {
      var prev := matching;
      Unmatch();
      var i := prev;
      while i < eligible
        invariant Nested() && prev <= i <= eligible == old(eligible) == active && more == old(more)
        invariant matching == i - prev && pipes.index.Keys == old(pipes.index.Keys)
        invariant Zone(pipes.index, eligible) == old(Zone(pipes.index, eligible))
        invariant Passed(old(pipes.index), pipes.index, prev, i)
      {
        Bring(i, prev, old(pipes.index));
        i := i + 1;
      }
      PassedAll(old(pipes.index), pipes.index, prev, i);
    }

    /** The pipe at position i becomes the last matching one. */
    method Bring(i: nat, ghost prev: nat, ghost was: map<Pipe, nat>)
      requires Nested() && active == eligible && prev <= i < eligible && matching == i - prev
               && Passed(was, pipes.index, prev, i)
      modifies this`matching, pipes
      ensures Nested() && matching == old(matching) + 1 && pipes.index.Keys == old(pipes.index.Keys)
      ensures Zone(pipes.index, eligible) == old(Zone(pipes.index, eligible))
      ensures Passed(was, pipes.index, prev, i + 1)
    {
      ghost var a, b, now := pipes.items[i], pipes.items[matching], pipes.index;
      pipes.Swap(i, matching);
      PassedMore(was, now, pipes.index, prev, i, a, b);
      matching := matching + 1;
    }

    /** The counters are in order, whether or not a message is under way. */
    ghost predicate Nested()
      reads this, pipes
    {
      pipes.Valid() && matching <= active <= eligible <= |pipes.items|
    }

    method LeaveMatching(p: Pipe)
      requires Nested() && p in pipes.index
      modifies this`matching, pipes
      ensures Nested() && p in pipes.index && pipes.index[p] >= matching
      ensures View() == old(View()).(matching := old(View()).matching - {p})
    {
      if pipes.Index(p) < matching {
        pipes.Swap(pipes.Index(p), matching - 1);
        ZoneEnd(pipes, p);
        matching := matching - 1;
      }
    }

    method LeaveActive(p: Pipe)
      requires Nested() && p in pipes.index && pipes.index[p] >= matching
      modifies this`active, pipes
      ensures Nested() && p in pipes.index && pipes.index[p] >= active
      ensures View() == old(View()).(active := old(View()).active - {p})
      ensures active == if p in old(View()).active then old(active) - 1 else old(active)
    {
      if pipes.Index(p) < active {
        pipes.Swap(pipes.Index(p), active - 1);
        ZoneEnd(pipes, p);
        active := active - 1;
      }
    }

    method LeaveEligible(p: Pipe)
      requires Nested() && p in pipes.index && pipes.index[p] >= active
      modifies this`eligible, pipes
      ensures Nested() && p in pipes.index && pipes.index[p] >= eligible
      ensures View() == old(View()).(eligible := old(View()).eligible - {p})
      ensures eligible == if p in old(View()).eligible then old(eligible) - 1 else old(eligible)
    {
      if pipes.Index(p) < eligible {
        pipes.Swap(pipes.Index(p), eligible - 1);
        ZoneEnd(pipes, p);
        eligible := eligible - 1;
      }
    }

    method PipeTerminated(p: Pipe)
      requires Valid() && p in pipes.index
      modifies this, pipes
      ensures Valid() && View() == Terminated(old(View()), p)
    {
      LeaveMatching(p);
      LeaveActive(p);
      LeaveEligible(p);
      pipes.Erase(p);
    }

    method Activate(p: Pipe)
      requires Valid() && p in pipes.index && pipes.index[p] >= eligible
      modifies this, pipes
      ensures Valid() && View() == Activated(old(View()), p)
      ensures p in View().eligible && (p in View().active <==> !old(more))
    {
      if eligible < |pipes.items| {
        EnterEligible(p, pipes.Index(p));
      }
      if !more && active < |pipes.items| {
        JoinActive(p);
      }
    }

    /** The last eligible pipe becomes the last active one. */
    method JoinActive(p: Pipe)
      requires Nested() && active < eligible && p in pipes.index && pipes.index[p] == eligible - 1
      modifies this`active, pipes
      ensures Nested() && View() == old(View()).(active := old(View()).active + {p}) && active == old(active) + 1
    {
      pipes.Swap(eligible - 1, active);
      ZoneEnd(pipes, p);
      active := active + 1;
    }

    /** The three swaps that move a pipe behind the eligible ones, when it could not take a message. */
    method Refuse(p: Pipe)
      requires Nested() && p in pipes.index && pipes.index[p] < matching
      modifies this`matching, this`active, this`eligible, pipes
      ensures Nested() && View() == Terminated(old(View()), p).(all := old(View()).all)
      ensures matching == old(matching) - 1 && active == old(active) - 1 && eligible == old(eligible) - 1
      ensures forall k: nat {:trigger Zone(pipes.index, k)} :: k <= old(pipes.index[p]) ==>
                Zone(pipes.index, k) == old(Zone(pipes.index, k))
    {
      RefuseMatching(p);
      RefuseActive(p);
      RefuseEligible(p);
    }

    method RefuseEligible(p: Pipe)
      requires Nested() && active < eligible && p in pipes.index && pipes.index[p] == active
      modifies this`eligible, pipes
      ensures Nested() && View() == old(View()).(eligible := old(View()).eligible - {p})
      ensures eligible == old(eligible) - 1
      ensures forall k: nat {:trigger Zone(pipes.index, k)} :: k <= active ==>
                Zone(pipes.index, k) == old(Zone(pipes.index, k))
    {
      pipes.Swap(active, eligible - 1);
      ZoneEnd(pipes, p);
      eligible := eligible - 1;
    }

    method RefuseMatching(p: Pipe)
      requires Nested() && p in pipes.index && pipes.index[p] < matching
      modifies this`matching, pipes
      ensures Nested() && View() == old(View()).(matching := old(View()).matching - {p})
      ensures matching == old(matching) - 1 && p in pipes.index && pipes.index[p] == matching
      ensures forall k: nat {:trigger Zone(pipes.index, k)} :: k <= old(pipes.index[p]) ==>
                Zone(pipes.index, k) == old(Zone(pipes.index, k))
    {
      pipes.Swap(pipes.Index(p), matching - 1);
      ZoneEnd(pipes, p);
      matching := matching - 1;
    }

    method RefuseActive(p: Pipe)
      requires Nested() && matching < active && p in pipes.index && pipes.index[p] == matching
      modifies this`active, pipes
      ensures Nested() && View() == old(View()).(active := old(View()).active - {p})
      ensures active == old(active) - 1 && p in pipes.index && pipes.index[p] == active
      ensures forall k: nat {:trigger Zone(pipes.index, k)} :: k <= matching ==>
                Zone(pipes.index, k) == old(Zone(pipes.index, k))
    {
      pipes.Swap(pipes.Index(p), active - 1);
      ZoneEnd(pipes, p);
      active := active - 1;
    }

    /** Offers the message to one pipe; `full` are the pipes that cannot take one now. */
    method Write(p: Pipe, full: set<Pipe>, pool: Pool, msg: Handle) returns (ok: bool, copy: Handle)
      requires Nested() && p in pipes.index && pipes.index[p] < matching
      requires pool.Sound() && msg in pool.handles
      modifies this`matching, this`active, this`eligible, pipes, pool`handles, pool`owns, pool`next
      ensures Nested() && pool.Sound() && (ok <==> p !in full)
      ensures ok ==> View() == old(View()) && pipes.index == old(pipes.index) && pipes.items == old(pipes.items)
      ensures ok ==>
                copy == old(pool.next) && pool.next == copy + 1 && pool.View() == PlainCopy(old(pool.View()), copy, msg)
      ensures ok ==> matching == old(matching)
      ensures !ok ==> View() == Terminated(old(View()), p).(all := old(View()).all) && matching == old(matching) - 1
      ensures !ok ==> forall k: nat {:trigger Zone(pipes.index, k)} :: k <= old(pipes.index[p]) ==>
                        Zone(pipes.index, k) == old(Zone(pipes.index, k))
      ensures !ok ==> pool.View() == old(pool.View()) && pool.next == old(pool.next)
    {
      copy := 0;
      if p in full {
        Refuse(p);
        return false, copy;
      }
      copy := pool.TakeCopy(msg);
      ok := true;
    }

    /** Offers the message to every matching pipe, each exactly once. */
    method OfferAll(full: set<Pipe>, pool: Pool, msg: Handle)
        returns (takers: seq<Pipe>, copies: seq<Handle>, failed: nat, ghost refused: seq<Pipe>)
      requires Nested() && pool.Sound() && msg in pool.handles
      modifies this`matching, this`active, this`eligible, pipes, pool`handles, pool`owns, pool`next
      ensures Nested() && pool.Sound() && View() == Offered(old(View()), full)
      ensures Distinct(takers) && Distinct(refused) && |takers| == |copies|
      ensures Elems(takers) == old(View()).matching - full && Elems(refused) == old(View()).matching * full
      ensures failed == |refused| && |takers| + failed == old(matching)
      ensures NewHandles(old(pool.View()), copies) && pool.View() == Spread(old(pool.View()), msg, copies)
    {
      takers, copies, failed, refused := [], [], 0, [];
      ghost var z, s, next := View(), pool.View(), pool.next;
      var i := 0;
      while i < matching
        invariant Nested() && i == |takers| <= matching && matching + failed == old(matching) && failed == |refused|
        invariant Sorted(z, full, takers, refused) && Copied(s, pool, msg, copies, next) && |takers| == |copies|
        decreases matching - i
      {
        var p, ok, copy := OfferNext(i, full, pool, msg, z, s, takers, refused, copies, next);
        if !ok {
          failed, refused := failed + 1, refused + [p];
        } else {
          takers, copies, i := takers + [p], copies + [copy], i + 1;
        }
      }
      assert Elems(refused) == z.matching * full;
    }

    /** The pipes offered so far: those who took come first, those who refused are in no zone. */
    ghost predicate Sorted(z: Zones, full: set<Pipe>, takers: seq<Pipe>, refused: seq<Pipe>)
      reads this, pipes
    {
      && View() == Less(z, Elems(refused)) && Zone(pipes.index, |takers|) == Elems(takers)
      && Distinct(takers) && Distinct(refused) && Elems(refused) <= z.matching * full && Elems(takers) !! full
    }

    /** The copies made so far are new handles, and nothing else has changed. */
    static ghost predicate Copied(s: Store, pool: Pool, msg: Handle, copies: seq<Handle>, next: Handle)
      reads pool
    {
      && msg in s.handles && pool.Sound() && pool.next == next + |copies|
      && (forall k :: 0 <= k < |copies| ==> copies[k] == next + k)
      && pool.View() == Spread(s, msg, copies) && NewHandles(s, copies) && Messages.Valid(s)
    }

    /** Offers the message to the next pipe. */
    method OfferNext(i: nat, full: set<Pipe>, pool: Pool, msg: Handle, ghost z: Zones, ghost s: Store,
                     ghost takers: seq<Pipe>, ghost refused: seq<Pipe>, ghost copies: seq<Handle>, ghost next: Handle)
        returns (p: Pipe, ok: bool, copy: Handle)
      requires Nested() && i == |takers| == |copies| < matching
      requires Sorted(z, full, takers, refused) && Copied(s, pool, msg, copies, next)
      modifies this`matching, this`active, this`eligible, pipes, pool`handles, pool`owns, pool`next
      ensures Nested() && matching == old(matching) - Bit(!ok)
      ensures ok ==> Sorted(z, full, takers + [p], refused) && Copied(s, pool, msg, copies + [copy], next)
      ensures !ok ==> Sorted(z, full, takers, refused + [p]) && Copied(s, pool, msg, copies, next)
    {
      p := pipes.items[i];
      ZoneEnd(pipes, p);
      assert p in Zone(pipes.index, matching) && p !in Elems(takers);
      assert pool.next !in s.handles by {
        SpreadIs(s, msg, copies);
        assert pool.next !in pool.handles;
      }
      ok, copy := Write(p, full, pool, msg);
      if !ok {
        DistinctMore(refused, p);
        LessMore(z, Elems(refused), p);
      } else {
        DistinctMore(takers, p);
        CopiedMore(s, msg, copies, copy, next);
      }
    }

    /** Hands the message to all matching pipes that can take it; the handle is empty afterwards. */
    method Distribute(full: set<Pipe>, pool: Pool, msg: Handle)
        returns (takers: seq<Pipe>, copies: seq<Handle>, ghost failed: nat)
      requires Nested() && pool.Sound() && Closable(pool.View(), msg)
      modifies this`matching, this`active, this`eligible, pipes, pool
      ensures Nested() && pool.Sound() && View() == Offered(old(View()), full)
      ensures Distinct(takers) && |takers| == |copies| && Elems(takers) == old(View()).matching - full
      ensures failed == |old(View()).matching * full| && |takers| + failed == old(matching)
      ensures Ready(old(pool.View()), msg, copies)
      ensures pool.View() == Handed(old(pool.View()), msg, copies, failed)
    {
      if matching == 0 {
        takers, copies, failed := [], [], 0;
        assert Zone(pipes.index, 0) == {} && View().matching * full == {};
        DropMessage(pool, msg);
        return;
      }
      if pool.handles[msg].kind.Vsm? {
        var count;
        ghost var refused;
        takers, copies, count, refused := OfferAll(full, pool, msg);
        pool.InitMsg(msg);
        failed := count;
        DistinctCount(refused);
      } else {
        takers, copies, failed := DistributeShared(full, pool, msg);
      }
    }

    /** The message has a content that all takers are to share: they are counted before they are asked. */
    method DistributeShared(full: set<Pipe>, pool: Pool, msg: Handle)
        returns (takers: seq<Pipe>, copies: seq<Handle>, ghost failed: nat)
      requires Nested() && pool.Sound() && Closable(pool.View(), msg)
      requires matching > 0 && !pool.handles[msg].kind.Vsm?
      modifies this`matching, this`active, this`eligible, pipes, pool
      ensures Nested() && pool.Sound() && View() == Offered(old(View()), full)
      ensures Distinct(takers) && |takers| == |copies| && Elems(takers) == old(View()).matching - full
      ensures failed == |old(View()).matching * full| && |takers| + failed == old(matching)
      ensures Ready(old(pool.View()), msg, copies)
      ensures pool.View() == Handed(old(pool.View()), msg, copies, failed)
    {
      ghost var s, refused := pool.View(), [];
      var count;
      AddRefsOk(s, msg, matching - 1);
      pool.AddReferences(msg, matching - 1);
      NewAfterAddRefs(s, msg, matching - 1);
      takers, copies, count, refused := OfferAll(full, pool, msg);
      GiveBack(pool, msg, copies, count, s);
      failed := count;
      DistinctCount(refused);
    }

    /** Nobody is to get the message: it is dropped. */
    static method DropMessage(pool: Pool, msg: Handle)
      requires pool.Sound() && Closable(pool.View(), msg)
      modifies pool
      ensures pool.Sound() && pool.View() == Handed(old(pool.View()), msg, [], 0)
    {
      CloseOk(pool.View(), msg);
      var ok := pool.CloseMsg(msg);
      pool.InitMsg(msg);
    }

    /** The references of those who refused go, then the handle detaches from the content. */
    static method GiveBack(pool: Pool, msg: Handle, ghost copies: seq<Handle>, failed: nat, ghost s: Store)
      requires pool.Sound() && Ready(s, msg, copies) && !s.handles[msg].kind.Vsm? && |copies| + failed > 0
      requires pool.View() == Asked(s, msg, copies, failed)
      modifies pool
      ensures pool.Sound() && pool.View() == Handed(s, msg, copies, failed)
    {
      AskedIs(s, msg, copies, failed);
      assert msg < pool.next;
      if failed > 0 {
        var left := pool.RemoveReferences(msg, failed);
      }
      pool.InitMsg(msg);
    }

    /** Sends one part of a message; the last part makes all eligible pipes active again. */
    method SendToMatching(full: set<Pipe>, pool: Pool, msg: Handle, msgMore: bool)
        returns (takers: seq<Pipe>, copies: seq<Handle>, ghost failed: nat)
      requires Valid() && pool.Sound() && Closable(pool.View(), msg)
      modifies this, pipes, pool
      ensures Valid() && pool.Sound() && View() == SentToMatching(old(View()), full, msgMore)
      ensures Distinct(takers) && |takers| == |copies| && Elems(takers) == old(View()).matching - full
      ensures Ready(old(pool.View()), msg, copies)
      ensures pool.View() == Handed(old(pool.View()), msg, copies, failed)
    {
      takers, copies, failed := Distribute(full, pool, msg);
      if !msgMore {
        active := eligible;
      }
      more := msgMore;
    }

    method SendToAll(full: set<Pipe>, pool: Pool, msg: Handle, msgMore: bool)
        returns (takers: seq<Pipe>, copies: seq<Handle>, ghost failed: nat)
      requires Valid() && pool.Sound() && Closable(pool.View(), msg)
      modifies this, pipes, pool
      ensures Valid() && pool.Sound() && View() == SentToAll(old(View()), full, msgMore)
      ensures Distinct(takers) && |takers| == |copies| && Elems(takers) == old(View()).active - full
      ensures Ready(old(pool.View()), msg, copies)
      ensures pool.View() == Handed(old(pool.View()), msg, copies, failed)
    {
      matching := active;
      takers, copies, failed := SendToMatching(full, pool, msg, msgMore);
    }

    /** True if no matching pipe has reached its high water mark. */
    method CheckHwm(atHwm: set<Pipe>) returns (ok: bool)
      requires Valid()
      ensures ok <==> View().matching !! atHwm
    {
      var i := 0;
      while i < matching
        invariant 0 <= i <= matching && forall k :: 0 <= k < i ==> pipes.items[k] !in atHwm
      {
        if pipes.items[i] in atHwm {
          assert pipes.items[i] in View().matching;
          return false;
        }
        i := i + 1;
      }
      ok := true;
    }
  }

  lemma CopiedMore(s: Store, msg: Handle, copies: seq<Handle>, copy: Handle, next: Handle)
    requires msg in s.handles && copy == next + |copies| && copy !in s.handles && NewHandles(s, copies)
    requires forall k :: 0 <= k < |copies| ==> copies[k] == next + k
    ensures NewHandles(s, copies + [copy])
    ensures Spread(s, msg, copies + [copy]) == PlainCopy(Spread(s, msg, copies), copy, msg)
  {
    assert (copies + [copy])[..|copies|] == copies;
  }

  lemma NewAfterAddRefs(s: Store, h: Handle, refs: nat)
    requires h in s.handles
    ensures AddRefs(s, h, refs).handles.Keys == s.handles.Keys
  {
  }

  /** The zones without the pipes r, which stay attached. */
  function Less(z: Zones, r: set<Pipe>): Zones {
    z.(matching := z.matching - r, active := z.active - r, eligible := z.eligible - r)
  }

  lemma LessMore(z: Zones, r: set<Pipe>, p: Pipe)
    ensures Terminated(Less(z, r), p).(all := z.all) == Less(z, r + {p})
  {
  }

  /** The zones after every matching pipe was offered a message. */
  function Offered(z: Zones, full: set<Pipe>): Zones {
    Less(z, z.matching * full)
  }

  ghost predicate Distinct(s: seq<nat>) {
    forall i, j :: 0 <= i < j < |s| ==> s[i] != s[j]
  }

  lemma DistinctMore(s: seq<nat>, p: nat)
    requires Distinct(s) && p !in Elems(s)
    ensures Distinct(s + [p]) && Elems(s + [p]) == Elems(s) + {p}
  {
    assert forall i :: 0 <= i < |s| ==> s[i] in Elems(s);
  }
}
