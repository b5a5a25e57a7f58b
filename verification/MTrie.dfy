/**
 * The multi-trie itself: add, match and both forms of rm, each proved against a plain
 * map from prefixes to sets of subscribers.
 */
module MTrie {
  import opened Common
  import opened MTrieNode
  import opened MTrieHeap

  /** A node with a child is not redundant. */
  lemma KidLive(n: Node, c: byte)
    requires Counted(n) && Kid(n, c) != NULL
    ensures n.live > 0
  {
    if n.count > 1 { NonNullUpdate(n.next.table, c - n.min, NULL); }
  }

  /** The only node that changed is fit, so all are. */
  lemma FitAfter(f: Forest, g: Forest, p: Path, loose: set<Path>, still: set<Path>)
    requires Fit(f, loose) && forall q :: q in loose ==> q in still || q == p || q !in g.at
    requires forall q :: q in g.at && q != p && q !in still ==> Has(f, q) && Has(g, q) && NodeAt(g, q) == NodeAt(f, q)
    requires p !in still ==> FitAt(g, p)
    ensures Fit(g, still)
  {
    forall q | q !in still ensures FitAt(g, q) {
      if q != p && Has(g, q) { assert FitAt(f, q); }
    }
  }

  lemma FitMore(f: Forest, loose: set<Path>, more: set<Path>)
    requires Fit(f, loose) && loose <= more
    ensures Fit(f, more)
  {
    forall q | q !in more ensures FitAt(f, q) { assert FitAt(f, q); }
  }

  lemma FitAgain(f: Forest, p: Path, loose: set<Path>)
    requires Fit(f, loose + {p}) && FitAt(f, p)
    ensures Fit(f, loose)
  {
    forall q | q !in loose ensures FitAt(f, q) { assert q == p || FitAt(f, q); }
  }

  // ----- What match is meant to visit -------------------------------------------------

  ghost function SubscribersOf(m: map<Path, set<Value>>, p: Path): set<Value> {
    if p in m then m[p] else {}
  }

  /** Every subscription to a prefix of data of length at most k, counted once per prefix. */
  ghost function Visits(m: map<Path, set<Value>>, data: Path, k: nat): multiset<Value>
    requires k <= |data|
  {
    multiset(SubscribersOf(m, data[..k])) + if k == 0 then multiset{} else Visits(m, data, k - 1)
  }

  /** The lengths up to k of the prefixes of data to which v subscribed. */
  ghost function MatchingLengths(m: map<Path, set<Value>>, data: Path, k: nat, v: Value): set<nat>
    requires k <= |data|
  {
    set i: nat | i <= k && v in SubscribersOf(m, data[..i])
  }

  /** v is visited once for each prefix of the data to which it subscribed, and only then. */
  lemma {:induction false} VisitsCount(m: map<Path, set<Value>>, data: Path, k: nat, v: Value)
    requires k <= |data|
    ensures Visits(m, data, k)[v] == |MatchingLengths(m, data, k, v)|
  {
    var now := MatchingLengths(m, data, k, v);
    if k == 0 {
      assert now == if v in SubscribersOf(m, data[..0]) then {0} else {};
    } else {
      VisitsCount(m, data, k - 1, v);
      var before := MatchingLengths(m, data, k - 1, v);
      if v in SubscribersOf(m, data[..k]) {
        assert now == before + {k};
      } else {
        assert now == before;
      }
    }
  }

  /** Nothing longer than a prefix that has no node is subscribed to. */
  lemma {:induction false} VisitsEnd(f: Forest, data: Path, k: nat, j: nat)
    requires Linked(f) && k < j <= |data| && data[..k + 1] !in f.at
    ensures Visits(Subs(f), data, j) == Visits(Subs(f), data, k)
  {
    assert data[..j][..k + 1] == data[..k + 1];
    if data[..j] in f.at { PrefixClosed(f, data[..j], k + 1); }
    if j > k + 1 { VisitsEnd(f, data, k, j - 1); }
  }

  // ----- What add and rm are meant to do, entry by entry ------------------------------------------------

  /** No topic is kept without a subscriber. */
  ghost predicate Neat(m: map<Path, set<Value>>) {
    forall p {:trigger NeatAt(m, p)} :: NeatAt(m, p)
  }

  ghost predicate NeatAt(m: map<Path, set<Value>>, p: Path) {
    p in m ==> m[p] != {}
  }

  /** Value u subscribed to q in n exactly if it did in m, but for the one entry that came or went. */
  ghost predicate GainsAt(m: map<Path, set<Value>>, n: map<Path, set<Value>>, p: Path, v: Value, q: Path, u: Value) {
    u in SubscribersOf(n, q) <==> u in SubscribersOf(m, q) || (q == p && u == v)
  }

  ghost predicate LosesAt(m: map<Path, set<Value>>, n: map<Path, set<Value>>, p: Path, v: Value, q: Path, u: Value) {
    u in SubscribersOf(n, q) <==> u in SubscribersOf(m, q) && !(q == p && u == v)
  }

  /** Exactly this entry came. */
  ghost predicate Gains(m: map<Path, set<Value>>, n: map<Path, set<Value>>, p: Path, v: Value) {
    Neat(n) && forall q, u {:trigger GainsAt(m, n, p, v, q, u)} :: GainsAt(m, n, p, v, q, u)
  }

  /** Exactly this entry is gone. */
  ghost predicate Loses(m: map<Path, set<Value>>, n: map<Path, set<Value>>, p: Path, v: Value) {
    Neat(n) && forall q, u {:trigger LosesAt(m, n, p, v, q, u)} :: LosesAt(m, n, p, v, q, u)
  }

  lemma SubsNeat(f: Forest)
    requires Linked(f) && Fit(f, {})
    ensures Neat(Subs(f))
  {
    forall p ensures NeatAt(Subs(f), p) { assert FitAt(f, p); }
  }

  lemma WithoutLoses(m: map<Path, set<Value>>, p: Path, v: Value)
    requires Neat(m)
    ensures Loses(m, Without(m, p, v), p, v) && Tells(SubscribersOf(m, p), v, RmOutcome(m, p, v))
  {
    var n := Without(m, p, v);
    forall q ensures NeatAt(n, q) {
      assert NeatAt(m, q);
      if q == p && p in m && v in m[p] && m[p] != {v} { OthersLeft(m[p], v); }
    }
    forall q, u ensures LosesAt(m, n, p, v, q, u) { }
  }

  lemma AddedGains(m: map<Path, set<Value>>, n: map<Path, set<Value>>, p: Path, v: Value)
    requires Neat(m) && n == m[p := SubscribersOf(m, p) + {v}]
    ensures Gains(m, n, p, v)
  {
    forall q ensures NeatAt(n, q) { assert NeatAt(m, q) && (q == p ==> v in n[q]); }
    forall q, u ensures GainsAt(m, n, p, v, q, u) { }
  }

  lemma OthersLeft(s: set<Value>, v: Value)
    requires v in s && s != {v}
    ensures s - {v} != {}
  {
    assert s == (s - {v}) + {v};
  }

  // ----- What rm of one entry is meant to do ---------------------------------------------

  datatype RmResult = NotFound | LastValueRemoved | ValuesRemain

  /** Nobody but v is left. */
  ghost predicate Alone(subscribers: set<Value>, v: Value) {
    v in subscribers && forall u :: u in subscribers ==> u == v
  }

  /** The result says whether v was among the subscribers, and whether it was the last one. */
  ghost predicate Tells(subscribers: set<Value>, v: Value, ret: RmResult) {
    && (ret == NotFound <==> v !in subscribers)
    && (ret == LastValueRemoved <==> Alone(subscribers, v))
    && (ret == ValuesRemain <==> v in subscribers && !Alone(subscribers, v))
  }

  /** m without the subscription of v to p. */
  ghost function Without(m: map<Path, set<Value>>, p: Path, v: Value): map<Path, set<Value>> {
    if p !in m || v !in m[p] then m
    else if m[p] == {v} then m - {p}
    else m[p := m[p] - {v}]
  }

  ghost function RmOutcome(m: map<Path, set<Value>>, p: Path, v: Value): RmResult {
    if p !in m || v !in m[p] then NotFound
    else if m[p] == {v} then LastValueRemoved
    else ValuesRemain
  }

  /** A stack entry of rm: a node still to be visited, or one to be revisited after its child. */
  datatype Iter = Iter(node: Addr, nextNode: Addr, rest: Path, currentChild: nat, processed: bool)

  /** Entry j of the stack is about the node j bytes down the prefix. */
  ghost predicate EntryOk(f: Forest, prefix: Path, stack: seq<Iter>, j: nat)
    requires j < |stack|
  {
    var it := stack[j];
    && j <= |prefix|
    && it.node != NULL && Look(f, prefix[..j]) == it.node
    && (it.processed ==> j < |prefix| && it.currentChild == prefix[j]
                         && it.nextNode != NULL && Look(f, prefix[..j + 1]) == it.nextNode)
    && (!it.processed ==> it.rest == prefix[j..])
    && (j + 1 < |stack| ==> it.processed)
  }

  ghost predicate StackOk(f: Forest, prefix: Path, stack: seq<Iter>) {
    forall j {:trigger EntryOk(f, prefix, stack, j)} :: 0 <= j < |stack| ==> EntryOk(f, prefix, stack, j)
  }

  /** Rounds left: a visit may turn into a revisit and a visit one byte further down. */
  ghost function Effort(stack: seq<Iter>): nat {
    if stack == [] then 0
    else Effort(stack[..|stack| - 1]) + if Last(stack).processed then 1 else 2 * |Last(stack).rest| + 2
  }

  function Last<T>(s: seq<T>): T
    requires s != []
  {
    s[|s| - 1]
  }

  class MTrie {
    var heap: map<Addr, Node>
    const root: Addr
    var unused: Addr
    ghost var at: map<Path, Addr>
    ghost var path: map<Addr, Path>

    ghost function Memory(): Forest
      reads this
    {
      Forest(heap, at, path)
    }

    /** The nodes are linked up, the root is where it was, and no address at or above `unused` is in use. */
    ghost predicate Sound()
      reads this
    {
      Linked(Memory()) && at[[]] == root && unused > 0 && forall a :: a in heap ==> a < unused
    }

    ghost predicate Valid()
      reads this
    {
      Sound() && Fit(Memory(), {})
    }

    /** The subscriptions: for every prefix, who subscribed to it. */
    ghost function Model(): map<Path, set<Value>>
      reads this
    {
      Subs(Memory())
    }

    constructor ()
      ensures Valid() && Model() == map[]
    {
      heap, root, unused := map[1 := EMPTY], 1, 2;
      at, path := map[[] := 1], map[1 := []];
      new;
      assert Memory() == Forest(map[1 := EMPTY], map[[] := 1], map[1 := []]);
    }

    /** One step of add: the child of node `it` under c, made if it is not there. */
    method Child(it: Addr, c: byte, ghost p: Path) returns (next: Addr)
      requires Sound() && Fit(Memory(), {p}) && Look(Memory(), p) == it && it != NULL
      requires it in heap && ShapeOk(heap[it])
      modifies this
      ensures Sound() && Fit(Memory(), {p + [c]}) && Look(Memory(), p + [c]) == next && next != NULL
      ensures next in heap && ShapeOk(heap[next])
      ensures Model() == old(Model())
    {
      ghost var f := Memory();
      var n := heap[it];
      if !InRange(n, c) {
        n := Grow(n, c);
      }
      if Kid(n, c) == NULL {
        next := NewChild(it, n, c, p);
      } else {
        next := Kid(n, c);
        assert LinkOk(f, p, c) && PathOk(f, p + [c]);
        KidLive(n, c);
        assert FitAt(f, p + [c]);
        assert FitAt(f, p);
        FitAgain(f, p, {});
        FitMore(f, {}, {p + [c]});
      }
    }

    /** Hangs a new node under c of node `it`, which has room for it in the form g. */
    method NewChild(it: Addr, g: Node, c: byte, ghost p: Path) returns (next: Addr)
      requires Sound() && Fit(Memory(), {p}) && Look(Memory(), p) == it && it != NULL && it in heap
      requires MadeRoom(heap[it], g, c) && Kid(g, c) == NULL && (g.pipes.Some? ==> g.pipes.value != {})
      modifies this
      ensures Sound() && Fit(Memory(), {p + [c]}) && Look(Memory(), p + [c]) == next && next != NULL
      ensures next in heap && ShapeOk(heap[next])
      ensures Model() == old(Model())
    {
      ghost var f := Memory();
      next := unused;
      unused := unused + 1;
      var n := WithKid(g, c, next);
      WithKidOk(g, c, next);
      SproutLinked(f, p, c, next, n);
      SproutSubs(f, p, c, next, n);
      heap := heap[it := n][next := EMPTY];
      at, path := at[p + [c] := next], path[next := p + [c]];
      assert Memory() == Sprout(f, p, c, next, n);
      FitAfter(f, Memory(), p, {p}, {p + [c]});
    }

    /** Adds a subscriber to a prefix; tells whether it is the first one there. */
    method Add(prefix: Path, v: Value) returns (first: bool)
      requires Valid()
      modifies this
      ensures Valid() && Gains(old(Model()), Model(), prefix, v)
      ensures first <==> SubscribersOf(old(Model()), prefix) == {}
      ensures first <==> prefix !in old(Model())
      ensures Model() == old(Model())[prefix := (if prefix in old(Model()) then old(Model())[prefix] else {}) + {v}]
    {
      SubsNeat(Memory());
      var it, size := root, |prefix|;
      assert prefix[..0] == [];
      assert PathOk(Memory(), []) && FitAt(Memory(), []);
      FitMore(Memory(), {}, {[]});
      while size != 0
        invariant 0 <= size <= |prefix|
        invariant Sound() && Fit(Memory(), {prefix[..|prefix| - size]})
        invariant it != NULL && Look(Memory(), prefix[..|prefix| - size]) == it && it in heap && ShapeOk(heap[it])
        invariant Model() == old(Model())
      {
        ghost var p := prefix[..|prefix| - size];
        var c := prefix[|prefix| - size];
        it := Child(it, c, p);
        size := size - 1;
        assert prefix[..|prefix| - size] == p + [c];
      }
      assert prefix[..|prefix|] == prefix;
      first := heap[it].pipes.None?;
      AddHere(it, v, prefix);
      AddedGains(old(Model()), Model(), prefix, v);
    }

    /** The end of add: the subscriber enters the set of the node it reached. */
    method AddHere(it: Addr, v: Value, ghost p: Path)
      requires Sound() && Fit(Memory(), {p}) && Look(Memory(), p) == it && it != NULL && it in heap && ShapeOk(heap[it])
      modifies this
      ensures Valid()
      ensures Model() == old(Model())[p := (if p in old(Model()) then old(Model())[p] else {}) + {v}]
      ensures old(heap[it]).pipes.None? <==> p !in old(Model())
    {
      ghost var f := Memory();
      assert PathOk(f, p);
      var n := heap[it];
      if n.pipes.None? {
        n := n.(pipes := Some({}));
      }
      n := n.(pipes := Some(n.pipes.value + {v}));
      PutLinked(f, p, n);
      PutSubs(f, p, n);
      heap := heap[it := n];
      assert Memory() == Put(f, p, n);
      FitAfter(f, Memory(), p, {p}, {});
    }

    /** Calls back for every subscription to a prefix of the data. */
    method Match(data: Path) returns (calls: seq<Value>)
      requires Valid()
      ensures multiset(calls) == Visits(Model(), data, |data|)
    {
      calls := [];
      ghost var f := Memory();
      var current, k := root, 0;
      assert data[..0] == [] && PathOk(f, []);
      while true
        invariant 0 <= k <= |data| && Look(f, data[..k]) == current && current != NULL && current in heap
        invariant multiset(calls) == if k == 0 then multiset{} else Visits(Model(), data, k - 1)
        decreases |data| - k
      {
        assert FitAt(f, data[..k]);
        calls := Signal(calls, heap[current].pipes);
        assert multiset(calls) == Visits(Model(), data, k);
        if k == |data| {
          break;
        }
        assert LinkOk(f, data[..k], data[k]);
        assert data[..k] + [data[k]] == data[..k + 1];
        assert PathOk(f, data[..k + 1]);
        var next := Kid(heap[current], data[k]);
        if next == NULL {
          VisitsEnd(f, data, k, |data|);
          break;
        }
        current, k := next, k + 1;
      }
    }

    /** Calls back for each subscriber of one node, in some order. */
    static method Signal(calls: seq<Value>, pipes: Option<set<Value>>) returns (r: seq<Value>)
      ensures multiset(r) == multiset(calls) + multiset(if pipes.Some? then pipes.value else {})
    {
      r := calls;
      if pipes.Some? {
        var rest := pipes.value;
        while rest != {}
          invariant rest <= pipes.value && multiset(r) == multiset(calls) + multiset(pipes.value - rest)
          decreases rest
        {
          var v :| v in rest;
          r, rest := r + [v], rest - {v};
          assert multiset(pipes.value - rest) == multiset(pipes.value - (rest + {v})) + multiset{v};
        }
        assert pipes.value - rest == pipes.value;
      }
    }

    /** Takes v out of the set of one node, which may become redundant by that. */
    method RemoveHere(it: Addr, v: Value, ghost p: Path) returns (ret: RmResult)
      requires Valid() && Look(Memory(), p) == it && it != NULL
      modifies this`heap
      ensures Sound() && Fit(Memory(), {p}) && it in heap && ShapeOk(heap[it])
      ensures Model() == Without(old(Model()), p, v) && ret == RmOutcome(old(Model()), p, v)
    {
      ghost var f := Memory();
      assert PathOk(f, p) && FitAt(f, p);
      var n := heap[it];
      if n.pipes.None? {
        FitMore(f, {}, {p});
        return NotFound;
      }
      var erased := v in n.pipes.value;
      var left := n.pipes.value - {v};
      if left == {} {
        assert erased;
        assert n.pipes.value == {v};
        n, ret := n.(pipes := None), LastValueRemoved;
      } else {
        n, ret := n.(pipes := Some(left)), if erased then ValuesRemain else NotFound;
      }
      PutLinked(f, p, n);
      PutSubs(f, p, n);
      heap := heap[it := n];
      assert Memory() == Put(f, p, n);
      FitAfter(f, Memory(), p, {}, {p});
      assert !erased ==> left == f.heap[it].pipes.value;
    }

    /** The revisit of a node after its child under c was visited: prune the child if it is redundant. */
    method Retire(node: Addr, child: Addr, c: byte, ghost p: Path)
      requires Sound() && Fit(Memory(), {p + [c]}) && Look(Memory(), p) == node && node != NULL
      requires Look(Memory(), p + [c]) == child && child != NULL
      requires child in heap && ShapeOk(heap[child])
      modifies this`heap, this`at, this`path
      ensures Sound() && Fit(Memory(), {p}) && node in heap && ShapeOk(heap[node])
      ensures Model() == old(Model())
      ensures forall q :: q != p + [c] ==> Look(Memory(), q) == old(Look(Memory(), q))
    {
      ghost var f := Memory();
      SnocInjective(p, c, p, c);
      assert PathOk(f, p) && PathOk(f, p + [c]) && LinkOk(f, p, c);
      assert p != p + [c] && FitAt(f, p);
      if Redundant(heap[child]) {
        LeafWhenRedundant(heap[child]);
        var n := Prune(heap[node], c);
        WitherLinked(f, p, c, n);
        WitherSubs(f, p, c, n);
        heap := heap[node := n] - {child};
        at, path := at - {p + [c]}, path - {child};
        assert Memory() == Wither(f, p, c, n);
        FitAfter(f, Memory(), p, {p + [c]}, {p});
      } else {
        assert FitAt(f, p + [c]);
        FitAgain(f, p + [c], {});
        FitMore(f, {}, {p});
      }
    }

    /** Everything is in order, except that the node at p may be redundant. */
    ghost predicate Settled(p: Path)
      reads this
    {
      Sound() && Fit(Memory(), {p}) && (Has(Memory(), p) ==> ShapeOk(NodeAt(Memory(), p)))
    }

    /** The revisit of the node d bytes down the prefix, whose entry was taken off the stack. */
    method Back(it: Iter, ghost prefix: Path, ghost stack: seq<Iter>)
      requires StackOk(Memory(), prefix, stack + [it]) && StackOk(Memory(), prefix, stack) && it.processed
      requires |stack| < |prefix| && Settled(prefix[..|stack| + 1])
      modifies this`heap, this`at, this`path
      ensures StackOk(Memory(), prefix, stack) && Settled(prefix[..|stack|]) && Model() == old(Model())
    {
      ghost var f, d := Memory(), |stack|;
      assert EntryOk(f, prefix, stack + [it], d);
      assert prefix[..d + 1] == prefix[..d] + [prefix[d]];
      assert PathOk(f, prefix[..d + 1]);
      Retire(it.node, it.nextNode, it.currentChild, prefix[..d]);
      StackKept(f, Memory(), prefix, stack);
    }

    /** The node of the prefix is reached: the entry goes. */
    method Arrive(it: Iter, v: Value, ghost prefix: Path, ghost stack: seq<Iter>) returns (ret: RmResult)
      requires Valid() && StackOk(Memory(), prefix, stack + [it]) && StackOk(Memory(), prefix, stack)
               && !it.processed && it.rest == []
      modifies this`heap, this`at, this`path
      ensures StackOk(Memory(), prefix, stack) && |stack| <= |prefix| && Settled(prefix[..|stack|])
      ensures Model() == Without(old(Model()), prefix, v) && ret == RmOutcome(old(Model()), prefix, v)
    {
      ghost var f, d := Memory(), |stack|;
      assert EntryOk(f, prefix, stack + [it], d) && |prefix[d..]| == |prefix| - d;
      assert prefix[..d] == prefix;
      ret := RemoveHere(it.node, v, prefix);
      StackKept(f, Memory(), prefix, stack);
    }

    /** On the way down nothing has changed; on the way up the entry is gone and the rest of the way is to be tidied. */
    ghost predicate Going(prefix: Path, v: Value, stack: seq<Iter>, m: map<Path, set<Value>>, up: bool, ret: RmResult)
      reads this
    {
      && StackOk(Memory(), prefix, stack)
      && (up || (stack != [] && !Last(stack).processed && Valid() && Model() == m))
      && (up ==> |stack| <= |prefix| && Settled(prefix[..|stack|]) && (stack != [] ==> Last(stack).processed))
      && (up ==> Model() == Without(m, prefix, v) && ret == RmOutcome(m, prefix, v))
    }

    /** One round of the loop: the top entry is taken off and worked on. */
    method Round(prefix: Path, v: Value, stack: seq<Iter>, ghost m: map<Path, set<Value>>, ghost up: bool,
                 ret: RmResult)
        returns (stack': seq<Iter>, ghost up': bool, ret': RmResult)
      requires stack != [] && Going(prefix, v, stack, m, up, ret)
      modifies this`heap, this`at, this`path
      ensures Going(prefix, v, stack', m, up', ret') && Effort(stack') < Effort(stack)
    {
      var it, rest := Last(stack), stack[..|stack| - 1];
      StackPop(Memory(), prefix, stack, rest, it);
      stack', up', ret' := rest, up, ret;
      if it.processed {
        Back(it, prefix, rest);
      } else if it.rest == [] {
        ret' := Arrive(it, v, prefix, rest);
        up' := true;
      } else {
        var next := Down(it, prefix, rest);
        if next == NULL {
          ret', up' := NotFound, true;
        } else {
          StackPush(Memory(), prefix, rest, it, next);
          stack' := rest + [it.(nextNode := next, currentChild := it.rest[0], processed := true),
                            Iter(next, NULL, it.rest[1..], 0, false)];
        }
      }
    }

    /** Removes one entry; the stack replaces a recursion down the prefix and back up. */
    method Rm(prefix: Path, v: Value) returns (ret: RmResult)
      requires Valid()
      modifies this`heap, this`at, this`path
      ensures Valid() && Loses(old(Model()), Model(), prefix, v)
      ensures Tells(SubscribersOf(old(Model()), prefix), v, ret)
      ensures Model() == Without(old(Model()), prefix, v) && ret == RmOutcome(old(Model()), prefix, v)
    {
      SubsNeat(Memory());
      WithoutLoses(Model(), prefix, v);
      ret := NotFound;
      var stack := [Iter(root, NULL, prefix, 0, false)];
      ghost var m, up := Model(), false;
      StackStart(Memory(), prefix, stack);
      while stack != []
        invariant Going(prefix, v, stack, m, up, ret)
        decreases Effort(stack)
      {
        stack, up, ret := Round(prefix, v, stack, m, up, ret);
      }
      assert prefix[..0] == [];
      FitAgain(Memory(), [], {});
    }

    /** The next node on the way down; without one, the prefix has no entry. */
    method Down(it: Iter, ghost prefix: Path, ghost stack: seq<Iter>) returns (next: Addr)
      requires Valid() && StackOk(Memory(), prefix, stack + [it]) && !it.processed && it.rest != []
      ensures |stack| < |prefix| && it.rest[0] == prefix[|stack|] && Look(Memory(), prefix[..|stack| + 1]) == next
      ensures next == NULL ==> prefix !in Model() && Settled(prefix[..|stack|])
    {
      ghost var f, d := Memory(), |stack|;
      assert EntryOk(f, prefix, stack + [it], d) && |prefix[d..]| == |prefix| - d;
      ghost var p := prefix[..d];
      var c := it.rest[0];
      assert PathOk(f, p) && FitAt(f, p) && LinkOk(f, p, c);
      assert prefix[..d + 1] == p + [c];
      assert PathOk(f, prefix[..d + 1]);
      var n := heap[it.node];
      if n.count == 0 || c < n.min || c >= n.min + n.count {
        next := NULL;
      } else {
        next := if n.count == 1 then n.next.node else n.next.table[c - n.min];
      }
      if next == NULL {
        NoEntry(f, prefix, d);
        FitMore(f, {}, {p});
      }
    }
  }

  /** The stack starts with a visit of the root. */
  lemma StackStart(f: Forest, prefix: Path, stack: seq<Iter>)
    requires Linked(f) && stack == [Iter(f.at[[]], NULL, prefix, 0, false)]
    ensures StackOk(f, prefix, stack)
  {
    assert PathOk(f, []) && prefix[..0] == [] && prefix[0..] == prefix;
    assert EntryOk(f, prefix, stack, 0);
  }

  /** Going down turns the top entry into a revisit with a visit on top, and leaves less to do. */
  lemma StackPush(f: Forest, prefix: Path, stack: seq<Iter>, it: Iter, next: Addr)
    requires StackOk(f, prefix, stack + [it]) && !it.processed && it.rest != [] && |stack| < |prefix|
    requires next != NULL && Look(f, prefix[..|stack| + 1]) == next && it.rest[0] == prefix[|stack|]
    ensures var r := stack + [it.(nextNode := next, currentChild := it.rest[0], processed := true),
                              Iter(next, NULL, it.rest[1..], 0, false)];
            StackOk(f, prefix, r) && Effort(r) < Effort(stack + [it])
  {
    var i1 := it.(nextNode := next, currentChild := it.rest[0], processed := true);
    var i2 := Iter(next, NULL, it.rest[1..], 0, false);
    var s, r, n := stack + [it], stack + [i1, i2], |stack|;
    assert EntryOk(f, prefix, s, n);
    TopEntries(f, prefix, s, r, n, next);
    forall j | 0 <= j < |r| ensures EntryOk(f, prefix, r, j) {
      if j < n {
        assert EntryOk(f, prefix, s, j);
        EntryKept(f, prefix, s, r, j);
      } else {
        assert j == n || j == n + 1;
      }
    }
    EffortPush(stack, it, i1, i2);
  }

  lemma TopEntries(f: Forest, prefix: Path, s: seq<Iter>, r: seq<Iter>, n: nat, next: Addr)
    requires n + 1 == |s| && n + 2 == |r| && n < |prefix| && EntryOk(f, prefix, s, n) && !s[n].processed
             && s[n].rest != []
    requires next != NULL && Look(f, prefix[..n + 1]) == next
    requires r[n] == s[n].(nextNode := next, currentChild := prefix[n], processed := true)
    requires r[n + 1] == Iter(next, NULL, s[n].rest[1..], 0, false)
    ensures EntryOk(f, prefix, r, n) && EntryOk(f, prefix, r, n + 1)
  {
    assert prefix[n..][1..] == prefix[n + 1..];
  }

  lemma EntryKept(f: Forest, prefix: Path, s: seq<Iter>, r: seq<Iter>, j: nat)
    requires j + 1 < |s| && j + 1 < |r| && s[j] == r[j] && EntryOk(f, prefix, s, j)
    ensures EntryOk(f, prefix, r, j)
  {
  }

  lemma EffortPush(stack: seq<Iter>, it: Iter, i1: Iter, i2: Iter)
    requires !it.processed && i1.processed && !i2.processed && |i2.rest| + 1 == |it.rest|
    ensures Effort(stack + [i1, i2]) < Effort(stack + [it])
  {
    var s, r := stack + [it], stack + [i1, i2];
    assert s[..|stack|] == stack && r[..|stack| + 1] == stack + [i1] && (stack + [i1])[..|stack|] == stack;
  }

  /** Taking the top entry off leaves a good stack and less to do. */
  lemma StackPop(f: Forest, prefix: Path, stack: seq<Iter>, rest: seq<Iter>, it: Iter)
    requires StackOk(f, prefix, stack) && stack != [] && rest == stack[..|stack| - 1] && it == Last(stack)
    ensures stack == rest + [it] && Effort(rest) < Effort(stack)
    ensures StackOk(f, prefix, rest) && (rest != [] ==> Last(rest).processed)
  {
    forall j | 0 <= j < |rest| ensures EntryOk(f, prefix, rest, j) {
      EntryBelow(f, prefix, stack, rest, j);
    }
    if rest != [] { EntryBelow(f, prefix, stack, rest, |rest| - 1); }
  }

  lemma EntryBelow(f: Forest, prefix: Path, stack: seq<Iter>, s: seq<Iter>, j: nat)
    requires StackOk(f, prefix, stack) && stack != [] && s == stack[..|stack| - 1] && j < |s|
    ensures EntryOk(f, prefix, s, j) && s[j].processed
  {
    assert EntryOk(f, prefix, stack, j);
  }

  /** The stack only cares about prefixes shorter than the one whose node may have gone. */
  lemma StackKept(f: Forest, g: Forest, prefix: Path, stack: seq<Iter>)
    requires StackOk(f, prefix, stack) && |stack| < |prefix| + 1
    requires forall q :: |q| <= |stack| ==> Look(g, q) == Look(f, q)
    ensures StackOk(g, prefix, stack)
  {
    forall j | 0 <= j < |stack| ensures EntryOk(g, prefix, stack, j) {
      assert EntryOk(f, prefix, stack, j);
    }
  }

  lemma NoEntry(f: Forest, prefix: Path, d: nat)
    requires Linked(f) && d < |prefix| && prefix[..d + 1] !in f.at
    ensures prefix !in Subs(f)
  {
    if prefix in f.at { PrefixClosed(f, prefix, d + 1); }
  }

  lemma LeafWhenRedundant(n: Node)
    requires ShapeOk(n) && Redundant(n)
    ensures n.count == 0
  {
  }
}