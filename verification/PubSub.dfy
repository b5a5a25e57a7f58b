/**
 * xpub_t of src/xpub.cpp, which joins the multi-trie of subscriptions with the
 * distributor: who gets a message, and what the socket's user is told about the
 * subscriptions, so that it can pass them on.
 */
module PubSub {
  import opened Common
  import opened MTrieNode
  import opened MTrieHeap
  import opened MTrie
  import opened MTrieRemoveAll
  import opened PipeArray
  import opened Dist
  import opened Messages
  import opened MessagePool

  type Subscriptions = map<Path, set<Value>>

  // ----- Who gets a message -----------------------------------------------------------------

  ghost predicate Wants(m: Subscriptions, data: Path, v: Value) {
    exists k: nat {:trigger data[..k]} :: k <= |data| && v in SubscribersOf(m, data[..k])
  }

  /** The pipes that can take messages and subscribed to a prefix of the data; or the others, if inverted. */
  ghost function Selected(m: Subscriptions, z: Zones, data: Path, invert: bool): set<Pipe> {
    set p | p in z.eligible && (Wants(m, data, p) <==> !invert)
  }

  /**
   * A part reached these pipes.  The first part of a message goes to every pipe that can take messages,
   * has room and subscribed to a prefix of the data, or, if inverted, to every such pipe that did not;
   * a later part to those chosen for the first that have room.
   */
  ghost predicate Reached(m: Subscriptions, z: Zones, data: Path, invert: bool, full: set<Pipe>, takers: seq<Pipe>) {
    forall p :: p in takers <==>
      && p !in full
      && if z.more then p in z.matching
         else p in z.eligible && if invert then !Wants(m, data, p) else Wants(m, data, p)
  }

  lemma ReachedBy(m: Subscriptions, z: Zones, data: Path, invert: bool, full: set<Pipe>, takers: seq<Pipe>)
    requires Elems(takers) == (if z.more then z.matching else Selected(m, z, data, invert)) - full
    ensures Reached(m, z, data, invert, full, takers)
  {
    forall p ensures p in takers <==> p in Elems(takers) { }
  }

  /** The eligible pipes among those that the trie calls back for. */
  ghost function Called(z: Zones, calls: seq<Value>): set<Pipe> {
    set p | p in z.eligible && p in calls
  }

  lemma CallsSelect(m: Subscriptions, z: Zones, data: Path, calls: seq<Value>)
    requires multiset(calls) == Visits(m, data, |data|) && AllAttached(m, z.all)
    ensures forall v :: v in calls ==> v in z.all
    ensures Called(z, calls) == Selected(m, z, data, false)
    ensures z.eligible - Called(z, calls) == Selected(m, z, data, true)
  {
    forall v ensures v in calls <==> Wants(m, data, v) {
      VisitedWants(m, data, v);
      assert v in calls <==> v in multiset(calls);
    }
    forall v | v in calls ensures v in z.all { WantsAttached(m, z.all, data, v); }
  }

  lemma VisitedWants(m: Subscriptions, data: Path, v: Value)
    ensures v in Visits(m, data, |data|) <==> Wants(m, data, v)
  {
    VisitsCount(m, data, |data|, v);
    var lengths := MatchingLengths(m, data, |data|, v);
    if Wants(m, data, v) {
      var k: nat :| k <= |data| && v in SubscribersOf(m, data[..k]);
      assert k in lengths;
    }
    if lengths != {} {
      var k :| k in lengths;
      assert v in SubscribersOf(m, data[..k]);
    }
  }

  ghost predicate AttachedAt(m: Subscriptions, all: set<Pipe>, t: Path) {
    t in m ==> m[t] <= all
  }

  /** Only attached pipes have subscriptions. */
  ghost predicate AllAttached(m: Subscriptions, all: set<Pipe>) {
    forall t {:trigger AttachedAt(m, all, t)} :: AttachedAt(m, all, t)
  }

  lemma WantsAttached(m: Subscriptions, all: set<Pipe>, data: Path, v: Value)
    requires AllAttached(m, all) && Wants(m, data, v)
    ensures v in all
  {
    var k: nat :| k <= |data| && v in SubscribersOf(m, data[..k]);
    assert AttachedAt(m, all, data[..k]);
  }

  lemma JoinedAttached(m: Subscriptions, all: set<Pipe>, topic: Path, v: Value)
    requires AllAttached(m, all)
    ensures AllAttached(Joined(m, topic, v), all + {v}) && AllAttached(m, all + {v})
  {
    forall t ensures AttachedAt(m, all + {v}, t) { assert AttachedAt(m, all, t); }
    forall t ensures AttachedAt(Joined(m, topic, v), all + {v}, t) {
      assert AttachedAt(m, all, t);
    }
  }

  lemma WithoutAttached(m: Subscriptions, all: set<Pipe>, topic: Path, v: Value)
    requires AllAttached(m, all)
    ensures AllAttached(Without(m, topic, v), all)
  {
    forall t ensures AttachedAt(Without(m, topic, v), all, t) { assert AttachedAt(m, all, t); }
  }

  lemma WithoutAllAttached(m: Subscriptions, all: set<Pipe>, v: Value)
    requires AllAttached(m, all)
    ensures AllAttached(WithoutAll(m, v), all - {v})
  {
    forall t ensures AttachedAt(WithoutAll(m, v), all - {v}, t) { assert AttachedAt(m, all, t); }
  }

  // ----- What the user is told ----------------------------------------------------------------

  type Blob = seq<byte>

  function Notice(subscribe: bool, topic: Path): Blob {
    [if subscribe then 1 else 0] + topic
  }

  /** How a message from a subscriber is read: 1 and a topic subscribes, 0 and a topic cancels, all else is neither. */
  function Request(data: Blob): Option<(bool, Path)> {
    if |data| > 0 && (data[0] == 0 || data[0] == 1) then Some((data[0] == 1, data[1..])) else None
  }

  /** What is passed on to a publisher further up is read there as the same request. */
  lemma NoticeIsRequest(data: Blob, subscribe: bool, topic: Path)
    ensures Request(data) == Some((subscribe, topic)) <==> data == Notice(subscribe, topic)
  {
    if |data| > 0 { assert data == [data[0]] + data[1..]; }
  }

  /** The topics that somebody subscribed to, as far as one can tell from the notifications. */
  ghost function Told(log: seq<Blob>): set<Path> {
    if log == [] then {}
    else
      var rest, last := Told(log[..|log| - 1]), log[|log| - 1];
      if last == [] then rest
      else if last[0] == 1 then rest + {last[1..]}
      else rest - {last[1..]}
  }

  lemma ToldMore(log: seq<Blob>, subscribe: bool, topic: Path)
    ensures Told(log + [Notice(subscribe, topic)]) == if subscribe then Told(log) + {topic} else Told(log) - {topic}
  {
    assert (log + [Notice(subscribe, topic)])[..|log|] == log && Notice(subscribe, topic)[1..] == topic;
  }

  function Gone(calls: seq<Path>): seq<Blob> {
    if calls == [] then [] else Gone(calls[..|calls| - 1]) + [Notice(false, calls[|calls| - 1])]
  }

  lemma {:induction false} GoneIs(calls: seq<Path>)
    ensures |Gone(calls)| == |calls| && forall i :: 0 <= i < |calls| ==> Gone(calls)[i] == [0] + calls[i]
  {
    if calls != [] { GoneIs(calls[..|calls| - 1]); }
  }

  lemma {:induction false} ToldGone(log: seq<Blob>, calls: seq<Path>)
    ensures Told(log + Gone(calls)) == set t | t in Told(log) && t !in calls
  {
    if calls == [] {
      assert log + Gone(calls) == log;
    } else {
      var rest, t := calls[..|calls| - 1], calls[|calls| - 1];
      ToldGone(log, rest);
      assert log + Gone(calls) == (log + Gone(rest)) + [Notice(false, t)] && calls == rest + [t];
      ToldMore(log + Gone(rest), false, t);
    }
  }

  /** The state that matters for notifications: the subscriptions and all that was ever told. */
  datatype Feed = Feed(subs: Subscriptions, log: seq<Blob>)

  ghost predicate Agrees(f: Feed) {
    Told(f.log) == f.subs.Keys
  }

  ghost function Joined(m: Subscriptions, topic: Path, v: Value): Subscriptions {
    m[topic := SubscribersOf(m, topic) + {v}]
  }

  /** The options that decide what is told. */
  datatype Policy = Policy(verboseSubs: bool, verboseUnsubs: bool)

  ghost function Subscribe(f: Feed, o: Policy, v: Value, topic: Path): Feed {
    Feed(Joined(f.subs, topic, v),
         if topic !in f.subs || o.verboseSubs then f.log + [Notice(true, topic)] else f.log)
  }

  ghost function Cancel(f: Feed, o: Policy, v: Value, topic: Path): Feed {
    Feed(Without(f.subs, topic, v),
         if !RmOutcome(f.subs, topic, v).ValuesRemain? || o.verboseUnsubs
         then f.log + [Notice(false, topic)] else f.log)
  }

  /** A message of subscriber v is taken. */
  ghost function Taken(f: Feed, o: Policy, v: Value, data: Blob): Feed {
    match Request(data)
    case None => f
    case Some((subscribe, topic)) => if subscribe then Subscribe(f, o, v, topic) else Cancel(f, o, v, topic)
  }

  /** A pipe ends, and `calls` are the topics reported for it. */
  ghost function Leave(f: Feed, v: Value, calls: seq<Path>): Feed {
    Feed(WithoutAll(f.subs, v), f.log + Gone(calls))
  }

  /**
   * Exactly the subscriptions of v are gone.  An XPUB tells its user once of each topic that has nobody
   * left, or of each topic of v, if so wanted.
   */
  ghost predicate Departed(before: Feed, after: Feed, o: Policy, tells: bool, v: Value, calls: seq<Path>) {
    && LosesAll(before.subs, after.subs, v)
    && (forall i, j :: 0 <= i < j < |calls| ==> calls[i] != calls[j])
    && (forall t {:trigger t in calls} :: t in calls <==>
          v in SubscribersOf(before.subs, t) && (o.verboseUnsubs || SubscribersOf(before.subs, t) == {v}))
    && |after.log| == |before.log| + (if tells then |calls| else 0) && before.log <= after.log
    && (tells ==> forall i :: 0 <= i < |calls| ==> after.log[|before.log| + i] == [0] + calls[i])
  }

  lemma DepartedExactly(f: Feed, r: Feed, o: Policy, tells: bool, v: Value, calls: seq<Path>)
    requires LosesAll(f.subs, r.subs, v) && forall i, j :: 0 <= i < j < |calls| ==> calls[i] != calls[j]
    requires forall t :: t in calls <==> Reported(f.subs, v, !o.verboseUnsubs, t)
    requires r.log == if tells then f.log + Gone(calls) else f.log
    ensures Departed(f, r, o, tells, v, calls)
  {
    GoneIs(calls);
  }

  /** A pipe that gets everything is subscribed to the empty topic without a notification. */
  ghost function Arrive(f: Feed, v: Value, toAll: bool): Feed {
    if toAll then f.(subs := Joined(f.subs, [], v)) else f
  }

  /**
   * Exactly this subscription came.  An XPUB tells its user so if it is the first one of the topic, or
   * always, if so wanted.
   */
  ghost predicate Joining(before: Feed, after: Feed, o: Policy, tells: bool, v: Value, topic: Path) {
    && Gains(before.subs, after.subs, topic, v)
    && after.log == before.log + if tells && (SubscribersOf(before.subs, topic) == {} || o.verboseSubs)
                                 then [[1] + topic] else []
  }

  lemma JoiningExactly(f: Feed, o: Policy, tells: bool, v: Value, topic: Path)
    requires Neat(f.subs)
    ensures var r := Subscribe(f, o, v, topic);
            Joining(f, if tells then r else r.(log := f.log), o, tells, v, topic)
  {
    AddedGains(f.subs, Joined(f.subs, topic, v), topic, v);
    assert NeatAt(f.subs, topic);
  }

  lemma SubscribeAgrees(f: Feed, o: Policy, v: Value, topic: Path)
    requires Agrees(f)
    ensures Agrees(Subscribe(f, o, v, topic))
  {
    ToldMore(f.log, true, topic);
  }

  /** A cancellation misleads the user exactly if it is told although the topic has other subscribers. */
  predicate Misleads(m: Subscriptions, o: Policy, v: Value, topic: Path) {
    topic in m && (v !in m[topic] || (o.verboseUnsubs && m[topic] != {v}))
  }

  /**
   * Exactly this subscription is gone.  An XPUB tells its user so if v was the last subscriber or none at
   * all, or always, if so wanted.
   */
  ghost predicate Cancelled(before: Feed, after: Feed, o: Policy, tells: bool, v: Value, topic: Path) {
    var others := SubscribersOf(before.subs, topic);
    && Loses(before.subs, after.subs, topic, v)
    && after.log == before.log + if tells && (o.verboseUnsubs || v !in others || Alone(others, v))
                                 then [[0] + topic] else []
  }

  lemma CancelledExactly(f: Feed, o: Policy, tells: bool, v: Value, topic: Path)
    requires Neat(f.subs)
    ensures var r := Cancel(f, o, v, topic);
            Cancelled(f, if tells then r else r.(log := f.log), o, tells, v, topic)
  {
    WithoutLoses(f.subs, topic, v);
  }

  lemma CancelAgrees(f: Feed, o: Policy, v: Value, topic: Path)
    requires Agrees(f)
    ensures Agrees(Cancel(f, o, v, topic)) <==> !Misleads(f.subs, o, v, topic)
  {
    ToldMore(f.log, false, topic);
  }

  lemma LeaveAgrees(f: Feed, o: Policy, v: Value, calls: seq<Path>)
    requires Agrees(f) && forall t :: t in calls <==> Reported(f.subs, v, !o.verboseUnsubs, t)
    ensures Agrees(Leave(f, v, calls))
            <==> !(o.verboseUnsubs && exists t :: t in f.subs && v in f.subs[t] && f.subs[t] != {v})
  {
    ToldGone(f.log, calls);
    var after := Told(f.log + Gone(calls));
    forall t ensures t in after <==> t in f.subs && !Reported(f.subs, v, !o.verboseUnsubs, t) {
      assert t in after <==> t in Told(f.log) && t !in calls;
    }
  }

  lemma ArriveAgrees(f: Feed, v: Value, toAll: bool)
    requires Agrees(f)
    ensures Agrees(Arrive(f, v, toAll)) <==> (toAll ==> [] in f.subs)
  {
  }

  datatype Event =
    | Subscribed(v: Value, topic: Path)
    | Unsubscribed(v: Value, topic: Path)
    | Left(v: Value, calls: seq<Path>)
    | Arrived(v: Value, toAll: bool)

  ghost function After(f: Feed, o: Policy, e: Event): Feed {
    match e
    case Subscribed(v, topic) => Subscribe(f, o, v, topic)
    case Unsubscribed(v, topic) => Cancel(f, o, v, topic)
    case Left(v, calls) => Leave(f, v, calls)
    case Arrived(v, toAll) => Arrive(f, v, toAll)
  }

  ghost predicate IsRun(feeds: seq<Feed>, o: Policy, events: seq<Event>) {
    && |feeds| == |events| + 1 && feeds[0] == Feed(map[], [])
    && forall i :: 0 <= i < |events| ==>
         && feeds[i + 1] == After(feeds[i], o, events[i])
         && (events[i].Left? ==>
               forall t :: t in events[i].calls <==> Reported(feeds[i].subs, events[i].v, !o.verboseUnsubs, t))
  }

  /** Nothing in this event can mislead. */
  ghost predicate Harmless(f: Feed, o: Policy, e: Event) {
    match e
    case Subscribed(_, _) => true
    case Unsubscribed(v, topic) => !Misleads(f.subs, o, v, topic)
    case Left(v, _) => !(o.verboseUnsubs && exists t :: t in f.subs && v in f.subs[t] && f.subs[t] != {v})
    case Arrived(_, toAll) => toAll ==> [] in f.subs
  }

  const STRAY_CANCEL := [Subscribed(1, [65]), Unsubscribed(2, [65])]

  /** In the end there is a subscriber, and the user was told that there is none. */
  ghost predicate Deceived(feeds: seq<Feed>) {
    |feeds| == 3 && feeds[2].subs == map[[65] := {1}] && Told(feeds[2].log) == {}
  }

  /**
   * A run with one subscriber, in which another pipe cancels what it never had: the user is told
   * that nobody is left.
   */
  lemma StrayCancelMisleads()
    ensures exists feeds: seq<Feed> :: IsRun(feeds, Policy(false, false), STRAY_CANCEL) && Deceived(feeds)
  {
    var o, topic := Policy(false, false), [65];
    var start := Feed(map[], []);
    var one := Subscribe(start, o, 1, topic);
    var two := Cancel(one, o, 2, topic);
    ToldMore(start.log, true, topic);
    ToldMore(one.log, false, topic);
    var only: set<Value> := {1};
    assert {} + {1} == only;
    assert one.subs == map[topic := only] && two.subs == one.subs;
    var feeds := [start, one, two];
    assert IsRun(feeds, o, STRAY_CANCEL) && Deceived(feeds);
  }

  /**
   * Over any run, what was told agrees with the subscriptions for as long as no event misleads, and
   * the first that does breaks it.
   */
  lemma {:induction false} ToldIsTrue(feeds: seq<Feed>, o: Policy, events: seq<Event>, n: nat)
    requires IsRun(feeds, o, events) && n <= |events|
    requires forall i :: 0 <= i < n ==> Harmless(feeds[i], o, events[i])
    ensures Agrees(feeds[n])
    ensures n < |events| && !Harmless(feeds[n], o, events[n]) ==> !Agrees(feeds[n + 1])
  {
    if n > 0 {
      ToldIsTrue(feeds, o, events, n - 1);
      AfterAgrees(feeds[n - 1], o, events[n - 1]);
    }
    if n < |events| { AfterAgrees(feeds[n], o, events[n]); }
  }

  lemma AfterAgrees(f: Feed, o: Policy, e: Event)
    requires Agrees(f) && (e.Left? ==> forall t :: t in e.calls <==> Reported(f.subs, e.v, !o.verboseUnsubs, t))
    ensures Agrees(After(f, o, e)) <==> Harmless(f, o, e)
  {
    match e
    case Subscribed(v, topic) => SubscribeAgrees(f, o, v, topic);
    case Unsubscribed(v, topic) => CancelAgrees(f, o, v, topic);
    case Left(v, calls) => LeaveAgrees(f, o, v, calls);
    case Arrived(v, toAll) => ArriveAgrees(f, v, toAll);
  }

  // ----- The socket --------------------------------------------------------------------------

  class Publisher {
    const subscriptions: MTrie
    const dist: Dist
    const policy: Policy
    // Whether the socket is an XPUB, whose user is told about subscriptions.
    const tells: bool
    const lossy: bool
    const invert: bool
    var moreSend: bool
    var pending: seq<Blob>
    // All that was ever told, and how much of it the user has read.
    ghost var log: seq<Blob>
    ghost var read: nat

    ghost predicate Valid()
      reads this, subscriptions, dist, dist.pipes
    {
      && subscriptions.Valid() && dist.Valid()
      && AllAttached(subscriptions.Model(), dist.View().all)
      && moreSend == dist.more && Unread()
    }

    /** What waits for the user is what was told and not read yet. */
    ghost predicate Unread()
      reads this
    {
      read <= |log| && pending == log[read..]
    }

    ghost function Told(): Feed
      reads this, subscriptions
    {
      Feed(subscriptions.Model(), log)
    }

    constructor (policy: Policy, tells: bool, lossy: bool, invert: bool)
      ensures Valid() && fresh(subscriptions) && fresh(dist) && fresh(dist.pipes) && Told() == Feed(map[], [])
    {
      this.policy, this.tells, this.lossy, this.invert := policy, tells, lossy, invert;
      subscriptions := new MTrie();
      dist := new Dist();
      moreSend, pending, log, read := false, [], [], 0;
    }

    /** A PUB socket does the same, but tells nothing. */
    ghost function Quiet(before: Feed, after: Feed): Feed {
      if tells then after else after.(log := before.log)
    }

    method Tell(subscribe: bool, topic: Path)
      requires Unread()
      modifies this`pending, this`log
      ensures Unread() && log == if tells then old(log) + [Notice(subscribe, topic)] else old(log)
    {
      if tells {
        pending := pending + [Notice(subscribe, topic)];
        log := log + [Notice(subscribe, topic)];
      }
    }

    method AttachPipe(p: Pipe, toAll: bool)
      requires Valid() && p !in dist.View().all
      modifies this, subscriptions, dist, dist.pipes
      ensures Valid() && dist.View() == Attached(old(dist.View()), p)
      ensures Told() == Arrive(old(Told()), p, toAll) && log == old(log)
      ensures if toAll then Gains(old(Told()).subs, Told().subs, [], p) else Told().subs == old(Told()).subs
    {
      JoinedAttached(subscriptions.Model(), dist.View().all, [], p);
      dist.Attach(p);
      if toAll {
        var first := subscriptions.Add([], p);
      }
    }

    method ReadSubscription(p: Pipe, topic: Path)
      requires Valid() && p in dist.View().all
      modifies this, subscriptions
      ensures Valid() && Joining(old(Told()), Told(), policy, tells, p, topic)
      ensures Told() == Quiet(old(Told()), Subscribe(old(Told()), policy, p, topic))
    {
      JoinedAttached(subscriptions.Model(), dist.View().all, topic, p);
      assert dist.View().all + {p} == dist.View().all;
      SubsNeat(subscriptions.Memory());
      JoiningExactly(Told(), policy, tells, p, topic);
      SubscribeTopic(p, topic);
    }

    method SubscribeTopic(p: Pipe, topic: Path)
      requires subscriptions.Valid() && Unread()
      modifies this`pending, this`log, subscriptions
      ensures subscriptions.Valid() && Unread()
      ensures Told() == Quiet(old(Told()), Subscribe(old(Told()), policy, p, topic))
    {
      var notify := Enroll(p, topic);
      if notify {
        Tell(true, topic);
      }
    }

    method Enroll(p: Pipe, topic: Path) returns (notify: bool)
      requires subscriptions.Valid()
      modifies subscriptions
      ensures subscriptions.Valid() && subscriptions.Model() == Joined(old(subscriptions.Model()), topic, p)
      ensures notify <==> topic !in old(subscriptions.Model()) || policy.verboseSubs
    {
      var first := subscriptions.Add(topic, p);
      notify := first || policy.verboseSubs;
    }

    method ReadCancel(p: Pipe, topic: Path)
      requires Valid() && p in dist.View().all
      modifies this, subscriptions
      ensures Valid() && Cancelled(old(Told()), Told(), policy, tells, p, topic)
      ensures Told() == Quiet(old(Told()), Cancel(old(Told()), policy, p, topic))
    {
      WithoutAttached(subscriptions.Model(), dist.View().all, topic, p);
      SubsNeat(subscriptions.Memory());
      CancelledExactly(Told(), policy, tells, p, topic);
      CancelTopic(p, topic);
    }

    method CancelTopic(p: Pipe, topic: Path)
      requires subscriptions.Valid() && Unread()
      modifies this`pending, this`log, subscriptions
      ensures subscriptions.Valid() && Unread()
      ensures Told() == Quiet(old(Told()), Cancel(old(Told()), policy, p, topic))
    {
      var notify := Unsubscribe(p, topic);
      if notify {
        Tell(false, topic);
      }
    }

    method Unsubscribe(p: Pipe, topic: Path) returns (notify: bool)
      requires subscriptions.Valid()
      modifies subscriptions
      ensures subscriptions.Valid() && subscriptions.Model() == Without(old(subscriptions.Model()), topic, p)
      ensures notify <==> !RmOutcome(old(subscriptions.Model()), topic, p).ValuesRemain? || policy.verboseUnsubs
    {
      var result := subscriptions.Rm(topic, p);
      notify := result != ValuesRemain || policy.verboseUnsubs;
    }

    /** A message that the subscriber p sent: a subscription, a cancellation, or something else. */
    method ReadMessage(p: Pipe, data: Blob) returns (understood: bool)
      requires Valid() && p in dist.View().all
      modifies this, subscriptions
      ensures Valid() && (understood <==> |data| > 0 && data[0] <= 1)
      ensures !understood ==> Told() == old(Told())
      ensures understood && data[0] == 1 ==> Gains(old(Told()).subs, Told().subs, data[1..], p)
      ensures understood && data[0] == 0 ==> Loses(old(Told()).subs, Told().subs, data[1..], p)
      ensures Told() == Quiet(old(Told()), Taken(old(Told()), policy, p, data))
    {
      var request := Request(data);
      if request.None? {
        return false;
      }
      var (subscribe, topic) := request.value;
      if !subscribe {
        ReadCancel(p, topic);
      } else {
        ReadSubscription(p, topic);
      }
      understood := true;
    }

    method PipeTerminated(p: Pipe) returns (ghost calls: seq<Path>)
      requires Valid() && p in dist.View().all
      modifies this, subscriptions, dist, dist.pipes
      ensures Valid() && dist.View() == Terminated(old(dist.View()), p)
      ensures Departed(old(Told()), Told(), policy, tells, p, calls)
      ensures forall t :: t in calls <==> Reported(old(Told()).subs, p, !policy.verboseUnsubs, t)
      ensures Told() == Quiet(old(Told()), Leave(old(Told()), p, calls))
    {
      WithoutAllAttached(subscriptions.Model(), dist.View().all, p);
      calls := CancelAll(p);
      dist.PipeTerminated(p);
    }

    method CancelAll(p: Pipe) returns (ghost calls: seq<Path>)
      requires subscriptions.Valid() && Unread()
      modifies this`pending, this`log, subscriptions
      ensures subscriptions.Valid() && Unread() && Departed(old(Told()), Told(), policy, tells, p, calls)
      ensures forall t :: t in calls <==> Reported(old(Told()).subs, p, !policy.verboseUnsubs, t)
      ensures Told() == Quiet(old(Told()), Leave(old(Told()), p, calls))
    {
      ghost var f := Told();
      var topics := RmAll(subscriptions, p, !policy.verboseUnsubs);
      calls := topics;
      TellGone(topics);
      DepartedExactly(f, Told(), policy, tells, p, calls);
    }

    method TellGone(topics: seq<Path>)
      requires Unread()
      modifies this`pending, this`log
      ensures Unread() && log == if tells then old(log) + Gone(topics) else old(log)
    {
      var i := 0;
      while i < |topics|
        invariant 0 <= i <= |topics| && Unread() && log == if tells then old(log) + Gone(topics[..i]) else old(log)
      {
        Tell(false, topics[i]);
        assert topics[..i + 1][..i] == topics[..i];
        i := i + 1;
      }
      assert topics[..i] == topics;
    }

    /** Marks the pipes that are to get the message that starts with this data. */
    method Choose(data: Path)
      requires Valid() && !moreSend
      modifies dist, dist.pipes
      ensures Valid()
      ensures dist.View()
              == old(dist.View()).(matching := Selected(subscriptions.Model(), old(dist.View()), data, invert))
    {
      ghost var z, m := dist.View(), subscriptions.Model();
      dist.Unmatch();
      var calls := subscriptions.Match(data);
      CallsSelect(m, z, data, calls);
      MarkAll(dist, calls);
      if invert {
        dist.ReverseMatch();
      }
    }

    /** Marks the pipes that the trie called back for. */
    static method MarkAll(dist: Dist, calls: seq<Value>)
      requires dist.Valid() && !dist.more && dist.View().matching == {}
      requires forall v :: v in calls ==> v in dist.View().all
      modifies dist, dist.pipes
      ensures dist.Valid() && dist.View() == old(dist.View()).(matching := Called(old(dist.View()), calls))
    {
      ghost var z := dist.View();
      var i := 0;
      while i < |calls|
        invariant 0 <= i <= |calls| && dist.Valid() && !dist.more
        invariant dist.View() == z.(matching := Called(z, calls[..i]))
      {
        dist.Match(calls[i]);
        assert calls[..i + 1] == calls[..i] + [calls[i]];
        i := i + 1;
      }
      assert calls[..i] == calls;
    }

    /** The pipes a part goes to: those chosen for the first part that are still there. */
    ghost function Audience(data: Path): set<Pipe>
      reads this, subscriptions, dist, dist.pipes
    {
      if moreSend then dist.View().matching else Selected(subscriptions.Model(), dist.View(), data, invert)
    }

    /** Sends one part: to every pipe of the audience that can take it, one copy each; or not at all. */
    method Send(data: Path, full: set<Pipe>, atHwm: set<Pipe>, pool: Pool, msg: Handle, msgMore: bool)
        returns (ok: bool, takers: seq<Pipe>, copies: seq<Handle>, ghost failed: nat)
      requires Valid() && pool.Sound() && Closable(pool.View(), msg)
      modifies this, dist, dist.pipes, pool
      ensures Valid() && pool.Sound() && Told() == old(Told())
      ensures ok <==> lossy || old(Audience(data)) !! atHwm
      ensures Moved(old(dist.View()), dist.View(), old(Audience(data)), full, msgMore, ok)
      ensures !ok ==> pool.View() == old(pool.View())
      ensures ok ==> Distinct(takers) && |takers| == |copies|
                     && Reached(old(Told()).subs, old(dist.View()), data, invert, full, takers)
      ensures ok ==> Ready(old(pool.View()), msg, copies)
                     && pool.View() == Handed(old(pool.View()), msg, copies, failed)
    {
      ghost var m, z := Told().subs, dist.View();
      ok, takers, copies, failed := SendPart(data, full, atHwm, pool, msg, msgMore);
      if ok { ReachedBy(m, z, data, invert, full, takers); }
    }

    method SendPart(data: Path, full: set<Pipe>, atHwm: set<Pipe>, pool: Pool, msg: Handle, msgMore: bool)
        returns (ok: bool, takers: seq<Pipe>, copies: seq<Handle>, ghost failed: nat)
      requires Valid() && pool.Sound() && Closable(pool.View(), msg)
      modifies this, dist, dist.pipes, pool
      ensures Valid() && pool.Sound() && Told() == old(Told())
      ensures ok <==> lossy || old(Audience(data)) !! atHwm
      ensures Moved(old(dist.View()), dist.View(), old(Audience(data)), full, msgMore, ok)
      ensures !ok ==> pool.View() == old(pool.View())
      ensures ok ==> Distinct(takers) && |takers| == |copies| && Elems(takers) == old(Audience(data)) - full
      ensures ok ==> Ready(old(pool.View()), msg, copies)
                     && pool.View() == Handed(old(pool.View()), msg, copies, failed)
    {
      if !moreSend {
        Choose(data);
      }
      ok, takers, copies, failed := SendChosen(full, atHwm, pool, msg, msgMore);
    }

    /** The zones before and after a part was, or was not, sent to the audience. */
    static ghost predicate Moved(z: Zones, r: Zones, audience: set<Pipe>, full: set<Pipe>, msgMore: bool, ok: bool) {
      r == if ok then After(z.(matching := audience), full, msgMore) else z.(matching := audience)
    }

    method SendChosen(full: set<Pipe>, atHwm: set<Pipe>, pool: Pool, msg: Handle, msgMore: bool)
        returns (ok: bool, takers: seq<Pipe>, copies: seq<Handle>, ghost failed: nat)
      requires dist.Valid() && moreSend == dist.more && pool.Sound() && Closable(pool.View(), msg)
      modifies this`moreSend, dist, dist.pipes, pool
      ensures dist.Valid() && moreSend == dist.more && pool.Sound()
              && (ok <==> lossy || old(dist.View()).matching !! atHwm)
      ensures !ok ==> moreSend == old(moreSend) && pool.View() == old(pool.View()) && dist.View() == old(dist.View())
      ensures ok ==> moreSend == msgMore && dist.View() == After(old(dist.View()), full, msgMore)
      ensures ok ==> Distinct(takers) && |takers| == |copies| && Elems(takers) == old(dist.View()).matching - full
      ensures ok ==> Ready(old(pool.View()), msg, copies)
                     && pool.View() == Handed(old(pool.View()), msg, copies, failed)
    {
      takers, copies, failed := [], [], 0;
      ok := lossy;
      if !ok {
        ok := dist.CheckHwm(atHwm);
      }
      if ok {
        takers, copies, failed := dist.SendToMatching(full, pool, msg, msgMore);
        if !msgMore {
          dist.Unmatch();
        }
        moreSend := msgMore;
      }
    }

    static ghost function After(z: Zones, full: set<Pipe>, msgMore: bool): Zones {
      var sent := SentToMatching(z, full, msgMore);
      if msgMore then sent else Unmatched(sent)
    }

    /** The user takes the oldest notification. */
    method Receive() returns (r: Option<Blob>)
      requires Valid()
      modifies this`pending, this`read
      ensures Valid() && (r.None? <==> old(read) == |log|)
      ensures r.Some? ==> read == old(read) + 1 && r.value == log[old(read)]
      ensures r.None? ==> read == old(read)
    {
      if pending == [] {
        return None;
      }
      r := Some(pending[0]);
      pending := pending[1..];
      read := read + 1;
    }
  }
}
