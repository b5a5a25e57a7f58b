/**
 * Subscriptions on their way from a subscriber to a publisher: the encoder of src/v2_encoder.cpp puts
 * a byte in front of the topic, the decoder of src/v2_decoder.cpp gives the bytes on, and src/xpub.cpp
 * reads them.
 */
module SubscriptionWire {
  import opened Common
  import opened MTrieNode
  import opened MTrieHeap
  import MTrie
  import Wire
  import PubSub

  /** A subscription or a cancellation of a topic. */
  predicate Asks(x: Wire.OutMsg) {
    x.kind.Subscribe? || x.kind.Cancel?
  }

  /** What a publisher decodes from the frame of a request is the notification of that request. */
  lemma RequestArrives(m: Wire.Machine, max: int, x: Wire.OutMsg)
    requires Wire.Idle(m) && Wire.Survives(x, max) && Asks(x)
    ensures var o := Wire.Feed(m, max, Wire.Frame(x));
            && !o.failed && o.msgs == [Wire.InMsg(x.more, x.command, PubSub.Notice(x.kind.Subscribe?, x.body))]
            && PubSub.Request(o.msgs[0].body) == Some((x.kind.Subscribe?, x.body))
  {
    Wire.FrameFeeds(m, max, x);
    PubSub.NoticeIsRequest(PubSub.Notice(x.kind.Subscribe?, x.body), x.kind.Subscribe?, x.body);
  }

  /** Whoever reads it as a notification counts the topic in, or out. */
  lemma RequestIsTold(log: seq<PubSub.Blob>, x: Wire.OutMsg)
    requires Asks(x)
    ensures PubSub.Told(log + [Wire.Meaning(x).body])
            == if x.kind.Subscribe? then PubSub.Told(log) + {x.body} else PubSub.Told(log) - {x.body}
  {
    PubSub.ToldMore(log, x.kind.Subscribe?, x.body);
    assert Wire.Meaning(x).body == PubSub.Notice(x.kind.Subscribe?, x.body);
  }

  // ----- A whole stream of requests ---------------------------------------------------------------------

  /** The messages of subscriber v are taken one after the other. */
  ghost function TakenAll(f: PubSub.Feed, o: PubSub.Policy, v: Value, msgs: seq<Wire.InMsg>): PubSub.Feed {
    if msgs == [] then f
    else PubSub.Taken(TakenAll(f, o, v, msgs[..|msgs| - 1]), o, v, msgs[|msgs| - 1].body)
  }

  /** The last request about a topic decides; without one it is as before. */
  ghost function Wanted(ms: seq<Wire.OutMsg>, topic: Path, before: bool): bool {
    if ms == [] then before
    else
      var x := ms[|ms| - 1];
      if Asks(x) && x.body == topic then x.kind.Subscribe? else Wanted(ms[..|ms| - 1], topic, before)
  }

  lemma {:induction false} MeaningsMore(ms: seq<Wire.OutMsg>, x: Wire.OutMsg)
    ensures Wire.Meanings(ms + [x]) == Wire.Meanings(ms) + [Wire.Meaning(x)]
  {
    if ms == [] {
      assert [x][1..] == [] && ms + [x] == [x];
    } else {
      assert (ms + [x])[1..] == ms[1..] + [x];
      MeaningsMore(ms[1..], x);
    }
  }

  /** One request changes this subscription and no other. */
  lemma RequestTaken(f: PubSub.Feed, o: PubSub.Policy, v: Value, x: Wire.OutMsg, u: Value, topic: Path)
    requires Asks(x)
    ensures u in MTrie.SubscribersOf(PubSub.Taken(f, o, v, Wire.Meaning(x).body).subs, topic) <==>
            if u == v && topic == x.body then x.kind.Subscribe? else u in MTrie.SubscribersOf(f.subs, topic)
  {
    PubSub.NoticeIsRequest(Wire.Meaning(x).body, x.kind.Subscribe?, x.body);
  }

  lemma {:induction false} RequestsTaken(f: PubSub.Feed, o: PubSub.Policy, v: Value, ms: seq<Wire.OutMsg>,
                                         u: Value, topic: Path)
    requires forall x :: x in ms ==> Asks(x)
    ensures u in MTrie.SubscribersOf(TakenAll(f, o, v, Wire.Meanings(ms)).subs, topic) <==>
            if u == v then Wanted(ms, topic, u in MTrie.SubscribersOf(f.subs, topic))
            else u in MTrie.SubscribersOf(f.subs, topic)
    decreases |ms|
  {
    if ms != [] {
      var before, x := ms[..|ms| - 1], ms[|ms| - 1];
      assert ms == before + [x];
      MeaningsMore(before, x);
      RequestsTaken(f, o, v, before, u, topic);
      var now := Wire.Meanings(before) + [Wire.Meaning(x)];
      assert now[..|now| - 1] == Wire.Meanings(before);
      RequestTaken(TakenAll(f, o, v, Wire.Meanings(before)), o, v, x, u, topic);
    }
  }

  /**
   * End to end: whatever requests a subscriber encodes, if the publisher decodes the bytes and takes the
   * messages for pipe v, then v is subscribed to exactly the topics for which its last request says so,
   * and nobody else's subscriptions changed.
   */
  lemma SubscriptionsArrive(max: int, ms: seq<Wire.OutMsg>, f: PubSub.Feed, o: PubSub.Policy, v: Value,
                            u: Value, topic: Path)
    requires Wire.Encodable(ms) && forall x :: x in ms ==> Asks(x) && Wire.Survives(x, max)
    ensures var came := Wire.Feed(Wire.START, max, Wire.Frames(ms));
            && !came.failed
            && (u in MTrie.SubscribersOf(TakenAll(f, o, v, came.msgs).subs, topic) <==>
                if u == v then Wanted(ms, topic, u in MTrie.SubscribersOf(f.subs, topic))
                else u in MTrie.SubscribersOf(f.subs, topic))
  {
    Wire.FramesFeed(Wire.START, max, ms);
    RequestsTaken(f, o, v, ms, u, topic);
  }
}
