/**
 * mechanism_t of src/mechanism.cpp as far as it writes and reads metadata in place.
 */
module Mechanism {
  import opened Common
  import opened Bytes
  import opened Wire
  import opened Metadata

  // "Socket-Type" and "Identity"
  const SOCKET_TYPE: seq<byte> := [83, 111, 99, 107, 101, 116, 45, 84, 121, 112, 101]
  const IDENTITY: seq<byte> := [73, 100, 101, 110, 116, 105, 116, 121]

  /** A C string ends at the first zero byte. */
  function CString(s: seq<byte>): (r: seq<byte>)
    ensures r <= s && 0 !in r && (r == s || s[|r|] == 0)
  {
    if s == [] || s[0] == 0 then [] else [s[0]] + CString(s[1..])
  }

  /** What a socket tells about itself; only some socket types have an identity. */
  datatype Options = Options(socketType: seq<byte>, hasIdentity: bool, routingId: seq<byte>,
                             appMetadata: seq<(seq<byte>, seq<byte>)>)

  function AppProperty(o: Options, i: nat): Property
    requires i < |o.appMetadata|
  {
    Property(CString(o.appMetadata[i].0), CString(o.appMetadata[i].1))
  }

  /** The properties up to the i-th of the application's own. */
  ghost function Upto(o: Options, i: nat): seq<Property>
    requires i <= |o.appMetadata|
  {
    if i == 0 then
      [Property(SOCKET_TYPE, o.socketType)] + if o.hasIdentity then [Property(IDENTITY, o.routingId)] else []
    else Upto(o, i - 1) + [AppProperty(o, i - 1)]
  }

  ghost function BasicProperties(o: Options): seq<Property> {
    Upto(o, |o.appMetadata|)
  }

  /** The two names are what the protocol calls them. */
  lemma NamesSpelled()
    ensures |SOCKET_TYPE| == |"Socket-Type"| && |IDENTITY| == |"Identity"|
    ensures forall i :: 0 <= i < |SOCKET_TYPE| ==> SOCKET_TYPE[i] == "Socket-Type"[i] as int
    ensures forall i :: 0 <= i < |IDENTITY| ==> IDENTITY[i] == "Identity"[i] as int
  {
  }

  /** First the socket type, then the identity if there is one, then what the application added, in its order. */
  lemma {:induction false} PropertiesAre(o: Options, i: nat)
    requires i <= |o.appMetadata|
    ensures var ps, own := Upto(o, i), 1 + Bit(o.hasIdentity);
            && |ps| == own + i && ps[0] == Property(SOCKET_TYPE, o.socketType)
            && (o.hasIdentity ==> ps[1] == Property(IDENTITY, o.routingId))
            && forall k {:trigger o.appMetadata[k]} :: 0 <= k < i ==>
                 ps[own + k].name == CString(o.appMetadata[k].0) && ps[own + k].value == CString(o.appMetadata[k].1)
  {
    if i > 0 { PropertiesAre(o, i - 1); }
  }

  ghost predicate AllWritable(ps: seq<Property>) {
    forall i :: 0 <= i < |ps| ==> Writable(ps[i])
  }

  lemma {:induction false} WrittenMore(ps: seq<Property>, p: Property)
    requires AllExpressible(ps) && Expressible(p)
    ensures AllExpressible(ps + [p]) && WrittenAll(ps + [p]) == WrittenAll(ps) + Written(p)
  {
    var q := ps + [p];
    if ps == [] {
      assert q == [p];
      WrittenFirst(q, Written(p), []);
    } else {
      WrittenMore(ps[1..], p);
      assert q[1..] == ps[1..] + [p];
      WrittenFirst(q, Written(ps[0]), WrittenAll(ps[1..] + [p]));
      Associate(Written(ps[0]), WrittenAll(ps[1..]), Written(p));
    }
  }

  lemma WrittenFirst(q: seq<Property>, w: seq<byte>, rest: seq<byte>)
    requires AllExpressible(q) && q != [] && w == Written(q[0]) && rest == WrittenAll(q[1..])
    ensures WrittenAll(q) == w + rest
  {
  }

  lemma Associate(a: seq<byte>, b: seq<byte>, c: seq<byte>)
    ensures a + (b + c) == (a + b) + c
  {
  }

  // ----- Writing ------------------------------------------------------------------------------------------

  method AddProperty(buf: array<byte>, ghost lo: nat, at: nat, p: Property) returns (n: nat)
    requires lo <= at && Writable(p) && at + PropertyLen(|p.name|, |p.value|) <= buf.Length
    modifies buf
    ensures n == PropertyLen(|p.name|, |p.value|) && Span(buf, lo, at + n) == old(Span(buf, lo, at)) + Written(p)
  {
    ghost var was := Span(buf, lo, at);
    Put(buf, lo, at, [|p.name|]);
    Put(buf, lo, at + 1, p.name);
    Put(buf, lo, at + 1 + |p.name|, PutUint(|p.value|, VALUE_LEN_SIZE));
    Put(buf, lo, at + 5 + |p.name|, p.value);
    n := PropertyLen(|p.name|, |p.value|);
    Regroup4(was, [|p.name|], p.name, PutUint(|p.value|, VALUE_LEN_SIZE), p.value);
  }

  lemma Regroup4(w: seq<byte>, a: seq<byte>, b: seq<byte>, c: seq<byte>, d: seq<byte>)
    ensures w + a + b + c + d == w + (a + b + c + d)
  {
  }

  lemma WrittenBehind(was: seq<byte>, ps: seq<Property>, p: Property, s: seq<byte>)
    requires AllExpressible(ps) && Writable(p) && s == was + WrittenAll(ps)
    ensures AllExpressible(ps + [p]) && s + Written(p) == was + WrittenAll(ps + [p])
  {
    WrittenMore(ps, p);
    Associate(was, WrittenAll(ps), Written(p));
  }

  /** One more property of the list is written behind the others. */
  method AddNext(buf: array<byte>, at: nat, n: nat, p: Property, ghost was: seq<byte>, ghost ps: seq<Property>)
      returns (now: nat)
    requires AllExpressible(ps) && Writable(p) && at + n + PropertyLen(|p.name|, |p.value|) <= buf.Length
    requires Span(buf, 0, at + n) == was + WrittenAll(ps)
    modifies buf
    ensures now == n + PropertyLen(|p.name|, |p.value|)
    ensures AllExpressible(ps + [p]) && Span(buf, 0, at + now) == was + WrittenAll(ps + [p])
  {
    WrittenBehind(was, ps, p, Span(buf, 0, at + n));
    var k := AddProperty(buf, 0, at + n, p);
    now := n + k;
  }

  ghost function TotalLen(ps: seq<Property>): nat {
    if ps == [] then 0 else TotalLen(ps[..|ps| - 1]) + PropertyLen(|ps[|ps| - 1].name|, |ps[|ps| - 1].value|)
  }

  lemma TotalLenMore(ps: seq<Property>, p: Property)
    ensures TotalLen(ps + [p]) == TotalLen(ps) + PropertyLen(|p.name|, |p.value|)
  {
    assert (ps + [p])[..|ps|] == ps;
  }

  lemma {:induction false} UptoFits(o: Options, i: nat)
    requires i <= |o.appMetadata|
    ensures TotalLen(Upto(o, i)) <= TotalLen(BasicProperties(o)) && Upto(o, i) <= BasicProperties(o)
    decreases |o.appMetadata| - i
  {
    if i < |o.appMetadata| {
      UptoFits(o, i + 1);
      var head, next, all := Upto(o, i), [AppProperty(o, i)], BasicProperties(o);
      TotalLenMore(head, AppProperty(o, i));
      Prefixes(head, next, all);
    }
  }

  lemma Prefixes(a: seq<Property>, b: seq<Property>, c: seq<Property>)
    requires a + b <= c
    ensures a <= c
  {
    assert c[..|a + b|] == a + b && c[..|a|] == (a + b)[..|a|];
  }

  /** The i-th property of the application can be written, and there is room for it. */
  lemma NextFits(o: Options, i: nat)
    requires i < |o.appMetadata| && AllWritable(BasicProperties(o))
    ensures var p := AppProperty(o, i);
            && Writable(p) && Upto(o, i + 1) == Upto(o, i) + [p]
            && TotalLen(Upto(o, i)) + PropertyLen(|p.name|, |p.value|)
               == TotalLen(Upto(o, i + 1)) <= TotalLen(BasicProperties(o))
  {
    UptoFits(o, i + 1);
    TotalLenMore(Upto(o, i), AppProperty(o, i));
    assert BasicProperties(o)[|Upto(o, i)|] == AppProperty(o, i);
  }

  lemma OwnProperties(o: Options)
    ensures var first, second := Property(SOCKET_TYPE, o.socketType), Property(IDENTITY, o.routingId);
            && Upto(o, 0) == (if o.hasIdentity then [] + [first] + [second] else [] + [first])
            && TotalLen(Upto(o, 0)) == PropertyLen(|SOCKET_TYPE|, |o.socketType|)
                                       + (if o.hasIdentity then PropertyLen(|IDENTITY|, |o.routingId|) else 0)
  {
    var first, second := Property(SOCKET_TYPE, o.socketType), Property(IDENTITY, o.routingId);
    TotalLenMore([], first);
    TotalLenMore([] + [first], second);
  }

  lemma OwnFits(o: Options)
    requires AllWritable(BasicProperties(o))
    ensures Writable(Property(SOCKET_TYPE, o.socketType))
            && (o.hasIdentity ==> Writable(Property(IDENTITY, o.routingId)))
    ensures TotalLen(Upto(o, 0)) <= TotalLen(BasicProperties(o))
  {
    UptoFits(o, 0);
    OwnProperties(o);
    assert forall i :: 0 <= i < |Upto(o, 0)| ==> Upto(o, 0)[i] == BasicProperties(o)[i];
    assert BasicProperties(o)[0] == Property(SOCKET_TYPE, o.socketType);
    assert o.hasIdentity ==> BasicProperties(o)[1] == Property(IDENTITY, o.routingId);
  }

  /** The first properties: the socket type and, for some sockets, the identity. */
  method AddOwnProperties(buf: array<byte>, at: nat, o: Options) returns (n: nat)
    requires Fits(buf, at, o)
    modifies buf
    ensures Added(buf, at, n, old(Span(buf, 0, at)), Upto(o, 0))
  {
    OwnFits(o);
    OwnProperties(o);
    n := AddTwo(buf, at, Property(SOCKET_TYPE, o.socketType), Property(IDENTITY, o.routingId), o.hasIdentity);
  }

  method AddTwo(buf: array<byte>, at: nat, first: Property, second: Property, both: bool) returns (n: nat)
    requires Writable(first) && (both ==> Writable(second))
    requires at + PropertyLen(|first.name|, |first.value|)
             + (if both then PropertyLen(|second.name|, |second.value|) else 0) <= buf.Length
    modifies buf
    ensures n == PropertyLen(|first.name|, |first.value|)
                 + if both then PropertyLen(|second.name|, |second.value|) else 0
    ensures var ps := if both then [] + [first] + [second] else [] + [first];
            AllExpressible(ps) && Span(buf, 0, at + n) == old(Span(buf, 0, at)) + WrittenAll(ps)
  {
    ghost var was := Span(buf, 0, at);
    assert was + WrittenAll([]) == was;
    n := AddNext(buf, at, 0, first, was, []);
    if both {
      n := AddNext(buf, at, n, second, was, [] + [first]);
    }
  }

  /** The properties ps, and nothing else, were written behind what was there. */
  ghost predicate Added(buf: array<byte>, at: nat, n: nat, was: seq<byte>, ps: seq<Property>)
    reads buf
  {
    AllExpressible(ps) && n == TotalLen(ps) && at + n <= buf.Length && Span(buf, 0, at + n) == was + WrittenAll(ps)
  }

  ghost predicate Fits(buf: array<byte>, at: nat, o: Options) {
    AllWritable(BasicProperties(o)) && at + TotalLen(BasicProperties(o)) <= buf.Length
  }

  method AddApp(buf: array<byte>, at: nat, n: nat, o: Options, i: nat, ghost was: seq<byte>) returns (now: nat)
    requires Fits(buf, at, o) && i < |o.appMetadata| && Added(buf, at, n, was, Upto(o, i))
    modifies buf
    ensures Added(buf, at, now, was, Upto(o, i + 1))
  {
    NextFits(o, i);
    now := AddNext(buf, at, n, AppProperty(o, i), was, Upto(o, i));
  }

  /** Writes exactly the basic properties, and exactly as many bytes as basic_properties_len announces. */
  method AddBasicProperties(buf: array<byte>, at: nat, o: Options) returns (n: nat)
    requires Fits(buf, at, o)
    modifies buf
    ensures Added(buf, at, n, old(Span(buf, 0, at)), BasicProperties(o))
  {
    ghost var was := Span(buf, 0, at);
    n := AddOwnProperties(buf, at, o);
    var i := 0;
    while i < |o.appMetadata|
      invariant i <= |o.appMetadata| && Added(buf, at, n, was, Upto(o, i))
    {
      n := AddApp(buf, at, n, o, i, was);
      i := i + 1;
    }
  }

  ghost function AppLen(o: Options, i: nat): nat
    requires i <= |o.appMetadata|
  {
    if i == 0 then 0
    else AppLen(o, i - 1) + PropertyLen(|CString(o.appMetadata[i - 1].0)|, |CString(o.appMetadata[i - 1].1)|)
  }

  lemma {:induction false} UptoLen(o: Options, i: nat)
    requires i <= |o.appMetadata|
    ensures TotalLen(Upto(o, i)) == TotalLen(Upto(o, 0)) + AppLen(o, i)
  {
    if i > 0 {
      UptoLen(o, i - 1);
      TotalLenMore(Upto(o, i - 1), AppProperty(o, i - 1));
    }
  }

  method BasicPropertiesLen(o: Options) returns (n: nat)
    ensures n == TotalLen(BasicProperties(o))
  {
    var metaLen, i := 0, 0;
    while i < |o.appMetadata|
      invariant i <= |o.appMetadata| && metaLen == AppLen(o, i)
    {
      metaLen := metaLen + PropertyLen(|CString(o.appMetadata[i].0)|, |CString(o.appMetadata[i].1)|);
      i := i + 1;
    }
    OwnProperties(o);
    UptoLen(o, i);
    n := PropertyLen(|SOCKET_TYPE|, |o.socketType|) + metaLen
         + if o.hasIdentity then PropertyLen(|IDENTITY|, |o.routingId|) else 0;
  }

  /** A command is a prefix and the basic properties, with no byte to spare. */
  method MakeCommand(prefix: seq<byte>, o: Options) returns (msg: array<byte>)
    requires AllWritable(BasicProperties(o))
    ensures AllExpressible(BasicProperties(o)) && msg[..] == prefix + WrittenAll(BasicProperties(o))
  {
    var len := BasicPropertiesLen(o);
    msg := new byte[|prefix| + len];
    Put(msg, 0, 0, prefix);
    assert [] + prefix == prefix;
    var n := AddBasicProperties(msg, |prefix|, o);
    SpanIs(msg, 0, |prefix| + n);
    assert msg[..] == msg[0..|prefix| + n];
  }

  // ----- Reading ------------------------------------------------------------------------------------------

  /** What is known of the peer. */
  datatype Peer = Peer(routingId: Option<seq<byte>>, zap: map<seq<byte>, seq<byte>>, zmtp: map<seq<byte>, seq<byte>>)

  /** The checks: whether identities are recorded, which socket types fit, which other properties are accepted. */
  datatype Checks = Checks(recvRoutingId: bool, typeFits: seq<byte> -> bool, accepts: (seq<byte>, seq<byte>) -> bool)

  predicate Passes(c: Checks, p: Property) {
    if p.name == IDENTITY && c.recvRoutingId then true
    else if p.name == SOCKET_TYPE then c.typeFits(p.value)
    else c.accepts(p.name, p.value)
  }

  /** The first value of a name stays. */
  function Inserted(m: map<seq<byte>, seq<byte>>, p: Property): map<seq<byte>, seq<byte>> {
    if p.name in m then m else m[p.name := p.value]
  }

  function Noted(c: Checks, peer: Peer, p: Property, zapFlag: bool): Peer {
    var q := if p.name == IDENTITY && c.recvRoutingId then peer.(routingId := Some(p.value)) else peer;
    if zapFlag then q.(zap := Inserted(q.zap, p)) else q.(zmtp := Inserted(q.zmtp, p))
  }

  /** Properties are noted in order, up to the first that does not pass. */
  function NotedAll(c: Checks, peer: Peer, ps: seq<Property>, zapFlag: bool): (Peer, bool)
    decreases |ps|
  {
    if ps == [] then (peer, true)
    else if !Passes(c, ps[0]) then (peer, false)
    else NotedAll(c, Noted(c, peer, ps[0], zapFlag), ps[1..], zapFlag)
  }

  /** The properties of one kind. */
  function Known(peer: Peer, zapFlag: bool): map<seq<byte>, seq<byte>> {
    if zapFlag then peer.zap else peer.zmtp
  }

  /** The first property of that name. */
  ghost function FirstOf(ps: seq<Property>, name: seq<byte>): Option<seq<byte>> {
    if ps == [] then None
    else if ps[0].name == name then Some(ps[0].value)
    else FirstOf(ps[1..], name)
  }

  /** The last property of that name. */
  ghost function LastOf(ps: seq<Property>, name: seq<byte>): Option<seq<byte>> {
    if ps == [] then None
    else if LastOf(ps[1..], name).Some? then LastOf(ps[1..], name)
    else if ps[0].name == name then Some(ps[0].value)
    else None
  }

  /**
   * A socket type that does not fit, or a property that the mechanism does not accept, unless it is an
   * identity that is recorded.
   */
  ghost predicate Refused(c: Checks, p: Property) {
    || (p.name == SOCKET_TYPE && !c.typeFits(p.value))
    || (p.name != SOCKET_TYPE && !(p.name == IDENTITY && c.recvRoutingId) && !c.accepts(p.name, p.value))
  }

  /** The first k properties are fine, and either that is all of them or the next one is refused. */
  ghost predicate StopsAt(c: Checks, ps: seq<Property>, k: nat) {
    && k <= |ps| && (forall i :: 0 <= i < k ==> !Refused(c, ps[i]))
    && (k < |ps| ==> Refused(c, ps[k]))
  }

  /** Every name keeps the value it had, or else gets the first one that came. */
  ghost predicate Gained(m: map<seq<byte>, seq<byte>>, n: map<seq<byte>, seq<byte>>, ps: seq<Property>) {
    forall name {:trigger FirstOf(ps, name)} ::
      && (name in n <==> name in m || FirstOf(ps, name).Some?)
      && (name in m && name in n ==> n[name] == m[name])
      && (name !in m && name in n && FirstOf(ps, name).Some? ==> n[name] == FirstOf(ps, name).value)
  }

  /**
   * What is known of the peer once these properties were taken: its routing id is the last identity,
   * if identities are recorded, and the properties of the one kind are those known before and the new ones.
   */
  ghost predicate Learned(c: Checks, before: Peer, after: Peer, ps: seq<Property>, zapFlag: bool) {
    && after.routingId == (if c.recvRoutingId && LastOf(ps, IDENTITY).Some? then LastOf(ps, IDENTITY)
                           else before.routingId)
    && (if zapFlag then after.zmtp == before.zmtp else after.zap == before.zap)
    && (if zapFlag then Gained(before.zap, after.zap, ps) else Gained(before.zmtp, after.zmtp, ps))
  }

  lemma {:induction false} NotedIsLearned(c: Checks, peer: Peer, ps: seq<Property>, zapFlag: bool, k: nat)
    requires StopsAt(c, ps, k)
    ensures Learned(c, peer, NotedAll(c, peer, ps, zapFlag).0, ps[..k], zapFlag)
    ensures NotedAll(c, peer, ps, zapFlag).1 <==> k == |ps|
    decreases |ps|
  {
    if k > 0 {
      assert ps[..k][1..] == ps[1..][..k - 1];
      NotedIsLearned(c, Noted(c, peer, ps[0], zapFlag), ps[1..], zapFlag, k - 1);
      LearnedMore(c, peer, ps[..k], zapFlag, NotedAll(c, peer, ps, zapFlag).0);
    }
  }

  lemma LearnedMore(c: Checks, peer: Peer, ps: seq<Property>, zapFlag: bool, after: Peer)
    requires ps != [] && Learned(c, Noted(c, peer, ps[0], zapFlag), after, ps[1..], zapFlag)
    ensures Learned(c, peer, after, ps, zapFlag)
  {
    if zapFlag { GainedMore(peer.zap, after.zap, ps); } else { GainedMore(peer.zmtp, after.zmtp, ps); }
  }

  lemma GainedMore(m: map<seq<byte>, seq<byte>>, n: map<seq<byte>, seq<byte>>, ps: seq<Property>)
    requires ps != [] && Gained(Inserted(m, ps[0]), n, ps[1..])
    ensures Gained(m, n, ps)
  {
    forall name
      ensures name in n <==> name in m || FirstOf(ps, name).Some?
      ensures name in m && name in n ==> n[name] == m[name]
      ensures name !in m && name in n && FirstOf(ps, name).Some? ==> n[name] == FirstOf(ps, name).value
    {
      var later := FirstOf(ps[1..], name);
    }
  }

  lemma {:induction false} SomewhereStops(c: Checks, ps: seq<Property>) returns (k: nat)
    ensures StopsAt(c, ps, k)
  {
    if ps == [] || Refused(c, ps[0]) {
      k := 0;
    } else {
      var j := SomewhereStops(c, ps[1..]);
      k := j + 1;
      assert forall i :: 0 < i < |ps| ==> ps[i] == ps[1..][i - 1];
    }
  }

  lemma {:induction false} LastIs(ps: seq<Property>, k: nat)
    requires k < |ps| && forall i :: k < i < |ps| ==> ps[i].name != ps[k].name
    ensures LastOf(ps, ps[k].name) == Some(ps[k].value)
  {
    if k == 0 { NoneLater(ps[1..], ps[k].name); } else { LastIs(ps[1..], k - 1); }
  }

  lemma {:induction false} NoneLater(ps: seq<Property>, name: seq<byte>)
    requires forall i :: 0 <= i < |ps| ==> ps[i].name != name
    ensures LastOf(ps, name).None? && FirstOf(ps, name).None?
  {
    if ps != [] { NoneLater(ps[1..], name); }
  }

  lemma {:induction false} FirstIs(ps: seq<Property>, k: nat)
    requires k < |ps| && forall i :: 0 <= i < k ==> ps[i].name != ps[k].name
    ensures FirstOf(ps, ps[k].name) == Some(ps[k].value)
  {
    if k > 0 { FirstIs(ps[1..], k - 1); }
  }

  /**
   * What a peer wrote of itself is read back and noted: its routing id, if identities are recorded
   * and the application did not add one of its own, and under every name the first value that it wrote.
   */
  lemma MetadataArrives(c: Checks, peer: Peer, o: Options, zapFlag: bool)
    requires AllWritable(BasicProperties(o))
    requires forall i :: 0 <= i < |BasicProperties(o)| ==> !Refused(c, BasicProperties(o)[i])
    ensures AllExpressible(BasicProperties(o))
    ensures Parse(WrittenAll(BasicProperties(o))) == Parsed(BasicProperties(o), true)
    ensures NotedAll(c, peer, BasicProperties(o), zapFlag).1
    ensures var after := NotedAll(c, peer, BasicProperties(o), zapFlag).0;
            && (c.recvRoutingId && o.hasIdentity && !Adds(o, IDENTITY) ==> after.routingId == Some(o.routingId))
            && (!c.recvRoutingId || (!o.hasIdentity && !Adds(o, IDENTITY)) ==> after.routingId == peer.routingId)
            && (if zapFlag then after.zmtp == peer.zmtp else after.zap == peer.zap)
    ensures var before, after := Known(peer, zapFlag), Known(NotedAll(c, peer, BasicProperties(o), zapFlag).0, zapFlag);
            && (SOCKET_TYPE !in before ==> SOCKET_TYPE in after && after[SOCKET_TYPE] == o.socketType)
            && (o.hasIdentity && IDENTITY !in before ==> IDENTITY in after && after[IDENTITY] == o.routingId)
            && forall k {:trigger o.appMetadata[k]} :: 0 <= k < |o.appMetadata| && FirstUse(o, k) ==>
                 var name := CString(o.appMetadata[k].0);
                 name !in before ==> name in after && after[name] == CString(o.appMetadata[k].1)
  {
    var ps := BasicProperties(o);
    PropertiesAre(o, |o.appMetadata|);
    Metadata.RoundTrip(ps);
    NotedIsLearned(c, peer, ps, zapFlag, |ps|);
    assert ps[..|ps|] == ps;
    FirstIs(ps, 0);
    IdentityArrives(o);
    forall k | 0 <= k < |o.appMetadata| && FirstUse(o, k)
      ensures FirstOf(ps, CString(o.appMetadata[k].0)) == Some(CString(o.appMetadata[k].1))
    {
      AppArrives(o, k);
    }
  }

  /** The application added a property of that name. */
  ghost predicate Adds(o: Options, name: seq<byte>) {
    exists k :: 0 <= k < |o.appMetadata| && CString(o.appMetadata[k].0) == name
  }

  /** The k-th name of the application is not one that was written before. */
  ghost predicate FirstUse(o: Options, k: nat)
    requires k < |o.appMetadata|
  {
    var name := CString(o.appMetadata[k].0);
    && name != SOCKET_TYPE && (o.hasIdentity ==> name != IDENTITY)
    && forall i :: 0 <= i < k ==> CString(o.appMetadata[i].0) != name
  }

  lemma IdentityArrives(o: Options)
    ensures o.hasIdentity ==> FirstOf(BasicProperties(o), IDENTITY) == Some(o.routingId)
    ensures o.hasIdentity && !Adds(o, IDENTITY) ==> LastOf(BasicProperties(o), IDENTITY) == Some(o.routingId)
    ensures !o.hasIdentity && !Adds(o, IDENTITY) ==> LastOf(BasicProperties(o), IDENTITY).None?
  {
    var ps, own := BasicProperties(o), 1 + Bit(o.hasIdentity);
    PropertiesAre(o, |o.appMetadata|);
    if o.hasIdentity { FirstIs(ps, 1); }
    if !Adds(o, IDENTITY) {
      forall i | own <= i < |ps| ensures ps[i].name != IDENTITY {
        assert ps[i].name == CString(o.appMetadata[i - own].0);
      }
      if o.hasIdentity { LastIs(ps, 1); } else { NoneLater(ps, IDENTITY); }
    }
  }

  lemma AppArrives(o: Options, k: nat)
    requires k < |o.appMetadata| && FirstUse(o, k)
    ensures FirstOf(BasicProperties(o), CString(o.appMetadata[k].0)) == Some(CString(o.appMetadata[k].1))
  {
    var ps, own := BasicProperties(o), 1 + Bit(o.hasIdentity);
    PropertiesAre(o, |o.appMetadata|);
    var name := CString(o.appMetadata[k].0);
    forall i | 0 <= i < own + k ensures ps[i].name != name {
      if i >= own { assert ps[i].name == CString(o.appMetadata[i - own].0); }
    }
    FirstIs(ps, own + k);
  }

  /** Reads one property; if a length check ends it, the rest is what that check left. */
  method ReadProperty(ptr: seq<byte>) returns (p: Option<Property>, rest: seq<byte>)
    requires |ptr| > 1
    ensures p == Front(ptr)
    ensures p.Some? ==> rest == ptr[PropertyLen(|p.value.name|, |p.value.value|)..]
    ensures p.None? ==> (rest == [] <==> Tolerated(ptr))
  {
    var nameLength: nat := ptr[0];
    if |ptr| - 1 < nameLength {
      return None, ptr[1..];
    }
    var name := ptr[1..1 + nameLength];
    if |ptr| - 1 - nameLength < VALUE_LEN_SIZE {
      return None, ptr[1 + nameLength..];
    }
    var valueLength := GetUint(ptr[1 + nameLength..5 + nameLength]);
    if |ptr| - 5 - nameLength < valueLength {
      assert ptr[|ptr| - 4..] == ptr[|ptr| - 4..|ptr|];
      return None, ptr[5 + nameLength..];
    }
    return Some(Property(name, ptr[5 + nameLength..5 + nameLength + valueLength])), ptr[5 + nameLength + valueLength..];
  }

  class Mechanism {
    const checks: Checks
    var peer: Peer

    /**
     * Reads metadata; fails at the first property that is refused, or if a rest is left that is not
     * tolerated.  What came before is kept: the last identity as routing id, and the first value of a name.
     */
    method ParseMetadata(data: seq<byte>, zapFlag: bool) returns (rc: int)
      modifies this`peer
      ensures rc == 0 || rc == -1
      ensures rc == 0 <==> Parse(data).ok && forall p :: p in Parse(data).props ==> !Refused(checks, p)
      ensures exists k: nat :: StopsAt(checks, Parse(data).props, k)
                               && Learned(checks, old(peer), peer, Parse(data).props[..k], zapFlag)
    {
      ghost var ps := Parse(data).props;
      ghost var k := SomewhereStops(checks, ps);
      NotedIsLearned(checks, peer, ps, zapFlag, k);
      rc := Pass(data, zapFlag);
    }

    method Pass(data: seq<byte>, zapFlag: bool) returns (rc: int)
      modifies this`peer
      ensures peer == NotedAll(checks, old(peer), Parse(data).props, zapFlag).0
      ensures rc == if NotedAll(checks, old(peer), Parse(data).props, zapFlag).1 && Parse(data).ok then 0 else -1
    {
      var ptr := data;
      ghost var all := NotedAll(checks, peer, Parse(data).props, zapFlag);
      while |ptr| > 1
        invariant NotedAll(checks, peer, Parse(ptr).props, zapFlag) == all && Parse(ptr).ok == Parse(data).ok
        decreases |ptr|
      {
        var p, rest := ReadProperty(ptr);
        ghost var s := ptr;
        ptr := rest;
        if p.None? {
          break;
        }
        assert Parse(s).props == [p.value] + Parse(ptr).props;
        if !Passes(checks, p.value) {
          return -1;
        }
        peer := Noted(checks, peer, p.value, zapFlag);
      }
      rc := if |ptr| > 0 then -1 else 0;
    }
  }
}
