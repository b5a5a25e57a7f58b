/**
 * The meeting of binding and connecting inproc sockets in ctx_t (src/ctx.cpp), each of
 * whose operations holds one lock.  Connections that come before the bind wait in a list;
 * sequence numbers keep both sockets alive for as long as a command to them is due.
 */
module Inproc {
  import opened Common

  type Addr = string
  type Sock = nat
  type Conn = nat

  /** How far an attempt to connect has come. */
  datatype Phase =
    | Searching(addr: Addr, from: Sock)            // found nobody bound, about to be put on the list
    | Waiting(addr: Addr, from: Sock)              // on the list
    | Reserved(from: Sock, binder: Sock)           // found a bound socket, about to send it the pipe
    | BindSent(from: Sock, binder: Sock)           // the pipe is on its way to the bound socket
    | ConnectedSent(from: Sock, binder: Sock)      // the bound socket has it, the news is on its way
    | Done(from: Sock, binder: Sock)

  /** The socket whose sequence number was raised for what is still to come, if any. */
  function Due(p: Phase): Option<Sock> {
    match p
    case Searching(_, _) => None
    case Waiting(_, from) => Some(from)
    case Reserved(_, binder) => Some(binder)
    case BindSent(_, binder) => Some(binder)
    case ConnectedSent(from, _) => Some(from)
    case Done(_, _) => None
  }

  /** The sockets were connected: at most once, and never undone. */
  predicate Connected(p: Phase) {
    p.BindSent? || p.ConnectedSent? || p.Done?
  }

  datatype Entry = Entry(addr: Addr, from: Sock, conn: Conn)

  // ----- Sequence numbers ---------------------------------------------------------------------------------

  ghost function Holding(phases: map<Conn, Phase>, s: Sock): set<Conn> {
    set c | c in phases && Due(phases[c]) == Some(s)
  }

  function At(m: map<Sock, nat>, s: Sock): nat {
    if s in m then m[s] else 0
  }

  function Raised(m: map<Sock, nat>, s: Sock): map<Sock, nat> {
    m[s := At(m, s) + 1]
  }

  /** Sent minus processed is what is still due to the socket. */
  ghost predicate SeqnumAt(phases: map<Conn, Phase>, sent: map<Sock, nat>, processed: map<Sock, nat>, s: Sock) {
    At(sent, s) == At(processed, s) + |Holding(phases, s)|
  }

  ghost predicate Seqnums(phases: map<Conn, Phase>, sent: map<Sock, nat>, processed: map<Sock, nat>) {
    forall s {:trigger SeqnumAt(phases, sent, processed, s)} :: SeqnumAt(phases, sent, processed, s)
  }

  function Was(phases: map<Conn, Phase>, c: Conn): Option<Sock> {
    if c in phases then Due(phases[c]) else None
  }

  /** One attempt moves on: what was due to one socket may now be due to another. */
  lemma Moves(phases: map<Conn, Phase>, c: Conn, p: Phase, s: Sock)
    ensures |Holding(phases[c := p], s)| + Bit(Was(phases, c) == Some(s))
            == |Holding(phases, s)| + Bit(Due(p) == Some(s))
  {
    var h, k := Holding(phases, s), Holding(phases[c := p], s);
    assert k == if Due(p) == Some(s) then h + {c} else h - {c};
  }

  /** It moves on to where a socket is due something, and its number is raised for that. */
  lemma MovesUp(phases: map<Conn, Phase>, sent: map<Sock, nat>, processed: map<Sock, nat>, c: Conn, p: Phase, to: Sock)
    requires Seqnums(phases, sent, processed) && Was(phases, c) == None && Due(p) == Some(to)
    ensures Seqnums(phases[c := p], Raised(sent, to), processed)
  {
    var now, more := phases[c := p], Raised(sent, to);
    forall s ensures SeqnumAt(now, more, processed, s) {
      assert SeqnumAt(phases, sent, processed, s);
      Moves(phases, c, p, s);
    }
  }

  /** It moves on with the same socket being due something, or with none, before and after. */
  lemma MovesLevel(phases: map<Conn, Phase>, sent: map<Sock, nat>, processed: map<Sock, nat>, c: Conn, p: Phase)
    requires Seqnums(phases, sent, processed) && Was(phases, c) == Due(p)
    ensures Seqnums(phases[c := p], sent, processed)
  {
    var now := phases[c := p];
    forall s ensures SeqnumAt(now, sent, processed, s) {
      assert SeqnumAt(phases, sent, processed, s);
      Moves(phases, c, p, s);
    }
  }

  /** The command arrives and is counted. */
  lemma MovesDown(phases: map<Conn, Phase>, sent: map<Sock, nat>, processed: map<Sock, nat>, c: Conn, p: Phase,
                  to: Sock)
    requires Seqnums(phases, sent, processed) && Was(phases, c) == Some(to) && Due(p) == None
    ensures Seqnums(phases[c := p], sent, Raised(processed, to))
  {
    var now, more := phases[c := p], Raised(processed, to);
    forall s ensures SeqnumAt(now, sent, more, s) {
      assert SeqnumAt(phases, sent, processed, s);
      Moves(phases, c, p, s);
    }
  }

  /** The number of a socket is raised and counted at once. */
  lemma BothRaised(phases: map<Conn, Phase>, sent: map<Sock, nat>, processed: map<Sock, nat>, to: Sock)
    requires Seqnums(phases, sent, processed)
    ensures Seqnums(phases, Raised(sent, to), Raised(processed, to))
  {
    var a, b := Raised(sent, to), Raised(processed, to);
    forall s ensures SeqnumAt(phases, a, b, s) { assert SeqnumAt(phases, sent, processed, s); }
  }

  // ----- The list of those that wait ------------------------------------------------------------------------

  ghost predicate EntryOk(pending: seq<Entry>, phases: map<Conn, Phase>, i: nat)
    requires i < |pending|
  {
    pending[i].conn in phases && phases[pending[i].conn] == Waiting(pending[i].addr, pending[i].from)
  }

  ghost predicate ListedAt(pending: seq<Entry>, phases: map<Conn, Phase>, c: Conn) {
    c in phases && phases[c].Waiting? ==> Entry(phases[c].addr, phases[c].from, c) in pending
  }

  /** Exactly those that wait are on the list, each once. */
  ghost predicate Listed(pending: seq<Entry>, phases: map<Conn, Phase>) {
    && (forall i {:trigger EntryOk(pending, phases, i)} :: 0 <= i < |pending| ==> EntryOk(pending, phases, i))
    && (forall i, j :: 0 <= i < j < |pending| ==> pending[i].conn != pending[j].conn)
    && (forall c {:trigger ListedAt(pending, phases, c)} :: ListedAt(pending, phases, c))
  }

  /** Nobody waits for an address that is bound, unless the binder has not looked at the list yet. */
  ghost predicate Met(pending: seq<Entry>, endpoints: map<Addr, Sock>, looking: map<Addr, Sock>) {
    && (forall a :: a in looking ==> a in endpoints && endpoints[a] == looking[a])
    && (forall i :: 0 <= i < |pending| && pending[i].addr in endpoints ==> pending[i].addr in looking)
  }

  function Without(pending: seq<Entry>, addr: Addr): seq<Entry> {
    if pending == [] then []
    else
      Without(pending[..|pending| - 1], addr)
      + if pending[|pending| - 1].addr == addr then [] else [pending[|pending| - 1]]
  }

  lemma {:induction false} WithoutHas(pending: seq<Entry>, addr: Addr, e: Entry)
    ensures e in Without(pending, addr) <==> e in pending && e.addr != addr
  {
    if pending != [] {
      var init, last := pending[..|pending| - 1], pending[|pending| - 1];
      WithoutHas(init, addr, e);
      assert e in pending <==> e in init || e == last;
    }
  }

  lemma WithoutIs(pending: seq<Entry>, addr: Addr)
    ensures forall e :: e in Without(pending, addr) <==> e in pending && e.addr != addr
  {
    forall e ensures e in Without(pending, addr) <==> e in pending && e.addr != addr { WithoutHas(pending, addr, e); }
  }

  ghost predicate OnceEach(pending: seq<Entry>) {
    forall i, j :: 0 <= i < j < |pending| ==> pending[i].conn != pending[j].conn
  }

  lemma {:induction false} WithoutOnce(pending: seq<Entry>, addr: Addr)
    requires OnceEach(pending)
    ensures OnceEach(Without(pending, addr))
  {
    if pending != [] {
      var init, last := pending[..|pending| - 1], pending[|pending| - 1];
      WithoutOnce(init, addr);
      forall i | 0 <= i < |Without(init, addr)| ensures Without(init, addr)[i].conn != last.conn {
        WithoutHas(init, addr, Without(init, addr)[i]);
      }
    }
  }

  /** Everybody who waits for the address is connected to the socket that bound it. */
  ghost function AllConnected(phases: map<Conn, Phase>, addr: Addr, binder: Sock): map<Conn, Phase> {
    map c | c in phases ::
      if phases[c].Waiting? && phases[c].addr == addr then ConnectedSent(phases[c].from, binder) else phases[c]
  }

  lemma AllConnectedListed(pending: seq<Entry>, phases: map<Conn, Phase>, addr: Addr, binder: Sock)
    requires Listed(pending, phases)
    ensures Listed(Without(pending, addr), AllConnected(phases, addr, binder))
  {
    var rest, now := Without(pending, addr), AllConnected(phases, addr, binder);
    WithoutOnce(pending, addr);
    forall i | 0 <= i < |rest| ensures EntryOk(rest, now, i) {
      WithoutHas(pending, addr, rest[i]);
      var j :| 0 <= j < |pending| && pending[j] == rest[i];
      assert EntryOk(pending, phases, j);
    }
    forall c ensures ListedAt(rest, now, c) {
      assert ListedAt(pending, phases, c);
      if c in phases {
        WithoutHas(pending, addr, Entry(if phases[c].Waiting? then phases[c].addr else addr, phases[c].from, c));
      }
    }
  }

  // ----- Commands on their way --------------------------------------------------------------------------------

  datatype Mail = Bind(to: Sock, conn: Conn) | InprocConnected(to: Sock, conn: Conn)

  ghost predicate MailAt(mail: set<Mail>, phases: map<Conn, Phase>, c: Conn) {
    && (c in phases && phases[c].BindSent? ==> Bind(phases[c].binder, c) in mail)
    && (c in phases && phases[c].ConnectedSent? ==> InprocConnected(phases[c].from, c) in mail)
    && (forall s :: Bind(s, c) in mail ==> c in phases && phases[c].BindSent? && phases[c].binder == s)
    && (forall s :: InprocConnected(s, c) in mail ==> c in phases && phases[c].ConnectedSent? && phases[c].from == s)
  }

  /** A command is on its way exactly if its connection is at that point. */
  ghost predicate Mailed(mail: set<Mail>, phases: map<Conn, Phase>) {
    forall c {:trigger MailAt(mail, phases, c)} :: MailAt(mail, phases, c)
  }

  /** How often an attempt was connected: once if it is connected, or else not at all. */
  ghost predicate MadeAt(made: map<Conn, nat>, phases: map<Conn, Phase>, c: Conn) {
    c in phases ==> c in made && made[c] == Bit(Connected(phases[c]))
  }

  ghost predicate Made(made: map<Conn, nat>, phases: map<Conn, Phase>) {
    forall c {:trigger MadeAt(made, phases, c)} :: MadeAt(made, phases, c)
  }

  /** One attempt moves on; what is on its way and what was made follow. */
  lemma PhaseMoves(mail: set<Mail>, mail1: set<Mail>, made: map<Conn, nat>, made1: map<Conn, nat>,
                   phases: map<Conn, Phase>, c: Conn, p: Phase)
    requires Mailed(mail, phases) && Made(made, phases)
    requires forall m: Mail :: m.conn != c ==> (m in mail1 <==> m in mail)
    requires forall d :: d != c && d in made ==> d in made1 && made1[d] == made[d]
    requires MailAt(mail1, phases[c := p], c) && MadeAt(made1, phases[c := p], c)
    ensures Mailed(mail1, phases[c := p]) && Made(made1, phases[c := p])
  {
    var now := phases[c := p];
    forall d ensures MailAt(mail1, now, d) { assert MailAt(mail, phases, d); }
    forall d ensures MadeAt(made1, now, d) { assert MadeAt(made, phases, d); }
  }

  class Rendezvous {
    var endpoints: map<Addr, Sock>
    var pending: seq<Entry>
    var sent: map<Sock, nat>
    var processed: map<Sock, nat>
    var mail: set<Mail>
    ghost var phases: map<Conn, Phase>
    ghost var made: map<Conn, nat>
    // Binders that have registered and not looked at the list yet.
    ghost var looking: map<Addr, Sock>

    /** All but the list. */
    ghost predicate Sound()
      reads this
    {
      Seqnums(phases, sent, processed) && Mailed(mail, phases) && Made(made, phases)
    }

    ghost predicate Valid()
      reads this
    {
      Sound() && Listed(pending, phases) && Met(pending, endpoints, looking)
    }

    constructor ()
      ensures Valid() && endpoints == map[] && phases == map[]
    {
      endpoints, pending, sent, processed, mail := map[], [], map[], map[], {};
      phases, made, looking := map[], map[], map[];
    }

    method RegisterEndpoint(addr: Addr, s: Sock) returns (ok: bool)
      requires Valid()
      modifies this`endpoints, this`looking
      ensures Valid() && (ok <==> addr !in old(endpoints))
      ensures ok ==> endpoints == old(endpoints)[addr := s] && looking == old(looking)[addr := s]
      ensures !ok ==> endpoints == old(endpoints) && looking == old(looking)
    {
      ok := addr !in endpoints;
      if ok {
        endpoints, looking := endpoints[addr := s], looking[addr := s];
      }
    }

    /** The binder itself unregisters, so it is not in the middle of a bind. */
    method UnregisterEndpoint(addr: Addr, s: Sock) returns (ok: bool)
      requires Valid() && (addr in looking ==> looking[addr] != s)
      modifies this`endpoints
      ensures Valid() && (ok <==> addr in old(endpoints) && old(endpoints)[addr] == s)
      ensures endpoints == if ok then old(endpoints) - {addr} else old(endpoints)
    {
      ok := addr in endpoints && endpoints[addr] == s;
      if ok {
        endpoints := endpoints - {addr};
      }
    }

    method UnregisterEndpoints(s: Sock)
      requires Valid() && forall a :: a in looking ==> looking[a] != s
      modifies this`endpoints
      ensures Valid() && endpoints == map a | a in old(endpoints) && old(endpoints)[a] != s :: old(endpoints)[a]
    {
      var rest := endpoints.Keys;
      while rest != {}
        invariant rest <= old(endpoints).Keys && Valid()
        invariant endpoints == map a | a in old(endpoints) && (a in rest || old(endpoints)[a] != s) :: old(endpoints)[a]
        decreases rest
      {
        var a :| a in rest;
        rest := rest - {a};
        if endpoints[a] == s {
          endpoints := endpoints - {a};
        }
      }
    }

    /** A connecting socket looks for a bound one; if there is one, it is kept alive until it gets the pipe. */
    method FindEndpoint(addr: Addr, from: Sock, ghost c: Conn) returns (peer: Option<Sock>)
      requires Valid() && c !in phases
      modifies this`sent, this`phases, this`made
      ensures Valid() && peer == if addr in endpoints then Some(endpoints[addr]) else None
      ensures phases == old(phases)[c := if peer.Some? then Reserved(from, peer.value) else Searching(addr, from)]
    {
      ghost var p := if addr in endpoints then Reserved(from, endpoints[addr]) else Searching(addr, from);
      MoveOff(c, p);
      assert MailAt(mail, phases, c);
      PhaseMoves(mail, mail, made, made[c := 0], phases, c, p);
      if addr !in endpoints {
        MovesLevel(phases, sent, processed, c, p);
        phases, made := phases[c := p], made[c := 0];
        return None;
      }
      MovesUp(phases, sent, processed, c, p, endpoints[addr]);
      phases, made := phases[c := p], made[c := 0];
      sent := Raised(sent, endpoints[addr]);
      return Some(endpoints[addr]);
    }

    /** What does not wait and does not come to wait leaves the list as it is. */
    lemma MoveOff(c: Conn, p: Phase)
      requires Listed(pending, phases) && !p.Waiting? && (c in phases ==> !phases[c].Waiting?)
      ensures Listed(pending, phases[c := p])
    {
      var now := phases[c := p];
      forall i | 0 <= i < |pending| ensures EntryOk(pending, now, i) { assert EntryOk(pending, phases, i); }
      forall d ensures ListedAt(pending, now, d) { assert ListedAt(pending, phases, d); }
    }

    /** The connecting socket sends the pipe to the socket that it found; its number is raised already. */
    method SendBind(ghost from: Sock, peer: Sock, c: Conn)
      requires Valid() && c in phases && phases[c] == Reserved(from, peer)
      modifies this`mail, this`phases, this`made
      ensures Valid() && phases == old(phases)[c := BindSent(from, peer)] && mail == old(mail) + {Bind(peer, c)}
              && Bind(peer, c) !in old(mail)
    {
      ghost var p := BindSent(from, peer);
      MoveOff(c, p);
      assert MailAt(mail, phases, c) && MadeAt(made, phases, c);
      PhaseMoves(mail, mail + {Bind(peer, c)}, made, made[c := 1], phases, c, p);
      MovesLevel(phases, sent, processed, c, p);
      mail := mail + {Bind(peer, c)};
      phases, made := phases[c := p], made[c := made[c] + 1];
    }

    /** Connects one attempt: it must not have been connected before, and a command about it is sent. */
    method ConnectInprocSockets(binder: Sock, e: Entry, bindSide: bool)
      requires Sound() && e.conn in phases
      requires phases[e.conn] == if bindSide then Waiting(e.addr, e.from) else Searching(e.addr, e.from)
      modifies this`sent, this`processed, this`mail, this`phases, this`made
      ensures Sound()
      ensures phases ==
              old(phases)[e.conn := if bindSide then ConnectedSent(e.from, binder) else BindSent(e.from, binder)]
    {
      var c := e.conn;
      assert MailAt(mail, phases, c) && MadeAt(made, phases, c);
      sent := Raised(sent, binder);
      if bindSide {
        BothRaised(phases, old(sent), processed, binder);
        processed := Raised(processed, binder);
        ghost var p := ConnectedSent(e.from, binder);
        MovesLevel(phases, sent, processed, c, p);
        PhaseMoves(mail, mail + {InprocConnected(e.from, c)}, made, made[c := 1], phases, c, p);
        mail := mail + {InprocConnected(e.from, c)};
        phases, made := phases[c := p], made[c := made[c] + 1];
      } else {
        ghost var p := BindSent(e.from, binder);
        MovesUp(phases, old(sent), processed, c, p, binder);
        PhaseMoves(mail, mail + {Bind(binder, c)}, made, made[c := 1], phases, c, p);
        mail := mail + {Bind(binder, c)};
        phases, made := phases[c := p], made[c := made[c] + 1];
      }
    }

    /** The attempt goes on the list, unless the address was bound in the meantime. */
    method PendConnection(addr: Addr, from: Sock, c: Conn)
      requires Valid() && c in phases && phases[c] == Searching(addr, from)
      modifies this`sent, this`processed, this`mail, this`phases, this`made, this`pending
      ensures Valid()
      ensures phases ==
              old(phases)[c := if addr in endpoints then BindSent(from, endpoints[addr]) else Waiting(addr, from)]
      ensures pending == if addr in endpoints then old(pending) else old(pending) + [Entry(addr, from, c)]
    {
      if addr !in endpoints {
        ghost var p := Waiting(addr, from);
        assert MailAt(mail, phases, c) && MadeAt(made, phases, c);
        MovesUp(phases, sent, processed, c, p, from);
        PhaseMoves(mail, mail, made, made, phases, c, p);
        ListMore(pending, phases, Entry(addr, from, c));
        sent := Raised(sent, from);
        pending := pending + [Entry(addr, from, c)];
        phases := phases[c := p];
      } else {
        MoveOff(c, BindSent(from, endpoints[addr]));
        ConnectInprocSockets(endpoints[addr], Entry(addr, from, c), false);
      }
    }

    /** The binder connects everybody who waits for the address, each once, and takes them off the list. */
    method ConnectPending(addr: Addr, binder: Sock)
      requires Valid() && addr in looking && looking[addr] == binder
      modifies this`sent, this`processed, this`mail, this`phases, this`made, this`pending, this`looking
      ensures Valid() && endpoints[addr] == binder && pending == Without(old(pending), addr)
              && looking == old(looking) - {addr}
      ensures phases == AllConnected(old(phases), addr, binder) && phases.Keys == old(phases).Keys
      ensures forall c :: c in old(phases) ==>
                var was := old(phases)[c];
                phases[c] == if was.Waiting? && was.addr == addr then ConnectedSent(was.from, binder) else was
      ensures forall e :: e in pending <==> e in old(pending) && e.addr != addr
    {
      AllConnectedListed(pending, phases, addr, binder);
      WithoutMet(pending, addr, endpoints, looking);
      ghost var was, done := phases, {};
      var i := 0;
      while i < |pending|
        invariant i <= |pending| && pending == old(pending) && looking == old(looking)
        invariant Sound() && PartlyConnected(was, phases, done, addr, binder)
        invariant forall j :: 0 <= j < i && pending[j].addr == addr ==> pending[j].conn in done
        invariant forall j :: i <= j < |pending| ==> pending[j].conn !in done
      {
        assert EntryOk(pending, was, i);
        if pending[i].addr == addr {
          ConnectInprocSockets(binder, pending[i], true);
          done := done + {pending[i].conn};
        }
        i := i + 1;
      }
      forall c | c in was && was[c].Waiting? && was[c].addr == addr ensures c in done {
        assert ListedAt(pending, was, c);
        var j :| 0 <= j < |pending| && pending[j] == Entry(addr, was[c].from, c);
      }
      assert phases == AllConnected(was, addr, binder);
      WithoutIs(pending, addr);
      pending := Without(pending, addr);
      looking := looking - {addr};
    }

    /** A command arrives: it is counted, and the connection is complete. */
    method Process(m: Mail)
      requires Valid() && m in mail
      modifies this`processed, this`mail, this`phases
      ensures Valid() && m.conn in old(phases) && (old(phases)[m.conn].BindSent? || old(phases)[m.conn].ConnectedSent?)
      ensures phases == old(phases)[m.conn := Done(old(phases)[m.conn].from, old(phases)[m.conn].binder)]
      ensures mail == old(mail) - {m}
    {
      ghost var c := m.conn;
      assert MailAt(mail, phases, c) && MadeAt(made, phases, c);
      ghost var p := Done(phases[c].from, phases[c].binder);
      MoveOff(c, p);
      MovesDown(phases, sent, processed, c, p, m.to);
      PhaseMoves(mail, mail - {m}, made, made, phases, c, p);
      processed := Raised(processed, m.to);
      mail := mail - {m};
      phases := phases[c := p];
    }
  }

  /** Those of the attempts that are in the set were connected to the binder. */
  ghost predicate PartlyConnected(was: map<Conn, Phase>, now: map<Conn, Phase>, done: set<Conn>, addr: Addr,
                                  binder: Sock) {
    && (forall c :: c in done ==> c in was && was[c].Waiting? && was[c].addr == addr)
    && now == map c | c in was :: if c in done then ConnectedSent(was[c].from, binder) else was[c]
  }

  lemma ListMore(pending: seq<Entry>, phases: map<Conn, Phase>, e: Entry)
    requires Listed(pending, phases) && e.conn in phases && !phases[e.conn].Waiting?
    ensures Listed(pending + [e], phases[e.conn := Waiting(e.addr, e.from)])
  {
    var now, more := phases[e.conn := Waiting(e.addr, e.from)], pending + [e];
    forall i | 0 <= i < |more| ensures EntryOk(more, now, i) {
      if i < |pending| { assert EntryOk(pending, phases, i); }
    }
    forall i | 0 <= i < |pending| ensures pending[i].conn != e.conn { assert EntryOk(pending, phases, i); }
    forall c ensures ListedAt(more, now, c) {
      assert ListedAt(pending, phases, c);
      assert more[|pending|] == e;
    }
  }

  lemma WithoutMet(pending: seq<Entry>, addr: Addr, endpoints: map<Addr, Sock>, looking: map<Addr, Sock>)
    requires Met(pending, endpoints, looking)
    ensures Met(Without(pending, addr), endpoints, looking - {addr})
    ensures forall i :: 0 <= i < |Without(pending, addr)| ==> Without(pending, addr)[i].addr != addr
  {
    forall i | 0 <= i < |Without(pending, addr)|
      ensures Without(pending, addr)[i] in pending && Without(pending, addr)[i].addr != addr
    {
      WithoutHas(pending, addr, Without(pending, addr)[i]);
    }
  }

  /** A socket for which all that was sent is processed is not needed by any attempt to connect. */
  lemma Quiet(r: Rendezvous, s: Sock, i: nat)
    requires r.Valid() && At(r.sent, s) == At(r.processed, s) && i < |r.pending|
    ensures r.pending[i].from != s
  {
    assert SeqnumAt(r.phases, r.sent, r.processed, s) && EntryOk(r.pending, r.phases, i);
    assert r.pending[i].conn !in Holding(r.phases, s);
  }

  /**
   * Nothing is lost: if nobody is in the middle of anything, whoever is not connected waits for an
   * address that is not bound.
   */
  lemma NothingIsLost(r: Rendezvous, c: Conn)
    requires r.Valid() && r.looking == map[] && r.mail == {} && c in r.phases
    requires !r.phases[c].Searching? && !r.phases[c].Reserved?
    ensures r.phases[c].Done?
            || (r.phases[c].Waiting? && r.phases[c].addr !in r.endpoints
                && Entry(r.phases[c].addr, r.phases[c].from, c) in r.pending)
    ensures c in r.made && r.made[c] == Bit(r.phases[c].Done?)
  {
    assert MailAt(r.mail, r.phases, c) && ListedAt(r.pending, r.phases, c) && MadeAt(r.made, r.phases, c);
  }
}
