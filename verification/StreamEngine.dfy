/**
 * The loops of src/stream_engine_base.cpp around the codec: bytes that arrive are decoded
 * to messages, messages are encoded to batches, and what is sent is what is received.
 */
module StreamEngine {
  import opened Common
  import opened Bytes
  import opened Wire
  import opened Decoder
  import opened Encoder

  // ----- Receiving ---------------------------------------------------------------------------------

  /** What was decoded is what comes of these bytes. */
  ghost predicate Heard(d: Decoder, m: Machine, s: seq<byte>, msgs: seq<InMsg>, failed: bool)
    requires Waiting(m)
    reads d, d.target
  {
    var o := Feed(m, d.maxMsgSize, s);
    o.msgs == msgs && o.failed == failed && (!failed ==> d.Valid() && o.m == d.View())
  }

  /** Decodes all messages of a chunk of bytes that was read into a buffer, or where the bytes belong. */
  method InEvent(d: Decoder, data: array<byte>, off: nat, size: nat, limit: nat)
      returns (msgs: seq<InMsg>, failed: bool)
    requires d.Valid() && off + size <= limit && d.Takes(data, off, limit) && (data == d.target ==> size <= d.toRead)
    requires d.Lays(data, off)
    modifies d, d.tmpBuf, if d.target == data then {} else {d.target}
    ensures Heard(d, old(d.View()), old(Span(data, off, off + size)), msgs, failed)
    ensures !failed ==> d.Kept(old(d.target)) || fresh(d.target) || d.InBuffer(data, off + size, limit)
    ensures LaidOut(d.laid, limit) && (data == old(d.target) ==> d.laid == old(d.laid))
  {
    ghost var m, chunk := d.View(), Span(data, off, off + size);
    var pos := 0;
    msgs, failed := [], false;
    assert chunk[..0] == [];
    while pos < size
      invariant pos <= size && d.Valid() && (d.Kept(old(d.target)) || fresh(d.target))
      invariant pos < size ==> d.Takes(data, off + pos, limit) && (data == d.target ==> size - pos <= d.toRead)
      invariant pos < size ==> chunk == Span(data, off, off + size)
      invariant LaidOut(d.laid, limit) && d.Lays(data, off + pos) && (data == old(d.target) ==> d.laid == old(d.laid))
      invariant data == old(d.target) && 0 < pos ==> pos == size
      invariant pos == 0 ==> d.target == old(d.target)
      invariant Feed(m, d.maxMsgSize, chunk[..pos]) == Outcome(d.View(), msgs, false)
    {
      var rc, msg;
      rc, pos, msg := NextMessage(d, data, off, pos, size, limit, m, chunk, msgs);
      if rc == 0 {
        return;
      }
      if rc == -1 {
        failed := true;
        return;
      }
      msgs := msgs + [msg];
    }
    assert chunk[..size] == chunk;
  }

  /** Decodes on, up to the next message, the end of the chunk, or an error. */
  method NextMessage(d: Decoder, data: array<byte>, off: nat, pos: nat, size: nat, limit: nat,
                     ghost m: Machine, ghost chunk: seq<byte>, ghost msgs: seq<InMsg>)
      returns (rc: int, now: nat, msg: InMsg)
    requires d.Valid() && pos < size && off + size <= limit && d.Takes(data, off + pos, limit)
    requires chunk == Span(data, off, off + size) && (data == d.target ==> size - pos <= d.toRead)
    requires d.Lays(data, off + pos)
    requires Waiting(m) && Feed(m, d.maxMsgSize, chunk[..pos]) == Outcome(d.View(), msgs, false)
    modifies d, d.tmpBuf, if d.target == data then {} else {d.target}
    ensures pos <= now <= size && (rc == 0 || rc == 1 || rc == -1)
    ensures rc == 0 ==> d.Kept(old(d.target)) || fresh(d.target) || d.InBuffer(data, off + size, limit)
    ensures rc == 1 ==> pos < now && d.target == d.tmpBuf && (now < size ==> data != d.tmpBuf)
    ensures rc == 1 ==> d.Valid() && Feed(m, d.maxMsgSize, chunk[..now]) == Outcome(d.View(), msgs + [msg], false)
    ensures rc != 1 ==> Heard(d, m, chunk, msgs, rc == -1)
    ensures LaidOut(d.laid, limit) && (rc != -1 ==> d.Lays(data, off + now))
    ensures data == old(d.target) ==> now == size && d.laid == old(d.laid)
  {
    ghost var t := d.View();
    var used;
    rc, used := DecodeFrom(d, data, off, pos, size, limit, chunk);
    now := pos + used;
    DecodedOn(d, rc, m, chunk, pos, chunk[pos..], used, t, msgs);
    msg := if rc == 1 then d.Msg() else InMsg(false, false, []);
  }

  /** Decodes the rest of the chunk, from pos on. */
  method DecodeFrom(d: Decoder, data: array<byte>, off: nat, pos: nat, size: nat, limit: nat, ghost chunk: seq<byte>)
      returns (rc: int, used: nat)
    requires d.Valid() && pos < size && off + size <= limit && d.Takes(data, off + pos, limit)
    requires chunk == Span(data, off, off + size) && (data == d.target ==> size - pos <= d.toRead)
    requires d.Lays(data, off + pos)
    modifies d, d.tmpBuf, if d.target == data then {} else {d.target}
    ensures used <= size - pos && d.Returns(rc, Feed(old(d.View()), d.maxMsgSize, chunk[pos..][..used]))
    ensures (rc == 0 ==> used == size - pos) && (rc == 1 ==> used > 0) && (pos + used < size ==> data != d.tmpBuf)
    ensures rc == 0 ==> d.Kept(old(d.target)) || fresh(d.target) || d.InBuffer(data, off + size, limit)
    ensures LaidOut(d.laid, limit) && (rc != -1 ==> d.Lays(data, off + pos + used))
    ensures data == old(d.target) ==> pos + used == size && d.laid == old(d.laid)
  {
    assert chunk[pos..] == Span(data, off + pos, off + size) by {
      SpanOfSpan(data, off, size, pos, size);
      assert chunk[pos..size] == chunk[pos..];
    }
    rc, used := d.Decode(data, off + pos, size - pos, limit);
  }

  /** What the decoder returned for the next bytes says what came of all so far. */
  lemma DecodedOn(d: Decoder, rc: int, m: Machine, chunk: seq<byte>, pos: nat, piece: seq<byte>, used: nat,
                  t: Machine, msgs: seq<InMsg>)
    requires Waiting(m) && Waiting(t) && pos <= |chunk| && piece == chunk[pos..] && used <= |piece|
    requires Feed(m, d.maxMsgSize, chunk[..pos]) == Outcome(t, msgs, false) && (rc == 0 ==> used == |piece|)
    requires d.Returns(rc, Feed(t, d.maxMsgSize, piece[..used]))
    ensures rc == 1 ==> && d.Valid() && d.bodyAt + d.bodySize <= d.body.Length
                        && Feed(m, d.maxMsgSize, chunk[..pos + used]) == Outcome(d.View(), msgs + [d.Message()], false)
    ensures rc != 1 ==> Heard(d, m, chunk, msgs, rc == -1)
  {
    FeedRest(m, d.maxMsgSize, chunk, pos, used, t, msgs);
  }

  /** What comes of the rest of a chunk is added to what came of its beginning. */
  lemma FeedRest(m: Machine, max: int, chunk: seq<byte>, pos: nat, used: nat, t: Machine, msgs: seq<InMsg>)
    requires Waiting(m) && Waiting(t) && pos + used <= |chunk|
    requires Feed(m, max, chunk[..pos]) == Outcome(t, msgs, false)
    ensures var p := Feed(t, max, chunk[pos..][..used]);
            && Feed(m, max, chunk[..pos + used]) == p.(msgs := msgs + p.msgs)
            && (p.failed || pos + used == |chunk| ==> Feed(m, max, chunk) == p.(msgs := msgs + p.msgs))
            && (p.msgs == [] ==> msgs + p.msgs == msgs)
  {
    assert chunk[pos..][..used] == chunk[pos..pos + used] && chunk[..|chunk|] == chunk;
    FeedPiece(m, max, chunk, pos, pos + used, t, msgs);
    if Feed(m, max, chunk[..pos + used]).failed { FeedFailed(m, max, chunk, pos + used); }
  }

  /** Asks the decoder for room, reads as many of the bytes that arrived as fit, and decodes them. */
  method Receive(d: Decoder, buffer: array<byte>, arrived: seq<byte>) returns (k: nat, msgs: seq<InMsg>, failed: bool)
    requires d.Valid() && Spare(d, buffer) && d.target != buffer
    modifies d, d.tmpBuf, d.target, buffer
    ensures k <= |arrived| && (k == 0 ==> arrived == []) && Heard(d, old(d.View()), arrived[..k], msgs, failed)
    ensures !failed ==> d.Kept(old(d.target)) || fresh(d.target)
    ensures LaidOut(d.laid, k) && (old(d.toRead) >= buffer.Length ==> d.laid == [])
    ensures d.laid != [] ==> k <= buffer.Length
  {
    d.laid := [];
    var data, at, n := d.GetBuffer(buffer);
    k := if n < |arrived| then n else |arrived|;
    if data == buffer {
      msgs, failed := Fill(d, buffer, arrived[..k]);
    } else {
      msgs, failed := FillInPlace(d, arrived[..k]);
    }
  }

  /** The bytes are read into the buffer, which is cut to them, and decoded. */
  method Fill(d: Decoder, buffer: array<byte>, s: seq<byte>) returns (msgs: seq<InMsg>, failed: bool)
    requires d.Valid() && buffer != d.tmpBuf && buffer != d.target && |s| <= buffer.Length && d.laid == []
    modifies d, d.tmpBuf, d.target, buffer
    ensures Heard(d, old(d.View()), s, msgs, failed) && LaidOut(d.laid, |s|)
    ensures !failed ==> d.Kept(old(d.target)) || fresh(d.target)
  {
    ReadInto(d, buffer, 0, s);
    msgs, failed := InEvent(d, buffer, 0, |s|, |s|);
  }

  /** The bytes are read where they belong. */
  method FillInPlace(d: Decoder, s: seq<byte>) returns (msgs: seq<InMsg>, failed: bool)
    requires d.Valid() && |s| <= d.toRead && (d.target == d.tmpBuf ==> !d.zeroCopy) && d.laid == []
    modifies d, d.tmpBuf, d.target
    ensures Heard(d, old(d.View()), s, msgs, failed) && d.laid == []
    ensures !failed ==> d.Kept(old(d.target)) || fresh(d.target)
  {
    ReadInto(d, d.target, d.readPos, s);
    msgs, failed := InEvent(d, d.target, d.readPos, |s|, d.readPos + d.toRead);
  }

  /** Bytes are read into a buffer, or where the next ones belong; what the decoder has stays. */
  method ReadInto(d: Decoder, data: array<byte>, at: nat, s: seq<byte>)
    requires d.Valid() && at + |s| <= data.Length && (data == d.target ==> at == d.readPos)
    modifies data
    ensures d.Valid() && d.View() == old(d.View()) && Span(data, at, at + |s|) == s
  {
    Put(data, if data == d.target then d.start else at, at, s);
  }

  /** A buffer for reading: with zero-copy it must be longer than the scratch buffer. */
  ghost predicate Spare(d: Decoder, buffer: array<byte>) {
    buffer != d.tmpBuf && buffer.Length > 0 && (d.zeroCopy ==> buffer.Length > 8)
  }

  /** Events go on until all that arrived is read. */
  method ReceiveAll(d: Decoder, batch: nat, arrived: seq<byte>) returns (msgs: seq<InMsg>, failed: bool)
    requires d.Valid() && batch > 0 && (d.zeroCopy ==> batch > 8)
    modifies d, d.tmpBuf, d.target
    ensures Heard(d, old(d.View()), arrived, msgs, failed)
    ensures !failed ==> d.Kept(old(d.target)) || fresh(d.target)
  {
    ghost var m := d.View();
    var pos := 0;
    msgs, failed := [], false;
    assert arrived[..0] == [];
    while pos < |arrived|
      invariant pos <= |arrived| && d.Valid() && (d.Kept(old(d.target)) || fresh(d.target))
      invariant Feed(m, d.maxMsgSize, arrived[..pos]) == Outcome(d.View(), msgs, false)
    {
      ghost var t := d.View();
      var buffer := new byte[batch];
      var k, more;
      k, more, failed := Receive(d, buffer, arrived[pos..]);
      FeedRest(m, d.maxMsgSize, arrived, pos, k, t, msgs);
      msgs, pos := msgs + more, pos + k;
      if failed {
        return;
      }
    }
    assert arrived[..pos] == arrived;
  }

  // ----- Chunks -----------------------------------------------------------------------------------------

  function Concat(chunks: seq<seq<byte>>): seq<byte> {
    if chunks == [] then [] else chunks[0] + Concat(chunks[1..])
  }

  /** The chunks are decoded one after the other. */
  function FeedAll(m: Machine, max: int, chunks: seq<seq<byte>>): Outcome
    requires Waiting(m)
    decreases |chunks|
  {
    if chunks == [] then Outcome(m, [], false)
    else
      var o := Feed(m, max, chunks[0]);
      if o.failed then o
      else var p := FeedAll(o.m, max, chunks[1..]); p.(msgs := o.msgs + p.msgs)
  }

  /** However a stream is cut into chunks, the same comes of it. */
  lemma {:induction false} ChunksDoNotMatter(m: Machine, max: int, chunks: seq<seq<byte>>)
    requires Waiting(m)
    ensures FeedAll(m, max, chunks) == Feed(m, max, Concat(chunks))
    decreases |chunks|
  {
    if chunks != [] {
      FeedAppend(m, max, chunks[0], Concat(chunks[1..]));
      var o := Feed(m, max, chunks[0]);
      if !o.failed { ChunksDoNotMatter(o.m, max, chunks[1..]); }
    }
  }

  // ----- Sending -----------------------------------------------------------------------------------------

  /** The messages in the queue are these. */
  ghost predicate Carries(q: seq<Outgoing>, vs: seq<OutMsg>)
    reads set i | 0 <= i < |q| :: q[i].data
  {
    |q| == |vs| && forall i :: 0 <= i < |q| ==> Value(q[i]) == vs[i]
  }

  /** A message that can be sent: its body is not one of the encoder's own buffers. */
  ghost predicate Sendable(e: Encoder, m: Outgoing) {
    m.data != e.tmpBuf && m.data != e.buf && m.data.Length + 1 < TWO_TO_64
  }

  ghost predicate AllSendable(e: Encoder, q: seq<Outgoing>) {
    forall i :: 0 <= i < |q| ==> Sendable(e, q[i])
  }

  /** What the encoder still has to hand out. */
  ghost function Left(e: Encoder): seq<byte>
    requires e.Placed()
    reads e
  {
    if e.inProgress.None? then [] else e.frame[e.done..]
  }

  /** From position n on, the stream is the rest of the message in progress and the messages that wait. */
  ghost predicate StreamFrom(s: seq<byte>, n: nat, left: seq<byte>, vs: seq<OutMsg>) {
    && n <= |s| && Encodable(vs)
    && s[n..] == left + Frames(vs)
  }

  lemma StreamMoves(s: seq<byte>, n: nat, f: seq<byte>, d: nat, k: nat, vs: seq<OutMsg>, a: array<byte>, lo: nat,
                    at: nat)
    requires d + k <= |f| && StreamFrom(s, n, f[d..], vs) && at == lo + n && Holds(a, lo, s, 0, n)
             && Holds(a, at, f, d, k)
    ensures StreamFrom(s, n + k, f[d + k..], vs) && Holds(a, lo, s, 0, n + k)
  {
    assert s[n..][k..] == s[n + k..];
    assert (f[d..] + Frames(vs))[k..] == f[d + k..] + Frames(vs);
    forall j | 0 <= j < n + k ensures SameByte(a, lo, s, 0, j) {
      if j < n {
        assert SameByte(a, lo, s, 0, j);
      } else {
        var i := j - n;
        assert SameByte(a, at, f, d, i) && s[n..][i] == f[d..][i];
      }
    }
  }

  lemma StreamLoads(s: seq<byte>, n: nat, vs: seq<OutMsg>)
    requires StreamFrom(s, n, [], vs) && vs != []
    ensures StreamFrom(s, n, Frame(vs[0]), vs[1..])
  {
    assert [] + Frames(vs) == Frame(vs[0]) + Frames(vs[1..]);
  }

  lemma StreamAppends(s: seq<byte>, n: nat, k: nat, vs: seq<OutMsg>, a: array<byte>, lo: nat, at: nat)
    requires StreamFrom(s, n, [], vs) && vs != [] && at == lo + n
    requires Holds(a, lo, s, 0, n) && Holds(a, at, Frame(vs[0]), 0, k)
    ensures StreamFrom(s, n + k, Frame(vs[0])[k..], vs[1..]) && Holds(a, lo, s, 0, n + k)
  {
    StreamLoads(s, n, vs);
    var f := Frame(vs[0]);
    assert f[0..] == f;
    StreamMoves(s, n, f, 0, k, vs[1..], a, lo, at);
  }

  /** Writes the next bytes into the own buffer, behind the n bytes that are there. */
  method EncodeBehind(e: Encoder, n: nat, ghost s: seq<byte>) returns (k: nat)
    requires e.Valid() && e.inProgress.Some? && n < e.buf.Length && Holds(e.buf, 0, s, 0, n)
    modifies e, e.buf
    ensures e.Valid() && e.frame == old(e.frame) && e.done == old(e.done) + k && n + k <= e.buf.Length
    ensures Holds(e.buf, 0, s, 0, n) && Holds(e.buf, n, e.frame, old(e.done), k)
    ensures e.inProgress.Some? ==> e.inProgress == old(e.inProgress) && n + k >= e.buf.Length
    ensures e.inProgress.None? ==> e.done == |e.frame|
    ensures k == 0 ==> e.inProgress.None?
  {
    var out, at;
    out, at, k := e.Encode(e.buf, n, e.buf.Length - n);
    forall j | 0 <= j < n ensures SameByte(e.buf, 0, s, 0, j) { assert old(SameByte(e.buf, 0, s, 0, j)); }
  }

  /** Loads a message and writes the first bytes of its frame f. */
  method LoadBehind(e: Encoder, m: Outgoing, n: nat, ghost s: seq<byte>, ghost f: seq<byte>) returns (k: nat)
    requires e.Valid() && e.inProgress.None? && n < e.buf.Length && Sendable(e, m)
    requires Holds(e.buf, 0, s, 0, n) && f == Frame(Value(m))
    modifies e, e.tmpBuf, e.buf
    ensures e.Valid() && 0 < k <= |f| && Holds(e.buf, 0, s, 0, n) && Holds(e.buf, n, f, 0, k) && Left(e) == f[k..]
    ensures e.inProgress.None? || (e.inProgress == Some(m) && n + k >= e.buf.Length)
  {
    e.LoadMsg(m);
    k := EncodeBehind(e, n, s);
  }

  /** Loads a message and hands out the first bytes of its frame f. */
  method LoadFirst(e: Encoder, m: Outgoing, ghost f: seq<byte>) returns (out: array<byte>, from: nat, k: nat)
    requires e.Valid() && e.inProgress.None? && e.buf.Length > 0 && Sendable(e, m) && f == Frame(Value(m))
    modifies e, e.tmpBuf, e.buf
    ensures e.Valid() && 0 < k <= |f| && Holds(out, from, f, 0, k) && Left(e) == f[k..]
    ensures k < e.buf.Length ==> e.inProgress.None? && out == e.buf && from == 0
  {
    e.LoadMsg(m);
    out, from, k := e.Encode(null, 0, 0);
  }

  /** The batch so far, and what the stream has after it. */
  ghost predicate Batch(e: Encoder, out: array<byte>, from: nat, n: nat, s: seq<byte>, vs: seq<OutMsg>)
    requires e.Placed()
    reads e, out
  {
    Holds(out, from, s, 0, n) && StreamFrom(s, n, Left(e), vs)
  }

  /** One message is loaded and as much of it as fits is written behind the first n bytes. */
  method Append(e: Encoder, m: Outgoing, n: nat, ghost s: seq<byte>, ghost vs: seq<OutMsg>) returns (now: nat)
    requires e.Valid() && e.inProgress.None? && n < e.buf.Length && Sendable(e, m)
    requires Holds(e.buf, 0, s, 0, n) && StreamFrom(s, n, [], vs) && vs != [] && Value(m) == vs[0]
    modifies e, e.tmpBuf, e.buf
    ensures e.Valid() && n < now && Holds(e.buf, 0, s, 0, now) && StreamFrom(s, now, Left(e), vs[1..])
    ensures now < e.buf.Length ==> e.inProgress.None?
  {
    var k := LoadBehind(e, m, n, s, Frame(vs[0]));
    StreamAppends(s, n, k, vs, e.buf, 0, n);
    now := n + k;
  }

  /** The first message of a batch may also be handed out where it lies. */
  method First(e: Encoder, m: Outgoing, ghost s: seq<byte>, ghost vs: seq<OutMsg>)
      returns (out: array<byte>, from: nat, n: nat)
    requires e.Valid() && e.inProgress.None? && e.buf.Length > 0 && Sendable(e, m)
    requires vs != [] && Value(m) == vs[0] && StreamFrom(s, 0, [], vs)
    modifies e, e.tmpBuf, e.buf
    ensures e.Valid() && n > 0 && Batch(e, out, from, n, s, vs[1..])
    ensures n < e.buf.Length ==> e.inProgress.None? && out == e.buf && from == 0
  {
    out, from, n := LoadFirst(e, m, Frame(vs[0]));
    StreamAppends(s, 0, n, vs, out, from, from);
  }

  /** Hands out what is left of the frame f of the message in progress, or as much as fits. */
  method HandOn(e: Encoder, ghost f: seq<byte>, ghost d: nat) returns (out: array<byte>, from: nat, n: nat)
    requires e.Valid() && e.buf.Length > 0 && f == e.frame && d == e.done
    modifies e, e.buf
    ensures e.Valid() && from + n <= out.Length && Open(e, out, from, n, old(e.inProgress).Some?)
    ensures old(e.inProgress).Some? ==> d + n <= |f| && Holds(out, from, f, d, n) && Left(e) == f[d + n..]
    ensures old(e.inProgress).None? ==> n == 0 && e.inProgress.None?
  {
    out, from, n := e.Encode(null, 0, 0);
  }

  /** A batch starts with what is left of the last message. */
  method GoOn(e: Encoder, ghost s: seq<byte>, ghost vs: seq<OutMsg>) returns (out: array<byte>, from: nat, n: nat)
    requires e.Valid() && e.buf.Length > 0 && StreamFrom(s, 0, Left(e), vs)
    modifies e, e.buf
    ensures e.Valid() && Batch(e, out, from, n, s, vs)
    ensures Open(e, out, from, n, old(e.inProgress).Some?)
  {
    var going := e.inProgress.Some?;
    ghost var f, d := e.frame, e.done;
    out, from, n := HandOn(e, f, d);
    if going { StreamMoves(s, 0, f, d, n, vs, out, from, from); }
  }

  /** If there is room, the next message may follow: in the encoder's buffer, if the batch has a place already. */
  ghost predicate Open(e: Encoder, out: array<byte>, from: nat, n: nat, placed: bool)
    reads e
  {
    n < e.buf.Length ==> e.inProgress.None? && if placed then out == e.buf && from == 0 else n == 0
  }

  /** The next message goes into the batch. */
  method Follow(e: Encoder, m: Outgoing, was: array<byte>, at: nat, had: nat, placed: bool,
                ghost s: seq<byte>, ghost vs: seq<OutMsg>)
      returns (out: array<byte>, from: nat, n: nat)
    requires e.Valid() && had < e.buf.Length && Open(e, was, at, had, placed) && Sendable(e, m)
    requires Batch(e, was, at, had, s, vs) && vs != [] && Value(m) == vs[0]
    modifies e, e.tmpBuf, e.buf
    ensures e.Valid() && had < n && Batch(e, out, from, n, s, vs[1..]) && Open(e, out, from, n, true)
  {
    if placed {
      out, from := was, at;
      n := Append(e, m, had, s, vs);
    } else {
      out, from, n := First(e, m, s, vs);
    }
  }

  /**
   * Makes a batch of what is left and of messages from the queue.  The bytes of the batch, what
   * the encoder has left, and the messages that still wait are together what there was to send.
   */
  method OutEvent(e: Encoder, queue: seq<Outgoing>, ghost vs: seq<OutMsg>)
      returns (out: array<byte>, from: nat, n: nat, taken: nat, ghost s: seq<byte>)
    requires e.Valid() && e.buf.Length > 0 && Carries(queue, vs)
    requires AllSendable(e, queue)
    modifies e, e.tmpBuf, e.buf
    ensures e.Valid() && Carries(queue, vs) && taken <= |queue|
    ensures StreamFrom(s, 0, old(Left(e)), vs) && Batch(e, out, from, n, s, vs[taken..])
    ensures n < e.buf.Length ==> taken == |queue| && e.inProgress.None?
  {
    s := Left(e) + Frames(vs);
    var placed := e.inProgress.Some?;
    out, from, n := GoOn(e, s, vs);
    taken := 0;
    assert vs[0..] == vs;
    while n < e.buf.Length && taken < |queue|
      invariant e.Valid() && taken <= |queue| && Batch(e, out, from, n, s, vs[taken..])
      invariant Open(e, out, from, n, placed) && Carries(queue, vs)
    {
      out, from, n := Follow(e, queue[taken], out, from, n, placed, s, vs[taken..]);
      placed := true;
      assert vs[taken..][1..] == vs[taken + 1..];
      taken := taken + 1;
    }
  }

  // ----- Any number of batches ---------------------------------------------------------------------------

  lemma {:induction false} ConcatMore(chunks: seq<seq<byte>>, c: seq<byte>)
    ensures Concat(chunks + [c]) == Concat(chunks) + c
  {
    if chunks == [] {
      assert [] + [c] == [c];
    } else {
      ConcatMore(chunks[1..], c);
      assert (chunks + [c])[1..] == chunks[1..] + [c];
    }
  }

  lemma {:induction false} FramesJoin(a: seq<OutMsg>, b: seq<OutMsg>)
    requires Encodable(a) && Encodable(b)
    ensures Encodable(a + b) && Frames(a + b) == Frames(a) + Frames(b)
  {
    if a == [] {
      assert a + b == b;
    } else {
      assert (a + b)[1..] == a[1..] + b;
      FramesJoin(a[1..], b);
    }
  }

  /** The batches, what the encoder has left of a message, and the messages that wait are all there is to send. */
  ghost predicate AllThere(batches: seq<seq<byte>>, left: seq<byte>, waiting: seq<OutMsg>, all: seq<OutMsg>) {
    Encodable(waiting) && Encodable(all) && Concat(batches) + left + Frames(waiting) == Frames(all)
  }

  lemma Regroup(sent: seq<byte>, left: seq<byte>, a: seq<byte>, rest: seq<byte>, s: seq<byte>, n: nat,
                left': seq<byte>, b: seq<byte>)
    requires s == left + a && n <= |s| && s[n..] == left' + b
    ensures sent + left + (a + rest) == sent + s[..n] + left' + (b + rest)
  {
    assert sent + left + (a + rest) == sent + (left + a) + rest;
    assert sent + s[..n] + left' + (b + rest) == sent + (s[..n] + (left' + b)) + rest;
    assert s[..n] + s[n..] == s;
  }

  lemma BatchMore(batches: seq<seq<byte>>, left: seq<byte>, part: seq<OutMsg>, rest: seq<OutMsg>, all: seq<OutMsg>,
                  s: seq<byte>, n: nat, left': seq<byte>, part': seq<OutMsg>)
    requires Encodable(rest) && AllThere(batches, left, part + rest, all)
    requires StreamFrom(s, 0, left, part) && StreamFrom(s, n, left', part')
    ensures AllThere(batches + [s[..n]], left', part' + rest, all)
  {
    FramesJoin(part, rest);
    FramesJoin(part', rest);
    ConcatMore(batches, s[..n]);
    assert s[0..] == s;
    Regroup(Concat(batches), left, Frames(part), Frames(rest), s, n, left', Frames(part'));
  }

  lemma HoldsIs(a: array<byte>, at: nat, s: seq<byte>, n: nat)
    requires Holds(a, at, s, 0, n)
    ensures a[at..at + n] == s[..n]
  {
    forall j | 0 <= j < n ensures a[at..at + n][j] == s[..n][j] { assert SameByte(a, at, s, 0, j); }
  }

  /** The first n messages of the queue. */
  lemma QueueFront(e: Encoder, q: seq<Outgoing>, vs: seq<OutMsg>, n: nat)
    requires Carries(q, vs) && n <= |q| && AllSendable(e, q)
    ensures Carries(q[..n], vs[..n]) && AllSendable(e, q[..n]) && vs[..n] + vs[n..] == vs
    ensures Encodable(vs) ==> Encodable(vs[n..])
  {
  }

  /** The messages from number n on. */
  lemma QueueBack(e: Encoder, q: seq<Outgoing>, vs: seq<OutMsg>, n: nat)
    requires Carries(q, vs) && n <= |q| && AllSendable(e, q)
    ensures Carries(q[n..], vs[n..]) && AllSendable(e, q[n..])
  {
  }

  lemma FrontTaken(vs: seq<OutMsg>, n: nat, k: nat)
    requires k <= n <= |vs|
    ensures vs[..n][k..] + vs[n..] == vs[k..]
  {
  }

  /** Before each event some messages arrive: as many as `turns` says, or all that are left. */
  function Arrived(had: nat, more: nat, all: nat): nat {
    if had + more < all then had + more else all
  }

  /** How many messages arrived before or between these events. */
  function ArrivedIn(turns: seq<nat>, all: nat): nat {
    if turns == [] then 0 else Arrived(ArrivedIn(turns[..|turns| - 1], all), turns[|turns| - 1], all)
  }

  lemma ArrivedMore(turns: seq<nat>, t: nat, all: nat)
    requires t < |turns|
    ensures ArrivedIn(turns[..t + 1], all) == Arrived(ArrivedIn(turns[..t], all), turns[t], all)
  {
    assert turns[..t + 1][..t] == turns[..t];
  }

  /** One event: a batch of the messages in the queue, of which some are taken; the rest come later. */
  method SendPart(e: Encoder, queue: seq<Outgoing>, batches: seq<seq<byte>>,
                  ghost part: seq<OutMsg>, ghost rest: seq<OutMsg>, ghost all: seq<OutMsg>)
      returns (batch: seq<byte>, taken: nat)
    requires e.Valid() && e.buf.Length > 0 && Carries(queue, part)
    requires AllSendable(e, queue)
    requires Encodable(rest) && AllThere(batches, Left(e), part + rest, all)
    modifies e, e.tmpBuf, e.buf
    ensures e.Valid() && taken <= |part| && AllThere(batches + [batch], Left(e), part[taken..] + rest, all)
    ensures |batch| < e.buf.Length ==> taken == |part| && e.inProgress.None?
  {
    ghost var left := Left(e);
    var out, from, n, k, s := OutEvent(e, queue, part);
    batch, taken := out[from..from + n], k;
    HoldsIs(out, from, s, n);
    BatchMore(batches, left, part, rest, all, s, n, Left(e), part[taken..]);
  }

  /** One event: a batch of the first n messages, of which some are taken. */
  method SendBatch(e: Encoder, q: seq<Outgoing>, n: nat, batches: seq<seq<byte>>,
                   ghost waiting: seq<OutMsg>, ghost all: seq<OutMsg>)
      returns (batch: seq<byte>, taken: nat)
    requires e.Valid() && e.buf.Length > 0 && Carries(q, waiting) && n <= |q| && AllSendable(e, q)
    requires AllThere(batches, Left(e), waiting, all)
    modifies e, e.tmpBuf, e.buf
    ensures e.Valid() && taken <= n && AllThere(batches + [batch], Left(e), waiting[taken..], all)
    ensures Carries(q[taken..], waiting[taken..]) && AllSendable(e, q[taken..])
    ensures |batch| < e.buf.Length ==> taken == n && e.inProgress.None?
  {
    QueueFront(e, q, waiting, n);
    batch, taken := SendPart(e, q[..n], batches, waiting[..n], waiting[n..], all);
    FrontTaken(waiting, n, taken);
    QueueBack(e, q, waiting, taken);
  }

  lemma Beginning(a: seq<byte>, b: seq<byte>, c: seq<byte>)
    ensures a <= a + b + c && (b == [] && c == [] ==> a + b + c == a)
  {
  }

  lemma NothingMissing(batches: seq<seq<byte>>, left: seq<byte>, waiting: seq<OutMsg>, all: seq<OutMsg>)
    requires AllThere(batches, left, waiting, all)
    ensures Concat(batches) <= Frames(all) && (left == [] && waiting == [] ==> Concat(batches) == Frames(all))
  {
    Beginning(Concat(batches), left, Frames(waiting));
  }

  /**
   * Any number of events, each with one batch: the batches are the beginning of the frames of all
   * messages, or all of it.  A batch that does not fill the buffer leaves nothing unsent of what arrived.
   */
  method SendAll(e: Encoder, q: seq<Outgoing>, turns: seq<nat>, ghost vs: seq<OutMsg>)
      returns (batches: seq<seq<byte>>, sent: nat)
    requires e.Valid() && e.buf.Length > 0 && e.inProgress.None? && Carries(q, vs)
    requires AllSendable(e, q)
    modifies e, e.tmpBuf, e.buf
    ensures e.Valid() && sent <= |q| && Encodable(vs) && Concat(batches) <= Frames(vs)
    ensures sent == |q| && e.inProgress.None? ==> Concat(batches) == Frames(vs)
    ensures |batches| == |turns|
    ensures turns != [] && |batches[|turns| - 1]| < e.buf.Length ==>
              sent == ArrivedIn(turns, |q|) && e.inProgress.None?
  {
    batches, sent := [], 0;
    var t, had, queue := 0, 0, q;
    ghost var waiting := vs;
    assert AllThere(batches, [], vs, vs) && turns[..0] == [];
    while t < |turns|
      invariant t <= |turns| && sent <= had <= |q| && |queue| == |q| - sent && e.Valid()
      invariant Carries(queue, waiting) && AllSendable(e, queue) && AllThere(batches, Left(e), waiting, vs)
      invariant |batches| == t && had == ArrivedIn(turns[..t], |q|)
      invariant t > 0 && |batches[t - 1]| < e.buf.Length ==> sent == had && e.inProgress.None?
    {
      ArrivedMore(turns, t, |q|);
      had := Arrived(had, turns[t], |q|);
      var batch, taken := SendBatch(e, queue, had - sent, batches, waiting, vs);
      batches, queue, sent, t := batches + [batch], queue[taken..], sent + taken, t + 1;
      waiting := waiting[taken..];
    }
    assert turns[..t] == turns;
    NothingMissing(batches, Left(e), waiting, vs);
  }

  /**
   * The batches are written to the connection and arrive in chunks, cut anywhere.  The messages
   * decoded so far are the first ones that were sent; if all arrived, they are all.
   */
  lemma Delivery(max: int, ms: seq<OutMsg>, batches: seq<seq<byte>>, chunks: seq<seq<byte>>)
    requires Encodable(ms) && forall x :: x in ms ==> Survives(x, max)
    requires Concat(batches) <= Frames(ms) && Concat(chunks) <= Concat(batches)
    ensures var o := FeedAll(START, max, chunks);
            !o.failed && o.msgs <= Meanings(ms) && (Concat(chunks) == Frames(ms) ==> o.msgs == Meanings(ms))
  {
    ChunksDoNotMatter(START, max, chunks);
    FramesFeed(START, max, ms);
    var head, all := Concat(chunks), Frames(ms);
    assert all == head + all[|head|..];
    FeedAppend(START, max, head, all[|head|..]);
  }
}
