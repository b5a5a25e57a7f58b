/**
 * decoder_base_t of src/decoder.hpp driving the steps of src/v2_decoder.cpp.  Bytes come
 * in buffers of any size; they are copied to where they belong, or are there already.
 * Each call is proved against the machine of `Wire` that takes one byte at a time.
 */
module Decoder {
  import opened Bytes
  import opened Common
  import opened Wire

  /** Adds a piece to what was fed before. */
  lemma FeedPiece(m: Machine, max: int, chunk: seq<byte>, a: nat, b: nat, t: Machine, msgs: seq<InMsg>)
    requires Waiting(m) && a <= b <= |chunk| && Waiting(t) && Feed(m, max, chunk[..a]) == Outcome(t, msgs, false)
    ensures var p := Feed(t, max, chunk[a..b]); Feed(m, max, chunk[..b]) == p.(msgs := msgs + p.msgs)
  {
    assert chunk[..b] == chunk[..a] + chunk[a..b];
    FeedAppend(m, max, chunk[..a], chunk[a..b]);
  }

  /** The same, if no message came of what was fed before. */
  lemma FeedOn(m: Machine, max: int, chunk: seq<byte>, a: nat, b: nat, t: Machine)
    requires Waiting(m) && a <= b <= |chunk| && Waiting(t) && Feed(m, max, chunk[..a]) == Outcome(t, [], false)
    ensures Feed(m, max, chunk[..b]) == Feed(t, max, chunk[a..b])
  {
    FeedPiece(m, max, chunk, a, b, t, []);
    var p := Feed(t, max, chunk[a..b]);
    assert [] + p.msgs == p.msgs;
  }

  /** After an error nothing more comes of a chunk. */
  lemma FeedFailed(m: Machine, max: int, chunk: seq<byte>, b: nat)
    requires Waiting(m) && b <= |chunk| && Feed(m, max, chunk[..b]).failed
    ensures Feed(m, max, chunk) == Feed(m, max, chunk[..b])
  {
    assert chunk == chunk[..b] + chunk[b..];
    FeedAppend(m, max, chunk[..b], chunk[b..]);
  }

  /** Bytes of a receive buffer that became the body of a message. */
  datatype Range = Range(from: nat, size: nat)

  /** Where the last body ends. */
  function LaidEnd(laid: seq<Range>): nat {
    if laid == [] then 0 else laid[|laid| - 1].from + laid[|laid| - 1].size
  }

  /** The bodies follow each other, and none is so small that it would be copied. */
  ghost predicate InTurn(laid: seq<Range>) {
    laid != [] ==>
      var before, last := laid[..|laid| - 1], laid[|laid| - 1];
      last.size >= MAX_VSM_SIZE && LaidEnd(before) <= last.from && InTurn(before)
  }

  /** All bodies lie before position k. */
  ghost predicate LaidOut(laid: seq<Range>, k: nat) {
    InTurn(laid) && LaidEnd(laid) <= k
  }

  lemma LaidMore(laid: seq<Range>, pos: nat, n: nat)
    requires LaidOut(laid, pos) && n >= MAX_VSM_SIZE
    ensures LaidOut(laid + [Range(pos, n)], pos + n)
  {
    assert (laid + [Range(pos, n)])[..|laid|] == laid;
  }

  class Decoder {
    const tmpBuf: array<byte>
    const maxMsgSize: int
    const zeroCopy: bool
    // Where the next byte goes, how many are missing, and the step to take then.
    var target: array<byte>
    var readPos: nat
    var toRead: nat
    var next: Step
    var more: bool
    var command: bool
    // The message in progress.
    var body: array<byte>
    var bodyAt: nat
    var bodySize: nat
    // The bodies that were made of bytes of the current receive buffer.
    var laid: seq<Range>
    // Where the bytes that the next step needs start.
    ghost var start: nat

    ghost function View(): Machine
      requires start <= readPos <= target.Length
      reads this, target
    {
      Machine(next, Span(target, start, readPos), toRead, more, command)
    }

    /** The pointers are in bounds, and bytes go to the scratch buffer or to the message. */
    ghost predicate Placed()
      reads this
    {
      && tmpBuf.Length == 8
      && start <= readPos && readPos + toRead <= target.Length
      && (next.MessageReady? ==>
            target == body && start == bodyAt && readPos - start + toRead == bodySize && target != tmpBuf)
      && (!next.MessageReady? ==> target == tmpBuf && start == 0)
    }

    ghost predicate Valid()
      reads this, target
    {
      Placed() && Waiting(View())
    }

    ghost function Message(): InMsg
      requires bodyAt + bodySize <= body.Length
      reads this, body
    {
      InMsg(more, command, Span(body, bodyAt, bodyAt + bodySize))
    }

    constructor (maxMsgSize: int, zeroCopy: bool)
      ensures Valid() && View() == START && this.maxMsgSize == maxMsgSize && fresh(tmpBuf) && fresh(body)
    {
      var tmp := new byte[8];
      this.maxMsgSize, this.zeroCopy := maxMsgSize, zeroCopy;
      tmpBuf, target, readPos, toRead, next, start := tmp, tmp, 0, 1, FlagsReady, 0;
      more, command := false, false;
      body, bodyAt, bodySize, laid := new byte[0], 0, 0, [];
    }

    /** The message in progress takes its bytes from this buffer, and the next one is at pos. */
    ghost predicate InBuffer(data: array<byte>, pos: nat, limit: nat)
      reads this
    {
      target == data && data != tmpBuf && readPos == pos && pos + toRead <= limit
    }

    /** The bytes from `from` on may be decoded: if they are where they belong already, they are the next ones. */
    ghost predicate Takes(data: array<byte>, from: nat, limit: nat)
      reads this
    {
      && from <= limit <= data.Length
      && (data == target ==> readPos == from && readPos + toRead <= limit)
      && (data == tmpBuf ==> target == tmpBuf && !zeroCopy)
    }

    /** The bodies lie before pos, or before the end of the one in progress. */
    ghost predicate Lays(data: array<byte>, pos: nat)
      reads this
    {
      LaidOut(laid, if target == data && data != tmpBuf then readPos + toRead else pos)
    }

    method NextStep(dst: array<byte>, at: nat, n: nat, step: Step)
      modifies this`target, this`readPos, this`toRead, this`next, this`start
      ensures target == dst && readPos == at && toRead == n && next == step && start == at
    {
      target, readPos, toRead, next, start := dst, at, n, step, at;
    }

    /** The size is known: the message takes its bytes from the buffer in place, or gets room of its own. */
    method ReadSize(n: nat, data: array<byte>, pos: nat, limit: nat) returns (rc: int)
      requires tmpBuf.Length == 8 && (zeroCopy ==> data != tmpBuf) && pos <= limit <= data.Length
      requires LaidOut(laid, pos)
      modifies this`target, this`readPos, this`toRead, this`next, this`start
      modifies this`body, this`bodyAt, this`bodySize, this`laid
      ensures rc == if 0 <= maxMsgSize < n then -1 else 0
      ensures rc == 0 ==> Placed() && next.MessageReady? && toRead == n && readPos == start
      ensures rc == 0 ==> if target == data then InBuffer(data, pos, limit) else fresh(target)
      ensures laid == if rc == 0 && target == data then old(laid) + [Range(pos, n)] else old(laid)
      ensures LaidOut(laid, limit) && (rc == 0 ==> Lays(data, pos)) && (!zeroCopy ==> laid == old(laid))
      ensures rc == -1 ==>
                target == old(target) && readPos == old(readPos) && toRead == old(toRead)
                && next == old(next) && start == old(start)
    {
      if maxMsgSize >= 0 && n > maxMsgSize {
        return -1;
      }
      if !zeroCopy || n > limit - pos || n < MAX_VSM_SIZE {
        body, bodyAt, bodySize := new byte[n], 0, n;
      } else {
        LaidMore(laid, pos, n);
        body, bodyAt, bodySize, laid := data, pos, n, laid + [Range(pos, n)];
      }
      NextStep(body, bodyAt, bodySize, MessageReady);
      rc := 0;
    }

    /** Everything that the next step needs is there. */
    ghost predicate Complete()
      reads this
    {
      && Placed() && toRead == 0
      && (next.FlagsReady? || next.OneByteSizeReady? ==> readPos == 1)
      && (next.EightByteSizeReady? ==> readPos == 8)
    }

    /** What a return code says about a step, or several: where the machine is, or what is left to do. */
    ghost predicate Settles(rc: int, r: Result)
      reads this, target, body
    {
      match rc
      case 0 =>
        if toRead == 0 then Complete() && next.MessageReady? && Settle(View(), maxMsgSize) == r
        else Valid() && r == Wants(View())
      case 1 =>
        Valid() && target == tmpBuf && bodyAt + bodySize <= body.Length && r == Decoded(View(), Message())
      case _ => rc == -1 && r.Failed?
    }

    /** An empty message is complete as soon as its size is known. */
    method TakeSize(n: nat, data: array<byte>, pos: nat, limit: nat) returns (rc: int)
      requires Complete() && (zeroCopy ==> data != tmpBuf) && pos <= limit <= data.Length
      requires if next.OneByteSizeReady? then n == tmpBuf[0] else next.EightByteSizeReady? && n == GetUint(tmpBuf[..8])
      requires LaidOut(laid, pos)
      modifies this`target, this`readPos, this`toRead, this`next, this`start
      modifies this`body, this`bodyAt, this`bodySize, this`laid
      ensures old(View()).got != [] && (rc == 0 || rc == -1)
      ensures LaidOut(laid, limit) && (rc == 0 ==> Lays(data, pos)) && (!zeroCopy ==> laid == old(laid))
      ensures Settles(rc, Settle(old(View()), maxMsgSize)) && (rc == 0 ==> next.MessageReady?)
      ensures rc == 0 ==> fresh(target) || InBuffer(data, pos, limit)
    {
      SpanIs(tmpBuf, 0, readPos);
      assert tmpBuf[0..1][0] == tmpBuf[0] && tmpBuf[0..8] == tmpBuf[..8];
      rc := ReadSize(n, data, pos, limit);
    }

    method ReadFlags()
      requires Placed() && next.FlagsReady? && toRead == 0 && readPos == 1
      modifies this`target, this`readPos, this`toRead, this`next, this`start, this`more, this`command
      ensures Valid() && old(View()).got != [] && Settle(old(View()), maxMsgSize) == Wants(View()) && target == tmpBuf
    {
      SpanIs(tmpBuf, 0, 1);
      var flags := tmpBuf[0];
      more := HasMore(flags);
      command := HasCommand(flags);
      if HasLarge(flags) {
        NextStep(tmpBuf, 0, 8, EightByteSizeReady);
      } else {
        NextStep(tmpBuf, 0, 1, OneByteSizeReady);
      }
    }

    /** What a return code says about what was fed: no message yet, one message, or an error. */
    ghost predicate Returns(rc: int, fed: Outcome)
      reads this, target, body
    {
      match rc
      case 0 => Valid() && fed == Outcome(View(), [], false)
      case 1 => Valid() && target == tmpBuf && bodyAt + bodySize <= body.Length
                && fed == Outcome(View(), [Message()], false)
      case _ => rc == -1 && fed.failed && fed.msgs == []
    }

    /** Runs steps until more bytes are needed, a message is complete, or an error. */
    method RunSteps(data: array<byte>, pos: nat, limit: nat) returns (rc: int)
      requires Complete() && (zeroCopy ==> data != tmpBuf) && pos <= limit <= data.Length && LaidOut(laid, pos)
      modifies this
      ensures old(View()).next.MessageReady? || old(View()).got != []
      ensures LaidOut(laid, limit) && (rc != -1 ==> Lays(data, pos))
      ensures !zeroCopy || old(next).MessageReady? ==> laid == old(laid)
      ensures Returns(rc, Came(Settle(old(View()), maxMsgSize)))
      ensures rc == 0 ==> target == tmpBuf || fresh(target) || InBuffer(data, pos, limit)
    {
      ghost var r := Settle(View(), maxMsgSize);
      while true
        invariant Complete() && Settle(View(), maxMsgSize) == r && LaidOut(laid, pos)
        invariant !zeroCopy || old(next).MessageReady? ==> laid == old(laid)
        invariant old(next).MessageReady? ==> next.MessageReady?
        decreases !next.MessageReady?
      {
        rc := OneStep(data, pos, limit);
        if rc != 0 || toRead > 0 {
          return;
        }
      }
    }

    /** Takes the step that is due. */
    method OneStep(data: array<byte>, pos: nat, limit: nat) returns (rc: int)
      requires Complete() && (zeroCopy ==> data != tmpBuf) && pos <= limit <= data.Length && LaidOut(laid, pos)
      modifies this
      ensures old(View()).next.MessageReady? || old(View()).got != []
      ensures LaidOut(laid, limit) && (rc != -1 ==> Lays(data, pos))
      ensures !zeroCopy || old(next).MessageReady? ==> laid == old(laid)
      ensures Settles(rc, Settle(old(View()), maxMsgSize))
      ensures rc == 0 && toRead == 0 ==> !old(next).MessageReady? && LaidOut(laid, pos)
      ensures rc == 0 ==> target == tmpBuf || fresh(target) || InBuffer(data, pos, limit)
    {
      match next
      case FlagsReady =>
        ReadFlags();
        rc := 0;
      case OneByteSizeReady => rc := TakeSize(tmpBuf[0], data, pos, limit);
      case EightByteSizeReady => rc := TakeSize(GetUint(tmpBuf[..8]), data, pos, limit);
      case MessageReady =>
        NextStep(tmpBuf, 0, 1, FlagsReady);
        rc := 1;
    }

    /** The message that was completed. */
    function Msg(): (msg: InMsg)
      requires bodyAt + bodySize <= body.Length
      reads this, body
      ensures msg == Message()
    {
      SpanIs(body, bodyAt, bodyAt + bodySize);
      InMsg(more, command, body[bodyAt..bodyAt + bodySize])
    }

    /** Where the next bytes are to be read to: where they belong if they fill the buffer, and how many fit. */
    method GetBuffer(buffer: array<byte>) returns (data: array<byte>, at: nat, n: nat)
      requires Valid() && buffer != tmpBuf && buffer != target && buffer.Length > 0
      ensures 0 < n && at + n <= data.Length
      ensures data == if toRead >= buffer.Length then target else buffer
      ensures data == target ==> at == readPos && n == toRead
      ensures data == buffer ==> at == 0 && n == buffer.Length
      ensures buffer.Length > 8 ==> data != tmpBuf
    {
      if toRead >= buffer.Length {
        return target, readPos, toRead;
      }
      return buffer, 0, buffer.Length;
    }

    /** Decodes a chunk up to the end of a message; the chunk may be in place already. */
    method Decode(data: array<byte>, off: nat, size: nat, limit: nat) returns (rc: int, used: nat)
      requires Valid() && off + size <= limit && Takes(data, off, limit) && (data == target ==> size <= toRead)
      requires Lays(data, off)
      modifies this, tmpBuf, if target == data then {} else {target}
      ensures LaidOut(laid, limit) && (rc != -1 ==> Lays(data, off + used))
      ensures data == old(target) ==> used == size && laid == old(laid)
      ensures used <= size && Returns(rc, Feed(old(View()), maxMsgSize, old(Span(data, off, off + size))[..used]))
      ensures (rc == 0 ==> used == size) && (rc == 1 ==> used > 0)
      ensures used < size ==> data != tmpBuf
      ensures rc == 0 ==> Kept(old(target)) || fresh(target) || InBuffer(data, off + size, limit)
    {
      used := 0;
      if data == target && off == readPos {
        used := size;
        ghost var chunk := Span(data, off, off + size);
        assert chunk[..size] == chunk;
        rc := Piece(data, off, size, limit);
        return;
      }
      rc, used := DecodeCopy(data, off, size, limit, Span(data, off, off + size));
    }

    ghost predicate Kept(was: array<byte>)
      reads this
    {
      target == was || target == tmpBuf
    }

    /** The chunk is elsewhere: it is taken piece by piece. */
    method DecodeCopy(data: array<byte>, off: nat, size: nat, limit: nat, ghost chunk: seq<byte>)
        returns (rc: int, used: nat)
      requires Valid() && data != tmpBuf && data != target && off + size <= limit <= data.Length
      requires chunk == Span(data, off, off + size) && LaidOut(laid, off)
      modifies this, target, tmpBuf
      ensures LaidOut(laid, limit) && (rc != -1 ==> Lays(data, off + used))
      ensures used <= size && Returns(rc, Feed(old(View()), maxMsgSize, chunk[..used]))
      ensures (rc == 0 ==> used == size) && (rc == 1 ==> used > 0)
      ensures rc == 0 ==> Kept(old(target)) || fresh(target) || InBuffer(data, off + size, limit)
    {
      used := 0;
      ghost var m := View();
      assert chunk[..0] == [];
      while used < size
        invariant used <= size && Valid()
        invariant Feed(m, maxMsgSize, chunk[..used]) == Outcome(View(), [], false)
        invariant Kept(old(target)) || fresh(target) || InBuffer(data, off + used, limit)
        invariant LaidOut(laid, limit) && Lays(data, off + used)
      {
        rc, used := Round(data, off, size, limit, used, m, chunk);
        if rc != 0 {
          return;
        }
      }
      rc := 0;
    }

    /** One round of the loop: as many bytes as the next step needs and the chunk has. */
    method Round(data: array<byte>, off: nat, size: nat, limit: nat, used: nat, ghost m: Machine,
                 ghost chunk: seq<byte>)
        returns (rc: int, now: nat)
      requires Valid() && off + size <= limit && used < size && Takes(data, off + used, limit) && data != tmpBuf
      requires chunk == Span(data, off, off + size) && Lays(data, off + used)
      requires Waiting(m) && Feed(m, maxMsgSize, chunk[..used]) == Outcome(View(), [], false)
      modifies this, if target == data then {} else {target}
      ensures used < now <= size && Returns(rc, Feed(m, maxMsgSize, chunk[..now]))
      ensures LaidOut(laid, limit) && (rc != -1 ==> Lays(data, off + now))
      ensures rc == 0 ==> Kept(old(target)) || fresh(target) || target == data
      ensures rc == 0 && target == data ==> InBuffer(data, off + now, limit)
    {
      var toCopy := if toRead < size - used then toRead else size - used;
      now := used + toCopy;
      ghost var piece := Span(data, off + used, off + now);
      assert Feed(m, maxMsgSize, chunk[..now]) == Feed(View(), maxMsgSize, piece) by {
        SpanOfSpan(data, off, size, used, now);
        FeedOn(m, maxMsgSize, chunk, used, now, View());
      }
      rc := Piece(data, off + used, toCopy, limit);
    }

    /** Takes bytes of what the next step needs, and runs the steps if that is all of it. */
    method Piece(data: array<byte>, from: nat, n: nat, limit: nat) returns (rc: int)
      requires Valid() && n <= toRead && from + n <= limit && Takes(data, from, limit) && Lays(data, from)
      modifies this, if target == data then {} else {target}
      ensures LaidOut(laid, limit) && (rc != -1 ==> Lays(data, from + n)) && (data == old(target) ==> laid == old(laid))
      ensures Returns(rc, Feed(old(View()), maxMsgSize, old(Span(data, from, from + n)))) && (rc == 1 ==> n > 0)
      ensures rc == 0 ==> Kept(old(target)) || fresh(target) || target == data
      ensures rc == 0 && target == data && data != tmpBuf ==> InBuffer(data, from + n, limit)
    {
      ghost var m, piece := View(), Span(data, from, from + n);
      Take(data, from, n);
      assert LaidOut(laid, if target == data && data != tmpBuf then readPos + toRead else from + n);
      if toRead == 0 {
        FeedCompletes(m, maxMsgSize, piece);
        rc := RunSteps(data, from + n, limit);
      } else {
        FeedCollects(m, maxMsgSize, piece);
        rc := 0;
      }
    }

    /** Takes n bytes to where they belong, unless they are there already. */
    method Take(data: array<byte>, from: nat, n: nat)
      requires Valid() && n <= toRead && from + n <= data.Length && (data == target ==> readPos == from)
      modifies this`readPos, this`toRead, if target == data then {} else {target}
      ensures Placed()
      ensures View() == old(View()).(got := old(View()).got + old(Span(data, from, from + n)),
                                     toRead := old(toRead) - n)
      ensures readPos == old(readPos) + n
    {
      if target != data {
        Copy(target, readPos, data, from, n, start);
        readPos, toRead := readPos + n, toRead - n;
      } else {
        Skip(n);
      }
    }

    /** The next n bytes are in place. */
    method Skip(n: nat)
      requires Valid() && n <= toRead
      modifies this`readPos, this`toRead
      ensures Placed()
      ensures View() == old(View()).(got := old(View()).got + old(Span(target, readPos, readPos + n)),
                                     toRead := old(toRead) - n)
      ensures readPos == old(readPos) + n
    {
      SpanJoin(target, start, readPos, readPos + n);
      readPos, toRead := readPos + n, toRead - n;
    }
  }
}
