/**
 * encoder_base_t of src/encoder.hpp driving the steps of src/v2_encoder.cpp.  A message is
 * written in batches of any size, copied into a buffer or handed out where it lies.
 */
module Encoder {
  import opened Common
  import opened Wire

  /** A message to be sent; its body stays where it is. */
  datatype Outgoing = Outgoing(more: bool, command: bool, kind: Kind, data: array<byte>)

  /** The step to take when all is written: the header of a message, or its body. */
  datatype Phase = WriteHeader | WriteBody

  class Encoder {
    const tmpBuf: array<byte>
    const buf: array<byte>
    var source: array<byte>
    var writePos: nat
    var toWrite: nat
    var next: Phase
    var newMsg: bool
    var inProgress: Option<Outgoing>
    // The frame of the message in progress, and how much of it was handed out.
    ghost var frame: seq<byte>
    ghost var done: nat

    ghost predicate Placed()
      reads this
    {
      && tmpBuf.Length == 10 && tmpBuf != buf
      && writePos + toWrite <= source.Length
      && (inProgress.None? ==> next.WriteHeader? && newMsg && toWrite == 0)
      && (inProgress.Some? ==>
            && inProgress.value.data != tmpBuf && inProgress.value.data != buf
            && (source == tmpBuf || source == inProgress.value.data)
            && newMsg == next.WriteHeader?
            && done + toWrite + (if newMsg then 0 else inProgress.value.data.Length) == |frame|)
    }

    /** The bytes that are ready, and those of the body if it is still to come, are the rest of the frame. */
    ghost predicate Valid()
      reads this, source, if inProgress.Some? then {inProgress.value.data} else {}
    {
      && Placed()
      && (inProgress.Some? ==>
            && Holds(source, writePos, frame, done, toWrite)
            && (!newMsg ==> Holds(inProgress.value.data, 0, frame, done + toWrite, inProgress.value.data.Length)))
    }

    constructor (bufSize: nat)
      ensures Valid() && inProgress.None? && buf.Length == bufSize && fresh(buf) && fresh(tmpBuf)
    {
      tmpBuf, buf := new byte[10], new byte[bufSize];
      source, writePos, toWrite, next, newMsg, inProgress := new byte[0], 0, 0, WriteHeader, true, None;
      frame, done := [], 0;
    }

    method NextStep(from: array<byte>, at: nat, n: nat, step: Phase, isNew: bool)
      modifies this`source, this`writePos, this`toWrite, this`next, this`newMsg
      ensures source == from && writePos == at && toWrite == n && next == step && newMsg == isNew
    {
      source, writePos, toWrite, next, newMsg := from, at, n, step, isNew;
    }

    /** Writes the header: flags, size and, for subscriptions, one more byte. */
    method PutHeader(m: Outgoing) returns (headerSize: nat)
      requires tmpBuf.Length == 10 && m.data.Length + 1 < TWO_TO_64 && m.data != tmpBuf
      modifies tmpBuf
      ensures headerSize <= 10 && tmpBuf[..headerSize] == Header(Value(m))
      ensures IsHeader(tmpBuf[..headerSize], m.more, m.command, m.kind, m.data.Length)
    {
      headerSize := PutFields(m.data.Length, m.more, m.command, m.kind, Value(m));
      HeaderIs(Value(m));
    }

    method PutFields(len: nat, more: bool, command: bool, kind: Kind, ghost x: OutMsg) returns (headerSize: nat)
      requires tmpBuf.Length == 10 && len + 1 < TWO_TO_64
      requires x.more == more && x.command == command && x.kind == kind && |x.body| == len
      modifies tmpBuf
      ensures headerSize <= 10 && tmpBuf[..headerSize] == Header(x)
    {
      var size := len;
      var flags := 0;
      if more { flags := flags + MORE_FLAG; }
      if len > UCHAR_MAX { flags := flags + LARGE_FLAG; }
      if command { flags := flags + COMMAND_FLAG; }
      tmpBuf[0] := flags;
      if kind.Subscribe? || kind.Cancel? {
        size := size + 1;
      }
      headerSize := PutSize(tmpBuf, size);
      headerSize := PutLead(tmpBuf, headerSize, kind);
    }

    /** Starts a message; the one before must be done. */
    method LoadMsg(m: Outgoing)
      requires Valid() && inProgress.None? && m.data.Length + 1 < TWO_TO_64 && m.data != tmpBuf && m.data != buf
      modifies this, tmpBuf
      ensures Valid() && inProgress == Some(m) && frame == Frame(Value(m)) && done == 0
    {
      inProgress := Some(m);
      var headerSize := PutHeader(m);
      FrameHolds(m, tmpBuf, headerSize);
      NextStep(tmpBuf, 0, headerSize, WriteBody, false);
      frame, done := Frame(Value(m)), 0;
    }

    /**
     * Hands out the next batch: in the given room, in the own buffer, or where the bytes lie.
     * Whatever the room, the batches are the consecutive pieces of the frame.
     */
    method Encode(data: array?<byte>, at: nat, size: nat) returns (out: array<byte>, from: nat, n: nat)
      requires Valid()
      requires data != null ==> data != tmpBuf && at + size <= data.Length
      requires data != null && inProgress.Some? ==> data != inProgress.value.data
      modifies this, if data == null then buf else data
      ensures Valid() && from + n <= out.Length && (inProgress.Some? ==> inProgress == old(inProgress))
      ensures old(inProgress).None? ==> n == 0
      ensures old(inProgress).Some? ==>
                frame == old(frame) && done == old(done) + n && Holds(out, from, frame, old(done), n)
      ensures old(inProgress).Some? && inProgress.None? ==> done == |frame|
      ensures n == 0 && Room(data, size) > 0 ==> inProgress.None?
      ensures inProgress.Some? ==> n >= Room(data, size)
      ensures data == null ==> (out == buf && from == 0) || n >= buf.Length
      ensures data != null ==> out == data && from == at && n <= size
      ensures data != null ==> forall i :: 0 <= i < at ==> data[i] == old(data[i])
    {
      var buffer := if data == null then buf else data;
      from := if data == null then 0 else at;
      var bufferSize := Room(data, size);
      out, n := buffer, 0;
      if inProgress.None? {
        return;
      }
      while n < bufferSize
        invariant n <= bufferSize && from + bufferSize <= buffer.Length && Valid() && inProgress == old(inProgress)
        invariant frame == old(frame) && done == old(done) + n && Holds(buffer, from, frame, old(done), n)
        invariant forall i :: 0 <= i < from ==> buffer[i] == old(buffer[i])
        decreases bufferSize - n, toWrite > 0 || !newMsg
      {
        if toWrite == 0 {
          if newMsg {
            inProgress := None;
            break;
          }
          ReadyBody();
        }
        if n == 0 && data == null && toWrite >= bufferSize {
          out, from, n := HandOut();
          return;
        }
        n := CopyOut(buffer, from, n, bufferSize);
      }
    }

    /** The size of the buffer that is used. */
    function Room(data: array?<byte>, size: nat): nat {
      if data == null then buf.Length else size
    }

    /** The header is written: the body is next. */
    method ReadyBody()
      requires Valid() && inProgress.Some? && toWrite == 0 && !newMsg
      modifies this`source, this`writePos, this`toWrite, this`next, this`newMsg
      ensures Valid() && newMsg
    {
      NextStep(inProgress.value.data, 0, inProgress.value.data.Length, WriteHeader, true);
    }

    /** All that is ready is handed out where it lies. */
    method HandOut() returns (out: array<byte>, from: nat, n: nat)
      requires Valid() && inProgress.Some?
      modifies this`writePos, this`toWrite, this`done
      ensures Valid() && from + n <= out.Length && n == old(toWrite) && toWrite == 0
      ensures done == old(done) + n && Holds(out, from, frame, old(done), n)
    {
      out, from, n := source, writePos, toWrite;
      writePos, toWrite, done := 0, 0, done + n;
    }

    /** Copies what there is and what there is room for. */
    method CopyOut(buffer: array<byte>, from: nat, n: nat, room: nat) returns (now: nat)
      requires Valid() && inProgress.Some? && n < room && from + room <= buffer.Length && n <= done
      requires buffer != tmpBuf && buffer != inProgress.value.data && Holds(buffer, from, frame, done - n, n)
      modifies this`writePos, this`toWrite, this`done, buffer
      ensures Valid() && n <= now <= room && (old(toWrite) > 0 ==> now > n) && (now < room ==> toWrite == 0)
      ensures done == old(done) + (now - n) && Holds(buffer, from, frame, done - now, now)
      ensures forall i :: 0 <= i < from ==> buffer[i] == old(buffer[i])
    {
      var toCopy := if toWrite < room - n then toWrite else room - n;
      HoldsDrop(source, writePos, frame, done, toWrite, toCopy);
      Fill(buffer, from, n, source, writePos, toCopy, frame, done - n);
      now, writePos, toWrite, done := n + toCopy, writePos + toCopy, toWrite - toCopy, done + toCopy;
    }
  }

  ghost predicate SameByte(a: array<byte>, at: nat, s: seq<byte>, pos: nat, j: nat)
    reads a
  {
    at + j < a.Length && pos + j < |s| && a[at + j] == s[pos + j]
  }

  /** n bytes from one position of an array on are those of s from another position on. */
  ghost predicate Holds(a: array<byte>, at: nat, s: seq<byte>, pos: nat, n: nat)
    reads a
  {
    && at + n <= a.Length && pos + n <= |s|
    && forall j {:trigger SameByte(a, at, s, pos, j)} :: 0 <= j < n ==> SameByte(a, at, s, pos, j)
  }

  lemma HoldsDrop(a: array<byte>, at: nat, s: seq<byte>, pos: nat, n: nat, k: nat)
    requires Holds(a, at, s, pos, n) && k <= n
    ensures Holds(a, at, s, pos, k) && Holds(a, at + k, s, pos + k, n - k)
  {
    var x, y := at + k, pos + k;
    forall j | 0 <= j < n - k ensures SameByte(a, x, s, y, j) {
      var i := k + j;
      assert SameByte(a, at, s, pos, i);
    }
  }

  /** Copies n bytes behind those that are there; they are the next ones of s. */
  method Fill(dst: array<byte>, lo: nat, had: nat, src: array<byte>, from: nat, n: nat, ghost s: seq<byte>,
              ghost pos: nat)
    requires dst != src && lo + had + n <= dst.Length && Holds(dst, lo, s, pos, had)
             && Holds(src, from, s, pos + had, n)
    modifies dst
    ensures Holds(dst, lo, s, pos, had + n) && forall i :: 0 <= i < lo ==> dst[i] == old(dst[i])
  {
    forall i | 0 <= i < n { dst[lo + had + i] := src[from + i]; }
    forall j | 0 <= j < had + n ensures SameByte(dst, lo, s, pos, j) {
      if j < had {
        assert old(SameByte(dst, lo, s, pos, j));
      } else {
        var i := j - had;
        assert old(SameByte(src, from, s, pos + had, i));
      }
    }
  }

  lemma FrameHolds(m: Outgoing, tmp: array<byte>, h: nat)
    requires m.data.Length + 1 < TWO_TO_64 && h <= tmp.Length && tmp[..h] == Header(Value(m))
    ensures |Frame(Value(m))| == h + m.data.Length
    ensures Holds(tmp, 0, Frame(Value(m)), 0, h) && Holds(m.data, 0, Frame(Value(m)), h, m.data.Length)
  {
    var head, body := Header(Value(m)), m.data[..];
    assert Frame(Value(m)) == head + body;
    assert forall i :: 0 <= i < h ==> (head + body)[i] == head[i] == tmp[i];
    assert forall i :: h <= i < h + |body| ==> (head + body)[i] == body[i - h] == m.data[i - h];
  }

  ghost function Value(m: Outgoing): OutMsg
    reads m.data
  {
    OutMsg(m.more, m.command, m.kind, m.data[..])
  }

  /** The byte that tells subscriptions from cancellations. */
  method PutLead(a: array<byte>, at: nat, kind: Kind) returns (end: nat)
    requires at < a.Length
    modifies a
    ensures end <= a.Length && a[..end] == old(a[..at]) + Lead(kind)
  {
    end := at;
    if kind.Subscribe? {
      a[at] := 1;
      end := at + 1;
    } else if kind.Cancel? {
      a[at] := 0;
      end := at + 1;
    }
  }

  /** The size in one byte or in eight; returns where it ends. */
  method PutSize(a: array<byte>, size: nat) returns (end: nat)
    requires a.Length == 10 && size < TWO_TO_64
    modifies a
    ensures end <= 9 && a[..end] == [old(a[0])] + if size > UCHAR_MAX then PutUint(size, 8) else [size]
  {
    if size > UCHAR_MAX {
      PutUint64(a, 1, size);
      end := 9;
      assert a[..9] == a[..1] + a[1..9];
    } else {
      a[1] := size;
      end := 2;
    }
  }

  method PutUint64(a: array<byte>, at: nat, n: nat)
    requires at + 8 <= a.Length && n < TWO_TO_64
    modifies a
    ensures a[at..at + 8] == PutUint(n, 8) && a[..at] == old(a[..at])
  {
    var bytes := PutUint(n, 8);
    forall i | 0 <= i < 8 { a[at + i] := bytes[i]; }
  }
}
