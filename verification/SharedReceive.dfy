/**
 * The decoder and the allocator of its receive buffers together: the bodies that the decoder makes
 * of the bytes of a buffer are messages that the allocator has room for.
 */
module SharedReceive {
  import opened Common
  import opened Wire
  import opened Decoder
  import opened StreamEngine
  import opened SharedBuffer

  lemma {:induction false} InTurnAt(laid: seq<Range>, i: nat)
    requires InTurn(laid) && i < |laid|
    ensures laid[i].size >= MAX_VSM_SIZE && LaidEnd(laid[..i]) <= laid[i].from
    ensures laid[i].from + laid[i].size == LaidEnd(laid[..i + 1]) <= LaidEnd(laid)
    decreases |laid|
  {
    var before := laid[..|laid| - 1];
    if i < |before| {
      InTurnAt(before, i);
      assert before[..i] == laid[..i] && before[..i + 1] == laid[..i + 1];
    } else {
      assert laid[..i] == before && laid[..i + 1] == laid;
    }
  }

  /** Message number first + i is the i-th body. */
  ghost predicate LiesAt(msgs: map<Id, Zc>, buf: Buf, laid: seq<Range>, first: Id, i: nat)
    requires i < |laid|
  {
    var id := first + i;
    id in msgs && msgs[id] == Zc(buf, laid[i].from, laid[i].size, i)
  }

  ghost predicate Lie(msgs: map<Id, Zc>, buf: Buf, laid: seq<Range>, first: Id, n: nat)
    requires n <= |laid|
  {
    && (forall i {:trigger LiesAt(msgs, buf, laid, first, i)} :: 0 <= i < n ==> LiesAt(msgs, buf, laid, first, i))
    && (forall id :: id in msgs ==> id < first + n)
  }

  /** Every body becomes a message: its slot exists, and it shares no bytes with another one. */
  method LayAll(alloc: Allocator, laid: seq<Range>, first: Id)
    requires alloc.Valid() && alloc.buf != NULL && alloc.used == 0 && alloc.msgContent == 0
    requires LaidOut(laid, alloc.bufSize) && (laid != [] ==> alloc.bufSize <= alloc.maxSize)
    requires forall id :: id in alloc.msgs ==> id < first
    modifies alloc`msgContent, alloc`msgs, alloc`used, alloc.mem`counters
    ensures alloc.Valid() && Lie(alloc.msgs, alloc.buf, laid, first, |laid|)
    ensures forall id :: id in old(alloc.msgs) ==> id in alloc.msgs && alloc.msgs[id] == old(alloc.msgs)[id]
  {
    var i := 0;
    assert laid[..0] == [];
    while i < |laid|
      invariant i <= |laid| && alloc.Valid() && alloc.used == LaidEnd(laid[..i]) && alloc.msgContent == i
      invariant Lie(alloc.msgs, alloc.buf, laid, first, i)
      invariant forall id :: id in old(alloc.msgs) ==> id in alloc.msgs && alloc.msgs[id] == old(alloc.msgs)[id]
    {
      InTurnAt(laid, i);
      ghost var before := alloc.msgs;
      var slot := alloc.NewMessage(first + i, laid[i].from, laid[i].size);
      forall j | 0 <= j < i + 1 ensures LiesAt(alloc.msgs, alloc.buf, laid, first, j) {
        if j < i { assert LiesAt(before, alloc.buf, laid, first, j); }
      }
      i := i + 1;
    }
  }

  /**
   * One event with shared buffers: a buffer that no message lies in is handed out, bytes are read
   * into it or where they belong, and the bodies made of its bytes become messages that hold it.
   */
  method ReceiveShared(d: Decoder, alloc: Allocator, buffer: array<byte>, arrived: seq<byte>, first: Id)
      returns (k: nat, msgs: seq<InMsg>, failed: bool)
    requires d.Valid() && Spare(d, buffer) && d.target != buffer && alloc.Valid() && buffer.Length == alloc.maxSize
    requires forall id :: id in alloc.msgs ==> id < first
    modifies d, d.tmpBuf, d.target, buffer, alloc, alloc.mem
    ensures k <= |arrived| && (k == 0 ==> arrived == []) && Heard(d, old(d.View()), arrived[..k], msgs, failed)
    ensures alloc.Valid() && alloc.buf != NULL && On(old(alloc.msgs), alloc.buf) == {}
    ensures Lie(alloc.msgs, alloc.buf, d.laid, first, |d.laid|)
    ensures forall id :: id in old(alloc.msgs) ==> id in alloc.msgs && alloc.msgs[id] == old(alloc.msgs)[id]
  {
    alloc.Allocate();
    k, msgs, failed := Receive(d, buffer, arrived);
    alloc.Resize(k);
    LayAll(alloc, d.laid, first);
  }
}
