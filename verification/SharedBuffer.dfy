/**
 * shared_message_memory_allocator of src/decoder_allocators.cpp: receive buffers whose
 * bytes become message bodies.  A counter in front of each buffer tells how many hold it;
 * whoever lets go last frees it, on whatever thread.
 */
module SharedBuffer {
  import opened Common

  /** The address of a buffer; 0 is NULL. */
  type Buf = nat
  const NULL: Buf := 0

  type Id = nat

  /** A zero-copy message: the buffer that is its hint, its bytes there, and its slot for the content. */
  datatype Zc = Zc(buf: Buf, from: nat, size: nat, slot: nat)

  /** The messages that lie in a buffer and were not released yet. */
  ghost function On(msgs: map<Id, Zc>, b: Buf): set<Id> {
    set id | id in msgs && msgs[id].buf == b
  }

  lemma OnMore(msgs: map<Id, Zc>, id: Id, m: Zc, b: Buf)
    requires id !in msgs
    ensures |On(msgs[id := m], b)| == |On(msgs, b)| + Bit(m.buf == b)
  {
    if m.buf == b { assert On(msgs[id := m], b) == On(msgs, b) + {id}; }
    else { assert On(msgs[id := m], b) == On(msgs, b); }
  }

  lemma OnLess(msgs: map<Id, Zc>, id: Id, b: Buf)
    requires id in msgs
    ensures |On(msgs, b)| == |On(msgs - {id}, b)| + Bit(msgs[id].buf == b)
  {
    if msgs[id].buf == b { assert On(msgs, b) == On(msgs - {id}, b) + {id}; }
    else { assert On(msgs, b) == On(msgs - {id}, b); }
  }

  /** The counter is one for the allocator, if it holds the buffer, and one for each message. */
  ghost predicate CountAt(counters: map<Buf, nat>, buf: Buf, msgs: map<Id, Zc>, b: Buf) {
    b in counters ==> b != NULL && counters[b] == Bit(buf == b) + |On(msgs, b)| && counters[b] > 0
  }

  ghost predicate Counted(counters: map<Buf, nat>, buf: Buf, msgs: map<Id, Zc>) {
    && (buf != NULL ==> buf in counters)
    && (forall id :: id in msgs ==> msgs[id].buf in counters)
    && (forall b {:trigger CountAt(counters, buf, msgs, b)} :: CountAt(counters, buf, msgs, b))
  }

  ghost predicate ApartAt(msgs: map<Id, Zc>, i: Id, j: Id) {
    i in msgs && j in msgs && i != j && msgs[i].buf == msgs[j].buf ==>
      && msgs[i].slot != msgs[j].slot
      && (msgs[i].from + msgs[i].size <= msgs[j].from || msgs[j].from + msgs[j].size <= msgs[i].from)
  }

  ghost predicate BoundedAt(msgs: map<Id, Zc>, buf: Buf, maxSize: nat, maxCounters: nat, used: nat, content: nat,
                            id: Id) {
    id in msgs ==>
      && msgs[id].from + msgs[id].size <= maxSize && msgs[id].slot < maxCounters
      && (msgs[id].buf == buf ==> msgs[id].from + msgs[id].size <= used && msgs[id].slot < content)
  }

  /** Messages neither share bytes nor slots, and those in the current buffer are in its used part. */
  ghost predicate Laid(msgs: map<Id, Zc>, buf: Buf, maxSize: nat, maxCounters: nat, used: nat, content: nat) {
    && (forall i, j {:trigger ApartAt(msgs, i, j)} :: ApartAt(msgs, i, j))
    && (forall id {:trigger BoundedAt(msgs, buf, maxSize, maxCounters, used, content, id)} ::
          BoundedAt(msgs, buf, maxSize, maxCounters, used, content, id))
  }

  // ----- What letting go and taking hold do to the counts ------------------------------------------------

  /** The allocator lets go of a buffer that messages still hold. */
  lemma LetGo(counters: map<Buf, nat>, buf: Buf, msgs: map<Id, Zc>)
    requires Counted(counters, buf, msgs) && buf != NULL && counters[buf] > 1
    ensures Counted(counters[buf := counters[buf] - 1], NULL, msgs)
  {
    var now := counters[buf := counters[buf] - 1];
    assert CountAt(counters, buf, msgs, buf);
    forall b ensures CountAt(now, NULL, msgs, b) { assert CountAt(counters, buf, msgs, b); }
  }

  /** The allocator lets go of a buffer that nobody else holds, and it is freed. */
  lemma LetGoLast(counters: map<Buf, nat>, buf: Buf, msgs: map<Id, Zc>)
    requires Counted(counters, buf, msgs) && buf != NULL && counters[buf] == 1
    ensures On(msgs, buf) == {} && Counted(counters - {buf}, NULL, msgs)
  {
    assert CountAt(counters, buf, msgs, buf);
    assert forall id :: id in msgs && msgs[id].buf == buf ==> id in On(msgs, buf);
    forall b ensures CountAt(counters - {buf}, NULL, msgs, b) { assert CountAt(counters, buf, msgs, b); }
  }

  lemma TakeHold(counters: map<Buf, nat>, msgs: map<Id, Zc>, b: Buf)
    requires Counted(counters, NULL, msgs) && b !in counters && b != NULL
    ensures Counted(counters[b := 1], b, msgs) && On(msgs, b) == {}
  {
    assert On(msgs, b) == {};
    var now := counters[b := 1];
    forall c ensures CountAt(now, b, msgs, c) { assert CountAt(counters, NULL, msgs, c); }
  }

  lemma MessageHolds(counters: map<Buf, nat>, buf: Buf, msgs: map<Id, Zc>, id: Id, m: Zc)
    requires Counted(counters, buf, msgs) && id !in msgs && m.buf == buf && buf != NULL
    ensures Counted(counters[buf := counters[buf] + 1], buf, msgs[id := m])
  {
    var now, more := counters[buf := counters[buf] + 1], msgs[id := m];
    forall b ensures CountAt(now, buf, more, b) {
      assert CountAt(counters, buf, msgs, b);
      OnMore(msgs, id, m, b);
    }
  }

  /** What a message that goes leaves of the counts; its buffer goes with it if nobody else holds it. */
  function Dropped(counters: map<Buf, nat>, b: Buf): map<Buf, nat>
    requires b in counters && counters[b] > 0
  {
    if counters[b] > 1 then counters[b := counters[b] - 1] else counters - {b}
  }

  lemma MessageGoes(counters: map<Buf, nat>, buf: Buf, msgs: map<Id, Zc>, id: Id)
    requires Counted(counters, buf, msgs) && id in msgs
    ensures var b := msgs[id].buf;
            && counters[b] > 0 && Counted(Dropped(counters, b), buf, msgs - {id})
            && (b in Dropped(counters, b) <==> buf == b || On(msgs - {id}, b) != {})
  {
    var b := msgs[id].buf;
    assert CountAt(counters, buf, msgs, b);
    OnLess(msgs, id, b);
    if counters[b] == 1 {
      forall k | k in msgs - {id} ensures msgs[k].buf != b { assert k in On(msgs - {id}, b) <==> msgs[k].buf == b; }
    }
    forall c ensures CountAt(Dropped(counters, b), buf, msgs - {id}, c) {
      assert CountAt(counters, buf, msgs, c);
      OnLess(msgs, id, c);
    }
  }

  lemma NoneOnNull(counters: map<Buf, nat>, buf: Buf, msgs: map<Id, Zc>)
    requires Counted(counters, buf, msgs)
    ensures On(msgs, NULL) == {}
  {
    forall id | id in msgs ensures msgs[id].buf != NULL { assert CountAt(counters, buf, msgs, msgs[id].buf); }
  }

  lemma LaidFresh(msgs: map<Id, Zc>, buf: Buf, maxSize: nat, maxCounters: nat, used: nat, content: nat, b: Buf)
    requires Laid(msgs, buf, maxSize, maxCounters, used, content) && On(msgs, b) == {}
    ensures Laid(msgs, b, maxSize, maxCounters, 0, 0)
  {
    forall id ensures BoundedAt(msgs, b, maxSize, maxCounters, 0, 0, id) {
      assert BoundedAt(msgs, buf, maxSize, maxCounters, used, content, id);
      assert id in On(msgs, b) <==> id in msgs && msgs[id].buf == b;
    }
  }

  lemma LaidMore(msgs: map<Id, Zc>, buf: Buf, maxSize: nat, maxCounters: nat, used: nat, content: nat, id: Id, m: Zc)
    requires Laid(msgs, buf, maxSize, maxCounters, used, content) && id !in msgs
    requires m.buf == buf && used <= m.from && m.from + m.size <= maxSize && m.slot == content < maxCounters
    ensures Laid(msgs[id := m], buf, maxSize, maxCounters, m.from + m.size, content + 1)
  {
    var now := msgs[id := m];
    forall i, j ensures ApartAt(now, i, j) {
      assert ApartAt(msgs, i, j);
      assert BoundedAt(msgs, buf, maxSize, maxCounters, used, content, i)
             && BoundedAt(msgs, buf, maxSize, maxCounters, used, content, j);
    }
    var end, next := m.from + m.size, content + 1;
    forall i ensures BoundedAt(now, buf, maxSize, maxCounters, end, next, i) {
      assert BoundedAt(msgs, buf, maxSize, maxCounters, used, content, i);
    }
  }

  lemma LaidLess(msgs: map<Id, Zc>, buf: Buf, maxSize: nat, maxCounters: nat, used: nat, content: nat, id: Id)
    requires Laid(msgs, buf, maxSize, maxCounters, used, content)
    ensures Laid(msgs - {id}, buf, maxSize, maxCounters, used, content)
  {
    forall i, j ensures ApartAt(msgs - {id}, i, j) { assert ApartAt(msgs, i, j); }
    forall i ensures BoundedAt(msgs - {id}, buf, maxSize, maxCounters, used, content, i) {
      assert BoundedAt(msgs, buf, maxSize, maxCounters, used, content, i);
    }
  }

  /** Messages that are not small and do not share bytes never need more slots than there are. */
  lemma SlotIsThere(maxSize: nat, used: nat, content: nat, from: nat, size: nat)
    requires MAX_VSM_SIZE * content <= used <= from && from + size <= maxSize && size >= MAX_VSM_SIZE
    ensures content < (maxSize + MAX_VSM_SIZE - 1) / MAX_VSM_SIZE && MAX_VSM_SIZE * (content + 1) <= from + size
  {
  }

  /** Memory: the buffers that are allocated, each with its counter. */
  class Memory {
    var counters: map<Buf, nat>
    var next: Buf

    ghost predicate Valid()
      reads this
    {
      next > NULL && forall b :: b in counters ==> b < next
    }

    constructor ()
      ensures Valid() && counters == map[]
    {
      counters, next := map[], 1;
    }

    method Malloc() returns (b: Buf)
      requires Valid()
      modifies this
      ensures Valid() && b != NULL && b !in old(counters) && counters == old(counters)[b := 1]
    {
      b := next;
      next := next + 1;
      counters := counters[b := 1];
    }

    /** Only memory that is allocated can be freed. */
    method Free(b: Buf)
      requires Valid() && b in counters
      modifies this`counters
      ensures Valid() && counters == old(counters) - {b}
    {
      counters := counters - {b};
    }

    method Set(b: Buf)
      requires Valid() && b in counters
      modifies this`counters
      ensures Valid() && counters == old(counters)[b := 1]
    {
      counters := counters[b := 1];
    }

    /** Takes one from a counter; tells whether anything is left. */
    method Sub(b: Buf) returns (left: bool)
      requires Valid() && b in counters && counters[b] > 0
      modifies this`counters
      ensures Valid() && counters == old(counters)[b := old(counters)[b] - 1] && (left <==> old(counters)[b] > 1)
    {
      counters := counters[b := counters[b] - 1];
      left := counters[b] != 0;
    }
  }

  class Allocator {
    const mem: Memory
    const maxSize: nat
    const maxCounters: nat
    var buf: Buf
    var bufSize: nat
    // Which slot for the content of a message is next.
    var msgContent: nat
    ghost var msgs: map<Id, Zc>
    // How far the current buffer is taken by messages.
    ghost var used: nat

    ghost predicate Valid()
      reads this, mem
    {
      && mem.Valid() && maxCounters == (maxSize + MAX_VSM_SIZE - 1) / MAX_VSM_SIZE
      && Counted(mem.counters, buf, msgs) && Laid(msgs, buf, maxSize, maxCounters, used, msgContent)
      && MAX_VSM_SIZE * msgContent <= used <= maxSize
    }

    constructor (bufSize: nat)
      ensures Valid() && fresh(mem) && buf == NULL && msgs == map[] && maxSize == bufSize
    {
      mem := new Memory();
      maxSize, maxCounters := bufSize, (bufSize + MAX_VSM_SIZE - 1) / MAX_VSM_SIZE;
      buf, this.bufSize, msgContent, msgs, used := NULL, 0, 0, map[], 0;
    }

    method Clear()
      modifies this`buf, this`bufSize, this`msgContent
      ensures buf == NULL && bufSize == 0 && msgContent == 0
    {
      buf, bufSize, msgContent := NULL, 0, 0;
    }

    /**
     * Hands out a buffer that no message lies in: the one it has, if all messages in it are
     * gone, or a new one; the old one is then left to its messages.
     */
    method Allocate()
      requires Valid()
      modifies this, mem
      ensures Valid() && msgs == old(msgs) && buf != NULL && On(msgs, buf) == {} && used == 0 && msgContent == 0
              && bufSize == maxSize
      ensures if old(buf) != NULL && On(msgs, old(buf)) == {} then buf == old(buf) else buf !in old(mem.counters)
      ensures old(mem.counters.Keys) <= mem.counters.Keys
    {
      forall b | On(msgs, b) == {} ensures Laid(msgs, b, maxSize, maxCounters, 0, 0) {
        LaidFresh(msgs, buf, maxSize, maxCounters, used, msgContent, b);
      }
      if buf != NULL {
        assert CountAt(mem.counters, buf, msgs, buf);
        ghost var c := mem.counters;
        var left := mem.Sub(buf);
        if left {
          LetGo(c, buf, msgs);
          Clear();
        } else {
          LetGoLast(c, buf, msgs);
        }
      }
      if buf == NULL {
        ghost var c := mem.counters;
        buf := mem.Malloc();
        TakeHold(c, msgs, buf);
        assert On(msgs, buf) == {};
      } else {
        mem.Set(buf);
        assert mem.counters == old(mem.counters);
      }
      bufSize, msgContent, used := maxSize, 0, 0;
    }

    /** Only so many bytes were received, or more if they went where they belong. */
    method Resize(n: nat)
      requires Valid()
      modifies this`bufSize
      ensures Valid() && bufSize == n
    {
      bufSize := n;
    }

    /** Gives up the buffer; it is freed if no message lies in it. */
    method Deallocate()
      requires Valid()
      modifies this, mem
      ensures Valid() && buf == NULL && msgs == old(msgs)
      ensures forall b :: b in mem.counters <==> b in old(mem.counters) && (b == old(buf) ==> On(msgs, b) != {})
    {
      NoneOnNull(mem.counters, buf, msgs);
      LaidFresh(msgs, buf, maxSize, maxCounters, used, msgContent, NULL);
      if buf != NULL {
        assert CountAt(mem.counters, buf, msgs, buf);
        ghost var c := mem.counters;
        var left := mem.Sub(buf);
        if !left {
          LetGoLast(c, buf, msgs);
          mem.Free(buf);
          assert mem.counters == c - {buf};
        } else {
          LetGo(c, buf, msgs);
        }
      }
      used := 0;
      Clear();
    }

    /** A message of bytes in the buffer that no other message has; returns its slot, which is always there. */
    method NewMessage(id: Id, from: nat, size: nat) returns (slot: nat)
      requires Valid() && buf != NULL && id !in msgs
      requires size >= MAX_VSM_SIZE && used <= from && from + size <= bufSize <= maxSize
      modifies this`msgContent, this`msgs, this`used, mem`counters
      ensures Valid() && slot == old(msgContent) < maxCounters && msgContent == slot + 1 && used == from + size
      ensures msgs == old(msgs)[id := Zc(buf, from, size, slot)]
              && mem.counters == old(mem.counters)[buf := old(mem.counters)[buf] + 1]
    {
      SlotIsThere(maxSize, used, msgContent, from, size);
      slot := msgContent;
      ghost var m := Zc(buf, from, size, slot);
      LaidMore(msgs, buf, maxSize, maxCounters, used, msgContent, id, m);
      MessageHolds(mem.counters, buf, msgs, id, m);
      msgContent := msgContent + 1;
      IncRef();
      msgs, used := msgs[id := m], from + size;
    }

    method IncRef()
      requires buf in mem.counters
      modifies mem`counters
      ensures mem.counters == old(mem.counters)[buf := old(mem.counters)[buf] + 1]
    {
      mem.counters := mem.counters[buf := mem.counters[buf] + 1];
    }

    /** The last handle of a message is closed: its buffer is freed exactly if nobody holds it any more. */
    method CallDecRef(id: Id, hint: Buf)
      requires Valid() && id in msgs && hint == msgs[id].buf
      modifies this`msgs, mem
      ensures Valid() && msgs == old(msgs) - {id}
      ensures forall b :: b in mem.counters <==> b in old(mem.counters) && (b == hint ==> buf == b || On(msgs, b) != {})
    {
      MessageGoes(mem.counters, buf, msgs, id);
      LaidLess(msgs, buf, maxSize, maxCounters, used, msgContent, id);
      ghost var c := mem.counters;
      var left := mem.Sub(hint);
      if !left {
        mem.Free(hint);
        assert mem.counters == c - {hint};
      }
      assert mem.counters == Dropped(c, hint);
      msgs := msgs - {id};
    }
  }
}
