/**
 * Runs of fq_t in which a message that was begun does not go on: the pipe is shut, the pipe
 * goes, or another pipe goes and misplaces it.
 */
module FairQueueFailures {
  import opened Common
  import opened Multipart
  import opened PipeArray
  import opened Ring
  import opened FairQueue
  import opened FairQueueRuns

  const HEAD := Part(0, 0, false)
  const TAIL := Part(0, 1, true)
  const SINGLE := Part(1, 0, true)

  /** A state in which no pipe was shut. */
  function At(ring: Ring, more: bool, lastIn: Option<Pipe>, queues: Queues, out: seq<Got>,
              sent: map<Pipe, seq<Part>>): State {
    State(Inbox(ring, more, lastIn), queues, out, sent, {})
  }

  // ----- One step each, on any state -----------------------------------------------------------------------

  lemma Attaches(s: State, p: Pipe, t: State)
    requires Sane(s) && p !in s.sent && s.v.ring.active == |s.v.ring.items|
    requires t == s.(v := s.v.(ring := s.v.ring.(items := s.v.ring.items + [p], active := s.v.ring.active + 1)),
                     queues := s.queues[p := []], sent := s.sent[p := []])
    ensures Steps(s, Attach(p), t)
  {
    var w := s.v.ring.items + [p];
    assert Swapped(w, |w| - 1, |w| - 1) == w;
  }

  lemma Delivers(s: State, p: Pipe, parts: seq<Part>, t: State)
    requires Sane(s) && p in s.queues && p !in s.shut && s.queues[p] == [] && s.sent[p] == []
    requires parts != [] && parts[0].part == 0 && Joined(parts)
    requires t == s.(queues := s.queues[p := parts], sent := s.sent[p := parts])
    ensures Steps(s, Deliver(p, parts), t)
  {
    assert s.queues[p] + parts == parts && s.sent[p] + parts == parts;
  }

  lemma Receives(s: State, p: Pipe, ring: Ring, t: State)
    requires Sane(s) && s.v.ring.active > 0 && Turn(s.v.ring) == p && p in s.queues && s.queues[p] != []
    requires ring == if s.queues[p][0].last then Advanced(s.v.ring) else s.v.ring
    requires t == s.(v := Inbox(ring, !s.queues[p][0].last, if s.queues[p][0].last then Some(p) else s.v.lastIn),
                     queues := s.queues[p := s.queues[p][1..]], out := s.out + [Got(p, s.queues[p][0])])
    ensures Steps(s, Recv, t)
  {
  }

  // ----- The pipe is shut -------------------------------------------------------------------------------------

  const R1 := Ring([10], 1, 0)
  const A1 := At(R1, false, None, map[10 := []], [], map[10 := []])
  const A2 := At(R1, false, None, map[10 := [HEAD, TAIL]], [], map[10 := [HEAD, TAIL]])
  const A3 := At(R1, true, None, map[10 := [TAIL]], [Got(10, HEAD)], map[10 := [HEAD, TAIL]])
  const A4 := A3.(queues := map[10 := []], shut := {10})

  lemma ReachA1()
    ensures Reachable(A1)
  {
    assert IsRun([START], []);
    assert [] + [10] == [10];
    Attaches(START, 10, A1);
    Onward(START, Attach(10), A1);
  }

  lemma ReachA2()
    ensures Reachable(A2)
  {
    ReachA1();
    Delivers(A1, 10, [HEAD, TAIL], A2);
    Onward(A1, Deliver(10, [HEAD, TAIL]), A2);
  }

  lemma ReachA3()
    ensures Reachable(A3)
  {
    ReachA2();
    assert [HEAD, TAIL][1..] == [TAIL] && [] + [Got(10, HEAD)] == [Got(10, HEAD)];
    Receives(A2, 10, R1, A3);
    Onward(A2, Recv, A3);
  }

  /** A run after which the next call fails the code's assertion. */
  lemma ShutAborts()
    ensures Reachable(A4) && Ok(A4.v.ring) && Aborts(A4, Recv)
  {
    ReachA3();
    assert Steps(A3, Shut(10), A4);
    Onward(A3, Shut(10), A4);
  }

  // ----- The pipe goes ----------------------------------------------------------------------------------------

  const R2 := Ring([10, 20], 2, 0)
  const B2 := At(R2, false, None, map[10 := [], 20 := []], [], map[10 := [], 20 := []])
  const B3 := At(R2, false, None, map[10 := [HEAD, TAIL], 20 := []], [], map[10 := [HEAD, TAIL], 20 := []])
  const B4 := At(R2, false, None, map[10 := [HEAD, TAIL], 20 := [SINGLE]], [], map[10 := [HEAD, TAIL], 20 := [SINGLE]])
  const B5 := At(R2, true, None, map[10 := [TAIL], 20 := [SINGLE]], [Got(10, HEAD)], B4.sent)
  const B6 := At(Ring([20], 1, 0), true, None, map[20 := [SINGLE]], [Got(10, HEAD)], B4.sent)
  const B7 := At(Ring([20], 1, 0), false, Some(20), map[20 := []], [Got(10, HEAD), Got(20, SINGLE)], B4.sent)

  lemma ReachB2()
    ensures Reachable(B2)
  {
    ReachA1();
    assert [10] + [20] == [10, 20];
    Attaches(A1, 20, B2);
    Onward(A1, Attach(20), B2);
  }

  lemma ReachB3()
    ensures Reachable(B3)
  {
    ReachB2();
    Delivers(B2, 10, [HEAD, TAIL], B3);
    Onward(B2, Deliver(10, [HEAD, TAIL]), B3);
  }

  lemma ReachB4()
    ensures Reachable(B4)
  {
    ReachB3();
    Delivers(B3, 20, [SINGLE], B4);
    Onward(B3, Deliver(20, [SINGLE]), B4);
  }

  lemma ReachB5()
    ensures Reachable(B5)
  {
    ReachB4();
    assert [HEAD, TAIL][1..] == [TAIL] && [] + [Got(10, HEAD)] == [Got(10, HEAD)];
    Receives(B4, 10, R2, B5);
    Onward(B4, Recv, B5);
  }

  lemma ReachB6()
    ensures Reachable(B6)
  {
    ReachB5();
    assert Swapped([10, 20], 0, 1) == [20, 10];
    assert Erased([20, 10], 1) == [20];
    assert B5.queues - {10} == B6.queues;
    assert Steps(B5, Terminate(0), B6);
    Onward(B5, Terminate(0), B6);
  }

  /** A run in which the first part of one message is followed by another message. */
  lemma GoneMixes()
    ensures Reachable(B7) && !Stream(B7.out)
  {
    ReachB6();
    assert [SINGLE][1..] == [] && [Got(10, HEAD)] + [Got(20, SINGLE)] == [Got(10, HEAD), Got(20, SINGLE)];
    Receives(B6, 20, Ring([20], 1, 0), B7);
    Onward(B6, Recv, B7);
    assert !StreamAt(B7.out, 1);
  }

  // ----- Another pipe goes ------------------------------------------------------------------------------------

  const OTHER := Part(2, 0, true)
  const R3 := Ring([10, 20, 30], 3, 0)
  const SENT1 := map[10 := [SINGLE], 20 := [], 30 := []]
  const SENT2 := map[10 := [SINGLE], 20 := [OTHER], 30 := []]
  const SENT3 := map[10 := [SINGLE], 20 := [OTHER], 30 := [HEAD, TAIL]]
  const C3 := At(R3, false, None, map[10 := [], 20 := [], 30 := []], [], map[10 := [], 20 := [], 30 := []])
  const C4 := At(R3, false, None, SENT1, [], SENT1)
  const C5 := At(R3, false, None, SENT2, [], SENT2)
  const C6 := At(R3, false, None, SENT3, [], SENT3)
  const C7 := At(R3.(current := 1), false, Some(10), map[10 := [], 20 := [OTHER], 30 := [HEAD, TAIL]],
                 [Got(10, SINGLE)], SENT3)
  const C8 := At(R3.(current := 2), false, Some(20), map[10 := [], 20 := [], 30 := [HEAD, TAIL]],
                 [Got(10, SINGLE), Got(20, OTHER)], SENT3)
  const C9 := At(R3.(current := 2), true, Some(20), map[10 := [], 20 := [], 30 := [TAIL]],
                 [Got(10, SINGLE), Got(20, OTHER), Got(30, HEAD)], SENT3)
  const C10 := C9.(v := Inbox(Ring([10, 30], 2, 0), true, None), queues := map[10 := [], 30 := [TAIL]])

  lemma ReachC3()
    ensures Reachable(C3)
  {
    ReachB2();
    assert [10, 20] + [30] == [10, 20, 30];
    Attaches(B2, 30, C3);
    Onward(B2, Attach(30), C3);
  }

  lemma ReachC4()
    ensures Reachable(C4)
  {
    ReachC3();
    Delivers(C3, 10, [SINGLE], C4);
    Onward(C3, Deliver(10, [SINGLE]), C4);
  }

  lemma ReachC5()
    ensures Reachable(C5)
  {
    ReachC4();
    Delivers(C4, 20, [OTHER], C5);
    Onward(C4, Deliver(20, [OTHER]), C5);
  }

  lemma ReachC6()
    ensures Reachable(C6)
  {
    ReachC5();
    Delivers(C5, 30, [HEAD, TAIL], C6);
    Onward(C5, Deliver(30, [HEAD, TAIL]), C6);
  }

  lemma ReachC7()
    ensures Reachable(C7)
  {
    ReachC6();
    assert [SINGLE][1..] == [] && [] + [Got(10, SINGLE)] == [Got(10, SINGLE)];
    Receives(C6, 10, R3.(current := 1), C7);
    Onward(C6, Recv, C7);
  }

  lemma ReachC8()
    ensures Reachable(C8)
  {
    ReachC7();
    StepC8();
    Onward(C7, Recv, C8);
  }

  lemma StepC8()
    ensures Steps(C7, Recv, C8)
  {
    var q := C7.queues;
    assert [OTHER][1..] == [] && [Got(10, SINGLE)] + [Got(20, OTHER)] == [Got(10, SINGLE), Got(20, OTHER)];
    assert q[20] == [OTHER] && q[20 := q[20][1..]] == C8.queues;
    Receives(C7, 20, R3.(current := 2), C8);
  }

  lemma ReachC9()
    ensures Reachable(C9)
  {
    ReachC8();
    assert [HEAD, TAIL][1..] == [TAIL];
    assert [Got(10, SINGLE), Got(20, OTHER)] + [Got(30, HEAD)] == [Got(10, SINGLE), Got(20, OTHER), Got(30, HEAD)];
    Receives(C8, 30, R3.(current := 2), C9);
    Onward(C8, Recv, C9);
  }

  lemma ReachC10()
    ensures Reachable(C10)
  {
    ReachC9();
    assert Swapped([10, 20, 30], 1, 2) == [10, 30, 20];
    assert Erased([10, 30, 20], 2) == [10, 30];
    assert C9.queues - {20} == C10.queues;
    assert Steps(C9, Terminate(1), C10);
    Onward(C9, Terminate(1), C10);
  }

  /** A run after which the next part is there, but the turn is with another pipe and the call fails the assertion. */
  lemma MisplacedAborts()
    ensures Reachable(C10) && Ok(C10.v.ring) && Aborts(C10, Recv)
    ensures 30 in Readable(C10.queues) && Active(C10.v.ring, 30)
  {
    ReachC10();
    assert C10.v.ring.items[1] == 30;
  }
}
