/**
 * Runs of lb_t in which a pipe is given a later part of a message without the parts before it: a
 * last part that was refused is repeated, or the pipe being written to is misplaced; and one in
 * which a pipe is activated that is active already, so that a swap is out of bounds.
 */
module LoadBalancerFailures {
  import opened Multipart
  import opened PipeArray
  import opened Ring
  import opened LoadBalancer
  import opened LoadBalancerRuns

  const ALL := {10, 20, 30}

  function At(ring: Ring, more: bool, given: map<Pipe, seq<Part>>, msg: nat, part: nat): State {
    State(Balance(ring, more, false), given, msg, part)
  }

  // ----- One step each, on any state -----------------------------------------------------------------------

  lemma Attaches(s: State, p: Pipe, t: State)
    requires Sane(s) && p !in s.given && s.v.ring.active == |s.v.ring.items|
    requires t == s.(v := s.v.(ring := s.v.ring.(items := s.v.ring.items + [p], active := s.v.ring.active + 1)),
                     given := s.given[p := []])
    ensures Steps(s, Attach(p), t)
  {
    var w := s.v.ring.items + [p];
    assert Swapped(w, |w| - 1, |w| - 1) == w;
  }

  lemma Writes(s: State, room: set<Pipe>, p: Pipe, last: bool, ring: Ring, t: State)
    requires Sane(s) && !s.v.dropping && s.v.ring.active > 0 && Turn(s.v.ring) == p && p in room
    requires ring == if last then Advanced(s.v.ring) else s.v.ring
    requires t == Next(s, last).(v := Balance(ring, !last, false),
                                 given := s.given[p := s.given[p] + [Part(s.msg, s.part, last)]])
    ensures Steps(s, Send(room, last, false), t)
  {
  }

  // ----- A last part is repeated -------------------------------------------------------------------------------

  const R2 := Ring([10, 20], 2, 0)
  const L1 := At(Ring([10], 1, 0), false, map[10 := []], 0, 0)
  const L2 := At(R2, false, map[10 := [], 20 := []], 0, 0)
  const L3 := At(R2, true, map[10 := [Part(0, 0, false)], 20 := []], 0, 1)
  const L4 := At(R2, false, map[10 := [], 20 := []], 0, 1)
  const L5 := At(Ring([20, 10], 1, 0), false, map[10 := [], 20 := [Part(0, 1, true)]], 1, 0)

  lemma ReachL1()
    ensures Reachable(L1)
  {
    assert IsRun([START], []);
    assert [] + [10] == [10];
    Attaches(START, 10, L1);
    Onward(START, Attach(10), L1);
  }

  lemma ReachL2()
    ensures Reachable(L2)
  {
    ReachL1();
    assert [10] + [20] == [10, 20];
    Attaches(L1, 20, L2);
    Onward(L1, Attach(20), L2);
  }

  lemma ReachL3()
    ensures Reachable(L3)
  {
    ReachL2();
    assert [] + [Part(0, 0, false)] == [Part(0, 0, false)];
    Writes(L2, ALL, 10, false, R2, L3);
    Onward(L2, Send(ALL, false, false), L3);
  }

  /** The second part finds no room: the first is taken back, and the caller keeps the second. */
  lemma ReachL4()
    ensures Reachable(L4)
  {
    ReachL3();
    assert Fate(L3.v, {20}) == RolledBack(10);
    assert [Part(0, 0, false)][..0] == [] && Rollback([Part(0, 0, false)]) == [];
    assert L3.given[10 := []] == L4.given;
    assert Steps(L3, Send({20}, true, true), L4);
    Onward(L3, Send({20}, true, true), L4);
  }

  lemma SecondTaken()
    ensures Ok(R2) && Seek(R2, {20}) == Ring([20, 10], 1, 0)
  {
    assert Deactivated(R2).items == [20, 10];
  }

  /** A run in which the other pipe holds nothing but the tail of a message. */
  lemma RepeatedTailIsAlone()
    ensures Reachable(L5) && !Whole(L5.given[20], false)
  {
    ReachL4();
    SecondTaken();
    assert [] + [Part(0, 1, true)] == [Part(0, 1, true)];
    assert L4.given[20 := [Part(0, 1, true)]] == L5.given;
    assert Steps(L4, Send({20}, true, true), L5);
    Onward(L4, Send({20}, true, true), L5);
    assert !JoinsAt(L5.given[20], 0);
  }

  // ----- A pipe is activated that is active --------------------------------------------------------------------

  const R1 := Ring([10], 1, 0)
  const K2 := At(R1, true, map[10 := [Part(0, 0, false)]], 0, 1)
  const K3 := State(Balance(R1, false, true), map[10 := []], 0, 2)

  lemma ReachK2()
    ensures Reachable(K2)
  {
    ReachL1();
    assert [] + [Part(0, 0, false)] == [Part(0, 0, false)];
    Writes(L1, ALL, 10, false, R1, K2);
    Onward(L1, Send(ALL, false, false), K2);
  }

  /**
   * A run in which the pipe refuses the second part, though it stays among the active ones.  When it
   * has room again and is activated, the swap is out of bounds.
   */
  lemma ActiveIsActivated()
    ensures Reachable(K3) && Active(K3.v.ring, 10) && Allowed(K3, Activate(0)) && OutOfBounds(K3, Activate(0))
  {
    ReachK2();
    assert Fate(K2.v, {}) == RolledBack(10);
    assert [Part(0, 0, false)][..0] == [] && Rollback([Part(0, 0, false)]) == [];
    assert K2.given[10 := []] == K3.given;
    assert Steps(K2, Send({}, false, false), K3);
    Onward(K2, Send({}, false, false), K3);
    assert R1.items[0] == 10;
  }

  // ----- Another pipe goes ------------------------------------------------------------------------------------

  const R3 := Ring([10, 20, 30], 3, 0)
  const GIVEN1 := map[10 := [Part(0, 0, true)], 20 := [], 30 := []]
  const GIVEN2 := map[10 := [Part(0, 0, true)], 20 := [Part(1, 0, true)], 30 := []]
  const GIVEN3 := map[10 := [Part(0, 0, true)], 20 := [Part(1, 0, true)], 30 := [Part(2, 0, false)]]
  const M3 := At(R3, false, map[10 := [], 20 := [], 30 := []], 0, 0)
  const M4 := At(R3.(current := 1), false, GIVEN1, 1, 0)
  const M5 := At(R3.(current := 2), false, GIVEN2, 2, 0)
  const M6 := At(R3.(current := 2), true, GIVEN3, 2, 1)
  const M7 := At(Ring([10, 30], 2, 0), true, GIVEN3, 2, 1)
  const M8 := At(Ring([10, 30], 2, 1), false, GIVEN3[10 := [Part(0, 0, true), Part(2, 1, true)]], 3, 0)

  lemma ReachM3()
    ensures Reachable(M3)
  {
    ReachL2();
    assert [10, 20] + [30] == [10, 20, 30];
    Attaches(L2, 30, M3);
    Onward(L2, Attach(30), M3);
  }

  lemma ReachM4()
    ensures Reachable(M4)
  {
    ReachM3();
    assert [] + [Part(0, 0, true)] == [Part(0, 0, true)];
    Writes(M3, ALL, 10, true, R3.(current := 1), M4);
    Onward(M3, Send(ALL, true, false), M4);
  }

  lemma ReachM5()
    ensures Reachable(M5)
  {
    ReachM4();
    assert [] + [Part(1, 0, true)] == [Part(1, 0, true)];
    Writes(M4, ALL, 20, true, R3.(current := 2), M5);
    Onward(M4, Send(ALL, true, false), M5);
  }

  lemma ReachM6()
    ensures Reachable(M6)
  {
    ReachM5();
    assert [] + [Part(2, 0, false)] == [Part(2, 0, false)];
    Writes(M5, ALL, 30, false, R3.(current := 2), M6);
    Onward(M5, Send(ALL, false, false), M6);
  }

  lemma ReachM7()
    ensures Reachable(M7)
  {
    ReachM6();
    assert Swapped([10, 20, 30], 1, 2) == [10, 30, 20];
    assert Erased([10, 30, 20], 2) == [10, 30];
    assert GIVEN3[20 := Rollback(GIVEN3[20])] == GIVEN3;
    assert Steps(M6, Terminate(1), M7);
    Onward(M6, Terminate(1), M7);
  }

  /** A run in which a part goes to another pipe, although the one that has the parts before it has room. */
  lemma MisplacedPartGoesAstray()
    ensures Reachable(M8) && !Whole(M8.given[10], false) && 30 in ALL && Active(M7.v.ring, 30)
  {
    ReachM7();
    assert [Part(0, 0, true)] + [Part(2, 1, true)] == [Part(0, 0, true), Part(2, 1, true)];
    Writes(M7, ALL, 10, true, Ring([10, 30], 2, 1), M8);
    Onward(M7, Send(ALL, true, false), M8);
    assert !JoinsAt(M8.given[10], 1);
    assert M7.v.ring.items[1] == 30;
  }
}
