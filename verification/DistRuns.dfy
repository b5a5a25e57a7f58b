/**
 * Multipart messages through dist_t: over any run of its operations, whatever pipes
 * come, go, fill up and drain meanwhile, no pipe gets a message from the middle on.
 */
module DistRuns {
  import opened Multipart
  import opened PipeArray
  import opened Dist

  /** The zones, what each pipe was given so far, and the next part to be sent. */
  datatype State = State(zones: Zones, given: map<Pipe, seq<Part>>, msg: nat, part: nat, toAll: bool)

  datatype Event =
    | Attach(p: Pipe)
    | Activate(p: Pipe)
    | Terminate(p: Pipe)
    | Match(p: Pipe)
    | ReverseMatch
    | Unmatch
    | SendToAll(full: set<Pipe>, more: bool)
    | SendToMatching(full: set<Pipe>, more: bool)

  /**
   * What the callers see to: pipes are chosen before the first part only, all parts of a
   * message are sent by the same function, and only a pipe that refused is activated.
   */
  predicate Allowed(s: State, e: Event) {
    match e
    case Attach(p) => p !in s.given
    case Activate(p) => p in s.zones.all && p !in s.zones.eligible
    case Terminate(p) => p in s.zones.all
    case Match(p) => !s.zones.more && p in s.zones.all
    case ReverseMatch => !s.zones.more
    case Unmatch => true
    case SendToAll(_, _) => s.zones.more ==> s.toAll
    case SendToMatching(_, _) => s.zones.more ==> !s.toAll
  }

  /** Every pipe of `to` is given one more part. */
  function Give(given: map<Pipe, seq<Part>>, to: set<Pipe>, x: Part): map<Pipe, seq<Part>> {
    map p | p in given :: if p in to then given[p] + [x] else given[p]
  }

  /** A part went to the pipes of `to`; the next part is of the same message, or the first one of another. */
  function Gave(s: State, zones: Zones, to: set<Pipe>, more: bool, toAll: bool): State {
    State(zones, Give(s.given, to, Part(s.msg, s.part, !more)),
          if more then s.msg else s.msg + 1, if more then s.part + 1 else 0, toAll)
  }

  function After(s: State, e: Event): State {
    match e
    case Attach(p) => s.(zones := Attached(s.zones, p), given := s.given[p := []])
    case Activate(p) => s.(zones := Activated(s.zones, p))
    case Terminate(p) =>
      s.(zones := Terminated(s.zones, p),
         given := if p in s.given then s.given[p := Rollback(s.given[p])] else s.given)
    case Match(p) => s.(zones := Matched(s.zones, p))
    case ReverseMatch => s.(zones := Reversed(s.zones))
    case Unmatch => s.(zones := Unmatched(s.zones))
    case SendToAll(full, more) =>
      Gave(s, SentToAll(s.zones, full, more), s.zones.active - full, more, true)
    case SendToMatching(full, more) =>
      Gave(s, SentToMatching(s.zones, full, more), s.zones.matching - full, more, false)
  }

  const START := State(Zones({}, {}, {}, {}, false), map[], 0, 0, false)

  predicate IsRun(states: seq<State>, events: seq<Event>) {
    && |states| == |events| + 1
    && states[0] == START
    && forall i :: 0 <= i < |events| ==> Allowed(states[i], events[i]) && states[i + 1] == After(states[i], events[i])
  }

  /** A part that is not the first follows the part before it, directly. */
  predicate Headed(h: seq<Part>) {
    forall i :: 0 <= i < |h| && h[i].part > 0 ==> i > 0 && h[i - 1] == Part(h[i].msg, h[i].part - 1, false)
  }

  /** The pipe was given everything of the message under way. */
  predicate UpToDate(s: State, p: Pipe)
    requires p in s.given
  {
    var h := s.given[p];
    s.part > 0 ==> h != [] && h[|h| - 1] == Part(s.msg, s.part - 1, false)
  }

  predicate Fine(s: State, p: Pipe) {
    p in s.given ==>
      && Headed(s.given[p])
      && (p in s.zones.matching && s.zones.more ==> UpToDate(s, p))
  }

  ghost predicate Inv(s: State) {
    var z := s.zones;
    && z.matching <= z.active <= z.eligible <= z.all <= s.given.Keys
    && (!z.more ==> z.active == z.eligible && s.part == 0)
    && (z.more ==> s.part > 0)
    && (z.more && s.toAll ==> forall p :: p in z.active && p in s.given ==> UpToDate(s, p))
    && forall p {:trigger Fine(s, p)} :: Fine(s, p)
  }

  lemma SendKeepsInv(s: State, e: Event)
    requires Inv(s) && Allowed(s, e) && (e.SendToAll? || e.SendToMatching?)
    ensures Inv(After(s, e))
  {
    var r := After(s, e);
    forall p ensures Fine(r, p) { assert Fine(s, p); }
    if e.SendToAll? {
      forall p | p in r.zones.active && p in r.given && r.zones.more ensures UpToDate(r, p) {
        assert Fine(s, p);
      }
    }
  }

  lemma StepKeepsInv(s: State, e: Event)
    requires Inv(s) && Allowed(s, e)
    ensures Inv(After(s, e))
  {
    if e.SendToAll? || e.SendToMatching? {
      SendKeepsInv(s, e);
    } else {
      var r := After(s, e);
      forall p ensures Fine(r, p) {
        assert Fine(s, p);
        if e.Terminate? && e.p == p && p in s.given { RollbackPrefix(s.given[p]); }
      }
    }
  }

  lemma {:induction false} RunKeepsInv(states: seq<State>, events: seq<Event>, i: nat)
    requires IsRun(states, events) && i < |states|
    ensures Inv(states[i])
  {
    if i > 0 {
      RunKeepsInv(states, events, i - 1);
      assert Allowed(states[i - 1], events[i - 1]) && states[i] == After(states[i - 1], events[i - 1]);
      StepKeepsInv(states[i - 1], events[i - 1]);
    }
  }

  /**
   * Over every run, every pipe: if it was given part n of a message, the n parts before
   * it were given to it just before, in order.
   */
  lemma NoPipeStartsMidMessage(states: seq<State>, events: seq<Event>, i: nat, p: Pipe, k: nat)
    requires IsRun(states, events) && i < |states| && p in states[i].given && k < |states[i].given[p]|
    ensures var x := states[i].given[p][k];
            && x.part <= k
            && forall j :: 0 <= j < x.part ==> states[i].given[p][k - x.part + j] == Part(x.msg, j, false)
  {
    RunKeepsInv(states, events, i);
    assert Fine(states[i], p);
    HeadedBack(states[i].given[p], k);
  }

  lemma {:induction false} HeadedBack(h: seq<Part>, k: nat)
    requires Headed(h) && k < |h|
    ensures h[k].part <= k && forall j :: 0 <= j < h[k].part ==> h[k - h[k].part + j] == Part(h[k].msg, j, false)
    decreases h[k].part
  {
    if h[k].part > 0 { HeadedBack(h, k - 1); }
  }

  // ----- Who takes part ------------------------------------------------------------------------------------

  /** The pipe is attached: it came and did not go since. */
  ghost predicate Present(events: seq<Event>, n: nat, p: Pipe)
    requires n <= |events|
  {
    n > 0 && match events[n - 1]
             case Attach(q) => q == p || Present(events, n - 1, p)
             case Terminate(q) => q != p && Present(events, n - 1, p)
             case _ => Present(events, n - 1, p)
  }

  /** The pipe is offered the part of this event and has no room for it. */
  predicate Refuses(s: State, e: Event, p: Pipe) {
    || (e.SendToAll? && p in s.zones.active && p in e.full)
    || (e.SendToMatching? && p in s.zones.matching && p in e.full)
  }

  /** The pipe came, or had room again, after it last refused a part or went. */
  ghost predicate HasRoom(states: seq<State>, events: seq<Event>, n: nat, p: Pipe)
    requires n <= |events| <= |states|
  {
    n > 0 && match events[n - 1]
             case Attach(q) => q == p || HasRoom(states, events, n - 1, p)
             case Activate(q) => q == p || HasRoom(states, events, n - 1, p)
             case Terminate(q) => q != p && HasRoom(states, events, n - 1, p)
             case _ => HasRoom(states, events, n - 1, p) && !Refuses(states[n - 1], events[n - 1], p)
  }

  /**
   * Over every run: a pipe that came or had room again, in the middle of a message or not, takes part
   * for as long as it refuses nothing, and between messages all who take part are active.
   */
  lemma {:induction false} WhoTakesPart(states: seq<State>, events: seq<Event>, n: nat, p: Pipe)
    requires IsRun(states, events) && n < |states|
    ensures var z := states[n].zones;
            && (p in z.all <==> Present(events, n, p))
            && (p in z.eligible <==> HasRoom(states, events, n, p))
            && (!z.more ==> z.active == z.eligible)
  {
    RunKeepsInv(states, events, n);
    if n > 0 {
      WhoTakesPart(states, events, n - 1, p);
      RunKeepsInv(states, events, n - 1);
      assert Allowed(states[n - 1], events[n - 1]) && states[n] == After(states[n - 1], events[n - 1]);
    }
  }

  /**
   * Over every run: the first part of a message for all is given to exactly the pipes that came or had
   * room again after they last refused one and have room for it now, whenever that was.
   */
  lemma FirstPartForAll(states: seq<State>, events: seq<Event>, n: nat, p: Pipe)
    requires IsRun(states, events) && n < |events| && events[n].SendToAll? && !states[n].zones.more
    requires p in states[n].given
    ensures p in states[n + 1].given
    ensures states[n + 1].given[p]
            == states[n].given[p] + if HasRoom(states, events, n, p) && p !in events[n].full
                                    then [Part(states[n].msg, 0, !events[n].more)] else []
  {
    WhoTakesPart(states, events, n, p);
    RunKeepsInv(states, events, n);
    assert states[n + 1] == After(states[n], events[n]);
  }

  /** Over every run: before the first part, a pipe that has room can be chosen, and no other. */
  lemma WhoCanBeChosen(states: seq<State>, events: seq<Event>, n: nat, p: Pipe)
    requires IsRun(states, events) && n < |events| && !states[n].zones.more
    requires events[n] == Match(p) || events[n] == ReverseMatch
    ensures var z, r := states[n].zones, states[n + 1].zones;
            p in r.matching <==>
            HasRoom(states, events, n, p) && (events[n] == Match(p) || p !in z.matching)
  {
    WhoTakesPart(states, events, n, p);
    RunKeepsInv(states, events, n);
    assert states[n + 1] == After(states[n], events[n]);
  }

  // ----- Whole messages ---------------------------------------------------------------------------------

  /** The pipes that get the next part of the message under way. */
  function Audience(s: State): set<Pipe> {
    if s.toAll then s.zones.active else s.zones.matching
  }

  predicate Open(s: State, p: Pipe) {
    s.zones.more && p in Audience(s)
  }

  /** No pipe that was given the first part is left out before the last one. */
  predicate Harmless(s: State, e: Event) {
    match e
    case Unmatch => s.zones.more && !s.toAll ==> s.zones.matching == {}
    case SendToAll(full, _) => s.zones.more ==> s.zones.active !! full
    case SendToMatching(full, _) => s.zones.more ==> s.zones.matching !! full
    case _ => true
  }

  ghost predicate WholeAt(s: State, p: Pipe) {
    p in s.given ==> Whole(s.given[p], Open(s, p))
  }

  /** Every pipe was given whole messages, but for the one under way. */
  ghost predicate Good(s: State) {
    forall p {:trigger WholeAt(s, p)} :: WholeAt(s, p)
  }

  ghost predicate PipeOk(s: State, p: Pipe) {
    p in s.given ==>
      && Whole(s.given[p], Open(s, p))
      && (forall i :: 0 <= i < |s.given[p]| ==> s.given[p][i].msg < s.msg || (s.given[p][i].msg == s.msg && Open(s, p)))
      && (Open(s, p) ==> UpToDate(s, p))
  }

  ghost predicate WholeInv(s: State) {
    Inv(s) && forall p {:trigger PipeOk(s, p)} :: PipeOk(s, p)
  }

  lemma SendKeepsPipe(s: State, e: Event, p: Pipe)
    requires WholeInv(s) && Allowed(s, e) && Harmless(s, e) && (e.SendToAll? || e.SendToMatching?)
    ensures PipeOk(After(s, e), p)
  {
    assert PipeOk(s, p);
    var takers := (if e.SendToAll? then s.zones.active else s.zones.matching) - e.full;
    if p in s.given && p in takers {
      WroteOk(s.given[p], Open(s, p), Part(s.msg, s.part, !e.more));
    }
  }

  lemma StepKeepsPipe(s: State, e: Event, p: Pipe)
    requires WholeInv(s) && Allowed(s, e) && Harmless(s, e) && !e.SendToAll? && !e.SendToMatching?
    ensures PipeOk(After(s, e), p)
  {
    assert PipeOk(s, p);
    if e.Terminate? && e.p == p && p in s.given {
      RollbackOk(s.given[p], Open(s, p), s.msg);
    }
  }

  lemma StepKeepsWhole(s: State, e: Event)
    requires WholeInv(s) && Allowed(s, e) && Harmless(s, e)
    ensures WholeInv(After(s, e))
  {
    StepKeepsInv(s, e);
    forall p ensures PipeOk(After(s, e), p) {
      if e.SendToAll? || e.SendToMatching? { SendKeepsPipe(s, e, p); } else { StepKeepsPipe(s, e, p); }
    }
  }

  /** The pipe that is left out in the middle of a message. */
  lemma LeftOut(s: State, e: Event)
    requires WholeInv(s) && Allowed(s, e) && !Harmless(s, e)
    ensures !Good(After(s, e))
  {
    var out := if e.Unmatch? then Audience(s) else Audience(s) * e.full;
    assert out != {} by {
      if !e.Unmatch? {
        var q :| q in (if e.SendToAll? then s.zones.active else s.zones.matching) && q in e.full;
        assert q in out;
      }
    }
    var p :| p in out;
    assert Audience(s) <= s.zones.all <= s.given.Keys;
    var r, h := After(s, e), s.given[p];
    assert PipeOk(s, p);
    assert r.given[p] == h && !Open(r, p) && h != [] && !h[|h| - 1].last;
    assert !WholeAt(r, p);
  }

  /** One event after a good run leaves every pipe with whole messages exactly if it is harmless. */
  lemma StepExact(s: State, e: Event)
    requires WholeInv(s) && Allowed(s, e)
    ensures Good(After(s, e)) <==> Harmless(s, e)
  {
    if Harmless(s, e) {
      StepKeepsWhole(s, e);
      forall p ensures WholeAt(After(s, e), p) { assert PipeOk(After(s, e), p); }
    } else {
      LeftOut(s, e);
    }
  }

  /**
   * Over every run, up to the first event that leaves a pipe out in the middle of a message, every
   * pipe was given whole messages, but for the one under way; that event breaks it.
   */
  lemma {:induction false} MessagesAreGivenWhole(states: seq<State>, events: seq<Event>, n: nat)
    requires IsRun(states, events) && n <= |events|
    requires forall i :: 0 <= i < n ==> Harmless(states[i], events[i])
    ensures WholeInv(states[n]) && Good(states[n])
    ensures n < |events| ==> (Good(states[n + 1]) <==> Harmless(states[n], events[n]))
  {
    if n > 0 {
      MessagesAreGivenWhole(states, events, n - 1);
      StepKeepsWhole(states[n - 1], events[n - 1]);
    }
    forall p ensures WholeAt(states[n], p) { assert PipeOk(states[n], p); }
    if n < |events| { StepExact(states[n], events[n]); }
  }

  // ----- A pipe that refuses a later part ------------------------------------------------------------------

  const REFUSAL := [Attach(10), SendToAll({}, true), SendToAll({10}, false), Activate(10), SendToAll({}, false)]

  const ONE := map[10 := [Part(0, 0, false)]]
  const TWO := map[10 := [Part(0, 0, false), Part(1, 0, true)]]
  const ACTIVE := Zones({}, {10}, {10}, {10}, false)
  const STATES := [START, State(ACTIVE, map[10 := []], 0, 0, false),
                   State(Zones({10}, {10}, {10}, {10}, true), ONE, 0, 1, true),
                   State(Zones({}, {}, {}, {10}, false), ONE, 1, 0, true), State(ACTIVE, ONE, 1, 0, true),
                   State(ACTIVE.(matching := {10}), TWO, 2, 0, true)]

  /** A part for the only pipe. */
  lemma GivesOne(h: seq<Part>, x: Part)
    ensures Give(map[10 := h], {10}, x) == map[10 := h + [x]] && Give(map[10 := h], {}, x) == map[10 := h]
  {
  }

  lemma FirstSteps()
    ensures After(STATES[0], REFUSAL[0]) == STATES[1] && After(STATES[1], REFUSAL[1]) == STATES[2]
  {
    GivesOne([], Part(0, 0, false));
    assert {10} - {} == {10} && [] + [Part(0, 0, false)] == [Part(0, 0, false)];
  }

  lemma MiddleSteps()
    ensures After(STATES[2], REFUSAL[2]) == STATES[3] && After(STATES[3], REFUSAL[3]) == STATES[4]
  {
    GivesOne([Part(0, 0, false)], Part(0, 1, true));
    assert {10} - {10} == {} && {10} * {10} == {10};
  }

  lemma LastStep()
    ensures After(STATES[4], REFUSAL[4]) == STATES[5]
  {
    GivesOne([Part(0, 0, false)], Part(1, 0, true));
    assert {10} - {} == {10} && [Part(0, 0, false)] + [Part(1, 0, true)] == [Part(0, 0, false), Part(1, 0, true)];
  }

  /**
   * A run in which the pipe refuses the second part of a message and has room again for the next
   * message, which it is given right behind the first part of the other one.
   */
  lemma RefusalJoinsMessages()
    ensures IsRun(STATES, REFUSAL) && !Harmless(STATES[2], REFUSAL[2])
    ensures STATES[5].given[10] == [Part(0, 0, false), Part(1, 0, true)] && !Whole(STATES[5].given[10], false)
  {
    FirstSteps();
    MiddleSteps();
    LastStep();
    assert !JoinsAt(STATES[5].given[10], 0);
  }
}
