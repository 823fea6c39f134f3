/**
 A scripted run of the queue, replaying the event order behind the
 repository's timing-based skip-ahead test (tests/index.js) as an explicit
 event script. What the test observes is when a task body begins and when it
 ends.
 */
module SerqScenarios {
  import opened Deferred
  import opened SerqSpec

  /** A task body begins (the test's `a1`) or ends (`a2`), named by ticket. */
  datatype Effect = Began(ticket: nat) | Ended(ticket: nat)

  /** What one event shows a test: the task it starts, the task that ends. */
  function EffectsOf(s: State, e: Event): seq<Effect>
  {
    var r := Step(s, e);
    (if |r.started| > |s.started| then [Began(r.started[|r.started| - 1].ticket)] else [])
    + (if e.SettleEv? && Enabled(s, e) then [Ended(s.started[e.slot - 1].ticket)] else [])
  }

  function Effects(s: State, evs: seq<Event>): seq<Effect>
    decreases evs
  {
    if evs == [] then [] else EffectsOf(s, evs[0]) + Effects(Step(s, evs[0]), evs[1..])
  }

  lemma {:induction false} RunEventsAppend(s: State, evs: seq<Event>, more: seq<Event>)
    ensures RunEvents(s, evs + more) == RunEvents(RunEvents(s, evs), more)
    decreases evs
  {
    if evs == [] {
      assert evs + more == more;
    } else {
      assert (evs + more)[0] == evs[0] && (evs + more)[1..] == evs[1..] + more;
      RunEventsAppend(Step(s, evs[0]), evs[1..], more);
    }
  }

  lemma {:induction false} EffectsAppend(s: State, evs: seq<Event>, more: seq<Event>)
    ensures Effects(s, evs + more) == Effects(s, evs) + Effects(RunEvents(s, evs), more)
    decreases evs
  {
    if evs == [] {
      assert evs + more == more;
    } else {
      assert (evs + more)[0] == evs[0] && (evs + more)[1..] == evs[1..] + more;
      EffectsAppend(Step(s, evs[0]), evs[1..], more);
    }
  }

  /** Two scripts run one after the other make one run. */
  lemma Compose(s: State, p: seq<Event>, m: State, x: seq<Effect>, q: seq<Event>, r: State, y: seq<Effect>)
    requires RunEvents(s, p) == m && Effects(s, p) == x
    requires RunEvents(m, q) == r && Effects(m, q) == y
    ensures RunEvents(s, p + q) == r && Effects(s, p + q) == x + y
  {
    RunEventsAppend(s, p, q);
    EffectsAppend(s, p, q);
  }

  /** The `k`-th event of a script takes `s` to `r`, showing `shown`. */
  lemma StepAt(s: State, evs: seq<Event>, k: nat, e: Event, r: State, shown: seq<Effect>)
    requires k < |evs| && evs[k] == e && Step(s, e) == r && EffectsOf(s, e) == shown
    ensures RunEvents(s, evs[k..]) == RunEvents(r, evs[k + 1..])
    ensures Effects(s, evs[k..]) == shown + Effects(r, evs[k + 1..])
  {
    assert evs[k..][0] == evs[k] && evs[k..][1..] == evs[k + 1..];
  }

  // What each kind of event does, and shows, in a state of the shape a script passes through.

  /** An accepted push appends the record; only a push onto an idle queue schedules the driver. */
  lemma PushStep(s: State, hasOnTimeout: bool)
    requires !s.status.Closed?
    ensures Step(s, PushEv(true, hasOnTimeout))
      == s.(queue := s.queue + [Task(|s.futures|, hasOnTimeout, 0)], futures := s.futures + [Pending],
            status := Busy, pending := s.pending + (if s.status.Idle? then [NextCurrent] else []))
    ensures EffectsOf(s, PushEv(true, hasOnTimeout)) == []
  {
  }

  /** A timer fire schedules its slot's `_next` and starts and ends nothing. */
  lemma FireStep(s: State)
    requires CanFire(s)
    ensures Step(s, FireEv)
      == s.(timer := Fired(s.timer.slot), pending := s.pending + [NextFor(s.timer.slot)],
            timedOut := s.timedOut + (if s.started[s.timer.slot - 1].hasOnTimeout then [s.timer.slot] else []),
            expired := s.expired + {s.timer.slot})
    ensures EffectsOf(s, FireEv) == []
  {
  }

  /** A current continuation on a busy queue with a backlog begins the head. */
  lemma StartStep(s: State, k: nat)
    requires k < |s.pending| && (s.pending[k] == NextCurrent || s.pending[k] == NextFor(s.id))
    requires s.status.Busy? && s.queue != []
    ensures Step(s, RunEv(k))
      == s.(pending := RemoveAt(s.pending, k), queue := s.queue[1..], id := s.id + 1,
            started := s.started + [s.queue[0].(slot := s.id + 1)], running := s.running + {s.id + 1},
            timer := Armed(s.id + 1))
    ensures EffectsOf(s, RunEv(k)) == [Began(s.queue[0].ticket)]
  {
  }

  /** A current continuation on a busy queue with no backlog makes it idle. */
  lemma DrainStep(s: State, k: nat)
    requires k < |s.pending| && (s.pending[k] == NextCurrent || s.pending[k] == NextFor(s.id))
    requires s.status.Busy? && s.queue == []
    ensures Step(s, RunEv(k)) == s.(pending := RemoveAt(s.pending, k), timer := Disarmed, status := Idle)
    ensures EffectsOf(s, RunEv(k)) == []
  {
  }

  /** A superseded continuation, or one on an idle queue, is only taken off the schedule. */
  lemma StaleStep(s: State, k: nat)
    requires k < |s.pending| && s.pending[k].NextFor? && (s.pending[k].slot != s.id || s.status.Idle?)
    ensures Step(s, RunEv(k)) == s.(pending := RemoveAt(s.pending, k))
    ensures EffectsOf(s, RunEv(k)) == []
  {
  }

  /** A task that returns `v` resolves its own caller's future and schedules `_next` for its slot. */
  lemma SettleStep(s: State, slot: nat, v: Value)
    requires CanSettle(s, slot) && s.futures[s.started[slot - 1].ticket].Pending?
    ensures var t := s.started[slot - 1].ticket;
      Step(s, SettleEv(slot, Returned(v)))
        == s.(running := s.running - {slot}, futures := s.futures[t := Settled(Resolved(v))],
              pending := s.pending + [NextFor(slot)])
    ensures EffectsOf(s, SettleEv(slot, Returned(v))) == [Ended(s.started[slot - 1].ticket)]
  {
  }

  /** Three pushes and a continuation, each taking one state to the next, make one phase. */
  lemma PushRound(s0: State, s1: State, s2: State, s3: State, s4: State,
                  oa: bool, ob: bool, oc: bool, x4: seq<Effect>)
    requires Step(s0, PushEv(true, oa)) == s1 && EffectsOf(s0, PushEv(true, oa)) == []
    requires Step(s1, PushEv(true, ob)) == s2 && EffectsOf(s1, PushEv(true, ob)) == []
    requires Step(s2, PushEv(true, oc)) == s3 && EffectsOf(s2, PushEv(true, oc)) == []
    requires Step(s3, RunEv(0)) == s4 && EffectsOf(s3, RunEv(0)) == x4
    ensures RunEvents(s0, PushPhase(oa, ob, oc)) == s4
    ensures Effects(s0, PushPhase(oa, ob, oc)) == x4
  {
    var evs := PushPhase(oa, ob, oc);
    assert evs[0..] == evs && evs[4..] == [];
    StepAt(s0, evs, 0, PushEv(true, oa), s1, []);
    StepAt(s1, evs, 1, PushEv(true, ob), s2, []);
    StepAt(s2, evs, 2, PushEv(true, oc), s3, []);
    StepAt(s3, evs, 3, RunEv(0), s4, x4);
  }

  /** A timeout, the next start, the late settle of slot `n` and its continuation make one phase. */
  lemma TimeoutRound(s0: State, s1: State, s2: State, s3: State, s4: State,
                     n: nat, v: Value, x2: seq<Effect>, x3: seq<Effect>)
    requires Step(s0, FireEv) == s1 && EffectsOf(s0, FireEv) == []
    requires Step(s1, RunEv(0)) == s2 && EffectsOf(s1, RunEv(0)) == x2
    requires Step(s2, SettleEv(n, Returned(v))) == s3 && EffectsOf(s2, SettleEv(n, Returned(v))) == x3
    requires Step(s3, RunEv(0)) == s4 && EffectsOf(s3, RunEv(0)) == []
    ensures RunEvents(s0, [FireEv, RunEv(0), SettleEv(n, Returned(v)), RunEv(0)]) == s4
    ensures Effects(s0, [FireEv, RunEv(0), SettleEv(n, Returned(v)), RunEv(0)]) == x2 + x3
  {
    var evs := [FireEv, RunEv(0), SettleEv(n, Returned(v)), RunEv(0)];
    assert evs[0..] == evs && evs[4..] == [];
    StepAt(s0, evs, 0, FireEv, s1, []);
    StepAt(s1, evs, 1, RunEv(0), s2, x2);
    StepAt(s2, evs, 2, SettleEv(n, Returned(v)), s3, x3);
    StepAt(s3, evs, 3, RunEv(0), s4, []);
  }

  // `new Serq(200)` and three tasks A, B, C of 300 ms each, pushed back to back
  // (tests/index.js:149-181). A, B, C pass an `ontimeout` callback when `oa`,
  // `ob`, `oc` hold (the test passes none) and return `va`, `vb`, `vc`.
  // The run falls into four phases.

  /** The three pushes and the push-triggered `_next`: A starts. */
  function PushPhase(oa: bool, ob: bool, oc: bool): seq<Event>
  {
    [PushEv(true, oa), PushEv(true, ob), PushEv(true, oc), RunEv(0)]
  }

  /** A's timer fires and B starts; A ends and its `_next(1)` finds a newer slot. */
  function FirstTimeoutPhase(va: Value): seq<Event>
  {
    [FireEv, RunEv(0), SettleEv(1, Returned(va)), RunEv(0)]
  }

  /** B's timer fires and C starts; B ends and its `_next(2)` is stale. */
  function SecondTimeoutPhase(vb: Value): seq<Event>
  {
    [FireEv, RunEv(0), SettleEv(2, Returned(vb)), RunEv(0)]
  }

  /** C's timer fires on an empty backlog (Idle); C ends and its `_next(3)` finds the queue idle. */
  function DrainPhase(vc: Value): seq<Event>
  {
    [FireEv, RunEv(0), SettleEv(3, Returned(vc)), RunEv(0)]
  }

  function SkipAheadScript(oa: bool, ob: bool, oc: bool, va: Value, vb: Value, vc: Value): seq<Event>
  {
    PushPhase(oa, ob, oc) + (FirstTimeoutPhase(va) + (SecondTimeoutPhase(vb) + DrainPhase(vc)))
  }

  /** The records of A, B, C (tickets 0, 1, 2), started in slots 1, 2, 3. */
  function Started(oa: bool, ob: bool, oc: bool): seq<Task>
  {
    [Task(0, oa, 1), Task(1, ob, 2), Task(2, oc, 3)]
  }

  /** What a fire of slot `slot` adds to the `ontimeout` log. */
  function TimeoutEntry(hasOnTimeout: bool, slot: nat): seq<nat>
  {
    if hasOnTimeout then [slot] else []
  }

  /** After the pushes: A runs in slot 1 under an armed timer. */
  function AfterPushes(oa: bool, ob: bool, oc: bool): State
  {
    State(Busy, [Task(1, ob, 0), Task(2, oc, 0)], 1, Armed(1), [], [Pending, Pending, Pending],
          [Task(0, oa, 1)], {1}, [], {})
  }

  /** After the first timeout: B runs in slot 2; A has ended. */
  function AfterFirstTimeout(oa: bool, ob: bool, oc: bool, va: Value): State
  {
    State(Busy, [Task(2, oc, 0)], 2, Armed(2), [], [Settled(Resolved(va)), Pending, Pending],
          [Task(0, oa, 1), Task(1, ob, 2)], {2}, TimeoutEntry(oa, 1), {1})
  }

  /** After the second timeout: C runs in slot 3; B has ended. */
  function AfterSecondTimeout(oa: bool, ob: bool, oc: bool, va: Value, vb: Value): State
  {
    State(Busy, [], 3, Armed(3), [], [Settled(Resolved(va)), Settled(Resolved(vb)), Pending],
          Started(oa, ob, oc), {3}, TimeoutEntry(oa, 1) + TimeoutEntry(ob, 2), {1, 2})
  }

  /** At the end: idle, nothing scheduled, every future resolved with its own task's value. */
  function AtEnd(oa: bool, ob: bool, oc: bool, va: Value, vb: Value, vc: Value): State
  {
    State(Idle, [], 3, Disarmed, [], [Settled(Resolved(va)), Settled(Resolved(vb)), Settled(Resolved(vc))],
          Started(oa, ob, oc), {}, TimeoutEntry(oa, 1) + TimeoutEntry(ob, 2) + TimeoutEntry(oc, 3),
          {1, 2, 3})
  }

  lemma {:induction false} PushPhaseRuns(s0: State, oa: bool, ob: bool, oc: bool)
    requires s0.status == Idle && s0.queue == [] && s0.id == 0 && s0.timer == Disarmed && s0.pending == []
    requires s0.futures == [] && s0.started == [] && s0.running == {} && s0.timedOut == [] && s0.expired == {}
    ensures RunEvents(s0, PushPhase(oa, ob, oc)) == AfterPushes(oa, ob, oc)
    ensures Effects(s0, PushPhase(oa, ob, oc)) == [Began(0)]
  {
    var a, b, c := Task(0, oa, 0), Task(1, ob, 0), Task(2, oc, 0);
    var s1 := State(Busy, [a], 0, Disarmed, [NextCurrent], [Pending], [], {}, [], {});
    var s2 := s1.(queue := [a, b], futures := [Pending, Pending]);
    var s3 := s1.(queue := [a, b, c], futures := [Pending, Pending, Pending]);
    var s4 := AfterPushes(oa, ob, oc);
    PushStep(s0, oa);
    PushStep(s1, ob);
    PushStep(s2, oc);
    StartStep(s3, 0);
    assert s3.queue[1..] == s4.queue;
    PushRound(s0, s1, s2, s3, s4, oa, ob, oc, [Began(0)]);
  }

  lemma {:induction false} FirstTimeoutPhaseRuns(oa: bool, ob: bool, oc: bool, va: Value)
    ensures RunEvents(AfterPushes(oa, ob, oc), FirstTimeoutPhase(va)) == AfterFirstTimeout(oa, ob, oc, va)
    ensures Effects(AfterPushes(oa, ob, oc), FirstTimeoutPhase(va)) == [Began(1), Ended(0)]
  {
    var s4 := AfterPushes(oa, ob, oc);
    var s8 := AfterFirstTimeout(oa, ob, oc, va);
    var s5 := s4.(timer := Fired(1), pending := [NextFor(1)], timedOut := s8.timedOut, expired := s8.expired);
    var s6 := s8.(futures := s4.futures, running := {1, 2});
    var s7 := s8.(pending := [NextFor(1)]);
    FireStep(s4);
    StartStep(s5, 0);
    assert s5.queue[1..] == s6.queue && s5.started + [s5.queue[0].(slot := 2)] == s6.started;
    SettleStep(s6, 1, va);
    StaleStep(s7, 0);
    TimeoutRound(s4, s5, s6, s7, s8, 1, va, [Began(1)], [Ended(0)]);
  }

  lemma {:induction false} SecondTimeoutPhaseRuns(oa: bool, ob: bool, oc: bool, va: Value, vb: Value)
    ensures RunEvents(AfterFirstTimeout(oa, ob, oc, va), SecondTimeoutPhase(vb)) == AfterSecondTimeout(oa, ob, oc, va, vb)
    ensures Effects(AfterFirstTimeout(oa, ob, oc, va), SecondTimeoutPhase(vb)) == [Began(2), Ended(1)]
  {
    var s8 := AfterFirstTimeout(oa, ob, oc, va);
    var s12 := AfterSecondTimeout(oa, ob, oc, va, vb);
    var s9 := s8.(timer := Fired(2), pending := [NextFor(2)], timedOut := s12.timedOut, expired := s12.expired);
    var s10 := s12.(futures := s8.futures, running := {2, 3});
    var s11 := s12.(pending := [NextFor(2)]);
    FireStep(s8);
    StartStep(s9, 0);
    assert s9.queue[1..] == s10.queue && s9.started + [s9.queue[0].(slot := 3)] == s10.started;
    SettleStep(s10, 2, vb);
    StaleStep(s11, 0);
    TimeoutRound(s8, s9, s10, s11, s12, 2, vb, [Began(2)], [Ended(1)]);
  }

  lemma {:induction false} DrainPhaseRuns(oa: bool, ob: bool, oc: bool, va: Value, vb: Value, vc: Value)
    ensures RunEvents(AfterSecondTimeout(oa, ob, oc, va, vb), DrainPhase(vc)) == AtEnd(oa, ob, oc, va, vb, vc)
    ensures Effects(AfterSecondTimeout(oa, ob, oc, va, vb), DrainPhase(vc)) == [Ended(2)]
  {
    var s12 := AfterSecondTimeout(oa, ob, oc, va, vb);
    var s16 := AtEnd(oa, ob, oc, va, vb, vc);
    var s13 := s12.(timer := Fired(3), pending := [NextFor(3)], timedOut := s16.timedOut, expired := s16.expired);
    var s14 := s13.(status := Idle, timer := Disarmed, pending := []);
    var s15 := s16.(pending := [NextFor(3)]);
    FireStep(s12);
    DrainStep(s13, 0);
    SettleStep(s14, 3, vc);
    StaleStep(s15, 0);
    TimeoutRound(s12, s13, s14, s15, s16, 3, vc, [], [Ended(2)]);
  }

  /** The second and third timeout phases, run from the state the first leaves. */
  lemma LastPhasesRun(oa: bool, ob: bool, oc: bool, va: Value, vb: Value, vc: Value)
    ensures var evs := SecondTimeoutPhase(vb) + DrainPhase(vc);
      && RunEvents(AfterFirstTimeout(oa, ob, oc, va), evs) == AtEnd(oa, ob, oc, va, vb, vc)
      && Effects(AfterFirstTimeout(oa, ob, oc, va), evs) == [Began(2), Ended(1), Ended(2)]
  {
    SecondTimeoutPhaseRuns(oa, ob, oc, va, vb);
    DrainPhaseRuns(oa, ob, oc, va, vb, vc);
    Compose(AfterFirstTimeout(oa, ob, oc, va), SecondTimeoutPhase(vb),
            AfterSecondTimeout(oa, ob, oc, va, vb), [Began(2), Ended(1)],
            DrainPhase(vc), AtEnd(oa, ob, oc, va, vb, vc), [Ended(2)]);
  }

  /** The three timeout phases, run from the state the pushes leave. */
  lemma TimeoutPhasesRun(oa: bool, ob: bool, oc: bool, va: Value, vb: Value, vc: Value)
    ensures var evs := FirstTimeoutPhase(va) + (SecondTimeoutPhase(vb) + DrainPhase(vc));
      && RunEvents(AfterPushes(oa, ob, oc), evs) == AtEnd(oa, ob, oc, va, vb, vc)
      && Effects(AfterPushes(oa, ob, oc), evs) == [Began(1), Ended(0), Began(2), Ended(1), Ended(2)]
  {
    var s4 := AfterPushes(oa, ob, oc);
    var p1, p23 := FirstTimeoutPhase(va), SecondTimeoutPhase(vb) + DrainPhase(vc);
    FirstTimeoutPhaseRuns(oa, ob, oc, va);
    LastPhasesRun(oa, ob, oc, va, vb, vc);
    Compose(s4, p1, AfterFirstTimeout(oa, ob, oc, va), [Began(1), Ended(0)],
            p23, AtEnd(oa, ob, oc, va, vb, vc), [Began(2), Ended(1), Ended(2)]);
  }

  /**
   The test's observation `a1, b1, a2, c1, b2, c2`: each timeout lets the next
   task start before the slow one ends, and each late end moves nothing. In
   the end the queue is idle, every caller's future holds its own task's
   value, and `ontimeout` ran once for each task that supplied it.
   */
  lemma SkipAheadOrder(oa: bool, ob: bool, oc: bool, va: Value, vb: Value, vc: Value)
    ensures Effects(Init(), SkipAheadScript(oa, ob, oc, va, vb, vc))
      == [Began(0), Began(1), Ended(0), Began(2), Ended(1), Ended(2)]
    ensures var t := RunEvents(Init(), SkipAheadScript(oa, ob, oc, va, vb, vc));
      && t.status == Idle && t.queue == [] && t.id == 3 && t.pending == [] && t.running == {}
      && t.futures == [Settled(Resolved(va)), Settled(Resolved(vb)), Settled(Resolved(vc))]
      && t.timedOut == (if oa then [1] else []) + (if ob then [2] else []) + (if oc then [3] else [])
      && t.expired == {1, 2, 3}
  {
    SkipAheadFrom(Init(), oa, ob, oc, va, vb, vc);
  }

  /** `SkipAheadOrder` from any state that equals the constructed one field by field. */
  lemma SkipAheadFrom(s0: State, oa: bool, ob: bool, oc: bool, va: Value, vb: Value, vc: Value)
    requires s0.status == Idle && s0.queue == [] && s0.id == 0 && s0.timer == Disarmed && s0.pending == []
    requires s0.futures == [] && s0.started == [] && s0.running == {} && s0.timedOut == [] && s0.expired == {}
    ensures Effects(s0, SkipAheadScript(oa, ob, oc, va, vb, vc))
      == [Began(0), Began(1), Ended(0), Began(2), Ended(1), Ended(2)]
    ensures RunEvents(s0, SkipAheadScript(oa, ob, oc, va, vb, vc)) == AtEnd(oa, ob, oc, va, vb, vc)
  {
    var rest := FirstTimeoutPhase(va) + (SecondTimeoutPhase(vb) + DrainPhase(vc));
    PushPhaseRuns(s0, oa, ob, oc);
    TimeoutPhasesRun(oa, ob, oc, va, vb, vc);
    Compose(s0, PushPhase(oa, ob, oc), AfterPushes(oa, ob, oc), [Began(0)],
            rest, AtEnd(oa, ob, oc, va, vb, vc), [Began(1), Ended(0), Began(2), Ended(1), Ended(2)]);
  }
}
