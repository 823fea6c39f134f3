/**
 A race in `_next` (src/index.js:74-91), and a corrected driver.

 When the backlog drains, `_next` sets the queue idle but leaves `id` as it
 is. A task whose timer fired and drained the queue is then still "current":
 when it finally ends, its `_next(id)` passes the id guard. If pushes have
 come in meanwhile, that late call starts the first of them, and the
 push-triggered `_next(this.id)` then reads the new slot, passes the guard
 too and starts the next task over it. The started body goes on running
 with its timer cleared, so any later drain lets a further task start
 beside it.

 `SerqSpec.Next` keeps the code as written. `RaceRun` exhibits the run in
 that model. `NextFixed` moves the slot counter on when the queue drains, so
 every continuation captured before the drain is stale. Slot numbers then
 have gaps, so the corrected queue finds a started record by its slot
 (`Lookup`), and `StepFixedAgrees` shows that nothing changes until the
 first drain. Under the fix, a task body runs beside a later one only after
 its own timer fired (`OverlapNeedsTimeout`), the queue never freezes
 (`FixedNeverFreezes`), and a drain makes every earlier continuation inert
 for ever (`DrainSupersedes`).
 */
module SerqFixed {
  import opened Deferred
  import opened SerqSpec
  import opened SerqTheorems
  import opened SerqScenarios

  // ---------------------------------------------------------------------------
  // The code as written admits two unexpired bodies at once
  // ---------------------------------------------------------------------------

  /** Every body still running, except the current slot's, has had its timer fire. */
  ghost predicate OverlapExplained(s: State)
  {
    forall x :: x in s.running && x != s.id ==> x in s.expired
  }

  /**
   Task A times out and its fire drains the queue; A ends; D and E are
   pushed; A's late `_next(1)` starts D; the push-triggered `_next` reads
   slot 2 and starts E over D; E times out and its fire drains the queue;
   F is pushed and starts while D, whose timer never fired, still runs.
   */
  function RaceScript(o: bool, v: Value): seq<Event>
  {
    RaceStart(o) + (RaceLate(o, v) + (RaceSecond(o) + RaceOverlap(o)))
  }

  /** A starts, times out, and its fire drains the queue to idle. */
  function RaceStart(o: bool): seq<Event>
  {
    [PushEv(true, o), RunEv(0), FireEv, RunEv(0)]
  }

  /** A ends; D and E are pushed; A's late `_next(1)` starts D. */
  function RaceLate(o: bool, v: Value): seq<Event>
  {
    [SettleEv(1, Returned(v)), PushEv(true, o), PushEv(true, o), RunEv(0)]
  }

  /** The push-triggered `_next` starts E in slot 3; E times out and its fire drains the queue. */
  function RaceSecond(o: bool): seq<Event>
  {
    [RunEv(0), FireEv, RunEv(0)]
  }

  /** F is pushed and starts in slot 4. */
  function RaceOverlap(o: bool): seq<Event>
  {
    [PushEv(true, o), RunEv(0)]
  }

  function AfterDrain(o: bool): State
  {
    State(Idle, [], 1, Disarmed, [], [Pending], [Task(0, o, 1)], {1}, TimeoutEntry(o, 1), {1})
  }

  function AfterLateStart(o: bool, v: Value): State
  {
    State(Busy, [Task(2, o, 0)], 2, Armed(2), [NextCurrent], [Settled(Resolved(v)), Pending, Pending],
          [Task(0, o, 1), Task(1, o, 2)], {2}, TimeoutEntry(o, 1), {1})
  }

  function AfterSecondDrain(o: bool, v: Value): State
  {
    State(Idle, [], 3, Disarmed, [], [Settled(Resolved(v)), Pending, Pending],
          [Task(0, o, 1), Task(1, o, 2), Task(2, o, 3)], {2, 3}, TimeoutEntry(o, 1) + TimeoutEntry(o, 3), {1, 3})
  }

  function AfterOverlap(o: bool, v: Value): State
  {
    State(Busy, [], 4, Armed(4), [], [Settled(Resolved(v)), Pending, Pending, Pending],
          [Task(0, o, 1), Task(1, o, 2), Task(2, o, 3), Task(3, o, 4)], {2, 3, 4},
          TimeoutEntry(o, 1) + TimeoutEntry(o, 3), {1, 3})
  }

  lemma {:induction false} RaceStartRuns(s0: State, o: bool)
    requires s0.status == Idle && s0.queue == [] && s0.id == 0 && s0.timer == Disarmed && s0.pending == []
    requires s0.futures == [] && s0.started == [] && s0.running == {} && s0.timedOut == [] && s0.expired == {}
    ensures RunEvents(s0, RaceStart(o)) == AfterDrain(o)
  {
    var evs := RaceStart(o);
    var s1 := s0.(queue := s0.queue + [Task(0, o, 0)], futures := s0.futures + [Pending], status := Busy,
                  pending := s0.pending + [NextCurrent]);
    var s2 := s1.(pending := RemoveAt(s1.pending, 0), queue := s1.queue[1..], id := s1.id + 1,
                  started := s1.started + [s1.queue[0].(slot := s1.id + 1)], running := s1.running + {s1.id + 1},
                  timer := Armed(s1.id + 1));
    var s3 := s2.(timer := Fired(1), pending := s2.pending + [NextFor(1)], timedOut := TimeoutEntry(o, 1),
                  expired := s2.expired + {1});
    PushStep(s0, o);
    StepAt(s0, evs, 0, PushEv(true, o), s1, []);
    StartStep(s1, 0);
    StepAt(s1, evs, 1, RunEv(0), s2, [Began(0)]);
    FireStep(s2);
    StepAt(s2, evs, 2, FireEv, s3, []);
    DrainStep(s3, 0);
    assert RemoveAt(s3.pending, 0) == [];
    StepAt(s3, evs, 3, RunEv(0), AfterDrain(o), []);
    assert evs[0..] == evs && evs[4..] == [];
  }

  /** A has ended and D and E wait behind A's late `_next(1)` and the push-triggered call. */
  function LatePushed(o: bool, v: Value): State
  {
    State(Busy, [Task(1, o, 0), Task(2, o, 0)], 1, Disarmed, [NextFor(1), NextCurrent],
          [Settled(Resolved(v)), Pending, Pending], [Task(0, o, 1)], {}, TimeoutEntry(o, 1), {1})
  }

  lemma {:induction false} LatePushesRun(o: bool, v: Value)
    ensures RunEvents(AfterDrain(o), RaceLate(o, v)) == RunEvents(LatePushed(o, v), RaceLate(o, v)[3..])
  {
    var evs := RaceLate(o, v);
    var s4 := AfterDrain(o);
    var s5 := s4.(running := s4.running - {1}, futures := s4.futures[0 := Settled(Resolved(v))],
                  pending := s4.pending + [NextFor(1)]);
    var s6 := s5.(queue := s5.queue + [Task(1, o, 0)], futures := s5.futures + [Pending], status := Busy,
                  pending := s5.pending + [NextCurrent]);
    SettleStep(s4, 1, v);
    StepAt(s4, evs, 0, SettleEv(1, Returned(v)), s5, [Ended(0)]);
    PushStep(s5, o);
    StepAt(s5, evs, 1, PushEv(true, o), s6, []);
    PushStep(s6, o);
    assert s6.futures + [Pending] == [Settled(Resolved(v)), Pending, Pending];
    StepAt(s6, evs, 2, PushEv(true, o), LatePushed(o, v), []);
    assert evs[0..] == evs;
  }

  lemma {:induction false} RaceLateRuns(o: bool, v: Value)
    ensures RunEvents(AfterDrain(o), RaceLate(o, v)) == AfterLateStart(o, v)
  {
    var evs := RaceLate(o, v);
    var s7 := LatePushed(o, v);
    LatePushesRun(o, v);
    StartStep(s7, 0);
    assert RemoveAt(s7.pending, 0) == [NextCurrent];
    StepAt(s7, evs, 3, RunEv(0), AfterLateStart(o, v), [Began(1)]);
    assert evs[4..] == [];
  }

  lemma {:induction false} RaceSecondRuns(o: bool, v: Value)
    ensures RunEvents(AfterLateStart(o, v), RaceSecond(o)) == AfterSecondDrain(o, v)
  {
    var evs := RaceSecond(o);
    var s8 := AfterLateStart(o, v);
    var s9 := s8.(pending := [], queue := [], id := 3, started := s8.started + [Task(2, o, 3)],
                  running := {2, 3}, timer := Armed(3));
    var s10 := s9.(timer := Fired(3), pending := [NextFor(3)], timedOut := TimeoutEntry(o, 1) + TimeoutEntry(o, 3),
                   expired := {1, 3});
    StartStep(s8, 0);
    StepAt(s8, evs, 0, RunEv(0), s9, [Began(2)]);
    FireStep(s9);
    StepAt(s9, evs, 1, FireEv, s10, []);
    DrainStep(s10, 0);
    StepAt(s10, evs, 2, RunEv(0), AfterSecondDrain(o, v), []);
    assert evs[0..] == evs && evs[3..] == [];
  }

  lemma {:induction false} RaceOverlapRuns(o: bool, v: Value)
    ensures RunEvents(AfterSecondDrain(o, v), RaceOverlap(o)) == AfterOverlap(o, v)
  {
    var evs := RaceOverlap(o);
    var s11 := AfterSecondDrain(o, v);
    var s12 := s11.(queue := [Task(3, o, 0)], futures := s11.futures + [Pending], status := Busy,
                    pending := [NextCurrent]);
    PushStep(s11, o);
    StepAt(s11, evs, 0, PushEv(true, o), s12, []);
    StartStep(s12, 0);
    StepAt(s12, evs, 1, RunEv(0), AfterOverlap(o, v), [Began(3)]);
    assert evs[0..] == evs && evs[2..] == [];
  }

  /** The race, from any state that equals the constructed one field by field. */
  lemma RaceFrom(s0: State, o: bool, v: Value)
    requires s0.status == Idle && s0.queue == [] && s0.id == 0 && s0.timer == Disarmed && s0.pending == []
    requires s0.futures == [] && s0.started == [] && s0.running == {} && s0.timedOut == [] && s0.expired == {}
    ensures RunEvents(s0, RaceScript(o, v)) == AfterOverlap(o, v)
  {
    RaceStartRuns(s0, o);
    RaceLateRuns(o, v);
    RaceSecondRuns(o, v);
    RaceOverlapRuns(o, v);
    RunEventsAppend(AfterLateStart(o, v), RaceSecond(o), RaceOverlap(o));
    RunEventsAppend(AfterDrain(o), RaceLate(o, v), RaceSecond(o) + RaceOverlap(o));
    RunEventsAppend(s0, RaceStart(o), RaceLate(o, v) + (RaceSecond(o) + RaceOverlap(o)));
  }

  /**
   In the code as written, from a fresh queue, the race ends with the body of
   slot 2 still running beside the current slot 4, although slot 2's timer
   never fired.
   */
  lemma RaceRun(o: bool, v: Value)
    ensures var t := RunEvents(Init(), RaceScript(o, v));
      && 2 in t.running && 2 !in t.expired && 2 != t.id
      && t.id == 4 && 4 in t.running && t.expired == {1, 3}
      && !OverlapExplained(t)
  {
    RaceFrom(Init(), o, v);
  }

  // ---------------------------------------------------------------------------
  // The corrected driver
  // ---------------------------------------------------------------------------

  /**
   `_next(id)` with the fix: a drain also moves the slot counter on, so no
   continuation captured so far passes the id guard again.
   */
  function NextFixed(s: State, id: nat): (r: State)
    ensures id != s.id || s.status == Idle ==> r == s
    ensures id == s.id && s.status != Idle && s.queue == [] ==>
      r == s.(timer := Disarmed, status := if s.status == Busy then Idle else Closed, id := s.id + 1)
    // with a backlog it is the driver as written
    ensures s.queue != [] ==> r == Next(s, id)
  {
    var r := Next(s, id);
    if id == s.id && s.status != Idle && s.queue == [] then r.(id := s.id + 1) else r
  }

  function RunContinuationFixed(s: State, k: nat): (r: State)
    requires k < |s.pending|
    ensures s.queue != [] ==> r == RunContinuation(s, k)
  {
    var c := s.pending[k];
    var s1 := s.(pending := RemoveAt(s.pending, k));
    match c
    case NextCurrent => NextFixed(s1, s1.id)
    case NextFor(slot) => NextFixed(s1, slot)
  }

  datatype Option<T> = None | Some(value: T)

  /**
   The started record of `slot`. Under the fix slot numbers skip the ones a
   drain used up, so a record is found by its own slot, not by its position.
   */
  function Lookup(started: seq<Task>, slot: nat): (r: Option<Task>)
    ensures r.Some? ==> r.value in started && r.value.slot == slot
    ensures r.None? ==> forall i :: 0 <= i < |started| ==> started[i].slot != slot
    decreases |started|
  {
    if started == [] then None
    else if started[|started| - 1].slot == slot then Some(started[|started| - 1])
    else Lookup(started[..|started| - 1], slot)
  }

  /** Starting a task adds its record and hides no earlier one of another slot. */
  lemma LookupAppend(started: seq<Task>, t: Task, slot: nat)
    ensures Lookup(started + [t], slot) == if t.slot == slot then Some(t) else Lookup(started, slot)
  {
    assert (started + [t])[..|started|] == started;
  }

  /** While slots are numbered without gaps, the record of a slot is the one at its position. */
  lemma {:induction false} LookupDense(started: seq<Task>, slot: nat)
    requires forall i :: 0 <= i < |started| ==> started[i].slot == i + 1
    ensures 1 <= slot <= |started| ==> Lookup(started, slot) == Some(started[slot - 1])
    ensures Lookup(started, slot).Some? ==> 1 <= slot <= |started|
    decreases |started|
  {
    if started != [] && started[|started| - 1].slot != slot {
      LookupDense(started[..|started| - 1], slot);
    }
  }

  predicate CanFireFixed(s: State)
  {
    s.timer.Armed? && Lookup(s.started, s.timer.slot).Some?
  }

  /** The armed timer fires; the record whose `hasOnTimeout` is read is found by its slot. */
  function TimerFireFixed(s: State): (r: State)
    requires CanFireFixed(s)
    ensures r.timer == Fired(s.timer.slot)
    ensures r.pending == s.pending + [NextFor(s.timer.slot)]
    ensures r.timedOut == s.timedOut + (if Lookup(s.started, s.timer.slot).value.hasOnTimeout then [s.timer.slot] else [])
    ensures r.running == s.running && r.queue == s.queue && r.id == s.id && r.status == s.status
    ensures r.futures == s.futures && r.started == s.started
    ensures r.expired == s.expired + {s.timer.slot}
    // on the record the code as written reads, this is its timer callback
    ensures CanFire(s) && Lookup(s.started, s.timer.slot) == Some(s.started[s.timer.slot - 1]) ==> r == TimerFire(s)
  {
    var slot := s.timer.slot;
    var task := Lookup(s.started, slot).value;
    var s1 := s.(pending := s.pending + [NextFor(slot)], timer := Fired(slot), expired := s.expired + {slot});
    if task.hasOnTimeout then s1.(timedOut := s1.timedOut + [slot]) else s1
  }

  predicate CanSettleFixed(s: State, slot: nat)
  {
    slot in s.running && Lookup(s.started, slot).Some? && Lookup(s.started, slot).value.ticket < |s.futures|
  }

  /** `task.fn` of `slot` settles the future of the record found by its slot. */
  function SettleFixed(s: State, slot: nat, o: Outcome): (r: State)
    requires CanSettleFixed(s, slot)
    ensures r.running == s.running - {slot}
    ensures r.pending == s.pending + [NextFor(slot)]
    ensures var t := Lookup(s.started, slot).value.ticket;
      && |r.futures| == |s.futures|
      && (s.futures[t].Pending? ==> r.futures[t] == Settled(Expected(o)))
      && (forall i :: 0 <= i < |s.futures| && i != t ==> r.futures[i] == s.futures[i])
    ensures r.queue == s.queue && r.id == s.id && r.status == s.status && r.timer == s.timer
    ensures r.started == s.started && r.timedOut == s.timedOut && r.expired == s.expired
    // on the record the code as written reads, this is its settlement
    ensures CanSettle(s, slot) && Lookup(s.started, slot) == Some(s.started[slot - 1]) ==> r == Settle(s, slot, o)
  {
    var t := Lookup(s.started, slot).value.ticket;
    var f := s.futures[t];
    var f' := match o
      case Returned(v) => Resolve(f, v)
      case Threw(e) => Resolve(Reject(f, e), Undefined);
    s.(running := s.running - {slot}, futures := s.futures[t := f'], pending := s.pending + [NextFor(slot)])
  }

  /** Whether the environment can produce `e` in a state of the corrected queue. */
  predicate EnabledFixed(s: State, e: Event)
  {
    match e
    case FireEv => CanFireFixed(s)
    case SettleEv(slot, _) => CanSettleFixed(s, slot)
    case _ => Enabled(s, e)
  }

  /**
   One event of the corrected queue: a continuation runs `NextFixed`, and a
   timer or a body finds its record by slot. Pushes and closes are as written.
   */
  function StepFixed(s: State, e: Event): (r: State)
    ensures e.PushEv? || e.CloseEv? || (e.RunEv? && s.queue != []) ==> r == Step(s, e)
  {
    if !EnabledFixed(s, e) then s
    else match e
      case RunEv(k) => RunContinuationFixed(s, k)
      case FireEv => TimerFireFixed(s)
      case SettleEv(slot, o) => SettleFixed(s, slot, o)
      case _ => Step(s, e)
  }

  function RunEventsFixed(s: State, evs: seq<Event>): State
    decreases evs
  {
    if evs == [] then s else RunEventsFixed(StepFixed(s, evs[0]), evs[1..])
  }

  /**
   Until the first drain the fix changes nothing: on a well-formed queue
   (slots without gaps), every event but a continuation run on an empty
   backlog steps exactly as the code as written.
   */
  lemma StepFixedAgrees(s: State, e: Event)
    requires WellFormed(s)
    requires e.RunEv? ==> s.queue != []
    ensures StepFixed(s, e) == Step(s, e)
  {
    match e {
      case FireEv =>
        if !s.timer.Disarmed? {
          LookupDense(s.started, s.timer.slot);
        }
      case SettleEv(slot, o) =>
        LookupDense(s.started, slot);
      case _ =>
    }
  }

  // ---------------------------------------------------------------------------
  // The invariant of the corrected queue
  // ---------------------------------------------------------------------------

  /** Slots in flight, captured and armed lie at or below the counter; the timer is the current slot's. */
  ghost predicate SlotsBelowCounter(s: State)
  {
    && (forall x :: x in s.running ==> x <= s.id)
    && (forall c :: c in s.pending && c.NextFor? ==> c.slot <= s.id)
    && (!s.timer.Disarmed? ==> s.timer.slot == s.id)
  }

  /**
   A call that would pass the id guard is scheduled only when the current
   body has ended or its timer fired: one captured for the current slot says
   so itself, and the push-triggered one is the only live call, with nothing
   running in the current slot and no timer. An idle queue has none of them.
   */
  ghost predicate LiveCallsCertified(s: State)
  {
    && (NextFor(s.id) in s.pending && s.id in s.running ==> s.id in s.expired)
    && (NextCurrent in s.pending ==> NextFor(s.id) !in s.pending && s.id !in s.running && s.timer.Disarmed?)
    && multiset(s.pending)[NextCurrent] <= 1
    && (s.status == Idle ==>
          s.timer.Disarmed? && NextCurrent !in s.pending && NextFor(s.id) !in s.pending && s.id !in s.running)
  }

  /**
   Every running body and the timer's slot have a started record, and every
   ticket in flight or in the backlog names a future of the caller.
   */
  ghost predicate Tracked(s: State)
  {
    && (forall x :: x in s.running ==> Lookup(s.started, x).Some? && Lookup(s.started, x).value.ticket < |s.futures|)
    && (!s.timer.Disarmed? ==> Lookup(s.started, s.timer.slot).Some?)
    && (forall j :: 0 <= j < |s.queue| ==> s.queue[j].ticket < |s.futures|)
    && (s.status == Idle ==> s.queue == [])
  }

  ghost predicate FixedCore(s: State)
  {
    SlotsBelowCounter(s) && LiveCallsCertified(s) && OverlapExplained(s) && Tracked(s)
  }

  ghost predicate FixedInv(s: State)
  {
    FixedCore(s) && NeverStalls(s)
  }

  lemma InitSatisfiesFixedInv()
    ensures FixedInv(Init())
  {
  }

  /** Starting the head in slot `id + 1` keeps every record findable and adds the new one. */
  lemma StartKeepsTracked(s: State, r: State)
    requires SlotsBelowCounter(s) && Tracked(s) && s.queue != []
    requires r == s.(queue := s.queue[1..], id := s.id + 1, started := s.started + [s.queue[0].(slot := s.id + 1)],
                     running := s.running + {s.id + 1}, timer := Armed(s.id + 1))
    ensures Tracked(r)
  {
    var t := s.queue[0].(slot := s.id + 1);
    forall x | x in r.running
      ensures Lookup(r.started, x).Some? && Lookup(r.started, x).value.ticket < |r.futures|
    {
      LookupAppend(s.started, t, x);
    }
    LookupAppend(s.started, t, s.id + 1);
  }

  /** A live call on a busy or closed queue, under the fix, keeps the invariant. */
  lemma LiveNextFixedKeepsInv(s: State)
    requires FixedCore(s)
    requires s.status != Idle && NextCurrent !in s.pending
    requires s.id in s.running ==> s.id in s.expired
    ensures FixedInv(NextFixed(s, s.id))
  {
    var r := NextFixed(s, s.id);
    assert r.id == s.id + 1;
    assert NextFor(s.id + 1) !in s.pending;
    if s.queue != [] {
      StartKeepsTracked(s, r);
    }
  }

  lemma RunFixedKeepsInv(s: State, k: nat)
    requires FixedInv(s)
    requires k < |s.pending|
    ensures FixedInv(RunContinuationFixed(s, k))
  {
    var c := s.pending[k];
    var s1 := s.(pending := RemoveAt(s.pending, k));
    RemoveAtCounts(s.pending, k);
    var arg := if c.NextCurrent? then s.id else c.slot;
    assert RunContinuationFixed(s, k) == NextFixed(s1, arg);
    assert SlotsBelowCounter(s1);
    if arg == s.id && s.status != Idle {
      // the call is live: the current body has ended or expired, and it was the only live call
      assert multiset(s1.pending)[NextCurrent] == 0 by {
        if c == NextFor(s.id) {
          assert NextCurrent !in s.pending;
        }
      }
      LiveNextFixedKeepsInv(s1);
    } else {
      // a stale call was neither live call, so whichever of them was scheduled still is
      assert c != NextCurrent || s.status == Idle;
      assert c != NextFor(s.id) || s.status == Idle;
    }
  }

  lemma PushFixedKeepsInv(s: State, isFunction: bool, hasOnTimeout: bool)
    requires FixedInv(s)
    ensures FixedInv(Push(s, isFunction, hasOnTimeout).1)
  {
  }

  lemma FireFixedKeepsInv(s: State)
    requires FixedInv(s) && CanFireFixed(s)
    ensures FixedInv(TimerFireFixed(s))
  {
    assert s.timer.slot == s.id;
  }

  lemma SettleFixedKeepsInv(s: State, slot: nat, o: Outcome)
    requires FixedInv(s) && CanSettleFixed(s, slot)
    ensures FixedInv(SettleFixed(s, slot, o))
  {
  }

  lemma StepFixedKeepsInv(s: State, e: Event)
    requires FixedInv(s)
    ensures FixedInv(StepFixed(s, e))
  {
    if EnabledFixed(s, e) {
      match e {
        case PushEv(isFunction, hasOnTimeout) => PushFixedKeepsInv(s, isFunction, hasOnTimeout);
        case CloseEv =>
        case RunEv(k) => RunFixedKeepsInv(s, k);
        case FireEv => FireFixedKeepsInv(s);
        case SettleEv(slot, o) => SettleFixedKeepsInv(s, slot, o);
      }
    }
  }

  lemma {:induction false} RunEventsFixedKeepsInv(s: State, evs: seq<Event>)
    requires FixedInv(s)
    ensures FixedInv(RunEventsFixed(s, evs))
    decreases evs
  {
    if evs != [] {
      StepFixedKeepsInv(s, evs[0]);
      RunEventsFixedKeepsInv(StepFixed(s, evs[0]), evs[1..]);
    }
  }

  /**
   With the fix, from a fresh queue, whatever the events: every body still
   running except the current slot's has had its timer fire, so at most one
   body runs whose timer has not fired.
   */
  lemma OverlapNeedsTimeout(evs: seq<Event>)
    ensures var t := RunEventsFixed(Init(), evs);
      && (forall x :: x in t.running && x != t.id ==> x in t.expired)
      && t.running - t.expired <= {t.id}
  {
    InitSatisfiesFixedInv();
    RunEventsFixedKeepsInv(Init(), evs);
  }

  /**
   With the fix the queue never freezes, from a fresh queue and whatever
   the events: every running body can still settle its own future, an armed
   timer can still fire, and a queue with work to do has a timer armed or a
   call scheduled that passes the id guard.
   */
  lemma FixedNeverFreezes(evs: seq<Event>)
    ensures var t := RunEventsFixed(Init(), evs);
      && (forall x :: x in t.running ==> EnabledFixed(t, SettleEv(x, Returned(Undefined))))
      && (t.timer.Armed? ==> EnabledFixed(t, FireEv))
      && ((t.status == Busy || (t.status == Closed && t.queue != [])) ==>
            t.timer.Armed? || NextCurrent in t.pending || NextFor(t.id) in t.pending)
  {
    InitSatisfiesFixedInv();
    RunEventsFixedKeepsInv(Init(), evs);
  }

  // ---------------------------------------------------------------------------
  // Under the fix, a drain makes every earlier continuation inert for ever
  // ---------------------------------------------------------------------------

  lemma StepFixedAdvances(s: State, e: Event)
    ensures s.id <= StepFixed(s, e).id
  {
    if e.RunEv? && Enabled(s, e) {
      var c := s.pending[e.k];
      NextAdvances(s.(pending := RemoveAt(s.pending, e.k)), if c.NextCurrent? then s.id else c.slot);
    } else {
      StepAdvances(s, e);
    }
  }

  lemma {:induction false} RunEventsFixedAdvances(s: State, evs: seq<Event>)
    ensures s.id <= RunEventsFixed(s, evs).id
    decreases evs
  {
    if evs != [] {
      StepFixedAdvances(s, evs[0]);
      RunEventsFixedAdvances(StepFixed(s, evs[0]), evs[1..]);
    }
  }

  /**
   A live call that drains the queue supersedes every slot up to the current
   one: after any further events, running a continuation captured for such a
   slot only removes it from the schedule, on an idle queue as on a busy one.
   */
  lemma DrainSupersedes(s: State, evs: seq<Event>, slot: nat)
    requires s.status != Idle && s.queue == []
    requires slot <= s.id
    ensures var t := RunEventsFixed(NextFixed(s, s.id), evs);
      forall k :: 0 <= k < |t.pending| && t.pending[k] == NextFor(slot) ==>
        RunContinuationFixed(t, k) == t.(pending := RemoveAt(t.pending, k))
  {
    RunEventsFixedAdvances(NextFixed(s, s.id), evs);
  }
}
