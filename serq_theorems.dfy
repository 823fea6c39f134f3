/**
 What the queue guarantees over any sequence of events: the invariant `Inv`
 holds from construction on, tasks start in submission order in strictly
 increasing slots, a closed queue stays closed and never grows, and a
 continuation whose slot has been superseded never moves the queue again.
 */
module SerqTheorems {
  import opened Deferred
  import opened SerqSpec

  // ---------------------------------------------------------------------------
  // Each event keeps the invariant
  // ---------------------------------------------------------------------------

  lemma InitSatisfiesInv()
    ensures Inv(Init())
  {
  }

  lemma PushKeepsInv(s: State, isFunction: bool, hasOnTimeout: bool)
    requires Inv(s)
    ensures Inv(Push(s, isFunction, hasOnTimeout).1)
  {
    var r := Push(s, isFunction, hasOnTimeout).1;
    if s.status != Closed && isFunction {
      assert forall j :: 0 <= j < |r.queue| ==> r.queue[j].ticket == r.id + j && r.queue[j].slot == 0 by {
        forall j | 0 <= j < |r.queue| ensures r.queue[j].ticket == r.id + j && r.queue[j].slot == 0 {
          if j < |s.queue| { assert r.queue[j] == s.queue[j]; }
        }
      }
      assert FifoSlots(r);
      assert FuturesTrackRuns(r) by {
        forall i | 0 <= i < |r.futures|
          ensures r.futures[i].Pending? <==> (r.id <= i || i + 1 in r.running)
        {
          if i < |s.futures| { assert r.futures[i] == s.futures[i]; }
        }
      }
    }
  }

  lemma CloseKeepsInv(s: State)
    requires Inv(s)
    ensures Inv(Close(s))
  {
  }

  lemma NextKeepsWellFormed(s: State, id: nat)
    requires WellFormed(s)
    ensures WellFormed(Next(s, id))
  {
    var r := Next(s, id);
    if id == s.id && s.status != Idle && s.queue != [] {
      assert FifoSlots(r) by {
        forall i | 0 <= i < |r.started|
          ensures r.started[i].ticket == i && r.started[i].slot == i + 1
        {
          if i < |s.started| { assert r.started[i] == s.started[i]; }
        }
        forall j | 0 <= j < |r.queue|
          ensures r.queue[j].ticket == r.id + j && r.queue[j].slot == 0
        {
          assert r.queue[j] == s.queue[j + 1];
        }
      }
      assert TimeoutsOnce(r) by {
        forall m | 0 <= m < |r.timedOut|
          ensures r.started[r.timedOut[m] - 1].hasOnTimeout
        {
          assert r.started[r.timedOut[m] - 1] == s.started[s.timedOut[m] - 1];
        }
      }
    }
  }

  lemma NextKeepsInv(s: State, id: nat)
    requires Inv(s)
    ensures Inv(Next(s, id))
  {
    NextKeepsWellFormed(s, id);
  }

  /** Taking a continuation off the schedule keeps everything but progress. */
  lemma DropKeepsWellFormed(s: State, k: nat)
    requires WellFormed(s)
    requires k < |s.pending|
    ensures WellFormed(s.(pending := RemoveAt(s.pending, k)))
  {
  }

  lemma RunContinuationKeepsInv(s: State, k: nat)
    requires Inv(s)
    requires k < |s.pending|
    ensures Inv(RunContinuation(s, k))
  {
    var c := s.pending[k];
    var s1 := s.(pending := RemoveAt(s.pending, k));
    var arg := if c.NextCurrent? then s.id else c.slot;
    assert RunContinuation(s, k) == Next(s1, arg);
    DropKeepsWellFormed(s, k);
    NextKeepsWellFormed(s1, arg);
    if arg != s.id || s.status == Idle {
      // a stale call changes nothing, and whatever showed progress before was not this call
      assert (c != NextCurrent && c != NextFor(s.id)) || s.status == Idle;
      assert NeverStalls(s1);
    }
    // a call that passes both guards starts the head or drains, re-establishing progress itself
  }

  lemma TimerFireKeepsInv(s: State)
    requires Inv(s)
    requires CanFire(s)
    ensures Inv(TimerFire(s))
  {
    var r := TimerFire(s);
    assert TimeoutsOnce(r) by {
      forall m | 0 <= m < |r.timedOut|
        ensures 1 <= r.timedOut[m] <= r.id && r.started[r.timedOut[m] - 1].hasOnTimeout
      {
        if m < |s.timedOut| { assert r.timedOut[m] == s.timedOut[m]; }
      }
      forall m, n | 0 <= m < n < |r.timedOut| ensures r.timedOut[m] < r.timedOut[n] {
        if n < |s.timedOut| { assert r.timedOut[n] == s.timedOut[n] && r.timedOut[m] == s.timedOut[m]; }
        else { assert r.timedOut[m] == s.timedOut[m]; }
      }
    }
    assert NextFor(r.id) in r.pending;
  }

  lemma SettleKeepsInv(s: State, slot: nat, o: Outcome)
    requires Inv(s)
    requires CanSettle(s, slot)
    ensures Inv(Settle(s, slot, o))
  {
    var r := Settle(s, slot, o);
    var t := s.started[slot - 1].ticket;
    assert t == slot - 1;
    assert FuturesTrackRuns(r) by {
      forall i | 0 <= i < |r.futures|
        ensures r.futures[i].Pending? <==> (r.id <= i || i + 1 in r.running)
      {
        if i != t { assert r.futures[i] == s.futures[i]; }
      }
    }
    assert s.futures[t].Pending?;
  }

  lemma StepKeepsInv(s: State, e: Event)
    requires Inv(s)
    ensures Inv(Step(s, e))
  {
    if Enabled(s, e) {
      match e
      case PushEv(isFunction, hasOnTimeout) => PushKeepsInv(s, isFunction, hasOnTimeout);
      case CloseEv => CloseKeepsInv(s);
      case RunEv(k) => RunContinuationKeepsInv(s, k);
      case FireEv => TimerFireKeepsInv(s);
      case SettleEv(slot, o) => SettleKeepsInv(s, slot, o);
    }
  }

  lemma {:induction false} RunEventsKeepsInv(s: State, evs: seq<Event>)
    requires Inv(s)
    ensures Inv(RunEvents(s, evs))
    decreases evs
  {
    if evs != [] {
      StepKeepsInv(s, evs[0]);
      RunEventsKeepsInv(Step(s, evs[0]), evs[1..]);
    }
  }

  // ---------------------------------------------------------------------------
  // What only grows, and what a closed queue keeps
  // ---------------------------------------------------------------------------

  /** `a` is a trailing part of `b`. */
  ghost predicate SuffixOf<T>(a: seq<T>, b: seq<T>)
  {
    |a| <= |b| && a == b[|b| - |a|..]
  }

  lemma SuffixTransitive<T>(a: seq<T>, b: seq<T>, c: seq<T>)
    requires SuffixOf(a, b) && SuffixOf(b, c)
    ensures SuffixOf(a, c)
  {
    assert c[|c| - |a|..] == c[|c| - |b|..][|b| - |a|..];
  }

  /**
   What one event can do to the record of the past: the counter never goes
   back, the start log and the `ontimeout` log only grow, and once closed a
   queue stays closed, accepts nothing and only loses backlog from the front.
   */
  ghost predicate Advances(s: State, r: State)
  {
    && s.id <= r.id
    && s.started <= r.started
    && s.timedOut <= r.timedOut
    && |s.futures| <= |r.futures|
    && (s.status == Closed ==>
          r.status == Closed && |r.futures| == |s.futures| && SuffixOf(r.queue, s.queue))
  }

  lemma NextAdvances(s: State, id: nat)
    ensures Advances(s, Next(s, id))
  {
    var r := Next(s, id);
    if s.status == Closed && id == s.id && s.queue != [] {
      assert r.queue == s.queue[1..];
    }
  }

  lemma StepAdvances(s: State, e: Event)
    ensures Advances(s, Step(s, e))
  {
    if Enabled(s, e) && e.RunEv? {
      var c := s.pending[e.k];
      var s1 := s.(pending := RemoveAt(s.pending, e.k));
      NextAdvances(s1, if c.NextCurrent? then s.id else c.slot);
    }
  }

  lemma {:induction false} RunEventsAdvances(s: State, evs: seq<Event>)
    ensures Advances(s, RunEvents(s, evs))
    decreases evs
  {
    if evs != [] {
      var s1 := Step(s, evs[0]);
      var r := RunEvents(s1, evs[1..]);
      StepAdvances(s, evs[0]);
      RunEventsAdvances(s1, evs[1..]);
      if s.status == Closed {
        SuffixTransitive(r.queue, s1.queue, s.queue);
      }
    }
  }

  // ---------------------------------------------------------------------------
  // Guarantees over every run from construction
  // ---------------------------------------------------------------------------

  /**
   From a fresh queue, whatever the events: the `i`-th task to start is the
   `i`-th accepted push and runs in slot `i + 1`, so start order is push
   order and slot ids strictly increase; the one timer belongs to the current
   slot; `ontimeout` ran at most once per task.
   */
  lemma {:induction false} StartOrderIsPushOrder(evs: seq<Event>)
    ensures var t := RunEvents(Init(), evs);
      && (forall i :: 0 <= i < |t.started| ==> t.started[i].ticket == i && t.started[i].slot == i + 1)
      && (forall i, j :: 0 <= i < j < |t.started| ==> t.started[i].slot < t.started[j].slot)
      && (!t.timer.Disarmed? ==> t.timer.slot == |t.started|)
      && (forall m, n :: 0 <= m < n < |t.timedOut| ==> t.timedOut[m] < t.timedOut[n])
  {
    InitSatisfiesInv();
    RunEventsKeepsInv(Init(), evs);
  }

  /** Closed is absorbing: no later event reopens the queue or adds to its backlog. */
  lemma ClosedIsAbsorbing(s: State, evs: seq<Event>)
    requires s.status == Closed
    ensures var t := RunEvents(s, evs);
      t.status == Closed && |t.futures| == |s.futures| && SuffixOf(t.queue, s.queue)
  {
    RunEventsAdvances(s, evs);
  }

  /**
   A continuation whose slot has been superseded stays inert for ever: after
   any further events, running it removes it from the schedule and changes
   nothing else.
   */
  lemma SupersededContinuationIsInert(s: State, evs: seq<Event>, slot: nat)
    requires slot < s.id
    ensures var t := RunEvents(s, evs);
      forall k :: 0 <= k < |t.pending| && t.pending[k] == NextFor(slot) ==>
        RunContinuation(t, k) == t.(pending := RemoveAt(t.pending, k))
  {
    RunEventsAdvances(s, evs);
  }

  lemma RemoveLast<T>(p: seq<T>, x: T)
    ensures RemoveAt(p + [x], |p|) == p
  {
    assert (p + [x])[..|p|] == p;
  }

  /**
   A task settles: its caller's future receives the task's own outcome (a
   throw rejects it; the `ondone(undefined)` that follows is lost). When the
   queue has already moved past the task's slot, or has gone idle, the
   continuation this schedules moves nothing when it is run next (on an idle
   queue a later push can make it live again).
   */
  lemma SettleDelivers(s: State, slot: nat, o: Outcome)
    requires Inv(s)
    requires CanSettle(s, slot)
    ensures var r := Settle(s, slot, o);
      && r.futures[slot - 1] == Settled(Expected(o))
      && ((slot < s.id || s.status == Idle) ==>
            RunContinuation(r, |r.pending| - 1) == s.(running := r.running, futures := r.futures))
  {
    var r := Settle(s, slot, o);
    assert s.started[slot - 1].ticket == slot - 1;
    RemoveLast(s.pending, NextFor(slot));
  }

  // ---------------------------------------------------------------------------
  // Without timeouts, task bodies never overlap
  // ---------------------------------------------------------------------------

  lemma RemoveAtCounts<T>(p: seq<T>, k: nat)
    requires k < |p|
    ensures multiset(RemoveAt(p, k)) == multiset(p) - multiset{p[k]}
  {
    assert p == p[..k] + [p[k]] + p[k + 1..];
  }

  /**
   How many scheduled continuations would pass the id guard now: the
   push-triggered call and those captured for the current slot.
   */
  ghost function LiveContinuations(s: State): nat
  {
    multiset(s.pending)[NextCurrent] + multiset(s.pending)[NextFor(s.id)]
  }

  /**
   The "baton" of a queue whose timers never fire: at most one of the current
   task body and a live continuation exists, only the current slot can be
   running, and an idle queue holds neither.
   */
  ghost predicate Baton(s: State)
  {
    && s.running <= {s.id}
    && LiveContinuations(s) + |s.running| <= 1
    && (s.status == Idle ==> LiveContinuations(s) == 0 && s.running == {})
  }

  ghost predicate OneAtATime(s: State)
  {
    Inv(s) && Baton(s)
  }

  /** A `_next` that passes both guards while holding the baton passes it on. */
  lemma LiveNextKeepsBaton(s: State)
    requires ContinuationsKnown(s)
    requires s.running == {} && LiveContinuations(s) == 0 && s.status != Idle
    ensures Baton(Next(s, s.id))
    ensures LiveContinuations(Next(s, s.id)) == 0
  {
    var r := Next(s, s.id);
    if s.queue != [] {
      assert NextFor(s.id + 1) !in s.pending;
      assert LiveContinuations(r) == multiset(s.pending)[NextCurrent];
    }
  }

  /** A continuation keeps the baton; one that starts a task finds no body in flight. */
  lemma RunKeepsOneAtATime(s: State, k: nat)
    requires OneAtATime(s)
    requires k < |s.pending|
    ensures OneAtATime(RunContinuation(s, k))
    ensures |RunContinuation(s, k).started| > |s.started| ==> s.running == {}
  {
    RunContinuationKeepsInv(s, k);
    var c := s.pending[k];
    var s1 := s.(pending := RemoveAt(s.pending, k));
    var arg := if c.NextCurrent? then s.id else c.slot;
    assert RunContinuation(s, k) == Next(s1, arg);
    RemoveAtCounts(s.pending, k);
    if arg == s.id && s.status != Idle {
      assert c == NextCurrent || c == NextFor(s.id);
      assert LiveContinuations(s1) + 1 == LiveContinuations(s);
      LiveNextKeepsBaton(s1);
    } else {
      assert LiveContinuations(s1) <= LiveContinuations(s);
    }
  }

  /** A settle hands the baton from the current body to its continuation. */
  lemma SettleKeepsOneAtATime(s: State, slot: nat, o: Outcome)
    requires OneAtATime(s)
    requires CanSettle(s, slot)
    ensures OneAtATime(Settle(s, slot, o))
  {
    SettleKeepsInv(s, slot, o);
    assert slot == s.id;
  }

  /**
   In a baton state, every event but a timer fire keeps the baton, and a task
   starts only when no other task body is still in flight.
   */
  lemma StepKeepsOneAtATime(s: State, e: Event)
    requires OneAtATime(s)
    requires !e.FireEv?
    ensures OneAtATime(Step(s, e))
    ensures |Step(s, e).started| > |s.started| ==> s.running == {}
  {
    if Enabled(s, e) {
      match e
      case PushEv(isFunction, hasOnTimeout) => PushKeepsInv(s, isFunction, hasOnTimeout);
      case CloseEv => CloseKeepsInv(s);
      case RunEv(k) => RunKeepsOneAtATime(s, k);
      case SettleEv(slot, o) => SettleKeepsOneAtATime(s, slot, o);
    }
  }

  lemma {:induction false} RunEventsKeepsOneAtATime(s: State, evs: seq<Event>)
    requires OneAtATime(s)
    requires forall i :: 0 <= i < |evs| ==> !evs[i].FireEv?
    ensures OneAtATime(RunEvents(s, evs))
    decreases evs
  {
    if evs != [] {
      StepKeepsOneAtATime(s, evs[0]);
      RunEventsKeepsOneAtATime(Step(s, evs[0]), evs[1..]);
    }
  }

  /**
   From a fresh queue, as long as no timer fires, the tasks run one at a time:
   at most the current slot is running, and no event starts a task while
   another task's body is still in flight.
   */
  lemma SerialWithoutTimeouts(evs: seq<Event>)
    requires forall i :: 0 <= i < |evs| ==> !evs[i].FireEv?
    ensures var t := RunEvents(Init(), evs);
      && t.running <= {t.id}
      && forall e: Event :: !e.FireEv? && |Step(t, e).started| > |t.started| ==> t.running == {}
  {
    InitSatisfiesInv();
    assert OneAtATime(Init());
    RunEventsKeepsOneAtATime(Init(), evs);
    var t := RunEvents(Init(), evs);
    forall e: Event | !e.FireEv? && |Step(t, e).started| > |t.started| ensures t.running == {} {
      StepKeepsOneAtATime(t, e);
    }
  }

  /** A push onto a closed queue fails, whatever `fn` is, and changes nothing. */
  lemma PushAfterCloseFails(s: State, isFunction: bool, hasOnTimeout: bool)
    ensures Push(Close(s), isFunction, hasOnTimeout) == (Refused(InvalidStatus), Close(s))
    ensures Close(Close(s)) == Close(s)
  {
  }
}
