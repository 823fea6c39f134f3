/**
 The serial task queue `Serq` (src/index.js) as a transition system.

 The JavaScript class hides its transitions behind a promise chain (`this.pp`)
 and `setTimeout`. Here every asynchronous hand-off becomes an explicit event:
 a scheduled `_next(id)` call waits in `pending` until the environment runs it
 (in any order), a timer fires as an event, and a running task settles as an
 event. Each function below is one such event; `Inv` is what all of them keep.
 */
module SerqSpec {
  import opened Deferred

  /** `Serq.STATUS_IDLE`, `STATUS_BUSY`, `STATUS_CLOSED` (0, 1, 2). */
  datatype Status = Idle | Busy | Closed

  /**
   A task record. `ticket` is the task's place in submission order (it names
   the caller's future); `hasOnTimeout` says whether `options.ontimeout` is a
   function; `slot` is `task.id`, 0 until the record is dequeued.
   */
  datatype Task = Task(ticket: nat, hasOnTimeout: bool, slot: nat)

  /**
   `this.timer`: nothing, a timer armed for a slot, or the handle of a timer
   for that slot that has already fired (kept until the next `_next` clears it).
   */
  datatype Timer = Disarmed | Armed(slot: nat) | Fired(slot: nat)

  /**
   A scheduled call of `_next`: with the slot id it captured (timer callback,
   settle continuation), or the push-triggered call `_next(self.id)`, which
   reads the counter only when it runs.
   */
  datatype Continuation = NextFor(slot: nat) | NextCurrent

  /** How `task.fn` ended: it returned a value or threw (or rejected). */
  datatype Outcome = Returned(value: Value) | Threw(error: Value)

  /** The two synchronous errors of `push`. */
  datatype PushError = InvalidStatus | NotAFunction

  datatype PushResult = Queued(ticket: nat) | Refused(error: PushError)

  datatype State = State(
    status: Status,
    queue: seq<Task>,             // this.queue, the backlog
    id: nat,                      // this.id, the slot counter
    timer: Timer,                 // this.timer
    pending: seq<Continuation>,   // scheduled `_next` calls not yet run
    futures: seq<Future>,         // the caller's future of every accepted push, by ticket
    started: seq<Task>,           // every task dequeued so far, in start order
    running: set<nat>,            // slots whose `task.fn` has not settled yet
    timedOut: seq<nat>,           // slots whose `ontimeout` callback was invoked, in order
    expired: set<nat>             // slots whose timer callback ran
  )

  /** The state the constructor leaves (src/index.js:33-39). */
  function Init(): (s: State)
    ensures s.status == Idle && s.queue == [] && s.id == 0 && s.timer == Disarmed
  {
    State(Idle, [], 0, Disarmed, [], [], [], {}, [], {})
  }

  /** Remove the `k`-th element of a sequence. */
  function RemoveAt<T>(p: seq<T>, k: nat): (r: seq<T>)
    requires k < |p|
    ensures |r| == |p| - 1
    ensures forall x :: x in p && x != p[k] ==> x in r
    ensures forall x :: x in r ==> x in p
  {
    var r := p[..k] + p[k + 1..];
    assert forall x :: x in p && x != p[k] ==> x in r by {
      forall x | x in p && x != p[k] ensures x in r {
        var i :| 0 <= i < |p| && p[i] == x;
        if i < k { assert r[i] == x; } else { assert r[i - 1] == x; }
      }
    }
    r
  }

  // ---------------------------------------------------------------------------
  // Events
  // ---------------------------------------------------------------------------

  /**
   `push(fn, options)`. `isFunction` is `typeof fn === 'function'`;
   `hasOnTimeout` is whether `options.ontimeout` is a function.
   */
  function Push(s: State, isFunction: bool, hasOnTimeout: bool): (r: (PushResult, State))
    // a closed queue refuses first, before `fn` is looked at; nothing changes
    ensures s.status == Closed ==> r == (Refused(InvalidStatus), s)
    ensures s.status != Closed && !isFunction ==> r == (Refused(NotAFunction), s)
    // otherwise exactly one record is appended, with a fresh pending future
    ensures s.status != Closed && isFunction ==>
      && r.0 == Queued(|s.futures|)
      && r.1.queue == s.queue + [Task(|s.futures|, hasOnTimeout, 0)]
      && r.1.futures == s.futures + [Pending]
      && r.1.status == Busy
      && r.1.id == s.id && r.1.timer == s.timer && r.1.started == s.started
      && r.1.running == s.running && r.1.timedOut == s.timedOut && r.1.expired == s.expired
      // only a push onto an idle queue schedules the driver
      && r.1.pending == s.pending + (if s.status == Idle then [NextCurrent] else [])
  {
    if !s.status.Idle? && !s.status.Busy? then
      (Refused(InvalidStatus), s)
    else if !isFunction then
      (Refused(NotAFunction), s)
    else
      var ticket := |s.futures|;
      var s1 := s.(queue := s.queue + [Task(ticket, hasOnTimeout, 0)], futures := s.futures + [Pending]);
      if s.status == Idle then
        (Queued(ticket), s1.(status := Busy, pending := s1.pending + [NextCurrent]))
      else
        (Queued(ticket), s1)
  }

  /** `close()`. */
  function Close(s: State): (r: State)
    ensures r.status == Closed
    // only the status changes: the backlog and the counter stay, so queued tasks still drain
    ensures r == s.(status := Closed)
  {
    if !s.status.Idle? && !s.status.Busy? then s else s.(status := Closed)
  }

  /** `_next(id)`, the driver. */
  function Next(s: State, id: nat): (r: State)
    // a stale call, or a call on an idle queue, changes nothing
    ensures id != s.id || s.status == Idle ==> r == s
    // an empty backlog: the timer is cleared, Busy turns Idle, Closed stays Closed
    ensures id == s.id && s.status != Idle && s.queue == [] ==>
      r == s.(timer := Disarmed, status := if s.status == Busy then Idle else Closed)
    // otherwise exactly the head is started, in the next slot, with its own timer
    ensures id == s.id && s.status != Idle && s.queue != [] ==>
      && r.queue == s.queue[1..]
      && r.id == s.id + 1
      && r.started == s.started + [s.queue[0].(slot := s.id + 1)]
      && r.timer == Armed(s.id + 1)
      && r.running == s.running + {s.id + 1}
      && r.status == s.status
      && r.pending == s.pending && r.futures == s.futures && r.timedOut == s.timedOut
      && r.expired == s.expired
  {
    if s.id != id then s
    else if !s.status.Busy? && !s.status.Closed? then s
    else
      var s1 := s.(timer := Disarmed);
      if s1.queue == [] then
        if s1.status == Busy then s1.(status := Idle) else s1
      else
        var task := s1.queue[0];
        var slot := s1.id + 1;
        s1.(queue := s1.queue[1..], id := slot, started := s1.started + [task.(slot := slot)],
            running := s1.running + {slot}, timer := Armed(slot))
  }

  /** The environment runs the `k`-th scheduled `_next` call. */
  function RunContinuation(s: State, k: nat): (r: State)
    requires k < |s.pending|
    // the push-triggered call always passes the id guard
    ensures s.pending[k] == NextCurrent ==> r == Next(s.(pending := RemoveAt(s.pending, k)), s.id)
    ensures s.pending[k].NextFor? ==> r == Next(s.(pending := RemoveAt(s.pending, k)), s.pending[k].slot)
  {
    var c := s.pending[k];
    var s1 := s.(pending := RemoveAt(s.pending, k));
    match c
    case NextCurrent => Next(s1, s1.id)
    case NextFor(slot) => Next(s1, slot)
  }

  predicate CanFire(s: State)
  {
    s.timer.Armed? && 1 <= s.timer.slot <= |s.started|
  }

  /**
   The armed timer fires: `_next(task.id)` is scheduled and `ontimeout` is
   invoked when it is a function. The task itself is not stopped.
   */
  function TimerFire(s: State): (r: State)
    requires CanFire(s)
    ensures r.timer == Fired(s.timer.slot)
    ensures r.pending == s.pending + [NextFor(s.timer.slot)]
    ensures r.timedOut == s.timedOut + (if s.started[s.timer.slot - 1].hasOnTimeout then [s.timer.slot] else [])
    ensures r.running == s.running && r.queue == s.queue && r.id == s.id && r.status == s.status
    ensures r.futures == s.futures && r.started == s.started
    ensures r.expired == s.expired + {s.timer.slot}
  {
    var slot := s.timer.slot;
    var task := s.started[slot - 1];
    var s1 := s.(pending := s.pending + [NextFor(slot)], timer := Fired(slot), expired := s.expired + {slot});
    if task.hasOnTimeout then s1.(timedOut := s1.timedOut + [slot]) else s1
  }

  predicate CanSettle(s: State, slot: nat)
  {
    slot in s.running && 1 <= slot <= |s.started| && s.started[slot - 1].ticket < |s.futures|
  }

  /** What the caller's future ends up holding for a task that ended with `o`. */
  function Expected(o: Outcome): Settlement
  {
    match o
    case Returned(v) => Resolved(v)
    case Threw(e) => Rejected(e)
  }

  /**
   `task.fn` of `slot` settles, whether or not its timer already fired:
   on a throw `onerror(error)` runs and then `ondone(undefined)`; on a return
   `ondone(ret)`; then `_next(slot)` is scheduled.
   */
  function Settle(s: State, slot: nat, o: Outcome): (r: State)
    requires CanSettle(s, slot)
    ensures r.running == s.running - {slot}
    ensures r.pending == s.pending + [NextFor(slot)]
    ensures var t := s.started[slot - 1].ticket;
      && |r.futures| == |s.futures|
      && (s.futures[t].Pending? ==> r.futures[t] == Settled(Expected(o)))
      && (forall i :: 0 <= i < |s.futures| && i != t ==> r.futures[i] == s.futures[i])
    ensures r.queue == s.queue && r.id == s.id && r.status == s.status && r.timer == s.timer
    ensures r.started == s.started && r.timedOut == s.timedOut && r.expired == s.expired
  {
    var t := s.started[slot - 1].ticket;
    var f := s.futures[t];
    var f' := match o
      case Returned(v) => Resolve(f, v)
      case Threw(e) => Resolve(Reject(f, e), Undefined);
    s.(running := s.running - {slot}, futures := s.futures[t := f'], pending := s.pending + [NextFor(slot)])
  }

  // ---------------------------------------------------------------------------
  // Event sequences
  // ---------------------------------------------------------------------------

  datatype Event =
    | PushEv(isFunction: bool, hasOnTimeout: bool)
    | CloseEv
    | RunEv(k: nat)
    | FireEv
    | SettleEv(slot: nat, outcome: Outcome)

  /** Whether the environment can produce `e` in `s`. */
  predicate Enabled(s: State, e: Event)
  {
    match e
    case PushEv(_, _) => true
    case CloseEv => true
    case RunEv(k) => k < |s.pending|
    case FireEv => CanFire(s)
    case SettleEv(slot, _) => CanSettle(s, slot)
  }

  /** One event; an event that cannot happen in `s` leaves it as it is. */
  function Step(s: State, e: Event): State
  {
    if !Enabled(s, e) then s
    else match e
      case PushEv(isFunction, hasOnTimeout) => Push(s, isFunction, hasOnTimeout).1
      case CloseEv => Close(s)
      case RunEv(k) => RunContinuation(s, k)
      case FireEv => TimerFire(s)
      case SettleEv(slot, o) => Settle(s, slot, o)
  }

  function RunEvents(s: State, evs: seq<Event>): State
    decreases evs
  {
    if evs == [] then s else RunEvents(Step(s, evs[0]), evs[1..])
  }

  // ---------------------------------------------------------------------------
  // The invariant
  // ---------------------------------------------------------------------------

  /**
   Tasks start in submission order, each in the next slot: the `i`-th started
   task is the `i`-th accepted push and got slot `i + 1`; the backlog holds the
   following tickets, in order.
   */
  ghost predicate FifoSlots(s: State)
  {
    && |s.started| == s.id
    && s.id + |s.queue| == |s.futures|
    && (forall i :: 0 <= i < |s.started| ==> s.started[i].ticket == i && s.started[i].slot == i + 1)
    && (forall j :: 0 <= j < |s.queue| ==> s.queue[j].ticket == s.id + j && s.queue[j].slot == 0)
  }

  /** The one timer belongs to the current slot; an idle queue has no work and no timer. */
  ghost predicate TimerOwned(s: State)
  {
    && (!s.timer.Disarmed? ==> 1 <= s.timer.slot == s.id)
    && (s.status == Idle ==> s.queue == [] && s.timer == Disarmed)
  }

  /**
   A future is still pending exactly while its task has not started or is
   still running: every started task settles its own future once.
   */
  ghost predicate FuturesTrackRuns(s: State)
  {
    && (forall r :: r in s.running ==> 1 <= r <= s.id)
    && (forall i :: 0 <= i < |s.futures| ==> (s.futures[i].Pending? <==> (s.id <= i || i + 1 in s.running)))
  }

  /** Captured slot ids name started slots. */
  ghost predicate ContinuationsKnown(s: State)
  {
    forall c :: c in s.pending && c.NextFor? ==> 1 <= c.slot <= s.id
  }

  /**
   `ontimeout` runs at most once per task, only for a task that supplied it,
   and never for the slot whose timer is still armed.
   */
  ghost predicate TimeoutsOnce(s: State)
  {
    && |s.started| == s.id
    && (forall m :: 0 <= m < |s.timedOut| ==>
          1 <= s.timedOut[m] <= s.id && s.started[s.timedOut[m] - 1].hasOnTimeout
          && (s.timer.Armed? ==> s.timedOut[m] < s.id))
    && (forall m, n :: 0 <= m < n < |s.timedOut| ==> s.timedOut[m] < s.timedOut[n])
  }

  /**
   A queue with work to do is never stuck: a timer is armed, or a call of
   `_next` that passes the id guard is scheduled.
   */
  ghost predicate NeverStalls(s: State)
  {
    (s.status == Busy || (s.status == Closed && s.queue != [])) ==>
      s.timer.Armed? || NextCurrent in s.pending || NextFor(s.id) in s.pending
  }

  /** Everything the queue keeps except progress. */
  ghost predicate WellFormed(s: State)
  {
    && FifoSlots(s)
    && TimerOwned(s)
    && FuturesTrackRuns(s)
    && ContinuationsKnown(s)
    && TimeoutsOnce(s)
  }

  ghost predicate Inv(s: State)
  {
    WellFormed(s) && NeverStalls(s)
  }
}
