/**
 The class `Serq` itself (src/index.js:28-110): the object whose methods
 update its fields in place. Every method is proved against the event of the
 same name in `SerqSpec`, so everything proved there about the events, and in
 `SerqTheorems` about runs of them, holds of the object.

 The promise chain `this.pp` is the field `pending`: each `.then(...)` that
 ends in a `_next(id)` call appends one continuation, and `RunContinuation`
 is the event loop getting round to one of them. `futures` and `started`
 stand for what the closures of the JavaScript hold: the callers' promises
 and the dequeued task records. The ghost fields `running`, `timedOut` and
 `expired` have no counterpart in the object; they record the task bodies
 still in flight, the `ontimeout` calls made and the timers that fired, for
 the proofs.
 */
module SerqQueue {
  import opened Deferred
  import opened SerqSpec
  import opened SerqTheorems

  /** `DEFAULT_TIMEOUT`, in milliseconds. */
  const DefaultTimeout: int := 3000

  class Serq {
    var status: Status
    var queue: seq<Task>
    var id: nat
    var timer: Timer
    var pending: seq<Continuation>
    var futures: seq<Future>
    var started: seq<Task>
    ghost var running: set<nat>
    ghost var timedOut: seq<nat>
    ghost var expired: set<nat>
    /** The duration every task timer is armed with; it only decides when a fire can happen. */
    const timeout: int

    /** The fields as one value of the transition system. */
    ghost function Snapshot(): State
      reads this
    {
      State(status, queue, id, timer, pending, futures, started, running, timedOut, expired)
    }

    ghost predicate Valid()
      reads this
    {
      Inv(Snapshot())
    }

    /** `new Serq(timeout)`: idle, empty, slot counter 0, no timer. */
    constructor(timeout: int := DefaultTimeout)
      ensures Valid()
      ensures Snapshot() == Init() && this.timeout == timeout
    {
      this.id := 0;
      this.timeout := timeout;
      this.status := Idle;
      this.queue := [];
      this.timer := Disarmed;
      this.pending := [];
      this.futures := [];
      this.started := [];
      this.running := {};
      this.timedOut := [];
      this.expired := {};
      InitSatisfiesInv();
    }

    /**
     `push(fn, options)`: refuses on a closed queue before looking at `fn`,
     then refuses a non-function; otherwise appends the record with a fresh
     pending future and, on an idle queue, turns busy and schedules `_next`.
     */
    method Push(isFunction: bool, hasOnTimeout: bool) returns (r: PushResult)
      requires Valid()
      modifies this
      ensures Valid()
      ensures (r, Snapshot()) == SerqSpec.Push(old(Snapshot()), isFunction, hasOnTimeout)
    {
      ghost var s0 := Snapshot();
      if !status.Idle? && !status.Busy? {
        return Refused(InvalidStatus);
      }
      if !isFunction {
        return Refused(NotAFunction);
      }
      var ticket := |futures|;
      futures := futures + [Pending];
      queue := queue + [Task(ticket, hasOnTimeout, 0)];
      if status.Idle? {
        status := Busy;
        pending := pending + [NextCurrent];
      }
      r := Queued(ticket);
      PushKeepsInv(s0, isFunction, hasOnTimeout);
    }

    /** `close()`: an idle or busy queue becomes closed; a closed one is left alone. */
    method Close()
      requires Valid()
      modifies this
      ensures Valid()
      ensures Snapshot() == SerqSpec.Close(old(Snapshot()))
    {
      ghost var s0 := Snapshot();
      if !status.Idle? && !status.Busy? {
        return;
      }
      status := Closed;
      CloseKeepsInv(s0);
    }

    /**
     `_next(id)`: ignores a stale id and an idle queue; otherwise clears the
     timer and either settles into idle (closed stays closed) or dequeues the
     head into the next slot, arms its timer and sets its body running.
     */
    method Next(id: nat)
      requires WellFormed(Snapshot())
      modifies this
      ensures WellFormed(Snapshot())
      ensures Snapshot() == SerqSpec.Next(old(Snapshot()), id)
    {
      ghost var s0 := Snapshot();
      if this.id == id && (status.Busy? || status.Closed?) {
        timer := Disarmed;
        if queue == [] {
          if status.Busy? {
            status := Idle;
          }
        } else {
          var task := queue[0];
          queue := queue[1..];
          this.id := this.id + 1;
          var slot := this.id;
          started := started + [task.(slot := slot)];
          timer := Armed(slot);
          running := running + {slot};
        }
      }
      assert Snapshot() == SerqSpec.Next(s0, id);
      NextKeepsWellFormed(s0, id);
    }

    /** The event loop runs the `k`-th scheduled continuation: its `_next` call. */
    method RunContinuation(k: nat)
      requires Valid()
      requires k < |pending|
      modifies this
      ensures Valid()
      ensures Snapshot() == SerqSpec.RunContinuation(old(Snapshot()), k)
    {
      ghost var s0 := Snapshot();
      RunContinuationKeepsInv(s0, k);
      DropKeepsWellFormed(s0, k);
      var c := pending[k];
      pending := RemoveAt(pending, k);
      match c
      case NextCurrent => Next(this.id);
      case NextFor(slot) => Next(slot);
    }

    /**
     The current task's timer fires: it schedules `_next` for that task's
     slot and calls the task's `ontimeout` when it has one.
     */
    method TimerFire()
      requires Valid()
      requires CanFire(Snapshot())
      modifies this
      ensures Valid()
      ensures Snapshot() == SerqSpec.TimerFire(old(Snapshot()))
    {
      ghost var s0 := Snapshot();
      var slot := timer.slot;
      ghost var task := started[slot - 1];
      pending := pending + [NextFor(slot)];
      timer := Fired(slot);
      expired := expired + {slot};
      if task.hasOnTimeout {
        timedOut := timedOut + [slot];
      }
      assert Snapshot() == SerqSpec.TimerFire(s0);
      TimerFireKeepsInv(s0);
    }

    /**
     The body of the task in `slot` settles: a return resolves the caller's
     future with the value; a throw rejects it, and the `ondone(undefined)`
     that follows the `.catch` finds it settled. Then `_next` is scheduled
     for the slot.
     */
    method Settle(slot: nat, o: Outcome)
      requires Valid()
      requires CanSettle(Snapshot(), slot)
      modifies this
      ensures Valid()
      ensures Snapshot() == SerqSpec.Settle(old(Snapshot()), slot, o)
    {
      ghost var s0 := Snapshot();
      var t := started[slot - 1].ticket;
      match o {
        case Returned(v) =>
          futures := futures[t := Resolve(futures[t], v)];
        case Threw(e) =>
          futures := futures[t := Reject(futures[t], e)];
          futures := futures[t := Resolve(futures[t], Undefined)];
      }
      running := running - {slot};
      pending := pending + [NextFor(slot)];
      SettleKeepsInv(s0, slot, o);
    }
  }

  /** A push onto a freshly closed queue is refused, and the queue stays closed and empty. */
  method PushOntoClosedQueue() returns (r: PushResult, status: Status, backlog: nat)
    ensures r == Refused(InvalidStatus) && status == Closed && backlog == 0
  {
    var q := new Serq();
    q.Close();
    r := q.Push(true, false);
    status, backlog := q.status, |q.queue|;
  }
}
