# Serq in Dafny

A model of `Serq` (src/index.js), a serial task queue that runs pushed
functions one after another. It has three states: idle, busy and closed.
`push(fn, options)` appends a task and returns a promise for the task's
result. `close()` stops new pushes, but the backlog still drains.

Each started task gets a fresh slot number `id` and a timer. If the task
outlives the timer, the queue moves on to the next task without waiting,
and the task's `ontimeout` callback is called when it has one. A late task
does not move the queue when it finally ends: its `_next(id)` call carries
an old slot number, and the id guard drops it, unless the queue drained
meanwhile (see "## Findings").

The model has four layers:

- **`Deferred`** (deferred.dfy) is the caller's future. It settles once, and every later trigger is ignored.
- **`SerqSpec`** (serq_spec.dfy) is the queue as a transition system. Each asynchronous hand-off in the source is an explicit event:
  - `Push`, `Close`, `Next`: the queue's own methods.
  - `RunContinuation`: the event loop runs one scheduled `_next` call. Scheduled calls sit in `pending` and may run in any order.
  - `TimerFire`: a task's timer fires.
  - `Settle`: a task body returns or throws.

  `Inv` is the invariant all events keep. Also kept in the state, because the proofs need them: the callers' futures, the log of started tasks, the set of bodies still in flight, the log of `ontimeout` calls, and the set of slots whose timer fired.
- **`SerqTheorems`** (serq_theorems.dfy) holds what is proved over any sequence of events:
  - every event keeps `Inv`;
  - tasks start in push order, in strictly increasing slots;
  - a closed queue stays closed and never grows;
  - a superseded continuation stays inert;
  - a settle delivers the task's own outcome to its caller;
  - when no timer fires, task bodies never overlap.
- **`SerqQueue`** (serq.dfy) is the class `Serq`, with the source's fields updated in place. Each method is proved to move the object's fields exactly as the matching `SerqSpec` event moves the state. Each method keeps `Inv`, except `Next`. `RunContinuation` calls `Next` after taking the call off the schedule, when the progress part of `Inv` may not hold, so `Next` keeps only the structural part `WellFormed`.
- **`SerqScenarios`** (serq_scenarios.dfy) replays the skip-ahead test as an event script and proves its observed order `a1, b1, a2, c1, b2, c2`.
- **`SerqFixed`** (serq_fixed.dfy) holds the race described under "## Findings". It shows the race in the code as written. Then it gives a corrected queue, whose `_next` also moves the slot counter on when it drains. Slot numbers then have gaps, so a timer or a body finds its started record by its slot. For the corrected queue it proves three things: every running body but the current one has timed out; the queue never freezes; and a drain makes every earlier continuation inert.

## Model

| member | source | states |
|---|---|---|
| Deferred.Deliver | src/deferred.js:6-10 | A pending future takes the settlement delivered to it; a settled future is returned unchanged. |
| Deferred.Resolve | src/deferred.js:7-9 | `resolve(v)` settles a pending future with `v` and leaves a settled one alone. |
| Deferred.Reject | src/deferred.js:7-9 | `reject(e)` settles a pending future with the rejection `e` and leaves a settled one alone. |
| Deferred.FirstDeliveryWins | src/deferred.js:6-12 | For any non-empty list of triggers, a pending future ends up holding the first one, and a settled future is never changed. |
| SerqSpec.Init | src/index.js:33-39 | A new queue is idle, with an empty backlog, slot counter 0 and no timer. |
| SerqSpec.Push | src/index.js:41-63 | A closed queue refuses with the invalid-status error before `fn` is looked at, and nothing changes. A non-function is refused next, and nothing changes. Otherwise exactly one record is appended with the next ticket and a fresh pending future; the slot counter and timer are unchanged; the status becomes busy; `_next` is scheduled if and only if the queue was idle. |
| SerqSpec.Close | src/index.js:65-71 | The result is closed, and only the status differs from the input. Closing twice is the same as closing once. |
| SerqSpec.Next | src/index.js:73-100 | A stale id, or an idle queue, changes nothing. An empty backlog clears the timer: busy becomes idle and closed stays closed. Otherwise the head alone is dequeued, into slot `id + 1`, with a timer armed for that slot and its body running; status and schedule are unchanged. |
| SerqSpec.RunContinuation | src/index.js:56-60 | Running a scheduled call removes it from the schedule and performs `_next`. The push-triggered call reads `id` when it runs; a call scheduled by a timer or a settle uses the slot it captured. |
| SerqSpec.TimerFire | src/index.js:97-100 | The timer is marked fired, its slot joins the expired set, and `_next` is scheduled for that slot. `ontimeout` is logged exactly when the task supplied one. Nothing else changes. |
| SerqSpec.Settle | src/index.js:102-108 | The body leaves the running set and `_next` is scheduled for its slot. A return resolves that task's own future with the value. A throw rejects it, because the rejection comes before the `ondone(undefined)`. Every other future is unchanged. |
| SerqTheorems.InitSatisfiesInv | src/index.js:33-39 | The constructed queue satisfies `Inv`. |
| SerqTheorems.PushKeepsInv | src/index.js:41-63 | `push` keeps `Inv`. |
| SerqTheorems.CloseKeepsInv | src/index.js:65-71 | `close` keeps `Inv`. |
| SerqTheorems.NextKeepsWellFormed | src/index.js:73-100 | `_next` with any id keeps the structural part of `Inv`: FIFO slots, timer ownership, futures tracking bodies, known continuations, one `ontimeout` per task. |
| SerqTheorems.NextKeepsInv | src/index.js:73-100 | `_next` with any id keeps `Inv`. |
| SerqTheorems.DropKeepsWellFormed | src/index.js:56-60 | Taking any one call off the schedule keeps `WellFormed`. |
| SerqTheorems.RunContinuationKeepsInv | src/index.js:73-79 | Running any scheduled call, stale or current, keeps `Inv`, including that a busy queue always has a timer or a live `_next` to move it on. |
| SerqTheorems.TimerFireKeepsInv | src/index.js:97-100 | A timer fire keeps `Inv`. |
| SerqTheorems.SettleKeepsInv | src/index.js:102-108 | A settle keeps `Inv`. |
| SerqTheorems.StepKeepsInv | src/index.js:28-110 | Every event, enabled or not, keeps `Inv`. |
| SerqTheorems.RunEventsKeepsInv | src/index.js:28-110 | Every sequence of events keeps `Inv`. |
| SerqTheorems.NextAdvances | src/index.js:73-100 | `_next` never lowers the slot counter and only appends to the start log. On a closed queue it keeps the queue closed and only drops backlog from the front. |
| SerqTheorems.StepAdvances | src/index.js:28-110 | Every event keeps the slot counter monotone, keeps the start and `ontimeout` logs growing, and never reopens or grows a closed queue. |
| SerqTheorems.RunEventsAdvances | src/index.js:28-110 | The same holds across any sequence of events. |
| SerqTheorems.StartOrderIsPushOrder | src/index.js:86-95 | From a fresh queue and after any events, the `i`-th started task is the `i`-th accepted push and runs in slot `i + 1`. Slots strictly increase, a timer always belongs to the newest slot, and the `ontimeout` log strictly increases. |
| SerqTheorems.ClosedIsAbsorbing | src/index.js:41-71 | After a close, no sequence of events reopens the queue, accepts a task, or does anything to the backlog except shorten it from the front. |
| SerqTheorems.SupersededContinuationIsInert | src/index.js:74-76 | A scheduled `_next` whose slot is older than the current one only removes itself, after any further events. |
| SerqTheorems.SettleDelivers | src/index.js:102-108 | After a settle, the caller's future holds exactly that outcome. If the queue had moved past the slot or gone idle, the continuation the settle schedules changes nothing when it is run next. |
| SerqTheorems.LiveNextKeepsBaton | src/index.js:73-100 | A `_next` that passes both guards, while no body runs and no other live call is scheduled, leaves at most one body running, no live call scheduled, and nothing live at all if the queue went idle. |
| SerqTheorems.RunKeepsOneAtATime | src/index.js:73-100 | Running any scheduled call keeps the one-at-a-time baton. A call that starts a task finds no body in flight. |
| SerqTheorems.SettleKeepsOneAtATime | src/index.js:102-108 | A settle hands the baton from the finished body to its `_next`. |
| SerqTheorems.StepKeepsOneAtATime | src/index.js:28-110 | Every event except a timer fire keeps the baton, and no such event starts a task while a body is in flight. |
| SerqTheorems.RunEventsKeepsOneAtATime | src/index.js:28-110 | Any sequence of events without a timer fire keeps the baton. |
| SerqTheorems.SerialWithoutTimeouts | tests/index.js:7-39 | From a fresh queue, as long as no timer fires, at most the current slot is running, and no event starts a task before the previous body has ended. |
| SerqTheorems.PushAfterCloseFails | src/index.js:41-71 | On a closed queue, push fails with the invalid-status error whatever `fn` is and changes nothing, and close is idempotent. |
| SerqScenarios.PushStep | src/index.js:54-60 | An accepted push appends the record and pending future, and marks the queue busy. Only onto an idle queue does it schedule the push-triggered `_next`. It starts and ends no task. |
| SerqScenarios.FireStep | src/index.js:97-100 | A timer fire schedules `_next` for its slot and logs `ontimeout` exactly when the task has one. |
| SerqScenarios.StartStep | src/index.js:81-100 | A current `_next` on a busy queue with a backlog begins the head task in the next slot. |
| SerqScenarios.DrainStep | src/index.js:81-92 | A current `_next` on a busy queue with no backlog clears the timer and makes the queue idle. |
| SerqScenarios.StaleStep | src/index.js:74-79 | A superseded `_next`, or one on an idle queue, is only removed from the schedule. |
| SerqScenarios.SettleStep | src/index.js:102-108 | A returning body resolves its own caller's future, schedules `_next` for its slot, and shows as that task's end. |
| SerqScenarios.PushPhaseRuns | tests/index.js:149-176 | The three pushes onto a fresh queue start A in slot 1, with B and C waiting behind it. |
| SerqScenarios.FirstTimeoutPhaseRuns | tests/index.js:149-181 | A's timeout starts B before A ends; A's late end is dropped by the id guard. |
| SerqScenarios.SecondTimeoutPhaseRuns | tests/index.js:149-181 | B's timeout starts C before B ends; B's late end is dropped by the id guard. |
| SerqScenarios.DrainPhaseRuns | tests/index.js:149-181 | C's timeout finds an empty backlog and makes the queue idle; C's late end changes nothing but C's future. |
| SerqScenarios.LastPhasesRun | tests/index.js:149-181 | The second and third phases compose into one run. |
| SerqScenarios.TimeoutPhasesRun | tests/index.js:149-181 | The three timeout phases compose into one run from the state the pushes leave. |
| SerqScenarios.SkipAheadFrom | tests/index.js:149-181 | The whole script, from a state equal field by field to a fresh queue, shows `a1, b1, a2, c1, b2, c2` and ends idle with every future resolved. |
| SerqScenarios.SkipAheadOrder | tests/index.js:149-181 | From `new Serq(200)`, the script shows the test's order `a1, b1, a2, c1, b2, c2`. It ends idle with nothing scheduled or running, each caller's future holding its own task's value, and `ontimeout` logged once for each task that supplied one. |
| SerqFixed.RaceStartRuns | src/index.js:81-100 | As written: A is pushed and started; its timer fires, and its `_next(1)` drains the queue to idle while A's body still runs. |
| SerqFixed.LatePushesRun | src/index.js:41-60 | As written: A ends and schedules `_next(1)`; D and E are pushed onto the idle queue, and only the first push schedules the push-triggered call. |
| SerqFixed.RaceLateRuns | src/index.js:73-100 | A's late `_next(1)` runs first. It passes the id guard, because the drain left the counter at 1, and starts D in slot 2. |
| SerqFixed.RaceSecondRuns | src/index.js:56-100 | The push-triggered `_next(self.id)` reads 2, passes the guard and starts E in slot 3, clearing D's timer. E's timer fires, and its `_next(3)` drains the queue. |
| SerqFixed.RaceOverlapRuns | src/index.js:56-100 | F is pushed onto the idle queue and starts in slot 4. Slot 2 is still in flight, and its timer never fired. |
| SerqFixed.RaceFrom | src/index.js:41-108 | The four phases compose into the whole script, from any state equal field by field to a fresh queue. |
| SerqFixed.RaceRun | src/index.js:73-100 | From a fresh queue, as written, slot 2's body still runs when slot 4 is current. Only slots 1 and 3 have had a timer fire. So a body other than the current one runs without having timed out. |
| SerqFixed.NextFixed | src/index.js:86-92 | The corrected `_next` differs from the code as written only on a drain, which also moves the slot counter past every slot captured so far. A stale id or an idle queue changes nothing, and with a backlog it is `SerqSpec.Next`. |
| SerqFixed.RunContinuationFixed | src/index.js:56-60 | A scheduled call runs the corrected `_next`. With a backlog, this is the same as `SerqSpec.RunContinuation`. |
| SerqFixed.Lookup | src/index.js:95-108 | The record found for a slot carries that slot and is one of the started records. When none is found, no started record has that slot. |
| SerqFixed.LookupAppend | src/index.js:95 | Starting a task adds its record under its own slot and changes the record found for no other slot. |
| SerqFixed.LookupDense | src/index.js:95 | While slots have no gaps, a slot from 1 to the number of starts has the record at its position, as the code as written reads it, and no other slot has one. |
| SerqFixed.TimerFireFixed | src/index.js:97-100 | The timer schedules `_next(task.id)`, logs `ontimeout` when the record found for the slot has one, and marks the slot expired. When that record is the one at the slot's position, this is `SerqSpec.TimerFire`. |
| SerqFixed.SettleFixed | src/index.js:102-108 | A body that ends settles the pending future of the record found for its slot with its own outcome, touches no other future, and schedules `_next` for its slot. When that record is the one at the slot's position, this is `SerqSpec.Settle`. |
| SerqFixed.StepFixed | src/index.js:28-110 | In the corrected queue, a push, a close, and a continuation run with a backlog are the events as written. |
| SerqFixed.StepFixedAgrees | src/index.js:73-108 | On a well-formed queue, whose slots have no gaps, every event except a continuation run on an empty backlog steps exactly as written. So the fix changes nothing until the first drain. |
| SerqFixed.InitSatisfiesFixedInv | src/index.js:33-39 | The constructed queue satisfies the invariant of the corrected queue. |
| SerqFixed.StartKeepsTracked | src/index.js:94-100 | Starting the head in slot `id + 1` keeps a record findable for every running slot and for the timer's slot, each with a ticket that names a caller's future. |
| SerqFixed.LiveNextFixedKeepsInv | src/index.js:73-100 | Under the fix, a live `_next` keeps the invariant, provided the current body has ended or expired and no push-triggered call remains scheduled. |
| SerqFixed.RunFixedKeepsInv | src/index.js:73-100 | Under the fix, running any scheduled call, stale or live, keeps the invariant. |
| SerqFixed.PushFixedKeepsInv | src/index.js:41-63 | Under the fix, a push keeps the invariant. |
| SerqFixed.FireFixedKeepsInv | src/index.js:97-100 | Under the fix, a timer fire keeps the invariant. |
| SerqFixed.SettleFixedKeepsInv | src/index.js:102-108 | Under the fix, a body's settlement keeps the invariant. |
| SerqFixed.StepFixedKeepsInv | src/index.js:28-110 | Under the fix, every event keeps the invariant. It holds that bodies other than the current one have timed out, that running bodies and the timer have findable records, and that a queue with work is never stuck. |
| SerqFixed.RunEventsFixedKeepsInv | src/index.js:28-110 | Under the fix, every sequence of events keeps that invariant. |
| SerqFixed.OverlapNeedsTimeout | src/index.js:86-100 | Under the fix, from a fresh queue and after any events, every running body except the current slot's has had its timer fire. At most one body runs whose timer has not fired. |
| SerqFixed.FixedNeverFreezes | src/index.js:56-108 | Under the fix, from a fresh queue and after any events, every running body can still settle and an armed timer can still fire. A busy queue, or a closed one with a backlog, has a timer armed or a call scheduled that passes the id guard. |
| SerqFixed.StepFixedAdvances | src/index.js:73-100 | Under the fix, no event lowers the slot counter. |
| SerqFixed.RunEventsFixedAdvances | src/index.js:28-110 | Under the fix, no sequence of events lowers the slot counter. |
| SerqFixed.DrainSupersedes | src/index.js:74-92 | Under the fix, once a live `_next` drains the queue, a call captured for that slot or an earlier one only removes itself, after any further events, on an idle queue as on a busy one. |
| SerqQueue.Serq.constructor | src/index.js:33-39 | The new object's fields are those of `Init`, its duration is the argument (default 3000), and it satisfies `Inv`. |
| SerqQueue.Serq.Push | src/index.js:41-63 | The method returns the result of `SerqSpec.Push`, leaves the fields as `SerqSpec.Push` leaves the state, and keeps `Inv`. |
| SerqQueue.Serq.Close | src/index.js:65-71 | The method moves the fields as `SerqSpec.Close` does and keeps `Inv`. |
| SerqQueue.Serq.Next | src/index.js:73-100 | The method moves the fields as `SerqSpec.Next` does, for any id, and keeps `WellFormed`. |
| SerqQueue.Serq.RunContinuation | src/index.js:56-60 | The method removes the `k`-th scheduled call and runs its `_next`, as `SerqSpec.RunContinuation`, and keeps `Inv`. |
| SerqQueue.Serq.TimerFire | src/index.js:97-100 | The method moves the fields as `SerqSpec.TimerFire` does and keeps `Inv`. |
| SerqQueue.Serq.Settle | src/index.js:102-108 | The method moves the fields as `SerqSpec.Settle` does, settling the future in place, and keeps `Inv`. |
| SerqQueue.PushOntoClosedQueue | tests/index.js:72-81 | On a newly constructed and closed `Serq` object, a push is refused with the invalid-status error, and the queue stays closed and empty. |

## Findings

| source | as written | input that shows it | evidently intended | confidence | as-written member | corrected member |
|---|---|---|---|---|---|---|
| src/index.js:87-91 | On an empty backlog, `_next` sets the queue idle but leaves `this.id` unchanged. The task whose timer just fired stays current. When it ends, its `_next(id)` passes the id guard. And after the next start, the push-triggered `_next(self.id)` passes it too. | `SerqFixed.RaceScript`: push A and start it; A's timer fires and its `_next(1)` drains the queue; A ends; D and E are pushed; A's late `_next(1)` starts D in slot 2; the push-triggered `_next` reads 2 and starts E in slot 3; E's timer fires and its `_next(3)` drains the queue; F is pushed and starts in slot 4 while D, whose timer never fired, still runs. | A completion that arrives after the queue drained moves nothing. A body runs beside a later one only after its own timer fired. | not executed; the order needs A's late `_next(1)` to run before the call that the push of D scheduled, which depends on how many promise jobs each chain still has to run | SerqFixed.RaceRun | SerqFixed.NextFixed |

The corrected queue (`SerqFixed.StepFixed`) moves the slot counter on when it drains, and it finds a started record by its slot, because slot numbers then have gaps. `SerqFixed.StepFixedAgrees` shows that it steps as written until the first drain. `SerqFixed.OverlapNeedsTimeout`, `SerqFixed.FixedNeverFreezes` and `SerqFixed.DrainSupersedes` are proved for it. The rest of the model (`SerqSpec`, `SerqTheorems`, `SerqScenarios`, `SerqQueue`) keeps the code as written, so that it states what the source does. None of its theorems is proved again for the corrected driver.

## Left out

- Promise-chain order. `this.pp` and the microtask queue are not modelled.
  - A scheduled `_next` call may run at any point, in any order.
  - The model therefore allows every order JavaScript can produce, and possibly more; everything above is proved for all of them.
  - The race under "## Findings" relies on one such order.
- The moment a body begins. A task counts as begun when `_next` dequeues it. In JavaScript, `task.fn` is chained on `this.pp` (src/index.js:102-103). It begins only after everything already on that chain, which can be a whole earlier body.
- SerqFixed.RaceRun: claims only that slot 2 runs beside slot 4. The model also counts slot 3 as running, but in JavaScript E's body is chained behind D's and has not begun.
- Real time. Timers fire as events, whenever the model's `CanFire` allows. The duration `timeout` (default 3000 ms, `DefaultTimeout`) is stored, but it does not decide when a fire happens.
- Running `fn`. A body's work is left out, including whatever `ontimeout` does. Only the outcome is modelled: it returns a value or throws one. Values are abstracted to `Undefined` or a tagged value.
- `typeof` checks. They become the booleans `isFunction` and `hasOnTimeout`. A missing `options` means no `ontimeout`. `ondone` and `onerror` are always functions, because `push` builds them.
- Error text. The two errors `push` throws are the results `Refused(InvalidStatus)` and `Refused(NotAFunction)`. Their message strings are not modelled.
- Number width. The slot counter is an unbounded `nat`. JavaScript numbers lose integer precision past 2^53.
- The corrected driver in the class. `SerqQueue.Serq.Next` is the code as written. `SerqFixed.NextFixed` is stated only on values, with no method counterpart.
- Deferred internals. Calling `Deferred()` without `new` and the `Deferred.Promise` export are not modelled.
- Tests and configuration. The test runner configuration (web-test-runner.config.mjs) is not part of this model. The tests are used only as event scripts: the skip-ahead test, the serial-execution test and the closed-queue test.
