# moro's scope engine in Dafny

moro runs an async "scope": a body future that may spawn jobs borrowing from
its stack, and a join future that completes only once the body and every job
are done, or as soon as the scope is cancelled. This project models the two
pieces that make up that engine:

- `Scope` (src/scope.rs) with its three fields `futures` (the jobs being
  driven), `enqueued` (jobs spawned since the last admission) and `cancelled`
  (the write-once cancellation slot), and its operations `new`, `spawn`,
  `spawn_cancelling`, `cancel`, `cancel_if_err`, `poll_jobs` and `clear`;
- `Body` (src/body.rs) with its fields `body_future`, `result` and `scope`,
  and `new`, `clear`, `Drop::drop` and `Future::poll`.

Each piece exists twice. `ScopeModel` and `BodyModel` describe the engine as
functions over plain values, and the properties are proved about them.
`Scopes.Scope` and `Bodies.Body` are classes whose methods update the fields
in place, as the Rust code does. Each method's postcondition says that its new
state, and what it returns, is what the matching function gives for the old
state. `poll_jobs` keeps its labelled outer loop and inner `while let` loop,
and `Body::poll` keeps its sequence of `Some`/`None` assignments and `take`.

## Modelling choices

- A future is a script, `Async.Future(steps, output, stalled)`. A step
  stands for a call of `scope.spawn` or of `scope.spawn_cancelling`, for
  `scope.cancel(value).await`, or for a plain `Yield` (an `.await` on
  something not yet ready). Spawn calls return at once and are not await
  points. One resumption therefore runs the leading spawn calls up to the
  next await point. A `Yield` suspends the future. A `Cancel` calls `cancel`
  and leaves the future `stalled`: it waits for ever on the future that
  `cancel` returns. The end of the script completes the future with
  `output`. `Future.IsReady` says that no await point is left. `cancel_if_err(Err(c)).await` has the same effect as the
  `Cancel(c)` step, because `ScopeModel.CancelIfErr` is `cancel` on `Err`.
  `cancel_if_err(Ok(o))` resolves at once and takes no step.
- A job is the boxed adapter that the scope drives. `Forward` is the adapter
  of `spawn`. `ForwardOrCancel` is the adapter of `spawn_cancelling`. Its
  `cancelling` flag records that it saw `Err` and now awaits `cancel`.
  `Placeholder` is the `async { panic!() }` job that `cancel` spawns.
- The capacity-one channels that `spawn` creates live in a table
  `channels` beside the three fields. A spawn handle is an index into that
  table. The channel is `Empty`, `Holding` the sent value, or `Taken` once the
  handle has received it.
- `FuturesUnordered::poll_next` is driven by a schedule `picks`. The
  schedule's next entry `Resume(n)` resumes one job of the driven set. An
  index past the end names the last job. `Idle`, or a schedule that has run
  out, means that no job is ready, so the poll is `Pending`. An empty set
  ends the inner loop, as `poll_next` returning `None` does.
- src/body.rs:84 calls `this.scope.drain(cx)`, but src/scope.rs defines that
  operation as `poll_jobs`. The model treats the two as the same operation.
- The rule that `poll_jobs` must not be called again after `Ready(Err(_))`
  is the ghost field `terminated` of `Scopes.Scope`. `PollJobs` and
  `Body.Poll` require it to be false.
- The invariant `ScopeModel.Inv` has two parts. Every job owns a distinct
  channel that is still empty. The placeholder is never in the driven set,
  and it waits in `enqueued` only while the slot is set. With that invariant
  the placeholder is never polled: `PollJobPreserves` shows that polling a job
  never reaches its panic.

## Model

| member | source | states |
|---|---|---|
| ScopeModel.New | src/scope.rs:33-40 | a new scope has no driven jobs, no queued jobs and an empty slot, and satisfies the invariant |
| ScopeModel.Enqueue | src/scope.rs:168-173 | pushing a job appends exactly it to `enqueued` with one fresh empty channel; `futures` and the slot are unchanged; the state stays well formed |
| ScopeModel.Spawn | src/scope.rs:152-181 | `spawn` appends one forwarding job to the end of `enqueued`, changes neither `futures` nor `cancelled`, returns a handle to a fresh empty channel, and keeps the invariant |
| ScopeModel.SpawnCancelling | src/scope.rs:186-219 | `spawn_cancelling` appends one job with the cancelling adapter, changes neither `futures` nor `cancelled`, returns a fresh handle, and keeps the invariant |
| ScopeModel.Cancel | src/scope.rs:109-121 | the slot takes the value only if it was empty, and a value already there is kept (first write wins); the placeholder job is appended to `enqueued`; `futures` is unchanged |
| ScopeModel.CancelIfErr | src/scope.rs:139-147 | `Ok(o)` yields `o` and leaves the scope unchanged; `Err(c)` is exactly `cancel(c)`: the same new state (slot written first-write-wins, placeholder queued on a fresh channel) and a receiver on that channel's handle |
| ScopeModel.PollFuture | src/scope.rs:152-211 | one resumption of a scripted future is ready exactly when no await point is left, and then yields the future's own output; the output is never changed; `futures` is untouched, a set slot is kept, the slot changes only when the future ends awaiting `cancel`, `enqueued` only grows at its end, no channel already written changes, and the invariants are kept |
| ScopeModel.PollFutureSteps | src/scope.rs:152-211 | the effect of each kind of step: the script always advances to a suffix of itself, strictly unless the future completes or was stalled; a stalled future is left exactly as it was; `Yield` only drops the step; `Cancel(c)` is `cancel(c)` on the scope and stalls the future; a spawn call pushes its adapter first, on the next fresh channel |
| ScopeModel.Call | src/scope.rs:168-211 | a spawn call made by a running future is `spawn` or `spawn_cancelling` of its future, which pushes the matching adapter on the next fresh channel |
| ScopeModel.Send | src/scope.rs:172 | `tx.send(v)` puts `v` on channel `tx` and leaves every other channel as it was |
| ScopeModel.Complete | src/scope.rs:170-173 | a job that completes leaves the driven set, exactly its position removed, and its value goes to its channel; `enqueued` and the slot are unchanged |
| ScopeModel.PollJobSteps | src/scope.rs:170-211 | what a job poll does besides the driven set: the queued jobs, the slot and the channels are those left by the job's resumption (`ScopeModel.PollFuture`), plus the send of its value on completion or the `cancel(e)` of a `spawn_cancelling` job whose future failed; a suspended job keeps the resumed future |
| ScopeModel.PollJob | src/scope.rs:170-211 | one poll of a job: it completes exactly when its future finishes (`spawn`) or finishes with `Ok` (`spawn_cancelling`), and then it leaves the driven set while its channel holds the future's output; if it does not complete, only its own position in the driven set changes, and the job there keeps its channel; a job already awaiting `cancel` changes nothing; on `Err(e)` the cancelling adapter stays, with the slot set to `e` unless already set; the placeholder is the only job that panics |
| ScopeModel.Admit | src/scope.rs:60 | admission makes `futures` the old `futures` followed by every queued job, each once and in order, and leaves `enqueued` empty and the invariant intact |
| ScopeModel.PollJobs | src/scope.rs:42-73 | a set slot is reported as `Ready(Err(c))` and emptied before any job is admitted or polled; `Ready(Ok(()))` comes only with both collections empty; every `Ready` result leaves the slot empty; `Pending` leaves jobs in the driven set |
| ScopeModel.PollReady | src/scope.rs:62-70 | the inner loop: `Ready(Ok(()))` only with both collections empty, `Pending` only with jobs left to drive |
| ScopeModel.PollReadyStep | src/scope.rs:62-66 | one turn of the inner loop polls the chosen job without panicking and keeps the invariant; a job that completes while the slot is set sends the drive back to the cancellation check, and otherwise the loop goes on |
| ScopeModel.PollJobPreserves | src/scope.rs:170-211 | polling a job of a well-formed state never reaches the placeholder, keeps the channel ownership and the invariant, and only writes a channel that was still empty |
| ScopeModel.DrivePreserves | src/scope.rs:52-73 | a drive from the invariant never panics, never rewrites a channel already written (each value is delivered at most once), and restores the invariant unless it reports a cancellation |
| ScopeModel.PollReadyPreserves | src/scope.rs:62-70 | the same for the inner polling loop, by induction on the schedule |
| ScopeModel.PollFutureAccounts | src/scope.rs:152-211 | a resumption loses no job: each channel owned by a job before it, or created by its spawn calls, is still owned by a job of the scope or holds a value |
| ScopeModel.PollJobAccounts | src/scope.rs:170-211 | one job poll loses no job: the polled job stays under the same channel, or it completes and its channel holds its value |
| ScopeModel.DriveAccounts | src/scope.rs:52-73 | every schedule of a whole drive loses no job: each channel owned by a job before the drive, or created during it, is still owned by a job of the scope or holds the value its job sent |
| ScopeModel.PollReadyAccounts | src/scope.rs:62-70 | the same for the inner polling loop, by induction on the schedule |
| ScopeModel.DriveSettles | src/scope.rs:149-151 | what the drive promises about jobs: after any drive each earlier job is still in the scope or has sent its value, and after `Ready(Ok(()))` every earlier job, and every job spawned during the drive, has sent its value |
| ScopeModel.CancelStays | src/scope.rs:87-91 | a future that calls `cancel(..).await` before its end, or already awaits it, is never ready, and after a resumption it still does |
| ScopeModel.PollJobKeepsDoomed | src/scope.rs:170-211 | a job that can never complete is still in the scope after any job poll. Such a job is a `spawn` or `spawn_cancelling` job whose future calls `cancel` before it ends or already awaits it, or a `spawn_cancelling` job whose future ends in `Err` |
| ScopeModel.DoomedDrive | src/scope.rs:87-91 | while the scope holds such a job, no schedule makes the drive report `Ok`, and the job is still there afterwards |
| ScopeModel.DoomedPollReady | src/scope.rs:62-70 | the same for the inner polling loop, by induction on the schedule |
| ScopeModel.Clear | src/scope.rs:82-85 | `clear` empties `futures` and `enqueued`, so no job is pending afterwards, and keeps the slot and the channels |
| ScopeModel.Recv | src/scope.rs:175-180 | awaiting a handle receives the value exactly when one was sent and not yet received, and then spends the channel; otherwise it is not ready (nothing sent) or the value is gone; the jobs are untouched |
| Scopes.Scope.constructor | src/scope.rs:33-40 | the fields start as `ScopeModel.New` gives them and the scope is valid |
| Scopes.Scope.Spawn | src/scope.rs:168-173 | pushes the forwarding job in place; the new fields and the handle are `ScopeModel.Spawn` of the old ones |
| Scopes.Scope.SpawnCancelling | src/scope.rs:202-211 | pushes the cancelling job in place; the new fields and the handle are `ScopeModel.SpawnCancelling` of the old ones |
| Scopes.Scope.Cancel | src/scope.rs:113-120 | conditional write to the slot, then the placeholder spawn; a slot already set keeps its value |
| Scopes.Scope.CancelIfErr | src/scope.rs:143-146 | dispatches on the `Result` as `ScopeModel.CancelIfErr` does |
| Scopes.Scope.PollFuture | src/scope.rs:170-173 | resumes a scripted future once, calling back into the scope for each spawn call and for `cancel`, as `ScopeModel.PollFuture` |
| Scopes.Scope.PollJob | src/scope.rs:170-211 | polls one driven job in place, as `ScopeModel.PollJob`; the placeholder branch is unreachable, and a job already awaiting `cancel` is left alone |
| Scopes.Scope.PollForward | src/scope.rs:170-173 | `spawn`'s adapter in place: on completion the value is sent and the job removed, otherwise the job is replaced by its next state, as `ScopeModel.PollJob` |
| Scopes.Scope.PollFallible | src/scope.rs:204-211 | `spawn_cancelling`'s adapter in place: send and removal on `Ok(v)`, `cancel(e)` and the cancelling flag on `Err(e)`, the next state otherwise, as `ScopeModel.PollJob` |
| Scopes.Scope.PollJobs | src/scope.rs:52-73 | the labelled outer loop: take a set slot and stop, admit, run the inner loop, report `Ok` only with `enqueued` empty; the result and new fields are `ScopeModel.PollJobs` of the old ones, and `terminated` is set exactly when `Err` is returned |
| Scopes.Scope.PollReady | src/scope.rs:62-67 | the inner `while let` loop, run until the driven set is empty, no job is ready, or a completion meets a set slot (`continue 'outer`) |
| Scopes.Scope.PollPicked | src/scope.rs:62-66 | one turn of the inner loop: the chosen job is polled once and the turn interrupts the loop when that job completed while the slot is set |
| Scopes.Scope.Clear | src/scope.rs:82-85 | empties both collections in place |
| Scopes.Scope.Receive | src/scope.rs:175-180 | awaits a handle once, as `ScopeModel.Recv` |
| BodyModel.New | src/body.rs:34-40 | a new body holds `Some(future)` and no result |
| BodyModel.Advance | src/body.rs:73-81 | the body future is polled only while present, against the shared scope (the scope becomes what `ScopeModel.PollFuture` leaves); when ready its own output moves to `result` and the future is dropped; when not ready it becomes the future as resumed, with the same output, and the stored result is kept; without a body future nothing changes; a set slot is kept |
| BodyModel.Poll | src/body.rs:68-90 | the poll is exactly `Drain` after `Advance`, so the jobs are driven on every poll; a slot already set wins over any stored result; `Ready(Ok(v))` comes only when the jobs are drained, with `v` the body's own value, and leaves no body future and no stored result; a body that is not done gives `Pending` or `Err`; a body once done is never polled again; `Pending` and `Err` keep the stored result |
| BodyModel.Drain | src/body.rs:84-89 | the scope becomes what the drive leaves; the drive's `Pending` gives `Pending`, and its `Err(c)` gives `Err(c)`, both keeping the stored result; after the drive's `Ok` the stored value `v` is handed out as `Ok(v)` and taken, and with no stored value the poll is `Pending`; a panic in the drive is passed on |
| BodyModel.DoomedPollNeverOk | src/body.rs:83-89 | while the scope holds a job that can never complete (one whose future calls `cancel` before it ends or already awaits it, or a `spawn_cancelling` job whose future fails), no poll of the body reports `Ok`, whatever the body did and whatever the schedule |
| BodyModel.Clear | src/body.rs:42-46 | the body future and the result are gone and the scope has no pending job |
| BodyModel.Teardown | src/body.rs:42-46 | the three states of `clear`, one per statement: the body future is dropped first, then the result, and only then is the scope cleared, ending in `BodyModel.Clear` |
| Bodies.Body.constructor | src/body.rs:34-40 | the fields start as `BodyModel.New` gives them |
| Bodies.Body.Poll | src/body.rs:68-90 | polls the body in place and then drives the scope, with result and new fields as `BodyModel.Poll` of the old ones |
| Bodies.Body.Clear | src/body.rs:42-46 | the new fields are `BodyModel.Clear` of the old ones, and the ghost log records the state after each statement, which is exactly `BodyModel.Teardown`: body future, then result, then scope |
| Bodies.Body.Drop | src/body.rs:54-58 | dropping runs `clear`, with the same logged teardown order and no pending job afterwards |
| Scenarios.FirstCancelWins | src/scope.rs:113-116 | after two calls of `cancel` the drive reports the first value |
| Scenarios.QuietPollFuture | src/scope.rs:152-211 | resuming a future whose script, down to every future it spawns, has no `cancel` and no `spawn_cancelling` of a failing future never sets the slot, queues only such jobs, and leaves the future of that kind |
| Scenarios.QuietPollJob | src/scope.rs:170-211 | polling a job of that kind never panics and leaves every job of the scope of that kind, with the slot empty |
| Scenarios.QuietDrive | src/scope.rs:52-73 | a drive over jobs whose scripts, down to every future they spawn, never cancel and never spawn a failing `spawn_cancelling` future never reports a cancellation, on every schedule, and leaves only such jobs |
| Scenarios.QuietPollReady | src/scope.rs:62-70 | the same for the inner polling loop, by induction on the schedule |
| Scenarios.QuietBodyPoll | src/body.rs:83-84 | a body of that kind over such a scope never gets `Err` from a poll, on every schedule, and both stay of that kind for the next poll |
| Scenarios.NestedSpawnExample | src/scope.rs:69-71 | a job spawned by a job right before it finishes is admitted and run before the drive reports `Ok`: the body's value comes out with both jobs' values delivered |
| Scenarios.NestedDrive | src/scope.rs:54-72 | the drive of that example: after the first job completes the driven set is empty but the second job is queued, so the outer loop admits and runs it |
| Scenarios.NestedFirstJob | src/scope.rs:170-173 | the first job poll of that drive: `A`'s one resumption spawns `B` on a fresh channel, completes, and sends `va` |
| Scenarios.CancelExample | src/scope.rs:95-107 | a body that spawns a job and then awaits `cancel(value)` makes both calls in its first resumption, so the first poll already ends with `Err(value)`, on every schedule, before the spawned job runs |
| Scenarios.BodyCancels | src/body.rs:73-84 | a body whose next step is `cancel(value)` makes that poll end with `Err`, carrying the first value written to the slot, while the body waits for ever |
| Scenarios.CancellingJobNeverOk | src/scope.rs:87-91 | a body that spawns a plain job calling `cancel(c).await` and then returns never gets `Ok` from its first poll, on every schedule |
| Scenarios.CancellingJobExample | src/scope.rs:109-121 | when that job runs, its `cancel(c)` sets the slot: the poll is pending with the body's value stored, and the next poll reports `Err(c)` on every schedule |
| Scenarios.FailingJobBeatsResultExample | src/body.rs:84-89 | a body that spawns a failing `spawn_cancelling` job and returns at once: the first poll is pending with the value stored, and the next poll reports `Err(error)` instead of the value |
| Scenarios.SpawnCancellingErrExample | src/scope.rs:204-210 | a `spawn_cancelling` job whose future fails sets the slot; the drive stays pending on every later schedule, and the next drive reports `Err(error)` |
| Scenarios.Stuck | src/scope.rs:209 | a driven set holding only a job that awaits `cancel` is pending for ever and changes nothing |
| Scenarios.CompletionUnderCancelExample | src/scope.rs:63-65 | a job that completes after the slot was set ends the pass; the restarted loop reports the error, and the job's value has been delivered |
| Scenarios.RepollExample | src/scope.rs:50-51 | after `Ready(Ok(()))` a newly spawned job runs on the next drive, which again reports `Ok`, and its handle receives the value exactly once |
| Scenarios.BodyDoneExample | src/body.rs:86-89 | a finished body with no pending job resolves to exactly its value |
| Scenarios.DrainWhileBodyWaitsExample | src/body.rs:83-84 | the jobs are driven on every poll even while the body is waiting: a spawned job delivers its value and the poll stays pending |

## Left out

- Mutexes, `Arc`, `Pin`, `Context`, wakers and the `Send`/`Sync` bounds:
  each scope is driven by one task at a time, so the fields are plain fields.
- Waking: a `Pending` future is not re-polled by a waker. Every poll in the
  model is an explicit call with the schedule it follows.
- The polling order of `FuturesUnordered` is not modelled. The `picks`
  schedule stands for any order. `ScopeModel.Chosen` lets an index past the
  end name the last job.
- The internals of `async_channel` are not modelled. A channel is one slot.
  The sender side is never closed: when `ScopeModel.Clear` drops the jobs,
  their channels stay `Empty`, and `ScopeModel.Recv` on such a channel
  reports `NotYet`. In the program that handle panics (src/scope.rs:178,
  216), because its sender is gone. A channel whose value was taken reports
  `Closed`, which is where the model places that panic.
- No script awaits a spawn handle, so no value is received during a drive
  and no channel becomes `Taken` there. `ScopeModel.Recv` and
  `Scopes.Scope.Receive` are separate operations on the channel table.
  `ScopeModel.DriveSettles` therefore says `Holding` for every settled job.
  In the program, a value that a sibling job has already awaited is taken
  by then.
- The values that a job receives from a handle do not flow back into its
  script, because a script is fixed when the future is created. Data
  computed from received values, as in the repository's examples, is not
  modelled.
- What a real future computes between two await points is not modelled.
  Only its spawn calls and its `cancel` are, and they run in one resumption
  up to the next await point.
- The `panic!()` of the placeholder job is modelled as the `Panicked` outcome
  of `ScopeModel.PollJob`. It is proved unreachable, so there is no unwinding
  to model.
- Dropping the body future and the result in `Body::clear` is recorded in the
  ghost log `teardown` of `Bodies.Body`, one state per statement. The
  destructors of the dropped values are not modelled.
- src/lib.rs (`async_scope!`, `scope_fn` and its unsafe aliasing of the scope) is not
  part of this model. Construction is `Scopes.Scope.constructor` followed by
  `Bodies.Body.constructor`.
- src/scope_body.rs, src/result_ext.rs, src/future_ext.rs, src/spawned.rs,
  src/async_iter.rs, src/stream.rs and the examples are not part of this
  model. They are wrappers, combinators, adapters, or programs that do I/O.
