/** The scope engine of src/scope.rs as a step machine over plain values.

    A `State` holds the three fields of `Scope` (`futures`, `enqueued`,
    `cancelled`) and, beside them, the table of the capacity-one channels that
    `spawn` creates; a spawn handle is an index into that table. The jobs of
    `futures` are kept in a sequence, but nothing depends on its order: which
    job `FuturesUnordered::poll_next` resumes is chosen by a schedule of
    `Pick`s that the caller supplies. */
module ScopeModel {
  import opened Async

  /** A boxed job of the scope: the adapter that `spawn`, `spawn_cancelling`
      or `cancel` wraps around a future, with the channel `tx` it reports on.
      `ForwardOrCancel` with `cancelling` set has seen `Err` and is awaiting
      the future of `cancel`; `Placeholder` is the `async { panic!() }` job
      that `cancel` spawns. */
  datatype Job<V, C> =
    | Forward(future: Future<V, C, V>, tx: nat)
    | ForwardOrCancel(fallible: Future<V, C, Result<V, C>>, tx: nat, cancelling: bool)
    | Placeholder(tx: nat)

  datatype State<V, C> = State(
    futures: seq<Job<V, C>>,
    enqueued: seq<Job<V, C>>,
    cancelled: Option<C>,
    channels: seq<ChannelState<V>>)

  /** One decision of the scheduler inside `poll_next`: resume one job of the
      driven set, or report that no job is ready. */
  datatype Pick = Resume(index: nat) | Idle

  /** The index of the driven set, of size `n`, that a `Resume` pick
      designates: an index past the end names the last job. */
  function Chosen(p: Pick, n: nat): (i: nat)
    requires p.Resume? && n > 0
    ensures i < n && (p.index < n ==> i == p.index)
  {
    if p.index < n then p.index else n - 1
  }

  datatype Spawned<V, C> = Spawned(state: State<V, C>, handle: nat)

  /** The future returned by `cancel_if_err`: `future::ready(o)`, or the
      receiver returned by `cancel`. */
  datatype Awaiting<O> = Immediate(value: O) | Receiver(handle: nat)

  datatype Resumed<V, C, O> = Resumed(poll: Poll<O>, future: Future<V, C, O>, state: State<V, C>)

  /** One poll of one job: it finished and left the set, it is still pending,
      or it was the placeholder, whose body panics. */
  datatype JobPolled<V, C> = Completed(state: State<V, C>) | Suspended(state: State<V, C>) | Panicked

  /** What `poll_jobs` returns with the state it leaves, or `Aborted` when a
      job panicked on the way. */
  datatype Driven<V, C> = Driven(poll: Poll<Result<(), C>>, state: State<V, C>) | Aborted

  // ---------------------------------------------------------------------------
  // Invariants

  /** Every job owns a channel of the table that is still empty, and no two
      jobs own the same one. */
  ghost predicate Owns<V, C>(jobs: seq<Job<V, C>>, channels: seq<ChannelState<V>>) {
    && (forall k :: 0 <= k < |jobs| ==> jobs[k].tx < |channels| && channels[jobs[k].tx].Empty?)
    && (forall k, l :: 0 <= k < l < |jobs| ==> jobs[k].tx != jobs[l].tx)
  }

  /** Some job of `jobs` is the placeholder that `cancel` spawns. */
  ghost predicate HasPlaceholder<V, C>(jobs: seq<Job<V, C>>) {
    jobs != [] && (jobs[0].Placeholder? || HasPlaceholder(jobs[1..]))
  }

  /** Channels are owned as above, and the placeholder is never among the
      driven jobs. */
  ghost predicate WellFormed<V, C>(s: State<V, C>) {
    Owns(s.futures + s.enqueued, s.channels) && !HasPlaceholder(s.futures)
  }

  /** A placeholder waits in `enqueued` only while the cancellation slot is set. */
  ghost predicate PlaceholderGuarded<V, C>(s: State<V, C>) {
    HasPlaceholder(s.enqueued) ==> s.cancelled.Some?
  }

  /** A set slot has left a placeholder in `enqueued`; this holds throughout
      one drive pass, which starts from an empty slot. */
  ghost predicate CancelVisible<V, C>(s: State<V, C>) {
    s.cancelled.Some? ==> HasPlaceholder(s.enqueued)
  }

  /** The invariant of a scope that has not yet reported its cancellation. */
  ghost predicate Inv<V, C>(s: State<V, C>) {
    WellFormed(s) && PlaceholderGuarded(s)
  }

  /** The channel table only grows, and a channel that has been written to
      keeps its state: a value is delivered at most once. */
  ghost predicate Grows<V>(a: seq<ChannelState<V>>, b: seq<ChannelState<V>>) {
    |a| <= |b| && forall h :: 0 <= h < |a| && !a[h].Empty? ==> b[h] == a[h]
  }

  /** Every job of the scope, driven or queued. */
  function Jobs<V, C>(s: State<V, C>): (js: seq<Job<V, C>>)
    ensures |js| == |s.futures| + |s.enqueued|
  {
    s.futures + s.enqueued
  }

  /** Some job of `jobs` reports on channel `h`. */
  ghost predicate Tracks<V, C>(jobs: seq<Job<V, C>>, h: nat) {
    exists k :: 0 <= k < |jobs| && jobs[k].tx == h
  }

  /** From `s0` to `s` no job was lost: the channel table grew and kept every
      value written to it, and each channel that a job of `s0` owned, or that
      was created since, is still owned by a job of `s` or holds the value
      its job sent. A job leaves the scope only by completing. */
  ghost predicate Accounted<V, C>(s0: State<V, C>, s: State<V, C>) {
    && Grows(s0.channels, s.channels)
    && forall h: nat :: h < |s.channels| && (|s0.channels| <= h || Tracks(Jobs(s0), h)) ==>
         Tracks(Jobs(s), h) || s.channels[h].Holding?
  }

  /** The future calls `scope.cancel(..).await` before it can end, or is
      already awaiting the future that `cancel` returns. */
  predicate CancelsAhead<V, C, O>(f: Future<V, C, O>) {
    f.stalled || exists k :: 0 <= k < |f.steps| && f.steps[k].Cancel?
  }

  /** A job that can never complete: the placeholder, a job whose future
      cancels the scope before it ends (or already awaits `cancel`), or a
      `spawn_cancelling` job whose future ends in `Err`. */
  predicate Doomed<V, C>(j: Job<V, C>) {
    || j.Placeholder?
    || (j.Forward? && CancelsAhead(j.future))
    || (j.ForwardOrCancel? && (j.cancelling || CancelsAhead(j.fallible) || j.fallible.output.Err?))
  }

  ghost predicate HasDoomed<V, C>(jobs: seq<Job<V, C>>) {
    exists k :: 0 <= k < |jobs| && Doomed(jobs[k])
  }

  // ---------------------------------------------------------------------------
  // Operations

  /** `Scope::new`: no jobs, an empty slot. */
  function New<V, C>(): (s: State<V, C>)
    ensures s.futures == [] && s.enqueued == [] && s.cancelled == None
    ensures Inv(s)
  {
    State([], [], None, [])
  }

  /** `enqueued.push(job)`, with the fresh channel the job reports on. */
  function Enqueue<V, C>(s: State<V, C>, job: Job<V, C>): (r: State<V, C>)
    requires job.tx == |s.channels|
    ensures r.futures == s.futures && r.cancelled == s.cancelled
    ensures r.enqueued == s.enqueued + [job] && r.channels == s.channels + [Empty]
    ensures HasPlaceholder(r.enqueued) <==> HasPlaceholder(s.enqueued) || job.Placeholder?
    ensures WellFormed(s) ==> WellFormed(r)
  {
    var r := s.(enqueued := s.enqueued + [job], channels := s.channels + [Empty]);
    OwnsAppend(s.futures + s.enqueued, s.channels, job);
    HasPlaceholderConcat(s.enqueued, [job]);
    assert [job][1..] == [];
    assert r.futures + r.enqueued == (s.futures + s.enqueued) + [job];
    r
  }

  /** `spawn`: one job that forwards the future's value to a fresh channel is
      appended to `enqueued`; the handle is that channel. */
  function Spawn<V, C>(s: State<V, C>, f: Future<V, C, V>): (r: Spawned<V, C>)
    ensures r.handle == |s.channels| && r.state.channels == s.channels + [Empty]
    ensures r.state.enqueued == s.enqueued + [Forward(f, r.handle)]
    ensures r.state.futures == s.futures && r.state.cancelled == s.cancelled
    ensures WellFormed(s) ==> WellFormed(r.state)
    ensures Inv(s) ==> Inv(r.state)
  {
    var h := |s.channels|;
    Spawned(Enqueue(s, Forward(f, h)), h)
  }

  /** `spawn_cancelling`: as `spawn`, with the adapter that cancels on `Err`. */
  function SpawnCancelling<V, C>(s: State<V, C>, f: Future<V, C, Result<V, C>>): (r: Spawned<V, C>)
    ensures r.handle == |s.channels| && r.state.channels == s.channels + [Empty]
    ensures r.state.enqueued == s.enqueued + [ForwardOrCancel(f, r.handle, false)]
    ensures r.state.futures == s.futures && r.state.cancelled == s.cancelled
    ensures WellFormed(s) ==> WellFormed(r.state)
    ensures Inv(s) ==> Inv(r.state)
  {
    var h := |s.channels|;
    Spawned(Enqueue(s, ForwardOrCancel(f, h, false)), h)
  }

  /** `cancel`: the slot takes `value` only if it is empty (the first write
      wins), and the placeholder job is spawned; the handle is the receiver
      the caller then awaits. */
  function Cancel<V, C>(s: State<V, C>, value: C): (r: Spawned<V, C>)
    ensures s.cancelled.None? ==> r.state.cancelled == Some(value)
    ensures s.cancelled.Some? ==> r.state.cancelled == s.cancelled
    ensures r.handle == |s.channels| && r.state.channels == s.channels + [Empty]
    ensures r.state.enqueued == s.enqueued + [Placeholder(r.handle)]
    ensures r.state.futures == s.futures
    ensures WellFormed(s) ==> WellFormed(r.state)
    ensures Inv(s) ==> Inv(r.state)
    ensures CancelVisible(r.state)
  {
    var slot := if s.cancelled.None? then Some(value) else s.cancelled;
    var h := |s.channels|;
    Spawned(Enqueue(s.(cancelled := slot), Placeholder(h)), h)
  }

  /** `cancel_if_err`: `Ok(o)` yields `o` and leaves the scope alone; `Err(c)`
      is `cancel(c)`. */
  function CancelIfErr<V, C, O>(s: State<V, C>, value: Result<O, C>): (r: (State<V, C>, Awaiting<O>))
    ensures value.Ok? ==> r.0 == s && r.1 == Immediate(value.value)
    ensures value.Err? ==> r.1.Receiver? && r.0.cancelled.Some? && r.0.futures == s.futures
    ensures value.Err? ==>
      r == (Cancel(s, value.error).state, Receiver(Cancel(s, value.error).handle))
    ensures value.Err? && s.cancelled.None? ==> r.0.cancelled == Some(value.error)
    ensures value.Err? && s.cancelled.Some? ==> r.0.cancelled == s.cancelled
    ensures WellFormed(s) ==> WellFormed(r.0)
    ensures Inv(s) ==> Inv(r.0)
  {
    match value
    case Ok(o) => (s, Immediate(o))
    case Err(c) =>
      var k := Cancel(s, c);
      (k.state, Receiver(k.handle))
  }

  /** The job that a spawn call pushes: `spawn`'s forwarding adapter or
      `spawn_cancelling`'s, reporting on channel `tx`. */
  function Adapter<V, C>(step: Step<V, C>, tx: nat): (j: Job<V, C>)
    requires step.IsCall()
    ensures j.tx == tx && !j.Placeholder?
  {
    if step.Spawn? then Forward(step.job, tx) else ForwardOrCancel(step.fallible, tx, false)
  }

  /** A spawn call made by a running future: `spawn` or `spawn_cancelling`. */
  function Call<V, C>(s: State<V, C>, step: Step<V, C>): (r: State<V, C>)
    requires step.IsCall()
    ensures step.Spawn? ==> r == Spawn(s, step.job).state
    ensures step.SpawnCancelling? ==> r == SpawnCancelling(s, step.fallible).state
    ensures r == Enqueue(s, Adapter(step, |s.channels|))
  {
    if step.Spawn? then Spawn(s, step.job).state else SpawnCancelling(s, step.fallible).state
  }

  /** One resumption of a scripted future running inside the scope. The
      spawn calls at the head of its script run one after the other, each with
      the effect of `spawn` or `spawn_cancelling`, until the future reaches an
      await point: a `Yield` suspends it, a `Cancel` calls `cancel` and leaves
      it awaiting for ever, and the end of the script completes it with its
      output. */
  function PollFuture<V, C, O>(s: State<V, C>, f: Future<V, C, O>): (r: Resumed<V, C, O>)
    decreases |f.steps|
    ensures r.poll.Ready? <==> f.IsReady()
    ensures r.poll.Ready? ==> r.poll.value == f.output && !r.future.stalled
    ensures r.future.output == f.output
    ensures r.state.futures == s.futures
    ensures s.cancelled.Some? ==> r.state.cancelled == s.cancelled
    ensures !r.future.stalled ==> r.state.cancelled == s.cancelled
    ensures |s.enqueued| <= |r.state.enqueued| && r.state.enqueued[..|s.enqueued|] == s.enqueued
    ensures Grows(s.channels, r.state.channels)
    ensures WellFormed(s) ==> WellFormed(r.state)
    ensures PlaceholderGuarded(s) ==> PlaceholderGuarded(r.state)
    ensures CancelVisible(s) ==> CancelVisible(r.state)
  {
    if f.stalled then Resumed(Pending, f, s)
    else if f.steps == [] then Resumed(Ready(f.output), f, s)
    else
      var rest := f.(steps := f.steps[1..]);
      if f.steps[0].Yield? then Resumed(Pending, rest, s)
      else if f.steps[0].Cancel? then
        var n := Cancel(s, f.steps[0].value).state;
        assert n.enqueued[..|s.enqueued|] == s.enqueued;
        Resumed(Pending, rest.(stalled := true), n)
      else
        var n := Call(s, f.steps[0]);
        var r := PollFuture(n, rest);
        assert n.enqueued[..|s.enqueued|] == s.enqueued;
        assert r.state.enqueued[..|s.enqueued|] == r.state.enqueued[..|n.enqueued|][..|s.enqueued|];
        r
  }

  /** What one resumption does, step by step: a stalled future stays as it
      is; otherwise the script advances past its first step, whose effect is
      the one the step names (`Yield` none, `Cancel` that of `cancel` and the
      future then awaits for ever, a spawn call pushes its job first, with the
      next fresh channel), and the future keeps the rest of its script. */
  lemma {:induction false} PollFutureSteps<V, C, O>(s: State<V, C>, f: Future<V, C, O>)
    decreases |f.steps|
    ensures var r := PollFuture(s, f);
      && |r.future.steps| <= |f.steps| && r.future.steps == f.steps[|f.steps| - |r.future.steps|..]
      && (!f.stalled && r.poll.Pending? ==> |r.future.steps| < |f.steps|)
      && (f.stalled ==> r == Resumed(Pending, f, s))
      && (!f.stalled && f.steps != [] && f.steps[0].Yield? ==>
            r == Resumed(Pending, f.(steps := f.steps[1..]), s))
      && (!f.stalled && f.steps != [] && f.steps[0].Cancel? ==>
            r == Resumed(Pending, f.(steps := f.steps[1..], stalled := true), Cancel(s, f.steps[0].value).state))
      && (!f.stalled && f.steps != [] && f.steps[0].IsCall() ==>
            |s.enqueued| < |r.state.enqueued| && r.state.enqueued[|s.enqueued|] == Adapter(f.steps[0], |s.channels|))
  {
    if !f.stalled && f.steps != [] {
      var rest := f.(steps := f.steps[1..]);
      assert f.steps[1..] == f.steps[|f.steps| - |rest.steps|..];
      if f.steps[0].IsCall() {
        var n := Call(s, f.steps[0]);
        var r := PollFuture(n, rest);
        PollFutureSteps(n, rest);
        assert r.state.enqueued[|s.enqueued|] == r.state.enqueued[..|n.enqueued|][|s.enqueued|];
        assert f.steps[1..][|rest.steps| - |r.future.steps|..] == f.steps[|f.steps| - |r.future.steps|..];
      }
    }
  }

  /** `xs` with position `i` taken out. */
  function Remove<T>(xs: seq<T>, i: nat): (r: seq<T>)
    requires i < |xs|
    ensures |r| == |xs| - 1
  {
    xs[..i] + xs[i + 1..]
  }

  /** `tx.send(v)` on a capacity-one channel. */
  function Send<V>(channels: seq<ChannelState<V>>, tx: nat, v: V): (r: seq<ChannelState<V>>)
    ensures |r| == |channels|
    ensures tx < |channels| ==> r[tx] == Holding(v)
    ensures forall h :: 0 <= h < |channels| && h != tx ==> r[h] == channels[h]
  {
    if tx < |channels| then channels[tx := Holding(v)] else channels
  }

  /** The job completes on its next poll. */
  predicate Finishes<V, C>(j: Job<V, C>) {
    match j
    case Forward(f, _) => f.IsReady()
    case ForwardOrCancel(f, _, cancelling) => !cancelling && f.IsReady() && f.output.Ok?
    case Placeholder(_) => false
  }

  /** The value a finishing job sends on its channel: its future's output. */
  function Delivered<V, C>(j: Job<V, C>): (v: V)
    requires Finishes(j)
    ensures j.Forward? ==> v == j.future.output
    ensures j.ForwardOrCancel? ==> j.fallible.output == Ok(v)
  {
    match j
    case Forward(f, _) => f.output
    case ForwardOrCancel(f, _, _) => f.output.value
  }

  /** The job at `i` leaves the driven set and `v` is sent on its channel. */
  function Complete<V, C>(s: State<V, C>, i: nat, v: V): (r: State<V, C>)
    requires i < |s.futures|
    ensures r.futures == Remove(s.futures, i) && r.enqueued == s.enqueued && r.cancelled == s.cancelled
    ensures r.channels == Send(s.channels, s.futures[i].tx, v)
  {
    s.(futures := Remove(s.futures, i), channels := Send(s.channels, s.futures[i].tx, v))
  }

  /** One poll of the job at index `i` of the driven set, wrapper included:
      `spawn`'s adapter sends the value once the future is done;
      `spawn_cancelling`'s sends on `Ok(v)` and on `Err(e)` awaits `cancel(e)`
      for ever; the placeholder panics. */
  function PollJob<V, C>(s: State<V, C>, i: nat): (r: JobPolled<V, C>)
    requires i < |s.futures|
    ensures r.Panicked? <==> s.futures[i].Placeholder?
    ensures r.Completed? <==> Finishes(s.futures[i])
    ensures !r.Panicked? ==> |s.channels| <= |r.state.channels|
    ensures r.Completed? ==> r.state.futures == Remove(s.futures, i)
    ensures r.Completed? && s.futures[i].tx < |s.channels| ==>
      r.state.channels[s.futures[i].tx] == Holding(Delivered(s.futures[i]))
    ensures r.Suspended? ==> |r.state.futures| == |s.futures| && r.state.futures == s.futures[i := r.state.futures[i]]
    ensures r.Suspended? ==> r.state.futures[i].tx == s.futures[i].tx && !r.state.futures[i].Placeholder?
    ensures r.Suspended? && s.futures[i].ForwardOrCancel? && s.futures[i].cancelling ==> r.state == s
    ensures var j := s.futures[i];
      j.ForwardOrCancel? && !j.cancelling && j.fallible.IsReady() && j.fallible.output.Err? ==>
        && r.Suspended? && r.state.futures[i].ForwardOrCancel? && r.state.futures[i].cancelling
        && r.state.cancelled == (if s.cancelled.Some? then s.cancelled else Some(j.fallible.output.error))
    ensures !r.Panicked? ==> s.cancelled.Some? ==> r.state.cancelled == s.cancelled
    ensures !r.Panicked? ==> CancelVisible(s) ==> CancelVisible(r.state)
    ensures !r.Panicked? ==>
      |s.enqueued| <= |r.state.enqueued| && r.state.enqueued[..|s.enqueued|] == s.enqueued
  {
    match s.futures[i]
    case Placeholder(_) => Panicked
    case Forward(f, tx) =>
      var p := PollFuture(s, f);
      if p.poll.Ready? then Completed(Complete(p.state, i, p.poll.value))
      else Suspended(p.state.(futures := s.futures[i := Forward(p.future, tx)]))
    case ForwardOrCancel(f, tx, cancelling) =>
      if cancelling then Suspended(s)
      else
        var p := PollFuture(s, f);
        if p.poll.Pending? then
          Suspended(p.state.(futures := s.futures[i := ForwardOrCancel(p.future, tx, false)]))
        else
          match p.poll.value
          case Ok(v) => Completed(Complete(p.state, i, v))
          case Err(e) =>
            var k := Cancel(p.state, e).state;
            assert k.enqueued[..|s.enqueued|] == s.enqueued;
            Suspended(k.(futures := s.futures[i := ForwardOrCancel(p.future, tx, true)]))
  }

  /** What one job poll does to the rest of the scope: its future is resumed
      once against the scope, so the jobs it spawns, its `cancel` and the
      channels it creates are those of that resumption; on completion its
      value is sent on its channel, and on suspension the job keeps the
      resumed future. A `spawn_cancelling` job whose future fails calls
      `cancel` with the error on top of that. */
  lemma PollJobSteps<V, C>(s: State<V, C>, i: nat)
    requires i < |s.futures|
    ensures var j := s.futures[i]; var r := PollJob(s, i);
      j.Forward? ==>
        var p := PollFuture(s, j.future);
        && r.state.enqueued == p.state.enqueued && r.state.cancelled == p.state.cancelled
        && (r.Completed? ==> r.state.channels == Send(p.state.channels, j.tx, j.future.output))
        && (r.Suspended? ==> r.state.channels == p.state.channels && r.state.futures[i] == Forward(p.future, j.tx))
    ensures var j := s.futures[i]; var r := PollJob(s, i);
      j.ForwardOrCancel? && !j.cancelling ==>
        var p := PollFuture(s, j.fallible);
        && (p.poll.Pending? ==>
              && r.state.enqueued == p.state.enqueued && r.state.cancelled == p.state.cancelled
              && r.state.channels == p.state.channels
              && r.state.futures[i] == ForwardOrCancel(p.future, j.tx, false))
        && (p.poll.Ready? && p.poll.value.Ok? ==>
              && r.state.enqueued == p.state.enqueued && r.state.cancelled == p.state.cancelled
              && r.state.channels == Send(p.state.channels, j.tx, p.poll.value.value))
        && (p.poll.Ready? && p.poll.value.Err? ==>
              var k := Cancel(p.state, p.poll.value.error).state;
              && r.state.enqueued == k.enqueued && r.state.cancelled == k.cancelled
              && r.state.channels == k.channels
              && r.state.futures[i] == ForwardOrCancel(p.future, j.tx, true))
  {
  }

  /** `futures.extend(enqueued.drain(..))`: every enqueued job joins the
      driven set, once each and in order, and the queue is left empty. */
  function Admit<V, C>(s: State<V, C>): (r: State<V, C>)
    ensures r.futures == s.futures + s.enqueued && r.enqueued == []
    ensures r.cancelled == s.cancelled && r.channels == s.channels
    ensures Inv(s) && s.cancelled.None? ==> Inv(r)
  {
    assert (s.futures + s.enqueued) + [] == s.futures + s.enqueued;
    HasPlaceholderConcat(s.futures, s.enqueued);
    s.(futures := s.futures + s.enqueued, enqueued := [])
  }

  /** `poll_jobs`, its labelled outer loop: a set slot is taken and reported
      before any work; otherwise the queue is admitted and the inner loop
      runs. */
  function PollJobs<V, C>(s: State<V, C>, picks: seq<Pick>): (r: Driven<V, C>)
    decreases |picks|, 1
    ensures s.cancelled.Some? ==> r == Driven(Ready(Err(s.cancelled.value)), s.(cancelled := None))
    ensures r.Driven? && r.poll.Ready? && r.poll.value.Ok? ==>
      r.state.futures == [] && r.state.enqueued == []
    ensures r.Driven? && r.poll.Ready? ==> r.state.cancelled.None?
    ensures r.Driven? && r.poll.Pending? ==> r.state.futures != []
  {
    if s.cancelled.Some? then Driven(Ready(Err(s.cancelled.value)), s.(cancelled := None))
    else PollReady(Admit(s), picks)
  }

  /** `poll_jobs`, its inner `while let Some(()) = ready!(poll_next)` loop:
      an empty set ends the loop, which reports done only if no job was
      spawned meanwhile, and otherwise admits again; no ready job means
      `Pending`; a job that completes while the slot is set sends the drive
      back to the cancellation check. */
  function PollReady<V, C>(s: State<V, C>, picks: seq<Pick>): (r: Driven<V, C>)
    requires CancelVisible(s)
    decreases |picks|, if s.futures == [] && s.enqueued != [] then 2 else 0
    ensures r.Driven? && r.poll.Ready? && r.poll.value.Ok? ==>
      r.state.futures == [] && r.state.enqueued == []
    ensures r.Driven? && r.poll.Ready? ==> r.state.cancelled.None?
    ensures r.Driven? && r.poll.Pending? ==> r.state.futures != []
  {
    if s.futures == [] then
      if s.enqueued == [] then Driven(Ready(Ok(())), s) else PollJobs(s, picks)
    else if picks == [] || picks[0].Idle? then Driven(Pending, s)
    else
      var i := Chosen(picks[0], |s.futures|);
      match PollJob(s, i)
      case Panicked => Aborted
      case Completed(next) =>
        if next.cancelled.Some? then PollJobs(next, picks[1..]) else PollReady(next, picks[1..])
      case Suspended(next) => PollReady(next, picks[1..])
  }

  /** `clear`: both collections are emptied; once it returns no job is pending. */
  function Clear<V, C>(s: State<V, C>): (r: State<V, C>)
    ensures r.futures == [] && r.enqueued == []
    ensures r.cancelled == s.cancelled && r.channels == s.channels
    ensures WellFormed(r) && PlaceholderGuarded(r)
  {
    s.(futures := [], enqueued := [])
  }

  /** Awaiting the spawn handle `h`: the sent value is received once; the
      channel is then spent. */
  function Recv<V, C>(s: State<V, C>, h: nat): (r: (Received<V>, State<V, C>))
    requires h < |s.channels|
    ensures r.0.Received? <==> s.channels[h].Holding?
    ensures r.0.Received? ==> r.0.value == s.channels[h].value && r.1.channels == s.channels[h := Taken]
    ensures !r.0.Received? ==> r.1 == s
    ensures r.0.Closed? <==> s.channels[h].Taken?
    ensures r.1.futures == s.futures && r.1.enqueued == s.enqueued && r.1.cancelled == s.cancelled
    ensures WellFormed(s) ==> WellFormed(r.1)
    ensures Inv(s) ==> Inv(r.1)
  {
    match s.channels[h]
    case Holding(v) => (Received(v), s.(channels := s.channels[h := Taken]))
    case Empty => (NotYet, s)
    case Taken => (Closed, s)
  }

  // ---------------------------------------------------------------------------
  // Lemmas

  lemma {:induction false} HasPlaceholderConcat<V, C>(xs: seq<Job<V, C>>, ys: seq<Job<V, C>>)
    ensures HasPlaceholder(xs + ys) <==> HasPlaceholder(xs) || HasPlaceholder(ys)
  {
    if xs == [] {
      assert xs + ys == ys;
    } else {
      assert (xs + ys)[1..] == xs[1..] + ys;
      HasPlaceholderConcat(xs[1..], ys);
    }
  }

  lemma {:induction false} HasPlaceholderAt<V, C>(xs: seq<Job<V, C>>, i: nat)
    requires i < |xs|
    ensures xs[i].Placeholder? ==> HasPlaceholder(xs)
  {
    if i > 0 {
      HasPlaceholderAt(xs[1..], i - 1);
    }
  }

  lemma {:induction false} HasPlaceholderReplace<V, C>(xs: seq<Job<V, C>>, i: nat, job: Job<V, C>)
    requires i < |xs|
    ensures !HasPlaceholder(xs) && !job.Placeholder? ==> !HasPlaceholder(xs[i := job])
  {
    if i == 0 {
      assert xs[i := job][1..] == xs[1..];
    } else {
      assert xs[i := job][1..] == xs[1..][i - 1 := job];
      HasPlaceholderReplace(xs[1..], i - 1, job);
    }
  }

  lemma HasPlaceholderRemove<V, C>(xs: seq<Job<V, C>>, i: nat)
    requires i < |xs|
    ensures !HasPlaceholder(xs) ==> !HasPlaceholder(Remove(xs, i))
  {
    assert xs == xs[..i] + xs[i..];
    assert xs[i..] == [xs[i]] + xs[i + 1..];
    HasPlaceholderConcat(xs[..i], xs[i..]);
    HasPlaceholderConcat([xs[i]], xs[i + 1..]);
    HasPlaceholderConcat(xs[..i], xs[i + 1..]);
  }

  lemma OwnsAppend<V, C>(jobs: seq<Job<V, C>>, channels: seq<ChannelState<V>>, job: Job<V, C>)
    ensures Owns(jobs, channels) && job.tx == |channels| ==> Owns(jobs + [job], channels + [Empty])
  {
  }

  lemma OwnsReplace<V, C>(jobs: seq<Job<V, C>>, channels: seq<ChannelState<V>>, i: nat, job: Job<V, C>)
    requires i < |jobs|
    ensures Owns(jobs, channels) && job.tx == jobs[i].tx ==> Owns(jobs[i := job], channels)
  {
  }

  lemma OwnsRemoveSend<V, C>(jobs: seq<Job<V, C>>, channels: seq<ChannelState<V>>, i: nat, v: V)
    requires i < |jobs|
    ensures Owns(jobs, channels) ==> Owns(Remove(jobs, i), Send(channels, jobs[i].tx, v))
  {
  }

  /** One job poll keeps the invariant, cannot reach the placeholder, and
      writes only to the channel of the job that completes. */
  lemma PollJobPreserves<V, C>(s: State<V, C>, i: nat)
    requires i < |s.futures|
    ensures WellFormed(s) ==> !PollJob(s, i).Panicked? && WellFormed(PollJob(s, i).state)
    ensures WellFormed(s) ==> !PollJob(s, i).Panicked? && Grows(s.channels, PollJob(s, i).state.channels)
    ensures Inv(s) ==> !PollJob(s, i).Panicked? && Inv(PollJob(s, i).state)
  {
    if WellFormed(s) {
      HasPlaceholderAt(s.futures, i);
      match s.futures[i]
      case Forward(f, tx) =>
        var p := PollFuture(s, f);
        if p.poll.Ready? {
          CompletePreserves(p.state, i, p.poll.value);
        } else {
          JobReplaced(p.state, i, Forward(p.future, tx));
        }
      case ForwardOrCancel(f, tx, cancelling) =>
        if !cancelling {
          var p := PollFuture(s, f);
          if p.poll.Pending? {
            JobReplaced(p.state, i, ForwardOrCancel(p.future, tx, false));
          } else if p.poll.value.Ok? {
            CompletePreserves(p.state, i, p.poll.value.value);
          } else {
            var k := Cancel(p.state, p.poll.value.error).state;
            JobReplaced(k, i, ForwardOrCancel(p.future, tx, true));
          }
        }
    }
  }

  /** A job that completes leaves a well-formed state well formed, and its
      channel was still empty. */
  lemma CompletePreserves<V, C>(s: State<V, C>, i: nat, v: V)
    requires i < |s.futures|
    ensures WellFormed(s) ==> WellFormed(Complete(s, i, v)) && Grows(s.channels, Complete(s, i, v).channels)
  {
    if WellFormed(s) {
      OwnsRemoveSend(s.futures + s.enqueued, s.channels, i, v);
      assert Remove(s.futures + s.enqueued, i) == Remove(s.futures, i) + s.enqueued;
      HasPlaceholderRemove(s.futures, i);
      assert (s.futures + s.enqueued)[i] == s.futures[i];
    }
  }

  /** Replacing a driven job by its own next state, which reports on the same
      channel and is not the placeholder, keeps the state well formed. */
  lemma JobReplaced<V, C>(s: State<V, C>, i: nat, job: Job<V, C>)
    requires i < |s.futures|
    ensures WellFormed(s) && job.tx == s.futures[i].tx && !job.Placeholder? ==>
      WellFormed(s.(futures := s.futures[i := job]))
  {
    OwnsReplace(s.futures + s.enqueued, s.channels, i, job);
    assert s.futures[i := job] + s.enqueued == (s.futures + s.enqueued)[i := job];
    HasPlaceholderReplace(s.futures, i, job);
  }

  /** One turn of the inner polling loop, unfolded: the job picked by the
      head of the schedule is polled once, and the loop goes on from the
      resulting state; a completion while the slot is set goes back to the
      cancellation check. */
  lemma PollReadyStep<V, C>(s: State<V, C>, picks: seq<Pick>)
    requires CancelVisible(s) && Inv(s) && s.futures != [] && picks != [] && picks[0].Resume?
    ensures var r := PollJob(s, Chosen(picks[0], |s.futures|));
      && !r.Panicked? && Inv(r.state) && CancelVisible(r.state)
      && PollReady(s, picks) ==
         if r.Completed? && r.state.cancelled.Some? then PollJobs(r.state, picks[1..])
         else PollReady(r.state, picks[1..])
  {
    PollJobPreserves(s, Chosen(picks[0], |s.futures|));
  }

  /** The inner polling loop ends: on an empty driven set, with `Ok` if no
      job was spawned meanwhile and by admitting again otherwise, and with
      `Pending` when the schedule offers no ready job. */
  lemma PollReadyEnds<V, C>(s: State<V, C>, picks: seq<Pick>)
    requires CancelVisible(s)
    ensures s.futures == [] && s.enqueued == [] ==> PollReady(s, picks) == Driven(Ready(Ok(())), s)
    ensures s.futures == [] && s.enqueued != [] ==> PollReady(s, picks) == PollJobs(s, picks)
    ensures s.futures != [] && (picks == [] || picks[0].Idle?) ==> PollReady(s, picks) == Driven(Pending, s)
  {
  }

  /** A drive pass started from the invariant never reaches the placeholder,
      keeps the channels well owned, delivers each value at most once, and
      restores the invariant unless it reports a cancellation (whose slot it
      has just taken). */
  lemma {:induction false} DrivePreserves<V, C>(s: State<V, C>, picks: seq<Pick>)
    decreases |picks|, 1
    ensures Inv(s) ==> var r := PollJobs(s, picks);
      && r.Driven? && WellFormed(r.state) && Grows(s.channels, r.state.channels)
      && (!(r.poll.Ready? && r.poll.value.Err?) ==> Inv(r.state))
  {
    if Inv(s) && s.cancelled.None? {
      PollReadyPreserves(Admit(s), picks);
    }
  }

  /** The same for the inner polling loop. */
  lemma {:induction false} PollReadyPreserves<V, C>(s: State<V, C>, picks: seq<Pick>)
    requires Inv(s) && CancelVisible(s)
    decreases |picks|, if s.futures == [] && s.enqueued != [] then 2 else 0
    ensures var r := PollReady(s, picks);
      && r.Driven? && WellFormed(r.state) && Grows(s.channels, r.state.channels)
      && (!(r.poll.Ready? && r.poll.value.Err?) ==> Inv(r.state))
  {
    if s.futures == [] {
      if s.enqueued != [] {
        DrivePreserves(s, picks);
      }
    } else if picks != [] && picks[0].Resume? {
      var i := Chosen(picks[0], |s.futures|);
      PollJobPreserves(s, i);
      var r := PollJob(s, i);
      if r.Completed? && r.state.cancelled.Some? {
        DrivePreserves(r.state, picks[1..]);
      } else {
        PollReadyPreserves(r.state, picks[1..]);
      }
    }
  }

  // ---------------------------------------------------------------------------
  // No job is lost

  lemma AccountedSame<V, C>(s: State<V, C>, t: State<V, C>)
    requires Jobs(t) == Jobs(s) && t.channels == s.channels
    ensures Accounted(s, t)
  {
  }

  lemma AccountedTrans<V, C>(s0: State<V, C>, s1: State<V, C>, s2: State<V, C>)
    requires Accounted(s0, s1) && Accounted(s1, s2)
    ensures Accounted(s0, s2)
  {
    forall h: nat | h < |s2.channels| && (|s0.channels| <= h || Tracks(Jobs(s0), h))
      ensures Tracks(Jobs(s2), h) || s2.channels[h].Holding?
    {
      if h < |s1.channels| && !Tracks(Jobs(s1), h) {
        assert s1.channels[h].Holding?;
      }
    }
  }

  lemma EnqueueAccounts<V, C>(s: State<V, C>, job: Job<V, C>)
    requires job.tx == |s.channels|
    ensures Accounted(s, Enqueue(s, job))
  {
    var t := Enqueue(s, job);
    assert Jobs(t) == Jobs(s) + [job];
    forall h: nat | h < |t.channels| && (|s.channels| <= h || Tracks(Jobs(s), h))
      ensures Tracks(Jobs(t), h)
    {
      if h == |s.channels| {
        assert Jobs(t)[|Jobs(s)|].tx == h;
      } else {
        var k :| 0 <= k < |Jobs(s)| && Jobs(s)[k].tx == h;
        assert Jobs(t)[k].tx == h;
      }
    }
  }

  lemma CancelAccounts<V, C>(s: State<V, C>, c: C)
    ensures Accounted(s, Cancel(s, c).state)
  {
    var slot := if s.cancelled.None? then Some(c) else s.cancelled;
    EnqueueAccounts(s.(cancelled := slot), Placeholder(|s.channels|));
  }

  lemma ReplaceAccounts<V, C>(s: State<V, C>, i: nat, job: Job<V, C>)
    requires i < |s.futures| && job.tx == s.futures[i].tx
    ensures Accounted(s, s.(futures := s.futures[i := job]))
  {
    var t := s.(futures := s.futures[i := job]);
    assert Jobs(t) == Jobs(s)[i := job];
    forall h: nat | Tracks(Jobs(s), h) ensures Tracks(Jobs(t), h) {
      var k :| 0 <= k < |Jobs(s)| && Jobs(s)[k].tx == h;
      assert Jobs(t)[k].tx == h;
    }
  }

  lemma CompleteAccounts<V, C>(s: State<V, C>, i: nat, v: V)
    requires i < |s.futures| && WellFormed(s)
    ensures Accounted(s, Complete(s, i, v))
  {
    var t := Complete(s, i, v);
    CompletePreserves(s, i, v);
    var tx := s.futures[i].tx;
    assert Jobs(s)[i] == s.futures[i];
    assert Jobs(t) == Remove(Jobs(s), i);
    forall h: nat | h < |t.channels| && Tracks(Jobs(s), h) && h != tx ensures Tracks(Jobs(t), h) {
      RemoveTracks(Jobs(s), i, h);
    }
  }

  /** Taking out a job on another channel keeps channel `h` tracked. */
  lemma RemoveTracks<V, C>(jobs: seq<Job<V, C>>, i: nat, h: nat)
    requires i < |jobs| && Tracks(jobs, h) && jobs[i].tx != h
    ensures Tracks(Remove(jobs, i), h)
  {
    var k :| 0 <= k < |jobs| && jobs[k].tx == h;
    if k < i {
      assert Remove(jobs, i)[k] == jobs[k];
    } else {
      assert Remove(jobs, i)[k - 1] == jobs[k];
    }
  }

  /** A resumption only adds jobs, each with the channel it creates. */
  lemma {:induction false} PollFutureAccounts<V, C, O>(s: State<V, C>, f: Future<V, C, O>)
    decreases |f.steps|
    ensures Accounted(s, PollFuture(s, f).state)
  {
    if !f.stalled && f.steps != [] {
      if f.steps[0].Cancel? {
        CancelAccounts(s, f.steps[0].value);
      } else if f.steps[0].IsCall() {
        var n := Call(s, f.steps[0]);
        EnqueueAccounts(s, Adapter(f.steps[0], |s.channels|));
        PollFutureAccounts(n, f.(steps := f.steps[1..]));
        AccountedTrans(s, n, PollFuture(s, f).state);
      } else {
        AccountedSame(s, s);
      }
    } else {
      AccountedSame(s, s);
    }
  }

  /** One job poll loses no job: the polled job either stays, under the same
      channel, or completes and sends. */
  lemma PollJobAccounts<V, C>(s: State<V, C>, i: nat)
    requires i < |s.futures| && WellFormed(s)
    ensures !PollJob(s, i).Panicked? && Accounted(s, PollJob(s, i).state)
  {
    PollJobPreserves(s, i);
    var r := PollJob(s, i);
    match s.futures[i]
    case Forward(f, tx) =>
      var p := PollFuture(s, f);
      PollFutureAccounts(s, f);
      if p.poll.Ready? {
        CompleteAccounts(p.state, i, p.poll.value);
      } else {
        ReplaceAccounts(p.state, i, Forward(p.future, tx));
      }
      AccountedTrans(s, p.state, r.state);
    case ForwardOrCancel(f, tx, cancelling) =>
      if cancelling {
        AccountedSame(s, s);
      } else {
        var p := PollFuture(s, f);
        PollFutureAccounts(s, f);
        if p.poll.Pending? {
          ReplaceAccounts(p.state, i, ForwardOrCancel(p.future, tx, false));
        } else if p.poll.value.Ok? {
          CompleteAccounts(p.state, i, p.poll.value.value);
        } else {
          var k := Cancel(p.state, p.poll.value.error).state;
          CancelAccounts(p.state, p.poll.value.error);
          ReplaceAccounts(k, i, ForwardOrCancel(p.future, tx, true));
          AccountedTrans(p.state, k, r.state);
        }
        AccountedTrans(s, p.state, r.state);
      }
  }

  /** A whole drive loses no job, whatever the schedule: every job that was
      there, and every job spawned during the drive, is still in the scope or
      has sent its value. */
  lemma {:induction false} DriveAccounts<V, C>(s: State<V, C>, picks: seq<Pick>)
    requires Inv(s)
    decreases |picks|, 1
    ensures PollJobs(s, picks).Driven? && Accounted(s, PollJobs(s, picks).state)
  {
    DrivePreserves(s, picks);
    if s.cancelled.Some? {
      AccountedSame(s, s.(cancelled := None));
    } else {
      AccountedSame(s, Admit(s));
      PollReadyAccounts(Admit(s), picks);
      AccountedTrans(s, Admit(s), PollJobs(s, picks).state);
    }
  }

  /** The same for the inner polling loop. */
  lemma {:induction false} PollReadyAccounts<V, C>(s: State<V, C>, picks: seq<Pick>)
    requires Inv(s) && CancelVisible(s)
    decreases |picks|, if s.futures == [] && s.enqueued != [] then 2 else 0
    ensures PollReady(s, picks).Driven? && Accounted(s, PollReady(s, picks).state)
  {
    PollReadyPreserves(s, picks);
    if s.futures == [] {
      if s.enqueued != [] {
        DriveAccounts(s, picks);
      } else {
        AccountedSame(s, s);
      }
    } else if picks != [] && picks[0].Resume? {
      var i := Chosen(picks[0], |s.futures|);
      PollJobPreserves(s, i);
      PollJobAccounts(s, i);
      var r := PollJob(s, i);
      if r.Completed? && r.state.cancelled.Some? {
        DriveAccounts(r.state, picks[1..]);
      } else {
        PollReadyAccounts(r.state, picks[1..]);
      }
      AccountedTrans(s, r.state, PollReady(s, picks).state);
    } else {
      AccountedSame(s, s);
    }
  }

  /** What `poll_jobs` promises about the jobs: a job leaves the scope only
      by completing and sending its value, and `Ready(Ok(()))` means that
      every job that was pending, and every job spawned during the drive
      (late spawns included), has sent its value. */
  lemma DriveSettles<V, C>(s: State<V, C>, picks: seq<Pick>)
    requires Inv(s)
    ensures var r := PollJobs(s, picks);
      && r.Driven?
      && (forall j :: j in Jobs(s) ==>
            j.tx < |r.state.channels| && (Tracks(Jobs(r.state), j.tx) || r.state.channels[j.tx].Holding?))
      && (r.poll == Ready(Ok(())) ==>
            && (forall j :: j in Jobs(s) ==> j.tx < |r.state.channels| && r.state.channels[j.tx].Holding?)
            && (forall h :: |s.channels| <= h < |r.state.channels| ==> r.state.channels[h].Holding?))
  {
    DriveAccounts(s, picks);
    var r := PollJobs(s, picks);
    forall j | j in Jobs(s)
      ensures j.tx < |r.state.channels| && (Tracks(Jobs(r.state), j.tx) || r.state.channels[j.tx].Holding?)
    {
      var k :| 0 <= k < |Jobs(s)| && Jobs(s)[k] == j;
      assert Tracks(Jobs(s), j.tx);
    }
  }

  // ---------------------------------------------------------------------------
  // A failing job rules out `Ok`

  lemma DoomedExtends<V, C>(s: State<V, C>, t: State<V, C>)
    requires HasDoomed(Jobs(s)) && t.futures == s.futures
    requires |s.enqueued| <= |t.enqueued| && t.enqueued[..|s.enqueued|] == s.enqueued
    ensures HasDoomed(Jobs(t))
  {
    var k :| 0 <= k < |Jobs(s)| && Doomed(Jobs(s)[k]);
    if k >= |s.futures| {
      assert t.enqueued[k - |s.futures|] == t.enqueued[..|s.enqueued|][k - |s.futures|];
    }
    assert Jobs(t)[k] == Jobs(s)[k];
  }

  /** A queued job keeps its place in `enqueued` when only more are queued. */
  lemma QueuedStays<V, C>(s: State<V, C>, t: State<V, C>, k: nat)
    requires |s.futures| <= k < |Jobs(s)|
    requires |s.enqueued| <= |t.enqueued| && t.enqueued[..|s.enqueued|] == s.enqueued
    ensures Jobs(t)[|t.futures| + k - |s.futures|] == Jobs(s)[k]
  {
    var e := k - |s.futures|;
    assert t.enqueued[e] == t.enqueued[..|s.enqueued|][e];
  }

  /** Every step of a script without await points is a spawn call. */
  lemma {:induction false} OnlyCallsAll<V, C>(steps: seq<Step<V, C>>)
    requires OnlyCalls(steps)
    ensures forall k :: 0 <= k < |steps| ==> steps[k].IsCall()
  {
    if steps != [] {
      OnlyCallsAll(steps[1..]);
      assert forall k :: 1 <= k < |steps| ==> steps[k] == steps[1..][k - 1];
    }
  }

  /** A future that cancels before it ends never completes: a resumption
      leaves it pending, and still cancelling or awaiting `cancel`. */
  lemma {:induction false} CancelStays<V, C, O>(s: State<V, C>, f: Future<V, C, O>)
    requires CancelsAhead(f)
    decreases |f.steps|
    ensures !f.IsReady() && CancelsAhead(PollFuture(s, f).future)
  {
    if OnlyCalls(f.steps) {
      OnlyCallsAll(f.steps);
    }
    if !f.stalled {
      var k :| 0 <= k < |f.steps| && f.steps[k].Cancel?;
      var rest := f.(steps := f.steps[1..]);
      if !f.steps[0].Cancel? {
        assert rest.steps[k - 1] == f.steps[k];
        if f.steps[0].IsCall() {
          CancelStays(Call(s, f.steps[0]), rest);
        }
      }
    }
  }

  /** A job that can never complete is still there after one job poll. */
  lemma PollJobKeepsDoomed<V, C>(s: State<V, C>, i: nat)
    requires i < |s.futures| && WellFormed(s) && HasDoomed(Jobs(s))
    ensures !PollJob(s, i).Panicked? && HasDoomed(Jobs(PollJob(s, i).state))
  {
    PollJobPreserves(s, i);
    var r := PollJob(s, i);
    var k :| 0 <= k < |Jobs(s)| && Doomed(Jobs(s)[k]);
    if k >= |s.futures| {
      QueuedStays(s, r.state, k);
    } else if k == i {
      assert Jobs(s)[k] == s.futures[i];
      match s.futures[i] {
        case Forward(f, tx) =>
          CancelStays(s, f);
        case ForwardOrCancel(f, tx, cancelling) =>
          if !cancelling {
            if CancelsAhead(f) {
              CancelStays(s, f);
            } else {
              assert PollFuture(s, f).future.output == f.output;
            }
          }
      }
      assert r.Suspended?;
      assert Doomed(r.state.futures[i]);
      assert Jobs(r.state)[i] == r.state.futures[i];
    } else if r.Completed? && k > i {
      assert Jobs(r.state)[k - 1] == Jobs(s)[k];
    } else {
      assert Jobs(r.state)[k] == Jobs(s)[k];
    }
  }

  /** A drive over a scope holding a job that can never complete never
      reports `Ok`, whatever the schedule: the job stays in the scope. */
  lemma {:induction false} DoomedDrive<V, C>(s: State<V, C>, picks: seq<Pick>)
    requires Inv(s) && HasDoomed(Jobs(s))
    decreases |picks|, 1
    ensures var r := PollJobs(s, picks);
      r.Driven? && HasDoomed(Jobs(r.state)) && r.poll != Ready(Ok(()))
  {
    DrivePreserves(s, picks);
    if s.cancelled.None? {
      assert Jobs(Admit(s)) == Jobs(s);
      DoomedPollReady(Admit(s), picks);
    } else {
      assert Jobs(s.(cancelled := None)) == Jobs(s);
    }
  }

  /** The same for the inner polling loop. */
  lemma {:induction false} DoomedPollReady<V, C>(s: State<V, C>, picks: seq<Pick>)
    requires Inv(s) && CancelVisible(s) && HasDoomed(Jobs(s))
    decreases |picks|, if s.futures == [] && s.enqueued != [] then 2 else 0
    ensures var r := PollReady(s, picks);
      r.Driven? && HasDoomed(Jobs(r.state)) && r.poll != Ready(Ok(()))
  {
    PollReadyPreserves(s, picks);
    if s.futures == [] {
      DoomedDrive(s, picks);
    } else if picks != [] && picks[0].Resume? {
      var i := Chosen(picks[0], |s.futures|);
      PollJobPreserves(s, i);
      PollJobKeepsDoomed(s, i);
      var r := PollJob(s, i);
      if r.Completed? && r.state.cancelled.Some? {
        DoomedDrive(r.state, picks[1..]);
      } else {
        DoomedPollReady(r.state, picks[1..]);
      }
    }
  }
}
