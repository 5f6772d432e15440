/** `Scope` of src/scope.rs: the object every job and the body share, whose
    methods update its fields in place. Each method is specified by the
    function of the same name in `ScopeModel`, applied to `Model()`. */
module Scopes {
  import opened Async
  import ScopeModel

  /** How the inner polling loop of `poll_jobs` ended. */
  datatype Exit = Exhausted | Blocked | Interrupted

  class Scope<V, C> {
    /** The jobs being driven (a `FuturesUnordered`). */
    var futures: seq<ScopeModel.Job<V, C>>
    /** Jobs spawned since the last admission. */
    var enqueued: seq<ScopeModel.Job<V, C>>
    /** The cancellation slot. */
    var cancelled: Option<C>
    /** The capacity-one channels created by `spawn`, indexed by handle. */
    var channels: seq<ChannelState<V>>
    /** `poll_jobs` has returned `Ready(Err(_))`; it must not be called again. */
    ghost var terminated: bool

    /** The value the fields stand for. */
    function Model(): (m: ScopeModel.State<V, C>)
      reads this
    {
      ScopeModel.State(futures, enqueued, cancelled, channels)
    }

    ghost predicate Valid()
      reads this
    {
      && ScopeModel.WellFormed(Model())
      && (!terminated ==> ScopeModel.PlaceholderGuarded(Model()))
    }

    /** `Scope::new`. */
    constructor ()
      ensures Valid() && !terminated
      ensures Model() == ScopeModel.New()
    {
      futures := [];
      enqueued := [];
      cancelled := None;
      channels := [];
      terminated := false;
    }

    /** `spawn`: push the forwarding job, return the receiver. */
    method Spawn(f: Future<V, C, V>) returns (handle: nat)
      requires Valid()
      modifies this
      ensures Valid() && terminated == old(terminated)
      ensures ScopeModel.Spawned(Model(), handle) == ScopeModel.Spawn(old(Model()), f)
    {
      handle := |channels|;
      channels := channels + [Empty];
      enqueued := enqueued + [ScopeModel.Forward(f, handle)];
      assert Model() == ScopeModel.Spawn(old(Model()), f).state;
    }

    /** `spawn_cancelling`: push the job that sends on `Ok` and cancels on `Err`. */
    method SpawnCancelling(f: Future<V, C, Result<V, C>>) returns (handle: nat)
      requires Valid()
      modifies this
      ensures Valid() && terminated == old(terminated)
      ensures ScopeModel.Spawned(Model(), handle) == ScopeModel.SpawnCancelling(old(Model()), f)
    {
      handle := |channels|;
      channels := channels + [Empty];
      enqueued := enqueued + [ScopeModel.ForwardOrCancel(f, handle, false)];
      assert Model() == ScopeModel.SpawnCancelling(old(Model()), f).state;
    }

    /** `cancel`: write the slot if it is empty, then spawn the placeholder
        and return its receiver. */
    method Cancel(value: C) returns (handle: nat)
      requires Valid()
      modifies this
      ensures Valid() && terminated == old(terminated)
      ensures ScopeModel.Spawned(Model(), handle) == ScopeModel.Cancel(old(Model()), value)
      ensures old(cancelled).Some? ==> cancelled == old(cancelled)
    {
      if cancelled.None? {
        cancelled := Some(value);
      }
      handle := |channels|;
      channels := channels + [Empty];
      enqueued := enqueued + [ScopeModel.Placeholder(handle)];
      assert Model() == ScopeModel.Cancel(old(Model()), value).state;
    }

    /** `cancel_if_err`. */
    method CancelIfErr<O>(value: Result<O, C>) returns (future: ScopeModel.Awaiting<O>)
      requires Valid()
      modifies this
      ensures Valid() && terminated == old(terminated)
      ensures (Model(), future) == ScopeModel.CancelIfErr(old(Model()), value)
    {
      match value
      case Ok(o) =>
        future := ScopeModel.Immediate(o);
      case Err(c) =>
        var handle := Cancel(c);
        future := ScopeModel.Receiver(handle);
    }

    /** Resume a scripted future once: its leading spawn calls run against
        this scope, up to the await point where it suspends or its end. */
    method PollFuture<O>(f: Future<V, C, O>) returns (poll: Poll<O>, next: Future<V, C, O>)
      requires Valid()
      modifies this
      decreases |f.steps|
      ensures Valid() && terminated == old(terminated)
      ensures ScopeModel.Resumed(poll, next, Model()) == ScopeModel.PollFuture(old(Model()), f)
    {
      if f.stalled {
        return Pending, f;
      }
      if f.steps == [] {
        return Ready(f.output), f;
      }
      var rest := f.(steps := f.steps[1..]);
      match f.steps[0]
      case Yield =>
        poll, next := Pending, rest;
      case Cancel(c) =>
        var _ := Cancel(c);
        poll, next := Pending, rest.(stalled := true);
      case Spawn(job) =>
        var _ := Spawn(job);
        poll, next := PollFuture(rest);
      case SpawnCancelling(job) =>
        var _ := SpawnCancelling(job);
        poll, next := PollFuture(rest);
    }

    /** Poll the driven job at index `i` once, wrapper included. */
    method PollJob(i: nat) returns (completed: bool)
      requires Valid() && i < |futures|
      modifies this
      ensures Valid() && terminated == old(terminated)
      ensures ScopeModel.PollJob(old(Model()), i) ==
        if completed then ScopeModel.Completed(Model()) else ScopeModel.Suspended(Model())
    {
      ScopeModel.PollJobPreserves(Model(), i);
      assert (futures + enqueued)[i] == futures[i];
      match futures[i]
      case Placeholder(_) =>
        assert false;
      case Forward(_, _) =>
        completed := PollForward(i);
      case ForwardOrCancel(_, _, cancelling) =>
        if cancelling {
          completed := false;
        } else {
          completed := PollFallible(i);
        }
    }

    /** `spawn`'s adapter: `let v = future.await; tx.send(v).await`. */
    method PollForward(i: nat) returns (completed: bool)
      requires Valid() && i < |futures| && futures[i].Forward?
      modifies this
      ensures Valid() && terminated == old(terminated)
      ensures ScopeModel.PollJob(old(Model()), i) ==
        if completed then ScopeModel.Completed(Model()) else ScopeModel.Suspended(Model())
    {
      ghost var s0 := Model();
      ScopeModel.PollJobPreserves(s0, i);
      var tx := futures[i].tx;
      assert (futures + enqueued)[i] == futures[i];
      var poll, next := PollFuture(futures[i].future);
      ghost var p := ScopeModel.PollFuture(s0, s0.futures[i].future);
      assert Model() == p.state && tx < |channels|;
      if poll.Ready? {
        channels := channels[tx := Holding(poll.value)];
        futures := futures[..i] + futures[i + 1..];
        completed := true;
        assert Model() == ScopeModel.Complete(p.state, i, poll.value);
      } else {
        futures := futures[i := ScopeModel.Forward(next, tx)];
        completed := false;
        assert Model() == p.state.(futures := s0.futures[i := ScopeModel.Forward(p.future, tx)]);
      }
    }

    /** `spawn_cancelling`'s adapter, before it has seen `Err`: send on
        `Ok(v)`, call `cancel(e)` on `Err(e)`. */
    method PollFallible(i: nat) returns (completed: bool)
      requires Valid() && i < |futures| && futures[i].ForwardOrCancel? && !futures[i].cancelling
      modifies this
      ensures Valid() && terminated == old(terminated)
      ensures ScopeModel.PollJob(old(Model()), i) ==
        if completed then ScopeModel.Completed(Model()) else ScopeModel.Suspended(Model())
    {
      ghost var s0 := Model();
      ScopeModel.PollJobPreserves(s0, i);
      var tx := futures[i].tx;
      assert (futures + enqueued)[i] == futures[i];
      var poll, next := PollFuture(futures[i].fallible);
      ghost var p := ScopeModel.PollFuture(s0, s0.futures[i].fallible);
      assert Model() == p.state && tx < |channels|;
      completed := false;
      if poll.Pending? {
        futures := futures[i := ScopeModel.ForwardOrCancel(next, tx, false)];
        assert Model() == p.state.(futures := s0.futures[i := ScopeModel.ForwardOrCancel(p.future, tx, false)]);
      } else {
        match poll.value
        case Ok(v) =>
          channels := channels[tx := Holding(v)];
          futures := futures[..i] + futures[i + 1..];
          completed := true;
          assert Model() == ScopeModel.Complete(p.state, i, v);
        case Err(e) =>
          var _ := Cancel(e);
          ghost var k := ScopeModel.Cancel(p.state, e).state;
          assert Model() == k;
          futures := futures[i := ScopeModel.ForwardOrCancel(next, tx, true)];
          assert Model() == k.(futures := s0.futures[i := ScopeModel.ForwardOrCancel(p.future, tx, true)]);
      }
    }

    /** `poll_jobs`: the drive loop, with `picks` as the schedule of
        `poll_next`. */
    method PollJobs(picks: seq<ScopeModel.Pick>) returns (poll: Poll<Result<(), C>>)
      requires Valid() && !terminated
      modifies this
      ensures Valid()
      ensures ScopeModel.PollJobs(old(Model()), picks) == ScopeModel.Driven(poll, Model())
      ensures terminated <==> poll.Ready? && poll.value.Err?
      ensures poll.Ready? && poll.value.Ok? ==> futures == [] && enqueued == []
      ensures old(cancelled).Some? ==> poll == Ready(Err(old(cancelled).value))
    {
      var k := 0;
      while true
        invariant k <= |picks| && Valid() && !terminated
        invariant ScopeModel.PollJobs(Model(), picks[k..]) == ScopeModel.PollJobs(old(Model()), picks)
        decreases |picks| - k
      {
        // a set slot ends the drive before any job is admitted
        if cancelled.Some? {
          var c := cancelled.value;
          cancelled := None;
          terminated := true;
          return Ready(Err(c));
        }
        futures := futures + enqueued;
        enqueued := [];
        var exit;
        k, exit := PollReady(picks, k);
        match exit
        case Blocked =>
          return Pending;
        case Interrupted =>
          continue;
        case Exhausted =>
          if enqueued == [] {
            return Ready(Ok(()));
          }
      }
    }

    /** The inner loop of `poll_jobs`, `while let Some(()) =
        ready!(futures.poll_next(cx))`, run from position `from` of the
        schedule: it ends when the driven set is empty (`Exhausted`), when no
        job is ready (`Blocked`), or when a job completes while the slot is
        set (`Interrupted`, the `continue 'outer`). */
    method PollReady(picks: seq<ScopeModel.Pick>, from: nat) returns (k: nat, exit: Exit)
      requires Valid() && !terminated && from <= |picks|
      requires enqueued == [] && ScopeModel.CancelVisible(Model())
      modifies this
      ensures Valid() && !terminated && from <= k <= |picks|
      ensures exit.Exhausted? ==> futures == [] && (k == from ==> enqueued == [])
      ensures exit.Exhausted? ==>
        ScopeModel.PollReady(old(Model()), picks[from..]) ==
        (if enqueued == [] then ScopeModel.Driven(Ready(Ok(())), Model())
         else ScopeModel.PollJobs(Model(), picks[k..]))
      ensures exit.Blocked? ==>
        ScopeModel.PollReady(old(Model()), picks[from..]) == ScopeModel.Driven(Pending, Model())
      ensures exit.Interrupted? ==>
        from < k && ScopeModel.PollReady(old(Model()), picks[from..]) == ScopeModel.PollJobs(Model(), picks[k..])
    {
      k := from;
      var interrupted := false;
      ghost var goal := ScopeModel.PollReady(old(Model()), picks[from..]);
      while !interrupted && futures != [] && k < |picks| && picks[k].Resume?
        invariant from <= k <= |picks| && Valid() && !terminated
        invariant k == from ==> enqueued == [] && !interrupted
        invariant interrupted ==> from < k && goal == ScopeModel.PollJobs(Model(), picks[k..])
        invariant !interrupted ==> ScopeModel.CancelVisible(Model()) && goal == ScopeModel.PollReady(Model(), picks[k..])
        decreases |picks| - k
      {
        ghost var turn := ScopeModel.PollReady(Model(), picks[k..]);
        interrupted := PollPicked(picks, k);
        assert interrupted ==> turn == ScopeModel.PollJobs(Model(), picks[k + 1..]);
        assert !interrupted ==> turn == ScopeModel.PollReady(Model(), picks[k + 1..]);
        k := k + 1;
      }
      if !interrupted {
        ScopeModel.PollReadyEnds(Model(), picks[k..]);
      }
      exit := if interrupted then Interrupted else if futures == [] then Exhausted else Blocked;
    }

    /** One turn of the inner loop: `poll_next` resumes the job that
        `picks[k]` designates; the turn interrupts the loop when that job
        completes while the slot is set. */
    method PollPicked(picks: seq<ScopeModel.Pick>, k: nat) returns (interrupted: bool)
      requires Valid() && !terminated && ScopeModel.CancelVisible(Model())
      requires futures != [] && k < |picks| && picks[k].Resume?
      modifies this
      ensures Valid() && !terminated
      ensures interrupted ==>
        ScopeModel.PollReady(old(Model()), picks[k..]) == ScopeModel.PollJobs(Model(), picks[k + 1..])
      ensures !interrupted ==>
        ScopeModel.CancelVisible(Model()) && ScopeModel.PollReady(old(Model()), picks[k..]) == ScopeModel.PollReady(Model(), picks[k + 1..])
    {
      var i := ScopeModel.Chosen(picks[k], |futures|);
      assert picks[k..][1..] == picks[k + 1..];
      ScopeModel.PollReadyStep(Model(), picks[k..]);
      var completed := PollJob(i);
      // a completion under a set slot ends this pass of the inner loop
      interrupted := completed && cancelled.Some?;
    }

    /** `clear`: once it returns, no job is pending. */
    method Clear()
      modifies this
      ensures Valid() && terminated == old(terminated)
      ensures Model() == ScopeModel.Clear(old(Model()))
    {
      futures := [];
      enqueued := [];
    }

    /** Await the spawn handle `handle` once. */
    method Receive(handle: nat) returns (r: Received<V>)
      requires Valid() && handle < |channels|
      modifies this
      ensures Valid() && terminated == old(terminated)
      ensures (r, Model()) == ScopeModel.Recv(old(Model()), handle)
    {
      match channels[handle]
      case Holding(v) =>
        r := Received(v);
        channels := channels[handle := Taken];
      case Empty =>
        r := NotYet;
      case Taken =>
        r := Closed;
    }
  }
}
