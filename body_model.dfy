/** The join driver of src/body.rs as a function over plain values.

    A `BodyState` holds the three fields of `Body`: the body future while it
    is still running, the value it returned once it is done (until that value
    is handed out), and the state of the scope it shares with its jobs. */
module BodyModel {
  import opened Async
  import ScopeModel

  datatype BodyState<V, C, T> = BodyState(
    bodyFuture: Option<Future<V, C, T>>,
    result: Option<T>,
    scope: ScopeModel.State<V, C>)

  /** What one poll of the body reports, with the state it leaves; `Aborted`
      when the scope's drive reached the placeholder job, which panics. */
  datatype BodyPolled<V, C, T> = BodyPolled(poll: Poll<Result<T, C>>, body: BodyState<V, C, T>) | Aborted

  /** The body's own value is held at most while the body future is gone. */
  predicate Consistent<V, C, T>(b: BodyState<V, C, T>) {
    b.bodyFuture.Some? ==> b.result.None?
  }

  /** `Body::new`: the body future is stored, no result yet. */
  function New<V, C, T>(f: Future<V, C, T>, scope: ScopeModel.State<V, C>): (b: BodyState<V, C, T>)
    ensures b.bodyFuture == Some(f) && b.result == None && b.scope == scope
    ensures Consistent(b)
  {
    BodyState(Some(f), None, scope)
  }

  /** The first half of `poll`: the body future, while there is one, is
      resumed once against the shared scope; when it completes its value moves
      to `result` and the future is dropped. Without a body future nothing
      happens. */
  function Advance<V, C, T>(b: BodyState<V, C, T>): (r: BodyState<V, C, T>)
    ensures b.bodyFuture.None? ==> r == b
    ensures b.bodyFuture.Some? ==> r.scope == ScopeModel.PollFuture(b.scope, b.bodyFuture.value).state
    ensures b.bodyFuture.Some? && b.bodyFuture.value.IsReady() ==>
      r.bodyFuture.None? && r.result == Some(b.bodyFuture.value.output)
    ensures b.bodyFuture.Some? && !b.bodyFuture.value.IsReady() ==>
      r.bodyFuture.Some? && r.bodyFuture.value.output == b.bodyFuture.value.output && r.result == b.result
    ensures b.bodyFuture.Some? && !b.bodyFuture.value.IsReady() ==>
      r.bodyFuture == Some(ScopeModel.PollFuture(b.scope, b.bodyFuture.value).future)
    ensures b.scope.cancelled.Some? ==> r.scope.cancelled == b.scope.cancelled
    ensures r.scope.futures == b.scope.futures
    ensures |b.scope.enqueued| <= |r.scope.enqueued| && r.scope.enqueued[..|b.scope.enqueued|] == b.scope.enqueued
    ensures Consistent(b) ==> Consistent(r)
    ensures ScopeModel.Inv(b.scope) ==> ScopeModel.Inv(r.scope)
  {
    match b.bodyFuture
    case None => b
    case Some(f) =>
      var p := ScopeModel.PollFuture(b.scope, f);
      match p.poll
      case Ready(v) => b.(bodyFuture := None, result := Some(v), scope := p.state)
      case Pending => b.(bodyFuture := Some(p.future), scope := p.state)
  }

  /** `Body::poll`: advance the body, then drive the scope's jobs on every
      poll, whatever the body did; a cancellation is reported before any
      result; the body's value is handed out (and taken) only once every job
      is done; otherwise the body is pending. */
  function Poll<V, C, T>(b: BodyState<V, C, T>, picks: seq<ScopeModel.Pick>): (r: BodyPolled<V, C, T>)
    ensures b.scope.cancelled.Some? ==> r.BodyPolled? && r.poll == Ready(Err(b.scope.cancelled.value))
    ensures Consistent(b) && r.BodyPolled? && r.poll.Ready? && r.poll.value.Ok? ==>
      && r.body.bodyFuture.None? && r.body.result.None?
      && r.body.scope.futures == [] && r.body.scope.enqueued == []
      && r.body.scope.cancelled.None?
      && (if b.bodyFuture.Some? then b.bodyFuture.value.IsReady() && r.poll.value.value == b.bodyFuture.value.output
          else b.result == Some(r.poll.value.value))
    ensures Consistent(b) && b.bodyFuture.Some? && !b.bodyFuture.value.IsReady() ==>
      r.BodyPolled? ==> r.body.bodyFuture.Some? && !(r.poll.Ready? && r.poll.value.Ok?)
    ensures b.bodyFuture.None? ==> r.BodyPolled? ==> r.body.bodyFuture.None?
    ensures r.BodyPolled? && r.poll.Pending? ==> r.body.result == Advance(b).result
    ensures r.BodyPolled? && r.poll.Ready? && r.poll.value.Err? ==> r.body.result == Advance(b).result
    ensures ScopeModel.Inv(b.scope) ==> r.BodyPolled?
    ensures ScopeModel.Inv(b.scope) && r.BodyPolled? && !(r.poll.Ready? && r.poll.value.Err?) ==>
      ScopeModel.Inv(r.body.scope)
    ensures Consistent(b) && r.BodyPolled? ==> Consistent(r.body)
    ensures r == Drain(Advance(b), picks)
  {
    var a := Advance(b);
    ScopeModel.DrivePreserves(a.scope, picks);
    Drain(a, picks)
  }

  /** The second half of `poll`: `ready!(scope.drain(cx))?`, then
      `result.take()`. The drive's `Pending` and `Err` are passed on, the
      latter before any stored result; after the drive's `Ok` the body's value
      is handed out if it is there, and the poll is pending otherwise. */
  function Drain<V, C, T>(a: BodyState<V, C, T>, picks: seq<ScopeModel.Pick>): (r: BodyPolled<V, C, T>)
    ensures var d := ScopeModel.PollJobs(a.scope, picks);
      && (r.Aborted? <==> d.Aborted?)
      && (r.BodyPolled? ==> r.body.bodyFuture == a.bodyFuture && r.body.scope == d.state)
      && (d.Driven? && d.poll.Pending? ==> r.poll == Pending && r.body.result == a.result)
      && (d.Driven? && d.poll.Ready? && d.poll.value.Err? ==>
            r.poll == Ready(Err(d.poll.value.error)) && r.body.result == a.result)
      && (d.Driven? && d.poll.Ready? && d.poll.value.Ok? ==>
            && r.body.result.None?
            && (a.result.Some? ==> r.poll == Ready(Ok(a.result.value)))
            && (a.result.None? ==> r.poll == Pending))
    ensures r.BodyPolled? && r.poll.Ready? && r.poll.value.Ok? ==> a.result == Some(r.poll.value.value)
  {
    match ScopeModel.PollJobs(a.scope, picks)
    case Aborted => Aborted
    case Driven(p, s) =>
      var d := a.(scope := s);
      match p
      case Pending => BodyPolled(Pending, d)
      case Ready(Err(c)) => BodyPolled(Ready(Err(c)), d)
      case Ready(Ok(_)) =>
        match a.result
        case None => BodyPolled(Pending, d)
        case Some(v) => BodyPolled(Ready(Ok(v)), d.(result := None))
  }

  /** Cancellation wins over the body's value: while the scope holds a job
      that can never complete (a job whose future calls `cancel` before it
      ends or already awaits it, or a `spawn_cancelling` job whose future
      ends in `Err`), no poll of the body reports
      `Ok`, whatever the body did and whatever the schedule. */
  lemma DoomedPollNeverOk<V, C, T>(b: BodyState<V, C, T>, picks: seq<ScopeModel.Pick>)
    requires ScopeModel.Inv(b.scope) && ScopeModel.HasDoomed(ScopeModel.Jobs(b.scope))
    ensures var r := Poll(b, picks);
      r.BodyPolled? && !(r.poll.Ready? && r.poll.value.Ok?)
  {
    var a := Advance(b);
    ScopeModel.DoomedExtends(b.scope, a.scope);
    ScopeModel.DoomedDrive(a.scope, picks);
  }

  /** `Body::clear`, run by `drop`: the body future and the result are gone,
      and so is every job of the scope. */
  function Clear<V, C, T>(b: BodyState<V, C, T>): (r: BodyState<V, C, T>)
    ensures r.bodyFuture.None? && r.result.None?
    ensures r.scope.futures == [] && r.scope.enqueued == []
    ensures r.scope.cancelled == b.scope.cancelled && r.scope.channels == b.scope.channels
  {
    BodyState(None, None, ScopeModel.Clear(b.scope))
  }

  /** `Body::clear` one statement at a time: the state after
      `body_future.take()`, after `result.take()` and after `scope.clear()`.
      The body future and the result are both gone before the scope is
      touched, and the last state is `Clear(b)`. */
  function Teardown<V, C, T>(b: BodyState<V, C, T>): (steps: seq<BodyState<V, C, T>>)
    ensures |steps| == 3 && steps[2] == Clear(b)
    ensures steps[0].bodyFuture.None? && steps[0].result == b.result && steps[0].scope == b.scope
    ensures steps[1].bodyFuture.None? && steps[1].result.None? && steps[1].scope == b.scope
  {
    var s1 := b.(bodyFuture := None);
    var s2 := s1.(result := None);
    [s1, s2, s2.(scope := ScopeModel.Clear(s2.scope))]
  }
}
