/** `Body` of src/body.rs: the future that joins a scope's body with the
    jobs it spawned. Its methods update its fields and its scope in place;
    each is specified by the function of the same name in `BodyModel`. */
module Bodies {
  import opened Async
  import ScopeModel
  import BodyModel
  import Scopes

  class Body<V, C, T> {
    var bodyFuture: Option<Future<V, C, T>>
    var result: Option<T>
    /** The scope shared with the jobs (an `Arc` in the source). */
    const scope: Scopes.Scope<V, C>
    /** The states `clear` has passed through so far, one per statement. */
    ghost var teardown: seq<BodyModel.BodyState<V, C, T>>

    /** The value the fields stand for. */
    function State(): (st: BodyModel.BodyState<V, C, T>)
      reads this, scope
    {
      BodyModel.BodyState(bodyFuture, result, scope.Model())
    }

    ghost predicate Valid()
      reads this, scope
    {
      scope.Valid() && BodyModel.Consistent(State())
    }

    /** `Body::new`. */
    constructor (f: Future<V, C, T>, scope: Scopes.Scope<V, C>)
      requires scope.Valid()
      ensures Valid() && this.scope == scope && teardown == []
      ensures State() == BodyModel.New(f, scope.Model())
    {
      bodyFuture := Some(f);
      result := None;
      this.scope := scope;
      teardown := [];
    }

    /** `Future::poll` for `Body`, with `picks` as the schedule the scope's
        drive follows. */
    method Poll(picks: seq<ScopeModel.Pick>) returns (poll: Poll<Result<T, C>>)
      requires Valid() && !scope.terminated
      modifies this, scope
      ensures Valid() && teardown == old(teardown)
      ensures BodyModel.Poll(old(State()), picks) == BodyModel.BodyPolled(poll, State())
      ensures scope.terminated <==> poll.Ready? && poll.value.Err?
    {
      // resume the body future while there is one
      if bodyFuture.Some? {
        var p, next := scope.PollFuture(bodyFuture.value);
        match p
        case Ready(v) =>
          result := Some(v);
          bodyFuture := None;
        case Pending =>
          bodyFuture := Some(next);
      }
      assert State() == BodyModel.Advance(old(State()));
      // then drive the jobs, on every poll
      var drained := scope.PollJobs(picks);
      match drained
      case Pending =>
        poll := Pending;
      case Ready(Err(c)) =>
        poll := Ready(Err(c));
      case Ready(Ok(_)) =>
        match result
        case None =>
          poll := Pending;
        case Some(v) =>
          result := None;
          poll := Ready(Ok(v));
    }

    /** `Body::clear`: the body future, then the result, then the scope's
        jobs are dropped, in that order. */
    method Clear()
      modifies this, scope
      ensures Valid()
      ensures State() == BodyModel.Clear(old(State()))
      ensures scope.terminated == old(scope.terminated)
      ensures teardown == old(teardown) + BodyModel.Teardown(old(State()))
    {
      bodyFuture := None;
      teardown := teardown + [State()];
      result := None;
      teardown := teardown + [State()];
      scope.Clear();
      teardown := teardown + [State()];
    }

    /** `Drop::drop` for `Body`: runs `clear`, so that nothing that borrows
        from the scope outlives it. */
    method Drop()
      modifies this, scope
      ensures Valid()
      ensures State() == BodyModel.Clear(old(State()))
      ensures scope.futures == [] && scope.enqueued == []
      ensures teardown == old(teardown) + BodyModel.Teardown(old(State()))
    {
      Clear();
    }
  }
}
