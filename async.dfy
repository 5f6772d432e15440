/** Value types shared by the scope engine (src/scope.rs) and its join driver (src/body.rs). */
module Async {

  datatype Option<T> = None | Some(value: T)

  datatype Result<T, E> = Ok(value: T) | Err(error: E)

  /** What one poll of a future reports. */
  datatype Poll<T> = Ready(value: T) | Pending

  /** One statement of a scripted future. `Spawn` and `SpawnCancelling` stand
      for calls of `scope.spawn` and `scope.spawn_cancelling`, which are not
      await points; `Yield` stands for an `.await` on something not yet ready;
      `Cancel` stands for `scope.cancel(value).await`. */
  datatype Step<V, C> =
    | Yield
    | Spawn(job: Future<V, C, V>)
    | SpawnCancelling(fallible: Future<V, C, Result<V, C>>)
    | Cancel(value: C)
  {
    /** A call that returns at once, so the resumption goes on after it. */
    predicate IsCall() {
      Spawn? || SpawnCancelling?
    }
  }

  /** No await point is left in `steps`: every one of them is a spawn call. */
  predicate OnlyCalls<V, C>(steps: seq<Step<V, C>>) {
    steps == [] || (steps[0].IsCall() && OnlyCalls(steps[1..]))
  }

  /** A future as a script: the steps it still has to take, the value it
      yields once they are done, and whether it is awaiting the future returned
      by `cancel`, which never resolves. */
  datatype Future<V, C, O> = Future(steps: seq<Step<V, C>>, output: O, stalled: bool)
  {
    /** The next poll completes it: it is not stalled and no await point is
        left before its end. */
    predicate IsReady() {
      !stalled && OnlyCalls(steps)
    }
  }

  /** The state of one capacity-one channel created by `spawn`: nothing sent
      yet, holding the sent value, or the value already received. */
  datatype ChannelState<V> = Empty | Holding(value: V) | Taken

  /** What awaiting a spawn handle observes: the value, nothing yet, or a
      channel whose value is gone (the handle would panic). */
  datatype Received<V> = Received(value: V) | NotYet | Closed
}
