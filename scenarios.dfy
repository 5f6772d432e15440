/** Runs of the scope and of the body that the documentation of
    src/scope.rs describes, and the drive properties behind them. */
module Scenarios {
  import opened Async
  import opened ScopeModel
  import BodyModel

  /** A step after which nothing can cancel the scope: not `cancel`, and a
      spawn call only of a future that is itself calm, and that, for
      `spawn_cancelling`, ends in `Ok`. */
  predicate CalmStep<V, C>(st: Step<V, C>)
    decreases st
  {
    match st
    case Yield => true
    case Cancel(_) => false
    case Spawn(job) => Calm(job)
    case SpawnCancelling(fallible) => fallible.output.Ok? && Calm(fallible)
  }

  /** A future that is not awaiting `cancel` and whose script, down to every
      future it spawns, never cancels the scope. */
  predicate Calm<V, C, O>(f: Future<V, C, O>)
    decreases f
  {
    !f.stalled && forall k :: 0 <= k < |f.steps| ==> CalmStep(f.steps[k])
  }

  /** A job that never cancels the scope: a forwarding job over a calm
      future, or a `spawn_cancelling` job over a calm future ending in `Ok`. */
  predicate CalmJob<V, C>(j: Job<V, C>) {
    match j
    case Forward(f, _) => Calm(f)
    case ForwardOrCancel(f, _, cancelling) => !cancelling && f.output.Ok? && Calm(f)
    case Placeholder(_) => false
  }

  /** Every job is calm and nothing has cancelled the scope. */
  ghost predicate Quiet<V, C>(s: State<V, C>) {
    && (forall j :: j in s.futures ==> CalmJob(j))
    && (forall j :: j in s.enqueued ==> CalmJob(j))
    && s.cancelled.None?
  }

  /** A resumption of a calm future inside a quiet scope leaves it quiet:
      each job it spawns is calm, and it never reaches a `cancel`; the
      future stays calm. */
  lemma {:induction false} QuietPollFuture<V, C, O>(s: State<V, C>, f: Future<V, C, O>)
    requires Quiet(s) && Calm(f)
    decreases |f.steps|
    ensures Quiet(PollFuture(s, f).state) && Calm(PollFuture(s, f).future)
  {
    if f.steps != [] {
      var rest := f.(steps := f.steps[1..]);
      assert CalmStep(f.steps[0]);
      assert Calm(rest) by {
        forall k | 0 <= k < |rest.steps| ensures CalmStep(rest.steps[k]) {
          assert rest.steps[k] == f.steps[k + 1];
        }
      }
      if f.steps[0].IsCall() {
        var job := Adapter(f.steps[0], |s.channels|);
        assert CalmJob(job);
        var n := Call(s, f.steps[0]);
        assert forall j :: j in n.enqueued ==> j in s.enqueued || j == job;
        QuietPollFuture(n, rest);
      }
    }
  }

  /** A job poll in a quiet scope reaches no placeholder and leaves the
      scope quiet: the job completes, or stays calm under its resumed future. */
  lemma QuietPollJob<V, C>(s: State<V, C>, i: nat)
    requires Quiet(s) && i < |s.futures|
    ensures !PollJob(s, i).Panicked? && Quiet(PollJob(s, i).state)
  {
    assert s.futures[i] in s.futures;
    var r := PollJob(s, i);
    match s.futures[i]
    case Forward(f, tx) =>
      QuietPollFuture(s, f);
      var p := PollFuture(s, f);
      if p.poll.Ready? {
        assert forall j :: j in Remove(s.futures, i) ==> j in s.futures;
      } else {
        assert forall j :: j in s.futures[i := Forward(p.future, tx)] ==> j in s.futures || j == Forward(p.future, tx);
      }
    case ForwardOrCancel(f, tx, _) =>
      QuietPollFuture(s, f);
      var p := PollFuture(s, f);
      if p.poll.Ready? {
        assert forall j :: j in Remove(s.futures, i) ==> j in s.futures;
      } else {
        var job := ForwardOrCancel(p.future, tx, false);
        assert CalmJob(job);
        assert forall j :: j in s.futures[i := job] ==> j in s.futures || j == job;
      }
  }

  /** A drive over calm jobs never reports a cancellation, whatever the
      schedule, and leaves only calm jobs behind. */
  lemma {:induction false} QuietDrive<V, C>(s: State<V, C>, picks: seq<Pick>)
    requires Quiet(s)
    decreases |picks|, 1
    ensures var r := PollJobs(s, picks);
      r.Driven? && !(r.poll.Ready? && r.poll.value.Err?) && Quiet(r.state)
  {
    QuietPollReady(Admit(s), picks);
  }

  /** The same for the inner polling loop. */
  lemma {:induction false} QuietPollReady<V, C>(s: State<V, C>, picks: seq<Pick>)
    requires Quiet(s)
    decreases |picks|, if s.futures == [] && s.enqueued != [] then 2 else 0
    ensures var r := PollReady(s, picks);
      r.Driven? && !(r.poll.Ready? && r.poll.value.Err?) && Quiet(r.state)
  {
    if s.futures == [] {
      if s.enqueued != [] {
        QuietDrive(s, picks);
      }
    } else if picks != [] && picks[0].Resume? {
      var i := Chosen(picks[0], |s.futures|);
      QuietPollJob(s, i);
      QuietPollReady(PollJob(s, i).state, picks[1..]);
    }
  }

  /** The body's side: a calm body over a quiet scope never sees a
      cancellation, on any poll and whatever the schedule, and the scope
      stays quiet for the next poll. */
  lemma QuietBodyPoll<V, C, T>(b: BodyModel.BodyState<V, C, T>, picks: seq<Pick>)
    requires Quiet(b.scope) && (b.bodyFuture.Some? ==> Calm(b.bodyFuture.value))
    ensures var r := BodyModel.Poll(b, picks);
      && r.BodyPolled? && !(r.poll.Ready? && r.poll.value.Err?) && Quiet(r.body.scope)
      && (r.body.bodyFuture.Some? ==> Calm(r.body.bodyFuture.value))
  {
    if b.bodyFuture.Some? {
      QuietPollFuture(b.scope, b.bodyFuture.value);
    }
    QuietDrive(BodyModel.Advance(b).scope, picks);
  }

  /** The first cancellation wins: after two calls of `cancel`, the drive
      reports the first value, whatever the schedule. */
  lemma FirstCancelWins<V, C>(s: State<V, C>, first: C, second: C, picks: seq<Pick>)
    requires s.cancelled.None?
    ensures var t := ScopeModel.Cancel(ScopeModel.Cancel(s, first).state, second).state;
      PollJobs(t, picks) == Driven(Ready(Err(first)), t.(cancelled := None))
  {
  }

  /** The example of `cancel`: a body that spawns a job and then awaits
      `scope.cancel(value)`. Neither call suspends the body before the await,
      so both happen in the first resumption; the set slot then ends the
      drive before any job is admitted. The first poll already reports
      `Err(value)`, on every schedule, and the spawned job never runs: its
      channel is still empty. */
  lemma CancelExample<V, C, T>(v: V, out: T, value: C, picks: seq<Pick>)
    ensures var body := Future([Async.Spawn(Future([], v, false)), Async.Cancel(value)], out, false);
      var r := BodyModel.Poll(BodyModel.New(body, New()), picks);
      && r.BodyPolled? && r.poll == Ready(Err(value))
      && r.body.scope.channels == [Empty, Empty] && r.body.scope.futures == []
  {
    var f: Future<V, C, V> := Future([], v, false);
    var body := Future([Async.Spawn(f), Async.Cancel(value)], out, false);
    var n := ScopeModel.Spawn(New(), f).state;
    var k := ScopeModel.Cancel(n, value).state;
    assert ScopeModel.PollFuture(n, body.(steps := [Async.Cancel(value)])).state == k;
    assert BodyModel.Advance(BodyModel.New(body, New())).scope == k;
  }

  /** A body whose next step is `scope.cancel(value).await` ends the poll
      with `Err(value)` when nothing cancelled the scope before, and with the
      earlier value otherwise; the body future stays, awaiting for ever. */
  lemma BodyCancels<V, C, T>(b: BodyModel.BodyState<V, C, T>, picks: seq<Pick>)
    requires b.bodyFuture.Some? && !b.bodyFuture.value.stalled
    requires b.bodyFuture.value.steps != [] && b.bodyFuture.value.steps[0].Cancel?
    ensures var r := BodyModel.Poll(b, picks);
      && r.BodyPolled? && r.body.bodyFuture.Some? && r.body.bodyFuture.value.stalled
      && r.poll == Ready(Err(if b.scope.cancelled.Some? then b.scope.cancelled.value
                             else b.bodyFuture.value.steps[0].value))
  {
    var c := BodyModel.Advance(b);
    var k := ScopeModel.Cancel(b.scope, b.bodyFuture.value.steps[0].value).state;
    assert c.scope == k;
  }

  /** A job spawned with `spawn_cancelling` whose future fails: its first
      poll sets the slot to the error and leaves the job awaiting `cancel`;
      the drive stays pending whatever the rest of the schedule, and the next
      drive reports `Err(error)`. */
  lemma SpawnCancellingErrExample<V, C>(error: C, rest: seq<Pick>, next: seq<Pick>)
    ensures var s := ScopeModel.SpawnCancelling(New<V, C>(), Future([], Err(error), false)).state;
      var r := PollJobs(s, [Resume(0)] + rest);
      && r.Driven? && r.poll == Pending && r.state.cancelled == Some(error)
      && PollJobs(r.state, next) == Driven(Ready(Err(error)), r.state.(cancelled := None))
  {
    var f: Future<V, C, Result<V, C>> := Future([], Err(error), false);
    var s := ScopeModel.SpawnCancelling(New<V, C>(), f).state;
    var a := Admit(s);
    var t := PollJob(a, 0).state;
    assert t.futures == [ForwardOrCancel(f, 0, true)];
    assert ([Resume(0)] + rest)[1..] == rest;
    Stuck(t, rest);
  }

  /** Cancellation wins over a stored result: a body that spawns a failing
      `spawn_cancelling` job and returns in the same resumption. On the first
      poll the job fails and sets the slot, so the drive is pending and the
      body's value stays stored; the next poll reports `Err(error)`, not the
      value. */
  lemma FailingJobBeatsResultExample<V, C, T>(error: C, out: T, rest: seq<Pick>, next: seq<Pick>)
    ensures var body := Future([Async.SpawnCancelling(Future([], Err(error), false))], out, false);
      var r1 := BodyModel.Poll(BodyModel.New(body, New<V, C>()), [Resume(0)] + rest);
      && r1.BodyPolled? && r1.poll == Pending && r1.body.result == Some(out)
      && var r2 := BodyModel.Poll(r1.body, next);
      r2.BodyPolled? && r2.poll == Ready(Err(error))
  {
    var fe: Future<V, C, Result<V, C>> := Future([], Err(error), false);
    var body := Future([Async.SpawnCancelling(fe)], out, false);
    var s := ScopeModel.SpawnCancelling(New<V, C>(), fe).state;
    var b := BodyModel.New(body, New<V, C>());
    assert ScopeModel.PollFuture(s, body.(steps := [])).state == s;
    assert BodyModel.Advance(b) == BodyModel.BodyState(None, Some(out), s);
    SpawnCancellingErrExample<V, C>(error, rest, next);
  }

  /** A late spawn made by a job: the body spawns `A`, and `A` spawns `B`
      right before it finishes. After `A` completes the driven set is empty
      but `B` is queued, so the drive admits it and runs it before it
      reports `Ok`; the body's value comes out once both jobs have sent
      theirs. */
  lemma NestedSpawnExample<V, C, T>(va: V, vb: V, out: T)
    ensures var b: Future<V, C, V> := Future([], vb, false);
      var a := Future([Async.Spawn(b)], va, false);
      var r := BodyModel.Poll(BodyModel.New(Future([Async.Spawn(a)], out, false), New<V, C>()), [Resume(0), Resume(0)]);
      && r.BodyPolled? && r.poll == Ready(Ok(out))
      && r.body.scope == State([], [], None, [Holding(va), Holding(vb)])
  {
    var fb: Future<V, C, V> := Future([], vb, false);
    var fa := Future([Async.Spawn(fb)], va, false);
    var body := Future([Async.Spawn(fa)], out, false);
    var s0 := ScopeModel.Spawn(New<V, C>(), fa).state;
    assert ScopeModel.PollFuture(s0, body.(steps := [])).state == s0;
    assert BodyModel.Advance(BodyModel.New(body, New<V, C>())) == BodyModel.BodyState(None, Some(out), s0);
    NestedDrive(fa, fb, va, vb);
  }

  /** The drive of the example above: `A` runs, spawns `B` and completes;
      `B` is admitted on the next round of the outer loop and completes. */
  lemma NestedDrive<V, C>(fa: Future<V, C, V>, fb: Future<V, C, V>, va: V, vb: V)
    requires fb == Future([], vb, false) && fa == Future([Async.Spawn(fb)], va, false)
    ensures PollJobs(ScopeModel.Spawn(New<V, C>(), fa).state, [Resume(0), Resume(0)])
         == Driven(Ready(Ok(())), State([], [], None, [Holding(va), Holding(vb)]))
  {
    var a0 := Admit(ScopeModel.Spawn(New<V, C>(), fa).state);
    assert a0 == State([Forward(fa, 0)], [], None, [Empty]);
    var t1 := State([], [Forward(fb, 1)], None, [Holding(va), Empty]);
    NestedFirstJob(fa, fb, va, vb);
    assert [Resume(0), Resume(0)][1..] == [Resume(0)];
    assert PollReady(a0, [Resume(0), Resume(0)]) == PollReady(t1, [Resume(0)]);
    var a1 := Admit(t1);
    assert a1 == State([Forward(fb, 1)], [], None, [Holding(va), Empty]);
    var t2 := State([], [], None, [Holding(va), Holding(vb)]);
    assert PollJob(a1, 0) == Completed(Complete(a1, 0, vb));
    assert Complete(a1, 0, vb) == t2;
    assert [Resume(0)][1..] == [];
    assert PollReady(a1, [Resume(0)]) == PollReady(t2, []);
  }

  /** The first job poll of that drive: `A`'s one resumption spawns `B` on
      channel 1 and completes with `va`. */
  lemma NestedFirstJob<V, C>(fa: Future<V, C, V>, fb: Future<V, C, V>, va: V, vb: V)
    requires fb == Future([], vb, false) && fa == Future([Async.Spawn(fb)], va, false)
    ensures PollJob(State([Forward(fa, 0)], [], None, [Empty]), 0)
         == Completed(State([], [Forward(fb, 1)], None, [Holding(va), Empty]))
  {
    var a0 := State([Forward(fa, 0)], [], None, [Empty]);
    var s1 := ScopeModel.Spawn(a0, fb).state;
    assert s1 == State([Forward(fa, 0)], [Forward(fb, 1)], None, [Empty, Empty]);
    assert ScopeModel.PollFuture(s1, fa.(steps := [])) == Resumed(Ready(va), fa.(steps := []), s1);
    assert ScopeModel.PollFuture(a0, fa) == Resumed(Ready(va), fa.(steps := []), s1);
    assert Complete(s1, 0, va).futures == [];
  }

  /** A plain `spawn` job that calls `scope.cancel(c).await`, under a body
      that returns at once: whatever the schedule, the first poll never
      gives `Ok`, because the job can never complete. */
  lemma CancellingJobNeverOk<V, C, T>(c: C, v: V, out: T, picks: seq<Pick>)
    ensures var body := Future([Async.Spawn(Future([Async.Cancel(c)], v, false))], out, false);
      var r := BodyModel.Poll(BodyModel.New(body, New<V, C>()), picks);
      r.BodyPolled? && !(r.poll.Ready? && r.poll.value.Ok?)
  {
    var job: Future<V, C, V> := Future([Async.Cancel(c)], v, false);
    var body := Future([Async.Spawn(job)], out, false);
    var s0 := ScopeModel.Spawn(New<V, C>(), job).state;
    assert ScopeModel.PollFuture(s0, body.(steps := [])).state == s0;
    assert BodyModel.Advance(BodyModel.New(body, New<V, C>())).scope == s0;
    assert job.steps[0].Cancel?;
    assert Doomed(Jobs(s0)[0]);
    DoomedDrive(s0, picks);
  }

  /** The same body when the job runs: the job's `cancel(c)` sets the slot,
      so the poll is pending with the body's value stored, and the next
      poll reports `Err(c)`, whatever its schedule. */
  lemma CancellingJobExample<V, C, T>(c: C, v: V, out: T, next: seq<Pick>)
    ensures var body := Future([Async.Spawn(Future([Async.Cancel(c)], v, false))], out, false);
      var r1 := BodyModel.Poll(BodyModel.New(body, New<V, C>()), [Resume(0)]);
      && r1.BodyPolled? && r1.poll == Pending && r1.body.result == Some(out)
      && BodyModel.Poll(r1.body, next).BodyPolled? && BodyModel.Poll(r1.body, next).poll == Ready(Err(c))
  {
    var job: Future<V, C, V> := Future([Async.Cancel(c)], v, false);
    var body := Future([Async.Spawn(job)], out, false);
    var s0 := ScopeModel.Spawn(New<V, C>(), job).state;
    assert ScopeModel.PollFuture(s0, body.(steps := [])).state == s0;
    assert BodyModel.Advance(BodyModel.New(body, New<V, C>())) == BodyModel.BodyState(None, Some(out), s0);
    var a0 := Admit(s0);
    assert a0.futures == [Forward(job, 0)];
    var k := ScopeModel.Cancel(a0, c).state;
    assert PollFuture(a0, job) == Resumed(Pending, job.(steps := [], stalled := true), k);
    var t := k.(futures := [Forward(job.(steps := [], stalled := true), 0)]);
    assert PollJob(a0, 0) == Suspended(t);
    assert [Resume(0)][1..] == [];
    assert PollReady(a0, [Resume(0)]) == PollReady(t, []);
    assert t.cancelled == Some(c);
  }

  /** A driven set made only of a `spawn_cancelling` job that is awaiting
      `cancel` never finishes: the inner loop reports `Pending` and changes
      nothing, on every schedule. */
  lemma {:induction false} Stuck<V, C>(s: State<V, C>, picks: seq<Pick>)
    requires CancelVisible(s) && |s.futures| == 1
    requires s.futures[0].ForwardOrCancel? && s.futures[0].cancelling
    ensures PollReady(s, picks) == Driven(Pending, s)
  {
    if picks != [] && picks[0].Resume? {
      Stuck(s, picks[1..]);
    }
  }

  /** A job that completes while the slot is set sends the drive back to the
      cancellation check, which reports the cancellation: here the failing
      `spawn_cancelling` job sets the slot and the `spawn` job beside it then
      completes, delivering its value before the drive ends with the error. */
  lemma CompletionUnderCancelExample<V, C>(error: C, v: V)
    ensures var s1 := ScopeModel.SpawnCancelling(New<V, C>(), Future([], Err(error), false)).state;
      var s2 := ScopeModel.Spawn(s1, Future([], v, false)).state;
      var r := PollJobs(s2, [Resume(0), Resume(1)]);
      && r.Driven? && r.poll == Ready(Err(error))
      && |r.state.channels| == 3 && r.state.channels[1] == Holding(v)
  {
    var fe: Future<V, C, Result<V, C>> := Future([], Err(error), false);
    var fv: Future<V, C, V> := Future([], v, false);
    var s1 := ScopeModel.SpawnCancelling(New<V, C>(), fe).state;
    var s2 := ScopeModel.Spawn(s1, fv).state;
    var a := Admit(s2);
    assert a.futures == [ForwardOrCancel(fe, 0, false), Forward(fv, 1)];
    assert PollJobs(s2, [Resume(0), Resume(1)]) == PollReady(a, [Resume(0), Resume(1)]);
    var k := ScopeModel.Cancel(a, error).state;
    var t := k.(futures := a.futures[0 := ForwardOrCancel(fe, 0, true)]);
    assert PollJob(a, 0) == Suspended(t);
    assert [Resume(0), Resume(1)][1..] == [Resume(1)];
    assert PollReady(a, [Resume(0), Resume(1)]) == PollReady(t, [Resume(1)]);
    var u := Complete(t, 1, v);
    assert PollJob(t, 1) == Completed(u);
    assert u.cancelled == Some(error);
    assert PollReady(t, [Resume(1)]) == PollJobs(u, []);
  }

  /** `poll_jobs` may be called again after `Ready(Ok(()))`: a job spawned
      after the drive finished runs on the next drive, and its handle then
      receives the value, exactly once. */
  lemma RepollExample<V, C>(s: State<V, C>, v: V, picks: seq<Pick>)
    requires Inv(s) && s.futures == [] && s.enqueued == [] && s.cancelled.None?
    ensures var sp := ScopeModel.Spawn(s, Future([], v, false));
      var r := PollJobs(sp.state, [Resume(0)] + picks);
      && r.Driven? && r.poll == Ready(Ok(())) && r.state.futures == [] && r.state.enqueued == []
      && sp.handle < |r.state.channels|
      && Recv(r.state, sp.handle).0 == Received(v)
      && Recv(Recv(r.state, sp.handle).1, sp.handle).0 == Closed
  {
    var f: Future<V, C, V> := Future([], v, false);
    var sp := ScopeModel.Spawn(s, f);
    var a := Admit(sp.state);
    assert a.futures == [Forward(f, sp.handle)];
    assert PollJobs(sp.state, [Resume(0)] + picks) == PollReady(a, [Resume(0)] + picks);
    var t := Complete(a, 0, v);
    assert PollJob(a, 0) == Completed(t);
    assert t.futures == [] && t.enqueued == [] && t.cancelled.None?;
    assert ([Resume(0)] + picks)[1..] == picks;
    assert PollReady(a, [Resume(0)] + picks) == PollReady(t, picks);
    assert PollReady(t, picks) == Driven(Ready(Ok(())), t);
    assert t.channels[sp.handle] == Holding(v);
  }

  /** The body is done and no job is pending: one poll hands out exactly the
      body's value, whatever the schedule. */
  lemma BodyDoneExample<V, C, T>(out: T, s: State<V, C>, picks: seq<Pick>)
    requires s.futures == [] && s.enqueued == [] && s.cancelled.None?
    ensures BodyModel.Poll(BodyModel.New(Future([], out, false), s), picks)
      == BodyModel.BodyPolled(Ready(Ok(out)), BodyModel.BodyState(None, None, s))
  {
    var b := BodyModel.New(Future([], out, false), s);
    assert BodyModel.Advance(b) == BodyModel.BodyState(None, Some(out), s);
    assert Admit(s) == s;
    assert PollJobs(s, picks) == Driven(Ready(Ok(())), s);
  }

  /** Jobs are driven on every poll of the body, also while the body itself
      is waiting: a stalled body does not stop a spawned job from delivering
      its value. */
  lemma DrainWhileBodyWaitsExample<V, C, T>(v: V, out: T)
    ensures var s := ScopeModel.Spawn(New<V, C>(), Future([], v, false)).state;
      var r := BodyModel.Poll(BodyModel.New(Future([], out, true), s), [Resume(0)]);
      && r.BodyPolled? && r.poll == Pending
      && r.body.scope.futures == [] && r.body.scope.channels == [Holding(v)]
  {
    var f: Future<V, C, V> := Future([], v, false);
    var s := ScopeModel.Spawn(New<V, C>(), f).state;
    var b := BodyModel.New(Future([], out, true), s);
    assert BodyModel.Advance(b) == b;
    var a := Admit(s);
    assert a.futures == [Forward(f, 0)];
    var t := Complete(a, 0, v);
    assert PollJob(a, 0) == Completed(t);
    assert [Resume(0)][1..] == [];
    assert PollReady(a, [Resume(0)]) == PollReady(t, []);
    assert PollJobs(s, [Resume(0)]) == Driven(Ready(Ok(())), t);
  }
}
