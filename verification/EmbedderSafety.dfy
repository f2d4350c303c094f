// What the embedder promises over every order of requests, loads, timers and
// deaths.
module EmbedderSafety {
  import opened Numbers
  import opened Options
  import opened EmbedderProtocol

  ghost function Exec(s: State, steps: seq<Step>): State
    requires Inv(s)
    ensures Inv(Exec(s, steps))
    decreases |steps|
  {
    if steps == [] then s
    else
      NextKeeps(s, steps[0]);
      Exec(Next(s, steps[0]), steps[1..])
  }

  lemma InitialOk(idle: nat, now: nat)
    ensures Inv(Initial(idle, now)) && Initial(idle, now).idle == idle
  {
  }

  lemma {:induction false} IdleSame(s: State, steps: seq<Step>)
    requires Inv(s)
    ensures Exec(s, steps).idle == s.idle
    decreases |steps|
  {
    hide Inv;
    if steps != [] {
      NextKeeps(s, steps[0]);
      NextIdle(s, steps[0]);
      hide Next;
      IdleSame(Next(s, steps[0]), steps[1..]);
    }
  }

  lemma NextIdle(s: State, step: Step)
    requires InRange(s)
    ensures Next(s, step).idle == s.idle
  {
  }

  predicate OneLoad(s: State) {
    forall l, m :: 0 <= l < |s.loads| && 0 <= m < |s.loads| && s.loads[l] == Pending && s.loads[m] == Pending ==> l == m
  }

  /** Whenever an engine is loaded, none of the requests is in flight and
      unloading is on, the timer that unloads it runs. */
  predicate UnloadComes(s: State) {
    s.idle > 0 && s.engine.Some? && (forall r :: 0 <= r < |s.requests| ==> s.requests[r] == Ended) ==>
      s.timer.Some? && s.timer.value <= s.now + s.idle
  }

  /** No request computes with an engine that was unloaded for being idle. */
  ghost predicate NoneUnloadedInUse(s: State) {
    forall r :: 0 <= r < |s.requests| && s.requests[r].Holding? ==> !WasReleased(s.log, s.requests[r].engine)
  }

  /** After any steps: at most one load is outstanding, none ever began too
      soon after a failure, every release was of a model idle long enough and
      used by nobody, and a model nobody uses has its timer. */
  lemma Safety(idle: nat, now: nat, steps: seq<Step>)
    ensures Inv(Initial(idle, now))
    ensures var n := Exec(Initial(idle, now), steps);
            && OneLoad(n) && LoadsInTime(n.log) && ReleasesIdle(n.log, idle)
            && UnloadComes(n) && NoneUnloadedInUse(n) && n.inFlight == Active(n.requests)
  {
    InitialOk(idle, now);
    IdleSame(Initial(idle, now), steps);
    var n := Exec(Initial(idle, now), steps);
    if forall r :: 0 <= r < |n.requests| ==> n.requests[r] == Ended {
      AllEnded(n.requests);
    }
    hide Failures, LastFailure, InFlight, Active, ReleasesIdle, LoadsInTime, WasReleased, Backoff, Exec;
  }

  lemma {:induction false} AllEnded(requests: seq<Stage>)
    requires forall r :: 0 <= r < |requests| ==> requests[r] == Ended
    ensures Active(requests) == 0
  {
    if requests != [] {
      AllEnded(requests[..|requests| - 1]);
    }
  }

  /** A request that awaits a load has one to await, and is answered once that
      load has ended: with its engine, or refused until a load may be tried. */
  lemma WaitIsAnswered(s: State, r: nat)
    requires Inv(s) && r < |s.requests| && s.requests[r].Waiting?
    ensures var l := s.requests[r].load;
            && (s.loads[l] == Pending ==> s.loading == Some(l))
            && (s.loading != Some(l) ==>
                  var stage := Next(s, Resume(r)).requests[r];
                  if s.loads[l].Loaded? then stage == Holding(s.loads[l].engine) else stage.Refused?)
  {
    hide CountOk, TimerOk, EngineOk;
  }

  predicate SetsEngine(step: Step) {
    step.SetEngine?
  }

  /** No engine and no load to wait for, and the next one not before until. */
  predicate Refuses(s: State, until: nat) {
    s.engine.None? && s.loading.None? && s.retryAt == until
  }

  /** That is where a failed load leaves the embedder, for the time of the
      backoff. */
  lemma FailureRefuses(s: State)
    requires Inv(s) && s.engine.None? && s.loading.Some? && s.loads[s.loading.value] == Pending
    ensures var n := Next(s, LoadLands(false));
            InRange(n) && Refuses(Next(n, LoadClears), s.now + Backoff(s.failures + 1))
  {
    NextKeeps(s, LoadLands(false));
    hide Inv, Backoff, CountOk, TimerOk, EngineOk;
  }

  lemma NextLater(s: State, step: Step)
    requires InRange(s)
    ensures Next(s, step).now >= s.now
  {
  }

  lemma {:induction false} ExecLater(s: State, steps: seq<Step>)
    requires Inv(s)
    ensures Exec(s, steps).now >= s.now
    decreases |steps|
  {
    hide Inv;
    if steps != [] {
      NextKeeps(s, steps[0]);
      NextLater(s, steps[0]);
      hide Next;
      ExecLater(Next(s, steps[0]), steps[1..]);
    }
  }

  lemma RefusedStep(s: State, step: Step, until: nat)
    requires Inv(s) && Refuses(s, until) && s.now < until && !SetsEngine(step)
    ensures Refuses(Next(s, step), until) && Next(s, step).loads == s.loads
  {
    hide CountOk, TimerOk, EngineOk;
  }

  /** A refusal tells the truth about the future: however requests, timers and
      the worker go on, no load begins and there is no engine before the time
      it names, unless one is given from outside; whoever asks before then is
      told the same time, and whoever asks from then on begins the load. */
  lemma {:induction false} RefusedUntil(s: State, steps: seq<Step>, until: nat, r: nat)
    requires Inv(s) && Refuses(s, until) && forall k :: 0 <= k < |steps| ==> !SetsEngine(steps[k])
    ensures var n := Exec(s, steps); n.now < until ==> Refuses(n, until) && n.loads == s.loads
    ensures var n := Exec(s, steps);
            n.now < until && r < |n.requests| && n.requests[r] == Reading ==>
              Next(n, Acquire(r)).requests[r] == Refused(if n.loader then Some(until - n.now) else None)
    ensures var n := Exec(s, steps);
            Refuses(n, until) && n.now >= until && n.loader && r < |n.requests| && n.requests[r] == Reading ==>
              Next(n, Acquire(r)).requests[r] == Waiting(|n.loads|) && |Next(n, Acquire(r)).loads| == |n.loads| + 1
    decreases |steps|
  {
    hide Inv;
    if steps != [] {
      NextKeeps(s, steps[0]);
      var t := Next(s, steps[0]);
      ExecLater(t, steps[1..]);
      NextLater(s, steps[0]);
      if Exec(s, steps).now < until {
        RefusedStep(s, steps[0], until);
        hide Next;
        RefusedUntil(t, steps[1..], until, r);
      }
    }
  }

  lemma ExecCons(s: State, step: Step, steps: seq<Step>)
    requires Inv(s)
    ensures InRange(s) && Inv(Next(s, step)) && Exec(s, [step] + steps) == Exec(Next(s, step), steps)
    ensures Exec(s, [step]) == Next(s, step)
  {
    NextKeeps(s, step);
    hide Inv, Next;
    assert ([step] + steps)[1..] == steps;
    assert [step][1..] == [];
  }

  /** The first request of a loadable embedder that may try: it begins the load
      and, once that has landed, computes with the engine it brought. */
  lemma FirstRequest(s: State)
    requires Inv(s) && s.engine.None? && s.loader && s.loading.None? && s.now >= s.retryAt
    ensures var r, l := |s.requests|, |s.loads|;
            var n := Exec(s, [Begin] + ([Acquire(r)] + ([LoadLands(true)] + ([LoadClears] + [Resume(r)]))));
            && n.requests == s.requests + [Holding(s.engines)] && n.engine == Some(s.engines)
            && n.loads == s.loads + [Loaded(s.engines)] && n.loading.None? && n.inFlight == s.inFlight + 1
            && n.failures == 0 && n.dead == s.dead
  {
    var r, l := |s.requests|, |s.loads|;
    var s1 := Next(s, Begin);
    ExecCons(s, Begin, [Acquire(r)] + ([LoadLands(true)] + ([LoadClears] + [Resume(r)])));
    var s2 := Next(s1, Acquire(r));
    ExecCons(s1, Acquire(r), [LoadLands(true)] + ([LoadClears] + [Resume(r)]));
    var s3 := Next(s2, LoadLands(true));
    ExecCons(s2, LoadLands(true), [LoadClears] + [Resume(r)]);
    var s4 := Next(s3, LoadClears);
    ExecCons(s3, LoadClears, [Resume(r)]);
    ExecCons(s4, Resume(r), []);
    hide Inv, Exec, InRange;
    Asks(s);
    Brings(s2, l);
    Answers(s4, r);
  }

  lemma Asks(s: State)
    requires InRange(s) && s.engine.None? && s.loader && s.loading.None? && s.now >= s.retryAt
    ensures var r, l := |s.requests|, |s.loads|;
            InRange(Next(s, Begin))
            && var n := Next(Next(s, Begin), Acquire(r));
            && n.requests == s.requests + [Waiting(l)] && n.loads == s.loads + [Pending] && n.loading == Some(l)
            && n.engine.None? && n.engines == s.engines && n.inFlight == s.inFlight + 1 && n.dead == s.dead
            && n.loader && n.now == s.now
  {
    assert (s.requests + [Reading])[|s.requests| := Waiting(|s.loads|)] == s.requests + [Waiting(|s.loads|)];
  }

  lemma Brings(s: State, l: nat)
    requires InRange(s) && s.loading == Some(l) && l == |s.loads| - 1 && s.loads[l] == Pending
    ensures InRange(Next(s, LoadLands(true)))
    ensures var n := Next(Next(s, LoadLands(true)), LoadClears);
            && n.loads == s.loads[..l] + [Loaded(s.engines)] && n.loading.None? && n.engine == Some(s.engines)
            && n.requests == s.requests && n.inFlight == s.inFlight && n.failures == 0 && n.dead == s.dead
  {
  }

  lemma Answers(s: State, r: nat)
    requires InRange(s) && r == |s.requests| - 1 && s.requests[r].Waiting? && s.loading.None?
    requires s.loads[s.requests[r].load].Loaded?
    ensures Next(s, Resume(r)) ==
            s.(requests := s.requests[..r] + [Holding(s.loads[s.requests[r].load].engine)])
  {
  }

  /** A model nobody uses is released: once its time has come the timer's callback
      gives it up, and the next request finds none. */
  lemma IdleReleases(s: State, ms: nat)
    requires Inv(s) && s.engine.Some? && s.inFlight == 0 && s.idle > 0 && Quiet(s) && ms >= s.idle
    ensures s.timer.Some?
    ensures var n := Exec(s, [Tick(ms)] + [TimerFires]);
            && n.engine.None? && s.engine.value in n.dead && n.timer.None? && n.now == s.now + ms
            && n.log == s.log + [Released(s.now + ms, s.engine.value)] && n.requests == s.requests
  {
    hide Inv, Exec, Next, InRange, Quiet;
    TimerThere(s);
    var t := s.(now := s.now + ms);
    Ticks(s, ms);
    Fires(t);
    ExecCons(s, Tick(ms), [TimerFires]);
    ExecCons(t, TimerFires, []);
  }

  lemma TimerThere(s: State)
    requires Inv(s) && s.engine.Some? && s.inFlight == 0 && s.idle > 0
    ensures InRange(s) && s.timer.Some? && s.timer.value <= s.now + s.idle
  {
    hide CountOk, LoadOk, EngineOk, ReleasesIdle;
  }

  lemma Ticks(s: State, ms: nat)
    requires InRange(s) && Quiet(s)
    ensures Next(s, Tick(ms)) == s.(now := s.now + ms) && InRange(Next(s, Tick(ms))) && Quiet(Next(s, Tick(ms)))
  {
  }

  lemma Fires(s: State)
    requires InRange(s) && Quiet(s) && s.engine.Some? && s.inFlight == 0 && s.timer.Some? && s.now >= s.timer.value
    ensures Next(s, TimerFires) ==
            s.(timer := None, engine := None, dead := s.dead + {s.engine.value},
               log := s.log + [Released(s.now, s.engine.value)])
  {
  }

  /** The wait starts at five seconds and doubles with every failure in a row,
      up to five minutes, where it stays from the seventh on. */
  lemma BackoffDoubles(failures: nat)
    requires failures > 0
    ensures Backoff(1) == 5_000
    ensures Backoff(failures + 1) == Min(2 * Backoff(failures), 300_000)
    ensures 5_000 <= Backoff(failures) <= 300_000
    ensures Backoff(failures) == 300_000 <==> failures >= 7
  {
    PowerUpTo(0, failures - 1);
    if failures < 7 {
      assert Power2(5) == 32;
      PowerUpTo(failures - 1, 5);
    } else {
      assert Power2(6) == 64;
      PowerUpTo(6, failures - 1);
    }
  }
}
