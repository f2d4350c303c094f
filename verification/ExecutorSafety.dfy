// What the executor's supervisor promises over every run.
module ExecutorSafety {
  import opened Numbers
  import opened Options
  import opened ExecutorProtocol

  ghost function Exec(s: State, steps: seq<Step>): (n: State)
    requires Inv(s)
    ensures Inv(n)
    decreases |steps|
  {
    if steps == [] then s
    else
      NextKeeps(s, steps[0]);
      Exec(Next(s, steps[0]), steps[1..])
  }

  predicate OneAlive(s: State) {
    forall p, q :: 0 <= p < |s.procs| && 0 <= q < |s.procs| && s.procs[p].alive && s.procs[q].alive ==> p == q
  }

  /** Every wait lies between the shortest and the longest, doubles from one to
      the next, and is the shortest again after a stable run only. */
  ghost predicate WaitsInBounds(t: Timings, log: seq<Entry>) {
    && (forall k :: 0 <= k < |log| && log[k].Slept? ==> t.minBackoff <= log[k].wait <= t.maxBackoff)
    && (forall k :: 0 < k < |log| && log[k].Slept? ==>
          log[k].wait == if log[k - 1].Slept? then Min(2 * log[k - 1].wait, t.maxBackoff) else t.minBackoff)
  }

  lemma InitialOk(t: Timings)
    requires t.minBackoff <= t.maxBackoff
    ensures Inv(Initial(t))
  {
    WaitNone(t);
  }

  lemma {:induction false} SameTimings(s: State, steps: seq<Step>)
    requires Inv(s)
    ensures Exec(s, steps).t == s.t
    decreases |steps|
  {
    hide Inv;
    if steps != [] {
      NextKeeps(s, steps[0]);
      TimingsStay(s, steps[0]);
      hide Next;
      SameTimings(Next(s, steps[0]), steps[1..]);
    }
  }

  lemma TimingsStay(s: State, step: Step)
    requires InRange(s)
    ensures Next(s, step).t == s.t
  {
  }

  /** A wait that was logged is waited: no process made after it was made before
      its time was over. While the loop sleeps, it sleeps until then. */
  predicate WaitsAreWaited(s: State) {
    && (forall k, p :: 0 <= k < |s.log| && s.log[k].Slept? && s.log[k].procs <= p < |s.procs| ==>
          s.procs[p].made >= s.log[k].at + s.log[k].wait)
    && (s.phase.Sleeping? ==>
          s.log != [] && s.log[|s.log| - 1].Slept?
          && s.phase.until == s.log[|s.log| - 1].at + s.log[|s.log| - 1].wait)
  }

  /** The wait is the shortest again exactly after a process that ran at least the
      stable time from being published to its end. */
  predicate StableRunsLogged(s: State) {
    forall p :: 0 <= p < |s.procs| ==>
      (StableExit(p) in s.log <==>
         s.procs[p].published.Some? && s.procs[p].ended.Some?
         && s.procs[p].ended.value >= s.procs[p].published.value + s.t.stableAfter)
  }

  /** A log entry, once written, stays, with what it says of time and processes:
      an entry names the time it was written and the processes there were. */
  lemma {:induction false} LogGrows(s: State, steps: seq<Step>)
    requires Inv(s)
    ensures var n := Exec(s, steps); s.log <= n.log && |s.procs| <= |n.procs| && s.now <= n.now
    ensures forall p :: 0 <= p < |s.procs| ==> Exec(s, steps).procs[p].made == s.procs[p].made
    decreases |steps|
  {
    if steps != [] {
      NextKeeps(s, steps[0]);
      LogStep(s, steps[0]);
      hide Next, Inv;
      LogGrows(Next(s, steps[0]), steps[1..]);
    }
  }

  lemma LogStep(s: State, step: Step)
    requires Inv(s)
    ensures var n := Next(s, step);
            && s.log <= n.log && |s.procs| <= |n.procs| && s.now <= n.now
            && (forall p :: 0 <= p < |s.procs| ==> n.procs[p].made == s.procs[p].made)
            && (forall p :: |s.procs| <= p < |n.procs| ==> n.procs[p].made == s.now)
            && (forall k :: |s.log| <= k < |n.log| && n.log[k].Slept? ==>
                  n.log[k].at == s.now && n.log[k].wait == s.backoff && n.log[k].procs == |s.procs|)
  {
    hide Inv;
    LogLoops(s, step);
    LogSpawns(s, step);
    hide LoopStep, SpawnStep, InRange;
  }

  /** The loop makes no process and logs one entry at most. */
  lemma LogLoops(s: State, step: Step)
    requires InRange(s)
    ensures step.Loop? ==> var n := LoopStep(s, step.cancel);
            && s.log <= n.log && |s.procs| == |n.procs| && s.now == n.now
            && (forall p :: 0 <= p < |s.procs| ==> n.procs[p].made == s.procs[p].made)
            && (forall k :: |s.log| <= k < |n.log| && n.log[k].Slept? ==>
                  n.log[k].at == s.now && n.log[k].wait == s.backoff && n.log[k].procs == |s.procs|)
  {
  }

  /** Spawn makes one process at most and logs nothing. */
  lemma LogSpawns(s: State, step: Step)
    requires InRange(s)
    ensures var n := SpawnStep(s, step);
            && s.log == n.log && |s.procs| <= |n.procs| && s.now == n.now
            && (forall p :: 0 <= p < |s.procs| ==> n.procs[p].made == s.procs[p].made)
            && (forall p :: |s.procs| <= p < |n.procs| ==> n.procs[p].made == s.now)
  {
  }

  /** A failure that is no mismatch is followed by a wait and another try: no
      process is made before the wait is over, in any continuation, and none but
      a cancel or a mismatch ever ends the loop. */
  lemma FailureWaits(s: State, cancel: bool, steps: seq<Step>, p: nat)
    requires Inv(s) && s.phase == SpawnFailed(Trouble) && !s.cancelled
    ensures Inv(Next(s, Loop(cancel)))
    ensures var n := Exec(Next(s, Loop(cancel)), steps);
            && Next(s, Loop(cancel)).phase == Sleeping(s.now + s.backoff)
            && (|s.procs| <= p < |n.procs| ==> n.procs[p].made >= s.now + s.backoff)
            && (n.phase == Returned ==> n.fatal || n.cancelled)
  {
    NextKeeps(s, Loop(cancel));
    FailureSleeps(s, cancel);
    hide Inv, Next, Exec, WaitsAreWaited;
    var t := Next(s, Loop(cancel));
    LogGrows(t, steps);
    var n := Exec(t, steps);
    Told(n);
    assert n.log[|s.log|] == t.log[|s.log|];
    if |s.procs| <= p < |n.procs| {
      MadeLate(n, |s.log|, p);
    }
  }

  lemma MadeLate(s: State, k: nat, p: nat)
    requires WaitsAreWaited(s) && k < |s.log| && s.log[k].Slept? && s.log[k].procs <= p < |s.procs|
    ensures s.procs[p].made >= s.log[k].at + s.log[k].wait
  {
  }

  lemma Told(s: State)
    requires Inv(s)
    ensures WaitsAreWaited(s) && (s.phase == Returned ==> s.fatal || s.cancelled)
  {
    TimesTell(s);
    hide AliveOk, CurOk, ReadersOk, BackoffOk, WaitsOk, StableOk, TimesOk, WaitsAreWaited;
  }

  lemma FailureSleeps(s: State, cancel: bool)
    requires InRange(s) && s.phase == SpawnFailed(Trouble) && !s.cancelled
    ensures var n := Next(s, Loop(cancel));
            && n.phase == Sleeping(s.now + s.backoff) && n.log == s.log + [Slept(s.now, s.backoff, |s.procs|)]
            && n.procs == s.procs
  {
  }

  /** After its wait the loop tries again, at once and with the wait doubled. */
  lemma WaitEnds(s: State)
    requires Inv(s) && s.phase.Sleeping? && s.now >= s.phase.until && !s.cancelled
    ensures var n := Next(Next(s, Loop(false)), Loop(false));
            && InRange(Next(s, Loop(false))) && n.phase == Preparing && n.now == s.now
            && n.backoff == Min(2 * s.backoff, s.t.maxBackoff)
  {
    hide AliveOk, CurOk, ReadersOk, BackoffOk, WaitsOk, StableOk, TimesOk;
  }

  /** After any steps: one executor alive at most, only a healthy one published
      or handed to a call, no reader asleep that could be answered, and every
      wait as it should be. */
  lemma Safety(t: Timings, steps: seq<Step>)
    requires t.minBackoff <= t.maxBackoff
    ensures Inv(Initial(t))
    ensures var n := Exec(Initial(t), steps);
            && OneAlive(n) && (n.cur.Some? ==> n.cur.value < |n.procs| && n.procs[n.cur.value].healthy)
            && (forall r :: 0 <= r < |n.readers| && n.readers[r].Got? ==>
                  n.readers[r].p < |n.procs| && n.procs[n.readers[r].p].healthy)
            && (forall r :: 0 <= r < |n.readers| && n.readers[r].WaitsOn? && n.readers[r].generation == n.generation ==>
                  n.cur.None? && !n.fatal)
            && WaitsInBounds(t, n.log) && WaitsAreWaited(n) && StableRunsLogged(n)
            && (n.phase == Returned ==> n.fatal || n.cancelled) && (n.fatal ==> n.lastErr == Some(Mismatch))
  {
    InitialOk(t);
    SameTimings(Initial(t), steps);
    var n := Exec(Initial(t), steps);
    assert ReadersOk(n);
    Bounds(t, n.log);
    TimesTell(n);
    hide Exec, WaitsInBounds, WaitsOk, BackoffOk, TimesOk, StableOk, WaitsAreWaited, StableRunsLogged;
  }

  lemma TimesTell(s: State)
    requires InRange(s) && TimesOk(s) && StableOk(s)
    ensures WaitsAreWaited(s) && StableRunsLogged(s)
  {
  }

  lemma Bounds(t: Timings, log: seq<Entry>)
    requires WaitsOk(t, log) && t.minBackoff <= t.maxBackoff
    ensures WaitsInBounds(t, log)
  {
    forall k | 0 <= k < |log| && log[k].Slept?
      ensures t.minBackoff <= log[k].wait <= t.maxBackoff
      ensures k > 0 ==>
                log[k].wait == if log[k - 1].Slept? then Min(2 * log[k - 1].wait, t.maxBackoff) else t.minBackoff
    {
      WaitAtLeast(t, Retries(log[..k]));
      if k > 0 {
        assert log[..k][..k - 1] == log[..k - 1];
        if log[k - 1].Slept? {
          Doubles(t, Retries(log[..k - 1]));
        } else {
          WaitNone(t);
        }
      }
    }
  }

  lemma WaitAtLeast(t: Timings, n: nat)
    requires t.minBackoff <= t.maxBackoff
    ensures t.minBackoff <= Wait(t, n) <= t.maxBackoff
  {
    PowerUpTo(0, n);
    assert t.minBackoff * Power2(n) >= t.minBackoff * 1;
  }

  /** A failing end of spawn leaves nothing alive. */
  lemma FailedSpawnLeavesNothing(s: State, step: Step, p: nat)
    requires Inv(s) && Next(s, step).phase.SpawnFailed? && p < |Next(s, step).procs|
    ensures !Next(s, step).procs[p].alive
  {
    NextKeeps(s, step);
    hide CurOk, ReadersOk, BackoffOk, FatalOk, WaitsOk, TimesOk, StableOk;
  }

  /** A reader that waits while there is an executor, or none to come, is woken
      and answered. */
  lemma ReaderIsAnswered(s: State, r: nat)
    requires Inv(s) && r < |s.readers| && s.readers[r].WaitsOn? && (s.cur.Some? || s.fatal)
    ensures Next(Next(s, Wake(r)), Read(r)).readers[r] == if s.cur.Some? then Got(s.cur.value) else Refused(true)
  {
    hide AliveOk, CurOk, BackoffOk, FatalOk, WaitsOk, TimesOk, StableOk;
  }

  /** The loop is over for good: nothing is spawned, nothing lives and nothing
      is published any more. */
  predicate Over(s: State) {
    s.phase == Returned || (s.phase == Unstarted && s.cancelled) || (s.phase == Top && s.cancelled)
  }

  lemma {:induction false} OverForGood(s: State, steps: seq<Step>)
    requires Inv(s) && Over(s)
    ensures var n := Exec(s, steps);
            && Over(n) && |n.procs| == |s.procs| && n.cur.None? && n.fatal == s.fatal
            && forall p :: 0 <= p < |n.procs| ==> !n.procs[p].alive
    decreases |steps|
  {
    if steps != [] {
      NextKeeps(s, steps[0]);
      OverStep(s, steps[0]);
      hide Next, Inv, Over;
      OverForGood(Next(s, steps[0]), steps[1..]);
    }
  }

  lemma OverStep(s: State, step: Step)
    requires Inv(s) && Over(s)
    ensures var n := Next(s, step); Over(n) && |n.procs| == |s.procs| && n.fatal == s.fatal
  {
  }

  /** A protocol mismatch ends the respawning: fatal is never taken back, and
      nothing is spawned after it. */
  lemma MismatchIsFinal(s: State, steps: seq<Step>)
    requires Inv(s) && s.fatal
    ensures var n := Exec(s, steps); n.fatal && |n.procs| == |s.procs| && n.cur.None?
  {
    OverForGood(s, steps);
  }

  /** What close returns on: the loop is over, or was never started; then no
      executor lives or ever will. */
  lemma ClosedForGood(s: State, steps: seq<Step>)
    requires Inv(s) && s.cancelled && s.phase in {Unstarted, Returned}
    ensures var n := Exec(s, steps);
            |n.procs| == |s.procs| && n.cur.None? && forall p :: 0 <= p < |n.procs| ==> !n.procs[p].alive
  {
    OverForGood(s, steps);
  }

  /** How far the loop is from its end once it is cancelled. */
  function Left(phase: Phase): nat {
    match phase
    case Returned => 0
    case Unstarted => 0
    case Top => 1
    case SpawnFailed(_) => 1
    case Sleeping(_) => 2
    case Exited(_) => 3
    case Watching(_, _) => 4
    case Spawned(_) => 5
    case Checking(_) => 6
    case Listening(_) => 7
    case Configuring(_) => 8
    case Preparing => 9
  }

  function NextMove(phase: Phase): Step {
    match phase
    case Preparing => Prepare(true)
    case Configuring(_) => Configure(true)
    case Listening(_) => Hear(Cancelled)
    case Checking(_) => Check(Unhealthy)
    case _ => Loop(true)
  }

  /** Once cancelled the loop gets to its end: each of its moves brings it
      nearer, and it has one to make until it is over. */
  lemma LoopEnds(s: State, step: Step)
    requires Inv(s) && s.cancelled
    ensures step != Start && Next(s, step).phase != s.phase ==> Left(Next(s, step).phase) < Left(s.phase)
    ensures s.phase !in {Unstarted, Returned} ==> Left(Next(s, NextMove(s.phase)).phase) < Left(s.phase)
  {
    hide AliveOk, CurOk, ReadersOk, BackoffOk, FatalOk, WaitsOk, TimesOk, StableOk;
  }
}
