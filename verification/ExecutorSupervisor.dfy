// The supervisor's fields and what changes them (desktop/runner/executor.go):
// its locked sections, spawn, and the passes of its loop, each proved to be
// steps of the protocol.
module ExecutorSupervisors {
  import opened Numbers
  import opened Options
  import opened ExecutorProtocol

  lemma WatchedIsCurrent(s: State)
    requires Inv(s) && s.phase.Watching?
    ensures s.cur == Some(s.phase.p)
  {
  }

  /** The supervisor once an executor's exit was noticed. */
  function Gone(s: State, p: nat, since: nat): State
    requires p < |s.procs|
  {
    var stable := s.now >= since + s.t.stableAfter;
    Unpublish(s, p).(backoff := if stable then s.t.minBackoff else s.backoff,
                     procs := s.procs[p := s.procs[p].(ended := Some(s.now))],
                     log := if stable then s.log + [StableExit(p)] else s.log)
  }

  /** What the loop makes of an executor's exit: the wait before the next. */
  lemma RunEnds(s: State, cancel: bool)
    requires Inv(s) && s.phase.Watching? && !s.procs[s.phase.p].alive && !(cancel && s.cancelled)
    ensures InRange(Next(s, Loop(cancel)))
    ensures Next(Next(s, Loop(cancel)), Loop(cancel)) == Sleep(SetFailure(Gone(s, s.phase.p, s.phase.since), Trouble))
  {
    NextKeeps(s, Loop(cancel));
    hide Inv;
    var u := Gone(s, s.phase.p, s.phase.since);
    var stable := s.now >= s.phase.since + s.t.stableAfter;
    assert Next(s, Loop(cancel)) == u.(phase := Exited(stable));
    hide Gone, Next;
    ExitSleeps(u, stable, cancel);
  }

  lemma ExitSleeps(u: State, stable: bool, cancel: bool)
    requires InRange(u.(phase := Exited(stable)))
    ensures Next(u.(phase := Exited(stable)), Loop(cancel)) == Sleep(SetFailure(u, Trouble))
  {
  }

  /** What it makes of close: its own end. */
  lemma RunCancelled(s: State)
    requires Inv(s) && s.phase.Watching? && s.cancelled
    ensures Next(s, Loop(true)) == Stopped(Unpublish(s, s.phase.p), s.phase.p).(phase := Returned)
  {
    hide AliveOk, CurOk, ReadersOk, BackoffOk, FatalOk, WaitsOk, TimesOk, StableOk;
  }

  /** The steps of one spawn. */
  ghost function SpawnRun(s: State, prepared: bool, configured: bool, heard: Heard, health: Health): (n: State)
    requires Inv(s)
    ensures Inv(n)
  {
    NextKeeps(s, Prepare(prepared));
    var prep := Next(s, Prepare(prepared));
    NextKeeps(prep, Configure(configured));
    var conf := Next(prep, Configure(configured));
    NextKeeps(conf, Dies(|s.procs|));
    var wait := if heard == Exit && conf.phase.Listening? then Next(conf, Dies(|s.procs|)) else conf;
    NextKeeps(wait, Hear(heard));
    var said := Next(wait, Hear(heard));
    NextKeeps(said, Check(health));
    Next(said, Check(health))
  }

  /** What they come to. */
  function SpawnEnd(s: State, prepared: bool, configured: bool, heard: Heard, health: Health): State {
    var good := configured && heard == Base && health == Healthy;
    var p := Process(good, good, s.now, None, None);
    if !prepared then s.(phase := SpawnFailed(Trouble))
    else if p.alive then s.(procs := s.procs + [p], phase := Spawned(|s.procs|))
    else
      var cause := if configured && heard == Base && health == OtherProtocol then Mismatch else Trouble;
      s.(procs := s.procs + [p], phase := SpawnFailed(cause))
  }

  lemma SpawnEnds(s: State, prepared: bool, configured: bool, heard: Heard, health: Health)
    requires Inv(s) && s.phase == Preparing && (heard == Cancelled ==> s.cancelled)
    ensures SpawnRun(s, prepared, configured, heard, health) == SpawnEnd(s, prepared, configured, heard, health)
  {
    hide Inv;
    var p := Process(true, false, s.now, None, None);
    Last(s.procs, p, p.(alive := false));
    Last(s.procs, p, p.(healthy := true));
  }

  lemma Last(procs: seq<Process>, p: Process, q: Process)
    ensures (procs + [p])[|procs| := q] == procs + [q]
  {
  }

  lemma FailedHasNone(s: State)
    requires Inv(s)
    ensures s.phase.SpawnFailed? ==> forall q :: 0 <= q < |s.procs| ==> !s.procs[q].alive
  {
    hide CurOk, ReadersOk, BackoffOk, FatalOk, WaitsOk, TimesOk, StableOk;
  }

  class ExecutorSupervisor {
    const t: Timings
    var cur: Option<nat>
    var generation: nat
    var lastErr: Option<Cause>
    var fatal: bool
    var phase: Phase
    var backoff: nat

    var now: nat
    var cancelled: bool
    var procs: seq<Process>
    var readers: seq<Reader>
    ghost var log: seq<Entry>

    ghost function View(): State
      reads this
    {
      State(t, now, cancelled, phase, backoff, procs, cur, generation, lastErr, fatal, readers, log)
    }

    ghost predicate Valid()
      reads this
      ensures Valid() ==> InRange(View())
    {
      Inv(View())
    }

    constructor (t: Timings)
      requires t.minBackoff <= t.maxBackoff
      ensures Valid() && View() == Initial(t)
    {
      this.t, now, cancelled, phase, backoff, procs := t, 0, false, Unstarted, t.minBackoff, [];
      cur, generation, lastErr, fatal, readers, log := None, 0, None, false, [], [];
      new;
      WaitNone(t);
    }

    method Publish(p: nat)
      modifies this`cur, this`lastErr, this`generation
      ensures cur == Some(p) && lastErr == None && generation == old(generation) + 1
    {
      cur := Some(p);
      lastErr := None;
      generation := generation + 1;
    }

    method Unpublish(p: nat)
      modifies this`cur
      ensures View() == ExecutorProtocol.Unpublish(old(View()), p)
    {
      if cur == Some(p) {
        cur := None;
      }
    }

    method SetFailure(cause: Cause)
      modifies this`lastErr, this`fatal, this`generation
      ensures View() == ExecutorProtocol.SetFailure(old(View()), cause)
      ensures lastErr == Some(cause) && (fatal <==> old(fatal) || cause == Mismatch) && generation > old(generation)
    {
      lastErr := Some(cause);
      if cause == Mismatch {
        fatal := true;
      }
      generation := generation + 1;
    }

    /** p.stop */
    method Stop(p: nat)
      requires p < |procs|
      modifies this`procs
      ensures View() == Stopped(old(View()), p)
    {
      procs := procs[p := procs[p].(alive := false)];
    }

    /** spawn: a healthy process, or none alive and the reason. What the world
        answers at each point is given; the process dies by itself when that is
        what ends the wait for its address. */
    method Spawn(prepared: bool, configured: bool, heard: Heard, health: Health) returns (p: Option<nat>)
      requires Valid() && phase == Preparing && (heard == Cancelled ==> cancelled)
      modifies this
      ensures Valid() && View() == SpawnRun(old(View()), prepared, configured, heard, health)
      ensures p.Some? <==> phase.Spawned?
      ensures p.Some? <==> prepared && configured && heard == Base && health == Healthy
      ensures phase == SpawnFailed(Mismatch) <==> prepared && configured && heard == Base && health == OtherProtocol
      ensures p.Some? ==> p.value < |procs| && phase == Spawned(p.value) && procs[p.value].healthy
      ensures p.None? ==> phase.SpawnFailed? && forall q :: 0 <= q < |procs| ==> !procs[q].alive
    {
      SpawnEnds(View(), prepared, configured, heard, health);
      FailedHasNone(SpawnRun(View(), prepared, configured, heard, health));
      ghost var made := Process(true, false, now, None, None);
      Last(procs, made, made.(alive := false));
      Last(procs, made, made.(healthy := true));
      hide Inv, SpawnRun;
      if !prepared {
        phase := SpawnFailed(Trouble);
        return None;
      }
      var q := |procs|;
      procs := procs + [Process(true, false, now, None, None)];
      if !configured {
        Stop(q);
        phase := SpawnFailed(Trouble);
        return None;
      }
      if heard == Exit {
        procs := procs[q := procs[q].(alive := false)];
        phase := SpawnFailed(Trouble);
        return None;
      }
      if heard != Base {
        Stop(q);
        phase := SpawnFailed(Trouble);
        return None;
      }
      if health != Healthy {
        Stop(q);
        phase := SpawnFailed(if health == OtherProtocol then Mismatch else Trouble);
        return None;
      }
      procs := procs[q := procs[q].(healthy := true)];
      phase := Spawned(q);
      p := Some(q);
    }

    /** The loop after spawn and up to its next wait or its end. */
    method AfterSpawn()
      requires Valid() && (phase.SpawnFailed? || phase.Spawned?)
      modifies this
      ensures Valid() && View() == Next(old(View()), Loop(false))
      ensures old(phase).Spawned? ==> cur == Some(old(phase).p) && generation > old(generation)
      ensures old(phase) == SpawnFailed(Mismatch) ==> phase == Returned && (fatal || cancelled)
      ensures old(phase) == SpawnFailed(Trouble) && !cancelled ==>
                phase == Sleeping(now + backoff) && now == old(now) && backoff == old(backoff)
    {
      hide AliveOk, CurOk, ReadersOk, BackoffOk, FatalOk, WaitsOk, TimesOk, StableOk;
      NextKeeps(View(), Loop(false));
      if phase.Spawned? {
        var p := phase.p;
        Publish(p);
        procs := procs[p := procs[p].(published := Some(now))];
        phase := Watching(p, now);
        return;
      }
      var cause := phase.cause;
      if cancelled {
        phase := Returned;
        return;
      }
      SetFailure(cause);
      if cause == Mismatch {
        phase := Returned;
        return;
      }
      log := log + [Slept(now, backoff, |procs|)];
      phase := Sleeping(now + backoff);
    }

    /** The loop's select while an executor runs: it exited, or close was
        called. */
    method AfterRun(cancel: bool)
      requires Valid() && phase.Watching? && (!procs[phase.p].alive || (cancel && cancelled))
      modifies this
      ensures Valid()
      ensures View() == if cancel && cancelled then Next(old(View()), Loop(cancel))
              else Next(Next(old(View()), Loop(cancel)), Loop(cancel))
      ensures cur == None && (phase == Returned <==> cancel && cancelled)
      ensures !(cancel && cancelled) ==>
                phase == Sleeping(now + backoff) && now == old(now)
                && backoff == if now >= old(phase.since) + t.stableAfter then t.minBackoff else old(backoff)
    {
      hide Inv, Next;
      NextKeeps(View(), Loop(cancel));
      NextKeeps(Next(View(), Loop(cancel)), Loop(cancel));
      WatchedIsCurrent(View());
      if cancel && cancelled {
        RunCancelled(View());
      } else {
        RunEnds(View(), cancel);
      }
      hide Gone, Sleep;
      var p, since := phase.p, phase.since;
      if cancel && cancelled {
        Unpublish(p);
        Stop(p);
        phase := Returned;
        return;
      }
      Exited(p, since);
    }

    /** An executor's own end: it is unpublished, and the wait is the shortest
        again when it ran long enough. */
    method Ended(p: nat, since: nat)
      requires cur == Some(p) && p < |procs|
      modifies this`cur, this`backoff, this`log, this`procs
      ensures View() == Gone(old(View()), p, since) && cur == None
      ensures backoff == if now >= since + t.stableAfter then t.minBackoff else old(backoff)
    {
      Unpublish(p);
      if now >= since + t.stableAfter {
        backoff := t.minBackoff;
        log := log + [StableExit(p)];
      }
      procs := procs[p := procs[p].(ended := Some(now))];
    }

    /** The loop after that, up to its wait. */
    method Exited(p: nat, since: nat)
      requires cur == Some(p) && p < |procs|
      modifies this
      ensures View() == Sleep(ExecutorProtocol.SetFailure(Gone(old(View()), p, since), Trouble))
      ensures cur == None && phase == Sleeping(now + backoff) && now == old(now)
      ensures backoff == if now >= since + t.stableAfter then t.minBackoff else old(backoff)
    {
      Ended(p, since);
      hide Gone;
      SetFailure(Trouble);
      log := log + [Slept(now, backoff, |procs|)];
      phase := Sleeping(now + backoff);
    }

    /** The loop's wait before it tries again. */
    method AfterWait(cancel: bool)
      requires Valid() && phase.Sleeping? && (now >= phase.until || (cancel && cancelled))
      modifies this
      ensures Valid() && View() == Next(old(View()), Loop(cancel))
      ensures phase == if cancel && cancelled then Returned else Top
      ensures phase == Top ==> backoff == Min(2 * old(backoff), t.maxBackoff)
    {
      hide AliveOk, CurOk, ReadersOk, FatalOk, WaitsOk, Wait, Retries, TimesOk, StableOk;
      NextKeeps(View(), Loop(cancel));
      if cancel && cancelled {
        phase := Returned;
        return;
      }
      backoff := Min(backoff * 2, t.maxBackoff);
      phase := Top;
    }

    /** ready's section: the executor to use, an answer, or the channel to wait
        on. */
    method Ready(r: nat) returns (reader: Reader)
      requires Valid() && r < |readers| && readers[r] == Reading
      modifies this
      ensures Valid() && View() == Next(old(View()), Read(r)) && reader == readers[r]
      ensures reader.Got? ==> cur == Some(reader.p) && reader.p < |procs| && procs[reader.p].healthy
      ensures reader.WaitsOn? ==> reader.generation == generation
      ensures (reader.Got? <==> cur.Some?) && (reader == Refused(true) <==> cur.None? && fatal)
      ensures reader.WaitsOn? <==> cur.None? && !fatal
    {
      hide AliveOk, ReadersOk, BackoffOk, FatalOk, WaitsOk, TimesOk, StableOk;
      NextKeeps(View(), Read(r));
      if cur.Some? {
        reader := Got(cur.value);
      } else if fatal {
        reader := Refused(true);
      } else {
        reader := WaitsOn(generation);
      }
      readers := readers[r := reader];
    }
  }
}
