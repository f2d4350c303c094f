// The executor's supervisor (desktop/runner/executor.go) as a protocol: its
// restart loop, the calls that wait for an executor, close, and the processes.
// Stopping a process is taken to end it.
module ExecutorProtocol {
  import opened Numbers
  import opened Options

  datatype Timings = Timings(minBackoff: nat, maxBackoff: nat, stableAfter: nat)

  /** A process, when it was made, and when the loop published it and noticed its
      end. */
  datatype Process = Process(alive: bool, healthy: bool, made: nat, published: Option<nat>, ended: Option<nat>)

  datatype Cause = Trouble | Mismatch

  datatype Phase =
    | Unstarted
    | Top
    | Preparing                               // before there is a process
    | Configuring(p: nat)
    | Listening(p: nat)
    | Checking(p: nat)
    | SpawnFailed(cause: Cause)
    | Spawned(p: nat)
    | Watching(p: nat, since: nat)
    | Exited(stable: bool)                    // unpublished
    | Sleeping(until: nat)
    | Returned

  /** A call in ready: what it last saw, or what it was answered. */
  datatype Reader = Reading | WaitsOn(generation: nat) | Got(p: nat) | Refused(fatal: bool)

  /** A wait, with the time it began and how many processes there had been; the
      end of a process that ran long enough. */
  datatype Entry = Slept(at: nat, wait: nat, procs: nat) | StableExit(p: nat)

  datatype State = State(
    t: Timings, now: nat, cancelled: bool, phase: Phase, backoff: nat, procs: seq<Process>,
    cur: Option<nat>, generation: nat, lastErr: Option<Cause>, fatal: bool,
    readers: seq<Reader>, log: seq<Entry>)

  /** What a health check finds. */
  datatype Health = Healthy | Unhealthy | OtherProtocol

  /** What the wait for the listening line ends with. */
  datatype Heard = Base | BadBase | Exit | Timeout | Cancelled

  datatype Step =
    | Start
    | Cancel
    | Loop(cancel: bool)  // the loop's next stretch; a select with both ready may take either
    | Prepare(ok: bool)
    | Configure(ok: bool)
    | Hear(heard: Heard)
    | Check(health: Health)
    | Dies(p: nat)
    | Tick
    | Enter
    | Read(r: nat)
    | Wake(r: nat)
    | GiveUp(r: nat)

  /** p.stop */
  function Stopped(s: State, p: nat): State
    requires p < |s.procs|
  {
    s.(procs := s.procs[p := s.procs[p].(alive := false)])
  }

  /** The channel that readers wait on is closed, and there is a new one. */
  function Changed(s: State): State {
    s.(generation := s.generation + 1)
  }

  function SetFailure(s: State, cause: Cause): State {
    Changed(s.(lastErr := Some(cause), fatal := s.fatal || cause == Mismatch))
  }

  function Unpublish(s: State, p: nat): State {
    if s.cur == Some(p) then s.(cur := None) else s
  }

  function Sleep(s: State): State {
    s.(phase := Sleeping(s.now + s.backoff), log := s.log + [Slept(s.now, s.backoff, |s.procs|)])
  }

  function Held(phase: Phase): Option<nat> {
    match phase
    case Configuring(p) => Some(p)
    case Listening(p) => Some(p)
    case Checking(p) => Some(p)
    case Spawned(p) => Some(p)
    case Watching(p, _) => Some(p)
    case _ => None
  }

  predicate InRange(s: State) {
    && (Held(s.phase).Some? ==> Held(s.phase).value < |s.procs|)
    && (s.cur.Some? ==> s.cur.value < |s.procs|)
  }

  function LoopStep(s: State, cancel: bool): State
    requires InRange(s)
  {
    match s.phase
    case Top => s.(phase := if s.cancelled then Returned else Preparing)
    case SpawnFailed(cause) =>
      if s.cancelled then s.(phase := Returned)
      else if cause == Mismatch then SetFailure(s, cause).(phase := Returned)
      else Sleep(SetFailure(s, cause))
    case Spawned(p) =>
      Changed(s.(cur := Some(p), lastErr := None, phase := Watching(p, s.now),
                 procs := s.procs[p := s.procs[p].(published := Some(s.now))]))
    case Watching(p, since) =>
      if cancel && s.cancelled then Stopped(Unpublish(s, p), p).(phase := Returned)
      else if !s.procs[p].alive then
        var stable := s.now >= since + s.t.stableAfter;
        Unpublish(s, p).(phase := Exited(stable), backoff := if stable then s.t.minBackoff else s.backoff,
                         procs := s.procs[p := s.procs[p].(ended := Some(s.now))],
                         log := if stable then s.log + [StableExit(p)] else s.log)
      else s
    case Exited(_) => Sleep(SetFailure(s, Trouble))
    case Sleeping(until) =>
      if cancel && s.cancelled then s.(phase := Returned)
      else if s.now >= until then s.(phase := Top, backoff := Min(s.backoff * 2, s.t.maxBackoff))
      else s
    case _ => s
  }

  function FailSpawn(s: State, p: nat, cause: Cause): State
    requires p < |s.procs|
  {
    Stopped(s, p).(phase := SpawnFailed(cause))
  }

  function SpawnStep(s: State, step: Step): State
    requires InRange(s)
  {
    match step
    case Prepare(ok) =>
      if s.phase != Preparing then s
      else if ok
      then s.(phase := Configuring(|s.procs|), procs := s.procs + [Process(true, false, s.now, None, None)])
      else s.(phase := SpawnFailed(Trouble))
    case Configure(ok) =>
      if !s.phase.Configuring? then s
      else if ok then s.(phase := Listening(s.phase.p))
      else FailSpawn(s, s.phase.p, Trouble)
    case Hear(heard) =>
      if !s.phase.Listening? then s
      else if heard == Base then s.(phase := Checking(s.phase.p))
      else if heard == Exit then (if s.procs[s.phase.p].alive then s else s.(phase := SpawnFailed(Trouble)))
      else if heard == Cancelled && !s.cancelled then s
      else FailSpawn(s, s.phase.p, Trouble)
    case Check(health) =>
      if !s.phase.Checking? then s
      else if health == Healthy
      then s.(phase := Spawned(s.phase.p), procs := s.procs[s.phase.p := s.procs[s.phase.p].(healthy := true)])
      else FailSpawn(s, s.phase.p, if health == OtherProtocol then Mismatch else Trouble)
    case _ => s
  }

  function WithReader(s: State, r: nat, reader: Reader): State
    requires r < |s.readers|
  {
    s.(readers := s.readers[r := reader])
  }

  /** One pass of ready's loop. */
  function ReadStep(s: State, r: nat): State
    requires r < |s.readers|
  {
    WithReader(s, r, if s.cur.Some? then Got(s.cur.value) else if s.fatal then Refused(true) else WaitsOn(s.generation))
  }

  function Next(s: State, step: Step): State
    requires InRange(s)
  {
    match step
    case Start => if s.phase == Unstarted then s.(phase := Top) else s
    case Cancel => s.(cancelled := true)
    case Loop(cancel) => LoopStep(s, cancel)
    case Prepare(_) => SpawnStep(s, step)
    case Configure(_) => SpawnStep(s, step)
    case Hear(_) => SpawnStep(s, step)
    case Check(_) => SpawnStep(s, step)
    case Dies(p) => if p < |s.procs| then Stopped(s, p) else s
    case Tick => s.(now := s.now + 1)
    case Enter => s.(readers := s.readers + [Reading])
    case Read(r) => if r < |s.readers| && s.readers[r] == Reading then ReadStep(s, r) else s
    case Wake(r) =>
      if r < |s.readers| && s.readers[r].WaitsOn? && s.readers[r].generation < s.generation
      then WithReader(s, r, Reading) else s
    case GiveUp(r) => if r < |s.readers| && s.readers[r].WaitsOn? then WithReader(s, r, Refused(false)) else s
  }

  function Initial(t: Timings): State {
    State(t, 0, false, Unstarted, t.minBackoff, [], None, 0, None, false, [], [])
  }

  // --- what every step keeps ---------------------------------------------------------------

  /** The one process that may live is the one the loop has in hand. */
  predicate AliveOk(s: State)
    requires InRange(s)
  {
    forall p :: 0 <= p < |s.procs| && s.procs[p].alive ==> Held(s.phase) == Some(p)
  }

  /** What is published is what the loop watches, and it passed the check. */
  predicate CurOk(s: State)
    requires InRange(s)
  {
    && (s.cur.Some? ==> s.phase.Watching? && s.phase.p == s.cur.value && s.procs[s.cur.value].healthy)
    && (s.phase.Spawned? ==> s.procs[s.phase.p].healthy)
    && (s.phase.Watching? ==> s.cur == Some(s.phase.p))
  }

  /** A reader that still has to be woken has missed nothing: there is no
      executor to use and the loop has not given up. */
  predicate ReadersOk(s: State)
    requires InRange(s)
  {
    forall r :: 0 <= r < |s.readers| ==>
      match s.readers[r]
      case WaitsOn(g) => g <= s.generation && (g == s.generation ==> s.cur.None? && !s.fatal)
      case Got(p) => p < |s.procs| && s.procs[p].healthy
      case _ => true
  }

  /** Waits since the executor last ran long enough. */
  function Retries(log: seq<Entry>): nat {
    if log == [] then 0
    else if log[|log| - 1].Slept? then Retries(log[..|log| - 1]) + 1
    else 0
  }

  function Wait(t: Timings, n: nat): nat {
    Min(t.minBackoff * Power2(n), t.maxBackoff)
  }

  /** Every wait is the shortest one doubled for each wait since a stable run. */
  ghost predicate WaitsOk(t: Timings, log: seq<Entry>) {
    forall k :: 0 <= k < |log| && log[k].Slept? ==> log[k].wait == Wait(t, Retries(log[..k]))
  }

  predicate BackoffOk(s: State) {
    && s.t.minBackoff <= s.t.maxBackoff
    && (s.phase.Sleeping? ==> Retries(s.log) > 0 && s.backoff == Wait(s.t, Retries(s.log) - 1))
    && (!s.phase.Sleeping? && s.phase != Returned ==> s.backoff == Wait(s.t, Retries(s.log)))
  }

  /** Fatal only when the loop is over, and over only when fatal or cancelled. */
  predicate FatalOk(s: State) {
    && (s.fatal ==> s.phase == Returned && s.lastErr == Some(Mismatch))
    && (s.phase == Returned ==> s.fatal || s.cancelled)
    && (s.phase.Sleeping? ==> s.lastErr.Some?)
  }

  /** The waits there were are over by then. */
  predicate Past(log: seq<Entry>, till: nat) {
    forall k :: 0 <= k < |log| && log[k].Slept? ==> log[k].at + log[k].wait <= till
  }

  /** No process was made before the waits before it were over. */
  predicate MadeAfter(log: seq<Entry>, procs: seq<Process>) {
    && (forall k :: 0 <= k < |log| && log[k].Slept? ==> log[k].procs <= |procs|)
    && forall k, p :: 0 <= k < |log| && log[k].Slept? && log[k].procs <= p < |procs| ==>
         procs[p].made >= log[k].at + log[k].wait
  }

  /** What the loop sleeps until is the end of the wait it logged last. */
  predicate SleepsOn(phase: Phase, log: seq<Entry>) {
    phase.Sleeping? ==>
      && log != [] && log[|log| - 1].Slept?
      && phase.until == log[|log| - 1].at + log[|log| - 1].wait
  }

  predicate TimesOk(s: State) {
    && (s.phase != Returned ==> Past(s.log, if s.phase.Sleeping? then s.phase.until else s.now))
    && MadeAfter(s.log, s.procs) && SleepsOn(s.phase, s.log)
  }

  lemma MadeMore(log: seq<Entry>, procs: seq<Process>, p: Process)
    requires MadeAfter(log, procs) && Past(log, p.made)
    ensures MadeAfter(log, procs + [p])
  {
  }

  lemma MadeUpdate(log: seq<Entry>, procs: seq<Process>, p: nat, q: Process)
    requires MadeAfter(log, procs) && p < |procs| && q.made == procs[p].made
    ensures MadeAfter(log, procs[p := q])
  {
  }

  lemma MadeLog(log: seq<Entry>, procs: seq<Process>, e: Entry)
    requires MadeAfter(log, procs) && (e.Slept? ==> e.procs == |procs|)
    ensures MadeAfter(log + [e], procs)
  {
  }

  lemma PastLog(log: seq<Entry>, e: Entry, at: nat, till: nat)
    requires Past(log, at) && at <= till && (e.Slept? ==> e.at + e.wait <= till)
    ensures Past(log + [e], till)
  {
  }

  lemma PastLater(log: seq<Entry>, at: nat, till: nat)
    requires Past(log, at) && at <= till
    ensures Past(log, till)
  {
  }

  /** From being published to its end it ran long enough. */
  predicate RanLong(p: Process, t: Timings) {
    p.published.Some? && p.ended.Some? && p.ended.value >= p.published.value + t.stableAfter
  }

  /** The log has the ends of the processes that ran long enough, and no others. */
  predicate StableLog(log: seq<Entry>, procs: seq<Process>, t: Timings) {
    && (forall p :: 0 <= p < |procs| ==> (StableExit(p) in log <==> RanLong(procs[p], t)))
    && (forall e :: e in log && e.StableExit? ==> e.p < |procs|)
  }

  predicate StableOk(s: State)
    requires InRange(s)
  {
    && StableLog(s.log, s.procs, s.t)
    && (Held(s.phase).Some? ==> s.procs[Held(s.phase).value].ended.None?)
    && (s.phase.Watching? ==> s.procs[s.phase.p].published == Some(s.phase.since))
  }

  lemma StableMore(log: seq<Entry>, procs: seq<Process>, t: Timings, p: Process)
    requires StableLog(log, procs, t) && p.ended.None?
    ensures StableLog(log, procs + [p], t)
  {
  }

  /** A process that has not ended may change. */
  lemma StableUpdate(log: seq<Entry>, procs: seq<Process>, t: Timings, p: nat, q: Process)
    requires StableLog(log, procs, t) && p < |procs| && RanLong(q, t) == RanLong(procs[p], t)
    ensures StableLog(log, procs[p := q], t)
  {
  }

  lemma StableEnds(log: seq<Entry>, procs: seq<Process>, t: Timings, p: nat, q: Process)
    requires StableLog(log, procs, t) && p < |procs| && procs[p].ended.None?
    ensures StableLog(if RanLong(q, t) then log + [StableExit(p)] else log, procs[p := q], t)
  {
  }

  lemma StableSleeps(log: seq<Entry>, procs: seq<Process>, t: Timings, e: Entry)
    requires StableLog(log, procs, t) && e.Slept?
    ensures StableLog(log + [e], procs, t)
  {
  }

  ghost predicate Inv(s: State)
    ensures Inv(s) ==> InRange(s)
  {
    && InRange(s) && AliveOk(s) && CurOk(s) && ReadersOk(s) && BackoffOk(s) && FatalOk(s) && WaitsOk(s.t, s.log)
    && TimesOk(s) && StableOk(s)
  }

  lemma Snoc(t: Timings, log: seq<Entry>, e: Entry)
    requires WaitsOk(t, log) && (e.Slept? ==> e.wait == Wait(t, Retries(log)))
    ensures WaitsOk(t, log + [e]) && Retries(log + [e]) == if e.Slept? then Retries(log) + 1 else 0
  {
    hide Wait;
    assert (log + [e])[..|log + [e]| - 1] == log;
    forall k | 0 <= k <= |log|
      ensures (log + [e])[..k] == log[..k]
    {
    }
    assert log[..|log|] == log;
  }

  /** Doubling and capping what was capped is doubling before the cap. */
  lemma Doubles(t: Timings, n: nat)
    ensures Min(Wait(t, n) * 2, t.maxBackoff) == Wait(t, n + 1)
  {
    assert t.minBackoff * Power2(n + 1) == 2 * (t.minBackoff * Power2(n)) by {
      assert Power2(n + 1) == 2 * Power2(n);
    }
  }

  lemma LoopKeeps(s: State, cancel: bool)
    requires Inv(s)
    ensures Inv(LoopStep(s, cancel))
  {
    hide Wait, Retries, WaitsOk;
    LoopTimes(s, cancel);
    LoopStable(s, cancel);
    hide TimesOk, StableOk;
    if s.phase.SpawnFailed? || s.phase.Exited? {
      Snoc(s.t, s.log, Slept(s.now, s.backoff, |s.procs|));
    }
    if s.phase.Watching? {
      Snoc(s.t, s.log, StableExit(s.phase.p));
      WaitNone(s.t);
    }
    if s.phase.Sleeping? {
      Doubles(s.t, Retries(s.log) - 1);
    }
  }

  lemma LoopTimes(s: State, cancel: bool)
    requires InRange(s) && TimesOk(s)
    ensures TimesOk(LoopStep(s, cancel))
  {
    hide Past, MadeAfter;
    match s.phase
    case SpawnFailed(_) | Exited(_) =>
      var e := Slept(s.now, s.backoff, |s.procs|);
      MadeLog(s.log, s.procs, e);
      PastLog(s.log, e, s.now, s.now + s.backoff);
    case Spawned(p) => MadeUpdate(s.log, s.procs, p, s.procs[p].(published := Some(s.now)));
    case Watching(p, _) =>
      MadeUpdate(s.log, s.procs, p, s.procs[p].(alive := false));
      MadeUpdate(s.log, s.procs, p, s.procs[p].(ended := Some(s.now)));
      MadeLog(s.log, s.procs[p := s.procs[p].(ended := Some(s.now))], StableExit(p));
      PastLog(s.log, StableExit(p), s.now, s.now);
    case Sleeping(until) =>
      if s.now >= until {
        PastLater(s.log, until, s.now);
      }
    case Unstarted | Top | Preparing | Configuring(_) | Listening(_) | Checking(_) | Returned =>
  }

  lemma LoopStable(s: State, cancel: bool)
    requires InRange(s) && StableOk(s)
    ensures InRange(LoopStep(s, cancel)) && StableOk(LoopStep(s, cancel))
  {
    hide StableLog;
    match s.phase
    case SpawnFailed(_) | Exited(_) =>
      StableSleeps(s.log, s.procs, s.t, Slept(s.now, s.backoff, |s.procs|));
    case Spawned(p) =>
      StableUpdate(s.log, s.procs, s.t, p, s.procs[p].(published := Some(s.now)));
    case Watching(p, _) =>
      StableUpdate(s.log, s.procs, s.t, p, s.procs[p].(alive := false));
      StableEnds(s.log, s.procs, s.t, p, s.procs[p].(ended := Some(s.now)));
    case Unstarted | Top | Preparing | Configuring(_) | Listening(_) | Checking(_) | Sleeping(_) | Returned =>
  }

  lemma WaitNone(t: Timings)
    requires t.minBackoff <= t.maxBackoff
    ensures Wait(t, 0) == t.minBackoff
  {
  }

  lemma SpawnTimes(s: State, step: Step)
    requires InRange(s) && TimesOk(s)
    ensures TimesOk(SpawnStep(s, step))
  {
    hide Past, MadeAfter;
    if step.Prepare? && s.phase == Preparing {
      MadeMore(s.log, s.procs, Process(true, false, s.now, None, None));
    } else if Held(s.phase).Some? {
      var p := Held(s.phase).value;
      MadeUpdate(s.log, s.procs, p, s.procs[p].(alive := false));
      MadeUpdate(s.log, s.procs, p, s.procs[p].(healthy := true));
    }
  }

  lemma SpawnStable(s: State, step: Step)
    requires InRange(s) && StableOk(s)
    ensures InRange(SpawnStep(s, step)) && StableOk(SpawnStep(s, step))
  {
    hide StableLog;
    if step.Prepare? {
      StableMore(s.log, s.procs, s.t, Process(true, false, s.now, None, None));
    } else if Held(s.phase).Some? {
      var p := Held(s.phase).value;
      assert !RanLong(s.procs[p], s.t);
      StableUpdate(s.log, s.procs, s.t, p, s.procs[p].(alive := false));
      StableUpdate(s.log, s.procs, s.t, p, s.procs[p].(healthy := true));
      hide RanLong, Held;
      HeldStable(s, step);
    }
  }

  /** The moves of spawn that have a process in hand: it stays as it was, is
      stopped, or is found healthy. */
  lemma HeldStable(s: State, step: Step)
    requires InRange(s) && StableOk(s) && Held(s.phase).Some? && !step.Prepare?
    requires var p := Held(s.phase).value;
             && StableLog(s.log, s.procs[p := s.procs[p].(alive := false)], s.t)
             && StableLog(s.log, s.procs[p := s.procs[p].(healthy := true)], s.t)
    ensures InRange(SpawnStep(s, step)) && StableOk(SpawnStep(s, step))
  {
    hide StableLog;
    HeldMoves(s, step);
    hide SpawnStep, FailSpawn;
  }

  lemma HeldMoves(s: State, step: Step)
    requires InRange(s) && Held(s.phase).Some? && !step.Prepare?
    ensures var n, p := SpawnStep(s, step), Held(s.phase).value;
            && p < |s.procs| && n.log == s.log && n.t == s.t && n.cur == s.cur
            && (n.phase == s.phase || n.phase.SpawnFailed? || (Held(n.phase) == Some(p) && !n.phase.Watching?))
            && (n.procs == s.procs || n.procs == s.procs[p := s.procs[p].(alive := false)]
                || n.procs == s.procs[p := s.procs[p].(healthy := true)])
  {
  }

  lemma SpawnAlive(s: State, step: Step)
    requires InRange(s) && AliveOk(s) && CurOk(s)
    ensures InRange(SpawnStep(s, step)) && AliveOk(SpawnStep(s, step)) && CurOk(SpawnStep(s, step))
  {
  }

  lemma SpawnReaders(s: State, step: Step)
    requires InRange(s) && ReadersOk(s)
    ensures InRange(SpawnStep(s, step)) && ReadersOk(SpawnStep(s, step))
  {
    SpawnGrows(s, step);
    hide SpawnStep, InRange;
  }

  /** Spawn changes nothing that a reader sees but makes processes healthy. */
  lemma SpawnGrows(s: State, step: Step)
    requires InRange(s)
    ensures var n := SpawnStep(s, step);
            && InRange(n) && n.readers == s.readers && n.generation == s.generation
            && n.cur == s.cur && n.fatal == s.fatal
            && |s.procs| <= |n.procs| && forall p :: 0 <= p < |s.procs| && s.procs[p].healthy ==> n.procs[p].healthy
  {
  }

  lemma SpawnKeeps(s: State, step: Step)
    requires Inv(s)
    ensures Inv(SpawnStep(s, step))
  {
    hide AliveOk, CurOk, ReadersOk, Wait, Retries, WaitsOk, TimesOk, StableOk;
    SpawnTimes(s, step);
    SpawnStable(s, step);
    SpawnAlive(s, step);
    SpawnReaders(s, step);
  }

  lemma OthersTimes(s: State, step: Step)
    requires InRange(s) && TimesOk(s)
    requires !step.Loop? && !(step.Prepare? || step.Configure? || step.Hear? || step.Check?)
    ensures TimesOk(Next(s, step))
  {
    hide Past, MadeAfter, LoopStep, SpawnStep;
    if step.Dies? && step.p < |s.procs| {
      MadeUpdate(s.log, s.procs, step.p, s.procs[step.p].(alive := false));
    }
    if step.Tick? && !s.phase.Sleeping? && s.phase != Returned {
      PastLater(s.log, s.now, s.now + 1);
    }
  }

  lemma OthersStable(s: State, step: Step)
    requires InRange(s) && StableOk(s)
    requires !step.Loop? && !(step.Prepare? || step.Configure? || step.Hear? || step.Check?)
    ensures InRange(Next(s, step)) && StableOk(Next(s, step))
  {
    hide StableLog, LoopStep, SpawnStep;
    if step.Dies? && step.p < |s.procs| {
      StableUpdate(s.log, s.procs, s.t, step.p, s.procs[step.p].(alive := false));
    }
  }

  /** Everything but the loop and spawn: readers, deaths, time, a cancel. */
  lemma OthersKeep(s: State, step: Step)
    requires Inv(s) && !step.Loop? && !(step.Prepare? || step.Configure? || step.Hear? || step.Check?)
    ensures Inv(Next(s, step))
  {
    hide LoopStep, SpawnStep, Wait, Retries, WaitsOk;
    OthersTimes(s, step);
    OthersStable(s, step);
    hide TimesOk, StableOk;
  }

  /** Every step keeps it. */
  lemma NextKeeps(s: State, step: Step)
    requires Inv(s)
    ensures Inv(Next(s, step))
  {
    if step.Loop? {
      LoopKeeps(s, step.cancel);
    } else if step.Prepare? || step.Configure? || step.Hear? || step.Check? {
      SpawnKeeps(s, step);
    } else {
      OthersKeep(s, step);
    }
    hide Inv, LoopStep, SpawnStep;
  }
}
