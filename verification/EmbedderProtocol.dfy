// The embedder's lazy load and idle unload (desktop/embedder/src/server.ts) as
// a protocol: every callback and every stretch between two awaits is one step.
// A number stands for an engine, a load or a request.
module EmbedderProtocol {
  import opened Numbers
  import opened Options

  const LOAD_RETRY_BASE_MS: nat := 5_000
  const LOAD_RETRY_MAX_MS: nat := 300_000

  datatype LoadResult = Pending | Loaded(engine: nat) | LoadFailed

  datatype Stage =
    | Reading                                // the body is still read and checked
    | Waiting(load: nat)
    | Holding(engine: nat)
    | Refused(retryAfter: Option<nat>)
    | Ended

  /** What an observer sees, with the time of it. */
  datatype Entry =
    | RequestBegan(at: nat)
    | RequestEnded(at: nat)
    | LoadBegan(at: nat)
    | FailedLoad(at: nat)
    | Installed(at: nat)
    | Released(at: nat, engine: nat)

  datatype State = State(
    idle: nat, now: nat,
    engine: Option<nat>, engines: nat, dead: set<nat>,
    loader: bool, loads: seq<LoadResult>, loading: Option<nat>, failures: nat, retryAt: nat,
    inFlight: int, timer: Option<nat>,
    requests: seq<Stage>, log: seq<Entry>)

  datatype Step =
    | Begin
    | Acquire(r: nat)
    | Resume(r: nat)
    | End(r: nat)
    | LoadLands(ok: bool)
    | LoadClears
    | TimerFires
    | EngineDies(e: nat)
    | SetEngine(canLoad: bool)
    | EnableLoading(canLoad: bool)
    | Tick(ms: nat)

  /** How long requests are refused after so many failed loads in a row. */
  function Backoff(failures: nat): nat
    requires failures > 0
  {
    Min(LOAD_RETRY_BASE_MS * Power2(failures - 1), LOAD_RETRY_MAX_MS)
  }

  lemma BackoffLeast(failures: nat)
    requires failures > 0
    ensures Backoff(failures) >= 5_000
  {
    PowerUpTo(0, failures - 1);
  }

  predicate InRange(s: State) {
    && (s.loading.Some? ==> s.loading.value < |s.loads|)
    && (forall r :: 0 <= r < |s.requests| && s.requests[r].Waiting? ==> s.requests[r].load < |s.loads|)
  }

  function Log(s: State, e: Entry): State {
    s.(log := s.log + [e])
  }

  function Arm(s: State): State {
    s.(timer := if s.idle == 0 || s.engine.None? then None else Some(s.now + s.idle))
  }

  /** A new engine is there. */
  function Install(s: State): State {
    Log(Arm(s.(engine := Some(s.engines), engines := s.engines + 1, failures := 0, retryAt := 0)), Installed(s.now))
  }

  /** An engine that no longer answers is given up. */
  function Checked(s: State): State {
    if s.engine.Some? && s.engine.value in s.dead then s.(engine := None, timer := None) else s
  }

  function AcquireStep(s: State, r: nat): State
    requires InRange(s) && r < |s.requests|
  {
    var t := Checked(s);
    if t.engine.Some? then t.(requests := t.requests[r := Holding(t.engine.value)])
    else if !t.loader then t.(requests := t.requests[r := Refused(None)])
    else if t.loading.Some? then t.(requests := t.requests[r := Waiting(t.loading.value)])
    else if t.retryAt > t.now then t.(requests := t.requests[r := Refused(Some(t.retryAt - t.now))])
    else
      Log(t.(loads := t.loads + [Pending], loading := Some(|t.loads|), requests := t.requests[r := Waiting(|t.loads|)]),
          LoadBegan(t.now))
  }

  /** The await of a load is over once the load's own cleanup is. */
  function ResumeStep(s: State, r: nat): State
    requires InRange(s) && r < |s.requests| && s.requests[r].Waiting?
  {
    var l := s.requests[r].load;
    if s.loading == Some(l) || s.loads[l] == Pending then s
    else if s.loads[l].Loaded? then s.(requests := s.requests[r := Holding(s.loads[l].engine)])
    else s.(requests := s.requests[r := Refused(Some(if s.retryAt > s.now then s.retryAt - s.now else 0))])
  }

  function EndStep(s: State, r: nat): State
    requires r < |s.requests|
  {
    Log(Arm(s.(inFlight := s.inFlight - 1, requests := s.requests[r := Ended])), RequestEnded(s.now))
  }

  function LandStep(s: State, ok: bool): State
    requires InRange(s)
  {
    if s.loading.None? || s.loads[s.loading.value] != Pending then s
    else if ok then Install(s.(loads := s.loads[s.loading.value := Loaded(s.engines)]))
    else
      Log(s.(loads := s.loads[s.loading.value := LoadFailed], failures := s.failures + 1,
             retryAt := s.now + Backoff(s.failures + 1)), FailedLoad(s.now))
  }

  /** What landed is cleaned up before any timer runs or time passes. */
  predicate Quiet(s: State)
    requires InRange(s)
  {
    s.loading.Some? ==> s.loads[s.loading.value] == Pending
  }

  function UnloadStep(s: State): State {
    var t := s.(timer := None);
    if t.inFlight > 0 || t.engine.None? then t
    else Log(t.(engine := None, dead := t.dead + {t.engine.value}), Released(t.now, t.engine.value))
  }

  function Next(s: State, step: Step): State
    requires InRange(s)
  {
    match step
    case Begin => Log(s.(inFlight := s.inFlight + 1, timer := None, requests := s.requests + [Reading]),
        RequestBegan(s.now))
    case Acquire(r) => if r < |s.requests| && s.requests[r] == Reading then AcquireStep(s, r) else s
    case Resume(r) => if r < |s.requests| && s.requests[r].Waiting? then ResumeStep(s, r) else s
    case End(r) => if r < |s.requests| && !s.requests[r].Waiting? && s.requests[r] != Ended then EndStep(s, r) else s
    case LoadLands(ok) => LandStep(s, ok)
    case LoadClears => if Quiet(s) then s else s.(loading := None)
    case TimerFires => if Quiet(s) && s.timer.Some? && s.now >= s.timer.value then UnloadStep(s) else s
    case EngineDies(e) => if e < s.engines then s.(dead := s.dead + {e}) else s
    case SetEngine(canLoad) => Install(s.(loader := s.loader || canLoad))
    case EnableLoading(canLoad) => s.(loader := canLoad)
    case Tick(ms) => if Quiet(s) then s.(now := s.now + ms) else s
  }

  function Initial(idle: nat, now: nat): State {
    State(idle, now, None, 0, {}, false, [], None, 0, 0, 0, None, [], [])
  }

  // --- what the log says ------------------------------------------------------------------

  /** Failed loads since an engine was last installed. */
  function Failures(log: seq<Entry>): nat {
    if log == [] then 0
    else
      match log[|log| - 1]
      case FailedLoad(_) => Failures(log[..|log| - 1]) + 1
      case Installed(_) => 0
      case _ => Failures(log[..|log| - 1])
  }

  /** When a load last failed. */
  function LastFailure(log: seq<Entry>): nat {
    if log == [] then 0
    else if log[|log| - 1].FailedLoad? then log[|log| - 1].at
    else LastFailure(log[..|log| - 1])
  }

  /** Requests that began and have not ended. */
  function InFlight(log: seq<Entry>): int {
    if log == [] then 0
    else
      InFlight(log[..|log| - 1]) +
      match log[|log| - 1]
      case RequestBegan(_) => 1
      case RequestEnded(_) => -1
      case _ => 0
  }

  /** No load begins before the time the last failure set. */
  ghost predicate LoadsInTime(log: seq<Entry>) {
    forall k :: 0 <= k < |log| && log[k].LoadBegan? && Failures(log[..k]) > 0 ==>
      log[k].at >= LastFailure(log[..k]) + Backoff(Failures(log[..k]))
  }

  /** The model is released only when no request is in flight and the last one
      ended long enough ago. */
  ghost predicate ReleasesIdle(log: seq<Entry>, idle: nat) {
    && (forall k :: 0 <= k < |log| && log[k].Released? ==> idle > 0 && InFlight(log[..k]) == 0)
    && (forall j, k :: 0 <= j < k < |log| && log[j].RequestEnded? && log[k].Released? ==> log[j].at + idle <= log[k].at)
  }

  ghost predicate WasReleased(log: seq<Entry>, e: nat) {
    exists k :: 0 <= k < |log| && log[k].Released? && log[k].engine == e
  }

  // --- what every step keeps ---------------------------------------------------------------

  function Active(requests: seq<Stage>): nat {
    if requests == [] then 0
    else Active(requests[..|requests| - 1]) + (if requests[|requests| - 1] == Ended then 0 else 1)
  }

  ghost predicate CountOk(s: State) {
    s.inFlight == Active(s.requests) == InFlight(s.log)
  }

  ghost predicate LoadOk(s: State) {
    && (forall l :: 0 <= l < |s.loads| && s.loads[l] == Pending ==> s.loading == Some(l))
    && s.failures == Failures(s.log)
    && s.retryAt == (if s.failures == 0 then 0 else LastFailure(s.log) + Backoff(s.failures))
    && LoadsInTime(s.log)
  }

  ghost predicate TimerOk(s: State) {
    && (s.timer.Some? ==> s.engine.Some? && s.idle > 0 && s.timer.value <= s.now + s.idle)
    && (s.engine.Some? && s.inFlight <= 0 && s.idle > 0 ==> s.timer.Some?)
    && (forall k :: 0 <= k < |s.log| && s.log[k].RequestEnded? ==>
          s.log[k].at <= s.now && (s.timer.Some? ==> s.log[k].at + s.idle <= s.timer.value))
    && ReleasesIdle(s.log, s.idle)
  }

  /** An engine somebody may use: it exists and was not released. */
  ghost predicate Usable(s: State, e: nat) {
    e < s.engines && !WasReleased(s.log, e)
  }

  ghost predicate EngineOk(s: State)
    requires InRange(s)
  {
    && (s.engine.Some? ==> Usable(s, s.engine.value))
    && (forall k :: 0 <= k < |s.log| && s.log[k].Released? ==> s.log[k].engine < s.engines)
    && (forall r :: 0 <= r < |s.requests| && s.requests[r].Holding? ==> Usable(s, s.requests[r].engine))
    && (forall r :: 0 <= r < |s.requests| && s.requests[r].Waiting? && s.loads[s.requests[r].load].Loaded? ==>
          Usable(s, s.loads[s.requests[r].load].engine))
    && (s.loading.Some? && s.loads[s.loading.value].Loaded? ==> Usable(s, s.loads[s.loading.value].engine))
  }

  ghost predicate Inv(s: State)
    ensures Inv(s) ==> InRange(s)
  {
    InRange(s) && CountOk(s) && LoadOk(s) && TimerOk(s) && EngineOk(s)
  }

  lemma Snoc(log: seq<Entry>, e: Entry)
    ensures Failures(log + [e]) ==
            match e { case FailedLoad(_) => Failures(log) + 1 case Installed(_) => 0 case _ => Failures(log) }
    ensures LastFailure(log + [e]) == if e.FailedLoad? then e.at else LastFailure(log)
    ensures InFlight(log + [e]) ==
            InFlight(log) + match e { case RequestBegan(_) => 1 case RequestEnded(_) => -1 case _ => 0 }
  {
    assert (log + [e])[..|log + [e]| - 1] == log;
  }

  lemma SnocLoads(log: seq<Entry>, e: Entry)
    requires LoadsInTime(log)
    requires e.LoadBegan? && Failures(log) > 0 ==> e.at >= LastFailure(log) + Backoff(Failures(log))
    ensures LoadsInTime(log + [e])
  {
    hide Failures, LastFailure, Backoff;
    forall k | 0 <= k <= |log|
      ensures (log + [e])[..k] == log[..k]
    {
    }
    assert log[..|log|] == log;
  }

  lemma SnocReleases(log: seq<Entry>, e: Entry, idle: nat)
    requires ReleasesIdle(log, idle)
    requires e.Released? ==> idle > 0 && InFlight(log) == 0
    requires e.Released? ==> forall j :: 0 <= j < |log| && log[j].RequestEnded? ==> log[j].at + idle <= e.at
    ensures ReleasesIdle(log + [e], idle)
  {
    hide InFlight;
    forall k | 0 <= k <= |log|
      ensures (log + [e])[..k] == log[..k]
    {
    }
    assert log[..|log|] == log;
  }

  lemma SnocReleased(log: seq<Entry>, e: Entry, engine: nat)
    ensures WasReleased(log + [e], engine) <==> WasReleased(log, engine) || (e.Released? && e.engine == engine)
  {
    if WasReleased(log, engine) {
      var k :| 0 <= k < |log| && log[k].Released? && log[k].engine == engine;
      assert (log + [e])[k] == log[k];
    }
    if e.Released? && e.engine == engine {
      assert (log + [e])[|log|] == e;
    }
  }

  lemma ActiveSnoc(requests: seq<Stage>, r: Stage)
    ensures Active(requests + [r]) == Active(requests) + (if r == Ended then 0 else 1)
  {
    assert (requests + [r])[..|requests + [r]| - 1] == requests;
  }

  lemma {:induction false} ActiveUpdate(requests: seq<Stage>, r: nat, stage: Stage)
    requires r < |requests|
    ensures Active(requests[r := stage]) ==
            Active(requests) - (if requests[r] == Ended then 0 else 1) + (if stage == Ended then 0 else 1)
  {
    var n := |requests| - 1;
    if r == n {
      assert requests[r := stage][..n] == requests[..n];
    } else {
      assert requests[r := stage][..n] == requests[..n][r := stage];
      ActiveUpdate(requests[..n], r, stage);
    }
  }

  lemma {:induction false} NoneActive(requests: seq<Stage>, r: nat)
    requires Active(requests) == 0 && r < |requests|
    ensures requests[r] == Ended
  {
    if r < |requests| - 1 {
      NoneActive(requests[..|requests| - 1], r);
    }
  }

  /** A request that changes its stage, not to its end. */
  lemma StageKeeps(s: State, r: nat, stage: Stage)
    requires Inv(s) && r < |s.requests| && s.requests[r] != Ended && stage != Ended
    requires stage.Waiting? ==>
              stage.load < |s.loads| && (s.loads[stage.load].Loaded? ==> Usable(s, s.loads[stage.load].engine))
    requires stage.Holding? ==> Usable(s, stage.engine)
    ensures Inv(s.(requests := s.requests[r := stage]))
  {
    hide LoadOk, TimerOk, Usable, InFlight, Active;
    ActiveUpdate(s.requests, r, stage);
    assert LoadOk(s.(requests := s.requests[r := stage])) by { LoadSame(s, s.(requests := s.requests[r := stage])); }
    assert TimerOk(s.(requests := s.requests[r := stage])) by { TimerSame(s, s.(requests := s.requests[r := stage])); }
    UsableSame(s, s.(requests := s.requests[r := stage]));
  }

  lemma LoadSame(s: State, t: State)
    requires LoadOk(s) && t.loads == s.loads && t.loading == s.loading && t.log == s.log
    requires t.failures == s.failures && t.retryAt == s.retryAt
    ensures LoadOk(t)
  {
  }

  lemma TimerSame(s: State, t: State)
    requires TimerOk(s) && t.log == s.log && t.idle == s.idle && t.now == s.now && t.inFlight == s.inFlight
    requires (t.timer == s.timer && t.engine == s.engine) || (t.timer == None && t.engine == None)
    ensures TimerOk(t)
  {
  }

  lemma UsableSame(s: State, t: State)
    requires t.log == s.log && t.engines == s.engines
    ensures forall e :: Usable(s, e) <==> Usable(t, e)
  {
  }

  lemma CheckedKeeps(s: State)
    requires Inv(s)
    ensures Inv(Checked(s))
  {
    hide LoadOk, TimerOk, Usable, InFlight, Active;
    var t := Checked(s);
    assert LoadOk(t) by { LoadSame(s, t); }
    assert TimerOk(t) by { TimerSame(s, t); }
    UsableSame(s, t);
  }

  lemma AcquireKeeps(s: State, r: nat)
    requires Inv(s) && r < |s.requests| && s.requests[r] == Reading
    ensures Inv(AcquireStep(s, r))
  {
    var t := Checked(s);
    CheckedKeeps(s);
    if t.engine.None? && t.loader && t.loading.None? && t.retryAt <= t.now {
      LoadBeginKeeps(t);
      var n := Log(t.(loads := t.loads + [Pending], loading := Some(|t.loads|)), LoadBegan(t.now));
      hide Inv;
      StageKeeps(n, r, Waiting(|t.loads|));
      assert AcquireStep(s, r) == n.(requests := n.requests[r := Waiting(|t.loads|)]);
    } else {
      hide LoadOk, TimerOk, CountOk, Usable;
      var n := AcquireStep(s, r);
      StageKeeps(t, r, n.requests[r]);
    }
  }

  lemma LoadBeginKeeps(s: State)
    requires Inv(s) && s.loading.None? && s.retryAt <= s.now
    ensures Inv(Log(s.(loads := s.loads + [Pending], loading := Some(|s.loads|)), LoadBegan(s.now)))
  {
    hide Failures, LastFailure, InFlight, Active, ReleasesIdle, LoadsInTime, WasReleased, Backoff;
    var e := LoadBegan(s.now);
    Snoc(s.log, e);
    SnocLoads(s.log, e);
    SnocReleases(s.log, e, s.idle);
    forall x ensures WasReleased(s.log + [e], x) <==> WasReleased(s.log, x) { SnocReleased(s.log, e, x); }
  }

  lemma ResumeKeeps(s: State, r: nat)
    requires Inv(s) && r < |s.requests| && s.requests[r].Waiting?
    ensures Inv(ResumeStep(s, r))
  {
    hide LoadOk, TimerOk, CountOk, Usable;
    var n := ResumeStep(s, r);
    if n != s {
      StageKeeps(s, r, n.requests[r]);
    }
  }

  lemma BeginKeeps(s: State)
    requires Inv(s)
    ensures Inv(Next(s, Begin))
  {
    hide Failures, LastFailure, InFlight, Active, ReleasesIdle, LoadsInTime, WasReleased, Backoff;
    var e := RequestBegan(s.now);
    Snoc(s.log, e);
    SnocLoads(s.log, e);
    SnocReleases(s.log, e, s.idle);
    ActiveSnoc(s.requests, Reading);
    forall x ensures WasReleased(s.log + [e], x) <==> WasReleased(s.log, x) { SnocReleased(s.log, e, x); }
  }

  lemma EndKeeps(s: State, r: nat)
    requires Inv(s) && r < |s.requests| && s.requests[r] != Ended
    ensures Inv(EndStep(s, r))
  {
    hide Failures, LastFailure, InFlight, Active, ReleasesIdle, LoadsInTime, WasReleased, Backoff;
    var e := RequestEnded(s.now);
    Snoc(s.log, e);
    SnocLoads(s.log, e);
    SnocReleases(s.log, e, s.idle);
    ActiveUpdate(s.requests, r, Ended);
    forall x ensures WasReleased(s.log + [e], x) <==> WasReleased(s.log, x) { SnocReleased(s.log, e, x); }
  }

  lemma InstallKeeps(s: State, t: State)
    requires Inv(s) && s.retryAt == t.retryAt
    requires t == s || (s.loading.Some? && s.loads[s.loading.value] == Pending &&
                        t == s.(loads := s.loads[s.loading.value := Loaded(s.engines)]))
    ensures Inv(Install(t))
  {
    hide Failures, LastFailure, InFlight, Active, ReleasesIdle, LoadsInTime, WasReleased, Backoff;
    var e := Installed(s.now);
    Snoc(s.log, e);
    SnocLoads(s.log, e);
    SnocReleases(s.log, e, s.idle);
    forall x ensures WasReleased(s.log + [e], x) <==> WasReleased(s.log, x) { SnocReleased(s.log, e, x); }
    NotReleased(s);
  }

  /** An engine not yet made was not released. */
  lemma NotReleased(s: State)
    requires Inv(s)
    ensures !WasReleased(s.log, s.engines)
  {
    hide CountOk, LoadOk, TimerOk;
  }

  lemma FailKeeps(s: State)
    requires Inv(s)
    ensures Inv(LandStep(s, false))
  {
    hide Failures, LastFailure, InFlight, Active, ReleasesIdle, LoadsInTime, WasReleased, Backoff;
    var e := FailedLoad(s.now);
    Snoc(s.log, e);
    SnocLoads(s.log, e);
    SnocReleases(s.log, e, s.idle);
    forall x ensures WasReleased(s.log + [e], x) <==> WasReleased(s.log, x) { SnocReleased(s.log, e, x); }
  }

  lemma UnloadKeeps(s: State)
    requires Inv(s) && Quiet(s) && s.timer.Some? && s.now >= s.timer.value
    ensures Inv(UnloadStep(s))
  {
    hide Failures, LastFailure, InFlight, Active, ReleasesIdle, LoadsInTime, WasReleased, Backoff;
    if s.inFlight <= 0 {
      var e := Released(s.now, s.engine.value);
      Snoc(s.log, e);
      SnocLoads(s.log, e);
      SnocReleases(s.log, e, s.idle);
      forall x
        ensures WasReleased(s.log + [e], x) <==> WasReleased(s.log, x) || x == e.engine
      {
        SnocReleased(s.log, e, x);
      }
      forall r | 0 <= r < |s.requests|
        ensures s.requests[r] == Ended
      {
        NoneActive(s.requests, r);
      }
    }
  }

  /** Every step keeps it. */
  lemma NextKeeps(s: State, step: Step)
    requires Inv(s)
    ensures Inv(Next(s, step))
  {
    hide AcquireStep, ResumeStep, EndStep, UnloadStep, Install;
    match step
    case Begin => BeginKeeps(s);
    case Acquire(r) => if r < |s.requests| && s.requests[r] == Reading { AcquireKeeps(s, r); }
    case Resume(r) => if r < |s.requests| && s.requests[r].Waiting? { ResumeKeeps(s, r); }
    case End(r) => if r < |s.requests| && s.requests[r] != Ended { EndKeeps(s, r); }
    case LoadLands(ok) =>
      if !ok {
        FailKeeps(s);
      } else if s.loading.Some? && s.loads[s.loading.value] == Pending {
        InstallKeeps(s, s.(loads := s.loads[s.loading.value := Loaded(s.engines)]));
      }
    case TimerFires => if Quiet(s) && s.timer.Some? && s.now >= s.timer.value { UnloadKeeps(s); }
    case SetEngine(canLoad) =>
      LoaderKeeps(s, s.loader || canLoad);
      InstallKeeps(s.(loader := s.loader || canLoad), s.(loader := s.loader || canLoad));
    case EnableLoading(canLoad) => LoaderKeeps(s, canLoad);
    case _ => OtherKeeps(s, step);
  }

  lemma LoaderKeeps(s: State, loader: bool)
    requires Inv(s)
    ensures Inv(s.(loader := loader))
  {
  }

  lemma OtherKeeps(s: State, step: Step)
    requires Inv(s) && (step.LoadClears? || step.EngineDies? || step.Tick?)
    ensures Inv(Next(s, step))
  {
    hide Failures, LastFailure, InFlight, Active, ReleasesIdle, LoadsInTime, WasReleased, Backoff;
  }
}
