// The closure of createEmbeddingsServer (desktop/embedder/src/server.ts): its
// variables, and its functions each proved to be one step of the protocol.
module EmbeddingsServers {
  import opened Options
  import opened EmbedderProtocol

  class EmbeddingsServer {
    const idle: nat
    var engine: Option<nat>
    var loader: bool
    var loading: Option<nat>
    var failures: nat
    var retryAt: nat
    var inFlight: int
    var timer: Option<nat>

    var now: nat
    var engines: nat
    var dead: set<nat>
    var loads: seq<LoadResult>
    var requests: seq<Stage>
    ghost var log: seq<Entry>

    ghost function View(): State
      reads this
    {
      State(idle, now, engine, engines, dead, loader, loads, loading, failures, retryAt, inFlight, timer, requests, log)
    }

    ghost predicate Valid()
      reads this
      ensures Valid() ==> InRange(View())
    {
      Inv(View())
    }

    constructor (idle: nat, now: nat)
      ensures Valid() && View() == Initial(idle, now)
    {
      this.idle, this.now := idle, now;
      engine, loader, loading, failures, retryAt, inFlight, timer := None, false, None, 0, 0, 0, None;
      engines, dead, loads, requests, log := 0, {}, [], [], [];
    }

    method Arm()
      modifies this`timer
      ensures View() == EmbedderProtocol.Arm(old(View()))
      ensures timer == if idle > 0 && engine.Some? then Some(now + idle) else None
    {
      timer := None;
      if idle == 0 || engine.None? {
        return;
      }
      timer := Some(now + idle);
    }

    method Install()
      modifies this`engine, this`engines, this`failures, this`retryAt, this`timer, this`log
      ensures View() == EmbedderProtocol.Install(old(View()))
      ensures engine == Some(old(engines)) && engines == old(engines) + 1 && failures == 0 && retryAt == 0
      ensures log == old(log) + [Installed(now)] && timer == if idle > 0 then Some(now + idle) else None
    {
      engine := Some(engines);
      engines := engines + 1;
      failures := 0;
      retryAt := 0;
      Arm();
      log := log + [Installed(now)];
    }

    /** The request is counted before its body is read. */
    method Begin() returns (r: nat)
      requires Valid()
      modifies this
      ensures Valid() && View() == Next(old(View()), EmbedderProtocol.Begin) && r == |old(requests)|
      ensures inFlight == old(inFlight) + 1 && timer.None? && requests == old(requests) + [Reading]
    {
      NextKeeps(View(), EmbedderProtocol.Begin);
      inFlight := inFlight + 1;
      timer := None;
      r := |requests|;
      requests := requests + [Reading];
      log := log + [RequestBegan(now)];
    }

    method End(r: nat)
      requires Valid() && r < |requests| && !requests[r].Waiting? && requests[r] != Ended
      modifies this
      ensures Valid() && View() == Next(old(View()), EmbedderProtocol.End(r))
      ensures inFlight == old(inFlight) - 1 && timer == if idle > 0 && engine.Some? then Some(now + idle) else None
    {
      hide Inv, EmbedderProtocol.Arm;
      NextKeeps(View(), EmbedderProtocol.End(r));
      inFlight := inFlight - 1;
      requests := requests[r := Ended];
      Arm();
      log := log + [RequestEnded(now)];
    }

    /** acquire up to its await: an engine, a refusal, or the load to await. */
    method Acquire(r: nat) returns (stage: Stage)
      requires Valid() && r < |requests| && requests[r] == Reading
      modifies this
      ensures Valid() && View() == Next(old(View()), EmbedderProtocol.Acquire(r)) && stage == requests[r]
      ensures stage.Holding? ==> engine == Some(stage.engine) && stage.engine !in dead
      ensures stage.Waiting? ==> loading == Some(stage.load)
      ensures var live := old(engine).Some? && old(engine).value !in dead;
              && (stage.Holding? <==> live) && engine == (if live then old(engine) else None)
              && (stage == Refused(None) <==> !live && !loader)
              && (stage.Waiting? <==> !live && loader && (old(loading).Some? || now >= retryAt))
              && (stage.Refused? && stage.retryAfter.Some? ==> now + stage.retryAfter.value == retryAt > now)
              && loads == old(loads) + (if stage.Waiting? && old(loading).None? then [Pending] else [])
              && (stage.Waiting? ==> stage.load == if old(loading).Some? then old(loading).value else old(|loads|))
    {
      hide Inv;
      NextKeeps(View(), EmbedderProtocol.Acquire(r));
      if engine.Some? && engine.value in dead {
        engine := None;
        timer := None;
      }
      if engine.Some? {
        stage := Holding(engine.value);
      } else if !loader {
        stage := Refused(None);
      } else {
        if loading.None? {
          if retryAt > now {
            stage := Refused(Some(retryAt - now));
            requests := requests[r := stage];
            return;
          }
          loading := Some(|loads|);
          loads := loads + [Pending];
          log := log + [LoadBegan(now)];
        }
        stage := Waiting(loading.value);
      }
      requests := requests[r := stage];
    }

    /** The load's callback when it brought an engine. */
    method Lands()
      requires Valid() && loading.Some? && loads[loading.value] == Pending
      modifies this
      ensures Valid() && View() == Next(old(View()), LoadLands(true)) && loading == old(loading)
      ensures engine == Some(old(engines)) && engines == old(engines) + 1 && failures == 0 && retryAt == 0
      ensures loads == old(loads)[loading.value := Loaded(old(engines))] && log == old(log) + [Installed(now)]
      ensures timer == if idle > 0 then Some(now + idle) else None
    {
      hide Inv, InRange, Next, EmbedderProtocol.Install, EmbedderProtocol.Arm;
      LandIs(View(), true);
      NextKeeps(View(), LoadLands(true));
      loads := loads[loading.value := Loaded(engines)];
      Install();
    }

    /** Its callback when it failed. */
    method Fails()
      requires Valid() && loading.Some? && loads[loading.value] == Pending
      modifies this
      ensures Valid() && View() == Next(old(View()), LoadLands(false)) && loading == old(loading)
      ensures engine == old(engine) && failures == old(failures) + 1 && retryAt >= now + 5_000 && timer == old(timer)
      ensures loads == old(loads)[loading.value := LoadFailed]
    {
      hide Inv, InRange, Next, Backoff;
      ghost var s := View();
      BackoffLeast(failures + 1);
      LandIs(s, false);
      NextKeeps(s, LoadLands(false));
      loads := loads[loading.value := LoadFailed];
      failures := failures + 1;
      retryAt := now + Backoff(failures);
      log := log + [FailedLoad(now)];
      assert View() == Next(s, LoadLands(false));
    }

    /** The timer's callback. */
    method Unload()
      requires Valid() && Quiet(View()) && timer.Some? && now >= timer.value
      modifies this
      ensures Valid() && View() == Next(old(View()), TimerFires)
      ensures old(inFlight) > 0 ==> engine == old(engine) && dead == old(dead)
      ensures old(inFlight) <= 0 && old(engine).Some? ==>
                engine.None? && old(engine).value in dead && log == old(log) + [Released(now, old(engine).value)]
    {
      hide Inv;
      NextKeeps(View(), TimerFires);
      timer := None;
      if inFlight > 0 || engine.None? {
        return;
      }
      dead := dead + {engine.value};
      log := log + [Released(now, engine.value)];
      engine := None;
    }

    method SetEngine(canLoad: bool)
      requires Valid()
      modifies this
      ensures Valid() && View() == Next(old(View()), EmbedderProtocol.SetEngine(canLoad))
      ensures loader == (old(loader) || canLoad) && engine == Some(old(engines)) && failures == 0 && retryAt == 0
    {
      hide Inv, EmbedderProtocol.Install;
      NextKeeps(View(), EmbedderProtocol.SetEngine(canLoad));
      loader := loader || canLoad;
      Install();
    }

    method EnableLoading(canLoad: bool)
      requires Valid()
      modifies this`loader
      ensures Valid() && View() == Next(old(View()), EmbedderProtocol.EnableLoading(canLoad)) && loader == canLoad
    {
      hide Inv;
      NextKeeps(View(), EmbedderProtocol.EnableLoading(canLoad));
      loader := canLoad;
    }

    /** The load's finally. */
    method ClearLoading()
      requires Valid() && loading.Some? && loads[loading.value] != Pending
      modifies this`loading
      ensures Valid() && View() == Next(old(View()), LoadClears) && loading == None
    {
      hide Inv;
      NextKeeps(View(), LoadClears);
      loading := None;
    }

    /** acquire after its await: the load's engine, or a refusal that says how
        long to wait. */
    method Resume(r: nat) returns (stage: Stage)
      requires Valid() && r < |requests| && requests[r].Waiting?
      requires loading != Some(requests[r].load)
      modifies this`requests
      ensures Valid() && View() == Next(old(View()), EmbedderProtocol.Resume(r)) && stage == requests[r]
      ensures stage.Holding? || stage.Refused?
      ensures stage.Holding? ==> loads[old(requests[r]).load] == Loaded(stage.engine) && !WasReleased(log, stage.engine)
      ensures stage.Holding? <==> loads[old(requests[r]).load].Loaded?
      ensures stage.Refused? ==> stage.retryAfter == Some(if retryAt > now then retryAt - now else 0)
    {
      Awaited(View(), r);
      ResumeIs(View(), r);
      hide Inv, InRange, WasReleased, Next;
      NextKeeps(View(), EmbedderProtocol.Resume(r));
      var l := requests[r].load;
      if loads[l].Loaded? {
        stage := Holding(loads[l].engine);
      } else {
        stage := Refused(Some(if retryAt > now then retryAt - now else 0));
      }
      requests := requests[r := stage];
    }
  }

  lemma LandIs(s: State, ok: bool)
    requires InRange(s) && s.loading.Some? && s.loads[s.loading.value] == Pending
    ensures s.loading.value < |s.loads|
    ensures Next(s, LoadLands(ok)) ==
            if ok then EmbedderProtocol.Install(s.(loads := s.loads[s.loading.value := Loaded(s.engines)]))
            else s.(loads := s.loads[s.loading.value := LoadFailed], failures := s.failures + 1,
                    retryAt := s.now + Backoff(s.failures + 1), log := s.log + [FailedLoad(s.now)])
  {
  }

  lemma ResumeIs(s: State, r: nat)
    requires Inv(s) && r < |s.requests| && s.requests[r].Waiting? && s.loading != Some(s.requests[r].load)
    ensures InRange(s) && s.requests[r].load < |s.loads|
    ensures Next(s, Resume(r)) ==
            var l := s.loads[s.requests[r].load];
            var left := if s.retryAt > s.now then s.retryAt - s.now else 0;
            s.(requests := s.requests[r := if l.Loaded? then Holding(l.engine) else Refused(Some(left))])
  {
    hide CountOk, TimerOk, EngineOk;
  }

  /** What a request awaited has ended, and its engine is not one that was
      unloaded for being idle. */
  lemma Awaited(s: State, r: nat)
    requires Inv(s) && r < |s.requests| && s.requests[r].Waiting? && s.loading != Some(s.requests[r].load)
    ensures s.loads[s.requests[r].load] != Pending
    ensures s.loads[s.requests[r].load].Loaded? ==> !WasReleased(s.log, s.loads[s.requests[r].load].engine)
  {
    hide WasReleased, CountOk, TimerOk;
  }
}
