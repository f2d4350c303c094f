// The hub's own fields and its locked sections (desktop/runner/appium_hub.go),
// each proved to be one step of the protocol. The processes, the record and the
// callers are the hub's surroundings; flights and hub processes are kept in
// tables, and a number in one stands for the pointer.
module AppiumHubs {
  import opened Options
  import opened AppiumHubProtocol

  /** close's last sections at once. */
  lemma ClosedDown(s: State)
    requires Inv(s) && s.w.closer.Begun? && (s.w.closer.flight.Some? ==> s.w.flights[s.w.closer.flight.value].done)
    ensures InRange(Next(s, CloseTake).w) && InRange(s.w.(proc := None))
    ensures Next(Next(s, CloseTake), CloseKill) ==
            var w := s.w.(proc := None);
            var n := if s.w.proc.Some? then Forgotten(Killed(w, s.w.proc.value), s.w.proc.value) else w;
            s.(w := n.(closer := Shut))
  {
    NextKeeps(s, CloseTake);
    hide Inv;
  }

  lemma ShutLeavesNone(s: State)
    requires Inv(s) && s.w.closer.Shut?
    ensures forall h :: 0 <= h < |s.w.hubs| ==> !s.w.procs[s.w.hubs[h].process].alive
    ensures s.w.op == None && s.w.proc == None
  {
    NoneLives(s.w);
  }

  /** The rest of an idle stop at once. */
  lemma IdleStopped(s: State, f: nat)
    requires Inv(s) && f < |s.w.flights| && s.w.flights[f].stage == Stopping
    ensures InRange(Next(s, Fly(f, Stop)).w) && s.w.flights[f].hub.Some? && s.w.flights[f].hub.value < |s.w.hubs|
    ensures Next(Next(s, Fly(f, Stop)), Fly(f, End)) ==
            var h := s.w.flights[f].hub.value;
            s.(w := WithFlight(Forgotten(Killed(s.w, h), h), f, s.w.flights[f].(stage := Settled)).(op := None))
  {
    hide WorldOk, CallersOk;
    NextKeeps(s, Fly(f, Stop));
    StopsSomething(s.w, f);
    hide Inv, Killed, Forgotten, InRange;
    KilledFlights(s.w, s.w.flights[f].hub.value);
  }

  lemma KilledFlights(w: World, h: nat)
    requires InRange(w) && h < |w.hubs|
    ensures InRange(Killed(w, h)) && Forgotten(Killed(w, h), h).flights == w.flights
  {
  }

  lemma ReadyingHub(s: State, f: nat)
    requires Inv(s) && f < |s.w.flights| && s.w.flights[f].stage in {Readying, Remembering}
    ensures s.w.flights[f].hub.Some? && s.w.flights[f].hub.value < |s.w.hubs| && !s.w.flights[f].err
  {
  }

  lemma AskingNothing(s: State, f: nat)
    requires Inv(s) && f < |s.w.flights| && s.w.flights[f].stage == Asking
    ensures s.w.flights[f].hub == None && !s.w.flights[f].err && s.w.op == Some(f)
    ensures s.w.record.Some? ==> s.w.record.value.start < |s.w.procs|
  {
  }

  /** While a failed start waits to settle, no hub process lives. */
  lemma NothingLives(s: State, f: nat)
    requires Inv(s) && f < |s.w.flights| && s.w.flights[f].stage == Settling && s.w.flights[f].err
    ensures forall h :: 0 <= h < |s.w.hubs| ==> !s.w.procs[s.w.hubs[h].process].alive
  {
    forall h | 0 <= h < |s.w.hubs|
      ensures !s.w.procs[s.w.hubs[h].process].alive
    {
      assert !Lives(s.w, h);
    }
  }

  class AppiumHub {
    var proc: Option<nat>
    var op: Option<nat>
    var inflight: int
    var lastUsed: nat
    var failedAt: Option<nat>
    var closer: Closer
    var flights: seq<Flight>
    var hubs: seq<HubProcess>

    var procs: seq<Process>
    var record: Option<Record>
    var callers: seq<Caller>
    var now: nat

    ghost function View(): State
      reads this
    {
      State(World(procs, hubs, flights, record, proc, op, failedAt, closer), callers, inflight, lastUsed, now)
    }

    ghost predicate Valid()
      reads this
      ensures Valid() ==> InRange(View().w)
    {
      Inv(View())
    }

    constructor (procs: seq<Process>, record: Option<Record>)
      requires forall p :: 0 <= p < |procs| ==> !procs[p].stopped
      requires record.Some? ==> record.value.start < |procs|
      requires record.Some? && procs[record.value.start].pid == record.value.pid ==>
                 procs[record.value.start].origin != Foreign
      ensures Valid()
      ensures View() == State(World(procs, [], [], record, None, None, None, Open), [], 0, 0, 0)
    {
      this.procs, this.record := procs, record;
      proc, op, inflight, lastUsed, failedAt, closer := None, None, 0, 0, None, Open;
      flights, hubs, callers, now := [], [], [], 0;
    }

    /** hold: a call is in flight. The caller's number is what its release is
        called with. */
    method Hold() returns (c: nat)
      requires Valid()
      modifies this
      ensures Valid() && View() == Next(old(View()), AppiumHubProtocol.Hold)
      ensures c == |old(callers)| && callers == old(callers) + [Caller(true, Asked, now)]
      ensures inflight == old(inflight) + 1 && lastUsed == now
    {
      NextKeeps(View(), AppiumHubProtocol.Hold);
      inflight := inflight + 1;
      lastUsed := now;
      c := |callers|;
      callers := callers + [Caller(true, Asked, now)];
    }

    /** The func hold returned; only its first call does anything. */
    method Release(c: nat)
      requires Valid() && c < |callers|
      modifies this
      ensures Valid() && View() == Next(old(View()), AppiumHubProtocol.Release(c))
      ensures !callers[c].holds && callers[c].stage == old(callers[c]).stage
      ensures old(callers[c]).holds ==> inflight == old(inflight) - 1 && lastUsed == callers[c].at == now
      ensures !old(callers[c]).holds ==> View() == old(View())
    {
      NextKeeps(View(), AppiumHubProtocol.Release(c));
      if callers[c].holds {
        inflight := inflight - 1;
        lastUsed := now;
        callers := callers[c := callers[c].(holds := false, at := now)];
      }
    }

    /** ensure's section: one pass of its loop. A caller told to wait waits for
        the flight's channel and passes again after anything but a start. */
    method Ensure(c: nat) returns (stage: CallerStage)
      requires Valid() && c < |callers| && callers[c].stage == Asked
      modifies this
      ensures Valid() && View() == Next(old(View()), AppiumHubProtocol.Ensure(c))
      ensures stage == callers[c].stage
      ensures stage == Got <==> closer == Open && old(op).None? && old(proc).Some? && !hubs[old(proc).value].done
      ensures stage == Failed <==>
                closer != Open || (old(op).None? && !(old(proc).Some? && !hubs[old(proc).value].done)
                                   && old(failedAt).Some? && now < old(failedAt).value + 30_000)
      ensures closer == Open && old(op).Some? ==> stage == Waiting(old(op).value) && flights == old(flights)
      ensures stage.Waiting? && old(op).None? ==>
                stage.flight == old(|flights|) && op == Some(stage.flight)
                && flights == old(flights) + [Flight(Start, Asking, None, false, false)]
      ensures stage.Waiting? || (stage in {Got, Failed} && flights == old(flights) && op == old(op))
      ensures hubs == old(hubs) && proc == old(proc) && lastUsed == now
    {
      hide WorldOk, CallersOk;
      NextKeeps(View(), AppiumHubProtocol.Ensure(c));
      lastUsed := now;
      if closer != Open {
        stage := Failed;
      } else if op.None? && proc.Some? && !hubs[proc.value].done {
        stage := Got;
      } else if op.None? && failedAt.Some? && now < failedAt.value + COOLDOWN {
        stage := Failed;
      } else {
        if op.None? {
          op := Some(|flights|);
          flights := flights + [Flight(Start, Asking, None, false, false)];
        }
        stage := Waiting(op.value);
      }
      callers := callers[c := callers[c].(stage := stage, at := now)];
    }

    /** Does anything answer? A start goes on to spawn when nothing does. */
    method Answers(f: nat, yes: bool)
      requires Valid() && f < |flights| && flights[f].stage == Asking
      modifies this`flights
      ensures Valid() && View() == Next(old(View()), Fly(f, AppiumHubProtocol.Answers(yes)))
      ensures |flights| == old(|flights|)
      ensures var kind := old(flights[f].kind);
              flights[f] == old(flights[f]).(stage :=
                if yes then Reclaiming else if kind == Start then Spawning else Settling)
    {
      hide Inv;
      NextKeeps(View(), Fly(f, AppiumHubProtocol.Answers(yes)));
      var fl := flights[f];
      if yes {
        flights := flights[f := fl.(stage := Reclaiming)];
      } else if fl.kind == Start {
        flights := flights[f := fl.(stage := Spawning)];
      } else {
        flights := flights[f := fl.(stage := Settling)];
      }
    }

    /** reclaim: the hub that answers, when the record proves it a previous
        runner's: it is of this address, names a pid that lives, and the process
        of that pid started when the record says and runs our command. */
    method Reclaim(f: nat, command: bool)
      requires Valid() && f < |flights| && flights[f].stage == Reclaiming
      modifies this`flights, this`hubs
      ensures Valid() && View() == Next(old(View()), Fly(f, AppiumHubProtocol.Reclaim(command)))
      ensures |flights| == old(|flights|) && flights[f].stage == Settling && flights[f].err == old(flights[f].err)
      ensures flights[f].hub == if Proves(old(View()).w, command) then Some(old(|hubs|)) else old(flights[f].hub)
      ensures hubs == if Proves(old(View()).w, command) then old(hubs) + [HubProcess(record.value.start, false)]
                      else old(hubs)
    {
      hide Inv;
      NextKeeps(View(), Fly(f, AppiumHubProtocol.Reclaim(command)));
      var fl := flights[f].(stage := Settling);
      if record.Some? && record.value.here && record.value.pid > 1 {
        var p := record.value.start;
        if procs[p].pid == record.value.pid && procs[p].alive && command {
          fl := fl.(hub := Some(|hubs|));
          hubs := hubs + [HubProcess(p, false)];
        }
      }
      flights := flights[f := fl];
    }

    /** spawn: a process under the pid the system gives it, or an error. */
    method Spawn(f: nat, pid: Option<nat>)
      requires Valid() && f < |flights| && flights[f].stage == Spawning
      modifies this`flights, this`hubs, this`procs
      ensures Valid() && View() == Next(old(View()), Fly(f, AppiumHubProtocol.Spawn(pid)))
      ensures |flights| == old(|flights|)
      ensures flights[f] == if pid.Some? then old(flights[f]).(stage := Readying, hub := Some(old(|hubs|)))
                            else old(flights[f]).(stage := Settling, err := true)
    {
      hide Inv;
      NextKeeps(View(), Fly(f, AppiumHubProtocol.Spawn(pid)));
      if pid.None? {
        flights := flights[f := flights[f].(stage := Settling, err := true)];
        return;
      }
      flights := flights[f := flights[f].(stage := Readying, hub := Some(|hubs|))];
      hubs := hubs + [HubProcess(|procs|, false)];
      procs := procs + [Process(pid.value, Spawned, true, false)];
    }

    /** waitReady, and the stop of a hub that never answered. */
    method WaitReady(f: nat, answers: bool)
      requires Valid() && f < |flights| && flights[f].stage == Readying
      modifies this`flights, this`hubs, this`procs
      ensures Valid() && View() == Next(old(View()), Fly(f, Ready(answers)))
      ensures |flights| == old(|flights|)
      ensures flights[f] == if answers then old(flights[f]).(stage := Remembering)
                            else old(flights[f]).(stage := Settling, hub := None, err := true)
      ensures !answers ==> forall h :: 0 <= h < |hubs| ==> !procs[hubs[h].process].alive
    {
      hide Inv;
      ReadyingHub(View(), f);
      NextKeeps(View(), Fly(f, Ready(answers)));
      if answers {
        flights := flights[f := flights[f].(stage := Remembering)];
        return;
      }
      var h := flights[f].hub.value;
      var p := hubs[h].process;
      procs := procs[p := procs[p].(alive := false, stopped := true)];
      hubs := hubs[h := hubs[h].(done := true)];
      flights := flights[f := flights[f].(stage := Settling, hub := None, err := true)];
      NothingLives(View(), f);
    }

    /** remember */
    method Remember(f: nat, written: bool)
      requires Valid() && f < |flights| && flights[f].stage == Remembering
      modifies this`flights, this`record
      ensures Valid() && View() == Next(old(View()), Fly(f, AppiumHubProtocol.Remember(written)))
      ensures |flights| == old(|flights|) && flights[f] == old(flights[f]).(stage := Settling)
    {
      hide Inv;
      ReadyingHub(View(), f);
      NextKeeps(View(), Fly(f, AppiumHubProtocol.Remember(written)));
      if written {
        var p := hubs[flights[f].hub.value].process;
        record := Some(Record(procs[p].pid, p, true));
      }
      flights := flights[f := flights[f].(stage := Settling)];
    }

    /** start, and what resume does instead: a process of this runner's, an
        adopted hub (no process and no error), or an error with nothing left
        alive. */
    method BringUp(f: nat, yes: bool, command: bool, pid: Option<nat>, ready: bool, written: bool)
      requires Valid() && f < |flights| && flights[f].stage == Asking
      modifies this`flights, this`hubs, this`procs, this`record
      ensures Valid() && |flights| == old(|flights|) && flights[f].stage == Settling
      ensures flights[f].err <==> !yes && old(flights[f].kind) == Start && !(pid.Some? && ready)
      ensures flights[f].hub.Some? <==>
                if yes then Proves(old(View()).w, command) else old(flights[f].kind) == Start && pid.Some? && ready
      ensures flights[f].err ==> forall h :: 0 <= h < |hubs| ==> !procs[hubs[h].process].alive
    {
      AskingNothing(View(), f);
      hide Inv, Next;
      Answers(f, yes);
      if yes {
        Reclaim(f, command);
        return;
      }
      if flights[f].stage == Settling {
        return;
      }
      Spawn(f, pid);
      if pid.None? {
        NothingLives(View(), f);
        return;
      }
      WaitReady(f, ready);
      if !ready {
        return;
      }
      Remember(f, written);
    }

    /** settle's section, for the flight whose process and failure it is given. */
    method Settle(f: nat)
      requires Valid() && f < |flights| && flights[f].stage == Settling
      modifies this
      ensures Valid() && View() == Next(old(View()), Fly(f, AppiumHubProtocol.Settle))
    {
      hide WorldOk, CallersOk;
      NextKeeps(View(), Fly(f, AppiumHubProtocol.Settle));
      op := None;
      if flights[f].err {
        failedAt := Some(now);
      } else {
        proc, failedAt := flights[f].hub, None;
      }
      flights := flights[f := flights[f].(stage := Settled)];
    }

    /** resume's section: true when a flight looks for a hub to take back. */
    method Resume() returns (begun: bool)
      requires Valid()
      modifies this
      ensures Valid() && View() == Next(old(View()), ResumeHub)
      ensures begun <==> op != old(op)
      ensures begun <==> closer == Open && old(op).None? && proc.None?
    {
      NextKeeps(View(), ResumeHub);
      if closer != Open || op.Some? || proc.Some? {
        return false;
      }
      op := Some(|flights|);
      flights := flights + [Flight(AppiumHubProtocol.Resume, Asking, None, false, false)];
      lastUsed := now;
      begun := true;
    }

    /** stopIfIdle up to its first unlock: true when the idle stop is on. */
    method BeginIdleStop(h: nat) returns (begun: bool)
      requires Valid()
      modifies this
      ensures Valid() && View() == Next(old(View()), IdleCheck(h))
      ensures begun <==> View() != old(View())
      ensures begun <==> closer == Open && old(proc) == Some(h) && old(op).None? && inflight <= 0
                         && now >= lastUsed + 600_000
      ensures begun ==> inflight == 0 && old(proc) == Some(h) && forall c :: 0 <= c < |callers| ==> !callers[c].holds
    {
      NextKeeps(View(), IdleCheck(h));
      if closer != Open || proc != Some(h) || op.Some? || inflight > 0 || now < lastUsed + IDLE_AFTER {
        return false;
      }
      forall c | 0 <= c < |callers|
        ensures !callers[c].holds
      {
        NoHolders(callers, c);
      }
      op, proc := Some(|flights|), None;
      flights := flights + [Flight(IdleStop, Stopping, Some(h), false, false)];
      begun := true;
    }

    /** p.stop and forget: the process ends, and the record goes when it still
        names its pid. */
    method StopProcess(h: nat)
      requires InRange(View().w) && h < |hubs|
      modifies this`procs, this`hubs, this`record
      ensures View().w == Forgotten(Killed(old(View()).w, h), h)
    {
      var p := hubs[h].process;
      procs := procs[p := procs[p].(alive := false, stopped := true)];
      hubs := hubs[h := hubs[h].(done := true)];
      Forget(h);
    }

    method Forget(h: nat)
      requires h < |hubs| && hubs[h].process < |procs|
      modifies this`record
      ensures record == if old(record).Some? && old(record).value.pid == procs[hubs[h].process].pid then None
                        else old(record)
    {
      if record.Some? && record.value.pid == procs[hubs[h].process].pid {
        record := None;
      }
    }

    /** stopIfIdle between its sections and its second section. */
    method EndIdleStop(f: nat)
      requires Valid() && f < |flights| && flights[f].stage == Stopping
      modifies this
      ensures Valid() && InRange(Next(old(View()), Fly(f, Stop)).w)
      ensures View() == Next(Next(old(View()), Fly(f, Stop)), Fly(f, End))
      ensures op == None
    {
      hide Inv, Next;
      IdleStopped(View(), f);
      NextKeeps(View(), Fly(f, Stop));
      NextKeeps(Next(View(), Fly(f, Stop)), Fly(f, End));
      StopProcess(flights[f].hub.value);
      op := None;
      flights := flights[f := flights[f].(stage := Settled)];
    }

    /** exited: the end of a process is noticed. */
    method Exited(h: nat)
      requires Valid() && h < |hubs| && hubs[h].done
      modifies this
      ensures Valid()
      ensures View() == Next(Next(old(View()), Happens(AppiumHubProtocol.Exited(h))), Happens(ForgetExited(h)))
    {
      hide WorldOk, CallersOk;
      NextKeeps(View(), Happens(AppiumHubProtocol.Exited(h)));
      if proc == Some(h) {
        proc := None;
      }
      NextKeeps(View(), Happens(ForgetExited(h)));
      Forget(h);
    }

    /** close's first section: the flight it waits for. False when close was
        called before. */
    method BeginClose() returns (first: bool)
      requires Valid()
      modifies this
      ensures Valid() && View() == Next(old(View()), CloseBegin)
      ensures first ==> closer == Begun(old(op))
      ensures first <==> old(closer) == Open
    {
      hide WorldOk, CallersOk;
      NextKeeps(View(), CloseBegin);
      first := closer == Open;
      if first {
        closer := Begun(op);
      }
    }

    /** close once the flight it found has ended: no hub of this runner's is
        left. */
    method EndClose()
      requires Valid() && closer.Begun? && (closer.flight.Some? ==> flights[closer.flight.value].done)
      modifies this
      ensures Valid() && View() == Next(Next(old(View()), CloseTake), CloseKill)
      ensures closer == Shut && op == None && proc == None
      ensures old(proc).Some? && old(proc).value < |hubs| && record.Some? && hubs[old(proc).value].process < |procs| ==>
                record.value.pid != procs[hubs[old(proc).value].process].pid
      ensures forall h :: 0 <= h < |hubs| ==> !procs[hubs[h].process].alive
    {
      hide Inv, Next;
      NextKeeps(View(), CloseTake);
      NextKeeps(Next(View(), CloseTake), CloseKill);
      ClosedDown(View());
      var p := proc;
      proc := None;
      if p.Some? {
        StopProcess(p.value);
      }
      closer := Shut;
      ShutLeavesNone(View());
    }
  }
}
