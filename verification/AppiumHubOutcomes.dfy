// What comes of a call, a failure, a quiet time and a restart of the runner at
// the Appium hub, followed through the protocol's steps and told of the fields
// themselves.
module AppiumHubOutcomes {
  import opened Options
  import opened AppiumHubProtocol
  import opened AppiumHubSafety

  // --- a start and who waits for it ---------------------------------------------------

  /** A start's last moves, and one of its callers woken from it. */
  function SettleSteps(f: nat, c: nat): seq<Step> {
    [Fly(f, Settle)] + ([Fly(f, CloseDone)] + [Wake(c)])
  }

  /** A start that succeeded hands the hub to every caller that waits for it; one
      that failed refuses them all. */
  lemma StartAnswers(s: State, f: nat, c: nat)
    requires Inv(s) && f < |s.w.flights| && s.w.flights[f].kind == Start && s.w.flights[f].stage == Settling
    requires c < |s.callers| && s.callers[c].stage == Waiting(f)
    ensures var n, fl := Exec(s, SettleSteps(f, c)), s.w.flights[f];
            && c < |n.callers| && n.callers[c].stage == (if fl.err then Failed else Got)
            && n.callers[c].holds == s.callers[c].holds
            && n.w.op == None && n.w.closer == s.w.closer && n.w.procs == s.w.procs && n.w.hubs == s.w.hubs
            && n.w.proc == (if fl.err then s.w.proc else fl.hub)
            && n.w.failedAt == (if fl.err then Some(s.now) else None)
  {
    var fl := s.w.flights[f];
    var w1 := FlyStep(s.w, f, Settle, s.now);
    Settles(s.w, f, s.now);
    var w2 := WithFlight(w1, f, fl.(stage := Settled, done := true));
    hide Inv, FlyStep, Exec, Then;
    Flies(s, f, Settle);
    Flies(s.(w := w1), f, CloseDone);
    var t := s.(w := w2);
    ExecCons(s, Fly(f, Settle), [Fly(f, CloseDone)] + [Wake(c)]);
    ExecCons(s.(w := w1), Fly(f, CloseDone), [Wake(c)]);
    ExecCons(t, Wake(c), []);
    Awake(t, f, c, fl.err);
  }

  lemma Settles(w: World, f: nat, now: nat)
    requires InRange(w) && f < |w.flights| && w.flights[f].stage == Settling
    ensures var fl := w.flights[f];
            var n := w.(flights := w.flights[f := fl.(stage := Settled)], op := None,
                        proc := if fl.err then w.proc else fl.hub, failedAt := if fl.err then Some(now) else None);
            && FlyStep(w, f, Settle, now) == n && InRange(n)
            && FlyStep(n, f, CloseDone, now) == WithFlight(n, f, fl.(stage := Settled, done := true))
  {
  }

  lemma Awake(s: State, f: nat, c: nat, err: bool)
    requires Inv(s) && f < |s.w.flights| && s.w.flights[f].done && s.w.flights[f].kind == Start
    requires s.w.flights[f].err == err && c < |s.callers| && s.callers[c].stage == Waiting(f)
    ensures Then(s, Wake(c)) ==
            s.(callers := s.callers[c := s.callers[c].(stage := if err then Failed else Got)])
  {
    hide WorldOk, CallersOk;
  }

  /** A caller that waits for anything else asks again once that is over, and
      goes on waiting until then. */
  lemma OthersAskAgain(s: State, f: nat, c: nat)
    requires Inv(s) && f < |s.w.flights| && c < |s.callers| && s.callers[c].stage == Waiting(f)
    ensures !s.w.flights[f].done ==> Then(s, Wake(c)) == s
    ensures s.w.flights[f].done && s.w.flights[f].kind != Start ==>
              Then(s, Wake(c)) == s.(callers := s.callers[c := s.callers[c].(stage := Asked)])
  {
    hide WorldOk, CallersOk;
    assert s.callers[c := s.callers[c]] == s.callers;
  }

  // --- the cooldown ---------------------------------------------------------------------

  /** No flight from base on is a start, none in progress is, and the failure
      stands. */
  predicate Cooling(w: World, failedAt: nat, base: nat)
    requires InRange(w)
  {
    && w.failedAt == Some(failedAt) && base <= |w.flights|
    && (w.op.Some? ==> w.flights[w.op.value].kind == IdleStop)
    && forall g :: base <= g < |w.flights| ==> w.flights[g].kind == IdleStop
  }

  /** For as long as the cooldown of a failed start lasts, half a minute, no start
      begins, whoever asks and whatever else happens. */
  lemma {:induction false} FailureCools(s: State, steps: seq<Step>, failedAt: nat, base: nat)
    requires Inv(s) && Cooling(s.w, failedAt, base) && ResumeHub !in steps
    ensures var n := Exec(s, steps);
            n.now >= s.now && (n.now < failedAt + 30_000 ==> Cooling(n.w, failedAt, base))
    decreases steps
  {
    hide Inv, Cooling;
    if steps != [] {
      var t := Then(s, steps[0]);
      LaterThen(s, steps[0]);
      if t.now < failedAt + 30_000 {
        CoolStep(s, steps[0], failedAt, base);
        hide Then;
        FailureCools(t, steps[1..], failedAt, base);
      } else {
        hide Then;
        ExecLater(t, steps[1..]);
      }
    }
  }

  lemma LaterThen(s: State, step: Step)
    requires Inv(s)
    ensures Then(s, step).now >= s.now
  {
    hide Inv, FlyStep, EventStep, CloseTakeStep, CloseKillStep;
  }

  lemma {:induction false} ExecLater(s: State, steps: seq<Step>)
    requires Inv(s)
    ensures Exec(s, steps).now >= s.now
    decreases steps
  {
    hide Inv;
    if steps != [] {
      LaterThen(s, steps[0]);
      hide Then;
      ExecLater(Then(s, steps[0]), steps[1..]);
    }
  }

  lemma CoolStep(s: State, step: Step, failedAt: nat, base: nat)
    requires Inv(s) && Cooling(s.w, failedAt, base) && step != ResumeHub
    requires Then(s, step).now < failedAt + 30_000
    ensures Cooling(Then(s, step).w, failedAt, base)
  {
    LaterThen(s, step);
    assert WorldOk(s.w);
    hide Inv, WorldOk, InRange, Cooling, EnsureStep, IdleStep, FlyStep, EventStep, CloseTakeStep, CloseKillStep;
    match step
    case Fly(f, move) => if f < |s.w.flights| { CoolFlies(s.w, f, move, s.now, failedAt, base); }
    case Ensure(c) => if c < |s.callers| && s.callers[c].stage == Asked { CoolAsks(s, c, failedAt, base); }
    case IdleCheck(h) => CoolIdles(s, h, failedAt, base);
    case Happens(event) => CoolEvents(s.w, event, failedAt, base);
    case CloseBegin | CloseTake | CloseKill => CoolCloses(s, step, failedAt, base);
    case Hold | Wake(_) | GiveUp(_) | Release(_) | Tick =>
  }

  lemma CoolIdles(s: State, h: nat, failedAt: nat, base: nat)
    requires InRange(s.w) && Cooling(s.w, failedAt, base) && InRange(IdleStep(s, h).w)
    ensures Cooling(IdleStep(s, h).w, failedAt, base)
  {
  }

  lemma CoolEvents(w: World, event: Event, failedAt: nat, base: nat)
    requires InRange(w) && Cooling(w, failedAt, base) && InRange(EventStep(w, event))
    ensures Cooling(EventStep(w, event), failedAt, base)
  {
  }

  lemma CoolCloses(s: State, step: Step, failedAt: nat, base: nat)
    requires InRange(s.w) && Cooling(s.w, failedAt, base) && step in {CloseBegin, CloseTake, CloseKill}
    requires InRange(Next(s, step).w)
    ensures Cooling(Next(s, step).w, failedAt, base)
  {
  }

  lemma CoolAsks(s: State, c: nat, failedAt: nat, base: nat)
    requires InRange(s.w) && c < |s.callers| && Cooling(s.w, failedAt, base) && s.now < failedAt + 30_000
    ensures InRange(EnsureStep(s, c).w) && Cooling(EnsureStep(s, c).w, failedAt, base)
  {
  }

  lemma CoolFlies(w: World, f: nat, move: Move, now: nat, failedAt: nat, base: nat)
    requires WorldOk(w) && f < |w.flights| && Cooling(w, failedAt, base)
    ensures InRange(FlyStep(w, f, move, now)) && Cooling(FlyStep(w, f, move, now), failedAt, base)
  {
    hide LiveOk, DoneOk, OwnedOk, CloserOk;
  }

  /** That is what a failed start leaves from its last section on. */
  lemma FailureBegins(s: State, f: nat)
    requires Inv(s) && f < |s.w.flights| && s.w.flights[f].stage == Settling && s.w.flights[f].err
    ensures var n := Then(s, Fly(f, Settle));
            Cooling(n.w, s.now, |n.w.flights|) && n.w.op.None? && n.now == s.now
  {
    hide CallersOk, LiveOk, DoneOk, OwnedOk, CloserOk;
  }

  // --- use ---------------------------------------------------------------------------------

  /** No flight from base on is an idle stop. */
  predicate NoStops(w: World, base: nat) {
    base <= |w.flights| && forall g :: base <= g < |w.flights| ==> w.flights[g].kind != IdleStop
  }

  /** For ten minutes after it was used, by an ensure, the beginning or the end of
      a call, no idle stop of the hub begins. */
  lemma {:induction false} UsedHubStays(s: State, steps: seq<Step>, used: nat, base: nat)
    requires Inv(s) && s.lastUsed >= used && NoStops(s.w, base)
    ensures var n := Exec(s, steps);
            n.now >= s.now && (n.now < used + 600_000 ==> n.lastUsed >= used && NoStops(n.w, base))
    decreases steps
  {
    hide Inv, NoStops;
    if steps != [] {
      var t := Then(s, steps[0]);
      LaterThen(s, steps[0]);
      if t.now < used + 600_000 {
        UsedStep(s, steps[0], used, base);
        hide Then;
        UsedHubStays(t, steps[1..], used, base);
      } else {
        hide Then;
        ExecLater(t, steps[1..]);
      }
    }
  }

  lemma UsedStep(s: State, step: Step, used: nat, base: nat)
    requires Inv(s) && s.lastUsed >= used && NoStops(s.w, base) && Then(s, step).now < used + 600_000
    ensures Then(s, step).lastUsed >= used && NoStops(Then(s, step).w, base)
  {
    LaterThen(s, step);
    assert WorldOk(s.w) && s.lastUsed <= s.now;
    hide Inv, WorldOk, InRange, CallersOk, FlyStep, EventStep, CloseTakeStep, CloseKillStep, NoStops;
    match step
    case Fly(f, move) =>
      if f < |s.w.flights| {
        FlyKinds(s.w, f, move, s.now);
        SameKinds(s.w, FlyStep(s.w, f, move, s.now), base);
      }
    case Happens(event) =>
      EventFlights(s.w, event);
      SameKinds(s.w, EventStep(s.w, event), base);
    case Ensure(c) =>
      if c < |s.callers| && s.callers[c].stage == Asked {
        BegunNone(s.w, Flight(Kind.Start, Asking, None, false, false), base);
      }
    case ResumeHub => BegunNone(s.w, Flight(Kind.Resume, Asking, None, false, false), base);
    case CloseBegin | CloseTake | CloseKill =>
      CloseFlights(s.w);
      SameKinds(s.w, Then(s, step).w, base);
    case IdleCheck(_) | Hold | Wake(_) | GiveUp(_) | Release(_) | Tick =>
  }

  lemma SameKinds(w: World, n: World, base: nat)
    requires NoStops(w, base) && |n.flights| == |w.flights|
    requires forall g :: 0 <= g < |w.flights| ==> n.flights[g].kind == w.flights[g].kind
    ensures NoStops(n, base)
  {
  }

  lemma BegunNone(w: World, fl: Flight, base: nat)
    requires NoStops(w, base) && fl.kind != IdleStop
    ensures NoStops(Begin(w, fl), base)
  {
  }

  lemma EventFlights(w: World, event: Event)
    requires InRange(w)
    ensures EventStep(w, event).flights == w.flights
  {
  }

  lemma CloseFlights(w: World)
    requires InRange(w)
    ensures CloseTakeStep(w).flights == w.flights && CloseKillStep(w).flights == w.flights
  {
  }

  // --- an idle stop -----------------------------------------------------------------------

  /** A hub nobody holds and nobody used for ten minutes is stopped: its process
      ends, the hub has none, and the record no longer names it. */
  lemma IdleHubStops(s: State, h: nat)
    requires Inv(s) && s.w.closer == Open && s.w.proc == Some(h) && s.w.op.None? && s.inflight == 0
    requires s.now >= s.lastUsed + 600_000 && h < |s.w.hubs|
    ensures var f := |s.w.flights|;
            var n := Exec(s, [IdleCheck(h)] + ([Fly(f, Stop)] + ([Fly(f, End)] + [Fly(f, CloseDone)])));
            && n.w.proc == None && n.w.op == None && h < |n.w.hubs| && !Lives(n.w, h) && n.w.hubs[h].done
            && |n.w.flights| == f + 1 && n.w.flights[f].done && n.w.flights[f].kind == IdleStop
            && n.w.record != Some(RecordOf(s.w, h)) && n.callers == s.callers
  {
    var f := |s.w.flights|;
    var fl := Flight(IdleStop, Stopping, Some(h), false, false);
    var w0 := s.w.(proc := None, op := Some(f), flights := s.w.flights + [fl]);
    var w1 := Forgotten(Killed(s.w, h), h)
                .(proc := None, op := Some(f), flights := s.w.flights + [fl.(stage := Ending)]);
    var w2 := w1.(op := None, flights := s.w.flights + [fl.(stage := Settled)]);
    var w3 := w2.(flights := s.w.flights + [fl.(stage := Settled, done := true)]);
    Begins(s, h);
    IdleFlies(s.w, h, s.now);
    hide Inv, InRange, FlyStep, Exec, Then, Killed, Forgotten, Lives, RecordOf, Pid;
    var s0 := s.(w := w0);
    ExecCons(s, IdleCheck(h), [Fly(f, Stop)] + ([Fly(f, End)] + [Fly(f, CloseDone)]));
    Flies(s0, f, Stop);
    ExecCons(s0, Fly(f, Stop), [Fly(f, End)] + [Fly(f, CloseDone)]);
    Flies(s0.(w := w1), f, End);
    ExecCons(s0.(w := w1), Fly(f, End), [Fly(f, CloseDone)]);
    Flies(s0.(w := w2), f, CloseDone);
    ExecCons(s0.(w := w2), Fly(f, CloseDone), []);
  }

  lemma Begins(s: State, h: nat)
    requires Inv(s) && s.w.closer == Open && s.w.proc == Some(h) && s.w.op.None? && s.inflight == 0
    requires s.now >= s.lastUsed + 600_000
    ensures Then(s, IdleCheck(h)) ==
            s.(w := s.w.(proc := None, op := Some(|s.w.flights|),
                         flights := s.w.flights + [Flight(IdleStop, Stopping, Some(h), false, false)]))
  {
    hide WorldOk, CallersOk;
  }

  lemma IdleFlies(w: World, h: nat, now: nat)
    requires InRange(w) && h < |w.hubs|
    ensures var f, fl := |w.flights|, Flight(IdleStop, Stopping, Some(h), false, false);
            var w0 := w.(proc := None, op := Some(f), flights := w.flights + [fl]);
            var w1 := Forgotten(Killed(w, h), h)
                        .(proc := None, op := Some(f), flights := w.flights + [fl.(stage := Ending)]);
            var w2 := w1.(op := None, flights := w.flights + [fl.(stage := Settled)]);
            var w3 := w2.(flights := w.flights + [fl.(stage := Settled, done := true)]);
            && InRange(w0) && InRange(w1) && InRange(w2) && InRange(w3)
            && FlyStep(w0, f, Stop, now) == w1 && FlyStep(w1, f, End, now) == w2 && FlyStep(w2, f, CloseDone, now) == w3
            && h < |w3.hubs| && !Lives(w3, h) && w3.hubs[h].done && w3.record != Some(RecordOf(w, h))
  {
    var f, fl := |w.flights|, Flight(IdleStop, Stopping, Some(h), false, false);
    var w0 := w.(proc := None, op := Some(f), flights := w.flights + [fl]);
    var w1 := Forgotten(Killed(w, h), h)
                .(proc := None, op := Some(f), flights := w.flights + [fl.(stage := Ending)]);
    StopFlies(w, h, now);
    assert InRange(w1.(op := None, flights := w.flights + [fl.(stage := Settled)]));
    assert InRange(w1.(op := None, flights := w.flights + [fl.(stage := Settled, done := true)]));
    hide InRange, Forgotten, Killed, Lives, RecordOf, Pid;
    Replaced(w.flights, fl.(stage := Ending), fl.(stage := Settled));
    Replaced(w.flights, fl.(stage := Settled), fl.(stage := Settled, done := true));
    DeadStays(w1, w1.(op := None, flights := w.flights + [fl.(stage := Settled, done := true)]), h);
  }

  lemma DeadStays(w: World, n: World, h: nat)
    requires InRange(w) && InRange(n) && h < |w.hubs| && n.hubs == w.hubs && n.procs == w.procs
    ensures Lives(n, h) == Lives(w, h)
  {
  }

  lemma StopFlies(w: World, h: nat, now: nat)
    requires InRange(w) && h < |w.hubs|
    ensures var f, fl := |w.flights|, Flight(IdleStop, Stopping, Some(h), false, false);
            var w0 := w.(proc := None, op := Some(f), flights := w.flights + [fl]);
            var w1 := Forgotten(Killed(w, h), h)
                        .(proc := None, op := Some(f), flights := w.flights + [fl.(stage := Ending)]);
            && InRange(w0) && InRange(w1) && FlyStep(w0, f, Stop, now) == w1
            && h < |w1.hubs| && !Lives(w1, h) && w1.hubs[h].done && w1.record != Some(RecordOf(w, h))
  {
    var fl := Flight(IdleStop, Stopping, Some(h), false, false);
    Replaced(w.flights, fl, fl.(stage := Ending));
  }

  // --- a restart of the runner --------------------------------------------------------------

  /** How the next runner finds the processes: the one its predecessor's record
      names, and those of others. */
  function Found(procs: seq<Process>, p: nat): seq<Process> {
    seq(|procs|, q requires 0 <= q < |procs| =>
      procs[q].(origin := if q == p then Previous else Foreign, stopped := false))
  }

  /** What a runner wrote down of its living hub is what the next one, finding the
      hub answer, takes it back by: the same process is its current hub. */
  lemma TakenBack(w: World, g: nat)
    requires InRange(w) && g < |w.hubs| && Lives(w, g) && w.record == Some(RecordOf(w, g)) && Pid(w, g) > 1
    ensures var p := w.hubs[g].process; var s := Initial(Found(w.procs, p), w.record);
            && Fresh(Found(w.procs, p), w.record) && Inv(s)
            && var n := Exec(s, [ResumeHub] + ([Fly(0, Answers(true))] + ([Fly(0, Reclaim(true))] + [Fly(0, Settle)])));
               && n.w.proc == Some(0) && n.w.hubs == [HubProcess(p, false)] && p < |n.w.procs|
               && n.w.procs == Found(w.procs, p) && n.w.record == w.record && Lives(n.w, 0)
  {
    var p := w.hubs[g].process;
    var s := Initial(Found(w.procs, p), w.record);
    assert Fresh(Found(w.procs, p), w.record);
    InitialOk(Found(w.procs, p), w.record);
    var w0 := s.w.(op := Some(0), flights := [Flight(Kind.Resume, Asking, None, false, false)]);
    var w1 := s.w.(op := Some(0), flights := [Flight(Kind.Resume, Reclaiming, None, false, false)]);
    var w2 := s.w.(op := Some(0), hubs := [HubProcess(p, false)],
                   flights := [Flight(Kind.Resume, Settling, Some(0), false, false)]);
    var w3 := w2.(op := None, proc := Some(0), flights := [Flight(Kind.Resume, Settled, Some(0), false, false)]);
    Resumes(s);
    ReclaimFlies(s.w, p, s.now);
    hide Inv, InRange, FlyStep, Exec, Then, Found, Fresh;
    var s0 := s.(w := w0, lastUsed := s.now);
    ExecCons(s, ResumeHub, [Fly(0, Answers(true))] + ([Fly(0, Reclaim(true))] + [Fly(0, Settle)]));
    Flies(s0, 0, Answers(true));
    ExecCons(s0, Fly(0, Answers(true)), [Fly(0, Reclaim(true))] + [Fly(0, Settle)]);
    Flies(s0.(w := w1), 0, Reclaim(true));
    ExecCons(s0.(w := w1), Fly(0, Reclaim(true)), [Fly(0, Settle)]);
    Flies(s0.(w := w2), 0, Settle);
    ExecCons(s0.(w := w2), Fly(0, Settle), []);
  }

  lemma Resumes(s: State)
    requires Inv(s) && s.w.closer == Open && s.w.op.None? && s.w.proc.None? && s.w.flights == []
    ensures Then(s, ResumeHub) ==
            s.(w := s.w.(op := Some(0), flights := [Flight(Kind.Resume, Asking, None, false, false)]),
               lastUsed := s.now)
  {
    hide WorldOk, CallersOk;
  }

  lemma ReclaimFlies(w: World, p: nat, now: nat)
    requires InRange(w) && p < |w.procs| && w.procs[p].alive && w.procs[p].pid > 1 && w.flights == [] && w.hubs == []
    requires w.record == Some(Record(w.procs[p].pid, p, true)) && w.failedAt.None? && w.closer == Open
    ensures var w0 := w.(op := Some(0), flights := [Flight(Kind.Resume, Asking, None, false, false)]);
            var w1 := w.(op := Some(0), flights := [Flight(Kind.Resume, Reclaiming, None, false, false)]);
            var w2 := w.(op := Some(0), hubs := [HubProcess(p, false)],
                         flights := [Flight(Kind.Resume, Settling, Some(0), false, false)]);
            var w3 := w2.(op := None, proc := Some(0),
                          flights := [Flight(Kind.Resume, Settled, Some(0), false, false)]);
            && InRange(w0) && InRange(w1) && InRange(w2) && InRange(w3)
            && FlyStep(w0, 0, Answers(true), now) == w1 && FlyStep(w1, 0, Reclaim(true), now) == w2
            && FlyStep(w2, 0, Settle, now) == w3 && Lives(w3, 0)
  {
  }
}
