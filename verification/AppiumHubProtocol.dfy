// The on-demand Appium hub (desktop/runner/appium_hub.go) as a protocol. Every
// section under the hub's lock is one step; so are the things a start, an idle
// stop and a close do between their sections, and the moves of the world: a
// process dies, somebody else's hub appears, time passes. Stopping a process
// is taken to end it.
module AppiumHubProtocol {
  import opened Options

  const IDLE_AFTER: nat := 600_000
  const COOLDOWN: nat := 30_000

  /** Who started an operating-system process: this runner, a runner before it
      as the record found at the start proves, or anybody else. */
  datatype Origin = Spawned | Previous | Foreign

  /** A process's number is its place in the order in which processes started,
      which is what its start time tells; the system may give its pid again once
      it has ended. */
  datatype Process = Process(pid: nat, origin: Origin, alive: bool, stopped: bool)

  /** A process this runner owns; done once its end was noticed. */
  datatype HubProcess = HubProcess(process: nat, done: bool)

  /** What the record says: a pid, a start time, whether it is of a hub at this
      one's address. */
  datatype Record = Record(pid: nat, start: nat, here: bool)

  datatype Kind = Start | Resume | IdleStop

  datatype Stage =
    | Asking       // does anything answer?
    | Reclaiming   // does the record prove it was a previous runner's?
    | Spawning
    | Readying     // wait until the new hub answers
    | Remembering  // write the record
    | Settling
    | Stopping     // an idle stop ends the process
    | Ending       // an idle stop's last section
    | Settled

  datatype Flight = Flight(kind: Kind, stage: Stage, hub: Option<nat>, err: bool, done: bool)

  datatype CallerStage = Asked | Waiting(flight: nat) | Got | Failed

  /** A call that uses the hub: does it hold it, where its ensure stands, when
      it last used the hub. */
  datatype Caller = Caller(holds: bool, stage: CallerStage, at: nat)

  datatype Closer = Open | Begun(flight: Option<nat>) | Killing(hub: nat) | Shut

  /** The hub and the processes. */
  datatype World = World(
    procs: seq<Process>, hubs: seq<HubProcess>, flights: seq<Flight>,
    record: Option<Record>, proc: Option<nat>, op: Option<nat>, failedAt: Option<nat>, closer: Closer)

  datatype State = State(w: World, callers: seq<Caller>, inflight: int, lastUsed: nat, now: nat)

  /** What a flight does between its beginning and the close of its channel. */
  datatype Move =
    | Answers(yes: bool)
    | Reclaim(command: bool) // is its command line appium on our port?
    | Spawn(pid: Option<nat>)
    | Ready(answers: bool)
    | Remember(written: bool)
    | Settle
    | Stop
    | End
    | CloseDone

  /** What happens to processes. */
  datatype Event =
    | Dies(p: nat)
    | Appears(pid: nat)
    | Notice(h: nat)
    | Exited(h: nat)
    | ForgetExited(h: nat)

  datatype Step =
    | Hold
    | Ensure(c: nat)
    | Wake(c: nat)
    | GiveUp(c: nat)
    | Release(c: nat)
    | ResumeHub
    | IdleCheck(h: nat)
    | Fly(f: nat, move: Move)
    | Happens(event: Event)
    | Tick
    | CloseBegin
    | CloseTake
    | CloseKill

  predicate InRange(w: World) {
    && (forall h :: 0 <= h < |w.hubs| ==> w.hubs[h].process < |w.procs|)
    && (forall f :: 0 <= f < |w.flights| && w.flights[f].hub.Some? ==> w.flights[f].hub.value < |w.hubs|)
    && (w.record.Some? ==> w.record.value.start < |w.procs|)
    && (w.proc.Some? ==> w.proc.value < |w.hubs|)
    && (w.op.Some? ==> w.op.value < |w.flights|)
    && (w.closer.Killing? ==> w.closer.hub < |w.hubs|)
    && (w.closer.Begun? && w.closer.flight.Some? ==> w.closer.flight.value < |w.flights|)
  }

  predicate Closed(w: World) {
    w.closer != Open
  }

  /** p.stop: the process is ended, and noticed to be. */
  function Killed(w: World, h: nat): World
    requires InRange(w) && h < |w.hubs|
  {
    var p := w.hubs[h].process;
    w.(procs := w.procs[p := w.procs[p].(alive := false, stopped := true)],
       hubs := w.hubs[h := w.hubs[h].(done := true)])
  }

  /** A hub process's pid. */
  function Pid(w: World, h: nat): nat
    requires InRange(w) && h < |w.hubs|
  {
    w.procs[w.hubs[h].process].pid
  }

  /** What remember writes down of a hub process. */
  function RecordOf(w: World, h: nat): Record
    requires InRange(w) && h < |w.hubs|
  {
    Record(Pid(w, h), w.hubs[h].process, true)
  }

  /** The record proves the hub that answers a previous runner's: this address,
      a pid that lives and started when the record says, our command line. */
  predicate Proves(w: World, command: bool)
    requires InRange(w)
  {
    && w.record.Some? && w.record.value.here && w.record.value.pid > 1
    && Named(w) && w.procs[w.record.value.start].alive && command
  }

  /** The process that started when the record says has the pid it says. */
  predicate Named(w: World)
    requires InRange(w) && w.record.Some?
  {
    w.procs[w.record.value.start].pid == w.record.value.pid
  }

  /** forget: the record goes when it still names the process's pid, which is
      all that it compares. */
  function Forgotten(w: World, h: nat): World
    requires InRange(w) && h < |w.hubs|
  {
    if w.record.Some? && w.record.value.pid == Pid(w, h) then w.(record := None) else w
  }

  function WithFlight(w: World, f: nat, fl: Flight): World
    requires f < |w.flights|
  {
    w.(flights := w.flights[f := fl])
  }

  function Begin(w: World, fl: Flight): World {
    w.(op := Some(|w.flights|), flights := w.flights + [fl])
  }

  predicate Running(w: World)
    requires InRange(w)
  {
    w.proc.Some? && !w.hubs[w.proc.value].done
  }

  /** A start or an idle stop goes on. */
  function FlyStep(w: World, f: nat, move: Move, now: nat): World
    requires InRange(w) && f < |w.flights|
  {
    var fl := w.flights[f];
    match move
    case Answers(yes) =>
      if fl.stage != Asking then w
      else WithFlight(w, f, fl.(stage := if yes then Reclaiming else if fl.kind == Start then Spawning else Settling))
    case Reclaim(command) =>
      if fl.stage != Reclaiming then w
      else if Proves(w, command)
      then WithFlight(w, f, fl.(stage := Settling, hub := Some(|w.hubs|)))
             .(hubs := w.hubs + [HubProcess(w.record.value.start, false)])
      else WithFlight(w, f, fl.(stage := Settling))
    case Spawn(pid) =>
      if fl.stage != Spawning then w
      else if pid.Some?
      then WithFlight(w, f, fl.(stage := Readying, hub := Some(|w.hubs|)))
             .(hubs := w.hubs + [HubProcess(|w.procs|, false)],
               procs := w.procs + [Process(pid.value, Spawned, true, false)])
      else WithFlight(w, f, fl.(stage := Settling, err := true))
    case Ready(answers) =>
      if fl.stage != Readying || fl.hub.None? then w
      else if answers then WithFlight(w, f, fl.(stage := Remembering))
      else WithFlight(Killed(w, fl.hub.value), f, fl.(stage := Settling, hub := None, err := true))
    case Remember(written) =>
      if fl.stage != Remembering || fl.hub.None? then w
      else WithFlight(w, f, fl.(stage := Settling))
             .(record := if written then Some(RecordOf(w, fl.hub.value)) else w.record)
    case Settle =>
      if fl.stage != Settling then w
      else if fl.err then WithFlight(w, f, fl.(stage := Settled)).(op := None, failedAt := Some(now))
      else WithFlight(w, f, fl.(stage := Settled)).(op := None, proc := fl.hub, failedAt := None)
    case Stop =>
      if fl.stage != Stopping || fl.hub.None? then w
      else WithFlight(Forgotten(Killed(w, fl.hub.value), fl.hub.value), f, fl.(stage := Ending))
    case End => if fl.stage != Ending then w else WithFlight(w, f, fl.(stage := Settled)).(op := None)
    case CloseDone => if fl.stage == Settled then WithFlight(w, f, fl.(done := true)) else w
  }

  function EventStep(w: World, event: Event): World
    requires InRange(w)
  {
    match event
    case Dies(p) => if p < |w.procs| then w.(procs := w.procs[p := w.procs[p].(alive := false)]) else w
    case Appears(pid) => w.(procs := w.procs + [Process(pid, Foreign, true, false)])
    case Notice(h) =>
      if h < |w.hubs| && !w.procs[w.hubs[h].process].alive then w.(hubs := w.hubs[h := w.hubs[h].(done := true)]) else w
    case Exited(h) => if h < |w.hubs| && w.hubs[h].done && w.proc == Some(h) then w.(proc := None) else w
    case ForgetExited(h) => if h < |w.hubs| && w.hubs[h].done then Forgotten(w, h) else w
  }

  /** close's section after the flight it found has ended. */
  function CloseTakeStep(w: World): World
    requires InRange(w)
  {
    if !w.closer.Begun? || (w.closer.flight.Some? && !w.flights[w.closer.flight.value].done) then w
    else w.(proc := None, closer := if w.proc.Some? then Killing(w.proc.value) else Shut)
  }

  function CloseKillStep(w: World): World
    requires InRange(w)
  {
    if w.closer.Killing? then Forgotten(Killed(w, w.closer.hub), w.closer.hub).(closer := Shut) else w
  }

  /** What one pass of ensure's loop decides: the caller's stage, and whether it
      begins a start. */
  function EnsureOutcome(w: World, now: nat): (CallerStage, bool)
    requires InRange(w)
  {
    if Closed(w) then (Failed, false)
    else if w.op.Some? then (Waiting(w.op.value), false)
    else if Running(w) then (Got, false)
    else if w.failedAt.Some? && now < w.failedAt.value + COOLDOWN then (Failed, false)
    else (Waiting(|w.flights|), true)
  }

  function WithCaller(s: State, c: nat, r: Caller): State
    requires c < |s.callers|
  {
    s.(callers := s.callers[c := r])
  }

  function EnsureStep(s: State, c: nat): State
    requires InRange(s.w) && c < |s.callers|
  {
    var (stage, begins) := EnsureOutcome(s.w, s.now);
    WithCaller(s, c, s.callers[c].(stage := stage, at := s.now))
      .(lastUsed := s.now, w := if begins then Begin(s.w, Flight(Start, Asking, None, false, false)) else s.w)
  }

  /** The flight a caller waited on is over: a start's result is the caller's,
      after anything else it asks again. */
  function Woken(w: World, stage: CallerStage): CallerStage {
    if !stage.Waiting? || stage.flight >= |w.flights| || !w.flights[stage.flight].done then stage
    else if w.flights[stage.flight].kind != Start then Asked
    else if w.flights[stage.flight].err then Failed
    else Got
  }

  function IdleStep(s: State, h: nat): State
    requires InRange(s.w)
  {
    var w := s.w;
    if Closed(w) || w.proc != Some(h) || w.op.Some? || s.inflight > 0 || s.now < s.lastUsed + IDLE_AFTER then s
    else s.(w := Begin(w, Flight(IdleStop, Stopping, Some(h), false, false)).(proc := None))
  }

  function Next(s: State, step: Step): State
    requires InRange(s.w)
  {
    match step
    case Hold => s.(inflight := s.inflight + 1, lastUsed := s.now, callers := s.callers + [Caller(true, Asked, s.now)])
    case Ensure(c) => if c < |s.callers| && s.callers[c].stage == Asked then EnsureStep(s, c) else s
    case Wake(c) =>
      if c < |s.callers| then WithCaller(s, c, s.callers[c].(stage := Woken(s.w, s.callers[c].stage))) else s
    case GiveUp(c) =>
      if c < |s.callers| && s.callers[c].stage.Waiting? then WithCaller(s, c, s.callers[c].(stage := Failed)) else s
    case Release(c) =>
      if c < |s.callers| && s.callers[c].holds
      then WithCaller(s, c, s.callers[c].(holds := false, at := s.now)).(inflight := s.inflight - 1, lastUsed := s.now)
      else s
    case ResumeHub =>
      if Closed(s.w) || s.w.op.Some? || s.w.proc.Some? then s
      else s.(w := Begin(s.w, Flight(Resume, Asking, None, false, false)), lastUsed := s.now)
    case IdleCheck(h) => IdleStep(s, h)
    case Fly(f, move) => if f < |s.w.flights| then s.(w := FlyStep(s.w, f, move, s.now)) else s
    case Happens(event) => s.(w := EventStep(s.w, event))
    case Tick => s.(now := s.now + 1)
    case CloseBegin => if s.w.closer == Open then s.(w := s.w.(closer := Begun(s.w.op))) else s
    case CloseTake => s.(w := CloseTakeStep(s.w))
    case CloseKill => s.(w := CloseKillStep(s.w))
  }

  // --- what every step keeps ---------------------------------------------------------------

  /** A hub process whose operating-system process lives. */
  predicate Lives(w: World, h: nat)
    requires InRange(w) && h < |w.hubs|
  {
    w.procs[w.hubs[h].process].alive
  }

  /** Whose it is to see to a living hub: close's, the flight's in progress, or
      the registry's of the current one. */
  function Keeper(w: World): Option<nat>
    requires InRange(w)
  {
    if w.closer.Killing? then Some(w.closer.hub)
    else if w.op.Some? then w.flights[w.op.value].hub
    else w.proc
  }

  /** At most one hub process lives, and it has a keeper. */
  predicate LiveOk(w: World)
    requires InRange(w)
  {
    forall h :: 0 <= h < |w.hubs| && Lives(w, h) ==> Keeper(w) == Some(h)
  }

  predicate DoneOk(w: World)
    requires InRange(w)
  {
    forall h :: 0 <= h < |w.hubs| && w.hubs[h].done ==> !Lives(w, h)
  }

  /** What this runner owns, records or stops is never somebody else's. */
  predicate OwnedOk(w: World)
    requires InRange(w)
  {
    && (forall h :: 0 <= h < |w.hubs| ==> w.procs[w.hubs[h].process].origin != Foreign)
    && (forall p :: 0 <= p < |w.procs| && w.procs[p].stopped ==> w.procs[p].origin != Foreign)
    && (w.record.Some? && Named(w) ==> w.procs[w.record.value.start].origin != Foreign)
  }

  predicate FlightOk(fl: Flight)
    ensures FlightOk(fl) && fl.stage in {Readying, Remembering, Stopping, Ending} ==> fl.hub.Some?
    ensures FlightOk(fl) && fl.done ==> fl.stage == Settled
  {
    && (fl.stage in {Stopping, Ending} ==> fl.kind == IdleStop)
    && (fl.kind == IdleStop ==> fl.stage in {Stopping, Ending, Settled})
    && (fl.stage in {Asking, Reclaiming, Spawning} ==> fl.hub == None && !fl.err)
    && (fl.stage in {Readying, Remembering} ==> fl.hub.Some? && !fl.err)
    && (fl.stage == Settling && fl.err ==> fl.hub == None)
    && (fl.stage in {Stopping, Ending} ==> fl.hub.Some?)
    && (fl.done ==> fl.stage == Settled)
  }

  /** The flight in progress, and no other, is not settled. */
  predicate FlightsOk(w: World)
    requires InRange(w)
  {
    && (forall f :: 0 <= f < |w.flights| ==> FlightOk(w.flights[f]))
    && (forall f :: 0 <= f < |w.flights| ==> (w.flights[f].stage != Settled <==> w.op == Some(f)))
    && (w.op.Some? && w.flights[w.op.value].stage == Ending ==> !Lives(w, w.flights[w.op.value].hub.value))
  }

  predicate CloserOk(w: World) {
    && (w.closer.Begun? ==> w.op.None? || w.op == w.closer.flight)
    && (w.closer.Killing? || w.closer.Shut? ==> w.op.None? && w.proc.None?)
  }

  predicate WorldOk(w: World)
    ensures WorldOk(w) ==> InRange(w)
  {
    InRange(w) && LiveOk(w) && DoneOk(w) && OwnedOk(w) && FlightsOk(w) && CloserOk(w)
  }

  /** An idle stop is in progress. */
  predicate IdleStopping(w: World)
    requires InRange(w)
  {
    w.op.Some? && w.flights[w.op.value].kind == IdleStop
  }

  /** A caller that was handed the hub, or waits for a start. */
  predicate Served(flights: seq<Flight>, stage: CallerStage) {
    stage == Got || (stage.Waiting? && stage.flight < |flights| && flights[stage.flight].kind == Start)
  }

  ghost function Holders(callers: seq<Caller>): nat {
    if callers == [] then 0 else (if callers[0].holds then 1 else 0) + Holders(callers[1..])
  }

  predicate CallersOk(s: State)
    requires InRange(s.w)
  {
    && s.lastUsed <= s.now
    && (forall c :: 0 <= c < |s.callers| ==> s.callers[c].at <= s.lastUsed)
    && (forall c :: 0 <= c < |s.callers| && s.callers[c].stage.Waiting? ==> s.callers[c].stage.flight < |s.w.flights|)
    && (IdleStopping(s.w) ==>
          forall c :: 0 <= c < |s.callers| && s.callers[c].holds ==> !Served(s.w.flights, s.callers[c].stage))
  }

  ghost predicate Inv(s: State)
    ensures Inv(s) ==> InRange(s.w)
  {
    WorldOk(s.w) && CallersOk(s) && s.inflight == Holders(s.callers)
  }

  lemma {:induction false} HoldersUpdate(callers: seq<Caller>, c: nat, r: Caller)
    requires c < |callers|
    ensures Holders(callers[c := r]) == Holders(callers) - (if callers[c].holds then 1 else 0) +
            (if r.holds then 1 else 0)
  {
    if c == 0 {
      assert callers[c := r][1..] == callers[1..];
    } else {
      assert callers[c := r][1..] == callers[1..][c - 1 := r];
      HoldersUpdate(callers[1..], c - 1, r);
    }
  }

  lemma {:induction false} HoldersSnoc(callers: seq<Caller>, r: Caller)
    ensures Holders(callers + [r]) == Holders(callers) + (if r.holds then 1 else 0)
  {
    if callers == [] {
      assert (callers + [r])[1..] == [];
    } else {
      assert (callers + [r])[1..] == callers[1..] + [r];
      HoldersSnoc(callers[1..], r);
    }
  }

  lemma {:induction false} NoHolders(callers: seq<Caller>, c: nat)
    requires Holders(callers) == 0 && c < |callers|
    ensures !callers[c].holds
  {
    if c > 0 {
      NoHolders(callers[1..], c - 1);
    }
  }

  /** Steps of the callers that leave the hub as it is. */
  lemma CallerKeeps(s: State, c: nat, r: Caller, inflight: int, lastUsed: nat)
    requires Inv(s) && c < |s.callers| && s.lastUsed <= lastUsed <= s.now && r.at <= lastUsed
    requires inflight == s.inflight - (if s.callers[c].holds then 1 else 0) + (if r.holds then 1 else 0)
    requires r.stage.Waiting? ==> r.stage.flight < |s.w.flights|
    requires IdleStopping(s.w) && r.holds ==> !Served(s.w.flights, r.stage)
    ensures Inv(WithCaller(s, c, r).(inflight := inflight, lastUsed := lastUsed))
  {
    hide WorldOk, Served;
    HoldersUpdate(s.callers, c, r);
  }

  /** The callers do not mind a change of the world that begins no idle stop and
      leaves the kinds of flights alone. */
  lemma WorldKeeps(s: State, w: World)
    requires Inv(s) && WorldOk(w) && |s.w.flights| <= |w.flights|
    requires forall f :: 0 <= f < |s.w.flights| ==> w.flights[f].kind == s.w.flights[f].kind
    requires IdleStopping(w) ==> IdleStopping(s.w)
    ensures Inv(s.(w := w))
  {
    hide WorldOk;
  }

  lemma BeginKeeps(w: World, fl: Flight, w': World)
    requires WorldOk(w) && w.op.None? && !Closed(w) && FlightOk(fl) && fl.stage in {Asking, Stopping}
    requires w' == Begin(w, fl).(proc := w'.proc) && w'.proc in {w.proc, None}
    requires fl.hub.Some? ==> fl.hub == w.proc
    requires fl.hub.None? ==> w.proc.Some? ==> w.hubs[w.proc.value].done
    ensures WorldOk(w')
  {
    hide OwnedOk;
    assert OwnedOk(w') by { OwnedSame(w, w'); }
  }

  lemma OwnedSame(w: World, n: World)
    requires InRange(w) && InRange(n) && OwnedOk(w) && n.procs == w.procs && n.hubs == w.hubs
    requires n.record == w.record || n.record == None
    ensures OwnedOk(n)
  {
  }

  lemma EnsureKeeps(s: State, c: nat)
    requires Inv(s) && c < |s.callers|
    ensures Inv(EnsureStep(s, c))
  {
    hide LiveOk, DoneOk, OwnedOk, FlightsOk, Served;
    var (stage, begins) := EnsureOutcome(s.w, s.now);
    var fl := Flight(Start, Asking, None, false, false);
    var t := if begins then s.(w := Begin(s.w, fl)) else s;
    if begins {
      BeginKeeps(s.w, fl, t.w);
      WorldKeeps(s, t.w);
    }
    if IdleStopping(s.w) {
      ServedNew(s.w, stage);
    }
    CallerKeeps(t, c, t.callers[c].(stage := stage, at := s.now), s.inflight, s.now);
  }

  /** A caller is not handed the hub, nor told to wait for a start, while an
      idle stop is in progress. */
  lemma ServedNew(w: World, stage: CallerStage)
    requires InRange(w) && IdleStopping(w) && stage in {Failed, Waiting(w.op.value)}
    ensures !Served(w.flights, stage)
  {
  }

  lemma WakeKeeps(s: State, c: nat)
    requires Inv(s) && c < |s.callers|
    ensures Inv(WithCaller(s, c, s.callers[c].(stage := Woken(s.w, s.callers[c].stage))))
  {
    hide LiveOk, DoneOk, OwnedOk, CloserOk;
    CallerKeeps(s, c, s.callers[c].(stage := Woken(s.w, s.callers[c].stage)), s.inflight, s.lastUsed);
  }

  lemma HoldKeeps(s: State)
    requires Inv(s)
    ensures Inv(Next(s, Hold))
  {
    hide WorldOk;
    HoldersSnoc(s.callers, Caller(true, Asked, s.now));
  }

  lemma IdleKeeps(s: State, h: nat)
    requires Inv(s)
    ensures Inv(IdleStep(s, h))
  {
    hide LiveOk, DoneOk, OwnedOk, FlightsOk;
    var n := IdleStep(s, h);
    if n != s {
      var fl := Flight(IdleStop, Stopping, Some(h), false, false);
      BeginKeeps(s.w, fl, n.w);
      forall c | 0 <= c < |s.callers|
        ensures !s.callers[c].holds
      {
        NoHolders(s.callers, c);
      }
    }
  }

  lemma ResumeKeeps(s: State)
    requires Inv(s)
    ensures Inv(Next(s, ResumeHub))
  {
    hide LiveOk, DoneOk, OwnedOk, FlightsOk;
    if !Closed(s.w) && s.w.op.None? && s.w.proc.None? {
      var fl := Flight(Resume, Asking, None, false, false);
      var w := Begin(s.w, fl);
      BeginKeeps(s.w, fl, w);
      WorldKeeps(s, w);
      assert Next(s, ResumeHub) == s.(w := w, lastUsed := s.now);
    }
  }

  /** A flight that goes on leaves the rest alone. */
  lemma StageKeeps(w: World, f: nat, fl: Flight)
    requires WorldOk(w) && f < |w.flights| && FlightOk(fl)
    requires fl.hub == w.flights[f].hub && fl.stage != Ending
    requires fl.stage == Settled <==> w.flights[f].stage == Settled
    ensures WorldOk(WithFlight(w, f, fl))
  {
    hide FlightOk;
    var n := WithFlight(w, f, fl);
    assert OwnedOk(n) by { OwnedSame(w, n); }
  }

  lemma AnswersKeeps(w: World, f: nat, yes: bool, now: nat)
    requires WorldOk(w) && f < |w.flights|
    ensures WorldOk(FlyStep(w, f, Answers(yes), now))
  {
    hide LiveOk, DoneOk, OwnedOk, CloserOk;
    var fl := w.flights[f];
    if fl.stage == Asking {
      StageKeeps(w, f, fl.(stage := if yes then Reclaiming else if fl.kind == Start then Spawning else Settling));
    }
  }

  lemma ReclaimKeeps(w: World, f: nat, command: bool, now: nat)
    requires WorldOk(w) && f < |w.flights|
    ensures WorldOk(FlyStep(w, f, Reclaim(command), now))
  {
    var fl := w.flights[f];
    if fl.stage == Reclaiming {
      if !Proves(w, command) {
        hide LiveOk, DoneOk, OwnedOk, CloserOk;
        StageKeeps(w, f, fl.(stage := Settling));
      }
    }
  }

  lemma SpawnKeeps(w: World, f: nat, pid: Option<nat>, now: nat)
    requires WorldOk(w) && f < |w.flights|
    ensures WorldOk(FlyStep(w, f, Spawn(pid), now))
  {
    var fl := w.flights[f];
    if fl.stage == Spawning && pid.None? {
      hide LiveOk, DoneOk, OwnedOk, CloserOk;
      StageKeeps(w, f, fl.(stage := Settling, err := true));
    }
  }

  lemma ReadyKeeps(w: World, f: nat, answers: bool, now: nat)
    requires WorldOk(w) && f < |w.flights|
    ensures WorldOk(FlyStep(w, f, Ready(answers), now))
  {
    var fl := w.flights[f];
    if fl.stage == Readying && answers {
      hide LiveOk, DoneOk, OwnedOk, CloserOk;
      StageKeeps(w, f, fl.(stage := Remembering));
    }
  }

  lemma RememberKeeps(w: World, f: nat, written: bool, now: nat)
    requires WorldOk(w) && f < |w.flights|
    ensures WorldOk(FlyStep(w, f, Remember(written), now))
  {
    hide LiveOk, DoneOk, CloserOk;
    var fl := w.flights[f];
    if fl.stage == Remembering {
      var n := WithFlight(w, f, fl.(stage := Settling));
      StageKeeps(w, f, fl.(stage := Settling));
      if written {
        RecordKeeps(n, RecordOf(w, fl.hub.value));
      }
    }
  }

  lemma RecordKeeps(w: World, record: Record)
    requires WorldOk(w) && record.start < |w.procs| && w.procs[record.start].origin != Foreign
    ensures WorldOk(w.(record := Some(record)))
  {
  }

  lemma SettledFlight(fl: Flight)
    requires FlightOk(fl) && fl.stage == Settling
    ensures FlightOk(fl.(stage := Settled)) && (fl.err ==> fl.hub == None)
  {
  }

  lemma SettleKeeps(w: World, f: nat, now: nat)
    requires WorldOk(w) && f < |w.flights|
    ensures WorldOk(FlyStep(w, f, Settle, now))
  {
    hide OwnedOk, FlightOk;
    var fl := w.flights[f];
    var n := FlyStep(w, f, Settle, now);
    assert OwnedOk(n) by { OwnedSame(w, n); }
    if fl.stage == Settling {
      SettledFlight(fl);
    }
  }

  lemma KilledOwned(w: World, h: nat)
    requires InRange(w) && DoneOk(w) && OwnedOk(w) && h < |w.hubs|
    ensures var n := Forgotten(Killed(w, h), h); InRange(n) && OwnedOk(n) && DoneOk(n)
  {
  }

  lemma KilledLives(w: World, h: nat)
    requires InRange(w) && h < |w.hubs|
    ensures var n := Forgotten(Killed(w, h), h);
            && InRange(n) && |n.hubs| == |w.hubs| && !Lives(n, h) && !Lives(Killed(w, h), h)
            && (forall g :: 0 <= g < |w.hubs| && Lives(n, g) ==> Lives(w, g))
            && n.flights == w.flights && n.op == w.op && n.proc == w.proc && n.closer == w.closer
  {
  }

  /** A hub process that is ended by its keeper. */
  lemma KilledKeeps(w: World, h: nat)
    requires WorldOk(w) && h < |w.hubs|
    ensures WorldOk(Forgotten(Killed(w, h), h)) && !Lives(Killed(w, h), h)
  {
    KilledOwned(w, h);
    KilledLives(w, h);
    hide Forgotten, Killed, Lives, OwnedOk, DoneOk, FlightOk;
  }

  lemma StopKeeps(w: World, f: nat, now: nat)
    requires WorldOk(w) && f < |w.flights|
    ensures WorldOk(FlyStep(w, f, Stop, now))
  {
    hide DoneOk, CloserOk, OwnedOk;
    var fl := w.flights[f];
    if fl.stage == Stopping {
      var n := Forgotten(Killed(w, fl.hub.value), fl.hub.value);
      KilledKeeps(w, fl.hub.value);
      EndingKeeps(n, f, fl.(stage := Ending));
    }
  }

  lemma EndingKeeps(w: World, f: nat, fl: Flight)
    requires WorldOk(w) && f < |w.flights| && FlightOk(fl) && w.flights[f].stage == Stopping
    requires fl.hub == w.flights[f].hub && fl.stage == Ending && !Lives(w, fl.hub.value)
    ensures WorldOk(WithFlight(w, f, fl))
  {
    hide FlightOk;
    var n := WithFlight(w, f, fl);
    assert OwnedOk(n) by { OwnedSame(w, n); }
  }

  lemma EndKeeps(w: World, f: nat, now: nat)
    requires WorldOk(w) && f < |w.flights|
    ensures WorldOk(FlyStep(w, f, End, now))
  {
    hide OwnedOk;
    var n := FlyStep(w, f, End, now);
    assert OwnedOk(n) by { OwnedSame(w, n); }
  }

  lemma CloseDoneKeeps(w: World, f: nat, now: nat)
    requires WorldOk(w) && f < |w.flights|
    ensures WorldOk(FlyStep(w, f, CloseDone, now))
  {
    hide LiveOk, DoneOk, OwnedOk, CloserOk;
    var fl := w.flights[f];
    if fl.stage == Settled {
      StageKeeps(w, f, fl.(done := true));
    }
  }

  lemma FlyKeeps(s: State, f: nat, move: Move)
    requires Inv(s) && f < |s.w.flights|
    ensures Inv(s.(w := FlyStep(s.w, f, move, s.now)))
  {
    var w := FlyStep(s.w, f, move, s.now);
    assert WorldOk(w) by {
      hide FlyStep, LiveOk, DoneOk, OwnedOk, FlightsOk, CloserOk;
      match move
      case Answers(yes) => AnswersKeeps(s.w, f, yes, s.now);
      case Reclaim(command) => ReclaimKeeps(s.w, f, command, s.now);
      case Spawn(pid) => SpawnKeeps(s.w, f, pid, s.now);
      case Ready(answers) => ReadyKeeps(s.w, f, answers, s.now);
      case Remember(written) => RememberKeeps(s.w, f, written, s.now);
      case Settle => SettleKeeps(s.w, f, s.now);
      case Stop => StopKeeps(s.w, f, s.now);
      case End => EndKeeps(s.w, f, s.now);
      case CloseDone => CloseDoneKeeps(s.w, f, s.now);
    }
    FlyKinds(s.w, f, move, s.now);
    hide FlyStep, WorldOk;
    WorldKeeps(s, w);
  }

  /** A flight keeps its kind, no move of one begins another, and no move gives
      a settled one up to be done before it is. */
  lemma FlyKinds(w: World, f: nat, move: Move, now: nat)
    requires WorldOk(w) && f < |w.flights|
    ensures var n := FlyStep(w, f, move, now);
            && |n.flights| == |w.flights| && n.op in {w.op, None} && n.closer == w.closer
            && (forall g :: 0 <= g < |w.flights| ==> n.flights[g].kind == w.flights[g].kind)
  {
    hide LiveOk, DoneOk, OwnedOk, CloserOk;
  }

  lemma EventKeeps(s: State, event: Event)
    requires Inv(s)
    ensures Inv(s.(w := EventStep(s.w, event)))
  {
    var w := EventStep(s.w, event);
    EventWorld(s.w, event);
    hide WorldOk;
    WorldKeeps(s, w);
  }

  lemma EventWorld(w: World, event: Event)
    requires WorldOk(w)
    ensures WorldOk(EventStep(w, event))
  {
    hide FlightOk;
    var n := EventStep(w, event);
    match event
    case Dies(p) =>
      assert forall h :: 0 <= h < |w.hubs| && Lives(n, h) ==> Lives(w, h);
    case Appears(pid) =>
      assert forall h :: 0 <= h < |w.hubs| ==> Lives(n, h) == Lives(w, h);
    case Notice(h) =>
      assert forall h :: 0 <= h < |w.hubs| ==> Lives(n, h) == Lives(w, h);
    case Exited(h) =>
      assert forall h :: 0 <= h < |w.hubs| ==> Lives(n, h) == Lives(w, h);
    case ForgetExited(h) =>
      assert forall h :: 0 <= h < |w.hubs| ==> Lives(n, h) == Lives(w, h);
  }

  lemma CloseKeeps(s: State, step: Step)
    requires Inv(s) && step in {CloseBegin, CloseTake, CloseKill}
    ensures Inv(Next(s, step))
  {
    var n := Next(s, step);
    assert WorldOk(n.w) by {
      if step == CloseBegin {
        if s.w.closer == Open {
          CloseBeginWorld(s.w);
        }
      } else if step == CloseTake {
        CloseTakeWorld(s.w);
      } else {
        CloseKillWorld(s.w);
      }
    }
    hide WorldOk;
    WorldKeeps(s, n.w);
  }

  lemma CloseBeginWorld(w: World)
    requires WorldOk(w) && w.closer == Open
    ensures WorldOk(w.(closer := Begun(w.op)))
  {
    hide FlightOk, OwnedOk;
    assert OwnedOk(w.(closer := Begun(w.op))) by { OwnedSame(w, w.(closer := Begun(w.op))); }
  }

  lemma CloseTakeWorld(w: World)
    requires WorldOk(w)
    ensures WorldOk(CloseTakeStep(w))
  {
    hide FlightOk, OwnedOk;
    assert OwnedOk(CloseTakeStep(w)) by { OwnedSame(w, CloseTakeStep(w)); }
  }

  lemma CloseKillWorld(w: World)
    requires WorldOk(w)
    ensures WorldOk(CloseKillStep(w))
  {
    hide FlightOk, OwnedOk;
    if w.closer.Killing? {
      var n := Forgotten(Killed(w, w.closer.hub), w.closer.hub);
      KilledKeeps(w, w.closer.hub);
      assert OwnedOk(CloseKillStep(w)) by { OwnedSame(n, CloseKillStep(w)); }
    }
  }

  /** Every step of every caller, of the hub and of the world keeps it. */
  lemma NextKeeps(s: State, step: Step)
    requires Inv(s)
    ensures Inv(Next(s, step))
  {
    hide WorldOk, IdleStep, EnsureStep, FlyStep, EventStep, CloseTakeStep, CloseKillStep;
    match step
    case Hold => HoldKeeps(s);
    case Ensure(c) => if c < |s.callers| { EnsureKeeps(s, c); }
    case Wake(c) => if c < |s.callers| { WakeKeeps(s, c); }
    case GiveUp(c) =>
      if c < |s.callers| {
        CallerKeeps(s, c, s.callers[c].(stage := Failed), s.inflight, s.lastUsed);
      }
    case Release(c) =>
      if c < |s.callers| && s.callers[c].holds {
        CallerKeeps(s, c, s.callers[c].(holds := false, at := s.now), s.inflight - 1, s.now);
      }
    case ResumeHub => ResumeKeeps(s);
    case IdleCheck(h) => IdleKeeps(s, h);
    case Fly(f, move) => if f < |s.w.flights| { FlyKeeps(s, f, move); }
    case Happens(event) => EventKeeps(s, event);
    case Tick =>
    case CloseBegin => CloseKeeps(s, step);
    case CloseTake => CloseKeeps(s, step);
    case CloseKill => CloseKeeps(s, step);
  }

  /** An idle stop always has a process to stop. */
  lemma StopsSomething(w: World, f: nat)
    requires WorldOk(w) && f < |w.flights| && w.flights[f].stage == Stopping
    ensures w.flights[f].hub.Some? && w.flights[f].hub.value < |w.hubs| && w.op == Some(f)
  {
  }

  /** After close no hub process is left. */
  lemma NoneLives(w: World)
    requires WorldOk(w) && w.closer.Shut?
    ensures forall h :: 0 <= h < |w.hubs| ==> !w.procs[w.hubs[h].process].alive
    ensures w.op == None && w.proc == None
  {
    forall h | 0 <= h < |w.hubs|
      ensures !w.procs[w.hubs[h].process].alive
    {
      assert !Lives(w, h);
    }
  }
}
