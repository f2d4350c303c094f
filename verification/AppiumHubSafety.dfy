// What the on-demand Appium hub promises over every run: any number of callers,
// of starts, idle stops and deaths, in any order.
module AppiumHubSafety {
  import opened Options
  import opened AppiumHubProtocol

  ghost function Then(s: State, step: Step): (n: State)
    requires Inv(s)
    ensures Inv(n)
  {
    NextKeeps(s, step);
    Next(s, step)
  }

  ghost function Exec(s: State, steps: seq<Step>): State
    requires Inv(s)
    ensures Inv(Exec(s, steps))
    decreases steps
  {
    if steps == [] then s else Exec(Then(s, steps[0]), steps[1..])
  }

  /** A new runner finds the processes of others, and perhaps a record, which is
      all that tells a previous runner's hub from anybody else's. */
  predicate Fresh(procs: seq<Process>, record: Option<Record>) {
    && (forall p :: 0 <= p < |procs| ==> procs[p].origin != Spawned && !procs[p].stopped)
    && (record.Some? ==> record.value.start < |procs|)
    && (forall p :: 0 <= p < |procs| ==>
          (procs[p].origin == Previous <==>
             record.Some? && record.value.start == p && record.value.pid == procs[p].pid))
  }

  function Initial(procs: seq<Process>, record: Option<Record>): State {
    State(World(procs, [], [], record, None, None, None, Open), [], 0, 0, 0)
  }

  lemma InitialOk(procs: seq<Process>, record: Option<Record>)
    requires Fresh(procs, record)
    ensures Inv(Initial(procs, record)) && AllKnown(Initial(procs, record).w)
  {
  }

  /** A process that runs on this runner's account: one it spawned, or one it
      took back. */
  ghost predicate Owned(w: World, p: nat)
    requires p < |w.procs|
  {
    w.procs[p].origin == Spawned || exists h :: 0 <= h < |w.hubs| && w.hubs[h].process == p
  }

  /** Nothing this runner spawned is lost sight of. */
  ghost predicate AllKnown(w: World) {
    forall p :: 0 <= p < |w.procs| && w.procs[p].origin == Spawned ==>
        exists h :: 0 <= h < |w.hubs| && w.hubs[h].process == p
  }

  lemma KnownStep(s: State, step: Step)
    requires Inv(s) && AllKnown(s.w)
    ensures AllKnown(Then(s, step).w)
  {
    hide Inv, Then;
    var w, n := s.w, Then(s, step).w;
    Grows(s, step);
    forall p | 0 <= p < |n.procs| && n.procs[p].origin == Spawned
      ensures exists h :: 0 <= h < |n.hubs| && n.hubs[h].process == p
    {
      if p < |w.procs| {
        assert w.procs[p].origin == Spawned;
        var h :| 0 <= h < |w.hubs| && w.hubs[h].process == p;
        assert n.hubs[h].process == p;
      } else {
        assert n.hubs[|w.hubs|].process == p;
      }
    }
  }

  /** Processes keep their origin and hubs their process. */
  lemma Grows(s: State, step: Step)
    requires Inv(s)
    ensures var w, n := s.w, Then(s, step).w;
            && |w.procs| <= |n.procs| && |w.hubs| <= |n.hubs|
            && (forall p :: 0 <= p < |w.procs| ==> n.procs[p].origin == w.procs[p].origin)
            && (forall h :: 0 <= h < |w.hubs| ==> n.hubs[h].process == w.hubs[h].process)
            && (forall p :: |w.procs| <= p < |n.procs| && n.procs[p].origin == Spawned ==>
                  |w.hubs| < |n.hubs| && n.hubs[|w.hubs|].process == p)
  {
    hide CallersOk, LiveOk, DoneOk, OwnedOk, CloserOk, FlightsOk;
    match step
    case Fly(f, move) =>
      if f < |s.w.flights| {
        FlyGrows(s.w, f, move, s.now);
      }
    case _ =>
      hide FlyStep;
  }

  lemma FlyGrows(w: World, f: nat, move: Move, now: nat)
    requires InRange(w) && f < |w.flights|
    ensures var n := FlyStep(w, f, move, now);
            && |w.procs| <= |n.procs| && |w.hubs| <= |n.hubs|
            && (forall p :: 0 <= p < |w.procs| ==> n.procs[p].origin == w.procs[p].origin)
            && (forall h :: 0 <= h < |w.hubs| ==> n.hubs[h].process == w.hubs[h].process)
            && (forall p :: |w.procs| <= p < |n.procs| && n.procs[p].origin == Spawned ==>
                  |w.hubs| < |n.hubs| && n.hubs[|w.hubs|].process == p)
  {
  }

  lemma {:induction false} ExecKnown(s: State, steps: seq<Step>)
    requires Inv(s) && AllKnown(s.w)
    ensures AllKnown(Exec(s, steps).w)
    decreases steps
  {
    hide AllKnown, WorldOk, CallersOk;
    if steps != [] {
      KnownStep(s, steps[0]);
      ExecKnown(Then(s, steps[0]), steps[1..]);
    }
  }

  predicate Unsettled(w: World, f: nat) {
    f < |w.flights| && w.flights[f].stage != Settled
  }

  ghost predicate OneFlight(w: World) {
    forall f, g :: Unsettled(w, f) && Unsettled(w, g) ==> f == g
  }

  ghost predicate LivesOwned(w: World, p: nat) {
    p < |w.procs| && w.procs[p].alive && Owned(w, p)
  }

  ghost predicate OneHub(w: World) {
    forall p, q :: LivesOwned(w, p) && LivesOwned(w, q) ==> p == q
  }

  /** Stop was applied to nothing but what this runner spawned or the record
      proves a previous runner's. */
  predicate SparesOthers(w: World) {
    forall p :: 0 <= p < |w.procs| && w.procs[p].stopped ==> w.procs[p].origin != Foreign
  }

  /** From any fresh start and after any steps: one flight at most is in
      progress, one owned process at most is alive, and stop was never applied
      to somebody else's process, an adopted hub among them. */
  lemma Safety(procs: seq<Process>, record: Option<Record>, steps: seq<Step>)
    requires Fresh(procs, record)
    ensures Inv(Initial(procs, record))
    ensures var w := Exec(Initial(procs, record), steps).w; OneFlight(w) && OneHub(w) && SparesOthers(w)
  {
    var s := Initial(procs, record);
    InitialOk(procs, record);
    ExecKnown(s, steps);
    OwnedOnce(Exec(s, steps));
  }

  lemma OwnedOnce(s: State)
    requires Inv(s) && AllKnown(s.w)
    ensures OneFlight(s.w) && OneHub(s.w) && SparesOthers(s.w)
  {
    hide CallersOk;
    var w := s.w;
    assert OneFlight(w) by {
      hide OwnedOk, LiveOk, DoneOk, CloserOk, FlightOk;
    }
    forall p, q | LivesOwned(w, p) && LivesOwned(w, q)
      ensures p == q
    {
      hide FlightsOk, OwnedOk, DoneOk, CloserOk, Keeper;
      var h :| 0 <= h < |w.hubs| && w.hubs[h].process == p;
      var g :| 0 <= g < |w.hubs| && w.hubs[g].process == q;
      assert Lives(w, h) && Lives(w, g);
    }
  }

  /** The end of one hub process, noticed however late, never takes a living
      one's place. It takes the living one's record if and only if the system
      gave the dead one's pid again: forget compares nothing else. */
  lemma LateExit(s: State, h: nat, g: nat)
    requires Inv(s) && g < |s.w.hubs| && Lives(s.w, g)
    ensures s.w.proc == Some(g) ==> Then(s, Happens(Exited(h))).w.proc == Some(g)
    ensures s.w.record == Some(RecordOf(s.w, g)) ==>
              (Then(s, Happens(ForgetExited(h))).w.record != s.w.record <==>
                 h < |s.w.hubs| && s.w.hubs[h].done && Pid(s.w, h) == Pid(s.w, g))
  {
    hide CallersOk, LiveOk, OwnedOk, FlightsOk, CloserOk;
  }

  /** A call's steps through the whole of the start it begins. */
  function StartSteps(c: nat, f: nat, pid: nat): seq<Step> {
    [Hold] + ([Ensure(c)] + ([Fly(f, Answers(false))] + ([Fly(f, Spawn(Some(pid)))]
    + ([Fly(f, Ready(true))] + ([Fly(f, Remember(true))] + [Fly(f, Settle)])))))
  }

  /** The world while that start goes on, before and after its spawn. */
  function Starting(w: World, stage: Stage): World {
    w.(flights := w.flights + [Flight(Kind.Start, stage, None, false, false)], op := Some(|w.flights|))
  }

  function Raised(w: World, pid: nat, stage: Stage): World {
    w.(procs := w.procs + [Process(pid, Spawned, true, false)], hubs := w.hubs + [HubProcess(|w.procs|, false)],
       flights := w.flights + [Flight(Kind.Start, stage, Some(|w.hubs|), false, false)], op := Some(|w.flights|))
  }

  function Started(w: World, pid: nat): World {
    Raised(w, pid, Settled).(record := Some(Record(pid, |w.procs|, true)), proc := Some(|w.hubs|), op := None)
  }

  /** The caller that began it, while it waits. */
  function Waits(s: State): State {
    s.(callers := s.callers + [Caller(true, Waiting(|s.w.flights|), s.now)],
       inflight := s.inflight + 1, lastUsed := s.now)
  }

  predicate Startable(s: State)
    requires InRange(s.w)
  {
    !Closed(s.w) && s.w.op.None? && !Running(s.w) && s.w.failedAt.None?
  }

  lemma Replaced<T>(a: seq<T>, x: T, y: T)
    ensures (a + [x])[|a| := y] == a + [y]
  {
  }

  lemma SpawnsFor(w: World, pid: nat, now: nat)
    requires InRange(w)
    ensures InRange(Starting(w, Asking)) && InRange(Starting(w, Spawning))
    ensures FlyStep(Starting(w, Asking), |w.flights|, Answers(false), now) == Starting(w, Spawning)
    ensures FlyStep(Starting(w, Spawning), |w.flights|, Spawn(Some(pid)), now) == Raised(w, pid, Readying)
  {
    var f := Flight(Kind.Start, Spawning, None, false, false);
    Replaced(w.flights, f.(stage := Asking), f);
    Replaced(w.flights, f, Flight(Kind.Start, Readying, Some(|w.hubs|), false, false));
  }

  lemma SettlesFor(w: World, pid: nat, now: nat)
    requires InRange(w) && w.failedAt.None?
    ensures InRange(Raised(w, pid, Readying)) && InRange(Raised(w, pid, Remembering))
    ensures FlyStep(Raised(w, pid, Readying), |w.flights|, Ready(true), now) == Raised(w, pid, Remembering)
    ensures var r := Raised(w, pid, Settling).(record := Some(Record(pid, |w.procs|, true)));
            && FlyStep(Raised(w, pid, Remembering), |w.flights|, Remember(true), now) == r && InRange(r)
            && FlyStep(r, |w.flights|, Settle, now) == Started(w, pid)
  {
    var f := Flight(Kind.Start, Readying, Some(|w.hubs|), false, false);
    assert FlyStep(Raised(w, pid, Readying), |w.flights|, Ready(true), now) == Raised(w, pid, Remembering) by {
      Replaced(w.flights, f, f.(stage := Remembering));
    }
    hide InRange;
    Replaced(w.flights, f.(stage := Remembering), f.(stage := Settling));
    Replaced(w.flights, f.(stage := Settling), f.(stage := Settled));
  }

  lemma Asks(s: State)
    requires Inv(s) && Startable(s)
    ensures InRange(Then(s, Hold).w)
    ensures Then(Then(s, Hold), Ensure(|s.callers|)) == Waits(s).(w := Starting(s.w, Asking))
  {
    hide WorldOk, CallersOk, FlyStep, EventStep;
    Replaced(s.callers, Caller(true, Asked, s.now), Caller(true, Waiting(|s.w.flights|), s.now));
  }

  lemma Flies(s: State, f: nat, move: Move)
    requires Inv(s) && f < |s.w.flights|
    ensures Then(s, Fly(f, move)) == s.(w := FlyStep(s.w, f, move, s.now))
  {
    hide Inv, FlyStep;
  }

  lemma ExecCons(s: State, step: Step, steps: seq<Step>)
    requires Inv(s)
    ensures Exec(s, [step] + steps) == Exec(Then(s, step), steps)
    ensures Exec(s, [step]) == Then(s, step)
  {
    hide Inv, Then;
    assert ([step] + steps)[1..] == steps;
    assert Exec(Then(s, step), [step][1..]) == Then(s, step);
  }

  lemma StartRuns(s: State, pid: nat)
    requires Inv(s) && Startable(s)
    ensures Exec(s, StartSteps(|s.callers|, |s.w.flights|, pid)) == Waits(s).(w := Started(s.w, pid))
  {
    var f, c := |s.w.flights|, |s.callers|;
    Asks(s);
    SpawnsFor(s.w, pid, s.now);
    SettlesFor(s.w, pid, s.now);
    hide Inv, Then, FlyStep, Startable, InRange;
    var late := [Fly(f, Ready(true))] + ([Fly(f, Remember(true))] + [Fly(f, Settle)]);
    var mid := [Fly(f, Answers(false))] + ([Fly(f, Spawn(Some(pid)))] + late);
    ExecCons(s, Hold, [Ensure(c)] + mid);
    ExecCons(Then(s, Hold), Ensure(c), mid);
    var t := Waits(s).(w := Starting(s.w, Asking));
    assert Inv(t);
    Flies(t, f, Answers(false));
    ExecCons(t, Fly(f, Answers(false)), [Fly(f, Spawn(Some(pid)))] + late);
    t := t.(w := Starting(s.w, Spawning));
    Flies(t, f, Spawn(Some(pid)));
    ExecCons(t, Fly(f, Spawn(Some(pid))), late);
    t := t.(w := Raised(s.w, pid, Readying));
    Flies(t, f, Ready(true));
    ExecCons(t, Fly(f, Ready(true)), [Fly(f, Remember(true))] + [Fly(f, Settle)]);
    t := t.(w := Raised(s.w, pid, Remembering));
    Flies(t, f, Remember(true));
    ExecCons(t, Fly(f, Remember(true)), [Fly(f, Settle)]);
    t := t.(w := Raised(s.w, pid, Settling).(record := Some(Record(pid, |s.w.procs|, true))));
    Flies(t, f, Settle);
    ExecCons(t, Fly(f, Settle), []);
  }

  function ExitSteps(p: nat, h: nat): seq<Step> {
    [Happens(Dies(p))] + ([Happens(Notice(h))] + [Happens(Exited(h))])
  }

  /** One hub dies; the system gives the next one its pid; only then the first
      one's end is dealt with to the last. */
  function Reuse(pid: nat): seq<Step> {
    StartSteps(0, 0, pid) + (ExitSteps(0, 0) + (StartSteps(1, 1, pid) + [Happens(ForgetExited(0))]))
  }

  lemma {:induction false} ExecJoins(s: State, a: seq<Step>, b: seq<Step>)
    requires Inv(s)
    ensures Exec(s, a + b) == Exec(Exec(s, a), b)
    decreases a
  {
    hide Inv, Then;
    if a == [] {
      assert a + b == b;
    } else {
      assert (a + b)[1..] == a[1..] + b;
      ExecJoins(Then(s, a[0]), a[1..], b);
    }
  }

  /** A hub that dies, unseen, seen, and no longer the current one. */
  function Dead(w: World, p: nat): World
    requires p < |w.procs|
  {
    w.(procs := w.procs[p := w.procs[p].(alive := false)])
  }

  function Seen(w: World, p: nat, h: nat): World
    requires p < |w.procs| && h < |w.hubs|
  {
    Dead(w, p).(hubs := w.hubs[h := HubProcess(p, true)])
  }

  lemma EndSeen(w: World, p: nat, h: nat)
    requires InRange(w) && h < |w.hubs| && w.hubs[h] == HubProcess(p, false) && w.proc == Some(h)
    ensures p < |w.procs| && InRange(Dead(w, p)) && InRange(Seen(w, p, h))
    ensures EventStep(w, Dies(p)) == Dead(w, p)
    ensures EventStep(Dead(w, p), Notice(h)) == Seen(w, p, h)
    ensures EventStep(Seen(w, p, h), Exited(h)) == Seen(w, p, h).(proc := None)
  {
  }

  lemma Occurs(s: State, event: Event)
    requires Inv(s)
    ensures Then(s, Happens(event)) == s.(w := EventStep(s.w, event))
  {
    hide Inv, EventStep;
  }

  lemma Ends(s: State, p: nat, h: nat)
    requires Inv(s) && h < |s.w.hubs| && s.w.hubs[h] == HubProcess(p, false) && s.w.proc == Some(h)
    ensures p < |s.w.procs|
    ensures Exec(s, ExitSteps(p, h)) == s.(w := Seen(s.w, p, h).(proc := None))
  {
    EndSeen(s.w, p, h);
    hide Inv, InRange, Then, Exec, EventStep, Dead, Seen;
    var t := s.(w := Dead(s.w, p));
    ExecCons(s, Happens(Dies(p)), [Happens(Notice(h))] + [Happens(Exited(h))]);
    Occurs(s, Dies(p));
    ExecCons(t, Happens(Notice(h)), [Happens(Exited(h))]);
    Occurs(t, Notice(h));
    t := t.(w := Seen(s.w, p, h));
    ExecCons(t, Happens(Exited(h)), []);
    Occurs(t, Exited(h));
  }

  /** The world after the first hub's start and exit, the record still there. */
  function Once(pid: nat): World {
    World([Process(pid, Spawned, false, false)], [HubProcess(0, true)],
          [Flight(Kind.Start, Settled, Some(0), false, false)], Some(Record(pid, 0, true)), None, None, None, Open)
  }

  lemma StartedFirst(pid: nat)
    ensures var w := Initial([], None).w; var n := Started(w, pid);
            && InRange(w) && Startable(Initial([], None)) && |n.hubs| == 1 && |n.procs| == 1
            && n.hubs[0] == HubProcess(0, false) && n.proc == Some(0)
            && Seen(n, 0, 0).(proc := None) == Once(pid)
  {
  }

  lemma StartedAgain(s: State, pid: nat)
    requires s.w == Once(pid)
    ensures InRange(s.w) && Startable(s) && |s.w.flights| == 1
    ensures var w := Started(s.w, pid);
            && |w.hubs| == 2 && |w.procs| == 2 && w.hubs[1].process == 1
            && w.procs[1] == Process(pid, Spawned, true, false)
            && w.proc == Some(1)
  {
  }

  lemma Ended(pid: nat)
    ensures Inv(Initial([], None))
    ensures var n := Exec(Exec(Initial([], None), StartSteps(0, 0, pid)), ExitSteps(0, 0));
            n.w == Once(pid) && |n.callers| == 1
  {
    var s := Initial([], None);
    InitialOk([], None);
    StartedFirst(pid);
    hide Inv, InRange, Startable, Started, Once, Seen, Exec, StartSteps, ExitSteps;
    StartRuns(s, pid);
    Ends(Exec(s, StartSteps(0, 0, pid)), 0, 0);
  }

  /** After it the second hub is current and alive, and nothing records it. */
  lemma PidGivenAgain(pid: nat)
    ensures Inv(Initial([], None))
    ensures var n := Exec(Initial([], None), Reuse(pid));
            && n.w.proc == Some(1) && 1 < |n.w.hubs| && 1 < |n.w.procs|
            && n.w.hubs[1].process == 1 && n.w.procs[1] == Process(pid, Spawned, true, false) && n.w.record == None
  {
    var s := Initial([], None);
    Ended(pid);
    ReuseJoins(s, pid);
    var down := Exec(Exec(s, StartSteps(0, 0, pid)), ExitSteps(0, 0));
    StartedAgain(down, pid);
    hide Inv, InRange, Startable, Started, Once, Exec, Reuse, StartSteps, ExitSteps, Then;
    StartRuns(down, pid);
    Forgets(Exec(down, StartSteps(1, 1, pid)), pid);
  }

  lemma Forgets(s: State, pid: nat)
    requires Inv(s) && s.w == Started(Once(pid), pid)
    ensures var n := Then(s, Happens(ForgetExited(0))).w; n == s.w.(record := None)
  {
    hide WorldOk, CallersOk;
  }

  lemma ReuseJoins(s: State, pid: nat)
    requires Inv(s)
    ensures var down := Exec(Exec(s, StartSteps(0, 0, pid)), ExitSteps(0, 0));
            Exec(s, Reuse(pid)) == Then(Exec(down, StartSteps(1, 1, pid)), Happens(ForgetExited(0)))
  {
    hide Inv, Then, Exec, StartSteps, ExitSteps;
    var up := Exec(s, StartSteps(0, 0, pid));
    var down := Exec(up, ExitSteps(0, 0));
    ExecJoins(s, StartSteps(0, 0, pid), ExitSteps(0, 0) + (StartSteps(1, 1, pid) + [Happens(ForgetExited(0))]));
    ExecJoins(up, ExitSteps(0, 0), StartSteps(1, 1, pid) + [Happens(ForgetExited(0))]);
    ExecJoins(down, StartSteps(1, 1, pid), [Happens(ForgetExited(0))]);
    ExecCons(Exec(down, StartSteps(1, 1, pid)), Happens(ForgetExited(0)), []);
  }

  /** A current hub that goes on living stays the current one, whatever happens,
      but for its own idle stop and for close. */
  lemma CurrentStays(s: State, step: Step, g: nat)
    requires Inv(s) && g < |s.w.hubs| && s.w.proc == Some(g) && Lives(s.w, g)
    requires step != IdleCheck(g) && step != CloseTake
    ensures Then(s, step).w.proc == Some(g)
  {
    hide CallersOk, OwnedOk;
    match step
    case Fly(f, move) =>
      hide FlyStep;
      if f < |s.w.flights| {
        CurrentFlies(s.w, f, move, s.now, g);
      }
    case Happens(event) =>
      hide LiveOk, FlightsOk, CloserOk;
    case _ =>
      hide FlyStep, EventStep, LiveOk, FlightsOk, CloserOk;
  }

  lemma CurrentFlies(w: World, f: nat, move: Move, now: nat, g: nat)
    requires WorldOk(w) && f < |w.flights| && g < |w.hubs| && w.proc == Some(g) && Lives(w, g)
    ensures FlyStep(w, f, move, now).proc == Some(g)
  {
    hide OwnedOk, DoneOk;
  }

  /** From the moment a caller that holds the hub finds no idle stop in
      progress, none is until that caller lets go. */
  lemma {:induction false} HeldThrough(s: State, c: nat, steps: seq<Step>)
    requires Inv(s) && c < |s.callers| && s.callers[c].holds && !IdleStopping(s.w)
    requires Release(c) !in steps
    ensures c < |Exec(s, steps).callers| && Exec(s, steps).callers[c].holds && !IdleStopping(Exec(s, steps).w)
    decreases steps
  {
    hide WorldOk, CallersOk, IdleStopping;
    if steps != [] {
      HeldStep(s, c, steps[0]);
      HeldThrough(Then(s, steps[0]), c, steps[1..]);
    }
  }

  lemma {:induction false} SomeHolder(callers: seq<Caller>, c: nat)
    requires c < |callers| && callers[c].holds
    ensures Holders(callers) > 0
  {
    if c > 0 {
      SomeHolder(callers[1..], c - 1);
    }
  }

  /** Only an idle check begins an idle stop. */
  lemma NoneBegins(s: State, step: Step)
    requires Inv(s) && !IdleStopping(s.w) && !step.IdleCheck?
    ensures !IdleStopping(Then(s, step).w)
  {
    hide LiveOk, DoneOk, OwnedOk, CloserOk, CallersOk, FlightsOk;
    match step
    case Fly(f, move) =>
      if f < |s.w.flights| {
        FlyKinds(s.w, f, move, s.now);
      }
      hide FlyStep;
    case Happens(event) => hide FlyStep;
    case Ensure(c) => hide FlyStep, EventStep;
    case ResumeHub => hide FlyStep, EventStep;
    case _ => hide FlyStep, EventStep, EnsureStep, WorldOk;
  }

  lemma HeldStep(s: State, c: nat, step: Step)
    requires Inv(s) && c < |s.callers| && s.callers[c].holds && !IdleStopping(s.w) && step != Release(c)
    ensures c < |Then(s, step).callers| && Then(s, step).callers[c].holds && !IdleStopping(Then(s, step).w)
  {
    hide WorldOk, CallersOk, IdleStopping, FlyStep, EventStep;
    SomeHolder(s.callers, c);
    if !step.IdleCheck? {
      NoneBegins(s, step);
    }
  }

  /** The hub is never pulled from a caller: one that was handed it, and has
      not released it, sees no idle stop in progress from then on, nor did one
      go on when it was handed out. */
  lemma NeverPulled(s: State, c: nat, step: Step, steps: seq<Step>, k: nat)
    requires Inv(s) && c < |s.callers| && s.callers[c].holds && s.callers[c].stage != Got
    requires c < |Then(s, step).callers| && Then(s, step).callers[c].holds && Then(s, step).callers[c].stage == Got
    requires Release(c) !in steps && k <= |steps|
    ensures !IdleStopping(s.w)
    ensures !IdleStopping(Exec(Then(s, step), steps[..k]).w)
  {
    hide WorldOk;
    var n := Then(s, step);
    assert Served(n.w.flights, n.callers[c].stage);
    assert !IdleStopping(n.w);
    assert !IdleStopping(s.w) by { GotFrom(s, c, step); }
    hide IdleStopping, CallersOk;
    HeldThrough(n, c, steps[..k]);
  }

  lemma GotFrom(s: State, c: nat, step: Step)
    requires Inv(s) && c < |s.callers| && s.callers[c].holds && s.callers[c].stage != Got
    requires c < |Then(s, step).callers| && Then(s, step).callers[c].stage == Got
    ensures !IdleStopping(s.w)
  {
    hide LiveOk, DoneOk, OwnedOk, CloserOk;
    assert step in {Ensure(c), Wake(c)};
  }

  /** An idle stop begins only when no call is in flight and every call's last
      use is IDLE_AFTER ago. */
  lemma IdleOnly(s: State, h: nat, c: nat)
    requires Inv(s) && Then(s, IdleCheck(h)) != s && c < |s.callers|
    ensures !s.callers[c].holds && s.callers[c].at + 600_000 <= s.now
    ensures s.w.proc == Some(h) && s.w.op == None && s.inflight == 0
  {
    hide WorldOk;
    NoHolders(s.callers, c);
  }

  ghost predicate BeginsStart(s: State, step: Step)
    requires Inv(s)
  {
    |Then(s, step).w.flights| > |s.w.flights| && Then(s, step).w.flights[|s.w.flights|].kind == Start
  }

  /** A start begins only in an open hub with no flight, after the cooldown of
      the last failure, and when no process this runner owns is alive. */
  lemma StartsOnlyWhenNeeded(s: State, step: Step)
    requires Inv(s)
    ensures BeginsStart(s, step) ==> step.Ensure? && !Closed(s.w) && s.w.op == None
    ensures BeginsStart(s, step) && s.w.failedAt.Some? ==> s.w.failedAt.value + 30_000 <= s.now
    ensures BeginsStart(s, step) ==> forall h :: 0 <= h < |s.w.hubs| ==> !s.w.procs[s.w.hubs[h].process].alive
  {
    hide CallersOk, OwnedOk, FlightsOk, CloserOk;
    BegunByEnsure(s, step);
    hide Then, BeginsStart;
    if BeginsStart(s, step) {
      forall h | 0 <= h < |s.w.hubs|
        ensures !s.w.procs[s.w.hubs[h].process].alive
      {
        assert !Lives(s.w, h);
      }
    }
  }

  lemma BegunByEnsure(s: State, step: Step)
    requires Inv(s)
    ensures BeginsStart(s, step) ==> step.Ensure? && EnsureOutcome(s.w, s.now).1
  {
    hide CallersOk, OwnedOk, LiveOk, DoneOk, CloserOk;
    match step
    case Fly(f, move) =>
      if f < |s.w.flights| {
        FlyKinds(s.w, f, move, s.now);
      }
      hide FlyStep, FlightsOk;
    case _ =>
      hide FlyStep, FlightsOk;
  }

  /** Once close has taken the lock, no flight begins any more. */
  lemma {:induction false} ClosedBeginsNothing(s: State, steps: seq<Step>)
    requires Inv(s) && Closed(s.w)
    ensures var n := Exec(s, steps); Closed(n.w) && |n.w.flights| == |s.w.flights|
    decreases steps
  {
    hide WorldOk, CallersOk;
    if steps != [] {
      ClosedStep(s, steps[0]);
      ClosedBeginsNothing(Then(s, steps[0]), steps[1..]);
    }
  }

  lemma ClosedStep(s: State, step: Step)
    requires Inv(s) && Closed(s.w)
    ensures Closed(Then(s, step).w) && |Then(s, step).w.flights| == |s.w.flights|
    ensures s.w.closer.Shut? ==> Then(s, step).w.closer.Shut?
  {
    hide CallersOk, LiveOk, DoneOk, OwnedOk, CloserOk, FlightsOk;
    if step.Fly? && step.f < |s.w.flights| {
      FlyKinds(s.w, step.f, step.move, s.now);
      hide FlyStep;
    }
  }

  /** When close has returned, and for good: no process this runner owns lives,
      and no flight is in progress or can begin. */
  lemma {:induction false} ShutForGood(s: State, steps: seq<Step>)
    requires Inv(s) && AllKnown(s.w) && s.w.closer.Shut?
    ensures var w := Exec(s, steps).w;
            && w.closer.Shut?
            && (forall p :: 0 <= p < |w.procs| && Owned(w, p) ==> !w.procs[p].alive)
            && (forall f :: 0 <= f < |w.flights| ==> w.flights[f].stage == Settled) && |w.flights| == |s.w.flights|
    decreases steps
  {
    hide CallersOk, Inv, AllKnown;
    if steps == [] {
      ShutNow(s);
    } else {
      KnownStep(s, steps[0]);
      ClosedStep(s, steps[0]);
      ShutForGood(Then(s, steps[0]), steps[1..]);
    }
  }

  lemma ShutNow(s: State)
    requires Inv(s) && AllKnown(s.w) && s.w.closer.Shut?
    ensures forall p :: 0 <= p < |s.w.procs| && Owned(s.w, p) ==> !s.w.procs[p].alive
    ensures forall f :: 0 <= f < |s.w.flights| ==> s.w.flights[f].stage == Settled
  {
    hide CallersOk, DoneOk, OwnedOk;
    var w := s.w;
    forall p | 0 <= p < |w.procs| && Owned(w, p)
      ensures !w.procs[p].alive
    {
      var h :| 0 <= h < |w.hubs| && w.hubs[h].process == p;
      assert !Lives(w, h);
    }
  }

  /** How many of its own moves a flight may still need before its channel is
      closed. */
  function Left(fl: Flight): nat {
    match fl.stage
    case Asking => 6
    case Reclaiming => 3
    case Spawning => 5
    case Readying => 4
    case Remembering => 3
    case Settling => 2
    case Stopping => 3
    case Ending => 2
    case Settled => if fl.done then 0 else 1
  }

  function NextMove(fl: Flight): Move {
    match fl.stage
    case Asking => Answers(true)
    case Reclaiming => Reclaim(true)
    case Spawning => Spawn(Some(0))
    case Readying => Ready(true)
    case Remembering => Remember(true)
    case Settling => Settle
    case Stopping => Stop
    case Ending => End
    case Settled => CloseDone
  }

  /** A flight's own moves bring it closer to its end, and there is one for it
      to take until its channel is closed: who waits for it is not left
      waiting. */
  lemma FlightEnds(w: World, f: nat, move: Move, now: nat)
    requires WorldOk(w) && f < |w.flights|
    ensures f < |FlyStep(w, f, move, now).flights|
    ensures FlyStep(w, f, move, now) != w ==> Left(FlyStep(w, f, move, now).flights[f]) < Left(w.flights[f])
    ensures !w.flights[f].done ==> FlyStep(w, f, NextMove(w.flights[f]), now) != w
    ensures Left(w.flights[f]) == 0 <==> w.flights[f].done
  {
    hide LiveOk, DoneOk, OwnedOk, CloserOk;
    if !w.flights[f].done {
      MovesOn(w, f, now);
    }
    hide FlightOk, NextMove;
  }

  lemma MovesOn(w: World, f: nat, now: nat)
    requires WorldOk(w) && f < |w.flights| && !w.flights[f].done
    ensures FlyStep(w, f, NextMove(w.flights[f]), now) != w
  {
    hide LiveOk, DoneOk, OwnedOk, CloserOk;
    assert FlyStep(w, f, NextMove(w.flights[f]), now).flights[f] != w.flights[f];
  }

  /** Nobody else touches a flight. */
  lemma FlightAlone(s: State, f: nat, step: Step)
    requires Inv(s) && f < |s.w.flights| && !(step.Fly? && step.f == f)
    ensures f < |Then(s, step).w.flights| && Then(s, step).w.flights[f] == s.w.flights[f]
  {
    hide CallersOk, LiveOk, DoneOk, OwnedOk, CloserOk, FlightsOk;
    match step
    case Fly(g, move) =>
      if g < |s.w.flights| {
        FliesAlone(s.w, g, move, s.now, f);
      }
      hide FlyStep;
    case _ =>
      hide FlyStep;
  }

  lemma FliesAlone(w: World, g: nat, move: Move, now: nat, f: nat)
    requires InRange(w) && g < |w.flights| && f < |w.flights| && f != g
    ensures f < |FlyStep(w, g, move, now).flights| && FlyStep(w, g, move, now).flights[f] == w.flights[f]
  {
  }

  /** The flight that a caller or close waits on is the one in progress, or is
      about to close its channel, or has: no wait is for nothing. */
  lemma WaitsForSomething(s: State, f: nat)
    requires Inv(s) && f < |s.w.flights| && !s.w.flights[f].done
    ensures s.w.op == Some(f) || s.w.flights[f].stage == Settled
    ensures s.w.closer.Begun? && s.w.op.Some? ==> s.w.closer.flight == s.w.op
  {
    hide CallersOk, LiveOk, DoneOk, OwnedOk;
  }
}
