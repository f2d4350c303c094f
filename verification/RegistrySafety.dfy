// What holds in every interleaving of the registry's protocol.
module RegistrySafety {
  import opened RegistryProtocol

  /** The state a sequence of steps leads to. */
  ghost function Exec(s: State, steps: seq<Step>): (t: State)
    requires Inv(s)
    ensures Inv(t)
    decreases |steps|
  {
    if steps == [] then s else NextKeeps(s, steps[0]); Exec(Next(s, steps[0]), steps[1..])
  }

  lemma InitOk()
    ensures Inv(INIT)
  {
  }

  lemma {:induction false} CountBelow(runs: seq<Run>, p: Run -> bool, q: Run -> bool)
    requires forall h :: 0 <= h < |runs| && p(runs[h]) ==> q(runs[h])
    ensures Count(runs, p) <= Count(runs, q)
  {
    if runs != [] {
      CountBelow(runs[1..], p, q);
    }
  }

  lemma {:induction false} CountNone(runs: seq<Run>, p: Run -> bool)
    requires forall h :: 0 <= h < |runs| ==> !p(runs[h])
    ensures Count(runs, p) == 0
  {
    if runs != [] {
      CountNone(runs[1..], p);
    }
  }

  predicate RunningAs(s: State, h: Handle, id: Id) {
    h < |s.runs| && s.runs[h].phase == Running && s.runs[h].id == id
  }

  predicate MappedAndDone(s: State, h: Handle) {
    h < |s.runs| && Mapped(s, h) && s.runs[h].phase == Done
  }

  /** Safety of the registry after any steps: every key is mapped to a run of
      that id whose buffer is there; at most one run of an id is running; the
      finished list has no duplicates, holds only mapped runs that are done, and
      no more than 64. */
  lemma Safety(steps: seq<Step>)
    ensures Inv(INIT)
    ensures var s := Exec(INIT, steps);
            && (forall id :: id in s.byId ==>
                  s.byId[id] < |s.runs| && s.runs[s.byId[id]].id == id && !s.runs[s.byId[id]].gone)
            && (forall id, g, h :: RunningAs(s, g, id) && RunningAs(s, h, id) ==> g == h)
            && (forall i, j :: 0 <= i < j < |s.finished| ==> s.finished[i] != s.finished[j])
            && (forall i :: 0 <= i < |s.finished| ==> MappedAndDone(s, s.finished[i]))
            && |s.finished| <= 64
  {
    InitOk();
    SafetyOf(Exec(INIT, steps));
  }

  lemma SafetyOf(s: State)
    requires Inv(s)
    ensures forall id :: id in s.byId ==>
              s.byId[id] < |s.runs| && s.runs[s.byId[id]].id == id && !s.runs[s.byId[id]].gone
    ensures forall id, g, h :: RunningAs(s, g, id) && RunningAs(s, h, id) ==> g == h
    ensures forall i :: 0 <= i < |s.finished| ==> MappedAndDone(s, s.finished[i])
  {
    hide OwnerOk, ContextOk, Counted;
    forall id | id in s.byId ensures s.runs[s.byId[id]].id == id && !s.runs[s.byId[id]].gone {
      assert Mapped(s, s.byId[id]);
      RunPlace(s, s.byId[id]);
    }
    forall i | 0 <= i < |s.finished| ensures MappedAndDone(s, s.finished[i]) {
      assert Listed(s, s.finished[i]);
      RunPlace(s, s.finished[i]);
    }
  }

  /** Session slots after any steps: the tokens taken are exactly the runs and
      the release calls that hold one, so at most sixteen bodies and releases are
      at work together, whatever phase their runs are in; and once every owner
      and every release call is through, every token is back and nothing is
      counted as active. */
  lemma SlotsConserved(steps: seq<Step>)
    ensures Inv(INIT)
    ensures var s := Exec(INIT, steps);
            && s.tokens == Count(s.runs, Holder) + CallTokens(s.calls) && s.active == Count(s.runs, Counted)
            && Count(s.runs, Executing) + CallTokens(s.calls) <= s.tokens <= 16
            && (AllThrough(s) ==> s.tokens == 0 && s.active == 0)
  {
    InitOk();
    var s := Exec(INIT, steps);
    forall h | 0 <= h < |s.runs|
      ensures Executing(s.runs[h]) ==> Holder(s.runs[h])
      ensures s.runs[h].owner == Over ==> !Holder(s.runs[h]) && !Counted(s.runs[h])
    {
      RunPlace(s, h);
    }
    CountBelow(s.runs, Executing, Holder);
    if AllThrough(s) {
      NoCalls(s.calls);
      CountNone(s.runs, Holder);
      CountNone(s.runs, Counted);
    }
  }

  predicate AllThrough(s: State) {
    && (forall h :: 0 <= h < |s.runs| ==> s.runs[h].owner == Over)
    && (forall i :: 0 <= i < |s.calls| ==> s.calls[i] == Returned)
  }

  lemma {:induction false} NoCalls(calls: seq<ReleaseCall>)
    requires forall i :: 0 <= i < |calls| ==> calls[i] == Returned
    ensures CallTokens(calls) == 0
  {
    if calls != [] {
      NoCalls(calls[..|calls| - 1]);
    }
  }

  // --- who can change a run -----------------------------------------------------------

  /** All of a run but its buffer. */
  predicate SameButBuffer(r: Run, n: Run) {
    n == r.(gone := n.gone, gc := n.gc)
  }

  lemma {:induction false} TrimReleases(s: State, g: Handle)
    requires InRange(s) && g < |s.runs|
    ensures |Trim(s).runs| == |s.runs| && SameButBuffer(s.runs[g], Trim(s).runs[g])
    ensures Trim(s).closed == s.closed && Trim(s).stopped == s.stopped && Trim(s).active == s.active
            && Trim(s).swept == s.swept
    decreases |s.finished|
  {
    if |s.finished| > MAX_FINISHED {
      WithoutFirst(s.finished);
      TrimReleases(Forget(s, s.finished[0]), g);
    }
  }

  predicate Acts(step: Step, g: Handle) {
    (step.Own? || step.Touch?) && step.h == g
  }

  lemma FinishOthers(s: State, h: Handle, g: Handle)
    requires InRange(s) && h < |s.runs| && g < |s.runs|
    ensures var n := FinishStep(s, h);
            |n.runs| == |s.runs| && (g != h ==> SameButBuffer(s.runs[g], n.runs[g])) && n.runs[h].owner == LeavingDone
            && n.closed == s.closed && n.stopped == s.stopped && n.active == s.active && n.swept == s.swept
  {
    hide Trim, Mapped;
    var s0 := WithRun(s, h, s.runs[h].(owner := LeavingDone));
    var s1 := s0.(finished := s0.finished + [h]);
    assert InRange(s1);
    TrimReleases(s1, g);
    TrimReleases(s1, h);
  }

  lemma SameIsSame(r: Run)
    ensures SameButBuffer(r, r)
  {
  }

  lemma OwnOthers(s: State, h: Handle, act: Act, g: Handle)
    requires InRange(s) && h < |s.runs| && g < |s.runs|
    ensures var n := OwnerStep(s, h, act);
            |n.runs| == |s.runs| && (g != h ==> SameButBuffer(s.runs[g], n.runs[g]))
            && n.closed == s.closed && n.stopped == s.stopped && n.swept == s.swept
            && (n.active > s.active ==> !s.closed)
  {
    if act == Finish || act == AbandonDrop {
      FinishOthers(s, h, g);
      hide InRange, FinishStep, Acted, Taking, Entering, Mapped, SameButBuffer;
      SameIsSame(s.runs[g]);
    } else {
      ActedOthers(s, h, act, g);
      hide OwnerStep, InRange, SameButBuffer;
    }
  }

  lemma ActedOthers(s: State, h: Handle, act: Act, g: Handle)
    requires InRange(s) && h < |s.runs| && g < |s.runs| && act != Finish && act != AbandonDrop
    ensures var n := OwnerStep(s, h, act);
            |n.runs| == |s.runs| && (g != h ==> SameButBuffer(s.runs[g], n.runs[g]))
            && n.closed == s.closed && n.stopped == s.stopped && n.swept == s.swept
            && (n.active > s.active ==> !s.closed)
  {
    hide InRange, FinishStep, DropStep, Acted, Taking, Mapped, SameButBuffer;
    SameIsSame(s.runs[g]);
  }

  lemma ReserveOthers(s: State, id: Id, g: Handle)
    requires InRange(s) && g < |s.runs|
    ensures var n := ReserveStep(s, id);
            && |s.runs| <= |n.runs| && SameButBuffer(s.runs[g], n.runs[g])
            && n.closed == s.closed && n.stopped == s.stopped && n.swept == s.swept && n.active == s.active
            && (s.closed ==> n == s)
  {
    hide Without, Mapped;
  }

  lemma SweepOthers(s: State, g: Handle)
    requires g < |s.runs|
    ensures var n := SweepStep(s);
            && |n.runs| == |s.runs| && SameButBuffer(s.runs[g], n.runs[g])
            && n.closed == s.closed && n.stopped == s.stopped && n.swept && n.active == s.active
  {
  }

  lemma TouchOthers(s: State, h: Handle, move: Outside, g: Handle)
    requires InRange(s) && h < |s.runs| && g < |s.runs|
    ensures var n := OutsideStep(s, h, move);
            && |n.runs| == |s.runs| && (g != h ==> SameButBuffer(s.runs[g], n.runs[g]))
            && n.closed == s.closed && n.stopped == s.stopped && n.swept == s.swept && n.active == s.active
  {
    hide Touched, Without, Mapped;
  }

  /** A step of one run's owner, request, cancel or timer changes nothing of
      another run but its buffer; the registry's own flags only go up; and once
      it is closed no run is added and none is counted in. */
  lemma OthersKeep(s: State, step: Step, g: Handle)
    requires InRange(s) && g < |s.runs|
    ensures var n := Next(s, step);
            && |s.runs| <= |n.runs| && (!Acts(step, g) ==> SameButBuffer(s.runs[g], n.runs[g]))
            && (s.closed ==> n.closed && |n.runs| == |s.runs| && n.active <= s.active) && (s.stopped ==> n.stopped)
            && (s.swept ==> n.swept)
  {
    hide OwnerStep, OutsideStep, ReserveStep, SweepStep, InRange, SameButBuffer;
    SameIsSame(s.runs[g]);
    SweepOthers(s, g);
    match step
    case Touch(h, move) => if h < |s.runs| { TouchOthers(s, h, move, g); }
    case Own(h, act) => if h < |s.runs| { OwnOthers(s, h, act, g); }
    case Reserve(id) => ReserveOthers(s, id, g);
    case _ =>
  }

  // --- cancel and start -----------------------------------------------------------------

  /** A run pending although a cancel, its context or its request has ended it. */
  predicate DoomedRun(r: Run, stopped: bool) {
    r.phase == Pending && (r.cancelAsked || stopped || r.cancelled || r.reqEnded)
  }

  predicate Doomed(s: State, h: Handle) {
    h < |s.runs| && DoomedRun(s.runs[h], s.stopped)
  }

  lemma ActedDoomed(r: Run, act: Act, stopped: bool, free: bool, closed: bool)
    requires DoomedRun(r, stopped) && OwnerOk(r)
    ensures DoomedRun(Acted(r, act, stopped || r.cancelled, free, closed), stopped)
  {
  }

  lemma TouchedDoomed(r: Run, move: Outside, stopped: bool)
    requires DoomedRun(r, stopped)
    ensures DoomedRun(Touched(r, move), stopped)
  {
  }

  lemma DoomedStep(s: State, step: Step, h: Handle)
    requires Inv(s) && Doomed(s, h)
    ensures InRange(s) && Doomed(Next(s, step), h)
  {
    RunPlace(s, h);
    hide Inv, Loose, InRange, FinishStep, Acted, Touched, RunOk;
    OthersKeep(s, step, h);
    if Acts(step, h) {
      assert OwnerOk(s.runs[h]) by { RunPlace(s, h); OwnerPart(s.runs[h], Mapped(s, h), Listed(s, h), s.swept); }
      if step.Own? {
        ActedDoomed(s.runs[h], step.act, s.stopped, s.tokens < MAX_SESSIONS, s.closed);
      } else {
        TouchedDoomed(s.runs[h], step.move, s.stopped);
        TouchedDoomed(Released(s.runs[h]), step.move, s.stopped);
      }
    }
  }

  lemma OwnerPart(r: Run, mapped: bool, listed: bool, swept: bool)
    requires RunOk(r, mapped, listed, swept)
    ensures OwnerOk(r)
  {
  }

  /** If a cancel, or the end of the request, comes before start's own section,
      the body never runs. */
  lemma {:induction false} NeverStarts(s: State, h: Handle, steps: seq<Step>)
    requires Inv(s) && Doomed(s, h)
    ensures h < |Exec(s, steps).runs| && Exec(s, steps).runs[h].phase == Pending && !Executing(Exec(s, steps).runs[h])
    decreases |steps|
  {
    if steps == [] {
      RunPlace(s, h);
    } else {
      DoomedStep(s, steps[0], h);
      NextKeeps(s, steps[0]);
      NeverStarts(Next(s, steps[0]), h, steps[1..]);
    }
  }

  /** Once a run has started, the end of its request cannot reach its context,
      and a cancelled context means somebody asked: a cancel that has answered
      true leaves the run unstarted for good or with its context cancelled. */
  lemma StartedContext(steps: seq<Step>, h: Handle)
    requires Inv(INIT) && h < |Exec(INIT, steps).runs|
    ensures var s := Exec(INIT, steps); var r := s.runs[h];
            && (r.phase != Pending ==> r.detached && !r.endPending && Touched(r, RequestCancels) == r)
            && (r.phase == Running && r.cancelled ==> r.cancelAsked)
            && (r.cancelAsked && r.cancels == 0 ==> r.cancelled && (r.phase == Pending ==> Doomed(s, h)))
  {
    RunPlace(Exec(INIT, steps), h);
  }

  /** A cancel whose own call to the run's context has come holds for good, other
      cancels under way or not: the run is cancelled ever after, and one that
      had not started never does. */
  lemma {:induction false} CancelHolds(s: State, h: Handle, steps: seq<Step>)
    requires Inv(s) && h < |s.runs| && s.runs[h].cancels > 0
    ensures InRange(s) && Inv(Next(s, Touch(h, CancelContext)))
    ensures var t := Exec(Next(s, Touch(h, CancelContext)), steps);
            && h < |t.runs| && t.runs[h].cancelled && t.runs[h].cancelAsked
            && (s.runs[h].phase == Pending ==> t.runs[h].phase == Pending && !Executing(t.runs[h]))
  {
    NextKeeps(s, Touch(h, CancelContext));
    CancelMarks(s, h);
    hide Inv, Next, Executing;
    var n := Next(s, Touch(h, CancelContext));
    CancelledStays(n, h, steps);
    if s.runs[h].phase == Pending {
      NeverStarts(n, h, steps);
    }
  }

  lemma CancelMarks(s: State, h: Handle)
    requires Inv(s) && InRange(s) && h < |s.runs| && s.runs[h].cancels > 0
    ensures var n := Next(s, Touch(h, CancelContext));
            && |n.runs| == |s.runs| && n.runs[h].cancelled && n.runs[h].cancelAsked
            && (s.runs[h].phase == Pending ==> Doomed(n, h))
  {
    RunPlace(s, h);
    hide Inv, InRange, Mapped, PlaceOk, OwnerOk;
  }

  lemma {:induction false} CancelledStays(s: State, h: Handle, steps: seq<Step>)
    requires Inv(s) && h < |s.runs| && Cancelled(s.runs[h])
    ensures h < |Exec(s, steps).runs| && Cancelled(Exec(s, steps).runs[h])
    decreases |steps|
  {
    hide Inv, Cancelled;
    if steps != [] {
      NextKeeps(s, steps[0]);
      CancelledStep(s, steps[0], h);
      hide Next;
      CancelledStays(Next(s, steps[0]), h, steps[1..]);
    }
  }

  predicate Cancelled(r: Run) {
    r.cancelled && r.cancelAsked
  }

  lemma ActedCancelled(r: Run, act: Act, ctxErr: bool, free: bool, closed: bool)
    requires Cancelled(r)
    ensures Cancelled(Acted(r, act, ctxErr, free, closed))
  {
  }

  lemma TouchedCancelled(r: Run, move: Outside)
    requires Cancelled(r)
    ensures Cancelled(Touched(r, move)) && Cancelled(Touched(Released(r), move))
  {
  }

  lemma CancelledStep(s: State, step: Step, h: Handle)
    requires InRange(s) && h < |s.runs| && Cancelled(s.runs[h])
    ensures h < |Next(s, step).runs| && Cancelled(Next(s, step).runs[h])
  {
    hide InRange, FinishStep, Acted, Touched, Released, Mapped, Without;
    OthersKeep(s, step, h);
    if Acts(step, h) {
      if step.Touch? {
        TouchedCancelled(s.runs[h], step.move);
      } else if step.act == Finish {
        FinishKeepsRecord(s, h);
      } else {
        ActedCancelled(s.runs[h], step.act, CtxErr(s, h), s.tokens < MAX_SESSIONS, s.closed);
      }
    }
  }

  lemma FinishKeepsRecord(s: State, h: Handle)
    requires InRange(s) && h < |s.runs|
    ensures var n := FinishStep(s, h);
            |n.runs| == |s.runs| && (Cancelled(s.runs[h]) ==> Cancelled(n.runs[h]))
  {
    hide Trim, Mapped;
    var s1 := WithRun(s, h, s.runs[h].(owner := LeavingDone)).(finished := s.finished + [h]);
    assert InRange(s1);
    TrimReleases(s1, h);
  }

  // --- replaced runs ----------------------------------------------------------------------

  /** A step changes nothing of the run h, nor the registry's lists. */
  predicate Untouched(s: State, n: State, h: Handle) {
    n.byId == s.byId && n.finished == s.finished && |n.runs| == |s.runs| && h < |s.runs| && n.runs[h] == s.runs[h]
  }

  lemma ReplacedPlace(s: State, g: Handle, h: Handle)
    requires Inv(s) && g < |s.runs| && h < |s.runs| && g != h && s.runs[g].id == s.runs[h].id && Mapped(s, h)
    ensures InRange(s) && !Mapped(s, g) && Without(s.finished, g) == s.finished
  {
    hide OwnerOk, ContextOk, OneRunningPerId, Distinct, Without;
    RunPlace(s, g);
    assert !Mapped(s, g) && !Listed(s, g);
    WithoutNone(s.finished, g);
  }

  /** The timer of a replaced run, and its late finish, touch nothing of the
      newer run with the same id, nor the registry's lists. */
  lemma StaleTouchesNothing(s: State, g: Handle, h: Handle)
    requires Inv(s) && g < |s.runs| && h < |s.runs| && g != h && s.runs[g].id == s.runs[h].id && Mapped(s, h)
    ensures InRange(s)
    ensures Untouched(s, Next(s, Touch(g, TimerForgets)), h) && Untouched(s, Next(s, Own(g, Finish)), h)
  {
    ReplacedPlace(s, g, h);
    StaleTimer(s, g, h);
    StaleFinish(s, g, h);
    hide Inv, Next, Untouched;
  }

  lemma StaleTimer(s: State, g: Handle, h: Handle)
    requires InRange(s) && g < |s.runs| && h < |s.runs| && g != h && !Mapped(s, g)
             && Without(s.finished, g) == s.finished
    ensures Untouched(s, Next(s, Touch(g, TimerForgets)), h)
  {
    hide InRange, Mapped, Without, Touched, Released;
  }

  lemma StaleFinish(s: State, g: Handle, h: Handle)
    requires InRange(s) && g < |s.runs| && h < |s.runs| && g != h && !Mapped(s, g)
    ensures Untouched(s, Next(s, Own(g, Finish)), h)
  {
    hide InRange, Mapped, Without, Acted;
  }

  // --- shutdown -----------------------------------------------------------------------------

  /** After the gate closes no run is reserved and the number of active runs
      never rises; after the sweep no run is mapped, for good. */
  lemma {:induction false} ClosedOnlyDrains(s: State, steps: seq<Step>)
    requires Inv(s) && s.closed
    ensures var t := Exec(s, steps);
            && t.closed && |t.runs| == |s.runs| && t.active <= s.active
            && (s.swept ==> t.swept && t.byId == map[])
    decreases |steps|
  {
    if steps != [] {
      NextKeeps(s, steps[0]);
      ClosedStep(s, steps[0]);
      ClosedOnlyDrains(Next(s, steps[0]), steps[1..]);
    }
  }

  lemma ClosedStep(s: State, step: Step)
    requires InRange(s) && s.closed
    ensures var n := Next(s, step); n.closed && |n.runs| == |s.runs| && n.active <= s.active && (s.swept ==> n.swept)
  {
    if s.runs != [] {
      OthersKeep(s, step, 0);
    }
  }

  /** What wait waits for: once closed and idle, idle for good. */
  lemma IdleForGood(s: State, steps: seq<Step>)
    requires Inv(s) && s.closed && s.active == 0
    ensures Exec(s, steps).active == 0
    ensures forall h :: 0 <= h < |Exec(s, steps).runs| ==> !Executing(Exec(s, steps).runs[h])
  {
    ClosedOnlyDrains(s, steps);
    var t := Exec(s, steps);
    CountBelow(t.runs, Executing, Counted);
    forall h | 0 <= h < |t.runs| ensures !Executing(t.runs[h]) {
      if Executing(t.runs[h]) {
        CountOne(t.runs, h, Executing);
      }
    }
  }

  lemma {:induction false} CountOne(runs: seq<Run>, h: nat, p: Run -> bool)
    requires h < |runs| && p(runs[h])
    ensures Count(runs, p) > 0
  {
    if h > 0 {
      CountOne(runs[1..], h - 1, p);
    }
  }

  // --- an owner gets through ---------------------------------------------------------------

  /** How far a run's owner still has to go. */
  function Rank(owner: Owner): nat {
    match owner
    case Queued => 14 case Holding => 13 case Serving => 12 case Entered => 11 case Leaving => 10
    case Body => 9 case BodyCleanup => 8 case Completing => 7 case Finishing => 6 case LeavingDone => 5
    case Abandoning => 4 case Dropping => 3 case Releasing => 2 case CleaningUp => 1 case Over => 0
  }

  /** The section an owner takes next. */
  function NextAct(r: Run, ctxErr: bool): Act {
    match r.owner
    case Queued => if ctxErr then GiveUp else TakeSlot
    case Holding => Recheck
    case Serving => Enter
    case Entered => Start
    case Leaving => LeaveRefused
    case Abandoning => AbandonCheck
    case Dropping => AbandonDrop
    case Releasing => AbandonRelease
    case CleaningUp => AbandonCleanup
    case Body => BodyEnds
    case BodyCleanup => BodyCleans
    case Completing => Complete
    case Finishing => Finish
    case LeavingDone | Over => Leave
  }

  lemma Ranks()
    ensures Rank(Queued) > Rank(Holding) > Rank(Serving) > Rank(Entered) > Rank(Leaving) > Rank(Body)
    ensures Rank(Body) > Rank(BodyCleanup) > Rank(Completing) > Rank(Finishing) > Rank(LeavingDone) > Rank(Abandoning)
    ensures Rank(Abandoning) > Rank(Dropping) > Rank(Releasing) > Rank(CleaningUp) > Rank(Over)
  {
  }

  /** An owner stays where it is, or is nearer its end. */
  predicate Nearer(was: Owner, now: Owner) {
    now == was || Rank(now) < Rank(was)
  }

  lemma QueueRank(r: Run, act: Act, ctxErr: bool, free: bool, closed: bool)
    requires BeforeStart(act)
    ensures Nearer(r.owner, Acted(r, act, ctxErr, free, closed).owner)
  {
    hide Rank;
    Ranks();
    var n := Acted(r, act, ctxErr, free, closed).owner;
    match act
    case GiveUp | TakeSlot => assert n == r.owner || r.owner == Queued;
    case Recheck => assert n == r.owner || r.owner == Holding;
    case ConfigRefused | NotStreamable | Enter => assert n == r.owner || r.owner == Serving;
    case _ =>
  }

  lemma StartRank(r: Run, act: Act, ctxErr: bool, free: bool, closed: bool)
    requires AtStart(act)
    ensures Nearer(r.owner, Acted(r, act, ctxErr, free, closed).owner)
  {
    hide Rank;
    Ranks();
    var n := Acted(r, act, ctxErr, free, closed).owner;
    match act
    case Start => assert n == r.owner || (r.owner == Entered && n in {Leaving, Body});
    case LeaveRefused => assert n == r.owner || r.owner == Leaving;
    case _ =>
  }

  lemma EndRank(r: Run, act: Act, ctxErr: bool, free: bool, closed: bool)
    requires act in {BodyEnds, BodyCleans, Complete, Leave}
    ensures Nearer(r.owner, Acted(r, act, ctxErr, free, closed).owner)
  {
    hide Rank;
    Ranks();
  }

  lemma ActedRank(r: Run, act: Act, ctxErr: bool, free: bool, closed: bool)
    requires act != AbandonDrop && act != Finish
    ensures Nearer(r.owner, Acted(r, act, ctxErr, free, closed).owner)
  {
    hide Acted, Nearer;
    if BeforeStart(act) {
      QueueRank(r, act, ctxErr, free, closed);
    } else if AtStart(act) {
      StartRank(r, act, ctxErr, free, closed);
    } else {
      EndRank(r, act, ctxErr, free, closed);
    }
  }

  lemma WaitingMoves(r: Run, ctxErr: bool, free: bool, closed: bool)
    requires r.owner in {Queued, Holding, Serving, Entered, Leaving} && (r.owner == Queued ==> ctxErr || free)
    ensures Acted(r, NextAct(r, ctxErr), ctxErr, free, closed).owner != r.owner
  {
  }

  lemma RunMoves(r: Run, ctxErr: bool, free: bool, closed: bool)
    requires r.owner in {Body, BodyCleanup, Completing, LeavingDone}
    ensures Acted(r, NextAct(r, ctxErr), ctxErr, free, closed).owner != r.owner
  {
  }

  lemma AbandonMoves(r: Run, ctxErr: bool, free: bool, closed: bool)
    requires r.owner in {Abandoning, Releasing, CleaningUp}
    ensures Acted(r, NextAct(r, ctxErr), ctxErr, free, closed).owner != r.owner
  {
  }

  lemma ActedMoves(r: Run, ctxErr: bool, free: bool, closed: bool)
    requires r.owner !in {Over, Dropping, Finishing} && (r.owner == Queued ==> ctxErr || free)
    ensures Acted(r, NextAct(r, ctxErr), ctxErr, free, closed).owner != r.owner
  {
    hide Acted, NextAct;
    if r.owner in {Queued, Holding, Serving, Entered, Leaving} {
      WaitingMoves(r, ctxErr, free, closed);
    } else if r.owner in {Body, BodyCleanup, Completing, LeavingDone} {
      RunMoves(r, ctxErr, free, closed);
    } else {
      AbandonMoves(r, ctxErr, free, closed);
    }
  }

  /** The run's owner has something to do that does not have to wait. */
  predicate CanGoOn(s: State, h: Handle)
    requires h < |s.runs|
  {
    s.runs[h].owner != Over && (s.runs[h].owner == Queued ==> CtxErr(s, h) || s.tokens < MAX_SESSIONS)
  }

  /** Every section brings its owner nearer its end, on every path, and only a
      run waiting for a slot can have to wait: with the conservation of slots,
      every token taken comes back. */
  lemma OwnerGetsThrough(s: State, h: Handle, act: Act)
    requires InRange(s) && h < |s.runs|
    ensures var n := OwnerStep(s, h, act); |n.runs| == |s.runs| && Nearer(s.runs[h].owner, n.runs[h].owner)
    ensures CanGoOn(s, h) && act == NextAct(s.runs[h], CtxErr(s, h)) ==>
              Rank(OwnerStep(s, h, act).runs[h].owner) < Rank(s.runs[h].owner)
  {
    hide InRange, Mapped, FinishStep, Acted, Entering, Taking;
    if act == Finish {
      FinishOthers(s, h, h);
    } else if act == AbandonDrop {
      hide CtxErr;
    } else {
      OtherGetsThrough(s, h, act);
    }
    hide OwnerStep, CtxErr;
  }

  lemma OwnerIs(s: State, h: Handle, act: Act)
    requires InRange(s) && h < |s.runs| && act != Finish && act != AbandonDrop
    ensures OwnerStep(s, h, act).runs ==
            s.runs[h := Acted(s.runs[h], act, CtxErr(s, h), s.tokens < MAX_SESSIONS, s.closed)]
  {
    hide InRange, Acted, Entering, Taking, CtxErr;
  }

  lemma OtherGetsThrough(s: State, h: Handle, act: Act)
    requires InRange(s) && h < |s.runs| && act != Finish && act != AbandonDrop
    ensures var n := OwnerStep(s, h, act); |n.runs| == |s.runs| && Nearer(s.runs[h].owner, n.runs[h].owner)
    ensures CanGoOn(s, h) && act == NextAct(s.runs[h], CtxErr(s, h)) ==>
              OwnerStep(s, h, act).runs[h].owner != s.runs[h].owner
  {
    hide InRange, OwnerStep, Acted, Nearer, CtxErr;
    OwnerIs(s, h, act);
    var r, ctxErr, free := s.runs[h], CtxErr(s, h), s.tokens < MAX_SESSIONS;
    ActedRank(r, act, ctxErr, free, s.closed);
    if r.owner !in {Over, Dropping, Finishing} && (r.owner == Queued ==> ctxErr || free) {
      ActedMoves(r, ctxErr, free, s.closed);
    }
  }
}
