// What becomes of a run when something happens to it in the registry's
// protocol: its request ends, the runner shuts down, its time is up, its
// configuration cannot be written. Every statement is about the records
// themselves, step by step.
module RegistryOutcomes {
  import opened RegistryProtocol
  import opened RegistrySafety

  lemma ExecOne(s: State, step: Step, steps: seq<Step>)
    requires Inv(s)
    ensures InRange(s) && Inv(Next(s, step))
    ensures Exec(s, [step] + steps) == Exec(Next(s, step), steps)
  {
    NextKeeps(s, step);
    hide Inv, Next;
    assert ([step] + steps)[1..] == steps;
  }

  /** A request that ends before its run started ends the run with it: from that
      step on the body never runs, in any continuation, and once the end has
      come through the run's context has ended and its wait for a slot with it. */
  lemma QueuedFollowsRequest(s: State, h: Handle, steps: seq<Step>)
    requires Inv(s) && h < |s.runs| && s.runs[h].phase == Pending && !s.runs[h].reqEnded && !s.runs[h].detached
    ensures InRange(s) && Inv(Next(s, Touch(h, RequestEnds)))
    ensures var n := Next(s, Touch(h, RequestEnds));
            && h < |Exec(n, steps).runs|
            && Exec(n, steps).runs[h].phase == Pending && !Executing(Exec(n, steps).runs[h])
            && InRange(n)
            && var m := Next(n, Touch(h, RequestCancels));
               && InRange(m) && |m.runs| == |s.runs| && m.runs[h].cancelled && CtxErr(m, h)
               && (s.runs[h].owner == Queued ==> Next(m, Own(h, GiveUp)).runs[h].owner == Abandoning)
  {
    NextKeeps(s, Touch(h, RequestEnds));
    var n := Next(s, Touch(h, RequestEnds));
    NextKeeps(n, Touch(h, RequestCancels));
    EndsAndCancels(s, h);
    hide Inv, Next, Executing;
    NeverStarts(n, h, steps);
  }

  lemma EndsAndCancels(s: State, h: Handle)
    requires InRange(s) && h < |s.runs| && s.runs[h].phase == Pending && !s.runs[h].reqEnded && !s.runs[h].detached
    ensures var n := Next(s, Touch(h, RequestEnds));
            && InRange(n) && Doomed(n, h)
            && var m := Next(n, Touch(h, RequestCancels));
               && InRange(m) && |m.runs| == |s.runs| && m.runs[h].cancelled && CtxErr(m, h)
               && (s.runs[h].owner == Queued ==> Next(m, Own(h, GiveUp)).runs[h].owner == Abandoning)
  {
  }

  /** Reserved and on its way to its start, with its request attached. */
  predicate OnItsWay(r: Run) {
    r.phase == Pending && r.owner in {Queued, Holding, Serving, Entered} && !r.detached
  }

  /** Nothing came of it that turns it away: the registry closed, a cancel, the end
      of its context or of its request. */
  predicate StillOn(s: State, h: Handle)
    requires h < |s.runs|
  {
    s.closed || DoomedRun(s.runs[h], s.stopped) || s.runs[h].phase != Pending || OnItsWay(s.runs[h])
  }

  predicate Refusal(step: Step, h: Handle) {
    step == Own(h, ConfigRefused) || step == Own(h, NotStreamable)
  }

  /** No run is turned away for nothing: one that was reserved goes on towards its
      start in every continuation, unless its handler refuses it, the registry
      closes, or a cancel, its context's or its request's end comes first. */
  lemma {:induction false} NotTurnedAway(s: State, h: Handle, steps: seq<Step>)
    requires Inv(s) && h < |s.runs| && StillOn(s, h) && forall k :: 0 <= k < |steps| ==> !Refusal(steps[k], h)
    ensures h < |Exec(s, steps).runs| && StillOn(Exec(s, steps), h)
    decreases |steps|
  {
    hide Inv, StillOn;
    if steps != [] {
      assert !Refusal(steps[0], h);
      NextKeeps(s, steps[0]);
      StillOnStep(s, steps[0], h);
      hide Next;
      NotTurnedAway(Next(s, steps[0]), h, steps[1..]);
    }
  }

  lemma StillOnStep(s: State, step: Step, h: Handle)
    requires Inv(s) && h < |s.runs| && StillOn(s, h) && !Refusal(step, h)
    ensures InRange(s) && h < |Next(s, step).runs| && StillOn(Next(s, step), h)
  {
    RunPlace(s, h);
    OwnerAndContext(s.runs[h], Mapped(s, h), Listed(s, h), s.swept);
    OthersKeep(s, step, h);
    if Doomed(s, h) {
      DoomedStep(s, step, h);
    }
    hide Inv, InRange, RunOk, OwnerOk, ContextOk, DoomedRun, OnItsWay;
    if Acts(step, h) && !s.closed && !DoomedRun(s.runs[h], s.stopped) {
      if step.Own? {
        OwnGoesOn(s, h, step.act);
      } else {
        TouchGoesOn(s, h, step.move);
      }
    }
    hide Next;
  }

  lemma OwnerAndContext(r: Run, mapped: bool, listed: bool, swept: bool)
    requires RunOk(r, mapped, listed, swept)
    ensures OwnerOk(r) && ContextOk(r)
  {
  }

  lemma OwnGoesOn(s: State, h: Handle, act: Act)
    requires InRange(s) && h < |s.runs| && OwnerOk(s.runs[h]) && ContextOk(s.runs[h])
    requires !s.closed && !DoomedRun(s.runs[h], s.stopped) && StillOn(s, h) && act !in {ConfigRefused, NotStreamable}
    ensures h < |OwnerStep(s, h, act).runs| && StillOn(OwnerStep(s, h, act), h)
  {
    hide InRange, FinishStep, Taking, Entering, Mapped;
    if s.runs[h].phase == Pending {
      ActsOn(s.runs[h], act, CtxErr(s, h), s.tokens < MAX_SESSIONS);
    } else {
      FinishPhase(s, h);
    }
  }

  lemma FinishPhase(s: State, h: Handle)
    requires InRange(s) && h < |s.runs|
    ensures |FinishStep(s, h).runs| == |s.runs| && FinishStep(s, h).runs[h].phase == s.runs[h].phase
  {
    hide Trim, Mapped;
    var s1 := WithRun(s, h, s.runs[h].(owner := LeavingDone)).(finished := s.finished + [h]);
    assert InRange(s1);
    TrimReleases(s1, h);
  }

  lemma ActsOn(r: Run, act: Act, ctxErr: bool, free: bool)
    requires OnItsWay(r) && !ctxErr && !r.cancelAsked && !r.reqEnded && act !in {ConfigRefused, NotStreamable}
    ensures var n := Acted(r, act, ctxErr, free, false); n.phase != Pending || OnItsWay(n)
  {
  }

  lemma TouchGoesOn(s: State, h: Handle, move: Outside)
    requires InRange(s) && h < |s.runs| && ContextOk(s.runs[h])
    requires !s.closed && !DoomedRun(s.runs[h], s.stopped) && StillOn(s, h)
    ensures h < |OutsideStep(s, h, move).runs| && StillOn(OutsideStep(s, h, move), h)
  {
    hide InRange, Without, Mapped;
  }

  /** The runner's shutdown ends the context of every run there is, for good, and
      no run that has not started ever does. */
  lemma {:induction false} ShutdownReaches(s: State, steps: seq<Step>, h: Handle)
    requires Inv(s) && h < |s.runs|
    ensures InRange(s) && InRange(Next(s, CloseGate)) && Inv(Next(Next(s, CloseGate), StopAll))
    ensures var n := Exec(Next(Next(s, CloseGate), StopAll), steps);
            && n.closed && h < |n.runs| && CtxErr(n, h)
            && (s.runs[h].phase == Pending ==> n.runs[h].phase == Pending && !Executing(n.runs[h]))
  {
    NextKeeps(s, CloseGate);
    NextKeeps(Next(s, CloseGate), StopAll);
    var n := Next(Next(s, CloseGate), StopAll);
    assert n == s.(closed := true, stopped := true);
    hide Inv, Next, Executing;
    StoppedStays(n, steps);
    if s.runs[h].phase == Pending {
      NeverStarts(n, h, steps);
    }
  }

  lemma {:induction false} StoppedStays(s: State, steps: seq<Step>)
    requires Inv(s) && s.closed && s.stopped
    ensures var n := Exec(s, steps); n.closed && n.stopped && |n.runs| >= |s.runs|
    decreases |steps|
  {
    if steps != [] {
      NextKeeps(s, steps[0]);
      FlagsUp(s, steps[0]);
      hide Inv, Next;
      StoppedStays(Next(s, steps[0]), steps[1..]);
    }
  }

  lemma FlagsUp(s: State, step: Step)
    requires InRange(s)
    ensures var n := Next(s, step); |n.runs| >= |s.runs| && (s.closed ==> n.closed) && (s.stopped ==> n.stopped)
  {
    match step
    case Reserve(id) => ReserveFlags(s, id);
    case Own(h, act) =>
      if h < |s.runs| {
        OwnOthers(s, h, act, h);
      }
      hide OwnerStep;
    case Touch(h, move) =>
      if h < |s.runs| {
        TouchOthers(s, h, move, h);
      }
      hide OutsideStep;
    case CallArrives | Call(_, _) | CloseGate | StopAll | Sweep =>
      hide ReserveStep, OwnerStep, OutsideStep;
  }

  lemma ReserveFlags(s: State, id: Id)
    requires InRange(s)
    ensures var n := ReserveStep(s, id); |n.runs| >= |s.runs| && n.closed == s.closed && n.stopped == s.stopped
  {
    hide Mapped, Without;
  }

  /** A finished run whose time is up is gone from the map and the list, with its
      buffer; no other run changes at all. */
  lemma ExpiredIsForgotten(s: State, h: Handle)
    requires Inv(s) && h < |s.runs| && s.runs[h].gc == Armed && Mapped(s, h)
    ensures InRange(s) && InRange(Next(s, Touch(h, TimerFires)))
    ensures var n := Next(Next(s, Touch(h, TimerFires)), Touch(h, TimerForgets));
            && |n.runs| == |s.runs| && n.runs[h].gone && s.runs[h].id !in n.byId && h !in n.finished
            && (forall g :: 0 <= g < |s.runs| && g != h ==> n.runs[g] == s.runs[g] && Mapped(n, g) == Mapped(s, g))
            && (forall g :: g != h ==> (g in n.finished <==> g in s.finished))
  {
    RunPlace(s, h);
    assert Distinct(s.finished) && EachKeyOk(s) && !s.runs[h].gone;
    hide Inv, RunOk, Loose, EachRunOk, InRange;
    Fires(s, h);
    Forgets(s.(runs := s.runs[h := s.runs[h].(gc := Fired)]), h);
    WithoutGone(s.finished, h);
    hide Without, Next;
  }

  lemma Fires(s: State, h: Handle)
    requires InRange(s) && h < |s.runs| && s.runs[h].gc == Armed
    ensures var n := s.(runs := s.runs[h := s.runs[h].(gc := Fired)]);
            && Next(s, Touch(h, TimerFires)) == n && InRange(n) && (EachKeyOk(s) ==> EachKeyOk(n))
            && forall g :: 0 <= g < |s.runs| ==> Mapped(n, g) == Mapped(s, g)
  {
  }

  lemma Forgets(s: State, h: Handle)
    requires InRange(s) && EachKeyOk(s) && h < |s.runs| && s.runs[h].gc == Fired && Mapped(s, h)
    ensures var n := Next(s, Touch(h, TimerForgets));
            && |n.runs| == |s.runs| && n.runs[h].gone && s.runs[h].id !in n.byId && n.finished == Without(s.finished, h)
            && forall g :: 0 <= g < |s.runs| && g != h ==> n.runs[g] == s.runs[g] && Mapped(n, g) == Mapped(s, g)
  {
    hide Without;
  }

  lemma {:induction false} WithoutGone(list: seq<Handle>, h: Handle)
    requires Distinct(list)
    ensures h !in Without(list, h) && forall g :: g != h ==> (g in Without(list, h) <==> g in list)
  {
    if list != [] {
      var rest := list[1..];
      assert list == [list[0]] + rest;
      assert forall i :: 0 <= i < |rest| ==> rest[i] == list[i + 1];
      WithoutGone(rest, h);
      if list[0] == h {
        assert h !in rest;
      }
    }
  }

  /** What the handler does with a run whose configuration could not be written. */
  function GivesUp(h: Handle): seq<Step> {
    [Own(h, ConfigRefused)] + ([Own(h, AbandonCheck)] + ([Own(h, AbandonDrop)]
    + ([Own(h, AbandonRelease)] + ([Own(h, AbandonCleanup)] + []))))
  }

  /** It is out of the map, cancelled and released, its owner through and its
      slot back, once; nothing else changes. */
  lemma ConfigRefusedGivesUp(s: State, h: Handle)
    requires Inv(s) && h < |s.runs| && s.runs[h].owner == Serving
    ensures var n := Exec(s, GivesUp(h)); var r := s.runs[h];
            && |n.runs| == |s.runs| && n.runs[h].owner == Over && !n.runs[h].slot && n.runs[h].phase == Pending
            && n.runs[h].cancelled && n.runs[h].detached && n.runs[h].gone && !Mapped(n, h)
            && n.tokens == s.tokens - 1 && n.active == s.active && n.finished == s.finished
            && (forall g :: 0 <= g < |s.runs| && g != h ==> n.runs[g] == s.runs[g])
            && forall id :: id != r.id ==>
                 (id in n.byId <==> id in s.byId) && (id in s.byId ==> n.byId[id] == s.byId[id])
  {
    ServingPending(s, h);
    hide Inv, Next, Mapped, Released, Exec;
    var s1 := Next(s, Own(h, ConfigRefused));
    var later := [Own(h, AbandonDrop)] + ([Own(h, AbandonRelease)] + ([Own(h, AbandonCleanup)] + []));
    ExecOne(s, Own(h, ConfigRefused), [Own(h, AbandonCheck)] + later);
    Refuses(s, h);
    var s2 := Next(s1, Own(h, AbandonCheck));
    ExecOne(s1, Own(h, AbandonCheck), later);
    Detaches(s1, h);
    var s3 := Next(s2, Own(h, AbandonDrop));
    ExecOne(s2, Own(h, AbandonDrop), [Own(h, AbandonRelease)] + ([Own(h, AbandonCleanup)] + []));
    Drops(s2, h);
    var s4 := Next(s3, Own(h, AbandonRelease));
    ExecOne(s3, Own(h, AbandonRelease), [Own(h, AbandonCleanup)] + []);
    Releases(s3, h);
    ExecOne(s4, Own(h, AbandonCleanup), []);
    ExecNone(Next(s4, Own(h, AbandonCleanup)));
    CleansUp(s4, h);
  }

  lemma ServingPending(s: State, h: Handle)
    requires Inv(s) && h < |s.runs| && s.runs[h].owner == Serving
    ensures InRange(s) && s.runs[h].phase == Pending && s.runs[h].slot
  {
    RunPlace(s, h);
  }

  lemma Refuses(s: State, h: Handle)
    requires InRange(s) && h < |s.runs| && s.runs[h].owner == Serving && s.runs[h].slot
    ensures Next(s, Own(h, ConfigRefused)) ==
            s.(runs := s.runs[h := s.runs[h].(slot := false, owner := Abandoning)], tokens := s.tokens - 1)
  {
  }

  lemma Detaches(s: State, h: Handle)
    requires InRange(s) && h < |s.runs| && s.runs[h].owner == Abandoning && s.runs[h].phase == Pending
    ensures Next(s, Own(h, AbandonCheck)) ==
            s.(runs := s.runs[h := s.runs[h].(detached := true, cancelled := true, owner := Dropping)])
  {
  }

  lemma Drops(s: State, h: Handle)
    requires InRange(s) && h < |s.runs| && s.runs[h].owner == Dropping
    ensures var n := Next(s, Own(h, AbandonDrop));
            && n == s.(runs := s.runs[h := s.runs[h].(owner := Releasing)], byId := n.byId)
            && !Mapped(n, h) && n.byId.Keys <= s.byId.Keys
            && forall id :: id != s.runs[h].id ==>
                 (id in n.byId <==> id in s.byId) && (id in s.byId ==> n.byId[id] == s.byId[id])
  {
  }

  lemma Releases(s: State, h: Handle)
    requires InRange(s) && h < |s.runs| && s.runs[h].owner == Releasing
    ensures var n := Next(s, Own(h, AbandonRelease));
            && |n.runs| == |s.runs| && n.runs[h].gone
            && n.runs[h].(gc := s.runs[h].gc, gone := s.runs[h].gone, owner := Releasing) == s.runs[h]
            && n.runs[h].owner == CleaningUp && n == s.(runs := s.runs[h := n.runs[h]])
  {
  }

  lemma CleansUp(s: State, h: Handle)
    requires InRange(s) && h < |s.runs| && s.runs[h].owner == CleaningUp && !s.runs[h].slot
    ensures Next(s, Own(h, AbandonCleanup)) == s.(runs := s.runs[h := s.runs[h].(owner := Over)])
  {
  }

  /** The closing sweep leaves nothing mapped and nothing listed, and every run
      that was mapped without its buffer. */
  lemma SweepEmpties(s: State)
    requires Inv(s) && s.stopped
    ensures InRange(s)
    ensures var n := Next(s, Sweep);
            && n.byId == map[] && n.finished == [] && |n.runs| == |s.runs|
            && n.tokens == s.tokens && n.active == s.active
            && forall h :: 0 <= h < |s.runs| ==>
                 && n.runs[h].gone == (s.runs[h].gone || Mapped(s, h))
                 && n.runs[h].phase == s.runs[h].phase && n.runs[h].owner == s.runs[h].owner
                 && (Mapped(s, h) ==> n.runs[h].gc != Armed)
  {
    forall h | 0 <= h < |s.runs|
      ensures Mapped(s, h) ==> !s.runs[h].gone
    {
      RunPlace(s, h);
    }
    hide Inv, Mapped;
  }

  /** A mobile release that finds a token and a live context is at work with it,
      and gives it back when it is done. */
  lemma ReleaseWorks(s: State, ended: bool)
    requires Inv(s) && s.tokens < MAX_SESSIONS
    ensures var i := |s.calls|;
            var steps := [CallArrives] + ([Call(i, false)] + ([Call(i, false)] + []));
            var n := Exec(s, steps);
            && n.calls == s.calls + [Working] && n.tokens == s.tokens + 1 && n.runs == s.runs
            && InRange(n) && Next(n, Call(i, ended)).calls == s.calls + [Returned]
            && Next(n, Call(i, ended)).tokens == s.tokens
  {
    var i := |s.calls|;
    var s1 := s.(calls := s.calls + [Selecting]);
    var s2 := s.(calls := s.calls + [Looking], tokens := s.tokens + 1);
    var s3 := s2.(calls := s.calls + [Working]);
    hide Inv, InRange, Next, Exec;
    Ranged(s);
    assert InRange(s1) && InRange(s2) && InRange(s3) by {
      CallsRange(s, s1);
      CallsRange(s, s2);
      CallsRange(s, s3);
    }
    Arrives(s);
    Takes(s1, i);
    Replaced(s.calls, Selecting, Looking);
    LooksAgain(s2, i);
    Replaced(s.calls, Looking, Working);
    Returns(s3, i, ended);
    Replaced(s.calls, Working, Returned);
    ExecOne(s, CallArrives, [Call(i, false)] + ([Call(i, false)] + []));
    ExecOne(s1, Call(i, false), [Call(i, false)] + []);
    ExecOne(s2, Call(i, false), []);
    ExecNone(s3);
  }

  lemma Ranged(s: State)
    requires Inv(s)
    ensures InRange(s)
  {
  }

  lemma CallsRange(s: State, n: State)
    requires InRange(s) && n.runs == s.runs && n.byId == s.byId && n.finished == s.finished
    ensures InRange(n)
  {
  }

  lemma ExecNone(s: State)
    requires Inv(s)
    ensures Exec(s, []) == s
  {
  }

  lemma Replaced(calls: seq<ReleaseCall>, a: ReleaseCall, b: ReleaseCall)
    ensures (calls + [a])[|calls| := b] == calls + [b]
  {
  }

  lemma Arrives(s: State)
    requires InRange(s)
    ensures Next(s, CallArrives) == s.(calls := s.calls + [Selecting])
  {
  }

  lemma Takes(s: State, i: nat)
    requires InRange(s) && i < |s.calls| && s.calls[i] == Selecting && s.tokens < MAX_SESSIONS
    ensures Next(s, Call(i, false)) == s.(calls := s.calls[i := Looking], tokens := s.tokens + 1)
  {
  }

  lemma LooksAgain(s: State, i: nat)
    requires InRange(s) && i < |s.calls| && s.calls[i] == Looking
    ensures Next(s, Call(i, false)) == s.(calls := s.calls[i := Working])
  {
  }

  lemma Returns(s: State, i: nat, ended: bool)
    requires InRange(s) && i < |s.calls| && s.calls[i] == Working
    ensures Next(s, Call(i, ended)) == s.(calls := s.calls[i := Returned], tokens := s.tokens - 1)
  {
  }
}
