// The registry's own sections (desktop/runner/runs.go) as the program runs
// them, each proved to be the protocol's step.
module RunRegistries {
  import opened Options
  import opened RegistryProtocol

  datatype Refusal = ShuttingDown | AlreadyRunning | CancelledFirst | StartedTwice

  /** Leaving out the first h is cutting the list around it. */
  lemma {:induction false} WithoutCut(list: seq<Handle>, i: nat)
    requires i < |list| && list[i] !in list[..i]
    ensures Without(list, list[i]) == list[..i] + list[i + 1..]
  {
    if i > 0 {
      assert list[1..][..i - 1] == list[..i][1..];
      WithoutCut(list[1..], i - 1);
      assert list[1..][i..] == list[i + 1..];
    } else {
      assert list[..0] + list[1..] == list[1..];
    }
  }

  /** A run's owner takes several sections in a row; one whose turn it is not
      does nothing. */
  ghost function Acts(s: State, h: Handle, acts: seq<Act>): (n: State)
    requires Inv(s) && h < |s.runs|
    ensures Inv(n) && |n.runs| == |s.runs|
    decreases |acts|
  {
    if acts == [] then s
    else
      OwnerKeeps(s, h, acts[0]);
      OwnerCount(s, h, acts[0]);
      Acts(OwnerStep(s, h, acts[0]), h, acts[1..])
  }

  lemma ActsOne(s: State, h: Handle, act: Act, acts: seq<Act>)
    requires Inv(s) && h < |s.runs|
    ensures InRange(s) && Inv(OwnerStep(s, h, act)) && |OwnerStep(s, h, act).runs| == |s.runs|
    ensures Acts(s, h, [act] + acts) == Acts(OwnerStep(s, h, act), h, acts)
    ensures Acts(s, h, []) == s
  {
    OwnerKeeps(s, h, act);
    OwnerCount(s, h, act);
    assert ([act] + acts)[1..] == acts;
  }

  /** The sections of abandon, and of a run that never starts. */
  const ABANDON := [AbandonCheck, AbandonDrop, AbandonRelease]

  function AbandonedOne(r: Run): Run {
    if r.phase != Pending then r.(owner := CleaningUp)
    else Released(r.(detached := true, cancelled := true)).(owner := CleaningUp)
  }

  lemma ReleasedRun(r: Run)
    ensures var n := Released(r); n.gone && n == r.(gone := n.gone, gc := n.gc)
  {
  }

  lemma AbandonedOneIs(r: Run)
    ensures var n := AbandonedOne(r);
            n.id == r.id && n.owner == CleaningUp && n.slot == r.slot && (r.phase == Pending ==> n.gone && n.cancelled)
  {
    ReleasedRun(r.(detached := true, cancelled := true));
    hide Released;
  }

  /** What abandon makes of the registry. */
  function Abandoned(s: State, h: Handle): State
    requires h < |s.runs|
  {
    WithRun(s, h, AbandonedOne(s.runs[h]))
      .(byId := if s.runs[h].phase == Pending && Mapped(s, h) then s.byId - {s.runs[h].id} else s.byId)
  }

  /** What a section other than abandon's drop and finish does to the registry,
      given what it makes of the run. */
  lemma Section(s: State, h: Handle, act: Act, r: Run, entering: int, taking: int)
    requires InRange(s) && h < |s.runs| && act != AbandonDrop && act != RegistryProtocol.Finish
    requires r == Acted(s.runs[h], act, CtxErr(s, h), s.tokens < MAX_SESSIONS, s.closed)
    requires entering == Entering(s.runs[h], act, s.closed)
    requires taking == Taking(s.runs[h], act, CtxErr(s, h), s.tokens < MAX_SESSIONS)
    ensures OwnerStep(s, h, act) == WithRun(s, h, r).(active := s.active + entering, tokens := s.tokens + taking)
  {
    hide Acted, Entering, Taking, InRange, CtxErr;
  }

  lemma GiveUpSection(s: State, h: Handle)
    requires InRange(s) && h < |s.runs| && s.runs[h].owner == Queued && CtxErr(s, h)
    ensures OwnerStep(s, h, GiveUp) == WithRun(s, h, s.runs[h].(owner := Abandoning))
  {
    Section(s, h, GiveUp, s.runs[h].(owner := Abandoning), 0, 0);
  }

  lemma TakeSection(s: State, h: Handle)
    requires InRange(s) && h < |s.runs| && s.runs[h].owner == Queued && s.tokens < MAX_SESSIONS
    ensures OwnerStep(s, h, TakeSlot) ==
            WithRun(s, h, s.runs[h].(slot := true, owner := Holding)).(tokens := s.tokens + 1)
  {
    Section(s, h, TakeSlot, s.runs[h].(slot := true, owner := Holding), 0, 1);
  }

  lemma RecheckSection(s: State, h: Handle)
    requires InRange(s) && h < |s.runs| && s.runs[h].owner == Holding && s.runs[h].slot
    ensures OwnerStep(s, h, Recheck) ==
            if CtxErr(s, h) then WithRun(s, h, s.runs[h].(slot := false, owner := Abandoning)).(tokens := s.tokens - 1)
            else WithRun(s, h, s.runs[h].(owner := Serving))
  {
    if CtxErr(s, h) {
      Section(s, h, Recheck, s.runs[h].(slot := false, owner := Abandoning), 0, -1);
    } else {
      Section(s, h, Recheck, s.runs[h].(owner := Serving), 0, 0);
    }
  }

  lemma EnterSection(s: State, h: Handle)
    requires InRange(s) && h < |s.runs| && s.runs[h].owner == Serving
    ensures OwnerStep(s, h, NotStreamable) == WithRun(s, h, s.runs[h].(owner := Abandoning))
    ensures OwnerStep(s, h, RegistryProtocol.Enter) ==
            if s.closed then WithRun(s, h, s.runs[h].(owner := Abandoning))
            else WithRun(s, h, s.runs[h].(owner := Entered)).(active := s.active + 1)
  {
    Section(s, h, NotStreamable, s.runs[h].(owner := Abandoning), 0, 0);
    if s.closed {
      Section(s, h, RegistryProtocol.Enter, s.runs[h].(owner := Abandoning), 0, 0);
    } else {
      Section(s, h, RegistryProtocol.Enter, s.runs[h].(owner := Entered), 1, 0);
    }
  }

  lemma LeaveSection(s: State, h: Handle)
    requires InRange(s) && h < |s.runs| && s.runs[h].owner == Leaving
    ensures OwnerStep(s, h, LeaveRefused) == WithRun(s, h, s.runs[h].(owner := Abandoning)).(active := s.active - 1)
  {
    Section(s, h, LeaveRefused, s.runs[h].(owner := Abandoning), -1, 0);
  }

  lemma CleanupSection(s: State, h: Handle)
    requires InRange(s) && h < |s.runs| && s.runs[h].owner == CleaningUp
    ensures OwnerStep(s, h, AbandonCleanup) ==
            WithRun(s, h, s.runs[h].(slot := false, owner := Over))
              .(tokens := s.tokens - (if s.runs[h].slot then 1 else 0))
  {
    Section(s, h, AbandonCleanup, s.runs[h].(slot := false, owner := Over), 0, if s.runs[h].slot then -1 else 0);
  }

  lemma CheckSection(s: State, h: Handle)
    requires InRange(s) && h < |s.runs| && s.runs[h].owner == Abandoning
    ensures var r := s.runs[h];
            OwnerStep(s, h, AbandonCheck) ==
            WithRun(s, h, if r.phase != Pending then r.(owner := CleaningUp)
                          else r.(detached := true, cancelled := true, owner := Dropping))
  {
    hide InRange;
  }

  lemma DropSection(s: State, h: Handle)
    requires InRange(s) && h < |s.runs|
    ensures OwnerStep(s, h, AbandonDrop) == if s.runs[h].owner == Dropping then DropStep(s, h) else s
  {
    hide InRange, DropStep, Acted;
  }

  lemma ReleaseSection(s: State, h: Handle)
    requires InRange(s) && h < |s.runs| && s.runs[h].owner in {Releasing, CleaningUp}
    ensures OwnerStep(s, h, AbandonRelease) ==
            if s.runs[h].owner == Releasing then WithRun(s, h, Released(s.runs[h]).(owner := CleaningUp)) else s
  {
    hide InRange, Released;
    assert s.runs[h := s.runs[h]] == s.runs;
  }

  lemma AbandonJoin(s: State, h: Handle)
    requires h < |s.runs| && s.runs[h].phase == Pending
    ensures var s1 := WithRun(s, h, s.runs[h].(detached := true, cancelled := true, owner := Dropping));
            var s2 := DropStep(s1, h);
            && s2.runs[h].owner == Releasing
            && WithRun(s2, h, Released(s2.runs[h]).(owner := CleaningUp)) == Abandoned(s, h)
  {
  }

  lemma ActsThree(s: State, h: Handle, a: Act, b: Act, c: Act)
    requires Inv(s) && h < |s.runs|
    ensures InRange(s) && InRange(OwnerStep(s, h, a)) && |OwnerStep(s, h, a).runs| == |s.runs|
    ensures var s1 := OwnerStep(s, h, a);
            && InRange(OwnerStep(s1, h, b)) && |OwnerStep(s1, h, b).runs| == |s.runs|
            && Acts(s, h, [a, b, c]) == OwnerStep(OwnerStep(s1, h, b), h, c)
  {
    hide Inv, InRange, Acts, OwnerStep;
    OwnerKeeps(s, h, a);
    ActsOne(s, h, a, [b, c]);
    var s1 := OwnerStep(s, h, a);
    OwnerKeeps(s1, h, b);
    ActsOne(s1, h, b, [c]);
    var s2 := OwnerStep(s1, h, b);
    OwnerKeeps(s2, h, c);
    ActsOne(s2, h, c, []);
    ActsOne(OwnerStep(s2, h, c), h, c, []);
    assert [a, b, c] == [a] + [b, c] && [b, c] == [b] + [c] && [c] == [c] + [];
  }

  lemma AbandonSections(s: State, h: Handle)
    requires Inv(s) && h < |s.runs| && s.runs[h].owner == Abandoning
    ensures Acts(s, h, ABANDON) == Abandoned(s, h)
  {
    hide Inv, InRange, Acts, OwnerStep, DropStep, Released, Abandoned;
    ActsThree(s, h, AbandonCheck, AbandonDrop, AbandonRelease);
    CheckSection(s, h);
    var s1 := OwnerStep(s, h, AbandonCheck);
    DropSection(s1, h);
    var s2 := OwnerStep(s1, h, AbandonDrop);
    if s.runs[h].phase == Pending {
      AbandonJoin(s, h);
    } else {
      AbandonNot(s, h);
    }
    ReleaseSection(s2, h);
  }

  lemma AbandonNot(s: State, h: Handle)
    requires h < |s.runs| && s.runs[h].phase != Pending
    ensures Abandoned(s, h) == WithRun(s, h, s.runs[h].(owner := CleaningUp))
  {
  }

  lemma NoSlotYet(s: State, h: Handle)
    requires Inv(s) && h < |s.runs| && s.runs[h].owner == Queued
    ensures !s.runs[h].slot && InRange(s)
  {
    RunPlace(s, h);
  }

  ghost predicate DoomedBefore(r: Run, stopped: bool) {
    r.cancelAsked || stopped || r.cancelled || r.reqEnded || r.detached
  }

  /** An open registry is not stopped either. */
  lemma OpenRuns(s: State)
    requires Inv(s)
    ensures InRange(s) && EachKeyOk(s) && (s.stopped ==> s.closed)
  {
  }

  /** A run that waits for its slot, with nothing done to it yet. */
  ghost predicate Waiting(r: Run) {
    && r.phase == Pending && r.owner == Queued && !r.slot
    && !r.cancelAsked && r.cancels == 0 && !r.cancelled
    && !r.reqEnded && !r.detached && !r.endPending && !r.gone && r.gc == Unset
  }

  lemma StartIs(s: State, h: Handle)
    requires InRange(s) && h < |s.runs| && s.runs[h].owner == Entered
    ensures OwnerStep(s, h, RegistryProtocol.Start) == WithRun(s, h, Started(s.runs[h], CtxErr(s, h)))
  {
    hide Started, CtxErr;
    Section(s, h, RegistryProtocol.Start, Started(s.runs[h], CtxErr(s, h)), 0, 0);
  }

  lemma StartSection(s: State, h: Handle)
    requires InRange(s) && h < |s.runs| && s.runs[h].owner == Entered && s.runs[h].phase == Pending
    ensures OwnerStep(s, h, RegistryProtocol.Start) ==
            WithRun(s, h, if DoomedBefore(s.runs[h], s.stopped) then s.runs[h].(owner := Leaving)
                          else s.runs[h].(detached := true, phase := Running, owner := Body))
  {
    StartIs(s, h);
    hide OwnerStep;
  }

  lemma BodyEndsSection(s: State, h: Handle)
    requires InRange(s) && h < |s.runs| && s.runs[h].owner == Body
    ensures OwnerStep(s, h, BodyEnds) == WithRun(s, h, s.runs[h].(owner := BodyCleanup))
  {
    Section(s, h, BodyEnds, s.runs[h].(owner := BodyCleanup), 0, 0);
  }

  lemma BodyCleansSection(s: State, h: Handle)
    requires InRange(s) && h < |s.runs| && s.runs[h].owner == BodyCleanup && s.runs[h].slot
    ensures OwnerStep(s, h, BodyCleans) ==
            WithRun(s, h, s.runs[h].(slot := false, owner := Completing)).(tokens := s.tokens - 1)
  {
    Section(s, h, BodyCleans, s.runs[h].(slot := false, owner := Completing), 0, -1);
  }

  lemma CompleteSection(s: State, h: Handle)
    requires InRange(s) && h < |s.runs| && s.runs[h].owner == Completing
    ensures OwnerStep(s, h, RegistryProtocol.Complete) == WithRun(s, h, s.runs[h].(phase := Done, owner := Finishing))
  {
    Section(s, h, RegistryProtocol.Complete, s.runs[h].(phase := Done, owner := Finishing), 0, 0);
  }

  lemma BodyHoldsSlot(s: State, h: Handle)
    requires Inv(s) && h < |s.runs| && s.runs[h].owner in {Body, BodyCleanup}
    ensures s.runs[h].slot && InRange(s)
  {
    RunPlace(s, h);
  }

  lemma FinishIs(s: State, h: Handle)
    requires InRange(s) && h < |s.runs| && s.runs[h].owner == Finishing
    ensures OwnerStep(s, h, RegistryProtocol.Finish) == FinishStep(s, h)
  {
  }

  lemma FinishSection(s: State, h: Handle)
    requires Inv(s) && h < |s.runs| && s.runs[h].owner == Finishing
    ensures InRange(s)
    ensures var n := OwnerStep(s, h, RegistryProtocol.Finish);
            && |n.runs| == |s.runs| && n.runs[h].owner == LeavingDone && n.tokens == s.tokens && n.active == s.active
            && !n.runs[h].slot && n.runs[h].phase == Done
  {
    RunPlace(s, h);
    OwnerKeeps(s, h, RegistryProtocol.Finish);
    OwnerCount(s, h, RegistryProtocol.Finish);
    FinishLeaves(s, h);
    RunPlace(OwnerStep(s, h, RegistryProtocol.Finish), h);
    hide OwnerStep;
  }

  /** The last so many of a list. */
  function Newest(list: seq<Handle>, n: nat): seq<Handle> {
    if |list| > n then list[|list| - n..] else list
  }

  /** A completed run that is still the map's own joins the newest 64 finished
      ones, with its buffer and a timer; one that is not changes nothing. */
  lemma FinishLists(s: State, h: Handle)
    requires Inv(s) && h < |s.runs| && s.runs[h].owner == Finishing
    ensures InRange(s)
    ensures var n := OwnerStep(s, h, RegistryProtocol.Finish);
            && |n.runs| == |s.runs|
            && n.finished == (if Mapped(s, h) then Newest(s.finished + [h], 64) else s.finished)
            && (Mapped(s, h) ==> Mapped(n, h) && !s.runs[h].gone)
            && (Mapped(s, h) ==> n.runs[h] == s.runs[h].(owner := LeavingDone, gc := Armed))
            && (!Mapped(s, h) ==> n.byId == s.byId && n.runs[h] == s.runs[h].(owner := LeavingDone))
  {
    hide Inv, Loose, InRange, Trim, RunOk, TimersOk, Listed, OwnerStep, Mapped, FinishStep, Newest;
    RunPlace(s, h);
    FinishIs(s, h);
    if Mapped(s, h) {
      LooseIs(s);
      MappedStays(s, h);
      ListKeeps(s, h);
      var s1 := WithRun(s, h, s.runs[h].(owner := LeavingDone)).(finished := s.finished + [h]);
      TrimKeeps(s1, h);
      FinishIsTrim(s, h, s1);
      NewestIs(s1.finished, Trim(s1).finished);
    } else {
      FinishIsNothing(s, h);
    }
  }

  lemma LooseIs(s: State)
    requires Inv(s)
    ensures Loose(s)
  {
  }

  lemma NewestIs(list: seq<Handle>, kept: seq<Handle>)
    requires |kept| == if |list| > MAX_FINISHED then MAX_FINISHED else |list|
    requires kept == list[|list| - |kept|..]
    ensures kept == Newest(list, 64)
  {
  }

  lemma FinishIsTrim(s: State, h: Handle, s1: State)
    requires InRange(s) && h < |s.runs| && s.runs[h].owner == Finishing && Mapped(s, h) && !s.runs[h].gone
    requires s1 == WithRun(s, h, s.runs[h].(owner := LeavingDone)).(finished := s.finished + [h])
    requires (forall i :: 0 <= i < |s1.finished| ==> s1.finished[i] < |s1.runs|) && |Trim(s1).runs| == |s1.runs|
    requires Mapped(Trim(s1), h) && Trim(s1).runs[h] == s1.runs[h]
    ensures var n := FinishStep(s, h);
            && |n.runs| == |s.runs| && n.finished == Trim(s1).finished && Mapped(n, h)
            && n.runs[h] == s.runs[h].(owner := LeavingDone, gc := Armed)
  {
    hide Trim;
  }

  lemma FinishIsNothing(s: State, h: Handle)
    requires InRange(s) && h < |s.runs| && s.runs[h].owner == Finishing && !Mapped(s, h)
    ensures FinishStep(s, h) == s.(runs := s.runs[h := s.runs[h].(owner := LeavingDone)])
  {
    hide Trim;
  }

  lemma FinishLeaves(s: State, h: Handle)
    requires Inv(s) && InRange(s) && h < |s.runs| && s.runs[h].owner == Finishing
    ensures var n := OwnerStep(s, h, RegistryProtocol.Finish);
            |n.runs| == |s.runs| && n.runs[h].owner == LeavingDone && n.tokens == s.tokens && n.active == s.active
  {
    OwnerCount(s, h, RegistryProtocol.Finish);
    var s1 := WithRun(s, h, s.runs[h].(owner := LeavingDone));
    var s2 := s1.(finished := s1.finished + [h]);
    TrimRuns(s2);
    TrimLeaves(s2, h);
    hide Trim, Mapped, Inv;
  }

  lemma {:induction false} TrimLeaves(s: State, h: Handle)
    requires (forall i :: 0 <= i < |s.finished| ==> s.finished[i] < |s.runs|) && h < |s.runs|
    ensures |Trim(s).runs| == |s.runs| && Trim(s).runs[h].owner == s.runs[h].owner
    ensures Trim(s).tokens == s.tokens && Trim(s).active == s.active
    decreases |s.finished|
  {
    if |s.finished| > MAX_FINISHED {
      WithoutFirst(s.finished);
      TrimLeaves(Forget(s, s.finished[0]), h);
    }
  }

  lemma LeaveDoneSection(s: State, h: Handle)
    requires InRange(s) && h < |s.runs| && s.runs[h].owner == LeavingDone
    ensures OwnerStep(s, h, RegistryProtocol.Leave) ==
            WithRun(s, h, s.runs[h].(cancelled := true, owner := Over)).(active := s.active - 1)
  {
    Section(s, h, RegistryProtocol.Leave, s.runs[h].(cancelled := true, owner := Over), -1, 0);
  }

  lemma CleanedRun(s: State, h: Handle)
    requires h < |s.runs|
    ensures var n := WithRun(s, h, s.runs[h].(slot := false, owner := Over))
                       .(tokens := s.tokens - (if s.runs[h].slot then 1 else 0));
            && Mapped(n, h) == Mapped(s, h) && |n.runs| == |s.runs| && n.runs[h].owner == Over && !n.runs[h].slot
            && n.runs[h].gone == s.runs[h].gone && n.runs[h].cancelled == s.runs[h].cancelled && n.active == s.active
  {
  }

  lemma ServingRun(s: State, h: Handle)
    requires Inv(s) && h < |s.runs| && s.runs[h].owner == Serving
    ensures s.runs[h].slot && s.runs[h].phase == Pending && InRange(s)
  {
    RunPlace(s, h);
  }

  lemma AbandonedRun(s: State, h: Handle)
    requires h < |s.runs| && s.runs[h].owner == Abandoning
    ensures var n := Abandoned(s, h);
            && |n.runs| == |s.runs| && n.runs[h].owner == CleaningUp && n.runs[h].slot == s.runs[h].slot
            && n.tokens == s.tokens && n.active == s.active
            && (s.runs[h].phase == Pending ==> !Mapped(n, h) && n.runs[h].gone && n.runs[h].cancelled)
  {
    hide AbandonedOne;
    AbandonedOneIs(s.runs[h]);
  }

  /** What is run when a run is over: its slot's release, or another cleanup by
      its place in the list. */
  datatype Cleanup = SlotBack | Other(n: nat)

  /** Every handler's list begins with the slot, and has it once. */
  predicate SlotFirst(cleanup: seq<Cleanup>) {
    cleanup != [] && cleanup[0] == SlotBack && forall k :: 0 < k < |cleanup| ==> cleanup[k] != SlotBack
  }

  function Reversed(cleanup: seq<Cleanup>): (r: seq<Cleanup>)
    ensures |r| == |cleanup|
  {
    if cleanup == [] then [] else [cleanup[|cleanup| - 1]] + Reversed(cleanup[..|cleanup| - 1])
  }

  lemma {:induction false} ReversedAt(cleanup: seq<Cleanup>, k: nat)
    requires k < |cleanup|
    ensures Reversed(cleanup)[k] == cleanup[|cleanup| - 1 - k]
  {
    if k > 0 {
      ReversedAt(cleanup[..|cleanup| - 1], k - 1);
    }
  }

  /** In reverse the slot comes after all the others, each of which has its turn. */
  lemma SlotLast(cleanup: seq<Cleanup>)
    requires SlotFirst(cleanup)
    ensures var ran := Reversed(cleanup);
            && ran[|ran| - 1] == SlotBack && (forall k :: 0 <= k < |ran| - 1 ==> ran[k] != SlotBack)
            && forall c :: c in cleanup ==> c in ran
  {
    forall k | 0 <= k < |cleanup|
      ensures Reversed(cleanup)[k] == cleanup[|cleanup| - 1 - k] && cleanup[k] in Reversed(cleanup)
    {
      ReversedAt(cleanup, k);
      ReversedAt(cleanup, |cleanup| - 1 - k);
    }
  }

  class RunRegistry {
    var runs: seq<Run>          // every run ever reserved; a handle is a pointer to one
    var byId: map<Id, Handle>
    var finished: seq<Handle>
    var closed: bool
    var stopped: bool
    var active: int
    var tokens: int
    var calls: seq<ReleaseCall>
    ghost var swept: bool

    ghost function View(): State
      reads this
    {
      State(runs, byId, finished, closed, stopped, swept, active, tokens, calls)
    }

    constructor ()
      ensures View() == INIT
    {
      runs, byId, finished := [], map[], [];
      closed, stopped, active, tokens, calls, swept := false, false, 0, 0, [], false;
    }

    method ForgetLocked(h: Handle)
      requires h < |runs|
      modifies this`runs, this`byId, this`finished
      ensures View() == Forget(old(View()), h)
    {
      var r := runs[h];
      if r.id in byId && byId[r.id] == h {
        byId := byId - {r.id};
      }
      var i := 0;
      while i < |finished|
        invariant i <= |finished| && finished == old(finished) && h !in finished[..i]
      {
        if finished[i] == h {
          WithoutCut(finished, i);
          finished := finished[..i] + finished[i + 1..];
          break;
        }
        i := i + 1;
      }
      if h !in old(finished) {
        WithoutNone(finished, h);
      }
      Release(h);
    }

    /** A second release does nothing; the first stops a timer still armed. */
    method Release(h: Handle)
      requires h < |runs|
      modifies this`runs
      ensures runs == old(runs)[h := Released(old(runs[h]))]
    {
      var r := runs[h];
      if r.gone {
        return;
      }
      r := r.(gone := true);
      if r.gc == Armed {
        r := r.(gc := Stopped);
      }
      runs := runs[h := r];
    }

    /** A run for an id nobody holds; a finished one under it is replaced. */
    method Reserve(id: Id) returns (run: Option<Handle>, why: Option<Refusal>)
      requires InRange(View()) && EachKeyOk(View())
      modifies this`runs, this`byId, this`finished
      ensures View() == ReserveStep(old(View()), id)
      ensures run.Some? <==> why.None?
      ensures run.Some? <==> !closed && (id !in old(byId) || old(runs[byId[id]].phase) == Done)
      ensures run.Some? ==> run.value == old(|runs|) && |runs| == old(|runs|) + 1 && byId == old(byId)[id := run.value]
      ensures run.Some? ==> runs[run.value].id == id && Waiting(runs[run.value])
      ensures run.Some? && !stopped ==> !CtxErr(View(), run.value) && !DoomedBefore(runs[run.value], stopped)
      ensures run.None? ==> View() == old(View())
      ensures why == Some(ShuttingDown) <==> closed
      ensures why == Some(AlreadyRunning) <==> !closed && id in old(byId) && old(runs[byId[id]].phase) != Done
    {
      if closed {
        return None, Some(ShuttingDown);
      }
      if id in byId {
        var earlier := byId[id];
        if runs[earlier].phase != Done {
          return None, Some(AlreadyRunning);
        }
        ForgetLocked(earlier);
      }
      runs := runs + [NewRun(id)];
      byId := byId[id := |runs| - 1];
      assert byId == old(byId)[id := |runs| - 1];
      return Some(|runs| - 1), None;
    }

    method Enter() returns (ok: bool)
      modifies this`active
      ensures ok == !closed && active == old(active) + if ok then 1 else 0
    {
      if closed {
        return false;
      }
      active := active + 1;
      return true;
    }

    /** start's own section: exactly a pending run that nothing ended before. */
    method Start(h: Handle) returns (why: Option<Refusal>)
      requires h < |runs|
      modifies this`runs
      ensures why.None? <==> old(runs[h].phase) == Pending && !old(DoomedBefore(runs[h], stopped))
      ensures why == Some(StartedTwice) <==> old(runs[h].phase) != Pending
      ensures runs == old(runs)[h := if why.None? then old(runs[h]).(detached := true, phase := Running, owner := Body)
                                     else old(runs[h]).(owner := Leaving)]
    {
      var r := runs[h];
      if r.phase != Pending {
        runs := runs[h := r.(owner := Leaving)];
        return Some(StartedTwice);
      }
      if r.cancelAsked || stopped || r.cancelled || r.reqEnded || r.detached {
        runs := runs[h := r.(owner := Leaving)];
        return Some(CancelledFirst);
      }
      r := r.(detached := true);
      r := r.(phase := Running, owner := Body);
      runs := runs[h := r];
      return None;
    }

    /** The send on the semaphore. */
    method TakeToken(h: Handle)
      requires Inv(View()) && h < |runs| && runs[h].owner == Queued && tokens < MAX_SESSIONS
      modifies this`runs, this`tokens
      ensures Inv(View()) && tokens == old(tokens) + 1
      ensures runs == old(runs)[h := old(runs[h]).(slot := true, owner := Holding)]
    {
      hide Inv, InRange, OwnerStep, Acted, Entering, Taking;
      OwnerKeeps(View(), h, TakeSlot);
      TakeSection(View(), h);
      runs, tokens := runs[h := runs[h].(slot := true, owner := Holding)], tokens + 1;
    }

    /** The second look at the context, which wins. */
    method LookAgain(h: Handle) returns (ok: bool)
      requires Inv(View()) && h < |runs| && runs[h].owner == Holding && runs[h].slot
      modifies this`runs, this`tokens
      ensures Inv(View()) && (ok <==> !old(CtxErr(View(), h)))
      ensures runs == old(runs)[h := old(runs[h]).(slot := ok, owner := if ok then Serving else Abandoning)]
      ensures tokens == old(tokens) - (if ok then 0 else 1)
    {
      hide Inv, InRange, OwnerStep, Acted, Entering, Taking;
      OwnerKeeps(View(), h, Recheck);
      RecheckSection(View(), h);
      ok := !(stopped || runs[h].cancelled);
      if ok {
        runs := runs[h := runs[h].(owner := Serving)];
      } else {
        runs, tokens := runs[h := runs[h].(slot := false, owner := Abandoning)], tokens - 1;
      }
    }

    /** A token is there: it is taken, and put back when the context ended
        meanwhile. */
    method TakeASlot(h: Handle) returns (ok: bool)
      requires Inv(View()) && h < |runs| && runs[h].owner == Queued && tokens < MAX_SESSIONS
      modifies this`runs, this`tokens
      ensures Inv(View()) && (ok <==> !old(CtxErr(View(), h)))
      ensures runs == old(runs)[h := old(runs[h]).(slot := ok, owner := if ok then Serving else Abandoning)]
      ensures tokens == old(tokens) + (if ok then 1 else 0)
    {
      hide Inv;
      TakeToken(h);
      ok := LookAgain(h);
    }

    /** queueDurable's select and its second look at the context. slotFirst says
        what a select with both ready picks. */
    method WaitForSlot(h: Handle, slotFirst: bool) returns (ok: bool)
      requires Inv(View()) && h < |runs| && runs[h].owner == Queued
      requires tokens < MAX_SESSIONS || CtxErr(View(), h)
      modifies this`runs, this`tokens
      ensures Inv(View()) && (ok <==> !old(CtxErr(View(), h)))
      ensures runs == old(runs)[h := old(runs[h]).(slot := ok, owner := if ok then Serving else Abandoning)]
      ensures tokens == old(tokens) + (if ok then 1 else 0)
    {
      hide Inv, InRange, OwnerStep;
      var ended := stopped || runs[h].cancelled;
      if tokens < MAX_SESSIONS && (slotFirst || !ended) {
        ok := TakeASlot(h);
        return;
      }
      NoSlotYet(View(), h);
      OwnerKeeps(View(), h, GiveUp);
      GiveUpSection(View(), h);
      runs := runs[h := runs[h].(owner := Abandoning)];
      ok := false;
    }

    /** abandon: a run that never started leaves the map and gives its buffer
        up; one that has is left alone. */
    method Abandon(h: Handle)
      requires h < |runs|
      modifies this`runs, this`byId
      ensures View() == Abandoned(old(View()), h)
      ensures old(runs[h]).phase == Pending ==>
                runs[h].detached && runs[h].cancelled && runs[h].gone && !Mapped(View(), h)
      ensures old(runs[h]).phase != Pending ==> runs == old(runs)[h := old(runs[h]).(owner := CleaningUp)]
    {
      var r := runs[h];
      if r.phase != Pending {
        runs := runs[h := r.(owner := CleaningUp)];
        return;
      }
      runs := runs[h := r.(detached := true, cancelled := true)];
      if r.id in byId && byId[r.id] == h {
        byId := byId - {r.id};
      }
      Release(h);
      runs := runs[h := runs[h].(owner := CleaningUp)];
    }

    /** releaseSlot: the slot goes back, once. */
    method ReleaseSlot(h: Handle)
      requires h < |runs|
      modifies this`runs, this`tokens
      ensures runs == old(runs)[h := old(runs[h]).(slot := false)]
      ensures tokens == old(tokens) - (if old(runs[h].slot) then 1 else 0)
    {
      if runs[h].slot {
        tokens := tokens - 1;
      }
      runs := runs[h := runs[h].(slot := false)];
    }

    /** runCleanup: the cleanups in reverse, what ran so far in `ran`. The slot
        is held as long as there is another to run. */
    method RunCleanup(h: Handle, cleanup: seq<Cleanup>) returns (ran: seq<Cleanup>)
      requires h < |runs| && SlotFirst(cleanup)
      modifies this`runs, this`tokens
      ensures ran == Reversed(cleanup)
      ensures runs == old(runs)[h := old(runs[h]).(slot := false)]
      ensures tokens == old(tokens) - (if old(runs[h].slot) then 1 else 0)
    {
      ran := [];
      var i := |cleanup|;
      assert cleanup[..i] == cleanup && ran + Reversed(cleanup) == Reversed(cleanup);
      while i > 0
        invariant 0 <= i <= |cleanup| && Reversed(cleanup) == ran + Reversed(cleanup[..i])
        invariant i > 0 ==> runs == old(runs) && tokens == old(tokens)
        invariant i == 0 ==> runs == old(runs)[h := old(runs[h]).(slot := false)]
        invariant i == 0 ==> tokens == old(tokens) - (if old(runs[h].slot) then 1 else 0)
      {
        i := i - 1;
        assert cleanup[..i + 1][..i] == cleanup[..i];
        if cleanup[i] == SlotBack {
          ReleaseSlot(h);
        }
        ran := ran + [cleanup[i]];
      }
    }

    /** A run that never starts: abandoned and cleaned up after. */
    method NeverStarted(h: Handle, cleanup: seq<Cleanup>) returns (ran: seq<Cleanup>)
      requires Inv(View()) && h < |runs| && runs[h].owner == Abandoning && SlotFirst(cleanup)
      modifies this`runs, this`byId, this`tokens
      ensures Inv(View()) && |runs| == old(|runs|) && runs[h].owner == Over && !runs[h].slot
      ensures tokens == old(tokens) - (if old(runs[h].slot) then 1 else 0) && ran == Reversed(cleanup)
      ensures old(runs[h].phase) == Pending ==> !Mapped(View(), h) && runs[h].gone && runs[h].cancelled
    {
      hide Inv, InRange, Acts, OwnerStep, Abandoned, Released, Mapped;
      ghost var s := View();
      AbandonSections(s, h);
      AbandonedRun(s, h);
      Abandon(h);
      ran := CleanUp(h, cleanup);
    }

    /** runCleanup of a run that never started. */
    method CleanUp(h: Handle, cleanup: seq<Cleanup>) returns (ran: seq<Cleanup>)
      requires Inv(View()) && h < |runs| && runs[h].owner == CleaningUp && SlotFirst(cleanup)
      modifies this`runs, this`tokens
      ensures Inv(View()) && |runs| == old(|runs|) && runs[h].owner == Over && !runs[h].slot
      ensures tokens == old(tokens) - (if old(runs[h].slot) then 1 else 0)
      ensures Mapped(View(), h) == old(Mapped(View(), h)) && ran == Reversed(cleanup)
      ensures runs[h].gone == old(runs[h].gone) && runs[h].cancelled == old(runs[h].cancelled)
    {
      hide Inv, InRange, OwnerStep, Mapped;
      ghost var n := View();
      OwnerKeeps(n, h, AbandonCleanup);
      CleanupSection(n, h);
      CleanedRun(n, h);
      ran := RunCleanup(h, cleanup);
      runs := runs[h := runs[h].(owner := Over)];
      assert runs == n.runs[h := n.runs[h].(slot := false, owner := Over)];
      assert View() == OwnerStep(n, h, AbandonCleanup);
    }

    /** The registry's enter, taken by a run's owner, and the leave of one that
        was refused after it. */
    method EnterRun(h: Handle) returns (ok: bool)
      requires Inv(View()) && h < |runs| && runs[h].owner == Serving
      modifies this`runs, this`active
      ensures Inv(View())
      ensures ok == !closed && runs == old(runs)[h := old(runs[h]).(owner := if ok then Entered else Abandoning)]
      ensures active == old(active) + (if ok then 1 else 0)
    {
      hide Inv, InRange, OwnerStep;
      OwnerKeeps(View(), h, RegistryProtocol.Enter);
      EnterSection(View(), h);
      ok := Enter();
      runs := runs[h := runs[h].(owner := if ok then Entered else Abandoning)];
    }

    method LeaveRun(h: Handle)
      requires Inv(View()) && h < |runs| && runs[h].owner == Leaving
      modifies this`runs, this`active
      ensures Inv(View())
      ensures runs == old(runs)[h := old(runs[h]).(owner := Abandoning)] && active == old(active) - 1
    {
      hide Inv, InRange, OwnerStep;
      OwnerKeeps(View(), h, LeaveRefused);
      LeaveSection(View(), h);
      active := active - 1;
      runs := runs[h := runs[h].(owner := Abandoning)];
    }

    /** run.start: counted in and running, or refused and counted out again. */
    method StartRun(h: Handle) returns (started: bool)
      requires Inv(View()) && h < |runs| && runs[h].owner == Serving
      modifies this`runs, this`active
      ensures Inv(View()) && |runs| == old(|runs|)
      ensures started <==> !closed && !old(DoomedBefore(runs[h], stopped))
      ensures runs == old(runs)[h := if started then old(runs[h]).(detached := true, phase := Running, owner := Body)
                                     else old(runs[h]).(owner := Abandoning)]
      ensures active == old(active) + (if started then 1 else 0)
    {
      hide Inv, InRange, OwnerStep;
      ServingRun(View(), h);
      ghost var r := runs[h];
      var ok := EnterRun(h);
      if !ok {
        return false;
      }
      started := StartEntered(h);
      if !started {
        LeaveRun(h);
      }
      assert runs == old(runs)[h := if started then r.(detached := true, phase := Running, owner := Body)
                                    else r.(owner := Abandoning)];
    }

    /** Its own section, of a run that was counted in. */
    method StartEntered(h: Handle) returns (started: bool)
      requires Inv(View()) && h < |runs| && runs[h].owner == Entered && runs[h].phase == Pending
      modifies this`runs
      ensures Inv(View()) && (started <==> !old(DoomedBefore(runs[h], stopped)))
      ensures runs == old(runs)[h := if started then old(runs[h]).(detached := true, phase := Running, owner := Body)
                                     else old(runs[h]).(owner := Leaving)]
    {
      hide Inv, InRange, OwnerStep, DoomedBefore;
      OwnerKeeps(View(), h, RegistryProtocol.Start);
      StartSection(View(), h);
      var why := Start(h);
      started := why.None?;
    }

    method RefuseStream(h: Handle)
      requires Inv(View()) && h < |runs| && runs[h].owner == Serving
      modifies this`runs
      ensures Inv(View()) && runs == old(runs)[h := old(runs[h]).(owner := Abandoning)]
    {
      hide Inv, InRange, OwnerStep;
      OwnerKeeps(View(), h, NotStreamable);
      EnterSection(View(), h);
      runs := runs[h := runs[h].(owner := Abandoning)];
    }

    /** serveDurable up to its stream: the body is on its way with the slot its
        run holds, or everything is given back and the run is gone. */
    method ServeDurable(h: Handle, streamable: bool, cleanup: seq<Cleanup>) returns (started: bool, ran: seq<Cleanup>)
      requires Inv(View()) && h < |runs| && runs[h].owner == Serving && SlotFirst(cleanup)
      modifies this`runs, this`byId, this`active, this`tokens
      ensures Inv(View()) && |runs| == old(|runs|)
      ensures started <==> streamable && !closed && !old(DoomedBefore(runs[h], stopped))
      ensures started ==> runs[h] == old(runs[h]).(detached := true, phase := Running, owner := Body) && runs[h].slot
      ensures started ==> tokens == old(tokens) && active == old(active) + 1 && byId == old(byId)
      ensures !started ==> runs[h].owner == Over && !runs[h].slot && runs[h].gone && !Mapped(View(), h)
      ensures !started ==> tokens == old(tokens) - 1 && active == old(active)
      ensures ran == if started then [] else Reversed(cleanup)
    {
      hide Inv, InRange, OwnerStep, Mapped;
      ServingRun(View(), h);
      started, ran := false, [];
      if streamable {
        started := StartRun(h);
      } else {
        RefuseStream(h);
      }
      if !started {
        ran := NeverStarted(h, cleanup);
      }
    }

    /** queueDurable, with nobody else about: a reserved run and its slot, or a
        refusal that leaves the registry as it was. */
    method QueueDurable(id: Id, slotFirst: bool) returns (run: Option<Handle>, why: Option<Refusal>)
      requires Inv(View()) && tokens < MAX_SESSIONS
      modifies this`runs, this`byId, this`finished, this`tokens
      ensures Inv(View()) && active == old(active)
      ensures run.Some? <==> !closed && (id !in old(byId) || old(runs[byId[id]].phase) == Done)
      ensures run.Some? ==> run.value < |runs| && runs[run.value].owner == Serving && runs[run.value].slot
      ensures run.Some? ==> !DoomedBefore(runs[run.value], stopped) && Mapped(View(), run.value)
      ensures run.Some? ==> runs[run.value].id == id && tokens == old(tokens) + 1
      ensures run.None? ==> View() == old(View())
    {
      hide Inv, ReserveStep;
      ReserveKeeps(View(), id);
      OpenRuns(View());
      run, why := Reserve(id);
      if run.None? {
        return;
      }
      var ok := WaitForSlot(run.value, slotFirst);
    }

    /** A call whose run nobody interferes with: its body runs, exactly when the
        registry is open, the id is free or done, and the response can be
        streamed; otherwise it leaves nothing behind. */
    method CallAlone(id: Id, slotFirst: bool, streamable: bool, cleanup: seq<Cleanup>) returns (run: Option<Handle>)
      requires Inv(View()) && tokens < MAX_SESSIONS && SlotFirst(cleanup)
      modifies this`runs, this`byId, this`finished, this`active, this`tokens
      ensures Inv(View())
      ensures run.Some? <==> !closed && (id !in old(byId) || old(runs[byId[id]].phase) == Done) && streamable
      ensures run.Some? ==> id in byId && byId[id] == run.value < |runs| && runs[run.value].phase == Running
      ensures run.Some? ==> Executing(runs[run.value]) && runs[run.value].slot && !CtxErr(View(), run.value)
      ensures run.Some? ==> tokens == old(tokens) + 1 && active == old(active) + 1
      ensures run.None? ==> tokens == old(tokens) && active == old(active)
    {
      hide Inv;
      var h, why := QueueDurable(id, slotFirst);
      if h.None? {
        return None;
      }
      var started, ran := ServeDurable(h.value, streamable, cleanup);
      run := if started then h else None;
    }

    /** The oldest finished runs beyond the bound are forgotten. */
    method EvictFinished(ghost except: int)
      requires Loose(View()) && TimersOk(View(), except) && finished != [] && InRange(View())
      modifies this`runs, this`byId, this`finished
      ensures View() == Trim(old(View()))
    {
      hide Loose, TimersOk, Released, RunOk, Distinct, Listed;
      ghost var listed := View();
      while |finished| > MAX_FINISHED
        invariant Loose(View()) && TimersOk(View(), except) && finished != [] && InRange(View())
        invariant Trim(View()) == Trim(listed)
        decreases |finished|
      {
        FinishedEnds(View());
        WithoutFirst(finished);
        ForgetKeeps(View(), finished[0], except);
        ForgetLocked(finished[0]);
        FinishedEnds(View());
      }
    }

    /** The registry's end of a completed run: listed, the oldest beyond the
        bound forgotten, its timer armed. */
    method Finish(h: Handle)
      requires Inv(View()) && h < |runs| && runs[h].owner == Finishing
      modifies this`runs, this`byId, this`finished
      ensures View() == OwnerStep(old(View()), h, RegistryProtocol.Finish)
    {
      hide Inv, Loose, InRange, TimersOk, Released, Without, RunOk, Distinct, Listed, Trim, OwnerStep;
      RunPlace(View(), h);
      FinishIs(View(), h);
      runs := runs[h := runs[h].(owner := LeavingDone)];
      if runs[h].id !in byId || byId[runs[h].id] != h {
        return;
      }
      ListKeeps(old(View()), h);
      finished := finished + [h];
      FinishedEnds(View());
      TrimKeeps(View(), h);
      EvictFinished(h);
      if !runs[h].gone {
        runs := runs[h := runs[h].(gc := Armed)];
      }
    }

    /** execute: the body is over, by a return or a panic. */
    method EndBody(h: Handle)
      requires Inv(View()) && h < |runs| && runs[h].owner == Body
      modifies this`runs
      ensures Inv(View()) && runs == old(runs)[h := old(runs[h]).(owner := BodyCleanup)]
    {
      hide Inv, InRange, OwnerStep;
      OwnerKeeps(View(), h, BodyEnds);
      BodyEndsSection(View(), h);
      runs := runs[h := runs[h].(owner := BodyCleanup)];
    }

    /** Its deferred cleanups, the slot last. */
    method CleanUpBody(h: Handle, cleanup: seq<Cleanup>) returns (ran: seq<Cleanup>)
      requires Inv(View()) && h < |runs| && runs[h].owner == BodyCleanup && SlotFirst(cleanup)
      modifies this`runs, this`tokens
      ensures Inv(View()) && tokens == old(tokens) - 1 && ran == Reversed(cleanup)
      ensures runs == old(runs)[h := old(runs[h]).(slot := false, owner := Completing)]
    {
      hide Inv, InRange, OwnerStep;
      ghost var s := View();
      BodyHoldsSlot(s, h);
      OwnerKeeps(s, h, BodyCleans);
      BodyCleansSection(s, h);
      ran := RunCleanup(h, cleanup);
      runs := runs[h := runs[h].(owner := Completing)];
      assert View() == OwnerStep(s, h, BodyCleans);
    }

    /** complete's own section, of which the frames are told elsewhere. */
    method Complete(h: Handle)
      requires Inv(View()) && h < |runs| && runs[h].owner == Completing
      modifies this`runs
      ensures Inv(View())
      ensures runs == old(runs)[h := old(runs[h]).(phase := Done, owner := Finishing)]
    {
      hide Inv, InRange, OwnerStep;
      OwnerKeeps(View(), h, RegistryProtocol.Complete);
      CompleteSection(View(), h);
      runs := runs[h := runs[h].(phase := Done, owner := Finishing)];
    }

    /** The registry's end of the run, taken by the run's own goroutine. */
    method FinishRun(h: Handle)
      requires Inv(View()) && h < |runs| && runs[h].owner == Finishing
      modifies this`runs, this`byId, this`finished
      ensures Inv(View()) && |runs| == old(|runs|) && |finished| <= MAX_FINISHED
      ensures runs[h].owner == LeavingDone && !runs[h].slot && runs[h].phase == Done
      ensures finished == if old(Mapped(View(), h)) then Newest(old(finished) + [h], 64) else old(finished)
      ensures old(Mapped(View(), h)) ==> Mapped(View(), h) && runs[h].gc == Armed && !runs[h].gone
      ensures !old(Mapped(View(), h)) ==> byId == old(byId) && runs[h].gc == old(runs[h].gc)
    {
      hide Loose, InRange, OwnerStep, TimersOk;
      OwnerKeeps(View(), h, RegistryProtocol.Finish);
      FinishLists(View(), h);
      FinishSection(View(), h);
      Finish(h);
    }

    /** execute's deferred cancel and leave. */
    method LeaveDoneRun(h: Handle)
      requires Inv(View()) && h < |runs| && runs[h].owner == LeavingDone
      modifies this`runs, this`active
      ensures Inv(View()) && active == old(active) - 1
      ensures runs == old(runs)[h := old(runs[h]).(cancelled := true, owner := Over)]
    {
      hide Inv, InRange, OwnerStep;
      OwnerKeeps(View(), h, RegistryProtocol.Leave);
      LeaveDoneSection(View(), h);
      active := active - 1;
      runs := runs[h := runs[h].(cancelled := true, owner := Over)];
    }

    /** The body's end, its cleanups, and complete. */
    method CompleteRun(h: Handle, cleanup: seq<Cleanup>) returns (ran: seq<Cleanup>)
      requires Inv(View()) && h < |runs| && runs[h].owner == Body && SlotFirst(cleanup)
      modifies this`runs, this`tokens
      ensures Inv(View()) && tokens == old(tokens) - 1 && ran == Reversed(cleanup)
      ensures runs == old(runs)[h := old(runs[h]).(slot := false, phase := Done, owner := Finishing)]
    {
      hide Inv;
      EndBody(h);
      ran := CleanUpBody(h, cleanup);
      Complete(h);
      assert runs == old(runs)[h := old(runs[h]).(slot := false, phase := Done, owner := Finishing)];
    }

    /** execute from the end of the body on: the run is done and listed, its slot
        is back, and it is counted out. */
    method EndRun(h: Handle, cleanup: seq<Cleanup>) returns (ran: seq<Cleanup>)
      requires Inv(View()) && h < |runs| && runs[h].owner == Body && SlotFirst(cleanup)
      modifies this`runs, this`byId, this`finished, this`active, this`tokens
      ensures Inv(View()) && |runs| == old(|runs|)
      ensures runs[h].owner == Over && !runs[h].slot && runs[h].phase == Done && runs[h].cancelled
      ensures tokens == old(tokens) - 1 && active == old(active) - 1 && ran == Reversed(cleanup)
      ensures finished == if old(Mapped(View(), h)) then Newest(old(finished) + [h], 64) else old(finished)
      ensures old(Mapped(View(), h)) ==> Mapped(View(), h) && runs[h].gc == Armed && !runs[h].gone
      ensures !old(Mapped(View(), h)) ==> byId == old(byId) && runs[h].gc == old(runs[h].gc)
    {
      hide Inv;
      ran := CompleteRun(h, cleanup);
      FinishRun(h);
      LeaveDoneRun(h);
    }

    /** The retention timer's goroutine. */
    method Expire(h: Handle)
      requires InRange(View()) && h < |runs| && runs[h].gc == Fired
      modifies this`runs, this`byId, this`finished
      ensures View() == OutsideStep(old(View()), h, TimerForgets)
    {
      ForgetLocked(h);
      runs := runs[h := runs[h].(gc := Stopped)];
    }

    /** cancelRun: find the run, mark it unless it is done, then cancel its
        context. */
    method CancelRun(id: Id) returns (live: bool)
      requires InRange(View())
      modifies this`runs
      ensures live <==> id in byId && old(runs[byId[id]].phase) != Done
      ensures live ==> byId[id] < |runs| && runs[byId[id]].cancelAsked && runs[byId[id]].cancelled
      ensures View() == if !live then old(View())
                        else OutsideStep(OutsideStep(old(View()), byId[id], CancelAsk), byId[id], CancelContext)
    {
      if id !in byId {
        return false;
      }
      var h := byId[id];
      var r := runs[h];
      live := r.phase != Done;
      if live {
        runs := runs[h := r.(cancelAsked := true, cancels := r.cancels + 1)];
        r := runs[h];
        runs := runs[h := r.(cancels := r.cancels - 1, cancelled := true)];
      }
    }

    method Shutdown()
      modifies this`closed, this`stopped
      ensures View() == Next(Next(old(View()), CloseGate), StopAll)
      requires InRange(View())
    {
      closed := true;
      stopped := true;
    }

    /** close's last section: every mapped run is forgotten. */
    method CloseRuns()
      requires Inv(View()) && stopped
      modifies this`runs, this`byId, this`finished, this`swept
      ensures View() == SweepStep(old(View()))
    {
      hide Loose, TimersOk, Released;
      ghost var s := View();
      SweepFacts(s);
      var all := byId.Keys;
      var todo := all;
      while todo != {}
        invariant todo <= all == s.byId.Keys && Swept(s, View(), todo)
        decreases todo
      {
        var id :| id in todo;
        SweptMore(s, View(), todo, id);
        ForgetLocked(byId[id]);
        todo := todo - {id};
      }
      SweptAll(s, View());
      swept := true;
    }
  }

  /** Between s and v the runs of every key but those in todo were forgotten. */
  ghost predicate Swept(s: State, v: State, todo: set<Id>) {
    && v == s.(runs := v.runs, byId := v.byId, finished := v.finished)
    && InRange(s) && InRange(v) && |v.runs| == |s.runs| && Distinct(v.finished)
    && v.byId == (map id | id in s.byId && id in todo :: s.byId[id])
    && (forall id :: id in s.byId ==> s.runs[s.byId[id]].id == id)
    && (forall h :: 0 <= h < |s.runs| ==>
          v.runs[h] == if Mapped(s, h) && s.runs[h].id !in todo then Released(s.runs[h]) else s.runs[h])
    && (forall h :: h in v.finished ==> Mapped(s, h) && s.runs[h].id in todo)
  }

  lemma SweepFacts(s: State)
    requires Inv(s)
    ensures InRange(s) && Swept(s, s, s.byId.Keys)
  {
    hide OwnerOk, ContextOk, OneRunningPerId;
    assert s.byId == map id | id in s.byId && id in s.byId.Keys :: s.byId[id];
    forall h | h in s.finished ensures Mapped(s, h) {
      assert Listed(s, h);
    }
  }

  /** The lists after one more run is forgotten. */
  lemma SweptLists(s: State, v: State, todo: set<Id>, id: Id)
    requires Swept(s, v, todo) && id in todo && todo <= s.byId.Keys
    ensures id in v.byId && v.byId[id] < |v.runs| && Mapped(s, v.byId[id]) && v.byId[id] == s.byId[id]
    ensures v.runs[v.byId[id]] == s.runs[v.byId[id]] && s.runs[v.byId[id]].id == id
    ensures var f := Forget(v, v.byId[id]);
            && f.byId == (map k | k in s.byId && k in todo - {id} :: s.byId[k]) && Distinct(f.finished)
            && forall g :: g in f.finished ==> g != v.byId[id] && g in v.finished
  {
    hide Released, Distinct;
    var h := v.byId[id];
    WithoutKeeps(v.finished, h);
    assert Mapped(v, h);
    assert Forget(v, h).byId == map k | k in s.byId && k in todo - {id} :: s.byId[k];
  }

  lemma SweptMore(s: State, v: State, todo: set<Id>, id: Id)
    requires Swept(s, v, todo) && id in todo && todo <= s.byId.Keys
    ensures id in v.byId && v.byId[id] < |v.runs| && Swept(s, Forget(v, v.byId[id]), todo - {id})
  {
    SweptLists(s, v, todo, id);
    var h := v.byId[id];
    var f := Forget(v, h);
    hide Released, Distinct, Without;
    assert forall i :: 0 <= i < |f.finished| ==> f.finished[i] in f.finished;
    forall g | 0 <= g < |s.runs| && Mapped(s, g) && s.runs[g].id == id
      ensures g == h
    {
    }
    assert f.runs == v.runs[h := Released(v.runs[h])];
  }

  lemma SomeFinished(finished: seq<nat>)
    ensures finished != [] ==> exists h :: h in finished
  {
    if finished != [] {
      assert finished[0] in finished;
    }
  }

  lemma SweptAll(s: State, v: State)
    requires Swept(s, v, {})
    ensures v.(swept := true) == SweepStep(s)
  {
    assert v.byId == map[];
    SomeFinished(v.finished);
    assert v.runs == SweepStep(s).runs;
  }
}
