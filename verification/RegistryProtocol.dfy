// The run registry (desktop/runner/runs.go) as a protocol. Every critical
// section of the registry's and of a run's lock, every operation on a run's
// context and every move of the session semaphore is one step; a sequence of
// steps is one interleaving of any number of handlers, runs, timers, cancels
// and the shutdown.
module RegistryProtocol {
  type Id = string

  // A run is named by its place in the list of all runs ever reserved, as its
  // pointer names it in the program.
  type Handle = nat

  const MAX_SESSIONS: nat := 16
  const MAX_FINISHED: nat := 64

  datatype Phase = Pending | Running | Done

  /** The retention timer. Fired: its goroutine runs, and will take the lock. */
  datatype Timer = Unset | Armed | Fired | Stopped

  /** What the goroutine that owns a run does next. */
  datatype Owner =
    | Queued       // select on the semaphore and the run's context
    | Holding      // a slot taken; look at the context once more
    | Serving      // queueDurable answered; write the config, start
    | Entered      // start: the registry counted it in
    | Leaving      // start: the run's own section refused it
    | Abandoning   // abandon: read the phase, detach, cancel
    | Dropping     // abandon: out of the map
    | Releasing    // abandon: release
    | CleaningUp   // runCleanup of a run that never started
    | Body         // the body executes
    | BodyCleanup  // the body returned or panicked; its deferred cleanups
    | Completing   // complete
    | Finishing    // the registry's finish
    | LeavingDone  // cancel the context; leave
    | Over

  datatype Run = Run(
    id: Id, phase: Phase, owner: Owner, slot: bool,
    cancelAsked: bool,
    cancels: nat,        // cancelRun calls that marked the run and are about to cancel its context
    cancelled: bool,     // its own context was cancelled
    reqEnded: bool,      // the request's context ended
    detached: bool,      // the request's context can no longer reach the run's
    endPending: bool,    // the request's end is on its way to the run's context
    gone: bool, gc: Timer)

  /** A mobile release, which takes a token of the same semaphore for itself:
      at its select, looking at its context once more, at work with its deferred
      return ahead, or gone. */
  datatype ReleaseCall = Selecting | Looking | Working | Returned

  datatype State = State(
    runs: seq<Run>, byId: map<Id, Handle>, finished: seq<Handle>,
    closed: bool,
    stopped: bool,       // the registry's context was cancelled
    swept: bool,         // close took every run out
    active: int, tokens: int,
    calls: seq<ReleaseCall>)

  /** The sections of the goroutine that owns a run: the handler until start,
      the run's own goroutine from then on. */
  datatype Act =
    | GiveUp           // queueDurable: the context ended first
    | TakeSlot
    | Recheck
    | ConfigRefused    // handleClaudeRun: the MCP file could not be written
    | NotStreamable
    | Enter
    | Start
    | LeaveRefused
    | AbandonCheck
    | AbandonDrop
    | AbandonRelease
    | AbandonCleanup
    | BodyEnds
    | BodyCleans
    | Complete
    | Finish
    | Leave

  /** What everybody else does to a run: its request, cancels, its timer. */
  datatype Outside =
    | RequestEnds
    | RequestCancels
    | CancelAsk
    | CancelContext
    | TimerFires
    | TimerForgets

  datatype Step =
    | Reserve(id: Id)
    | Own(h: Handle, act: Act)
    | Touch(h: Handle, move: Outside)
    | CallArrives
    | Call(i: nat, ended: bool)  // a release call goes on; ended: its context has
    | CloseGate
    | StopAll
    | Sweep

  const INIT := State([], map[], [], false, false, false, 0, 0, [])

  predicate Mapped(s: State, h: Handle)
    requires h < |s.runs|
  {
    s.runs[h].id in s.byId && s.byId[s.runs[h].id] == h
  }

  predicate CtxErr(s: State, h: Handle)
    requires h < |s.runs|
  {
    s.stopped || s.runs[h].cancelled
  }

  function NewRun(id: Id): Run {
    Run(id, Pending, Queued, false, false, 0, false, false, false, false, false, Unset)
  }

  /** release: the buffer goes and the timer is stopped. */
  function Released(r: Run): Run {
    r.(gone := true, gc := if r.gc == Armed && !r.gone then Stopped else r.gc)
  }

  function Without(list: seq<Handle>, h: Handle): seq<Handle> {
    if list == [] then []
    else if list[0] == h then list[1..]
    else [list[0]] + Without(list[1..], h)
  }

  lemma {:induction false} WithoutNone(list: seq<Handle>, h: Handle)
    requires h !in list
    ensures Without(list, h) == list
  {
    if list != [] {
      assert list == [list[0]] + list[1..];
      WithoutNone(list[1..], h);
    }
  }

  /** forgetLocked. */
  function Forget(s: State, h: Handle): State
    requires h < |s.runs|
  {
    s.(byId := if Mapped(s, h) then s.byId - {s.runs[h].id} else s.byId,
       finished := Without(s.finished, h),
       runs := s.runs[h := Released(s.runs[h])])
  }

  /** The oldest finished runs beyond the bound are forgotten. */
  function Trim(s: State): State
    requires forall i :: 0 <= i < |s.finished| ==> s.finished[i] < |s.runs|
    decreases |s.finished|
  {
    if |s.finished| > MAX_FINISHED then
      WithoutFirst(s.finished);
      Trim(Forget(s, s.finished[0]))
    else s
  }

  lemma WithoutFirst(list: seq<Handle>)
    requires list != []
    ensures Without(list, list[0]) == list[1..]
  {
  }

  function WithRun(s: State, h: Handle, r: Run): State
    requires h < |s.runs|
  {
    s.(runs := s.runs[h := r])
  }

  function ReserveStep(s: State, id: Id): State
    requires forall k :: k in s.byId ==> s.byId[k] < |s.runs|
  {
    if s.closed || (id in s.byId && s.runs[s.byId[id]].phase != Done) then s
    else
      var s1 := if id in s.byId then Forget(s, s.byId[id]) else s;
      s1.(runs := s1.runs + [NewRun(id)], byId := s1.byId[id := |s1.runs|])
  }

  function FinishStep(s: State, h: Handle): State
    requires h < |s.runs| && forall i :: 0 <= i < |s.finished| ==> s.finished[i] < |s.runs|
  {
    var s0 := WithRun(s, h, s.runs[h].(owner := LeavingDone));
    if !Mapped(s, h) then s0
    else
      var s1 := Trim(s0.(finished := s0.finished + [h]));
      TrimRuns(s0.(finished := s0.finished + [h]));
      if s1.runs[h].gone then s1 else WithRun(s1, h, s1.runs[h].(gc := Armed))
  }

  lemma {:induction false} TrimRuns(s: State)
    requires forall i :: 0 <= i < |s.finished| ==> s.finished[i] < |s.runs|
    ensures |Trim(s).runs| == |s.runs|
    decreases |s.finished|
  {
    if |s.finished| > MAX_FINISHED {
      WithoutFirst(s.finished);
      TrimRuns(Forget(s, s.finished[0]));
    }
  }

  /** close's last section: every mapped run is forgotten. */
  function SweepStep(s: State): State {
    s.(runs := seq(|s.runs|, h requires 0 <= h < |s.runs| => if Mapped(s, h) then Released(s.runs[h]) else s.runs[h]),
       byId := map[], finished := [], swept := true)
  }

  /** Every handle the registry keeps is a run's. */
  predicate InRange(s: State) {
    && (forall id :: id in s.byId ==> s.byId[id] < |s.runs|)
    && (forall i :: 0 <= i < |s.finished| ==> s.finished[i] < |s.runs|)
  }

  /** What a section of its owner makes of a run's record. ctxErr: its context
      has ended; free: the semaphore has a token; closed: the registry takes no
      more runs. */
  function Acted(r: Run, act: Act, ctxErr: bool, free: bool, closed: bool): Run {
    match act
    case GiveUp => if r.owner == Queued && ctxErr then r.(owner := Abandoning) else r
    case TakeSlot => if r.owner == Queued && free then r.(slot := true, owner := Holding) else r
    case Recheck =>
      if r.owner != Holding then r
      else if ctxErr then r.(slot := false, owner := Abandoning)
      else r.(owner := Serving)
    case ConfigRefused => if r.owner == Serving then r.(slot := false, owner := Abandoning) else r
    case NotStreamable => if r.owner == Serving then r.(owner := Abandoning) else r
    case Enter => if r.owner == Serving then r.(owner := if closed then Abandoning else Entered) else r
    case Start => if r.owner == Entered then Started(r, ctxErr) else r
    case LeaveRefused => if r.owner == Leaving then r.(owner := Abandoning) else r
    case AbandonCheck =>
      if r.owner != Abandoning then r
      else if r.phase != Pending then r.(owner := CleaningUp)
      else r.(detached := true, cancelled := true, owner := Dropping)
    case AbandonRelease => if r.owner == Releasing then Released(r).(owner := CleaningUp) else r
    case AbandonCleanup => if r.owner == CleaningUp then r.(slot := false, owner := Over) else r
    case BodyEnds => if r.owner == Body then r.(owner := BodyCleanup) else r
    case BodyCleans => if r.owner == BodyCleanup then r.(slot := false, owner := Completing) else r
    case Complete => if r.owner == Completing then r.(phase := Done, owner := Finishing) else r
    case Leave => if r.owner == LeavingDone then r.(cancelled := true, owner := Over) else r
    case AbandonDrop | Finish => r
  }

  /** start's own section: refused by a cancel, an ended context, or a request
      whose end is already on its way. */
  function Started(r: Run, ctxErr: bool): Run {
    if r.phase != Pending || r.cancelAsked || ctxErr || r.reqEnded || r.detached
    then r.(owner := Leaving)
    else r.(detached := true, phase := Running, owner := Body)
  }

  /** enter and leave. */
  function Entering(r: Run, act: Act, closed: bool): int {
    if act == Enter && r.owner == Serving && !closed then 1
    else if (act == LeaveRefused && r.owner == Leaving) || (act == Leave && r.owner == LeavingDone) then -1
    else 0
  }

  /** The semaphore: a send takes a token, releaseSlot puts a held one back. */
  function Taking(r: Run, act: Act, ctxErr: bool, free: bool): int {
    if act == TakeSlot && r.owner == Queued && free then 1
    else if r.slot && ((act == Recheck && r.owner == Holding && ctxErr)
                       || (act == ConfigRefused && r.owner == Serving)
                       || (act == AbandonCleanup && r.owner == CleaningUp)
                       || (act == BodyCleans && r.owner == BodyCleanup)) then -1
    else 0
  }

  function OwnerStep(s: State, h: Handle, act: Act): State
    requires InRange(s) && h < |s.runs|
  {
    var r, free := s.runs[h], s.tokens < MAX_SESSIONS;
    if act == AbandonDrop then if r.owner == Dropping then DropStep(s, h) else s
    else if act == Finish then if r.owner == Finishing then FinishStep(s, h) else s
    else
      WithRun(s, h, Acted(r, act, CtxErr(s, h), free, s.closed))
        .(active := s.active + Entering(r, act, s.closed), tokens := s.tokens + Taking(r, act, CtxErr(s, h), free))
  }

  function DropStep(s: State, h: Handle): State
    requires h < |s.runs|
  {
    WithRun(s, h, s.runs[h].(owner := Releasing)).(byId := if Mapped(s, h) then s.byId - {s.runs[h].id} else s.byId)
  }

  function Touched(r: Run, move: Outside): Run {
    match move
    case RequestEnds => if r.reqEnded then r else r.(reqEnded := true, endPending := !r.detached)
    case RequestCancels => if r.endPending then r.(endPending := false, cancelled := true) else r
    case CancelAsk => if r.phase == Done then r else r.(cancelAsked := true, cancels := r.cancels + 1)
    case CancelContext => if r.cancels > 0 then r.(cancels := r.cancels - 1, cancelled := true) else r
    case TimerFires => if r.gc == Armed then r.(gc := Fired) else r
    case TimerForgets => if r.gc == Fired then r.(gc := Stopped) else r
  }

  function OutsideStep(s: State, h: Handle, move: Outside): State
    requires InRange(s) && h < |s.runs|
  {
    var f := if move == TimerForgets && s.runs[h].gc == Fired then Forget(s, h) else s;
    WithRun(f, h, Touched(f.runs[h], move))
  }

  /** A release call's next stretch, and the tokens it takes. */
  function Called(call: ReleaseCall, ended: bool, free: bool): (ReleaseCall, int) {
    match call
    case Selecting => if ended then (Returned, 0) else if free then (Looking, 1) else (Selecting, 0)
    case Looking => if ended then (Returned, -1) else (Working, 0)
    case Working => (Returned, -1)
    case Returned => (Returned, 0)
  }

  function CallStep(s: State, i: nat, ended: bool): State
    requires i < |s.calls|
  {
    var (call, taking) := Called(s.calls[i], ended, s.tokens < MAX_SESSIONS);
    s.(calls := s.calls[i := call], tokens := s.tokens + taking)
  }

  /** One step of the whole system; a step whose turn it is not does nothing. */
  function Next(s: State, step: Step): State
    requires InRange(s)
  {
    match step
    case Reserve(id) => ReserveStep(s, id)
    case Own(h, act) => if h < |s.runs| then OwnerStep(s, h, act) else s
    case Touch(h, move) => if h < |s.runs| then OutsideStep(s, h, move) else s
    case CallArrives => s.(calls := s.calls + [Selecting])
    case Call(i, ended) => if i < |s.calls| then CallStep(s, i, ended) else s
    case CloseGate => s.(closed := true)
    case StopAll => if s.closed then s.(stopped := true) else s
    case Sweep => if s.stopped then SweepStep(s) else s
  }

  // --- what every step keeps -------------------------------------------------------

  /** Between enter and leave. */
  predicate Counted(r: Run) {
    r.owner in {Entered, Leaving, Body, BodyCleanup, Completing, Finishing, LeavingDone}
  }

  predicate Executing(r: Run) {
    r.owner in {Body, BodyCleanup}
  }

  predicate Holder(r: Run) {
    r.slot
  }

  ghost function Count(runs: seq<Run>, p: Run -> bool): nat {
    if runs == [] then 0 else (if p(runs[0]) then 1 else 0) + Count(runs[1..], p)
  }

  predicate HoldsToken(call: ReleaseCall) {
    call in {Looking, Working}
  }

  /** The tokens release calls hold. */
  ghost function CallTokens(calls: seq<ReleaseCall>): nat {
    if calls == [] then 0
    else CallTokens(calls[..|calls| - 1]) + (if HoldsToken(calls[|calls| - 1]) then 1 else 0)
  }

  /** Where a run's owner stands, its phase and its slot fit together. */
  predicate OwnerOk(r: Run) {
    && (r.phase == Running <==> r.owner in {Body, BodyCleanup, Completing})
    && (r.owner in {Finishing, LeavingDone} ==> r.phase == Done)
    && (r.phase == Done ==> r.owner in {Finishing, LeavingDone, Over})
    && (r.owner in {Holding, Serving, Entered, Leaving, Body, BodyCleanup} ==> r.slot)
    && (r.slot ==> r.owner !in {Queued, Completing, Finishing, LeavingDone, Over})
  }

  /** The run's context: once it started, only a cancel ends it. */
  predicate ContextOk(r: Run) {
    && (r.endPending ==> r.reqEnded)
    && (r.phase != Pending ==> r.detached && !r.endPending)
    && (r.phase == Running && r.cancelled ==> r.cancelAsked)
    && (r.cancelAsked && r.cancels == 0 ==> r.cancelled)
    && (r.cancels > 0 ==> r.cancelAsked)
  }

  /** The run's place in the registry. */
  predicate PlaceOk(r: Run, mapped: bool, listed: bool, swept: bool) {
    && (mapped ==> !r.gone && r.owner != Releasing && (r.phase == Pending ==> r.owner !in {CleaningUp, Over}))
    && (r.phase == Running && !swept ==> mapped)
    && (r.phase == Pending && r.owner !in {Releasing, CleaningUp, Over} && !swept ==> mapped)
    && (r.phase != Pending && !mapped ==> r.gone)
    && (listed ==> mapped && r.phase == Done && r.owner != Finishing)
    && (mapped && r.phase == Done && r.owner != Finishing ==> listed)
    && (r.gc != Unset ==> r.phase == Done && r.owner != Finishing)
  }

  predicate RunOk(r: Run, mapped: bool, listed: bool, swept: bool) {
    OwnerOk(r) && ContextOk(r) && PlaceOk(r, mapped, listed, swept)
  }

  predicate Listed(s: State, h: Handle) {
    h in s.finished
  }

  predicate Distinct(list: seq<Handle>) {
    forall i, j :: 0 <= i < j < |list| ==> list[i] != list[j]
  }

  predicate EachKeyOk(s: State)
    requires InRange(s)
  {
    forall id :: id in s.byId ==> s.runs[s.byId[id]].id == id
  }

  predicate EachRunOk(s: State) {
    forall h :: 0 <= h < |s.runs| ==> RunOk(s.runs[h], Mapped(s, h), Listed(s, h), s.swept)
  }

  predicate OneRunningPerId(s: State) {
    forall g, h | 0 <= g < |s.runs| && 0 <= h < |s.runs| && g != h &&
                  s.runs[g].phase == Running && s.runs[h].phase == Running :: s.runs[g].id != s.runs[h].id
  }

  /** Every finished run but `except` has its retention timer. */
  predicate TimersOk(s: State, except: int) {
    forall h :: 0 <= h < |s.runs| && h != except && Listed(s, h) ==> s.runs[h].gc in {Armed, Fired}
  }

  /** The invariant without the bound on finished runs and their timers. */
  ghost predicate Loose(s: State) {
    && InRange(s) && EachKeyOk(s) && EachRunOk(s) && OneRunningPerId(s) && Distinct(s.finished)
    && s.active == Count(s.runs, Counted)
    && s.tokens == Count(s.runs, Holder) + CallTokens(s.calls) <= MAX_SESSIONS
    && (s.swept ==> s.stopped && s.byId == map[]) && (s.stopped ==> s.closed)
  }

  ghost predicate Inv(s: State) {
    Loose(s) && |s.finished| <= MAX_FINISHED && TimersOk(s, -1)
  }

  lemma {:induction false} CountUpdate(runs: seq<Run>, h: nat, r: Run, p: Run -> bool)
    requires h < |runs|
    ensures Count(runs[h := r], p) == Count(runs, p) - (if p(runs[h]) then 1 else 0) + (if p(r) then 1 else 0)
  {
    if h == 0 {
      assert runs[h := r][1..] == runs[1..];
    } else {
      assert runs[h := r][1..] == runs[1..][h - 1 := r];
      CountUpdate(runs[1..], h - 1, r, p);
    }
  }

  lemma {:induction false} CountSnoc(runs: seq<Run>, r: Run, p: Run -> bool)
    ensures Count(runs + [r], p) == Count(runs, p) + (if p(r) then 1 else 0)
  {
    if runs == [] {
      assert (runs + [r])[1..] == [];
    } else {
      assert (runs + [r])[1..] == runs[1..] + [r];
      CountSnoc(runs[1..], r, p);
    }
  }

  /** Replacing one run's record, its id kept, changes nothing the registry's
      lists say. */
  lemma SameLists(s: State, h: Handle, r: Run, s': State)
    requires InRange(s) && h < |s.runs| && r.id == s.runs[h].id
    requires s'.runs == s.runs[h := r] && s'.byId == s.byId && s'.finished == s.finished
    ensures InRange(s')
    ensures forall g :: 0 <= g < |s.runs| ==> Mapped(s', g) == Mapped(s, g) && Listed(s', g) == Listed(s, g)
  {
  }

  /** A run that is the map's own may start running. */
  lemma OneRunningKeeps(s: State, h: Handle, r: Run, s': State)
    requires InRange(s) && EachRunOk(s) && OneRunningPerId(s) && h < |s.runs| && r.id == s.runs[h].id
    requires r.phase == Running && s.runs[h].phase != Running ==> Mapped(s, h) && !s.swept
    requires s'.runs == s.runs[h := r]
    ensures OneRunningPerId(s')
  {
    hide OwnerOk, ContextOk;
    forall g | 0 <= g < |s.runs| && g != h && s.runs[g].phase == Running && r.phase == Running
        && s.runs[h].phase != Running
      ensures s.runs[g].id != r.id
    {
      assert RunOk(s.runs[g], Mapped(s, g), Listed(s, g), s.swept);
    }
  }

  /** The counters follow the one record a step replaces. */
  predicate Counters(s: State, h: Handle, r: Run, s': State)
    requires h < |s.runs|
  {
    && s'.active == s.active - (if Counted(s.runs[h]) then 1 else 0) + (if Counted(r) then 1 else 0)
    && s'.tokens == s.tokens - (if Holder(s.runs[h]) then 1 else 0) + (if Holder(r) then 1 else 0)
    && s'.tokens <= MAX_SESSIONS
  }

  /** A step that only replaces one run's record keeps the invariant when the
      record fits its place. */
  lemma LooseKeeps(s: State, h: Handle, r: Run, s': State)
    requires Loose(s) && h < |s.runs| && s' == WithRun(s, h, r).(active := s'.active, tokens := s'.tokens)
    requires r.id == s.runs[h].id && RunOk(r, Mapped(s, h), Listed(s, h), s.swept)
    requires r.phase == Running && s.runs[h].phase != Running ==> Mapped(s, h) && !s.swept
    requires Counters(s, h, r, s')
    ensures Loose(s')
  {
    hide RunOk, Mapped, Listed, OneRunningPerId, Counted;
    CountUpdate(s.runs, h, r, Counted);
    CountUpdate(s.runs, h, r, Holder);
    SameLists(s, h, r, s');
    OneRunningKeeps(s, h, r, s');
  }

  lemma LocalKeeps(s: State, h: Handle, r: Run, s': State)
    requires Inv(s) && h < |s.runs| && s' == WithRun(s, h, r).(active := s'.active, tokens := s'.tokens)
    requires r.id == s.runs[h].id && RunOk(r, Mapped(s, h), Listed(s, h), s.swept)
    requires Listed(s, h) ==> r.gc in {Armed, Fired}
    requires r.phase == Running && s.runs[h].phase != Running ==> Mapped(s, h) && !s.swept
    requires Counters(s, h, r, s')
    ensures Inv(s')
  {
    hide Loose, RunOk, Counters, Mapped;
    LooseKeeps(s, h, r, s');
  }

  lemma {:induction false} WithoutKeeps(list: seq<Handle>, h: Handle)
    requires Distinct(list)
    ensures Distinct(Without(list, h)) && h !in Without(list, h)
    ensures forall g :: g != h ==> (g in Without(list, h) <==> g in list)
    ensures |Without(list, h)| == |list| - if h in list then 1 else 0
  {
    if list != [] {
      var rest := list[1..];
      assert list == [list[0]] + rest;
      assert Distinct(rest) && list[0] !in rest by {
        assert forall i :: 0 <= i < |rest| ==> rest[i] == list[i + 1];
      }
      if list[0] != h {
        WithoutKeeps(rest, h);
        DistinctCons(list[0], Without(rest, h));
      }
    }
  }

  lemma DistinctCons(h: Handle, list: seq<Handle>)
    requires Distinct(list) && h !in list
    ensures Distinct([h] + list)
  {
  }

  /** Forgetting a run changes no other run's place. */
  lemma ForgetPlaces(s: State, h: Handle)
    requires InRange(s) && EachKeyOk(s) && Distinct(s.finished) && h < |s.runs|
    ensures var f := Forget(s, h);
            && InRange(f) && EachKeyOk(f) && Distinct(f.finished) && |f.runs| == |s.runs|
            && !Mapped(f, h) && !Listed(f, h)
            && |f.finished| == |s.finished| - (if Listed(s, h) then 1 else 0)
            && forall g :: 0 <= g < |s.runs| && g != h ==>
                 f.runs[g] == s.runs[g] && Mapped(f, g) == Mapped(s, g) && Listed(f, g) == Listed(s, g)
  {
    hide Distinct;
    WithoutKeeps(s.finished, h);
    var f := Forget(s, h);
    assert forall i :: 0 <= i < |f.finished| ==> f.finished[i] in s.finished;
  }

  /** A record released and moved on keeps the counts, the timers and who runs. */
  lemma ForgetKeeps(s: State, h: Handle, except: int)
    requires Loose(s) && TimersOk(s, except) && h < |s.runs| && s.runs[h].phase == Done
    ensures Loose(Forget(s, h)) && TimersOk(Forget(s, h), except)
  {
    hide Mapped, Listed, Distinct, Without, OwnerOk, ContextOk;
    var f, r := Forget(s, h), Released(s.runs[h]);
    CountUpdate(s.runs, h, r, Counted);
    CountUpdate(s.runs, h, r, Holder);
    ForgetPlaces(s, h);
    assert EachRunOk(f) by {
      assert RunOk(s.runs[h], Mapped(s, h), Listed(s, h), s.swept);
      assert OwnerOk(r) && ContextOk(r) by {
        ReleasedOk(s.runs[h]);
      }
    }
  }

  lemma ReleasedOk(r: Run)
    requires OwnerOk(r) && ContextOk(r)
    ensures OwnerOk(Released(r)) && ContextOk(Released(r))
  {
  }

  /** The oldest and the newest finished run. */
  lemma FinishedEnds(s: State)
    requires Loose(s) && s.finished != []
    ensures InRange(s) && Distinct(s.finished)
    ensures var first, last := s.finished[0], s.finished[|s.finished| - 1];
            && s.runs[first].phase == Done && Listed(s, last) && Mapped(s, last)
            && (|s.finished| > 1 ==> first != last)
  {
    hide OwnerOk, ContextOk, OneRunningPerId;
    var first, last := s.finished[0], s.finished[|s.finished| - 1];
    assert Listed(s, first) && Listed(s, last);
    assert RunOk(s.runs[first], Mapped(s, first), true, s.swept);
    assert RunOk(s.runs[last], Mapped(s, last), true, s.swept);
  }

  /** Evicting the oldest finished runs brings their number within the bound
      and leaves the newest one as it was. */
  lemma {:induction false} TrimKeeps(s: State, except: int)
    requires Loose(s) && TimersOk(s, except) && s.finished != []
    ensures Loose(Trim(s)) && TimersOk(Trim(s), except) && |Trim(s).finished| <= MAX_FINISHED
    ensures |Trim(s).runs| == |s.runs|
    ensures var h := s.finished[|s.finished| - 1];
            Listed(Trim(s), h) && Mapped(Trim(s), h) && Trim(s).runs[h] == s.runs[h]
    ensures |Trim(s).finished| == if |s.finished| > MAX_FINISHED then MAX_FINISHED else |s.finished|
    ensures Trim(s).finished == s.finished[|s.finished| - |Trim(s).finished|..]
    decreases |s.finished|
  {
    hide Loose, TimersOk, Mapped, Listed, Released, Distinct;
    FinishedEnds(s);
    if |s.finished| > MAX_FINISHED {
      var h := s.finished[0];
      WithoutFirst(s.finished);
      ForgetKeeps(s, h, except);
      ForgetChanges(s, h);
      TrimKeeps(Forget(s, h), except);
    }
  }

  lemma ForgetChanges(s: State, h: Handle)
    requires h < |s.runs|
    ensures var f := Forget(s, h);
            |f.runs| == |s.runs| && f.finished == Without(s.finished, h)
            && forall g :: 0 <= g < |s.runs| && g != h ==> f.runs[g] == s.runs[g]
  {
  }

  /** A completed run goes to the end of the finished list. */
  lemma ListKeeps(s: State, h: Handle)
    requires Inv(s) && h < |s.runs| && s.runs[h].owner == Finishing && Mapped(s, h)
    ensures var s0 := WithRun(s, h, s.runs[h].(owner := LeavingDone));
            var s1 := s0.(finished := s0.finished + [h]);
            Loose(s1) && TimersOk(s1, h)
  {
    hide OwnerOk, ContextOk, Counted, RunOk;
    var r := s.runs[h].(owner := LeavingDone);
    var s0 := WithRun(s, h, r);
    ListRuns(s, h);
    CountUpdate(s.runs, h, r, Counted);
    CountUpdate(s.runs, h, r, Holder);
    hide EachRunOk;
    OneRunningKeeps(s, h, r, s0);
  }

  lemma ListRuns(s: State, h: Handle)
    requires InRange(s) && EachRunOk(s) && h < |s.runs| && s.runs[h].owner == Finishing && Mapped(s, h)
    ensures var r := s.runs[h].(owner := LeavingDone);
            var s1 := WithRun(s, h, r).(finished := s.finished + [h]);
            EachRunOk(s1) && Counted(r) && Counted(s.runs[h]) && r.phase == Done && !Listed(s, h)
  {
    hide OwnerOk, ContextOk, Counted;
    var r := s.runs[h].(owner := LeavingDone);
    var s1 := WithRun(s, h, r).(finished := s.finished + [h]);
    assert RunOk(s.runs[h], true, Listed(s, h), s.swept);
    FinishingOk(s.runs[h]);
    forall g | 0 <= g < |s.runs|
      ensures RunOk(s1.runs[g], Mapped(s1, g), Listed(s1, g), s1.swept)
    {
      assert Mapped(s1, g) == Mapped(s, g);
      assert Listed(s1, g) == (Listed(s, g) || g == h);
      assert RunOk(s.runs[g], Mapped(s, g), Listed(s, g), s.swept);
    }
  }

  lemma FinishingOk(r: Run)
    requires r.owner == Finishing && OwnerOk(r) && ContextOk(r)
    ensures var d := r.(owner := LeavingDone); OwnerOk(d) && ContextOk(d) && d.phase == Done && Counted(d) && Counted(r)
  {
  }

  /** The retention timer is armed. */
  lemma ArmKeeps(s: State, h: Handle)
    requires Loose(s) && |s.finished| <= MAX_FINISHED && h < |s.runs| && TimersOk(s, h) && Listed(s, h)
    ensures Inv(WithRun(s, h, s.runs[h].(gc := Armed)))
  {
    hide OneRunningPerId;
    assert RunOk(s.runs[h], Mapped(s, h), true, s.swept);
    LooseKeeps(s, h, s.runs[h].(gc := Armed), WithRun(s, h, s.runs[h].(gc := Armed)));
  }

  lemma FinishKeeps(s: State, h: Handle)
    requires Inv(s) && h < |s.runs| && s.runs[h].owner == Finishing
    ensures Inv(FinishStep(s, h))
  {
    hide Loose, TimersOk, OneRunningPerId, Trim;
    var r := s.runs[h].(owner := LeavingDone);
    var s0 := WithRun(s, h, r);
    if Mapped(s, h) {
      ListKeeps(s, h);
      var s1 := s0.(finished := s0.finished + [h]);
      RunPlace(s1, h);
      TrimKeeps(s1, h);
      MappedStays(Trim(s1), h);
      ArmKeeps(Trim(s1), h);
    } else {
      RunPlace(s, h);
      LocalKeeps(s, h, r, s0);
    }
  }

  /** What the invariant says of one run. */
  lemma RunPlace(s: State, h: Handle)
    requires (Loose(s) || Inv(s)) && h < |s.runs|
    ensures Loose(s) && InRange(s) && RunOk(s.runs[h], Mapped(s, h), Listed(s, h), s.swept)
    ensures s.tokens <= MAX_SESSIONS && (s.swept ==> s.stopped)
    ensures Inv(s) && Listed(s, h) ==> s.runs[h].gc in {Armed, Fired}
  {
  }

  lemma MappedStays(s: State, h: Handle)
    requires Loose(s) && h < |s.runs| && Mapped(s, h)
    ensures !s.runs[h].gone
  {
    RunPlace(s, h);
  }

  /** A new run under an id no run is mapped to. */
  lemma AddKeeps(s: State, id: Id)
    requires Inv(s) && id !in s.byId && !s.swept
    ensures Inv(s.(runs := s.runs + [NewRun(id)], byId := s.byId[id := |s.runs|]))
  {
    hide OwnerOk, ContextOk, Counted;
    var n := s.(runs := s.runs + [NewRun(id)], byId := s.byId[id := |s.runs|]);
    CountSnoc(s.runs, NewRun(id), Counted);
    CountSnoc(s.runs, NewRun(id), Holder);
    assert OwnerOk(NewRun(id)) && ContextOk(NewRun(id)) && !Counted(NewRun(id)) by {
      NewOk(id);
    }
    forall g | 0 <= g < |n.runs| ensures RunOk(n.runs[g], Mapped(n, g), Listed(n, g), n.swept) {
      if g < |s.runs| {
        assert Mapped(n, g) == Mapped(s, g);
        assert RunOk(s.runs[g], Mapped(s, g), Listed(s, g), s.swept);
      }
    }
  }

  lemma NewOk(id: Id)
    ensures OwnerOk(NewRun(id)) && ContextOk(NewRun(id)) && !Counted(NewRun(id))
  {
  }

  lemma ReserveKeeps(s: State, id: Id)
    requires Inv(s)
    ensures Inv(ReserveStep(s, id))
  {
    hide EachRunOk, OneRunningPerId, Distinct, Without, TimersOk;
    if !s.closed && (id in s.byId ==> s.runs[s.byId[id]].phase == Done) {
      if id in s.byId {
        var earlier := s.byId[id];
        ForgetKeeps(s, earlier, -1);
        ForgetPlaces(s, earlier);
        AddKeeps(Forget(s, earlier), id);
      } else {
        AddKeeps(s, id);
      }
    }
  }

  lemma SweepKeeps(s: State)
    requires Inv(s) && s.stopped
    ensures Inv(SweepStep(s))
  {
    hide OwnerOk, ContextOk, Counted;
    var w := SweepStep(s);
    SweptCounts(s);
    forall g | 0 <= g < |s.runs| ensures RunOk(w.runs[g], Mapped(w, g), Listed(w, g), w.swept) {
      assert RunOk(s.runs[g], Mapped(s, g), Listed(s, g), s.swept);
      assert OwnerOk(w.runs[g]) && ContextOk(w.runs[g]) by {
        ReleasedOk(s.runs[g]);
      }
    }
  }

  lemma SweptCounts(s: State)
    ensures Count(SweepStep(s).runs, Counted) == Count(s.runs, Counted)
    ensures Count(SweepStep(s).runs, Holder) == Count(s.runs, Holder)
  {
    hide Mapped, Count;
    CountSame(s.runs, SweepStep(s).runs, Counted);
    CountSame(s.runs, SweepStep(s).runs, Holder);
  }

  lemma {:induction false} CountSame(a: seq<Run>, b: seq<Run>, p: Run -> bool)
    requires |a| == |b| && forall g :: 0 <= g < |a| ==> p(a[g]) == p(b[g])
    ensures Count(a, p) == Count(b, p)
  {
    if a != [] {
      CountSame(a[1..], b[1..], p);
    }
  }

  lemma DropPlaces(s: State, h: Handle)
    requires InRange(s) && EachKeyOk(s) && h < |s.runs|
    ensures var d := DropStep(s, h);
            && InRange(d) && EachKeyOk(d) && !Mapped(d, h)
            && forall g :: 0 <= g < |s.runs| ==>
                 Listed(d, g) == Listed(s, g) && (g != h ==> Mapped(d, g) == Mapped(s, g))
  {
  }

  /** AbandonDrop: a run that never started leaves the map. */
  lemma DropKeeps(s: State, h: Handle)
    requires Inv(s) && h < |s.runs| && s.runs[h].owner == Dropping
    ensures Inv(DropStep(s, h))
  {
    hide RunOk, ContextOk, Counted, OneRunningPerId, Mapped, Listed, Distinct;
    var r := s.runs[h].(owner := Releasing);
    var d := DropStep(s, h);
    DropRuns(s, h);
    hide EachRunOk;
    CountUpdate(s.runs, h, r, Counted);
    CountUpdate(s.runs, h, r, Holder);
    DropPlaces(s, h);
    OneRunningKeeps(s, h, r, d);
  }

  lemma DropRuns(s: State, h: Handle)
    requires InRange(s) && EachKeyOk(s) && EachRunOk(s) && h < |s.runs| && s.runs[h].owner == Dropping
    ensures EachRunOk(DropStep(s, h)) && !Counted(s.runs[h]) && !Counted(s.runs[h].(owner := Releasing))
  {
    hide Mapped, Listed;
    var d := DropStep(s, h);
    DropPlaces(s, h);
    assert RunOk(s.runs[h], Mapped(s, h), Listed(s, h), s.swept);
    ReleasingOk(s.runs[h]);
    hide ContextOk, Counted;
    forall g | 0 <= g < |s.runs|
      ensures RunOk(d.runs[g], Mapped(d, g), Listed(d, g), d.swept)
    {
      assert RunOk(s.runs[g], Mapped(s, g), Listed(s, g), s.swept);
    }
  }

  lemma ReleasingOk(r: Run)
    requires r.owner == Dropping && ContextOk(r)
    ensures var d := r.(owner := Releasing); ContextOk(d) && !Counted(d) && !Counted(r)
  {
  }

  /** The sections up to start, and those after it or after being refused. */
  predicate BeforeStart(act: Act) {
    act in {GiveUp, TakeSlot, Recheck, ConfigRefused, NotStreamable, Enter}
  }

  predicate AtStart(act: Act) {
    act in {Start, LeaveRefused, AbandonCheck, AbandonRelease, AbandonCleanup}
  }

  lemma ActedOwner(r: Run, act: Act, ctxErr: bool, free: bool, closed: bool)
    requires OwnerOk(r) && act != AbandonDrop && act != Finish
    ensures OwnerOk(Acted(r, act, ctxErr, free, closed))
  {
    if BeforeStart(act) {
      QueueOwner(r, act, ctxErr, free, closed);
    } else if AtStart(act) {
      StartOwner(r, act, ctxErr, free, closed);
    } else {
      EndOwner(r, act, ctxErr, free, closed);
    }
    hide OwnerOk, Acted;
  }

  lemma QueueOwner(r: Run, act: Act, ctxErr: bool, free: bool, closed: bool)
    requires OwnerOk(r) && BeforeStart(act)
    ensures OwnerOk(Acted(r, act, ctxErr, free, closed))
  {
  }

  lemma StartOwner(r: Run, act: Act, ctxErr: bool, free: bool, closed: bool)
    requires OwnerOk(r) && AtStart(act)
    ensures OwnerOk(Acted(r, act, ctxErr, free, closed))
  {
    if act.AbandonCheck? || act.AbandonRelease? || act.AbandonCleanup? {
      AbandonOwner(r, act, ctxErr, free, closed);
      hide Acted, OwnerOk;
    }
  }

  lemma AbandonOwner(r: Run, act: Act, ctxErr: bool, free: bool, closed: bool)
    requires OwnerOk(r) && act in {AbandonCheck, AbandonRelease, AbandonCleanup}
    ensures OwnerOk(Acted(r, act, ctxErr, free, closed))
  {
  }

  lemma EndOwner(r: Run, act: Act, ctxErr: bool, free: bool, closed: bool)
    requires OwnerOk(r) && act in {BodyEnds, BodyCleans, Complete, Leave}
    ensures OwnerOk(Acted(r, act, ctxErr, free, closed))
  {
  }

  lemma ActedContext(r: Run, act: Act, ctxErr: bool, free: bool, closed: bool)
    requires OwnerOk(r) && ContextOk(r) && (r.cancelled ==> ctxErr) && act != AbandonDrop && act != Finish
    ensures ContextOk(Acted(r, act, ctxErr, free, closed))
  {
    OwnerPhase(r);
    hide OwnerOk;
  }

  lemma OwnerPhase(r: Run)
    requires OwnerOk(r)
    ensures r.owner == Completing ==> r.phase == Running
    ensures r.owner == LeavingDone ==> r.phase == Done
    ensures r.owner == Abandoning ==> r.phase == Pending
  {
  }

  lemma ActedPlace(r: Run, act: Act, ctxErr: bool, free: bool, closed: bool, mapped: bool, listed: bool, swept: bool)
    requires OwnerOk(r) && PlaceOk(r, mapped, listed, swept) && (swept ==> ctxErr)
             && act != AbandonDrop && act != Finish
    ensures var n := Acted(r, act, ctxErr, free, closed);
            && PlaceOk(n, mapped, listed, swept) && n.id == r.id && (listed ==> n.gc == r.gc)
            && (n.phase == Running && r.phase != Running ==> mapped && !swept)
  {
  }

  /** The active count follows who stands between enter and leave. */
  predicate EntersAs(r: Run, n: Run, entering: int) {
    entering == (if Counted(n) then 1 else 0) - (if Counted(r) then 1 else 0)
  }

  lemma QueueEnters(r: Run, act: Act, ctxErr: bool, free: bool, closed: bool)
    requires BeforeStart(act)
    ensures EntersAs(r, Acted(r, act, ctxErr, free, closed), Entering(r, act, closed))
  {
  }

  lemma StartEnters(r: Run, act: Act, ctxErr: bool, free: bool, closed: bool)
    requires AtStart(act)
    ensures EntersAs(r, Acted(r, act, ctxErr, free, closed), Entering(r, act, closed))
  {
  }

  lemma EndEnters(r: Run, act: Act, ctxErr: bool, free: bool, closed: bool)
    requires act in {BodyEnds, BodyCleans, Complete, Leave}
    ensures EntersAs(r, Acted(r, act, ctxErr, free, closed), Entering(r, act, closed))
  {
  }

  lemma ActedEnters(r: Run, act: Act, ctxErr: bool, free: bool, closed: bool)
    requires act != AbandonDrop && act != Finish
    ensures EntersAs(r, Acted(r, act, ctxErr, free, closed), Entering(r, act, closed))
  {
    hide EntersAs, Acted, Entering;
    if BeforeStart(act) {
      QueueEnters(r, act, ctxErr, free, closed);
    } else if AtStart(act) {
      StartEnters(r, act, ctxErr, free, closed);
    } else {
      EndEnters(r, act, ctxErr, free, closed);
    }
  }

  lemma ActedTakes(r: Run, act: Act, ctxErr: bool, free: bool, closed: bool)
    requires OwnerOk(r) && act != AbandonDrop && act != Finish
    ensures var n := Acted(r, act, ctxErr, free, closed);
            && Taking(r, act, ctxErr, free) == (if Holder(n) then 1 else 0) - (if Holder(r) then 1 else 0)
            && (Taking(r, act, ctxErr, free) > 0 ==> free)
  {
  }

  /** The counters tell who entered and who holds a slot. */
  lemma ActedCounts(r: Run, act: Act, ctxErr: bool, free: bool, closed: bool)
    requires OwnerOk(r) && act != AbandonDrop && act != Finish
    ensures var n := Acted(r, act, ctxErr, free, closed);
            && Entering(r, act, closed) == (if Counted(n) then 1 else 0) - (if Counted(r) then 1 else 0)
            && Taking(r, act, ctxErr, free) == (if Holder(n) then 1 else 0) - (if Holder(r) then 1 else 0)
            && (Taking(r, act, ctxErr, free) > 0 ==> free)
  {
    hide Acted, Entering, Taking, OwnerOk;
    ActedEnters(r, act, ctxErr, free, closed);
    hide Counted;
    ActedTakes(r, act, ctxErr, free, closed);
  }

  lemma OwnerKeeps(s: State, h: Handle, act: Act)
    requires Inv(s) && h < |s.runs|
    ensures InRange(s) && Inv(OwnerStep(s, h, act))
  {
    hide Inv, FinishStep, DropStep, Acted, Entering, Taking, Mapped, Listed, PlaceOk, ContextOk, OwnerOk;
    RunPlace(s, h);
    if act == AbandonDrop {
      if s.runs[h].owner == Dropping {
        DropKeeps(s, h);
      }
    } else if act == Finish {
      if s.runs[h].owner == Finishing {
        FinishKeeps(s, h);
      }
    } else {
      var r, ctxErr, free := s.runs[h], CtxErr(s, h), s.tokens < MAX_SESSIONS;
      ActedOwner(r, act, ctxErr, free, s.closed);
      ActedContext(r, act, ctxErr, free, s.closed);
      ActedPlace(r, act, ctxErr, free, s.closed, Mapped(s, h), Listed(s, h), s.swept);
      ActedCounts(r, act, ctxErr, free, s.closed);
      LocalKeeps(s, h, Acted(r, act, ctxErr, free, s.closed), OwnerStep(s, h, act));
    }
  }

  lemma OwnerCount(s: State, h: Handle, act: Act)
    requires InRange(s) && h < |s.runs|
    ensures |OwnerStep(s, h, act).runs| == |s.runs|
  {
    hide Acted, Entering, Taking, Mapped, Trim;
    if act == Finish {
      TrimRuns(WithRun(s, h, s.runs[h].(owner := LeavingDone)).(finished := s.finished + [h]));
    }
  }

  lemma ForgetInv(s: State, h: Handle)
    requires Inv(s) && h < |s.runs| && s.runs[h].phase == Done
    ensures Inv(Forget(s, h)) && !Listed(Forget(s, h), h) && !Mapped(Forget(s, h), h)
  {
    hide EachRunOk, OneRunningPerId, TimersOk, Distinct;
    ForgetKeeps(s, h, -1);
    ForgetPlaces(s, h);
  }

  /** A timer that fired, perhaps for a run that was replaced since. */
  lemma TimerKeeps(s: State, h: Handle)
    requires Inv(s) && h < |s.runs|
    ensures InRange(s) && Inv(OutsideStep(s, h, TimerForgets))
  {
    hide Inv, Mapped, Listed;
    RunPlace(s, h);
    assert s.runs[h := s.runs[h]] == s.runs;
    if s.runs[h].gc == Fired {
      ForgetInv(s, h);
      var f := Forget(s, h);
      RunPlace(f, h);
      LocalKeeps(f, h, f.runs[h].(gc := Stopped), OutsideStep(s, h, TimerForgets));
    }
  }

  /** What others do to a run leaves its record fit for its place. */
  lemma MovedOk(r: Run, move: Outside, mapped: bool, listed: bool, swept: bool)
    requires RunOk(r, mapped, listed, swept) && move != TimerForgets
    ensures var n := Touched(r, move);
            && RunOk(n, mapped, listed, swept) && n.id == r.id && n.phase == r.phase
            && (listed && r.gc in {Armed, Fired} ==> n.gc in {Armed, Fired})
            && Counted(n) == Counted(r) && Holder(n) == Holder(r)
  {
  }

  lemma OutsideKeeps(s: State, h: Handle, move: Outside)
    requires Inv(s) && h < |s.runs|
    ensures InRange(s) && Inv(OutsideStep(s, h, move))
  {
    hide Inv, Mapped, Listed, PlaceOk, ContextOk, OwnerOk;
    RunPlace(s, h);
    if move == TimerForgets {
      TimerKeeps(s, h);
    } else {
      hide Touched, Counted;
      MovedOk(s.runs[h], move, Mapped(s, h), Listed(s, h), s.swept);
      LocalKeeps(s, h, Touched(s.runs[h], move), OutsideStep(s, h, move));
    }
  }

  /** Every step of every interleaving keeps the invariant. */
  lemma NextKeeps(s: State, step: Step)
    requires Inv(s)
    ensures InRange(s) && Inv(Next(s, step))
  {
    hide EachRunOk, OneRunningPerId, Distinct, OwnerStep, OutsideStep, ReserveStep, SweepStep, CallStep;
    match step
    case Reserve(id) => ReserveKeeps(s, id);
    case Own(h, act) => if h < |s.runs| { OwnerKeeps(s, h, act); }
    case Touch(h, move) => if h < |s.runs| { OutsideKeeps(s, h, move); }
    case Sweep => if s.stopped { SweepKeeps(s); }
    case CallArrives => ArriveKeeps(s);
    case Call(i, ended) => if i < |s.calls| { CallKeeps(s, i, ended); }
    case CloseGate =>
      assert EachRunOk(s.(closed := true)) && OneRunningPerId(s.(closed := true)) by { GateFlags(s); }
    case StopAll =>
      assert EachRunOk(s.(stopped := true)) && OneRunningPerId(s.(stopped := true)) by { GateFlags(s); }
  }

  lemma {:induction false} CallTokensUpdate(calls: seq<ReleaseCall>, i: nat, call: ReleaseCall)
    requires i < |calls|
    ensures CallTokens(calls[i := call]) ==
            CallTokens(calls) - (if HoldsToken(calls[i]) then 1 else 0) + (if HoldsToken(call) then 1 else 0)
  {
    var n := |calls| - 1;
    if i == n {
      assert calls[i := call][..n] == calls[..n];
    } else {
      assert calls[i := call][..n] == calls[..n][i := call];
      CallTokensUpdate(calls[..n], i, call);
    }
  }

  lemma CallTokensSnoc(calls: seq<ReleaseCall>)
    ensures CallTokens(calls + [Selecting]) == CallTokens(calls)
  {
    assert (calls + [Selecting])[..|calls|] == calls;
  }

  /** A release call takes at most one token, and gives it back on every path. */
  lemma CallKeeps(s: State, i: nat, ended: bool)
    requires Inv(s) && i < |s.calls|
    ensures Inv(CallStep(s, i, ended))
  {
    var n := CallStep(s, i, ended);
    CallTokensUpdate(s.calls, i, n.calls[i]);
    CallsApart(s, n);
    hide EachRunOk, OneRunningPerId, Distinct, Mapped, Listed;
  }

  lemma ArriveKeeps(s: State)
    requires Inv(s)
    ensures Inv(s.(calls := s.calls + [Selecting]))
  {
    CallTokensSnoc(s.calls);
    CallsApart(s, s.(calls := s.calls + [Selecting]));
    hide EachRunOk, OneRunningPerId, Distinct, Mapped, Listed;
  }

  /** The runs do not mind what release calls do. */
  lemma CallsApart(s: State, n: State)
    requires EachRunOk(s) && OneRunningPerId(s) && TimersOk(s, -1) && n == s.(calls := n.calls, tokens := n.tokens)
    ensures EachRunOk(n) && OneRunningPerId(n) && TimersOk(n, -1)
  {
    hide RunOk;
    forall h | 0 <= h < |s.runs|
      ensures Mapped(n, h) == Mapped(s, h) && Listed(n, h) == Listed(s, h)
    {
    }
  }

  lemma GateFlags(s: State)
    requires EachRunOk(s) && OneRunningPerId(s)
    ensures EachRunOk(s.(closed := true)) && OneRunningPerId(s.(closed := true))
    ensures EachRunOk(s.(stopped := true)) && OneRunningPerId(s.(stopped := true))
  {
    hide RunOk;
    forall h | 0 <= h < |s.runs|
      ensures Mapped(s.(closed := true), h) == Mapped(s, h) == Mapped(s.(stopped := true), h)
      ensures Listed(s.(closed := true), h) == Listed(s, h) == Listed(s.(stopped := true), h)
    {
    }
  }
}
