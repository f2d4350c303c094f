// The queue of inferences (desktop/embedder/src/limits.ts): each task is chained
// to the promise the queue ended with when it arrived.
module SerialQueues {
  import opened Options

  datatype Phase = Queued | Running | Finished(ok: bool)

  /** after is the one whose settled result lets this one start. */
  datatype Task = Task(after: Option<nat>, phase: Phase)

  datatype State = State(tasks: seq<Task>, tail: Option<nat>)

  const EMPTY := State([], None)

  datatype Step = Run | Starts(i: nat) | Ends(i: nat, ok: bool)

  predicate InRange(s: State) {
    && (forall i :: 0 <= i < |s.tasks| && s.tasks[i].after.Some? ==> s.tasks[i].after.value < |s.tasks|)
    && (s.tail.Some? ==> s.tail.value < |s.tasks|)
  }

  /** A task starts once the one before it has settled, well or not. */
  predicate MayStart(s: State, i: nat)
    requires InRange(s)
  {
    && i < |s.tasks| && s.tasks[i].phase == Queued
    && (s.tasks[i].after.Some? ==> s.tasks[s.tasks[i].after.value].phase.Finished?)
  }

  function Next(s: State, step: Step): State
    requires InRange(s)
  {
    match step
    case Run => State(s.tasks + [Task(s.tail, Queued)], Some(|s.tasks|))
    case Starts(i) => if MayStart(s, i) then s.(tasks := s.tasks[i := s.tasks[i].(phase := Running)]) else s
    case Ends(i, ok) =>
      if i < |s.tasks| && s.tasks[i].phase == Running
      then s.(tasks := s.tasks[i := s.tasks[i].(phase := Finished(ok))]) else s
  }

  /** Every task waits for the one that arrived before it. */
  predicate Chained(s: State)
    ensures Chained(s) ==> InRange(s)
  {
    && s.tail == (if s.tasks == [] then None else Some(|s.tasks| - 1))
    && forall i :: 0 <= i < |s.tasks| ==> s.tasks[i].after == if i == 0 then None else Some(i - 1)
  }

  /** In arrival order: what has started comes after what has finished only. */
  predicate InOrder(s: State) {
    forall i, j :: 0 <= i < j < |s.tasks| && s.tasks[j].phase != Queued ==> s.tasks[i].phase.Finished?
  }

  lemma NextKeeps(s: State, step: Step)
    requires Chained(s) && InOrder(s)
    ensures Chained(Next(s, step)) && InOrder(Next(s, step))
  {
    var n := Next(s, step);
    if step.Starts? && MayStart(s, step.i) {
      forall i, j | 0 <= i < j < |n.tasks| && n.tasks[j].phase != Queued
        ensures n.tasks[i].phase.Finished?
      {
        if j == step.i && i < j - 1 {
          assert s.tasks[j - 1].phase.Finished?;
        }
      }
    }
  }

  ghost function Exec(s: State, steps: seq<Step>): (n: State)
    requires Chained(s) && InOrder(s)
    ensures Chained(n) && InOrder(n)
    decreases |steps|
  {
    if steps == [] then s
    else
      NextKeeps(s, steps[0]);
      Exec(Next(s, steps[0]), steps[1..])
  }

  predicate Runs(s: State, i: nat) {
    i < |s.tasks| && s.tasks[i].phase == Running
  }

  /** In every run: one task at a time, in the order of arrival, and whatever
      the earlier ones came to there is one to go on with until all are
      finished. */
  lemma Serial(steps: seq<Step>)
    ensures var s := Exec(EMPTY, steps);
            && (forall i, j :: Runs(s, i) && Runs(s, j) ==> i == j)
            && ((forall i :: 0 <= i < |s.tasks| ==> s.tasks[i].phase.Finished?) || exists i :: GoesOn(s, i))
  {
    var s := Exec(EMPTY, steps);
    if exists i :: 0 <= i < |s.tasks| && !s.tasks[i].phase.Finished? {
      var i :| 0 <= i < |s.tasks| && !s.tasks[i].phase.Finished?;
      FirstUnfinished(s, i);
    }
  }

  predicate GoesOn(s: State, i: nat)
    requires InRange(s)
  {
    i < |s.tasks| && (s.tasks[i].phase == Running || MayStart(s, i))
  }

  lemma {:induction false} FirstUnfinished(s: State, i: nat)
    requires Chained(s) && InOrder(s) && i < |s.tasks| && !s.tasks[i].phase.Finished?
    ensures exists k :: GoesOn(s, k)
    decreases i
  {
    if GoesOn(s, i) {
    } else {
      FirstUnfinished(s, i - 1);
    }
  }

  class SerialQueue {
    var tail: Option<nat>
    var tasks: seq<Task>

    ghost function View(): State
      reads this
    {
      State(tasks, tail)
    }

    constructor ()
      ensures View() == EMPTY
    {
      tail, tasks := None, [];
    }

    method Run() returns (i: nat)
      requires Chained(View()) && InOrder(View())
      modifies this
      ensures Chained(View()) && InOrder(View()) && View() == Next(old(View()), Step.Run) && i == |old(tasks)|
    {
      NextKeeps(View(), Step.Run);
      i := |tasks|;
      tasks := tasks + [Task(tail, Queued)];
      tail := Some(i);
    }
  }
}
