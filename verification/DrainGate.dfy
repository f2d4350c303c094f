// Counting work in flight and waiting for the last of it: the session's
// enterRun, leaveRun and drain (desktop/runner/rpc.go), and the registry's
// enter, leave and wait (desktop/runner/runs.go), which wait only after their
// gate has closed.
module DrainGates {
  import opened Options

  /** An idle channel, by the order it was made in. */
  type Chan = nat

  datatype Gate = Gate(active: nat, draining: bool, idle: Option<Chan>, made: nat,
                       closes: seq<Chan>,      // the channels closed, in order
                       waited: set<Chan>,      // the channels drains wait on
                       returned: bool)         // some drain found nothing in flight

  datatype Step =
    | Enter
    | Leave
    | CloseGate  // shutdown, and the beginning of drain
    | Wait       // the section in which wait, and drain, look at the count

  const OPEN := Gate(0, false, None, 0, [], {}, false)

  /** A leave belongs to an enter that was let in. */
  function Next(g: Gate, step: Step): Gate {
    match step
    case Enter => if g.draining then g else g.(active := g.active + 1)
    case Leave =>
      if g.active == 0 then g
      else if g.draining && g.active == 1 && g.idle.Some?
      then g.(active := 0, closes := g.closes + [g.idle.value], idle := None)
      else g.(active := g.active - 1)
    case CloseGate => g.(draining := true)
    case Wait =>
      if !g.draining then g
      else if g.active == 0 then g.(returned := true)
      else if g.idle.Some? then g.(waited := g.waited + {g.idle.value})
      else g.(idle := Some(g.made), made := g.made + 1, waited := g.waited + {g.made})
  }

  function Exec(g: Gate, steps: seq<Step>): Gate
    decreases |steps|
  {
    if steps == [] then g else Exec(Next(g, steps[0]), steps[1..])
  }

  predicate Distinct(list: seq<Chan>) {
    forall i, j :: 0 <= i < j < |list| ==> list[i] != list[j]
  }

  predicate Inv(g: Gate) {
    && Distinct(g.closes) && (forall i :: 0 <= i < |g.closes| ==> g.closes[i] < g.made)
    && (g.idle.Some? ==> g.draining && g.active > 0 && g.idle.value < g.made && g.idle.value !in g.closes)
    && (g.returned || g.closes != [] ==> g.draining && g.active == 0)
    && (forall c :: c in g.waited ==> c in g.closes || g.idle == Some(c))
  }

  /** A drain has returned: it found nothing in flight, or the channel it waits
      on was closed. */
  predicate Drained(g: Gate) {
    g.returned || exists c :: c in g.waited && c in g.closes
  }

  lemma NextKeeps(g: Gate, step: Step)
    requires Inv(g)
    ensures Inv(Next(g, step))
  {
    var n := Next(g, step);
    assert forall c :: c in g.closes ==> c in n.closes;
  }

  lemma {:induction false} ExecKeeps(g: Gate, steps: seq<Step>)
    requires Inv(g)
    ensures Inv(Exec(g, steps))
    decreases |steps|
  {
    if steps != [] {
      NextKeeps(g, steps[0]);
      ExecKeeps(Next(g, steps[0]), steps[1..]);
    }
  }

  /** Once the gate has closed, the number in flight never rises. */
  lemma {:induction false} ClosedOnlyFalls(g: Gate, steps: seq<Step>)
    requires g.draining
    ensures Exec(g, steps).draining && Exec(g, steps).active <= g.active
    decreases |steps|
  {
    if steps != [] {
      ClosedOnlyFalls(Next(g, steps[0]), steps[1..]);
    }
  }

  /** A drain returns only when nothing is in flight, and nothing ever is again. */
  lemma DrainedForGood(before: seq<Step>, after: seq<Step>)
    ensures var g := Exec(OPEN, before);
            Drained(g) ==> g.active == 0 && Exec(g, after).active == 0
  {
    ExecKeeps(OPEN, before);
    var g := Exec(OPEN, before);
    if Drained(g) {
      ClosedOnlyFalls(g, after);
    }
  }

  /** No idle channel is closed twice, and no drain is left behind: the channel
      it waits on is closed once nothing is in flight. */
  lemma ClosedOnceAndInTime(steps: seq<Step>)
    ensures var g := Exec(OPEN, steps);
            && Distinct(g.closes)
            && (g.active == 0 ==> forall c :: c in g.waited ==> c in g.closes)
  {
    ExecKeeps(OPEN, steps);
  }

  function Leaves(n: nat): seq<Step> {
    seq(n, _ => Step.Leave)
  }

  /** When everything in flight has left, nothing is in flight, and no drain that
      waits is left waiting. */
  lemma {:induction false} LeavesEnd(g: Gate)
    requires Inv(g)
    ensures var n := Exec(g, Leaves(g.active));
            n.active == 0 && n.draining == g.draining && forall c :: c in g.waited ==> c in n.closes
    decreases g.active
  {
    if g.active > 0 {
      var n := Next(g, Step.Leave);
      assert n.active == g.active - 1 && n.waited == g.waited && n.draining == g.draining;
      NextKeeps(g, Step.Leave);
      assert Leaves(g.active)[1..] == Leaves(n.active);
      LeavesEnd(n);
    } else {
      assert Leaves(0) == [];
    }
  }

  /** The session's counters. */
  class SessionGate {
    var active: nat
    var draining: bool
    var idle: Option<Chan>
    var made: nat  // channels made so far: the next one's name
    ghost var closes: seq<Chan>
    ghost var waited: set<Chan>
    ghost var returned: bool

    ghost function View(): Gate
      reads this
    {
      Gate(active, draining, idle, made, closes, waited, returned)
    }

    constructor ()
      ensures View() == OPEN
    {
      active, draining, idle := 0, false, None;
      made, closes, waited, returned := 0, [], {}, false;
    }

    method EnterRun() returns (ok: bool)
      modifies this`active
      ensures ok == !draining && View() == Next(old(View()), Enter)
      ensures active == old(active) + if ok then 1 else 0
    {
      if draining {
        return false;
      }
      active := active + 1;
      return true;
    }

    method LeaveRun()
      requires active > 0
      modifies this`active, this`idle, this`closes
      ensures View() == Next(old(View()), Step.Leave) && active == old(active) - 1
    {
      active := active - 1;
      if draining && active == 0 && idle.Some? {
        closes := closes + [idle.value];
        idle := None;
      }
    }

    /** The section of drain; the channel to wait on, or nothing to wait for. */
    method Drain() returns (wait: Option<Chan>)
      modifies this
      ensures View() == Next(Next(old(View()), CloseGate), Wait)
      ensures active == old(active) && draining && (wait.None? <==> active == 0)
      ensures wait.None? ==> returned
      ensures wait.Some? ==> idle == wait && wait.value in waited
    {
      draining := true;
      if active == 0 {
        returned := true;
        return None;
      }
      if idle.None? {
        idle := Some(made);
        made := made + 1;
      }
      waited := waited + {idle.value};
      return idle;
    }

    /** The registry's leave, which closes a channel without asking whether the
        gate has: nobody waits before it has. */
    method Leave()
      requires active > 0 && Inv(View())
      modifies this`active, this`idle, this`closes
      ensures View() == Next(old(View()), Step.Leave) && active == old(active) - 1
    {
      active := active - 1;
      if active == 0 && idle.Some? {
        closes := closes + [idle.value];
        idle := None;
      }
    }
  }
}
