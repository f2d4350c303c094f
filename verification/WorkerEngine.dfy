// The table of requests a worker thread is still to answer
// (desktop/embedder/src/worker-engine.ts). A call is one embed; each attempt to
// settle its promise is kept, so that none being settled twice is something to
// prove.
module WorkerEngines {
  import opened Options

  type Vectors = seq<real>

  datatype Outcome =
    | Resolved(vectors: Vectors)
    | Failed(message: string)  // the worker's own error reply
    | Gone(why: string)        // the worker died, or was gone before

  datatype Call = Call(id: Option<nat>, outcomes: seq<Outcome>)

  datatype Reply =
    | Ready
    | LoadFailed(message: string)
    | Result(id: nat, vectors: Vectors)
    | Error(id: nat, message: string)

  datatype Table = Table(pending: map<nat, nat>, nextId: nat, dead: bool, calls: seq<Call>)

  const EMPTY := Table(map[], 1, false, [])

  const GONE := "the embedding worker is gone"

  /** Fail is an error of the worker, its exit, or a release. */
  datatype Event = Embed | Message(reply: Reply) | Fail(why: string)

  predicate InRange(t: Table) {
    forall id :: id in t.pending ==> t.pending[id] < |t.calls|
  }

  function Settle(call: Call, o: Outcome): Call {
    call.(outcomes := call.outcomes + [o])
  }

  function EmbedStep(t: Table): Table {
    if t.dead then t.(calls := t.calls + [Call(None, [Gone(GONE)])])
    else
      Table(t.pending[t.nextId := |t.calls|], t.nextId + 1, false, t.calls + [Call(Some(t.nextId), [])])
  }

  function Answer(t: Table, id: nat, o: Outcome): Table
    requires InRange(t)
  {
    if id !in t.pending then t
    else t.(pending := t.pending - {id}, calls := t.calls[t.pending[id] := Settle(t.calls[t.pending[id]], o)])
  }

  function ReplyStep(t: Table, reply: Reply): Table
    requires InRange(t)
  {
    match reply
    case Result(id, vectors) => Answer(t, id, Resolved(vectors))
    case Error(id, message) => Answer(t, id, Failed(message))
    case _ => t
  }

  /** Every call in the table is rejected. */
  function FailStep(t: Table, why: string): Table
    requires InRange(t)
  {
    Table(map[], t.nextId, true,
          seq(|t.calls|, c requires 0 <= c < |t.calls| => if IsPending(t, c) then Settle(t.calls[c], Gone(why))
              else t.calls[c]))
  }

  predicate IsPending(t: Table, c: nat)
    requires c < |t.calls|
  {
    t.calls[c].id.Some? && t.calls[c].id.value in t.pending && t.pending[t.calls[c].id.value] == c
  }

  function Next(t: Table, event: Event): Table
    requires InRange(t)
  {
    match event
    case Embed => EmbedStep(t)
    case Message(reply) => ReplyStep(t, reply)
    case Fail(why) => FailStep(t, why)
  }

  /** A call is settled at most once, and is in the table under its own number
      exactly while it is not settled. */
  ghost predicate Inv(t: Table)
    ensures Inv(t) ==> InRange(t)
  {
    && (forall id :: id in t.pending ==>
          id < t.nextId && t.pending[id] < |t.calls| && t.calls[t.pending[id]].id == Some(id))
    && (forall c :: 0 <= c < |t.calls| ==>
          |t.calls[c].outcomes| <= 1 && (t.calls[c].outcomes == [] <==> IsPending(t, c)))
    && (t.dead ==> t.pending == map[])
  }

  lemma AnswerKeeps(t: Table, id: nat, o: Outcome)
    requires Inv(t)
    ensures Inv(Answer(t, id, o))
  {
    if id in t.pending {
      var n, c := Answer(t, id, o), t.pending[id];
      assert IsPending(t, c);
      forall d | 0 <= d < |n.calls|
        ensures |n.calls[d].outcomes| <= 1 && (n.calls[d].outcomes == [] <==> IsPending(n, d))
      {
        assert d != c ==> IsPending(n, d) == IsPending(t, d);
      }
    }
  }

  lemma FailKeeps(t: Table, why: string)
    requires Inv(t)
    ensures Inv(FailStep(t, why))
  {
  }

  lemma EmbedKeeps(t: Table)
    requires Inv(t)
    ensures Inv(EmbedStep(t))
  {
    var n := EmbedStep(t);
    forall d | 0 <= d < |n.calls|
      ensures |n.calls[d].outcomes| <= 1 && (n.calls[d].outcomes == [] <==> IsPending(n, d))
    {
      if d < |t.calls| {
        assert IsPending(n, d) == IsPending(t, d);
      }
    }
  }

  lemma NextKeeps(t: Table, event: Event)
    requires Inv(t)
    ensures Inv(Next(t, event))
  {
    hide Inv, Answer, EmbedStep, FailStep;
    match event
    case Embed => EmbedKeeps(t);
    case Message(Result(id, vectors)) => AnswerKeeps(t, id, Resolved(vectors));
    case Message(Error(id, message)) => AnswerKeeps(t, id, Failed(message));
    case Message(_) =>
    case Fail(why) => FailKeeps(t, why);
  }

  ghost function Exec(t: Table, events: seq<Event>): Table
    requires Inv(t)
    ensures Inv(Exec(t, events))
    decreases |events|
  {
    if events == [] then t
    else
      NextKeeps(t, events[0]);
      Exec(Next(t, events[0]), events[1..])
  }

  /** The fate of the call numbered id: the first reply that bears its number, or
      the worker's death when that comes first. */
  function Fate(id: nat, events: seq<Event>): seq<Outcome> {
    if events == [] then []
    else
      match events[0]
      case Message(Result(i, vectors)) => if i == id then [Resolved(vectors)] else Fate(id, events[1..])
      case Message(Error(i, message)) => if i == id then [Failed(message)] else Fate(id, events[1..])
      case Fail(why) => [Gone(why)]
      case _ => Fate(id, events[1..])
  }

  /** What a step does to one call: nothing once it is settled; before that only
      its own reply or a death settles it. */
  lemma CallStep(t: Table, event: Event, c: nat)
    requires Inv(t) && c < |t.calls|
    ensures c < |Next(t, event).calls| && Next(t, event).calls[c].id == t.calls[c].id
    ensures t.calls[c].outcomes != [] ==> Next(t, event).calls[c] == t.calls[c]
    ensures t.calls[c].outcomes == [] && t.calls[c].id.Some? ==>
              Next(t, event).calls[c].outcomes == Fate(t.calls[c].id.value, [event])
  {
    if t.calls[c].outcomes == [] {
      assert IsPending(t, c);
    }
  }

  /** A settled call stays as it is, whatever comes. */
  lemma {:induction false} SettledForGood(t: Table, events: seq<Event>, c: nat)
    requires Inv(t) && c < |t.calls| && t.calls[c].outcomes != []
    ensures c < |Exec(t, events).calls| && Exec(t, events).calls[c] == t.calls[c]
    decreases |events|
  {
    hide Inv;
    if events != [] {
      NextKeeps(t, events[0]);
      CallStep(t, events[0], c);
      hide Next;
      SettledForGood(Next(t, events[0]), events[1..], c);
    }
  }

  /** Every call is settled exactly by the first event that concerns it. */
  lemma {:induction false} SettledByFate(t: Table, events: seq<Event>, c: nat)
    requires Inv(t) && c < |t.calls| && t.calls[c].outcomes == [] && t.calls[c].id.Some?
    ensures c < |Exec(t, events).calls| && Exec(t, events).calls[c].outcomes == Fate(t.calls[c].id.value, events)
    decreases |events|
  {
    hide Inv;
    if events != [] {
      NextKeeps(t, events[0]);
      CallStep(t, events[0], c);
      FateFirst(t.calls[c].id.value, events);
      hide Next, Fate;
      var n := Next(t, events[0]);
      if n.calls[c].outcomes == [] {
        SettledByFate(n, events[1..], c);
      } else {
        SettledForGood(n, events[1..], c);
      }
    }
  }

  lemma FateFirst(id: nat, events: seq<Event>)
    requires events != []
    ensures Fate(id, events) == if Fate(id, events[..1]) == [] then Fate(id, events[1..]) else Fate(id, events[..1])
    ensures [events[0]] == events[..1]
  {
    assert events[..1][0] == events[0] && events[..1][1..] == [];
  }

  /** An embed in any run from the start: its promise is settled once at most,
      by its own reply or the worker's death, whichever came first after it; at
      once when the worker is gone. */
  lemma EmbedSettles(before: seq<Event>, after: seq<Event>)
    ensures Inv(EMPTY)
    ensures var t := Exec(EMPTY, before);
            var c := |t.calls|;
            var n := Exec(EmbedStep(t), after);
            && c < |n.calls|
            && n.calls[c].outcomes == if t.dead then [Gone(GONE)] else Fate(t.nextId, after)
  {
    var t := Exec(EMPTY, before);
    var c := |t.calls|;
    NextKeeps(t, Embed);
    if t.dead {
      SettledForGood(EmbedStep(t), after, c);
    } else {
      SettledByFate(EmbedStep(t), after, c);
    }
  }

  /** Once dead, always dead: the table stays empty, every call is settled, and
      no event changes what the calls made were answered. */
  lemma {:induction false} DeadForGood(t: Table, events: seq<Event>)
    requires Inv(t) && t.dead
    ensures var n := Exec(t, events);
            && n.dead && n.pending == map[] && t.calls <= n.calls
            && forall c :: 0 <= c < |n.calls| ==> |n.calls[c].outcomes| == 1
    decreases |events|
  {
    if events == [] {
      assert forall c :: 0 <= c < |t.calls| ==> !IsPending(t, c);
    } else {
      NextKeeps(t, events[0]);
      DeadStep(t, events[0]);
      hide Inv, Next;
      DeadForGood(Next(t, events[0]), events[1..]);
    }
  }

  lemma DeadStep(t: Table, event: Event)
    requires Inv(t) && t.dead
    ensures Next(t, event).dead && t.calls <= Next(t, event).calls
    ensures event != Embed ==> Next(t, event) == t
  {
    if event.Fail? {
      assert forall c :: 0 <= c < |t.calls| ==> !IsPending(t, c);
      assert FailStep(t, event.why).calls == t.calls;
    }
  }

  class WorkerEngine {
    var pending: map<nat, nat>
    var nextId: nat
    var dead: bool
    var calls: seq<Call>

    ghost function View(): Table
      reads this
    {
      Table(pending, nextId, dead, calls)
    }

    ghost predicate Valid()
      reads this
      ensures Valid() ==> InRange(View())
    {
      Inv(View())
    }

    constructor ()
      ensures Valid() && View() == EMPTY
    {
      pending, nextId, dead, calls := map[], 1, false, [];
    }

    method Embed() returns (c: nat)
      requires Valid()
      modifies this
      ensures Valid() && View() == EmbedStep(old(View())) && c == |old(calls)|
    {
      NextKeeps(View(), Event.Embed);
      c := |calls|;
      if dead {
        calls := calls + [Call(None, [Gone(GONE)])];
        return;
      }
      var id := nextId;
      nextId := nextId + 1;
      calls := calls + [Call(Some(id), [])];
      pending := pending[id := c];
    }

    method OnReply(reply: Reply)
      requires Valid()
      modifies this
      ensures Valid() && View() == ReplyStep(old(View()), reply)
    {
      hide Inv;
      NextKeeps(View(), Message(reply));
      if !reply.Result? && !reply.Error? {
        return;
      }
      var id := reply.id;
      if id !in pending {
        return;
      }
      var c := pending[id];
      pending := pending - {id};
      calls := calls[c := Settle(calls[c], if reply.Result? then Resolved(reply.vectors) else Failed(reply.message))];
    }

    method Fail(why: string)
      requires Valid()
      modifies this
      ensures Valid() && View() == FailStep(old(View()), why)
    {
      NextKeeps(View(), Event.Fail(why));
      dead := true;
      ghost var was := calls;
      var todo := pending.Keys;
      while todo != {}
        invariant pending == old(pending) && nextId == old(nextId) && dead && todo <= pending.Keys
        invariant |calls| == |was|
        invariant forall c :: 0 <= c < |was| ==>
          var gone := IsPending(old(View()), c) && was[c].id.value !in todo;
          calls[c] == if gone then Settle(was[c], Gone(why)) else was[c]
        decreases |todo|
      {
        var id :| id in todo;
        var c := pending[id];
        assert IsPending(old(View()), c);
        calls := calls[c := Settle(calls[c], Gone(why))];
        todo := todo - {id};
      }
      pending := map[];
      assert calls == FailStep(old(View()), why).calls;
    }
  }
}
