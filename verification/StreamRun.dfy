// A subscriber of a durable run (desktop/runner/runs.go, streamRun) beside
// everything else that happens to the run. The other goroutines' critical
// sections are a schedule, so a statement about every schedule is one about
// every interleaving.
module RunStreams {
  import opened ByteStrings
  import opened Numbers
  import opened FrameRings
  import opened SeqField
  import opened TextLines
  import opened DurableRuns
  import opened Options

  /** A critical section of another goroutine. */
  datatype Op =
    | Write(line: Bytes, disk: Disk)
    | Complete(cancelled: bool, disk: Disk)
    | Release

  /** One turn of the loop: what happens to the run before the read and, if the
      subscriber waits, while it waits; which segments cannot be read; which
      writes the caller refuses; and whether the caller's context is seen ended
      first. */
  datatype Turn = Turn(before: seq<Op>, broken: set<nat>, refuseGap: bool, refuseFrames: bool,
                       waiting: seq<Op>, ended: bool)

  /** What was written to the subscriber. */
  datatype Event =
    | Gap(fromSeq: nat, toSeq: nat)
    | Frames(fromSeq: nat, toSeq: nat, data: Bytes)

  datatype End = Finished | Gone | Refused | Ended | Streaming

  const READ_BATCH: nat := 256 * 1024

  /** out accounts, in order and each once, for the numbers after + 1 to upto:
      a gap for some, the very frames for the others. */
  ghost predicate Covers(out: seq<Event>, after: nat, upto: nat, history: seq<Bytes>)
    decreases |out|
  {
    if out == [] then upto == after
    else
      var e := out[|out| - 1];
      && 0 < e.fromSeq <= e.toSeq == upto <= |history|
      && (e.Frames? ==> e.data == Concat(history[e.fromSeq - 1..upto]))
      && Covers(out[..|out| - 1], after, e.fromSeq - 1, history)
  }

  /** Frames appended later change nothing about what was delivered. */
  lemma {:induction false} CoversLater(out: seq<Event>, after: nat, upto: nat, history: seq<Bytes>, later: seq<Bytes>)
    requires Covers(out, after, upto, history) && history <= later
    ensures Covers(out, after, upto, later)
    decreases |out|
  {
    if out != [] {
      var e := out[|out| - 1];
      assert later[..|history|] == history;
      assert history[e.fromSeq - 1..upto] == later[e.fromSeq - 1..upto];
      CoversLater(out[..|out| - 1], after, e.fromSeq - 1, history, later);
    }
  }

  /** The ranges are disjoint and in order, and every number is in one. */
  lemma {:induction false} CoversEach(out: seq<Event>, after: nat, upto: nat, history: seq<Bytes>, n: nat)
      returns (i: nat)
    requires Covers(out, after, upto, history) && after < n <= upto
    ensures i < |out| && out[i].fromSeq <= n <= out[i].toSeq
    ensures forall j :: 0 <= j < i ==> out[j].toSeq < n
    ensures forall j :: i < j < |out| ==> n < out[j].fromSeq
    decreases |out|
  {
    hide Concat;
    var last := |out| - 1;
    var e, before := out[last], out[..last];
    assert forall j :: 0 <= j < last ==> before[j] == out[j];
    CoversBelow(before, after, e.fromSeq - 1, history);
    if e.fromSeq <= n {
      i := last;
    } else {
      i := CoversEach(before, after, e.fromSeq - 1, history, n);
    }
  }

  lemma {:induction false} CoversBelow(out: seq<Event>, after: nat, upto: nat, history: seq<Bytes>)
    requires Covers(out, after, upto, history)
    ensures after <= upto <= Max(after, |history|)
    ensures forall j :: 0 <= j < |out| ==> out[j].toSeq <= upto
    decreases |out|
  {
    if out != [] {
      CoversBelow(out[..|out| - 1], after, out[|out| - 1].fromSeq - 1, history);
      assert forall j :: 0 <= j < |out| - 1 ==> out[..|out| - 1][j] == out[j];
    }
  }

  lemma CoversGap(out: seq<Event>, after: nat, upto: nat, history: seq<Bytes>, gap: Event)
    requires Covers(out, after, upto, history)
    requires gap.fromSeq == upto + 1 <= gap.toSeq <= |history|
    requires gap.Frames? ==> gap.data == Concat(history[upto..gap.toSeq])
    ensures Covers(out + [gap], after, gap.toSeq, history)
  {
    assert (out + [gap])[..|out|] == out;
  }

  /** What a caller reads back from a batch it was written: its lines are the
      frames, and an object's last seq is the number it was appended under. */
  lemma FramesReadBack(e: Event, history: seq<Bytes>, lines: seq<Bytes>, k: nat)
    requires e.Frames? && 0 < e.fromSeq <= k <= e.toSeq <= |history|
             && e.data == Concat(history[e.fromSeq - 1..e.toSeq])
    requires IsNumbered(history, lines) && Clean(lines)
    ensures Lines(e.data) == history[e.fromSeq - 1..e.toSeq]
    ensures var t := TrimRight(lines[k - 1], BLANKS);
            IsBraced(t) && Closes(t) ==> SeqOf(Lines(e.data)[k - e.fromSeq]) == Some(k)
  {
    hide WithSeq, Concat, Lines, SeqOf, Closes;
    var batch := history[e.fromSeq - 1..e.toSeq];
    forall i | 0 <= i < |batch| ensures OneLine(batch[i]) {
      WithSeqOneLine(lines[e.fromSeq - 1 + i], e.fromSeq + i);
    }
    BatchLines(batch);
    var t := TrimRight(lines[k - 1], BLANKS);
    if IsBraced(t) && Closes(t) {
      WithSeqDecodes(lines[k - 1], k);
    }
  }

  /** A batch splits at its line feeds into the frames of its numbers, and every
      frame that is an object decodes to its own number. */
  ghost predicate ReadsBack(e: Event, history: seq<Bytes>, lines: seq<Bytes>) {
    && |history| == |lines| && 0 < e.fromSeq <= e.toSeq <= |history|
    && (e.Frames? ==> Lines(e.data) == history[e.fromSeq - 1..e.toSeq])
    && (e.Frames? ==> forall k :: e.fromSeq <= k <= e.toSeq ==> TellsNumber(history, lines, k))
  }

  /** Frame k, when it is an object, decodes to k. */
  ghost predicate TellsNumber(history: seq<Bytes>, lines: seq<Bytes>, k: nat)
    requires 0 < k <= |history| == |lines|
  {
    var t := TrimRight(lines[k - 1], BLANKS);
    IsBraced(t) && Closes(t) ==> SeqOf(history[k - 1]) == Some(k)
  }

  ghost predicate AllReadBack(out: seq<Event>, history: seq<Bytes>, lines: seq<Bytes>) {
    forall i :: 0 <= i < |out| ==> ReadsBack(out[i], history, lines)
  }

  lemma EventReadsBack(e: Event, history: seq<Bytes>, lines: seq<Bytes>)
    requires 0 < e.fromSeq <= e.toSeq <= |history|
    requires e.Frames? ==> e.data == Concat(history[e.fromSeq - 1..e.toSeq])
    requires IsNumbered(history, lines) && Clean(lines)
    ensures ReadsBack(e, history, lines)
  {
    hide IsNumbered, Clean, Concat, Lines, SeqOf, Closes, IsBraced, TrimRight;
    assert |history| == |lines| by { SameLength(history, lines); }
    if e.Frames? {
      FramesReadBack(e, history, lines, e.toSeq);
      forall k | e.fromSeq <= k <= e.toSeq
        ensures TellsNumber(history, lines, k)
      {
        FramesReadBack(e, history, lines, k);
        assert history[e.fromSeq - 1..e.toSeq][k - e.fromSeq] == history[k - 1];
      }
    }
  }

  lemma SameLength(history: seq<Bytes>, lines: seq<Bytes>)
    requires IsNumbered(history, lines)
    ensures |history| == |lines|
  {
  }

  /** All that a subscriber was written reads back. */
  lemma {:induction false} CoversReadBack(out: seq<Event>, after: nat, upto: nat, history: seq<Bytes>,
                                          lines: seq<Bytes>)
    requires Covers(out, after, upto, history) && IsNumbered(history, lines) && Clean(lines)
    ensures AllReadBack(out, history, lines)
    decreases |out|
  {
    hide IsNumbered, Clean, ReadsBack, Concat;
    if out != [] {
      var e := out[|out| - 1];
      EventReadsBack(e, history, lines);
      CoversReadBack(out[..|out| - 1], after, e.fromSeq - 1, history, lines);
      forall i | 0 <= i < |out|
        ensures ReadsBack(out[i], history, lines)
      {
        assert i < |out| - 1 ==> out[i] == out[..|out| - 1][i];
      }
    }
  }

  /** Every number a gap reported is below `lastSeq`: the newest frame's never
      is one. */
  ghost predicate GapsBehind(out: seq<Event>, lastSeq: nat) {
    forall i :: 0 <= i < |out| && out[i].Gap? ==> out[i].toSeq < lastSeq
  }

  ghost predicate AllReadable(turns: seq<Turn>) {
    forall i :: 0 <= i < |turns| ==> turns[i].broken == {}
  }

  /** The caller takes what it is written. */
  ghost predicate Accepting(turn: Turn) {
    !turn.refuseGap && !turn.refuseFrames
  }

  ghost predicate AllAccepting(turns: seq<Turn>) {
    forall i :: 0 <= i < |turns| ==> Accepting(turns[i])
  }

  ghost predicate Unreleased(ops: seq<Op>) {
    forall i :: 0 <= i < |ops| ==> !ops[i].Release?
  }

  /** Every write is one line. */
  ghost predicate AllLines(ops: seq<Op>) {
    forall i :: 0 <= i < |ops| && ops[i].Write? ==> OneLiner(ops[i].line)
  }

  ghost predicate TurnsOfLines(turns: seq<Turn>) {
    forall i :: 0 <= i < |turns| ==> AllLines(turns[i].before) && AllLines(turns[i].waiting)
  }

  ghost predicate AllUnreleased(turns: seq<Turn>) {
    forall i :: 0 <= i < |turns| ==> Unreleased(turns[i].before)
  }

  /** Nothing happens to the run while the subscriber waits. */
  ghost predicate AllStill(turns: seq<Turn>) {
    forall i :: 0 <= i < |turns| ==> turns[i].waiting == []
  }

  /** The frames a run numbers are a prefix of those it numbers later. */
  lemma NumberedGrows(history: seq<Bytes>, lines: seq<Bytes>, history': seq<Bytes>, lines': seq<Bytes>)
    requires IsNumbered(history, lines) && IsNumbered(history', lines') && lines <= lines'
    ensures history <= history'
  {
    hide WithSeq;
    assert forall k :: 0 <= k < |history| ==> history[k] == WithSeq(lines[k], k + 1) == history'[k];
  }

  method Happen(run: DurableRun, op: Op)
    requires run.Valid() && run.ring != null
    modifies run`phase, run`lastSeq, run`sawDone, run`gone, run`changed, run`lines, run.ring, run.Segments()
    ensures run.Valid() && run.Notifies() && run.ring.evicted >= old(run.ring.evicted)
    ensures old(run.ring.history) <= run.ring.history
    ensures !op.Release? ==> run.StaysDone()
    ensures old(Clean(run.lines)) && (op.Write? ==> OneLiner(op.line)) ==> Clean(run.lines)
    ensures forall s :: s in run.Segments() ==> s in old(run.Segments()) || fresh(s)
  {
    hide FrameRing.Valid, NothingAfterDone, IsNumbered, TrimRight, Clean, OneLiner;
    ghost var history, lines := run.ring.history, run.lines;
    match op {
      case Write(line, disk) => var _ := run.Write(line, disk);
      case Complete(cancelled, disk) => if run.phase == Running { run.Complete(cancelled, disk); }
      case Release => run.Release();
    }
    NumberedGrows(history, lines, run.ring.history, run.lines);
  }

  method HappenAll(run: DurableRun, ops: seq<Op>)
    requires run.Valid() && run.ring != null
    modifies run`phase, run`lastSeq, run`sawDone, run`gone, run`changed, run`lines, run.ring, run.Segments()
    ensures run.Valid() && run.ring.evicted >= old(run.ring.evicted)
    ensures old(run.ring.history) <= run.ring.history && old(run.changed) <= run.changed
    ensures Unreleased(ops) ==> run.StaysDone()
    ensures old(Clean(run.lines)) && AllLines(ops) ==> Clean(run.lines)
    ensures forall s :: s in run.Segments() ==> s in old(run.Segments()) || fresh(s)
  {
    hide DurableRun.Valid, Clean, OneLiner;
    for i := 0 to |ops|
      invariant run.Valid() && run.ring.evicted >= old(run.ring.evicted)
      invariant old(run.ring.history) <= run.ring.history && old(run.changed) <= run.changed
      invariant Unreleased(ops) ==> run.StaysDone()
      invariant old(Clean(run.lines)) && AllLines(ops) ==> Clean(run.lines)
      invariant forall s :: s in run.Segments() ==> s in old(run.Segments()) || fresh(s)
    {
      Happen(run, ops[i]);
    }
  }

  /** The select on the channel the read saw: the schedule goes on until the
      channel is closed or there is no more of it. */
  method Wait(run: DurableRun, seen: nat, ops: seq<Op>)
    requires run.Valid() && run.ring != null && seen == run.changed
    modifies run`phase, run`lastSeq, run`sawDone, run`gone, run`changed, run`lines, run.ring, run.Segments()
    ensures run.Valid() && run.ring.evicted >= old(run.ring.evicted)
    ensures old(run.ring.history) <= run.ring.history
    ensures old(run.changed) <= run.changed && (run.changed == seen ==> run.Quiet())
    ensures ops == [] ==> run.changed == seen
    ensures old(Clean(run.lines)) && AllLines(ops) ==> Clean(run.lines)
    ensures forall s :: s in run.Segments() ==> s in old(run.Segments()) || fresh(s)
  {
    hide DurableRun.Valid, Clean, OneLiner;
    var i := 0;
    while i < |ops| && run.changed == seen
      invariant 0 <= i <= |ops|
      invariant run.Valid() && run.ring.evicted >= old(run.ring.evicted)
      invariant old(run.ring.history) <= run.ring.history
      invariant run.changed >= seen && (run.changed == seen ==> run.Quiet())
      invariant i == 0 ==> run.changed == seen
      invariant old(Clean(run.lines)) && AllLines(ops) ==> Clean(run.lines)
      invariant forall s :: s in run.Segments() ==> s in old(run.Segments()) || fresh(s)
    {
      Happen(run, ops[i]);
      i := i + 1;
    }
  }

  lemma GapsBehindMore(out: seq<Event>, e: Event, n: nat)
    ensures GapsBehind(out, n) && (e.Gap? ==> e.toSeq < n) ==> GapsBehind(out + [e], n)
  {
  }

  /** Writes one batch to the caller, its gap first; a refused write ends the
      stream. */
  method Deliver(out: seq<Event>, cursor: nat, b: Batch, turn: Turn, ghost after: nat, ghost history: seq<Bytes>)
    returns (more: seq<Event>, reached: nat, wrote: bool, refused: bool)
    requires Covers(out, after, cursor, history) && b.Delivers(cursor, history)
    ensures Covers(more, after, reached, history)
    ensures reached >= cursor && (refused ==> !Accepting(turn))
    ensures !refused ==> reached == b.last && (wrote <==> b.last > cursor)
    ensures (b.gapFrom > 0 ==> b.gapTo < b.last) && GapsBehind(out, |history|) ==> GapsBehind(more, |history|)
    ensures !wrote ==> more == out
  {
    hide Concat, Covers, GapsBehind;
    if b.gapFrom > 0 && b.gapTo == b.last {
      ConcatNone();
      assert history[b.gapTo..b.last] == [];
    }
    more, reached, wrote := out, cursor, false;
    if b.gapFrom > 0 {
      if turn.refuseGap {
        return more, reached, wrote, true;
      }
      var gap := Gap(b.gapFrom, b.gapTo);
      CoversGap(more, after, reached, history, gap);
      GapsBehindMore(more, gap, |history|);
      more, reached, wrote := more + [gap], b.gapTo, true;
    }
    if |b.frames| > 0 {
      if turn.refuseFrames {
        return more, reached, wrote, true;
      }
      var frames := Frames(reached + 1, b.last, b.frames);
      CoversGap(more, after, reached, history, frames);
      GapsBehindMore(more, frames, |history|);
      more, reached, wrote := more + [frames], b.last, true;
    }
    refused := false;
  }

  /** What a stream has done so far, whatever has happened to the run. */
  ghost predicate Served(out: seq<Event>, after: nat, reached: nat, readable: bool, run: DurableRun)
    reads run, run.ring
  {
    && run.ring != null && Covers(out, after, reached, run.ring.history)
    && (readable ==> GapsBehind(out, |run.ring.history|))
  }

  lemma ServedLater(out: seq<Event>, after: nat, reached: nat, history: seq<Bytes>, later: seq<Bytes>)
    requires Covers(out, after, reached, history) && history <= later
    ensures Covers(out, after, reached, later)
    ensures GapsBehind(out, |history|) ==> GapsBehind(out, |later|)
  {
    CoversLater(out, after, reached, history, later);
  }

  /** One turn of the loop; Streaming is another one. */
  method Serve(run: DurableRun, sofar: seq<Event>, cursor: nat, turn: Turn, ghost after: nat, ghost readable: bool)
    returns (out: seq<Event>, reached: nat, end: End, open: bool)
    requires run.Valid() && Served(sofar, after, cursor, readable, run) && (readable ==> turn.broken == {})
    modifies run`phase, run`lastSeq, run`sawDone, run`gone, run`changed, run`lines, run.ring, run.Segments()
    ensures run.Valid() && Served(out, after, reached, readable, run)
    ensures end == Finished ==> run.phase == Done && !run.gone && run.lastSeq <= reached
    ensures end == Gone ==> run.gone
    ensures open ==> end == Ended && run.lastSeq <= reached && run.phase != Done && !run.gone
    ensures old(Clean(run.lines)) && AllLines(turn.before) && AllLines(turn.waiting) ==> Clean(run.lines)
    ensures end == Refused ==> !Accepting(turn)
    ensures end == Ended ==> open || turn.ended
    ensures old(run.changed) <= run.changed && reached >= cursor
    ensures end == Streaming ==> (reached > cursor || run.changed > old(run.changed))
    ensures end == Streaming && turn.waiting == [] ==> reached > cursor
    ensures cursor < old(run.lastSeq) && Accepting(turn) && end != Gone ==> reached > cursor && end != Ended
    ensures Unreleased(turn.before) && Accepting(turn) && old(run.phase) == Done && !old(run.gone) ==>
              run.StaysDone() && (end == Finished || (end == Streaming && cursor < reached < run.lastSeq))
    ensures forall s :: s in run.Segments() ==> s in old(run.Segments()) || fresh(s)
  {
    hide FrameRing.Valid, IsNumbered, NothingAfterDone, Recognised, EndsInDone, Covers, GapsBehind;
    hide Clean, AllLines, Accepting, Unreleased;
    ghost var history := run.ring.history;
    HappenAll(run, turn.before);
    ServedLater(sofar, after, cursor, history, run.ring.history);
    var b := run.Read(cursor, READ_BATCH, turn.broken);
    if b.gone {
      return sofar, cursor, Gone, false;
    }
    var wrote, refused;
    out, reached, wrote, refused := Deliver(sofar, cursor, b, turn, after, run.ring.history);
    if refused {
      return out, reached, Refused, false;
    }
    if b.finished {
      return out, reached, Finished, false;
    }
    if wrote {
      return out, reached, Streaming, false;
    }
    if turn.ended {
      return out, reached, Ended, false;
    }
    history := run.ring.history;
    Wait(run, b.changed, turn.waiting);
    ServedLater(out, after, reached, history, run.ring.history);
    open := run.changed == b.changed;
    end := if open then Ended else Streaming;
  }

  /** Streams a run to one caller from `after` on: what it was written, the
      number up to which it was served, and why the loop ended. `open` says the
      loop ended waiting on a channel nobody had closed. */
  method StreamRun(run: DurableRun, after: nat, turns: seq<Turn>)
    returns (out: seq<Event>, reached: nat, end: End, open: bool)
    requires run.Valid() && run.ring != null
    modifies run`phase, run`lastSeq, run`sawDone, run`gone, run`changed, run`lines, run.ring, run.Segments()
    ensures run.Valid() && Covers(out, after, reached, run.ring.history)
    ensures old(Clean(run.lines)) && TurnsOfLines(turns) ==> AllReadBack(out, run.ring.history, run.lines)
    ensures AllReadable(turns) ==> GapsBehind(out, run.lastSeq)
    ensures end == Finished ==>
              run.phase == Done && EndsInDone(run.env, run.lines) && reached == Max(after, run.lastSeq)
    ensures end == Finished && AllReadable(turns) && after < run.lastSeq ==>
              out != [] && out[|out| - 1].Frames? && out[|out| - 1].toSeq == run.lastSeq
    ensures end == Gone ==> run.gone
    ensures open ==> end == Ended && run.lastSeq <= reached && run.phase != Done && !run.gone
    ensures end == Refused ==>
              exists i :: 0 <= i < |turns| && !Accepting(turns[i]) &&
                          (reached - after) + (run.changed - old(run.changed)) >= i
    ensures end == Ended && !open ==>
              exists i :: 0 <= i < |turns| && turns[i].ended &&
                          (reached - after) + (run.changed - old(run.changed)) >= i
    ensures end == Streaming ==> (reached - after) + (run.changed - old(run.changed)) >= |turns|
    ensures end == Streaming && AllStill(turns) ==> reached >= after + |turns|
    ensures old(run.phase) == Done && !old(run.gone) && AllAccepting(turns) && AllUnreleased(turns)
              && turns != [] && after + |turns| > old(run.lastSeq) ==>
              end == Finished && run.lastSeq == old(run.lastSeq)
  {
    hide DurableRun.Valid, Covers, GapsBehind, EndsInDone, Accepting, Unreleased, Clean, AllLines, AllReadBack;
    CoversNone(after, run.ring.history);
    out, reached, end, open := [], after, Streaming, false;
    for t := 0 to |turns|
      invariant run.Valid() && Served(out, after, reached, AllReadable(turns), run)
      invariant old(run.changed) <= run.changed && (reached - after) + (run.changed - old(run.changed)) >= t
      invariant AllStill(turns) ==> reached >= after + t
      invariant old(Clean(run.lines)) && TurnsOfLines(turns) ==> Clean(run.lines)
      invariant AllAccepting(turns) && AllUnreleased(turns) && old(run.phase) == Done && !old(run.gone) ==>
                  run.StaysDone() && reached >= after + t && (t > 0 ==> reached < run.lastSeq)
      invariant forall s :: s in run.Segments() ==> s in old(run.Segments()) || fresh(s)
    {
      out, reached, end, open := Serve(run, out, reached, turns[t], after, AllReadable(turns));
      assert end == Refused ==> !Accepting(turns[t]);
      if end != Streaming {
        CoversBelow(out, after, reached, run.ring.history);
        LastIsFrames(out, after, reached, run.ring.history);
        ReadBack(run, out, after, reached);
        return;
      }
    }
    ReadBack(run, out, after, reached);
    end, open := Streaming, false;
  }

  lemma ReadBack(run: DurableRun, out: seq<Event>, after: nat, reached: nat)
    requires run.Valid() && run.ring != null && Covers(out, after, reached, run.ring.history)
    ensures Clean(run.lines) ==> AllReadBack(out, run.ring.history, run.lines)
  {
    hide Covers, Clean, AllReadBack;
    if Clean(run.lines) {
      CoversReadBack(out, after, reached, run.ring.history, run.lines);
    }
  }

  lemma CoversNone(after: nat, history: seq<Bytes>)
    ensures Covers([], after, after, history) && forall n :: GapsBehind([], n)
  {
  }

  /** A subscriber served to the end got the newest frame itself. */
  lemma LastIsFrames(out: seq<Event>, after: nat, upto: nat, history: seq<Bytes>)
    requires Covers(out, after, upto, history)
    ensures GapsBehind(out, upto) && after < upto ==>
              out != [] && out[|out| - 1].Frames? && out[|out| - 1].toSeq == upto
  {
  }
}
