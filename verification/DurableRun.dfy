// One durable run (desktop/runner/runs.go): the frames its body writes, its
// one done, and what a subscriber reads of it.
module DurableRuns {
  import opened ByteStrings
  import opened FrameRings
  import opened SeqField

  datatype Phase = Pending | Running | Done

  /** What the JSON layer supplies: which frames are a done, and the done that
      stands in for one a body did not write, cancelled or not. */
  datatype Envelope = Envelope(isDone: Bytes -> bool, closing: bool -> Bytes)

  const LINE_END: set<byte> := {CR, LF}

  /** The stand-in is a frame on one line, and is recognised as a done. */
  ghost predicate Recognised(env: Envelope) {
    forall cancelled ::
      var frame := TrimRight(env.closing(cancelled), LINE_END);
      frame != [] && LF !in frame && env.isDone(frame)
  }

  /** Something that ends a line, once or more. */
  predicate IsLineEnd(e: Bytes) {
    forall k :: 0 <= k < |e| ==> e[k] == 10 || e[k] == 13
  }

  /** Something to write, with a character at its end. */
  predicate IsFrame(x: Bytes) {
    x != [] && x[|x| - 1] != 10 && x[|x| - 1] != 13
  }

  /** A line feed is followed by nothing but line ends. */
  predicate OneLiner(write: Bytes) {
    forall j, k :: 0 <= j < k < |write| && write[j] == LF ==> write[k] == LF || write[k] == CR
  }

  ghost predicate AllOneLiners(writes: seq<Bytes>) {
    forall k :: 0 <= k < |writes| ==> OneLiner(writes[k])
  }

  /** No frame holds a line feed. */
  ghost predicate Clean(lines: seq<Bytes>) {
    forall k :: 0 <= k < |lines| ==> LF !in lines[k]
  }

  /** The frame of a write is what comes before the line ends it ends in. */
  lemma FrameBefore(x: Bytes, e: Bytes)
    requires (x == [] || IsFrame(x)) && IsLineEnd(e)
    ensures TrimRight(x + e, LINE_END) == x
  {
    hide TrimRight;
    TrimRightTo(x, e, LINE_END);
  }

  /** It is all of a write up to the last byte that is not one. */
  lemma OneFrame(write: Bytes)
    requires OneLiner(write)
    ensures LF !in TrimRight(write, LINE_END)
  {
    var frame := TrimRight(write, LINE_END);
    forall j | 0 <= j < |frame|
      ensures frame[j] != LF
    {
      assert write[j] == frame[j] && write[|frame| - 1] == frame[|frame| - 1];
    }
  }

  /** A body that writes each frame with a line end has written those frames. */
  lemma {:induction false} FramesWritten(frames: seq<Bytes>, ends: seq<Bytes>, writes: seq<Bytes>)
    requires |frames| == |ends| == |writes|
    requires forall k :: 0 <= k < |frames| ==>
               IsFrame(frames[k]) && IsLineEnd(ends[k]) && writes[k] == frames[k] + ends[k]
    ensures FramesOf(writes) == frames
  {
    hide TrimRight, IsFrame, IsLineEnd;
    if frames != [] {
      var n := |frames| - 1;
      FrameBefore(frames[n], ends[n]);
      FramesWritten(frames[..n], ends[..n], writes[..n]);
      assert frames[n] != [] by { NotEmpty(frames[n]); }
      assert frames == frames[..n] + [frames[n]];
    }
  }

  lemma NotEmpty(x: Bytes)
    requires IsFrame(x)
    ensures x != []
  {
  }

  /** Frames of writes that are one line each are one line each. */
  lemma {:induction false} TranscriptClean(env: Envelope, writes: seq<Bytes>, cancelled: bool)
    requires Recognised(env) && AllOneLiners(writes)
    ensures Clean(Transcript(env, writes, cancelled))
  {
    hide TrimRight, OneLiner;
    FramesClean(writes);
    UpToDoneStops(env, FramesOf(writes));
    assert forall k :: 0 <= k < |UpToDone(env, FramesOf(writes))| ==>
        UpToDone(env, FramesOf(writes))[k] == FramesOf(writes)[k];
    hide FramesOf, UpToDone;
  }

  lemma {:induction false} FramesClean(writes: seq<Bytes>)
    requires AllOneLiners(writes)
    ensures Clean(FramesOf(writes))
  {
    hide TrimRight, OneLiner;
    if writes != [] {
      OneFrame(writes[|writes| - 1]);
      FramesClean(writes[..|writes| - 1]);
    }
  }

  /** The ring's history is the run's frames, each under its own number. */
  ghost predicate IsNumbered(history: seq<Bytes>, lines: seq<Bytes>) {
    |history| == |lines| && forall k :: 0 <= k < |lines| ==> history[k] == WithSeq(lines[k], k + 1)
  }

  /** No frame but the last is a done. */
  ghost predicate NothingAfterDone(env: Envelope, lines: seq<Bytes>) {
    forall k :: 0 <= k < |lines| - 1 ==> !env.isDone(lines[k])
  }

  ghost predicate EndsInDone(env: Envelope, lines: seq<Bytes>) {
    lines != [] && env.isDone(lines[|lines| - 1])
  }

  /** Exactly one frame is a done, and it is the last. */
  ghost predicate OneDone(env: Envelope, lines: seq<Bytes>) {
    exists k :: IsTheDone(env, lines, k) && k == |lines| - 1 && forall j :: IsTheDone(env, lines, j) ==> j == k
  }

  ghost predicate IsTheDone(env: Envelope, lines: seq<Bytes>, k: int) {
    0 <= k < |lines| && env.isDone(lines[k])
  }

  /** The frames among a body's writes: those that are not empty without their
      line ends. */
  function FramesOf(writes: seq<Bytes>): seq<Bytes> {
    if writes == [] then []
    else
      var frame := TrimRight(writes[|writes| - 1], LINE_END);
      FramesOf(writes[..|writes| - 1]) + (if frame == [] then [] else [frame])
  }

  /** Frames up to the first done, with it. */
  ghost function UpToDone(env: Envelope, frames: seq<Bytes>): seq<Bytes> {
    if frames == [] then []
    else
      var before := UpToDone(env, frames[..|frames| - 1]);
      if EndsInDone(env, before) then before else before + [frames[|frames| - 1]]
  }

  /** What a run's subscribers get of a body that wrote so much before it
      returned, panicked or was cancelled. */
  ghost function Transcript(env: Envelope, writes: seq<Bytes>, cancelled: bool): seq<Bytes> {
    var frames := UpToDone(env, FramesOf(writes));
    if EndsInDone(env, frames) then frames else frames + [TrimRight(env.closing(cancelled), LINE_END)]
  }

  lemma {:induction false} UpToDoneStops(env: Envelope, frames: seq<Bytes>)
    ensures NothingAfterDone(env, UpToDone(env, frames))
    ensures UpToDone(env, frames) <= frames
    ensures UpToDone(env, frames) != frames ==> EndsInDone(env, UpToDone(env, frames))
  {
    if frames != [] {
      UpToDoneStops(env, frames[..|frames| - 1]);
      assert frames == frames[..|frames| - 1] + [frames[|frames| - 1]];
    }
  }

  /** Whatever a body does, its transcript is its frames in order up to a done,
      and that done, its own or the one supplied, is the only one and the last. */
  lemma TranscriptHasOneDone(env: Envelope, writes: seq<Bytes>, cancelled: bool)
    requires Recognised(env)
    ensures var t := Transcript(env, writes, cancelled);
            OneDone(env, t) && t[..|t| - 1] <= FramesOf(writes)
    ensures (forall f :: f in FramesOf(writes) ==> !env.isDone(f)) ==>
              Transcript(env, writes, cancelled) == FramesOf(writes) + [TrimRight(env.closing(cancelled), LINE_END)]
  {
    hide FramesOf, TrimRight;
    var frames := FramesOf(writes);
    UpToDoneStops(env, frames);
    var t := Transcript(env, writes, cancelled);
    assert IsTheDone(env, t, |t| - 1);
    hide UpToDone;
    if forall f :: f in frames ==> !env.isDone(f) {
      var u := UpToDone(env, frames);
      if u != [] {
        assert u[|u| - 1] == frames[|u| - 1];
      }
    }
  }

  /** One step of a subscriber. No gap is gapFrom == 0. */
  datatype Batch = Batch(gapFrom: nat, gapTo: nat, frames: Bytes, last: nat, finished: bool, gone: bool, changed: nat)
  {
    /** The first frame's number. */
    function From(after: nat): nat {
      if gapFrom > 0 then gapTo + 1 else after + 1
    }

    /** The batch is the history from after + 1 to last, its beginning
        possibly reported as a gap. */
    ghost predicate Delivers(after: nat, history: seq<Bytes>) {
      && (if after < |history| then after < last <= |history| else last == after)
      && (gapFrom > 0 ==> gapFrom == after + 1 <= gapTo <= last)
      && frames == (if last == after then [] else Concat(history[From(after) - 1..last]))
      && (last > after && (gapFrom > 0 ==> gapTo < last) ==> frames != [])
    }
  }

  lemma ConcatNotEmpty(lines: seq<Bytes>)
    requires lines != [] && lines[0] != []
    ensures Concat(lines) != []
  {
  }

  lemma ConcatNone()
    ensures Concat([]) == []
  {
  }

  lemma FrameNotEmpty(line: Bytes, seqNo: nat)
    ensures WithSeq(line, seqNo) != []
  {
    hide Digits, TrimRight, DropSpace;
  }

  lemma NoFrames(env: Envelope)
    ensures FramesOf([]) == [] && UpToDone(env, []) == []
  {
  }

  lemma FramesSnoc(env: Envelope, writes: seq<Bytes>, k: nat)
    requires k < |writes|
    ensures var frames, frame := FramesOf(writes[..k]), TrimRight(writes[k], LINE_END);
            UpToDone(env, FramesOf(writes[..k + 1])) ==
            UpToDone(env, frames) + (if frame == [] || EndsInDone(env, UpToDone(env, frames)) then [] else [frame])
  {
    hide TrimRight;
    assert writes[..k + 1][..k] == writes[..k];
    var frames, frame := FramesOf(writes[..k]), TrimRight(writes[k], LINE_END);
    assert (frames + [frame])[..|frames|] == frames;
    assert frames + [] == frames;
  }

  class DurableRun {
    const env: Envelope
    const limit: int
    var phase: Phase
    var ring: FrameRing?
    var lastSeq: nat
    var sawDone: bool
    var gone: bool
    var changed: nat          // the channel subscribers wait on now; earlier ones are closed
    ghost var lines: seq<Bytes>  // the frames numbered so far

    ghost function Segments(): set<RingSegment>
      reads this, ring
    {
      if ring == null then {} else set s | s in ring.segs
    }

    ghost predicate Valid()
      reads this, ring, Segments()
      ensures Valid() && ring != null ==> |ring.history| == lastSeq && ring.evicted <= lastSeq
      ensures Valid() && phase == Done ==> gone || EndsInDone(env, lines)
      ensures Valid() ==> lastSeq == |lines| && (phase == Done && !gone ==> sawDone)
    {
      && Recognised(env)
      && (ring == null <==> phase == Pending)
      && lastSeq == |lines|
      && (ring == null ==> lines == [])
      && (ring != null ==> ring.Valid() && IsNumbered(ring.history, lines))
      && (ring != null ==> if gone then ring.evicted == |ring.history| else ring.Open())
      && NothingAfterDone(env, lines)
      && (sawDone <==> EndsInDone(env, lines))
      && (phase == Done ==> sawDone || gone)
    }

    /** What a subscriber could be waiting for is as it was. */
    twostate predicate Quiet()
      reads this
    {
      lines == old(lines) && gone == old(gone) && (phase == Done <==> old(phase) == Done)
    }

    /** A run that was done and not released is still, with the same frames. */
    twostate predicate StaysDone()
      reads this
    {
      old(phase) == Done && !old(gone) ==> phase == Done && !gone && lastSeq == old(lastSeq)
    }

    /** Every change a subscriber waits for replaces the channel. */
    twostate predicate Notifies()
      reads this
    {
      old(changed) <= changed && (changed == old(changed) ==> Quiet()) && old(lines) <= lines
    }

    constructor (env: Envelope, limit: int)
      requires Recognised(env)
      ensures Valid() && phase == Pending && !gone && lines == [] && this.env == env
    {
      this.env, this.limit := env, limit;
      phase, ring, lastSeq, sawDone, gone, changed := Pending, null, 0, false, false, 0;
      lines := [];
    }

    /** The part of start under the run's lock, once nothing refuses it. */
    method Start(memory: bool)
      requires Valid() && phase == Pending && !gone
      modifies this`ring, this`phase
      ensures Valid() && phase == Running && fresh(ring) && Segments() == {}
    {
      ring := new FrameRing(memory, limit);
      phase := Running;
    }

    method Notify()
      modifies this`changed
      ensures changed == old(changed) + 1
    {
      changed := changed + 1;
    }

    /** What a write adds to the run: its frame without line ends, unless there
        is none, nothing may follow any more, or the buffer is gone. */
    ghost function Added(line: Bytes): seq<Bytes>
      reads this
    {
      var frame := TrimRight(line, LINE_END);
      if sawDone || ring == null || gone || frame == [] then [] else [frame]
    }

    /** A write of a frame and its line end adds that frame and nothing else. */
    lemma AddsFrame(x: Bytes, e: Bytes)
      requires IsFrame(x) && IsLineEnd(e) && !sawDone && ring != null && !gone
      ensures Added(x + e) == [x] && Added(e) == []
    {
      hide TrimRight;
      FrameBefore(x, e);
      FrameBefore([], e);
      assert [] + e == e;
    }

    /** appendLocked: numbers a frame and keeps it. Nothing follows a done. */
    method Append(line: Bytes, disk: Disk)
      requires Valid()
      modifies this`lastSeq, this`sawDone, this`changed, this`lines, ring, Segments()
      ensures Valid() && lines == old(lines) + old(Added(line)) && old(changed) <= changed
      ensures changed == old(changed) ==> old(Added(line)) == []
      ensures old(Clean(lines)) && OneLiner(line) ==> Clean(lines)
      ensures forall s :: s in Segments() ==> s in old(Segments()) || fresh(s)
      ensures ring != null ==> ring.evicted >= old(ring.evicted)
    {
      hide FrameRing.Valid, WithSeq, Recognised, TrimRight;
      if sawDone || ring == null || gone {
        return;
      }
      var frame := TrimRight(line, LINE_END);
      if |frame| == 0 {
        return;
      }
      lastSeq := lastSeq + 1;
      ring.Append(lastSeq, WithSeq(frame, lastSeq), disk);
      if env.isDone(frame) {
        sawDone := true;
      }
      if OneLiner(line) {
        OneFrame(line);
      }
      lines := lines + [frame];
      Notify();
    }

    /** A body's write; refused once the buffer is gone. */
    method Write(line: Bytes, disk: Disk) returns (ok: bool)
      requires Valid()
      modifies this`lastSeq, this`sawDone, this`changed, this`lines, ring, Segments()
      ensures Valid() && ok == !gone && lines == old(lines) + old(Added(line)) && Notifies()
      ensures old(Clean(lines)) && OneLiner(line) ==> Clean(lines)
      ensures forall s :: s in Segments() ==> s in old(Segments()) || fresh(s)
      ensures ring != null ==> ring.evicted >= old(ring.evicted)
    {
      hide Valid;
      if gone {
        return false;
      }
      Append(line, disk);
      return true;
    }

    /** The end of a run's body: the done it failed to write, and nothing more. */
    method Complete(cancelled: bool, disk: Disk)
      requires Valid() && phase == Running
      modifies this`phase, this`lastSeq, this`sawDone, this`changed, this`lines, ring, Segments()
      ensures Valid() && phase == Done && Notifies()
      ensures gone || old(sawDone) ==> lines == old(lines)
      ensures !gone && !old(sawDone) ==> lines == old(lines) + [TrimRight(env.closing(cancelled), LINE_END)]
      ensures old(Clean(lines)) ==> Clean(lines)
      ensures forall s :: s in Segments() ==> s in old(Segments()) || fresh(s)
      ensures ring.evicted >= old(ring.evicted)
    {
      hide FrameRing.Valid, TrimRight, IsNumbered, NothingAfterDone;
      if !sawDone {
        Append(env.closing(cancelled), disk);
      }
      phase := Done;
      Notify();
    }

    /** execute: the body's writes, and what complete adds to them. */
    method Execute(writes: seq<Bytes>, disks: seq<Disk>, cancelled: bool, disk: Disk)
      requires Valid() && phase == Running && !gone && lines == [] && |disks| == |writes|
      modifies this`phase, this`lastSeq, this`sawDone, this`changed, this`lines, ring, Segments()
      ensures Valid() && phase == Done && !gone && ring != null && ring.evicted < lastSeq
      ensures lines == Transcript(env, writes, cancelled) && OneDone(env, lines)
      ensures AllOneLiners(writes) ==> Clean(lines)
    {
      hide FrameRing.Valid, TrimRight, IsNumbered, NothingAfterDone, FramesOf;
      NoFrames(env);
      for k := 0 to |writes|
        invariant Valid() && phase == Running && !gone && ring != null
        invariant lines == UpToDone(env, FramesOf(writes[..k]))
        invariant forall s :: s in Segments() ==> s in old(Segments()) || fresh(s)
      {
        FramesSnoc(env, writes, k);
        var ok := Write(writes[k], disks[k]);
      }
      assert writes[..|writes|] == writes;
      TranscriptHasOneDone(env, writes, cancelled);
      if AllOneLiners(writes) {
        TranscriptClean(env, writes, cancelled);
      }
      Complete(cancelled, disk);
    }

    /** The run's buffer goes; who waits for a frame is told. */
    method Release()
      requires Valid()
      modifies this`gone, this`changed, ring
      ensures Valid() && gone && Notifies() && Segments() <= old(Segments())
      ensures ring != null ==> ring.evicted >= old(ring.evicted)
    {
      hide FrameRing.Valid, Recognised, IsNumbered, NothingAfterDone, EndsInDone;
      if gone {
        return;
      }
      gone := true;
      if ring != null {
        ring.Close();
      }
      Notify();
    }

    /** What comes after `after`, and whether that is everything there will
        ever be. Segments in `broken` cannot be read; frames that only they
        hold are reported as a gap, like evicted ones. */
    method Read(after: nat, max: nat, broken: set<nat>) returns (b: Batch)
      requires Valid()
      ensures b.gone == gone && b.changed == changed
      ensures gone ==> b == Batch(0, 0, [], after, false, true, changed)
      ensures !gone ==> b.Delivers(after, if ring == null then [] else ring.history)
      ensures !gone ==> b.finished == (phase == Done && b.last >= lastSeq)
      ensures !gone && b.gapFrom > 0 && broken == {} ==> b.gapTo == ring.evicted < b.last
      ensures |b.frames| <= max || b.last == b.From(after)
    {
      hide FrameRing.Valid, Recognised, NothingAfterDone, EndsInDone, WithSeq, Concat;
      if gone {
        return Batch(0, 0, [], after, false, true, changed);
      }
      var gapFrom, gapTo, frames, last := 0, 0, [], after;
      if after < lastSeq {
        var from;
        from, frames, last := ring.Read(after, max, broken);
        if from == 0 {
          from, last := lastSeq + 1, lastSeq;
        }
        if from > after + 1 {
          gapFrom, gapTo := after + 1, from - 1;
        }
        if from <= lastSeq {
          FrameNotEmpty(lines[from - 1], from);
          assert ring.history[from - 1..last][0] == WithSeq(lines[from - 1], from);
          ConcatNotEmpty(ring.history[from - 1..last]);
        } else {
          ConcatNone();
          assert ring.history[from - 1..last] == [];
        }
      }
      return Batch(gapFrom, gapTo, frames, last, phase == Done && last >= lastSeq, false, changed);
    }
  }
}
