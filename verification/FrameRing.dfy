// The buffer behind a durable run (desktop/runner/runs.go): a ring of segments
// that keeps a run's newest frames within a byte limit. The segments are
// specified by the stretches of the run's full history they hold.
module RingModel {
  import opened ByteStrings

  /** The stretch of a run's history one segment holds: the frames numbered
      base + 1 to End(). */
  datatype Part = Part(base: nat, lines: seq<Bytes>) {
    function End(): nat {
      base + |lines|
    }

    ghost function Size(): nat {
      |Concat(lines)|
    }
  }

  /** Where one frame lies in its segment. */
  datatype RingFrame = RingFrame(seqNo: nat, off: nat, n: nat)

  /** The index of a segment: its frames are numbered from base + 1 and their
      offsets tile it from 0. */
  ghost predicate IsIndex(frames: seq<RingFrame>, part: Part) {
    && |frames| == |part.lines|
    && forall k :: 0 <= k < |frames| ==>
         frames[k] == RingFrame(part.base + k + 1, |Concat(part.lines[..k])|, |part.lines[k]|)
  }

  lemma IndexSnoc(frames: seq<RingFrame>, part: Part, line: Bytes)
    requires IsIndex(frames, part)
    ensures IsIndex(frames + [RingFrame(part.End() + 1, part.Size(), |line|)], part.(lines := part.lines + [line]))
  {
    var more := part.lines + [line];
    assert forall k :: 0 <= k < |part.lines| ==> more[..k] == part.lines[..k];
    assert more[..|part.lines|] == part.lines;
  }

  /** In order and without a break, the parts hold the history after `evicted`. */
  ghost predicate Tiling(parts: seq<Part>, history: seq<Bytes>, evicted: nat) {
    && evicted <= |history|
    && (parts == [] ==> evicted == |history|)
    && (parts != [] ==> parts[0].base == evicted && parts[|parts| - 1].End() == |history|)
    && (forall i :: 0 <= i < |parts| ==>
          parts[i].End() <= |history| && parts[i].lines == history[parts[i].base..parts[i].End()])
    && (forall i :: 0 < i < |parts| ==> parts[i].base == parts[i - 1].End())
  }

  /** A segment is within its limit, or one frame is all there is in it. */
  ghost predicate PartFits(part: Part, segLimit: int) {
    part.Size() <= segLimit || (part.lines != [] && |part.lines[|part.lines| - 1]| == part.Size())
  }

  ghost predicate AllPartsFit(parts: seq<Part>, segLimit: int) {
    forall i :: 0 <= i < |parts| ==> PartFits(parts[i], segLimit)
  }

  ghost predicate AllFit(history: seq<Bytes>, n: int) {
    forall k :: 0 <= k < |history| ==> |history[k]| <= n
  }

  /** No frame is larger than a quarter of the limit. */
  ghost predicate QuarterFit(history: seq<Bytes>, limit: int) {
    forall k :: 0 <= k < |history| ==> 4 * |history[k]| <= limit
  }

  lemma QuarterFits(history: seq<Bytes>, limit: int, segLimit: int)
    requires limit >= 4 && segLimit == limit / 4
    ensures QuarterFit(history, limit) ==> AllFit(history, segLimit)
    ensures 4 * (limit - segLimit) >= 3 * limit
  {
  }

  /** The bytes of the history after `evicted`. */
  ghost function Held(history: seq<Bytes>, evicted: nat): nat
    requires evicted <= |history|
  {
    |Concat(history[evicted..])|
  }

  ghost function SumSizes(parts: seq<Part>): nat {
    if parts == [] then 0 else parts[0].Size() + SumSizes(parts[1..])
  }

  function WithLine(parts: seq<Part>, line: Bytes): seq<Part>
    requires parts != []
  {
    var last := parts[|parts| - 1];
    parts[|parts| - 1 := last.(lines := last.lines + [line])]
  }

  lemma TilingRotate(parts: seq<Part>, history: seq<Bytes>, evicted: nat)
    requires Tiling(parts, history, evicted)
    ensures Tiling(parts + [Part(|history|, [])], history, evicted)
  {
  }

  lemma TilingAppend(parts: seq<Part>, history: seq<Bytes>, evicted: nat, line: Bytes)
    requires Tiling(parts, history, evicted) && parts != []
    ensures parts[|parts| - 1].End() == |history|
    ensures Tiling(WithLine(parts, line), history + [line], evicted)
  {
    var more := WithLine(parts, line);
    forall i | 0 <= i < |more|
      ensures more[i].End() <= |history| + 1
      ensures more[i].lines == (history + [line])[more[i].base..more[i].End()]
    {
      assert parts[i].lines == history[parts[i].base..parts[i].End()];
    }
    forall i | 0 < i < |more| ensures more[i].base == more[i - 1].End() {
      assert parts[i].base == parts[i - 1].End();
    }
  }

  /** A line put where there is room leaves every segment within its bound. */
  lemma FitsAppend(parts: seq<Part>, line: Bytes, segLimit: int)
    requires parts != [] && AllPartsFit(parts, segLimit)
    requires parts[|parts| - 1].Size() == 0 || parts[|parts| - 1].Size() + |line| <= segLimit
    ensures AllPartsFit(WithLine(parts, line), segLimit)
  {
    ConcatSnoc(parts[|parts| - 1].lines, line);
  }

  lemma FitsRotate(parts: seq<Part>, base: nat, segLimit: int)
    requires AllPartsFit(parts, segLimit) && segLimit >= 1
    ensures AllPartsFit(parts + [Part(base, [])], segLimit) && Part(base, []).Size() == 0
  {
  }

  /** When every frame fits a segment, no segment is over its limit. */
  lemma PartSmall(parts: seq<Part>, history: seq<Bytes>, evicted: nat, segLimit: int)
    requires Tiling(parts, history, evicted) && parts != []
    requires AllPartsFit(parts, segLimit) && AllFit(history, segLimit)
    ensures parts[0].Size() <= segLimit
  {
    var n := |parts[0].lines|;
    assert PartFits(parts[0], segLimit);
    if n > 0 {
      assert parts[0].lines[n - 1] == history[parts[0].End() - 1];
    }
  }

  /** A segment's frames are the history's, and none of them is evicted. */
  lemma {:induction false} PartOf(parts: seq<Part>, history: seq<Bytes>, evicted: nat, s: nat)
    requires Tiling(parts, history, evicted) && s < |parts|
    ensures evicted <= parts[s].base && parts[s].End() <= |history|
    ensures parts[s].base == if s == 0 then evicted else parts[s - 1].End()
    ensures s == |parts| - 1 ==> parts[s].End() == |history|
  {
    if s > 0 {
      PartOf(parts, history, evicted, s - 1);
    }
  }

  lemma PartFrames(parts: seq<Part>, history: seq<Bytes>, evicted: nat, s: nat, from: nat, last: nat)
    requires Tiling(parts, history, evicted) && s < |parts| && parts[s].base < from <= last <= parts[s].End()
    ensures evicted <= parts[s].base && parts[s].End() <= |history|
    ensures parts[s].lines[from - 1 - parts[s].base..last - parts[s].base] == history[from - 1..last]
    ensures last < parts[s].End() ==> parts[s].lines[last - parts[s].base] == history[last]
  {
    PartOf(parts, history, evicted, s);
    var b, e := parts[s].base, parts[s].End();
    assert parts[s].lines == history[b..e];
    hide Tiling;
    SubSlice(history, b, e, from - 1, last);
  }

  lemma SubSlice<T>(s: seq<T>, b: nat, e: nat, i: nat, j: nat)
    requires b <= i <= j <= e <= |s|
    ensures s[b..e][i - b..j - b] == s[i..j]
    ensures j < e ==> s[b..e][j - b] == s[j]
  {
    var t, u, v := s[b..e], s[b..e][i - b..j - b], s[i..j];
    forall k | 0 <= k < j - i
      ensures u[k] == v[k]
    {
      assert u[k] == t[i - b + k] == s[i + k];
    }
    assert |u| == |v|;
  }

  /** The newest frame is kept as long as the newest segment has one. */
  lemma NewestKept(parts: seq<Part>, history: seq<Bytes>, evicted: nat)
    requires Tiling(parts, history, evicted)
    ensures evicted <= |history|
    ensures parts != [] && parts[|parts| - 1].lines != [] ==> evicted < |history|
  {
    if parts != [] {
      PartOf(parts, history, evicted, |parts| - 1);
    }
  }

  lemma HeldAppend(history: seq<Bytes>, evicted: nat, line: Bytes)
    requires evicted <= |history|
    ensures Held(history + [line], evicted) == Held(history, evicted) + |line|
  {
    ConcatSnoc(history[evicted..], line);
    assert (history + [line])[evicted..] == history[evicted..] + [line];
  }

  lemma TilingDrop(parts: seq<Part>, history: seq<Bytes>, evicted: nat)
    requires Tiling(parts, history, evicted) && |parts| > 1
    ensures Tiling(parts[1..], history, parts[0].End())
    ensures Held(history, evicted) == parts[0].Size() + Held(history, parts[0].End())
  {
    var kept := history[evicted..];
    var n := |parts[0].lines|;
    assert parts[1].base <= |history|;
    ConcatSplit(kept, n);
    assert kept[..n] == parts[0].lines;
    assert kept[n..] == history[parts[0].End()..];
  }

  /** A buffer over the history: what is kept, how large it is, and that
      evicting took no more than it had to. */
  ghost predicate Buffer(parts: seq<Part>, history: seq<Bytes>, evicted: nat, total: nat, limit: int, segLimit: int) {
    && Tiling(parts, history, evicted)
    && AllPartsFit(parts, segLimit)
    && total == Held(history, evicted)
    && (0 < evicted < |history| && AllFit(history, segLimit) ==> total > limit - segLimit)
  }

  /** A frame placed in the newest segment. */
  lemma BufferGrows(parts: seq<Part>, history: seq<Bytes>, evicted: nat, total: nat, line: Bytes,
      limit: int, segLimit: int)
    requires Tiling(parts, history + [line], evicted) && AllPartsFit(parts, segLimit)
    requires evicted <= |history| && total == Held(history, evicted) && (history != [] ==> evicted < |history|)
    requires 0 < evicted < |history| && AllFit(history, segLimit) ==> total > limit - segLimit
    ensures Buffer(parts, history + [line], evicted, total + |line|, limit, segLimit)
  {
    HeldAppend(history, evicted, line);
    if AllFit(history + [line], segLimit) {
      assert forall k :: 0 <= k < |history| ==> history[k] == (history + [line])[k];
    }
  }

  lemma OldestHolds(parts: seq<Part>, history: seq<Bytes>, evicted: nat, total: nat, limit: int, segLimit: int)
    requires Buffer(parts, history, evicted, total, limit, segLimit) && parts != []
    ensures parts[0].base == evicted <= |history| && Held(history, parts[0].base) == total
  {
  }

  /** The oldest segment dropped from a buffer over its limit. */
  lemma BufferShrinks(parts: seq<Part>, history: seq<Bytes>, evicted: nat, total: nat, limit: int, segLimit: int)
    requires Buffer(parts, history, evicted, total, limit, segLimit) && total > limit && |parts| > 1
    ensures total >= parts[0].Size() && evicted <= parts[0].End()
    ensures Buffer(parts[1..], history, parts[0].End(), total - parts[0].Size(), limit, segLimit)
  {
    TilingDrop(parts, history, evicted);
    if AllFit(history, segLimit) {
      PartSmall(parts, history, evicted, segLimit);
    }
  }

  /** Of the segments there were, the oldest k are gone, and the last of them had
      to go: with it, what is kept was over the limit. */
  ghost predicate Dropped(was: seq<Part>, history: seq<Bytes>, from: nat, evicted: nat, limit: int, k: nat) {
    && k <= |was|
    && (if k == 0 then evicted == from
        else evicted == was[k - 1].End() && was[k - 1].base <= |history| && Held(history, was[k - 1].base) > limit)
  }

  lemma DropsNone(was: seq<Part>, history: seq<Bytes>, from: nat, limit: int)
    ensures Dropped(was, history, from, from, limit, 0)
  {
  }

  lemma DropsOne(was: seq<Part>, history: seq<Bytes>, from: nat, limit: int, k: nat)
    requires k < |was| && was[k].base <= |history| && Held(history, was[k].base) > limit
    ensures Dropped(was, history, from, was[k].End(), limit, k + 1)
  {
  }

  /** Eviction took no segment it did not have to. */
  ghost predicate TookLeast(was: seq<Part>, history: seq<Bytes>, from: nat, evicted: nat, limit: int) {
    exists k: nat :: Dropped(was, history, from, evicted, limit, k)
  }

  lemma HeldLess(history: seq<Bytes>, from: nat, b: nat)
    requires from <= b <= |history|
    ensures Held(history, b) <= Held(history, from)
  {
    ConcatSplit(history[from..], b - from);
    assert history[from..][b - from..] == history[b..];
  }

  /** Within the limit nothing is evicted. */
  lemma NoneNeeded(was: seq<Part>, before: seq<Bytes>, line: Bytes, from: nat, evicted: nat, limit: int)
    requires Tiling(was, before, from) && TookLeast(was, before + [line], from, evicted, limit)
    ensures Held(before, from) + |line| <= limit ==> evicted == from
  {
    var history := before + [line];
    var k: nat :| Dropped(was, history, from, evicted, limit, k);
    if k > 0 {
      PartOf(was, before, from, k - 1);
      HeldLess(history, from, was[k - 1].base);
      HeldAppend(before, from, line);
    }
  }

  lemma {:induction false} InOrder(parts: seq<Part>, history: seq<Bytes>, evicted: nat, i: nat, j: nat)
    requires Tiling(parts, history, evicted) && i < j < |parts|
    ensures parts[i].base <= parts[i].End() <= parts[j].base
  {
    if i < j - 1 {
      InOrder(parts, history, evicted, i, j - 1);
    }
    assert parts[j].base == parts[j - 1].End();
  }

  /** A segment made after the old ones, but for the newest, is empty. */
  lemma Behind(was: seq<Part>, more: seq<Part>, before: seq<Bytes>, line: Bytes, from: nat, i: nat)
    requires Tiling(was, before, from) && Tiling(more, before + [line], from)
    requires |was| <= i < |more| - 1 && forall j :: 0 <= j < |was| ==> more[j] == was[j]
    requires more[|more| - 1].lines != []
    ensures more[i].base == more[i].End() == |before|
  {
    var history := before + [line];
    InOrder(more, history, from, i, |more| - 1);
    PartOf(more, history, from, |more| - 1);
    if was == [] {
      PartOf(more, history, from, i);
    } else {
      InOrder(more, history, from, |was| - 1, i);
    }
  }

  /** The segments that are not the newest are as they were. */
  ghost predicate Extends(more: seq<Part>, was: seq<Part>) {
    |was| <= |more| && forall i :: 0 <= i < |was| && i < |more| - 1 ==> more[i] == was[i]
  }

  lemma AddsOne(was: seq<Part>, mid: seq<Part>, more: seq<Part>, empty: Part, line: Bytes)
    requires mid in {was, was + [empty]} && mid != []
    requires more in {WithLine(mid, line), WithLine(mid + [empty], line)}
    ensures Extends(more, was)
  {
  }

  /** What was dropped with a new frame there was dropped of the old segments. */
  lemma SameLeast(was: seq<Part>, more: seq<Part>, before: seq<Bytes>, line: Bytes, from: nat, evicted: nat,
                  limit: int, k: nat)
    requires Tiling(was, before, from) && Tiling(more, before + [line], from)
    requires Extends(more, was) && k < |more| && more[|more| - 1].lines != []
    requires Dropped(more, before + [line], from, evicted, limit, k)
    ensures TookLeast(was, before + [line], from, evicted, limit)
  {
    var history := before + [line];
    if k <= |was| {
      assert Dropped(was, history, from, evicted, limit, k);
    } else {
      Behind(was, more, before, line, from, k - 1);
      if was == [] {
        assert Dropped(was, history, from, evicted, limit, 0);
      } else {
        PartOf(was, before, from, |was| - 1);
        HeldLess(history, was[|was| - 1].base, more[k - 1].base);
        assert Dropped(was, history, from, evicted, limit, |was|);
      }
    }
  }

  /** The running total the ring keeps is the sum of its segments' sizes. */
  lemma {:induction false} TilingSum(parts: seq<Part>, history: seq<Bytes>, evicted: nat)
    requires Tiling(parts, history, evicted)
    ensures SumSizes(parts) == Held(history, evicted)
    decreases |parts|
  {
    if |parts| > 1 {
      TilingDrop(parts, history, evicted);
      TilingSum(parts[1..], history, parts[0].End());
    } else if |parts| == 1 {
      assert parts[0].lines == history[evicted..];
    } else {
      assert history[evicted..] == [];
    }
  }

  /** The byte bounds of a buffer after an append: the total is the sum of the
      segments' sizes; it is within the limit, or there is one segment and one
      frame that alone is over it; and when every frame fits a segment, evicting
      never took more than a segment's worth too much. */
  lemma BufferBounds(parts: seq<Part>, history: seq<Bytes>, evicted: nat, total: nat, limit: int, segLimit: int)
    requires Buffer(parts, history, evicted, total, limit, segLimit) && (total <= limit || |parts| <= 1)
    requires limit >= 1 && segLimit == (if limit / 4 < 1 then 1 else limit / 4)
    ensures total == SumSizes(parts)
    ensures total <= limit ||
              (|parts| == 1 && parts[0].lines != []
                  && |parts[0].lines[|parts[0].lines| - 1]| == parts[0].Size() == total)
    ensures 0 < evicted < |history| && AllFit(history, segLimit) ==> limit - segLimit < total <= limit
  {
    TilingSum(parts, history, evicted);
    if |parts| == 1 {
      assert parts[1..] == [] && SumSizes([]) == 0;
      assert PartFits(parts[0], segLimit);
      PartSmall0(parts, history, evicted, segLimit);
    }
  }

  lemma PartSmall0(parts: seq<Part>, history: seq<Bytes>, evicted: nat, segLimit: int)
    requires Tiling(parts, history, evicted) && parts != [] && AllPartsFit(parts, segLimit)
    ensures AllFit(history, segLimit) ==> parts[0].Size() <= segLimit
  {
    if AllFit(history, segLimit) {
      PartSmall(parts, history, evicted, segLimit);
    }
  }
}

module FrameRings {
  import opened ByteStrings
  import opened Numbers
  import opened RingModel

  /** What the disk does to one append: may a segment file be created, may the
      frame be written to it, and what a refused write leaves past the end. */
  datatype Disk = Disk(create: bool, write: bool, torn: Bytes)

  lemma PrefixSlice(s: Bytes, size: nat, lo: nat, hi: nat)
    requires lo <= hi <= size <= |s|
    ensures s[lo..hi] == s[..size][lo..hi]
  {
  }

  class RingSegment {
    const number: nat    // its place among the ring's segments, and its file's name
    const onDisk: bool   // the segment is a file; otherwise a memory buffer
    var stored: Bytes    // the file's or the buffer's contents
    var size: nat
    var frames: seq<RingFrame>
    ghost var part: Part

    /** The segment's bytes and index are those of `part`. */
    ghost predicate Valid()
      reads this
      ensures Valid() ==> size == part.Size() <= |stored| && |frames| == |part.lines|
      ensures Valid() && frames != [] ==> frames[|frames| - 1].seqNo == part.End()
    {
      IsIndex(frames, part) && Holds(part.lines)
    }

    ghost predicate Holds(lines: seq<Bytes>)
      reads this
    {
      size == |Concat(lines)| <= |stored| && stored[..size] == Concat(lines)
    }

    constructor (number: nat, onDisk: bool, ghost base: nat)
      ensures Valid() && this.number == number && this.onDisk == onDisk && part == Part(base, []) && size == 0
    {
      this.number, this.onDisk := number, onDisk;
      stored, size, frames := [], 0, [];
      part := Part(base, []);
    }

    /** A write at the end: all of the line, or, on a file that refuses it,
        nothing below size. */
    method Write(line: Bytes, disk: Disk) returns (ok: bool)
      requires Valid()
      modifies this`stored, this`size
      ensures ok == (!onDisk || disk.write)
      ensures if ok then Holds(part.lines + [line]) else Valid()
    {
      ConcatSnoc(part.lines, line);
      if onDisk && !disk.write {
        stored := stored[..size] + disk.torn;
        return false;
      }
      var over := if size + |line| <= |stored| then stored[size + |line|..] else [];
      stored := stored[..size] + line + over;
      size := size + |line|;
      return true;
    }

    /** Indexes the frame the last write left at the end. */
    method Index(seqNo: nat, line: Bytes)
      requires IsIndex(frames, part) && Holds(part.lines + [line]) && seqNo == part.End() + 1
      modifies this`frames, this`part
      ensures Valid() && part == old(part).(lines := old(part).lines + [line])
    {
      IndexSnoc(frames, part, line);
      ConcatSnoc(part.lines, line);
      frames := frames + [RingFrame(seqNo, size - |line|, |line|)];
      part := part.(lines := part.lines + [line]);
    }

    /** Whole frames after `after`, as many as max bytes hold but at least one. */
    method Cut(after: nat, max: nat) returns (from: nat, start: nat, n: nat, last: nat)
      requires Valid() && part.lines != [] && after < part.End()
      ensures from == Max(after, part.base) + 1 && from <= last <= part.End()
      ensures start + n <= size
      ensures stored[start..start + n] == Concat(part.lines[from - 1 - part.base..last - part.base])
      ensures n <= max || from == last
      ensures last < part.End() ==> n + |part.lines[last - part.base]| > max
    {
      hide RingSegment.Holds, Concat;
      var i := 0;
      var first := frames[0].seqNo;
      if after >= first {
        i := after + 1 - first;
      }
      var j;
      j, n := Extend(i, max);
      from, start, last := frames[i].seqNo, frames[i].off, frames[j].seqNo;
      Located(i, j + 1);
    }

    /** Frames i to j are stored where the index says. */
    lemma Located(i: nat, j: nat)
      requires Valid() && i < j <= |part.lines|
      ensures frames[i] == RingFrame(part.base + i + 1, frames[i].off, |part.lines[i]|)
              && frames[j - 1].seqNo == part.base + j
      ensures var n := |Concat(part.lines[i..j])|;
              frames[i].off + n <= size && stored[frames[i].off..frames[i].off + n] == Concat(part.lines[i..j])
    {
      ConcatSlice(part.lines, i, j);
      assert frames[i].off == |Concat(part.lines[..i])|;
      hide IsIndex, Concat;
      PrefixSlice(stored, size, frames[i].off, frames[i].off + |Concat(part.lines[i..j])|);
    }

    /** The last frame of a batch that begins with frame i, and its bytes. */
    method Extend(i: nat, max: nat) returns (j: nat, n: nat)
      requires Valid() && i < |part.lines|
      ensures i <= j < |part.lines| && n == |Concat(part.lines[i..j + 1])| && (n <= max || i == j)
      ensures j + 1 < |part.lines| ==> n + |part.lines[j + 1]| > max
    {
      j := i;
      n := frames[i].n;
      assert part.lines[i..i + 1] == [part.lines[i]];
      ConcatOne(part.lines[i]);
      while j + 1 < |frames| && n + frames[j + 1].n <= max
        invariant i <= j < |frames|
        invariant n == |Concat(part.lines[i..j + 1])| && (n <= max || i == j)
      {
        j := j + 1;
        n := n + frames[j].n;
        assert part.lines[i..j + 1] == part.lines[i..j] + [part.lines[j]];
        ConcatSnoc(part.lines[i..j], part.lines[j]);
      }
    }
  }

  class FrameRing {
    const limit: int
    const segLimit: int
    var segs: seq<RingSegment>
    var total: nat
    var nextSeg: nat
    var memory: bool

    ghost var history: seq<Bytes>  // every frame ever appended; history[k] has seq k + 1
    ghost var evicted: nat         // how many of them are no longer kept
    ghost var parts: seq<Part>     // what each segment holds

    /** The segments are numbered consecutively, up to the last one made, and
        hold what the parts say. */
    ghost predicate Linked()
      reads this`segs, this`nextSeg, this`parts, segs
    {
      && |segs| == |parts| <= nextSeg
      && (forall i :: 0 <= i < |segs| ==> segs[i].number == nextSeg - |segs| + i)
      && (forall i :: 0 <= i < |segs| ==> segs[i].Valid() && segs[i].part == parts[i])
    }

    /** What the buffer holds, apart from how full it may be. */
    ghost predicate Tiled()
      reads this
    {
      Buffer(parts, history, evicted, total, limit, segLimit)
    }

    ghost predicate Valid()
      reads this, segs
      ensures Valid() ==> evicted <= |history|
    {
      && Linked()
      && Tiled()
      && segLimit == (if limit / 4 < 1 then 1 else limit / 4)
      && (total <= limit || |segs| <= 1)
      && (parts != [] ==> parts[|parts| - 1].lines != [])
    }

    /** Nothing was closed: once there is a frame, the newest is kept. */
    ghost predicate Open()
      reads this
    {
      history != [] ==> evicted < |history|
    }

    constructor (memory: bool, limit: int)
      ensures Valid() && Open() && segs == [] && history == [] && this.limit == limit
    {
      this.limit := limit;
      segLimit := if limit / 4 < 1 then 1 else limit / 4;
      segs, total, nextSeg := [], 0, 0;
      this.memory := memory;
      history, evicted, parts := [], 0, [];
    }

    /** A new newest segment: a file, or memory once a file could not be made. */
    method Rotate(disk: Disk) returns (seg: RingSegment)
      requires Linked()
      modifies this`segs, this`nextSeg, this`memory, this`parts
      ensures Linked() && fresh(seg) && segs == old(segs) + [seg] && parts == old(parts) + [Part(|history|, [])]
      ensures seg.onDisk == (!old(memory) && disk.create) && memory == (old(memory) || !disk.create)
    {
      if !memory && !disk.create {
        memory := true;
      }
      seg := new RingSegment(nextSeg, !memory, |history|);
      nextSeg := nextSeg + 1;
      segs := segs + [seg];
      parts := parts + [Part(|history|, [])];
    }

    /** Writes and indexes the frame in the newest segment. */
    method Store(seqNo: nat, line: Bytes, disk: Disk) returns (ok: bool)
      requires Linked() && segs != [] && seqNo == parts[|parts| - 1].End() + 1
      modifies this`parts, segs[|segs| - 1]
      ensures Linked() && ok == (!segs[|segs| - 1].onDisk || disk.write)
      ensures parts == if ok then WithLine(old(parts), line) else old(parts)
    {
      hide IsIndex, RingSegment.Holds;
      var cur := segs[|segs| - 1];
      ok := cur.Write(line, disk);
      if ok {
        cur.Index(seqNo, line);
        parts := WithLine(parts, line);
      }
    }

    /** The newest segment has room for n more bytes, or is empty. */
    ghost predicate Room(n: nat)
      reads this
    {
      && Tiling(parts, history, evicted) && AllPartsFit(parts, segLimit) && segLimit >= 1
      && parts != [] && (parts[|parts| - 1].Size() == 0 || parts[|parts| - 1].Size() + n <= segLimit)
    }

    /** A fresh segment, unless the newest one has room for n more bytes. */
    method MakeRoom(n: nat, disk: Disk)
      requires Linked() && Tiling(parts, history, evicted) && AllPartsFit(parts, segLimit) && segLimit >= 1
      modifies this`segs, this`nextSeg, this`memory, this`parts
      ensures Linked() && segs != [] && Room(n)
      ensures var size := if old(parts) == [] then 0 else old(parts)[|old(parts)| - 1].Size();
              var full := old(parts) == [] || (size > 0 && size + n > segLimit);
              parts == if full then old(parts) + [Part(|history|, [])] else old(parts)
      ensures forall s :: s in segs ==> s in old(segs) || fresh(s)
    {
      hide IsIndex, RingSegment.Holds;
      if segs == [] || (segs[|segs| - 1].size > 0 && segs[|segs| - 1].size + n > segLimit) {
        TilingRotate(parts, history, evicted);
        var _ := Rotate(disk);
      }
    }

    /** The line is the newest segment's last, and every segment keeps its
        bound. */
    ghost predicate Placed(line: Bytes)
      reads this
    {
      && Tiling(parts, history + [line], evicted) && AllPartsFit(parts, segLimit)
      && parts != [] && parts[|parts| - 1].lines != []
    }

    /** A refused file write: the run's buffer moves to memory. */
    method PlaceInMemory(seqNo: nat, line: Bytes, disk: Disk)
      requires Linked() && Room(|line|) && seqNo == |history| + 1 && memory
      modifies this`segs, this`nextSeg, this`memory, this`parts
      ensures Linked() && Placed(line)
      ensures parts == WithLine(old(parts) + [Part(|history|, [])], line)
      ensures forall s :: s in segs ==> s in old(segs) || fresh(s)
    {
      hide Tiling, AllPartsFit, PartFits, Linked;
      TilingRotate(parts, history, evicted);
      FitsRotate(parts, |history|, segLimit);
      var _ := Rotate(disk);
      TilingAppend(parts, history, evicted, line);
      FitsAppend(parts, line, segLimit);
      var ok := Store(seqNo, line, disk);
    }

    /** The line goes to the newest segment or, when its file refuses it, to a
        new one in memory. */
    method Place(seqNo: nat, line: Bytes, disk: Disk)
      requires Linked() && segs != [] && Room(|line|) && seqNo == |history| + 1
      modifies this`segs, this`nextSeg, this`memory, this`parts, segs[|segs| - 1]
      ensures Linked() && Placed(line)
      ensures var kept := !old(segs[|segs| - 1]).onDisk || disk.write;
              parts == WithLine(if kept then old(parts) else old(parts) + [Part(|history|, [])], line)
      ensures forall s :: s in segs ==> s in old(segs) || fresh(s)
    {
      hide Tiling, AllPartsFit, PartFits, Linked;
      TilingAppend(parts, history, evicted, line);
      FitsAppend(parts, line, segLimit);
      var ok := Store(seqNo, line, disk);
      if !ok {
        memory := true;
        PlaceInMemory(seqNo, line, disk);
      }
    }

    method DropOldest()
      requires Linked() && Tiled() && total > limit && |segs| > 1
      modifies this`segs, this`total, this`evicted, this`parts
      ensures Linked() && Tiled() && segs == old(segs)[1..] && parts == old(parts)[1..]
      ensures evicted == old(parts)[0].End() >= old(evicted)
    {
      hide Buffer, IsIndex, RingSegment.Holds;
      BufferShrinks(parts, history, evicted, total, limit, segLimit);
      total := total - segs[0].size;
      segs := segs[1..];
      evicted := parts[0].End();
      parts := parts[1..];
    }

    /** Drops the oldest whole segments while the total is over the limit. */
    method Evict() returns (ghost k: nat)
      requires Linked() && Tiled() && |segs| == |parts| > 0 && parts[|parts| - 1].lines != []
      requires segLimit == (if limit / 4 < 1 then 1 else limit / 4)
      modifies this`segs, this`total, this`evicted, this`parts
      ensures Valid() && Open() && evicted >= old(evicted)
      ensures Dropped(old(parts), history, old(evicted), evicted, limit, k) && k < |old(parts)|
      ensures forall s :: s in segs ==> s in old(segs)
    {
      hide Buffer, Linked, RingSegment.Valid, Dropped, Held;
      k := 0;
      assert Dropped(parts, history, evicted, evicted, limit, 0) by { DropsNone(parts, history, evicted, limit); }
      while total > limit && |segs| > 1
        invariant forall s :: s in segs ==> s in old(segs)
        invariant Linked() && Tiled() && old(evicted) <= evicted
        invariant k + |parts| == |old(parts)| && parts == old(parts)[k..]
        invariant Dropped(old(parts), history, old(evicted), evicted, limit, k)
        invariant |segs| == |parts| > 0 && parts[|parts| - 1].lines != []
        decreases |segs|
      {
        OldestHolds(parts, history, evicted, total, limit, segLimit);
        assert parts[0] == old(parts)[k];
        DropsOne(old(parts), history, old(evicted), limit, k);
        DropOldest();
        k := k + 1;
      }
      assert Open() by {
        KeepsNewest();
      }
    }

    lemma KeepsNewest()
      requires Tiled() && parts != [] && parts[|parts| - 1].lines != []
      ensures Open() && history != []
    {
      NewestKept(parts, history, evicted);
    }

    /** The line is put in the newest segment there is room in. */
    method Put(seqNo: nat, line: Bytes, disk: Disk)
      requires Linked() && Tiling(parts, history, evicted) && AllPartsFit(parts, segLimit) && segLimit >= 1
      requires seqNo == |history| + 1
      modifies this`segs, this`nextSeg, this`memory, this`parts, segs
      ensures Linked() && Placed(line) && Extends(parts, old(parts))
      ensures forall s :: s in segs ==> s in old(segs) || fresh(s)
    {
      hide Tiling, AllPartsFit, RingSegment.Valid, Placed, Extends, WithLine;
      ghost var was := parts;
      MakeRoom(|line|, disk);
      assert segs[|segs| - 1] in segs;
      ghost var mid := parts;
      Place(seqNo, line, disk);
      AddsOne(was, mid, parts, Part(|history|, []), line);
    }

    /** The line is the run's newest frame; nothing is evicted yet. */
    method Add(seqNo: nat, line: Bytes, disk: Disk)
      requires Valid() && Open() && seqNo == |history| + 1
      modifies this`segs, this`nextSeg, this`memory, this`parts, this`history, this`total, segs
      ensures Linked() && Tiled() && |segs| == |parts| > 0 && parts[|parts| - 1].lines != []
      ensures history == old(history) + [line] && Tiling(parts, history, evicted) && Extends(parts, old(parts))
      ensures forall s :: s in segs ==> s in old(segs) || fresh(s)
    {
      hide Tiling, AllPartsFit, Held, RingSegment.Valid, Linked, Placed, Extends;
      NewestKept(parts, history, evicted);
      Put(seqNo, line, disk);
      Count(line);
    }

    /** Numbers `line` as the run's newest frame and evicts what no longer fits.
        The newest segment is never evicted. */
    method Append(seqNo: nat, line: Bytes, disk: Disk)
      requires Valid() && Open() && seqNo == |history| + 1
      modifies this, segs
      ensures Valid() && Open() && history == old(history) + [line]
      ensures evicted >= old(evicted) && TookLeast(old(parts), history, old(evicted), evicted, limit)
      ensures old(total) + |line| <= limit ==> evicted == old(evicted)
      ensures limit >= 1 && total > limit ==>
                |segs| == 1 && segs[0].frames != [] && segs[0].frames[|segs[0].frames| - 1].n == total
      ensures limit >= 1 && 0 < evicted < |history| && AllFit(history, segLimit) ==> limit - segLimit < total <= limit
      ensures limit >= 4 && 0 < evicted < |history| && QuarterFit(history, limit) ==> 3 * limit < 4 * total <= 4 * limit
      ensures forall s :: s in segs ==> s in old(segs) || fresh(s)
    {
      hide RingSegment.Valid, Linked, Tiled, TookLeast, Held, AllFit, QuarterFit;
      Keep(seqNo, line, disk);
      if limit >= 1 {
        Bounds();
      }
    }

    /** Adds the frame and evicts what it has to. */
    method Keep(seqNo: nat, line: Bytes, disk: Disk)
      requires Valid() && Open() && seqNo == |history| + 1
      modifies this, segs
      ensures Valid() && Open() && history == old(history) + [line]
      ensures evicted >= old(evicted) && TookLeast(old(parts), history, old(evicted), evicted, limit)
      ensures old(total) + |line| <= limit ==> evicted == old(evicted)
      ensures forall s :: s in segs ==> s in old(segs) || fresh(s)
    {
      hide Valid, Open, Tiled, Linked, RingSegment.Valid, Tiling, Extends, TookLeast, Dropped, Held;
      Known();
      ghost var was, before, from := parts, history, evicted;
      Add(seqNo, line, disk);
      ghost var more := parts;
      ghost var k := Evict();
      Least(was, more, before, line, from, k);
    }

    lemma Known()
      requires Valid()
      ensures Tiling(parts, history, evicted) && total == Held(history, evicted)
      ensures segLimit == if limit / 4 < 1 then 1 else limit / 4
    {
    }

    lemma Least(was: seq<Part>, more: seq<Part>, before: seq<Bytes>, line: Bytes, from: nat, k: nat)
      requires Tiling(was, before, from) && Tiling(more, before + [line], from) && Extends(more, was)
      requires k < |more| && more[|more| - 1].lines != []
      requires Dropped(more, before + [line], from, evicted, limit, k)
      ensures TookLeast(was, before + [line], from, evicted, limit)
      ensures Held(before, from) + |line| <= limit ==> evicted == from
    {
      SameLeast(was, more, before, line, from, evicted, limit, k);
      NoneNeeded(was, before, line, from, evicted, limit);
    }

    lemma Bounds()
      requires Valid() && limit >= 1
      ensures total > limit ==> |segs| == 1 && segs[0].frames != [] && segs[0].frames[|segs[0].frames| - 1].n == total
      ensures 0 < evicted < |history| && AllFit(history, segLimit) ==> limit - segLimit < total <= limit
      ensures limit >= 4 && 0 < evicted < |history| && QuarterFit(history, limit) ==> 3 * limit < 4 * total <= 4 * limit
    {
      BufferBounds(parts, history, evicted, total, limit, segLimit);
      if limit >= 4 {
        QuarterFits(history, limit, segLimit);
      }
    }

    /** The placed frame's part in the total. */
    method Count(line: Bytes)
      requires Linked() && Placed(line) && Open() && evicted <= |history| && total == Held(history, evicted)
      requires 0 < evicted < |history| && AllFit(history, segLimit) ==> total > limit - segLimit
      modifies this`history, this`total
      ensures Linked() && Tiled() && history == old(history) + [line]
      ensures |segs| == |parts| > 0 && parts[|parts| - 1].lines != []
    {
      hide Tiling, AllPartsFit, AllFit, RingSegment.Valid;
      BufferGrows(parts, history, evicted, total, line, limit, segLimit);
      history := history + [line];
      total := total + |line|;
    }

    /** What segment s holds after `after`. */
    method ReadSegment(s: nat, after: nat, max: nat) returns (from: nat, data: Bytes, last: nat)
      requires Valid() && s < |segs| && after < parts[s].End() && parts[s].lines != []
      ensures from == Max(after, parts[s].base) + 1 && Max(after, evicted) < from <= last <= parts[s].End() <= |history|
      ensures data == Concat(history[from - 1..last]) && (|data| <= max || from == last)
      ensures last < parts[s].End() ==> |data| + |history[last]| > max
    {
      hide Tiling, AllPartsFit, AllFit, RingSegment.Valid;
      var start, n;
      from, start, n, last := segs[s].Cut(after, max);
      data := segs[s].stored[start..start + n];
      PartFrames(parts, history, evicted, s, from, last);
    }

    /** Whole frames after `after` from one segment: at least one frame, and at
        most max bytes unless it is one. A segment in `broken` cannot be read. */
    method Read(after: nat, max: nat, broken: set<nat>) returns (from: nat, data: Bytes, last: nat)
      requires Valid()
      ensures from == 0 ==> data == [] && last == after && (broken == {} ==> |history| <= Max(after, evicted))
      ensures from > 0 ==> Max(after, evicted) < from <= last <= |history|
      ensures from > 0 ==> data == Concat(history[from - 1..last]) && (|data| <= max || from == last)
      ensures from > 0 && broken == {} ==> from == Max(after, evicted) + 1
      ensures from > 0 && last < |history| && |data| + |history[last]| <= max ==>
                exists i :: 0 <= i < |parts| && last == parts[i].End()
    {
      hide Buffer, RingSegment.Valid;
      var s := 0;
      while s < |segs|
        invariant 0 <= s <= |segs|
        invariant broken == {} && s > 0 ==> parts[s - 1].End() <= Max(after, evicted)
      {
        var seg := segs[s];
        Follows(s);
        if |seg.frames| == 0 || seg.frames[|seg.frames| - 1].seqNo <= after {
          s := s + 1;
          continue;
        }
        from, data, last := ReadSegment(s, after, max);
        if seg.onDisk && s in broken {
          s := s + 1;
          continue;
        }
        return;
      }
      if s > 0 {
        Follows(s - 1);
      } else {
        NoSegments();
      }
      return 0, [], after;
    }

    lemma Follows(s: nat)
      requires Tiled() && s < |parts|
      ensures parts[s].base == if s == 0 then evicted else parts[s - 1].End()
      ensures evicted <= parts[s].base && (s == |parts| - 1 ==> parts[s].End() == |history|)
    {
      PartOf(parts, history, evicted, s);
    }

    lemma NoSegments()
      requires Tiled() && parts == []
      ensures evicted == |history|
    {
    }

    /** Every segment goes; nothing is kept. */
    method Close()
      requires Valid()
      modifies this`segs, this`total, this`evicted, this`parts
      ensures Valid() && segs == [] && evicted == |history|
    {
      segs, total := [], 0;
      evicted, parts := |history|, [];
      assert history[evicted..] == [];
    }
  }
}
