// What is kept of the hub's output (desktop/runner/appium_hub.go): the last few
// lines, however the process cuts its writes.
module HubOutputs {
  import opened ByteStrings
  import opened SeqField
  import opened TextLines

  const TAIL_LINES: nat := 12
  const TAIL_WIDTH: nat := 300
  const MAX_PARTIAL: nat := 65536

  /** utf8.RuneStart */
  predicate IsRuneStart(b: byte) {
    !(0x80 <= b < 0xC0)
  }

  /** s cut to at most n bytes, never inside a rune. */
  function Clip(s: Bytes, n: nat): (r: Bytes)
    ensures |r| <= n && r <= s && (|s| <= n ==> r == s)
    ensures |s| > n ==> (r == [] || IsRuneStart(s[|r|])) && forall k :: |r| < k <= n ==> !IsRuneStart(s[k])
  {
    if |s| <= n then s
    else if n > 0 && !IsRuneStart(s[n]) then Shrunk(s, n - 1)
    else s[..n]
  }

  function Shrunk(s: Bytes, n: nat): (r: Bytes)
    requires n < |s|
    ensures |r| <= n && r <= s
    ensures (r == [] || IsRuneStart(s[|r|])) && forall k :: |r| < k <= n ==> !IsRuneStart(s[k])
  {
    if n > 0 && !IsRuneStart(s[n]) then Shrunk(s, n - 1) else s[..n]
  }

  function Last<T>(n: nat, s: seq<T>): seq<T> {
    if |s| <= n then s else s[|s| - n..]
  }

  /** What a line is shown as: not at all when it is blank. */
  function Shown(line: Bytes): seq<Bytes> {
    var t := TrimRight(line, {CR});
    if DropSpace(t) == [] then [] else [Clip(t, TAIL_WIDTH)]
  }

  function ShownAll(lines: seq<Bytes>): seq<Bytes> {
    if lines == [] then [] else ShownAll(lines[..|lines| - 1]) + Shown(lines[|lines| - 1])
  }

  /** The unended line and the lines kept. */
  datatype Kept = Kept(partial: Bytes, lines: seq<Bytes>)

  const NOTHING := Kept([], [])

  /** The output after one more write. A line that grows too long is not waited
      for. */
  function Fed(k: Kept, b: Bytes): Kept {
    var text := k.partial + b;
    var lines := Last(TAIL_LINES, k.lines + ShownAll(Ended(text)));
    if |Tail(text)| > MAX_PARTIAL
    then Kept([], Last(TAIL_LINES, lines + Shown(Tail(text))))
    else Kept(Tail(text), lines)
  }

  lemma {:induction false} ShownAppend(a: seq<Bytes>, b: seq<Bytes>)
    ensures ShownAll(a + b) == ShownAll(a) + ShownAll(b)
  {
    hide Shown;
    if b == [] {
      assert a + b == a;
    } else {
      var n := |b| - 1;
      assert (a + b)[..|a + b| - 1] == a + b[..n] && (a + b)[|a + b| - 1] == b[n];
      ShownAppend(a, b[..n]);
    }
  }

  lemma LastAppend<T>(n: nat, a: seq<T>, b: seq<T>)
    ensures Last(n, Last(n, a) + b) == Last(n, a + b)
  {
  }

  class HubOutput {
    var partial: Bytes
    var lines: seq<Bytes>

    ghost function View(): Kept
      reads this
    {
      Kept(partial, lines)
    }

    constructor ()
      ensures View() == NOTHING
    {
      partial, lines := [], [];
    }

    method ClipLine(s: Bytes, n: nat) returns (r: Bytes)
      ensures r == Clip(s, n)
    {
      if |s| <= n {
        return s;
      }
      var k := n;
      while k > 0 && !IsRuneStart(s[k])
        invariant 0 <= k <= n
        invariant Shrunk(s, k) == Shrunk(s, n)
      {
        k := k - 1;
      }
      r := s[..k];
    }

    ghost predicate Valid()
      reads this`lines
    {
      |lines| <= TAIL_LINES
    }

    method Keep(line: Bytes)
      requires Valid()
      modifies this`lines
      ensures Valid() && lines == Last(TAIL_LINES, old(lines) + Shown(line))
    {
      var t := TrimRight(line, {CR});
      if DropSpace(t) == [] {
        assert lines + [] == lines;
        return;
      }
      var clipped := ClipLine(t, TAIL_WIDTH);
      lines := lines + [clipped];
      if |lines| > TAIL_LINES {
        lines := lines[|lines| - TAIL_LINES..];
      }
    }

    method Write(b: Bytes)
      requires Valid()
      modifies this
      ensures Valid() && View() == Fed(old(View()), b)
    {
      hide Shown, ShownAll, Last;
      var text := partial + b;
      var rest := text;
      while rest != [] && rest[LineEnd(rest) - 1] == LF
        invariant Valid() && partial == old(partial)
        invariant Tail(rest) == Tail(text)
        invariant Last(TAIL_LINES, lines + ShownAll(Ended(rest))) ==
                  Last(TAIL_LINES, old(lines) + ShownAll(Ended(text)))
        decreases |rest|
      {
        var n := LineEnd(rest);
        KeptOne(lines, rest[..n - 1], Ended(rest[n..]));
        Keep(rest[..n - 1]);
        rest := rest[n..];
      }
      KeptAll(lines);
      if |rest| > MAX_PARTIAL {
        Keep(rest);
        rest := [];
      }
      partial := rest;
    }
  }

  lemma KeptAll(lines: seq<Bytes>)
    requires |lines| <= TAIL_LINES
    ensures Last(TAIL_LINES, lines + ShownAll([])) == lines
  {
    assert lines + [] == lines;
  }

  lemma KeptOne(lines: seq<Bytes>, line: Bytes, rest: seq<Bytes>)
    ensures Last(TAIL_LINES, Last(TAIL_LINES, lines + Shown(line)) + ShownAll(rest)) ==
            Last(TAIL_LINES, lines + ShownAll([line] + rest))
  {
    hide Shown, Last;
    ShownAppend([line], rest);
    assert ShownAll([line]) == Shown(line) by {
      assert [line][..0] == [];
      assert ShownAll([line]) == ShownAll([]) + Shown(line);
    }
    LastAppend(TAIL_LINES, lines + Shown(line), ShownAll(rest));
    assert lines + Shown(line) + ShownAll(rest) == lines + (Shown(line) + ShownAll(rest));
  }

  // --- however the writes are cut --------------------------------------------------------

  lemma CutJoins(k: Kept, a: Bytes, b: Bytes)
    requires |Tail(k.partial + a)| <= MAX_PARTIAL
    ensures Fed(Fed(k, a), b) == Fed(k, a + b)
  {
    hide Shown, ShownAll, Last, Ended, Tail;
    var text := k.partial + a;
    assert text + b == k.partial + (a + b);
    ReadOn(text, b);
    var early, late := ShownAll(Ended(text)), ShownAll(Ended(Tail(text) + b));
    ShownAppend(Ended(text), Ended(Tail(text) + b));
    LastAppend(TAIL_LINES, k.lines + early, late);
    assert k.lines + early + late == k.lines + (early + late);
  }

  /** Where a write is cut makes no difference to anything that may follow if,
      and only if, the line it is cut in is not yet too long. */
  lemma CutHarmless(k: Kept, a: Bytes)
    ensures (forall b :: Fed(Fed(k, a), b) == Fed(k, a + b)) <==> |Tail(k.partial + a)| <= MAX_PARTIAL
  {
    hide Shown, ShownAll, Last;
    if |Tail(k.partial + a)| <= MAX_PARTIAL {
      hide Fed, Tail;
      forall b
        ensures Fed(Fed(k, a), b) == Fed(k, a + b)
      {
        CutJoins(k, a, b);
      }
    } else {
      CutTells(k, a);
    }
  }

  /** After a line too long was given up, one more byte shows it. */
  lemma CutTells(k: Kept, a: Bytes)
    requires |Tail(k.partial + a)| > MAX_PARTIAL
    ensures Fed(Fed(k, a), [SPACE]).partial == [SPACE]
    ensures Fed(k, a + [SPACE]).partial == []
    ensures Fed(Fed(k, a), [SPACE]) != Fed(k, a + [SPACE])
  {
    hide Shown, ShownAll, Last;
    assert [] + [SPACE] == [SPACE];
    var text := k.partial + a;
    assert text + [SPACE] == k.partial + (a + [SPACE]);
    hide Ended;
    OneMore([]);
    OneMore(Tail(text));
    ReadOn(text, [SPACE]);
    hide Tail;
  }

  lemma OneMore(t: Bytes)
    requires LF !in t
    ensures Tail(t + [SPACE]) == t + [SPACE]
  {
    hide Ended;
    var s := t + [SPACE];
    assert s[LineEnd(s) - 1] != LF;
    NoLine(s);
  }

  function FedAll(k: Kept, writes: seq<Bytes>): Kept
    decreases |writes|
  {
    if writes == [] then k else FedAll(Fed(k, writes[0]), writes[1..])
  }

  /** No line of the text, ended or not, is longer than a partial line may be. */
  ghost predicate AllLinesShort(text: Bytes) {
    forall k :: 0 <= k < |Lines(text)| ==> |Lines(text)[k]| <= MAX_PARTIAL
  }

  /** A beginning of a text of short lines ends within a short line. */
  lemma BeginningShort(a: Bytes, b: Bytes)
    requires AllLinesShort(a + b)
    ensures |Tail(a)| <= MAX_PARTIAL
  {
    hide Ended, Tail, Lines;
    ReadOn(a, b);
    LinesSplit(a + b);
    LinesSplit(Tail(a) + b);
    TailBegins(a, b);
  }

  /** What a beginning leaves unended is the beginning of a line. */
  lemma TailBegins(a: Bytes, b: Bytes)
    ensures Tail(a) != [] ==> |Ended(a)| < |Lines(a + b)| && |Tail(a)| <= |Lines(a + b)[|Ended(a)|]|
  {
    hide Lines;
    ReadOn(a, b);
    LinesSplit(a + b);
    LinesSplit(Tail(a) + b);
    var t := Tail(a) + b;
    if Tail(a) != [] {
      LineEndAfter(t, |Tail(a)|);
    }
  }

  lemma {:induction false} FedJoins(sofar: Bytes, writes: seq<Bytes>)
    requires AllLinesShort(sofar + Concat(writes))
    ensures FedAll(Fed(NOTHING, sofar), writes) == Fed(NOTHING, sofar + Concat(writes))
    decreases |writes|
  {
    hide Fed, AllLinesShort;
    if writes == [] {
      assert sofar + [] == sofar;
    } else {
      var text := sofar + writes[0];
      assert text + Concat(writes[1..]) == sofar + Concat(writes);
      BeginningShort(sofar, Concat(writes));
      assert NOTHING.partial + sofar == sofar;
      CutJoins(NOTHING, sofar, writes[0]);
      FedJoins(text, writes[1..]);
    }
  }

  /** However the process cuts its output into writes: what is kept of it is
      the unended line, and the last lines that are not blank, each cut to the
      width, when no line is too long. */
  lemma OutputKept(text: Bytes, writes: seq<Bytes>)
    requires Concat(writes) == text && AllLinesShort(text)
    ensures FedAll(NOTHING, writes) == Kept(Tail(text), Last(TAIL_LINES, ShownAll(Ended(text))))
  {
    hide Shown, ShownAll, Ended, AllLinesShort;
    assert [] + text == text;
    Nothing();
    FedJoins([], writes);
    assert text + [] == text;
    BeginningShort(text, []);
    assert NOTHING.lines + ShownAll(Ended(text)) == ShownAll(Ended(text));
  }

  lemma Nothing()
    ensures Fed(NOTHING, []) == NOTHING
  {
    assert Ended([] + []) == [];
  }

  // --- the hub's lines, as the hub wrote them -------------------------------------------

  /** A line worth showing as it is: something can be seen in it, it is no longer
      than 300 bytes, and does not end in a carriage return. */
  predicate IsTold(line: Bytes) {
    && (exists k :: 0 <= k < |line| && IsVisible(line[k])) && |line| <= 300
    && LF !in line && line[|line| - 1] != CR
  }

  /** The lines as they are written, each with its end. */
  function Written(lines: seq<Bytes>, ends: seq<Bytes>): Bytes
    requires |lines| == |ends|
  {
    if lines == [] then [] else lines[0] + ends[0] + Written(lines[1..], ends[1..])
  }

  predicate IsEnd(e: Bytes) {
    e == [LF] || e == [CR, LF]
  }

  /** Without their line feeds. */
  function Bodies(lines: seq<Bytes>, ends: seq<Bytes>): seq<Bytes>
    requires |lines| == |ends| && forall k :: 0 <= k < |ends| ==> IsEnd(ends[k])
  {
    if lines == [] then []
    else
      assert IsEnd(ends[0]);
      [lines[0] + ends[0][..|ends[0]| - 1]] + Bodies(lines[1..], ends[1..])
  }

  predicate IsBlank(s: Bytes) {
    forall k :: 0 <= k < |s| ==> s[k] == 32 || s[k] == 9 || s[k] == 13
  }

  /** Spaces, tabs and carriage returns are nothing to show. */
  lemma BlankIsNone(s: Bytes)
    requires IsBlank(s)
    ensures Shown(s) == []
  {
    hide Clip;
    var t := TrimRight(s, {CR});
    assert forall k :: 0 <= k < |t| ==> t[k] == s[k];
    BlankDrops(t);
  }

  lemma {:induction false} BlankDrops(s: Bytes)
    requires IsBlank(s)
    ensures DropSpace(s) == []
    decreases |s|
  {
    if s != [] {
      BlankDrops(s[1..]);
    }
  }

  lemma ToldShown(line: Bytes, cr: Bytes)
    requires IsTold(line) && (cr == [] || cr == [CR])
    ensures Shown(line + cr) == [line]
  {
    hide Clip, DropSpace;
    assert line + [] == line && (line + [CR])[..|line|] == line;
    var k :| 0 <= k < |line| && IsVisible(line[k]);
    VisibleStays(line, k);
  }

  lemma {:induction false} BodiesShown(lines: seq<Bytes>, ends: seq<Bytes>)
    requires |lines| == |ends| && forall k :: 0 <= k < |ends| ==> IsEnd(ends[k]) && IsTold(lines[k])
    ensures ShownAll(Bodies(lines, ends)) == lines
    decreases |lines|
  {
    hide Shown, IsTold;
    if lines != [] {
      var body := lines[0] + ends[0][..|ends[0]| - 1];
      ToldShown(lines[0], ends[0][..|ends[0]| - 1]);
      BodiesShown(lines[1..], ends[1..]);
      ShownAppend([body], Bodies(lines[1..], ends[1..]));
      assert ShownAll([body]) == Shown(body) by { OneShown(body); }
    }
  }

  lemma OneShown(line: Bytes)
    ensures ShownAll([line]) == Shown(line)
  {
    hide Shown;
    assert [line][..0] == [];
  }

  lemma ToldPlain(line: Bytes)
    requires IsTold(line)
    ensures LF !in line && |line| <= 300
  {
  }

  lemma {:induction false} WrittenEnds(lines: seq<Bytes>, ends: seq<Bytes>)
    requires |lines| == |ends| && forall k :: 0 <= k < |ends| ==> IsEnd(ends[k]) && IsTold(lines[k])
    ensures Ended(Written(lines, ends)) == Bodies(lines, ends) && Tail(Written(lines, ends)) == []
    ensures forall k :: 0 <= k < |Bodies(lines, ends)| ==> |Bodies(lines, ends)[k]| <= 301
    decreases |lines|
  {
    hide Ended, Tail, LineEnd, IsTold;
    if lines == [] {
      NoLine([]);
    } else {
      ToldPlain(lines[0]);
      var a, rest := lines[0] + ends[0], Written(lines[1..], ends[1..]);
      var body := lines[0] + ends[0][..|ends[0]| - 1];
      assert a == body + [LF] && a[..|a| - 1] == body && LF !in body;
      LineEndAt(a, |a|);
      FirstLine(a, rest);
      assert a[|a|..] + rest == rest;
      WrittenEnds(lines[1..], ends[1..]);
    }
  }

  lemma WrittenShort(lines: seq<Bytes>, ends: seq<Bytes>)
    requires |lines| == |ends| && forall k :: 0 <= k < |ends| ==> IsEnd(ends[k]) && IsTold(lines[k])
    ensures AllLinesShort(Written(lines, ends))
  {
    var text := Written(lines, ends);
    hide Ended, Tail, Lines, Written, IsEnd, IsTold;
    WrittenEnds(lines, ends);
    LinesSplit(text);
    forall k | 0 <= k < |Lines(text)|
      ensures |Lines(text)[k]| <= MAX_PARTIAL
    {
      assert Lines(text)[k] == Ended(text)[k] + [LF];
    }
  }

  /** Whatever the lines the hub writes, each with its end, and however they
      arrive: what is kept is the twelve newest of them, in order. */
  lemma LinesTold(lines: seq<Bytes>, ends: seq<Bytes>, writes: seq<Bytes>)
    requires |lines| == |ends| && forall k :: 0 <= k < |ends| ==> IsEnd(ends[k]) && IsTold(lines[k])
    requires Concat(writes) == Written(lines, ends)
    ensures FedAll(NOTHING, writes) == Kept([], if |lines| > 12 then lines[|lines| - 12..] else lines)
  {
    hide Ended, Tail, Written, IsEnd, IsTold, ShownAll, FedAll;
    var text := Written(lines, ends);
    WrittenEnds(lines, ends);
    WrittenShort(lines, ends);
    BodiesShown(lines, ends);
    OutputKept(text, writes);
  }
}
