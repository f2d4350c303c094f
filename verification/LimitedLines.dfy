// Reading a process's output line by line with a bound on what is kept of a
// line (desktop/runner/session.go, readLimitedLine and forward; executor.go,
// relayFrames). The reader's buffer may cut the stream anywhere.
module LimitedLines {
  import opened ByteStrings
  import opened Numbers
  import opened SeqField
  import opened TextLines

  /** What a slice is: up to and with a line feed, a full buffer, or the rest of
      the stream. */
  datatype Cut = AtLine | AtFull | AtEnd

  /** How much the buffer takes before it is full. */
  function Room(fills: seq<nat>, rest: Bytes): (n: nat)
    ensures n > 0
  {
    if fills == [] then |rest| + 1 else Max(fills[0], 1)
  }

  class LineReader {
    var rest: Bytes
    /** How much the buffer takes, each time it fills without a line feed. */
    var fills: seq<nat>

    constructor (stream: Bytes, fills: seq<nat>)
      ensures rest == stream && this.fills == fills
    {
      rest, this.fills := stream, fills;
    }

    /** bufio.Reader.ReadSlice */
    method ReadSlice() returns (chunk: Bytes, cut: Cut)
      modifies this
      ensures old(rest) == chunk + rest
      ensures cut == AtLine <==>
                old(rest) != [] && IsEnded(Line(old(rest))) && |Line(old(rest))| <= Room(old(fills), old(rest))
      ensures cut == AtLine ==> chunk == Line(old(rest))
      ensures cut == AtFull ==> |chunk| == Room(old(fills), old(rest)) && LF !in chunk && old(fills) != []
      ensures cut == AtEnd ==> rest == [] && LF !in chunk && |chunk| < Room(old(fills), old(rest))
      ensures fills == if cut == AtFull then old(fills)[1..] else old(fills)
    {
      var n := Room(fills, rest);
      if rest != [] && IsEnded(Line(rest)) && |Line(rest)| <= n {
        chunk, cut := Line(rest), AtLine;
      } else if |rest| >= n {
        chunk, cut := rest[..n], AtFull;
        fills := fills[1..];
      } else {
        chunk, cut := rest, AtEnd;
      }
      rest := rest[|chunk|..];
    }
  }

  /** The line a stream begins with. */
  function Line(s: Bytes): (l: Bytes)
    ensures l <= s && (s != [] ==> l != [])
  {
    if s == [] then [] else s[..LineEnd(s)]
  }

  /** Where a line's pieces end, its terminator's place counted: how much of it
      comes before its last piece. */
  function LastStart(fills: seq<nat>, n: nat): (k: nat)
    requires n > 0
    ensures k < n
  {
    if fills == [] || n <= Max(fills[0], 1) then 0
    else Max(fills[0], 1) + LastStart(fills[1..], n - Max(fills[0], 1))
  }

  /** What is left of the schedule after a line. */
  function FillsAfter(fills: seq<nat>, n: nat): seq<nat>
    requires n > 0
  {
    if fills == [] || n <= Max(fills[0], 1) then fills
    else FillsAfter(fills[1..], n - Max(fills[0], 1))
  }

  /** A line's length with the place of its terminator, there or not. */
  function Extent(line: Bytes): (n: nat)
    ensures n > 0
  {
    if IsEnded(line) then |line| else |line| + 1
  }

  /** What a line says: its terminator left out, and a carriage return before
      it when the buffer's last piece of the line holds both. */
  function Content(line: Bytes, fills: seq<nat>): Bytes {
    if !IsEnded(line) then line
    else
      var body := line[..|line| - 1];
      if body != [] && body[|body| - 1] == CR && LastStart(fills, |line|) < |body| then body[..|body| - 1] else body
  }

  function Cutoff(s: Bytes, limit: nat): Bytes {
    s[..Min(limit, |s|)]
  }

  lemma LineFrom(s: Bytes, k: nat)
    requires k <= |s| && LF !in s[..k]
    ensures Line(s) == s[..k] + Line(s[k..])
    ensures IsEnded(Line(s)) == IsEnded(Line(s[k..]))
  {
    if k == |s| {
      NoLineFeed(s);
    } else {
      var t := s[k..];
      var n := LineEnd(t);
      assert t[..n] == t[..n - 1] + [t[n - 1]];
      assert LF !in t[..n - 1];
      if t[n - 1] == LF {
        assert s[..k + n - 1] == s[..k] + t[..n - 1];
        LineEndAt(s, k + n);
        hide LineEnd;
        assert s[..k + n] == s[..k] + t[..n];
      } else {
        hide LineEnd;
        assert LF !in t;
        assert s == s[..k] + t;
        NoLineFeed(s);
        NoLineFeed(t);
      }
    }
  }

  lemma NoLineFeed(s: Bytes)
    requires LF !in s
    ensures Line(s) == s && !IsEnded(s)
  {
    if s != [] {
      LineEndAfter(s, |s|);
    }
  }

  /** A read of a line that has got some way: its first used bytes were pieces
      that filled the buffer. */
  ghost predicate PartWay(s: Bytes, was: seq<nat>, rest: Bytes, fills: seq<nat>, used: nat)
    ensures PartWay(s, was, rest, fills, used) ==> used <= |s| && rest == s[used..] && Line(s) == s[..used] + Line(rest)
    ensures PartWay(s, was, rest, fills, used) ==> IsEnded(Line(s)) == IsEnded(Line(rest))
  {
    && used <= |s| && rest == s[used..] && LF !in s[..used]
    && Line(s) == s[..used] + Line(rest) && IsEnded(Line(s)) == IsEnded(Line(rest))
    && LastStart(was, Extent(Line(s))) == used + LastStart(fills, Extent(Line(rest)))
    && FillsAfter(was, Extent(Line(s))) == FillsAfter(fills, Extent(Line(rest)))
  }

  lemma PieceMore(s: Bytes, was: seq<nat>, rest: Bytes, fills: seq<nat>, used: nat, k: nat)
    requires PartWay(s, was, rest, fills, used)
    requires fills != [] && k == Max(fills[0], 1) <= |rest| && LF !in rest[..k]
    ensures PartWay(s, was, rest[k..], fills[1..], used + k)
  {
    hide Line, LastStart, FillsAfter, IsEnded;
    LineFrom(rest, k);
    assert Extent(Line(rest)) == k + Extent(Line(rest[k..]));
    hide Extent;
    OnePiece(fills, Extent(Line(rest[k..])));
    assert s[..used + k] == s[..used] + rest[..k];
    assert s[..used] + (rest[..k] + Line(rest[k..])) == s[..used + k] + Line(rest[k..]);
    assert rest[k..] == s[used + k..];
  }

  lemma OnePiece(fills: seq<nat>, n: nat)
    requires fills != [] && n > 0
    ensures LastStart(fills, Max(fills[0], 1) + n) == Max(fills[0], 1) + LastStart(fills[1..], n)
    ensures FillsAfter(fills, Max(fills[0], 1) + n) == FillsAfter(fills[1..], n)
  {
  }

  /** A piece without its line feed, and without a carriage return before it. */
  function Stripped(piece: Bytes): Bytes
    requires IsEnded(piece)
  {
    var body := piece[..|piece| - 1];
    if body != [] && body[|body| - 1] == CR then body[..|body| - 1] else body
  }

  lemma PieceLast(s: Bytes, was: seq<nat>, rest: Bytes, fills: seq<nat>, used: nat)
    requires PartWay(s, was, rest, fills, used) && IsEnded(Line(rest)) && |Line(rest)| <= Room(fills, rest)
    ensures FillsAfter(was, Extent(Line(s))) == fills
    ensures Content(Line(s), was) == s[..used] + Stripped(Line(rest))
  {
  }

  lemma PieceEnd(s: Bytes, was: seq<nat>, rest: Bytes, fills: seq<nat>, used: nat)
    requires PartWay(s, was, rest, fills, used) && LF !in rest && |rest| < Room(fills, rest)
    ensures FillsAfter(was, Extent(Line(s))) == fills
    ensures Content(Line(s), was) == s[..used] + rest && !IsEnded(Line(s)) && Line(s) == s
  {
    NoLineFeed(rest);
  }

  /** A piece is kept as far as there is room, and counted as far as not. */
  method Take(kept: Bytes, dropped: nat, body: Bytes, limit: nat, ghost part: Bytes) returns (keeps: Bytes, drops: nat)
    requires kept == Cutoff(part, limit) && dropped == |part| - |kept|
    ensures keeps == Cutoff(part + body, limit) && drops == |part + body| - |keeps|
  {
    var room := limit - |kept|;
    if room > 0 {
      if |body| <= room {
        return kept + body, dropped;
      }
      return kept + body[..room], dropped + |body| - room;
    }
    return kept, dropped + |body|;
  }

  /** The line's first limit bytes, how many more it had, and where the reader
      is left: the rest of the line is consumed. */
  method ReadLimitedLine(r: LineReader, limit: nat) returns (kept: Bytes, dropped: nat, cut: Cut)
    modifies r
    ensures var line, was := Line(old(r.rest)), old(r.fills);
            && kept == Cutoff(Content(line, was), limit) && dropped == |Content(line, was)| - |kept|
            && r.rest == old(r.rest)[|line|..] && r.fills == FillsAfter(was, Extent(line))
            && cut == (if IsEnded(line) then AtLine else AtEnd)
  {
    hide Content, LastStart, FillsAfter, Extent, Cutoff, PartWay, Line, Stripped, IsEnded;
    kept, dropped := [], 0;
    ghost var s, was, used := r.rest, r.fills, 0;
    assert PartWay(s, was, s, was, 0) && Cutoff([], limit) == [] by { Begins(s, was, limit); }
    while true
      invariant 0 <= used <= |s| && PartWay(s, was, r.rest, r.fills, used)
      invariant kept == Cutoff(s[..used], limit) && dropped == used - |kept|
      decreases |r.rest|
    {
      ghost var rest, fills := r.rest, r.fills;
      var chunk;
      chunk, cut := r.ReadSlice();
      assert r.rest == s[used + |chunk|..];
      var body := if cut == AtLine then Stripped(chunk) else chunk;
      kept, dropped := Take(kept, dropped, body, limit, s[..used]);
      if cut == AtLine {
        PieceLast(s, was, rest, fills, used);
        return;
      }
      if cut == AtEnd {
        assert chunk + [] == chunk;
        PieceEnd(s, was, rest, fills, used);
        return;
      }
      PieceMore(s, was, rest, fills, used, |chunk|);
      assert s[..used] + chunk == s[..used + |chunk|];
      used := used + |chunk|;
    }
  }

  lemma Begins(s: Bytes, was: seq<nat>, limit: nat)
    ensures PartWay(s, was, s, was, 0) && Cutoff([], limit) == []
  {
    assert s[0..] == s && s[..0] == [] && [] + Line(s) == Line(s);
  }

  // --- a whole stream ------------------------------------------------------------------

  /** What follows the line a stream begins with. */
  function Rest(s: Bytes): (r: Bytes)
    ensures s == Line(s) + r && (s != [] ==> |r| < |s|)
  {
    s[|Line(s)|..]
  }

  /** What the lines of a stream say. */
  function Contents(s: Bytes, fills: seq<nat>): seq<Bytes>
    decreases |s|
  {
    if s == [] then []
    else [Content(Line(s), fills)] + Contents(Rest(s), FillsAfter(fills, Extent(Line(s))))
  }

  /** A line as it is passed on: cut at the limit, and by how much. */
  datatype Sent = Sent(line: Bytes, dropped: nat)

  /** A line is passed on within the limit, and one that lost bytes is at it. */
  predicate SentOk(sent: Sent, limit: nat) {
    |sent.line| <= limit && (sent.dropped > 0 ==> |sent.line| == limit)
  }

  /** What is passed on: the lines that are not empty, in order. */
  function SentAll(contents: seq<Bytes>, limit: nat): (all: seq<Sent>)
    ensures forall k :: 0 <= k < |all| ==> SentOk(all[k], limit)
  {
    if contents == [] then []
    else
      var c := contents[0];
      (if c == [] then [] else [Sent(Cutoff(c, limit), |c| - |Cutoff(c, limit)|)]) + SentAll(contents[1..], limit)
  }

  /** Text as its bytes; a character beyond a byte is not written here. */
  function Ascii(s: string): Bytes {
    seq(|s|, k requires 0 <= k < |s| => if s[k] < 128 as char then s[k] as byte else 0)
  }

  const ELLIPSIS: Bytes := [0xE2, 0x80, 0xA6]

  /** What a cut line ends in. */
  function CutNote(dropped: nat, limit: nat): Bytes {
    ELLIPSIS + Ascii(" [tasktrooper: this line was ") + Digits(dropped)
    + (Ascii(" bytes over the ") + Digits(limit) + Ascii("-byte limit and was cut here]"))
  }

  /** The text that goes to the caller. */
  function Text(sent: Sent, limit: nat): Bytes {
    if sent.dropped > 0 then sent.line + CutNote(sent.dropped, limit) else sent.line
  }

  function Texts(all: seq<Sent>, limit: nat): seq<Bytes> {
    seq(|all|, k requires 0 <= k < |all| => Text(all[k], limit))
  }

  /** From a text the caller can tell the line's bytes and how many were cut. */
  lemma TextTells(a: Sent, b: Sent, limit: nat)
    requires SentOk(a, limit) && SentOk(b, limit)
    ensures Text(a, limit) == Text(b, limit) ==> a == b
    ensures a.dropped > 0 <==> |Text(a, limit)| > limit
  {
    hide Ascii, Digits;
    if Text(a, limit) == Text(b, limit) && a.dropped > 0 {
      assert a.line == Text(a, limit)[..limit] == Text(b, limit)[..limit] == b.line;
      assert CutNote(a.dropped, limit) == Text(a, limit)[limit..] == Text(b, limit)[limit..] ==
             CutNote(b.dropped, limit);
      NoteTells(a.dropped, b.dropped, limit);
    }
  }

  /** The texts of two streams are the same only when the same lines were passed
      on and the same bytes of each lost: a line that was cut is never mistaken
      for one that stops there. */
  lemma TextsTell(a: seq<Bytes>, b: seq<Bytes>, limit: nat)
    ensures Texts(SentAll(a, limit), limit) == Texts(SentAll(b, limit), limit) ==>
            SentAll(a, limit) == SentAll(b, limit)
  {
    hide SentAll, SentOk, Text;
    var x, y := SentAll(a, limit), SentAll(b, limit);
    if Texts(x, limit) == Texts(y, limit) {
      assert |x| == |Texts(x, limit)| == |Texts(y, limit)| == |y|;
      forall k | 0 <= k < |x|
        ensures x[k] == y[k]
      {
        assert Text(x[k], limit) == Texts(x, limit)[k] == Texts(y, limit)[k] == Text(y[k], limit);
        TextTells(x[k], y[k], limit);
      }
    }
  }

  lemma NoteTells(m: nat, n: nat, limit: nat)
    requires CutNote(m, limit) == CutNote(n, limit)
    ensures m == n
  {
    hide Ascii, Digits;
    var head := ELLIPSIS + Ascii(" [tasktrooper: this line was ");
    var tail := Ascii(" bytes over the ") + Digits(limit) + Ascii("-byte limit and was cut here]");
    Middle(head, Digits(m), tail);
    Middle(head, Digits(n), tail);
    assert |Digits(m)| == |Digits(n)|;
    DigitsNumber(m);
    DigitsNumber(n);
  }

  lemma Middle(head: Bytes, mid: Bytes, tail: Bytes)
    ensures var s := head + mid + tail; |s| == |head| + |mid| + |tail| && s[|head|..|head| + |mid|] == mid
  {
  }

  /** forward: every line is passed on, until accept of them were and one more
      fails. Either way nothing is left in the stream. */
  method Forward(r: LineReader, limit: nat, accept: nat) returns (texts: seq<Bytes>, stopped: bool)
    modifies r
    ensures var all := Forwarded(old(r.rest), old(r.fills), limit);
            texts == Texts(all[..Min(accept, |all|)], limit) && (stopped <==> |all| > accept)
    ensures r.rest == []
  {
    hide Content, FillsAfter, Extent, Line, SentAll, SentOne, Contents, Cutoff, Rest, IsEnded,
        Forwarded, CutNote, Texts;
    texts := [];
    ghost var sent := [];
    TextsGrow([], Sent([], 0), limit);
    ghost var all := Forwarded(r.rest, r.fills, limit);
    while true
      invariant |sent| <= accept && all == sent + Forwarded(r.rest, r.fills, limit)
      invariant texts == Texts(sent, limit) && |texts| == |sent|
      decreases |r.rest|
    {
      ghost var rest, fills := r.rest, r.fills;
      var line, dropped, cut;
      line, dropped, cut := ReadLimitedLine(r, limit);
      LineLeaves(rest);
      assert r.rest == Rest(rest);
      ForwardedNext(rest, fills, limit);
      if line != [] || dropped > 0 {
        var text := line;
        if dropped > 0 {
          text := text + CutNote(dropped, limit);
        }
        if |texts| == accept {
          PrefixOf(sent, Forwarded(rest, fills, limit));
          r.rest := [];
          return texts, true;
        }
        SnocCons(sent, Sent(line, dropped), Forwarded(r.rest, r.fills, limit));
        TextsGrow(sent, Sent(line, dropped), limit);
        texts := texts + [text];
        sent := sent + [Sent(line, dropped)];
      }
      if cut != AtLine {
        PrefixOf(sent, []);
        return texts, false;
      }
    }
  }

  lemma TextsGrow(all: seq<Sent>, sent: Sent, limit: nat)
    ensures Texts(all + [sent], limit) == Texts(all, limit) + [Text(sent, limit)] && |Texts(all, limit)| == |all|
    ensures Texts([], limit) == []
  {
  }

  lemma SnocCons<T>(a: seq<T>, x: T, b: seq<T>)
    ensures a + ([x] + b) == a + [x] + b
  {
  }

  lemma PrefixOf<T>(a: seq<T>, b: seq<T>)
    ensures (a + b)[..|a|] == a && a + [] == a
  {
  }

  ghost function Forwarded(s: Bytes, fills: seq<nat>, limit: nat): seq<Sent> {
    SentAll(Contents(s, fills), limit)
  }

  /** What is still to be passed on begins with the next line, if it says
      anything. */
  lemma ForwardedNext(s: Bytes, fills: seq<nat>, limit: nat)
    ensures var c, later := Content(Line(s), fills), Forwarded(Rest(s), FillsAfter(fills, Extent(Line(s))), limit);
            var line := Cutoff(c, limit);
            && Forwarded(s, fills, limit) ==
               (if line == [] && |c| == |line| then later else [Sent(line, |c| - |line|)] + later)
            && (Rest(s) == [] ==> later == [])
  {
    hide Content, FillsAfter, Extent, Line, SentAll, SentOne, Contents, Cutoff, Rest;
    FirstSent(s, fills, limit);
    CutoffOne(Content(Line(s), fills), limit);
    var later := Forwarded(Rest(s), FillsAfter(fills, Extent(Line(s))), limit);
    assert [] + later == later;
  }

  lemma ContentsStep(s: Bytes, fills: seq<nat>)
    requires s != []
    ensures Contents(s, fills) == [Content(Line(s), fills)] + Contents(Rest(s), FillsAfter(fills, Extent(Line(s))))
    ensures Contents([], fills) == []
  {
    hide Content, Line, Rest, FillsAfter, Extent;
  }

  function SentOne(c: Bytes, limit: nat): seq<Sent> {
    if c == [] then [] else [Sent(Cutoff(c, limit), |c| - |Cutoff(c, limit)|)]
  }

  lemma SentStep(c: Bytes, later: seq<Bytes>, limit: nat)
    ensures SentAll([c] + later, limit) == SentOne(c, limit) + SentAll(later, limit)
    ensures SentAll([], limit) == []
  {
    assert ([c] + later)[1..] == later;
  }

  lemma LineLeaves(s: Bytes)
    ensures !IsEnded(Line(s)) ==> Rest(s) == []
    ensures Rest(s) == s[|Line(s)|..]
    ensures IsEnded(Line(s)) ==> |Line(s)| > 0
  {
  }

  lemma CutoffOne(c: Bytes, limit: nat)
    ensures var line := Cutoff(c, limit);
            SentOne(c, limit) == if line == [] && |c| == |line| then [] else [Sent(line, |c| - |line|)]
  {
  }

  lemma FirstSent(s: Bytes, fills: seq<nat>, limit: nat)
    ensures SentAll(Contents(s, fills), limit) ==
            SentOne(Content(Line(s), fills), limit) +
            SentAll(Contents(Rest(s), FillsAfter(fills, Extent(Line(s)))), limit)
    ensures Rest(s) == [] ==> SentAll(Contents(Rest(s), FillsAfter(fills, Extent(Line(s)))), limit) == []
  {
    var after := FillsAfter(fills, Extent(Line(s)));
    if s == [] {
      assert SentOne(Content([], fills), limit) == [] && Contents([], fills) == [] && Contents([], after) == [];
    } else {
      hide Content, Line, Rest, FillsAfter, Extent, SentAll, SentOne;
      ContentsStep(s, fills);
      assert Contents([], after) == [];
      hide Contents;
      SentStep(Content(Line(s), fills), Contents(Rest(s), after), limit);
    }
  }

  /** A line without its line feed. */
  function Plain(line: Bytes): Bytes {
    if IsEnded(line) then line[..|line| - 1] else line
  }

  /** The lines as plain splitting gives them: ended by line feeds only. */
  function PlainLines(s: Bytes): seq<Bytes>
    decreases |s|
  {
    if s == [] then []
    else [Plain(Line(s))] + PlainLines(Rest(s))
  }

  lemma PlainStep(s: Bytes)
    requires s != []
    ensures PlainLines(s) == [Plain(Line(s))] + PlainLines(Rest(s))
  {
    hide Line, Rest, IsEnded, Plain;
  }

  lemma EndedStep(s: Bytes)
    requires s != []
    ensures IsEnded(Line(s)) ==> Ended(s) == [Plain(Line(s))] + Ended(Rest(s)) && Tail(s) == Tail(Rest(s))
    ensures !IsEnded(Line(s)) ==> Ended(s) == [] && Tail(s) == s && Line(s) == s && Rest(s) == []
  {
    var n := LineEnd(s);
    if s[n - 1] == LF {
      FirstLine(s, []);
      assert s + [] == s && s[n..] + [] == s[n..];
      hide LineEnd, Ended, Tail;
      assert s[..n][..n - 1] == s[..n - 1];
    } else {
      NoLine(s);
    }
  }

  /** They are the ended lines and what follows the last line feed. */
  lemma {:induction false} PlainLinesAre(s: Bytes)
    ensures PlainLines(s) == Ended(s) + (if Tail(s) == [] then [] else [Tail(s)])
    decreases |s|
  {
    hide Line, Rest, IsEnded, Plain, PlainLines, Ended, Tail;
    PlainNone();
    if s != [] {
      PlainStep(s);
      EndedStep(s);
      PlainUnended(Line(s));
      PlainLinesAre(Rest(s));
      if IsEnded(Line(s)) {
        var rest, tail := Ended(Rest(s)), if Tail(s) == [] then [] else [Tail(s)];
        assert [Plain(Line(s))] + (rest + tail) == [Plain(Line(s))] + rest + tail;
      }
    }
  }

  lemma PlainNone()
    ensures PlainLines([]) == [] && Ended([]) == [] && Tail([]) == []
  {
  }

  lemma PlainUnended(line: Bytes)
    ensures !IsEnded(line) ==> Plain(line) == line
  {
  }

  /** No line ends in a carriage return and a line feed. */
  predicate NoCrLf(s: Bytes) {
    forall k :: 0 < k < |s| && s[k] == LF ==> s[k - 1] != CR
  }

  lemma NoCrLfRest(s: Bytes)
    requires NoCrLf(s)
    ensures NoCrLf(Rest(s)) && NoCrLf(Line(s))
  {
    hide Line, Rest;
    var r := Rest(s);
    assert forall k :: 0 <= k < |r| ==> r[k] == s[|Line(s)| + k];
  }

  lemma NoCrKept(line: Bytes, fills: seq<nat>)
    requires NoCrLf(line)
    ensures Content(line, fills) == Plain(line)
  {
  }

  /** Without carriage returns before line feeds the reader's buffer makes no
      difference: the lines are the plain ones. */
  lemma {:induction false} PlainRead(s: Bytes, fills: seq<nat>)
    requires NoCrLf(s)
    ensures Contents(s, fills) == PlainLines(s)
    decreases |s|
  {
    hide Content, Line, Rest, FillsAfter, Extent, NoCrLf;
    if s != [] {
      NoCrLfRest(s);
      NoCrKept(Line(s), fills);
      PlainRead(Rest(s), FillsAfter(fills, Extent(Line(s))));
    }
  }

  /** The buffer that takes no more than a byte. */
  function Ones(n: nat): seq<nat> {
    seq(n, _ => 1)
  }

  lemma {:induction false} OnesStart(n: nat, k: nat)
    requires 0 < k <= n + 1
    ensures LastStart(Ones(n), k) == k - 1 && FillsAfter(Ones(n), k) == Ones(n + 1 - k)
    decreases k
  {
    if k == 1 || n == 0 {
    } else {
      assert Ones(n)[1..] == Ones(n - 1);
      OnesStart(n - 1, k - 1);
    }
  }

  lemma OnesLine(line: Bytes, n: nat)
    requires n >= |line|
    ensures Content(line, Ones(n)) == Plain(line)
  {
    if IsEnded(line) {
      OnesStart(n, |line|);
    }
  }

  lemma {:induction false} OnesRead(s: Bytes, n: nat)
    requires n >= |s|
    ensures Contents(s, Ones(n)) == PlainLines(s)
    decreases |s|
  {
    hide LastStart, FillsAfter, Ones, Line, Content, Rest, IsEnded;
    if s != [] {
      var line := Line(s);
      assert Extent(line) <= |line| + 1;
      OnesStart(n, Extent(line));
      OnesLine(line, n);
      hide Extent;
      OnesRead(Rest(s), n + 1 - Extent(line));
    }
  }

  lemma WholeLine(line: Bytes)
    requires Content(line, []) == Plain(line) && IsEnded(line) && |line| >= 2
    ensures line[|line| - 2] != CR
  {
  }

  lemma NoCrLfJoin(line: Bytes, rest: Bytes)
    requires LF !in Plain(line) && (IsEnded(line) || rest == []) && NoCrLf(rest)
    requires IsEnded(line) && |line| >= 2 ==> line[|line| - 2] != CR
    ensures NoCrLf(line + rest)
  {
    var s := line + rest;
    forall k | 0 < k < |s| && s[k] == LF
      ensures s[k - 1] != CR
    {
      if k < |line| {
        assert k == |line| - 1;
      } else if k > |line| {
        assert rest[k - |line|] == LF;
      }
    }
  }

  lemma PlainLine(s: Bytes)
    ensures LF !in Plain(Line(s))
  {
    if s != [] {
      var n := LineEnd(s);
      assert s[..n] == s[..n - 1] + [s[n - 1]];
    }
  }

  /** A buffer as large as a line takes the carriage return away. */
  lemma {:induction false} WholeRead(s: Bytes)
    requires Contents(s, []) == PlainLines(s)
    ensures NoCrLf(s)
    decreases |s|
  {
    if s != [] {
      var line, rest := Line(s), Rest(s);
      assert FillsAfter([], Extent(line)) == [];
      LineLeaves(s);
      hide Line, Rest, Contents, PlainLines, Content, Plain, FillsAfter, NoCrLf;
      ContentsStep(s, []);
      PlainStep(s);
      var c, p := Contents(rest, []), PlainLines(rest);
      assert ([Content(line, [])] + c)[1..] == c && ([Plain(line)] + p)[1..] == p;
      assert ([Content(line, [])] + c)[0] == ([Plain(line)] + p)[0];
      WholeRead(rest);
      if IsEnded(line) && |line| >= 2 {
        WholeLine(line);
      }
      PlainLine(s);
      NoCrLfJoin(line, rest);
    }
  }

  ghost predicate ReadAlike(s: Bytes, fills: seq<nat>, others: seq<nat>) {
    Contents(s, fills) == Contents(s, others)
  }

  /** The lines read are the same however the buffer cuts the stream if, and
      only if, no carriage return stands before a line feed; then they are the
      plain ones. */
  lemma CutsAgree(s: Bytes)
    ensures (forall fills, others :: ReadAlike(s, fills, others)) <==> NoCrLf(s)
    ensures NoCrLf(s) ==> forall fills :: Contents(s, fills) == PlainLines(s)
  {
    hide NoCrLf, Contents, PlainLines;
    if NoCrLf(s) {
      forall fills
        ensures Contents(s, fills) == PlainLines(s)
      {
        PlainRead(s, fills);
      }
    } else {
      OnesRead(s, |s|);
      assert !ReadAlike(s, Ones(|s|), []) by {
        if Contents(s, []) == PlainLines(s) {
          WholeRead(s);
        }
      }
    }
  }

  /** A line without line feeds that does not end in a carriage return. */
  predicate IsPlain(line: Bytes) {
    LF !in line && (line != [] ==> line[|line| - 1] != CR)
  }

  lemma {:induction false} NoCrLfUnlines(lines: seq<Bytes>)
    requires forall k :: 0 <= k < |lines| ==> IsPlain(lines[k])
    ensures NoCrLf(Unlines(lines))
  {
    if lines != [] {
      NoCrLfUnlines(lines[1..]);
      var line, rest := lines[0] + [LF], Unlines(lines[1..]);
      assert Plain(line) == lines[0];
      NoCrLfJoin(line, rest);
    }
  }

  /** Lines that are written are the lines that are read, whatever the buffer. */
  lemma LinesRead(lines: seq<Bytes>, fills: seq<nat>)
    requires forall k :: 0 <= k < |lines| ==> IsPlain(lines[k])
    ensures Contents(Unlines(lines), fills) == lines
  {
    var s := Unlines(lines);
    NoCrLfUnlines(lines);
    EndedUnlines(lines);
    hide Unlines, NoCrLf, Contents, PlainLines, Ended, Tail, IsPlain;
    PlainRead(s, fills);
    PlainLinesAre(s);
    assert lines + [] == lines;
  }

  /** What the caller is told of lines: those that are not empty, the longer ones
      cut at the limit with a note of how much is missing. */
  function Told(lines: seq<Bytes>, limit: nat): seq<Bytes> {
    if lines == [] then []
    else
      var l := lines[0];
      (if l == [] then []
       else if |l| <= limit then [l]
       else [l[..limit] + CutNote(|l| - limit, limit)]) + Told(lines[1..], limit)
  }

  lemma {:induction false} TextsOfSent(lines: seq<Bytes>, limit: nat)
    ensures Texts(SentAll(lines, limit), limit) == Told(lines, limit)
  {
    hide CutNote;
    if lines != [] {
      TextsOfSent(lines[1..], limit);
      var later := SentAll(lines[1..], limit);
      var l := lines[0];
      if l == [] {
        assert [] + later == later;
      } else {
        TextsCons(Sent(Cutoff(l, limit), |l| - |Cutoff(l, limit)|), later, limit);
        TextOf(l, limit);
        hide Cutoff, Text, Texts;
      }
    }
  }

  lemma TextOf(l: Bytes, limit: nat)
    ensures Text(Sent(Cutoff(l, limit), |l| - |Cutoff(l, limit)|), limit) ==
            if |l| <= limit then l else l[..limit] + CutNote(|l| - limit, limit)
  {
    hide CutNote;
  }

  lemma TextsCons(sent: Sent, later: seq<Sent>, limit: nat)
    ensures Texts([sent] + later, limit) == [Text(sent, limit)] + Texts(later, limit)
  {
    hide Text;
  }

  /** Lines a child writes are what the caller is told, in order. */
  lemma LinesTold(lines: seq<Bytes>, fills: seq<nat>, limit: nat)
    requires forall k :: 0 <= k < |lines| ==> IsPlain(lines[k])
    ensures Texts(Forwarded(Unlines(lines), fills, limit), limit) == Told(lines, limit)
  {
    LinesRead(lines, fills);
    TextsOfSent(lines, limit);
    hide Contents, Unlines, SentAll, Texts, Told, IsPlain;
  }

  /** A buffer of b bytes, filled the same way every time. */
  function Uniform(n: nat, b: nat): seq<nat> {
    seq(n, _ => b)
  }

  lemma UniformStep(n: nat, b: nat, k: nat)
    requires 0 < b < k && n > 0
    ensures LastStart(Uniform(n, b), k) == b + LastStart(Uniform(n - 1, b), k - b)
  {
    assert Uniform(n, b)[1..] == Uniform(n - 1, b);
  }

  /** The largest multiple of b that is at most m. */
  function Floor(m: nat, b: nat): nat
    requires b > 0
  {
    m - m % b
  }

  lemma FloorStep(m: nat, b: nat)
    requires b > 0
    ensures Floor(m + b, b) == Floor(m, b) + b
  {
    var d := (m + b) / b - m / b - 1;
    assert b * d == m % b - (m + b) % b;
    MulFar(b, d);
  }

  lemma MulFar(b: nat, d: int)
    ensures d >= 1 ==> b * d >= b
    ensures d <= -1 ==> b * d + b <= 0
  {
  }

  lemma FloorNone(m: nat, b: nat)
    requires m < b
    ensures Floor(m, b) == 0
  {
  }

  lemma {:induction false} UniformStart(n: nat, b: nat, k: nat)
    requires b > 0 && 0 < k <= n
    ensures LastStart(Uniform(n, b), k) == Floor(k - 1, b)
    decreases k
  {
    hide Floor;
    if k <= b {
      FloorNone(k - 1, b);
    } else {
      UniformStep(n, b, k);
      hide LastStart, Uniform;
      UniformStart(n - 1, b, k - b);
      FloorStep(k - b - 1, b);
    }
  }

  /** With a buffer of b bytes a carriage return before a line feed stays in the
      line exactly when it is the last byte that fills the buffer. */
  lemma CrStays(text: Bytes, b: nat, n: nat)
    requires b > 0 && n >= |text| + 2
    ensures Content(text + [CR, LF], Uniform(n, b)) == if (|text| + 1) % b == 0 then text + [CR] else text
  {
    hide Content, LastStart, Uniform;
    ContentCrLf(text, Uniform(n, b));
    UniformStart(n, b, |text| + 2);
  }

  lemma ContentCrLf(text: Bytes, fills: seq<nat>)
    ensures Content(text + [CR, LF], fills) == if LastStart(fills, |text| + 2) <= |text| then text else text + [CR]
  {
    hide LastStart;
    var line := text + [CR, LF];
    assert line[..|line| - 1] == text + [CR];
    assert (text + [CR])[..|text|] == text;
  }

  /** Bytes passed on and bytes dropped. */
  function Total(all: seq<Sent>): nat {
    if all == [] then 0 else |all[0].line| + all[0].dropped + Total(all[1..])
  }

  lemma TotalSent(contents: seq<Bytes>, limit: nat)
    requires contents != []
    ensures Total(SentAll(contents, limit)) == |contents[0]| + Total(SentAll(contents[1..], limit))
  {
    var later := SentAll(contents[1..], limit);
    var c := contents[0];
    if c == [] {
      assert SentAll(contents, limit) == later;
    } else {
      assert SentAll(contents, limit) == [Sent(Cutoff(c, limit), |c| - |Cutoff(c, limit)|)] + later;
    }
  }

  lemma LineFeeds(s: Bytes)
    ensures multiset(Line(s))[LF] == if IsEnded(Line(s)) then 1 else 0
  {
    if s != [] {
      var n := LineEnd(s);
      assert s[..n] == s[..n - 1] + [s[n - 1]];
      assert LF !in s[..n - 1];
    }
  }

  /** The carriage returns that stand right before a line feed. */
  function CrLfs(s: Bytes): nat {
    if |s| < 2 then 0 else (if s[0] == CR && s[1] == LF then 1 else 0) + CrLfs(s[1..])
  }

  lemma {:induction false} CrLfsJoin(a: Bytes, b: Bytes)
    requires a == [] || a[|a| - 1] != CR || b == []
    ensures CrLfs(a + b) == CrLfs(a) + CrLfs(b)
  {
    if b == [] {
      assert a + b == a;
    } else if a == [] {
      assert a + b == b;
    } else {
      assert (a + b)[1..] == a[1..] + b;
      CrLfsJoin(a[1..], b);
    }
  }

  lemma {:induction false} CrLfsNone(s: Bytes)
    ensures CrLfs(s) == 0 <==> NoCrLf(s)
  {
    if |s| >= 2 {
      var t := s[1..];
      CrLfsNone(t);
      assert forall k :: 0 <= k < |t| ==> t[k] == s[k + 1];
      if NoCrLf(t) && !(s[0] == CR && s[1] == LF) {
        forall k | 0 < k < |s| && s[k] == LF
          ensures s[k - 1] != CR
        {
          if k > 1 {
            assert t[k - 1] == LF && s[k - 1] == t[k - 2];
          }
        }
      }
    }
  }

  /** A line has one at most, and the reader takes no other carriage return
      away; a buffer that holds the line takes that one. */
  lemma ContentLength(line: Bytes, fills: seq<nat>)
    requires LF !in Plain(line)
    ensures |Content(line, fills)| <= |Plain(line)| <= |Content(line, fills)| + CrLfs(line)
    ensures fills == [] ==> |Plain(line)| == |Content(line, fills)| + CrLfs(line)
  {
    hide LastStart;
    var body := Plain(line);
    assert NoCrLf(body);
    CrLfsNone(body);
    if IsEnded(line) {
      assert line == body + [LF];
      if body != [] && body[|body| - 1] == CR {
        var text := body[..|body| - 1];
        assert line == text + [CR, LF];
        assert NoCrLf(text);
        CrLfsNone(text);
        CrLfsLast(text);
        ContentCrLf(text, fills);
        LastNone(|line|);
      } else {
        CrLfsJoin(body, [LF]);
      }
    }
  }

  lemma LastNone(n: nat)
    requires n > 0
    ensures LastStart([], n) == 0
  {
  }

  lemma {:induction false} CrLfsLast(text: Bytes)
    ensures CrLfs(text + [CR, LF]) == CrLfs(text) + 1
  {
    if text == [] {
      assert text + [CR, LF] == [CR, LF] && [CR, LF][1..] == [LF];
    } else {
      assert (text + [CR, LF])[1..] == text[1..] + [CR, LF];
      CrLfsLast(text[1..]);
    }
  }

  lemma LineParts(s: Bytes)
    ensures CrLfs(s) == CrLfs(Line(s)) + CrLfs(Rest(s))
    ensures |Line(s)| == |Plain(Line(s))| + multiset(Line(s))[LF]
    ensures multiset(s)[LF] == multiset(Line(s))[LF] + multiset(Rest(s))[LF]
    ensures LF !in Plain(Line(s))
  {
    LineLeaves(s);
    LineFeeds(s);
    PlainLine(s);
    assert |Line(s)| == |Plain(Line(s))| + multiset(Line(s))[LF];
    CrLfsJoin(Line(s), Rest(s));
    hide Line, Rest;
    assert multiset(s) == multiset(Line(s) + Rest(s));
  }

  /** Every byte of a stream is passed on, counted as dropped, or a line feed,
      or a carriage return before one, whatever the limit and the buffer; a
      buffer that holds every line takes all of those away. */
  lemma {:induction false} Accounted(s: Bytes, fills: seq<nat>, limit: nat)
    ensures var feeds, all := multiset(s)[LF], Total(SentAll(Contents(s, fills), limit));
            && all + feeds <= |s| <= all + feeds + CrLfs(s)
            && (fills == [] ==> |s| == all + feeds + CrLfs(s))
    decreases |s|
  {
    if s != [] {
      var line, rest, after := Line(s), Rest(s), FillsAfter(fills, Extent(Line(s)));
      var contents := [Content(line, fills)] + Contents(rest, after);
      assert contents[1..] == Contents(rest, after);
      LineParts(s);
      hide Content, Line, Rest, FillsAfter, Extent, SentAll, Total, CrLfs, Plain;
      ContentLength(line, fills);
      TotalSent(contents, limit);
      Accounted(rest, after, limit);
      NoFillsAfter(Extent(line));
    }
  }

  lemma NoFillsAfter(n: nat)
    requires n > 0
    ensures FillsAfter([], n) == []
  {
  }

  // --- relaying frames ---------------------------------------------------------------------

  /** A line that is a frame: scrubbed, and whether it is whole. */
  datatype Frame = Frame(data: Bytes, whole: bool)

  /** The lines relayed: those that are not blank. */
  function Frames(contents: seq<Bytes>, limit: nat, redact: Bytes -> Bytes): seq<Frame> {
    if contents == [] then []
    else
      var line := Cutoff(contents[0], limit);
      (if DropSpace(line) == [] then [] else [Frame(redact(line), line == contents[0])])
      + Frames(contents[1..], limit, redact)
  }

  predicate Ends(f: Frame, isDone: Bytes -> bool) {
    f.whole && isDone(f.data)
  }

  /** The frames up to the first done, with it. */
  function UpToDone(frames: seq<Frame>, isDone: Bytes -> bool): (r: seq<Frame>)
    ensures r <= frames
    ensures forall k :: 0 <= k < |r| - 1 ==> !Ends(r[k], isDone)
    ensures r != frames ==> r != [] && Ends(r[|r| - 1], isDone)
  {
    if frames == [] then []
    else if Ends(frames[0], isDone) then [frames[0]]
    else [frames[0]] + UpToDone(frames[1..], isDone)
  }

  predicate DoneWent(frames: seq<Frame>, isDone: Bytes -> bool) {
    frames != [] && Ends(frames[|frames| - 1], isDone)
  }

  /** What was relayed holds no whole done but for its last frame, and a done
      went exactly when that is one. */
  lemma RelayStops(frames: seq<Frame>, isDone: Bytes -> bool, n: nat)
    requires n <= |UpToDone(frames, isDone)|
    ensures var wrote := UpToDone(frames, isDone)[..n];
            && (forall k :: 0 <= k < n - 1 ==> !(wrote[k].whole && isDone(wrote[k].data)))
            && (DoneWent(wrote, isDone) <==> n > 0 && wrote[n - 1].whole && isDone(wrote[n - 1].data))
  {
    forall k | 0 <= k < n - 1
      ensures !Ends(UpToDone(frames, isDone)[k], isDone)
    {
    }
  }

  /** relayFrames: the frames go to the run in order, through the first done and
      no further; true when that done was written. */
  method RelayFrames(r: LineReader, limit: nat, accept: nat, redact: Bytes -> Bytes, isDone: Bytes -> bool)
    returns (wrote: seq<Frame>, done: bool)
    modifies r
    ensures var all := Relayed(old(r.rest), old(r.fills), limit, redact, isDone);
            wrote == all[..Min(accept, |all|)] && (done <==> DoneWent(wrote, isDone))
  {
    hide Content, FillsAfter, Extent, Line, Frames, Contents, Cutoff, Rest, DropSpace, UpToDone, Ends, IsEnded, Relayed;
    wrote, done := [], false;
    ghost var all := Relayed(r.rest, r.fills, limit, redact, isDone);
    while true
      invariant |wrote| <= accept && all == wrote + Relayed(r.rest, r.fills, limit, redact, isDone)
      invariant !DoneWent(wrote, isDone) && !done
      decreases |r.rest|
    {
      ghost var rest, fills := r.rest, r.fills;
      var line, dropped, cut;
      line, dropped, cut := ReadLimitedLine(r, limit);
      var f := Frame(redact(line), dropped == 0);
      RelayedNext(rest, fills, limit, redact, isDone);
      LineLeaves(rest);
      if DropSpace(line) != [] {
        if |wrote| == accept {
          PrefixOf(wrote, Relayed(rest, fills, limit, redact, isDone));
          return;
        }
        SnocCons(wrote, f, Relayed(r.rest, r.fills, limit, redact, isDone));
        wrote := wrote + [f];
        if f.whole && isDone(f.data) {
          assert Ends(f, isDone) by { EndsAre(f, isDone); }
          done := true;
          return;
        }
        assert !Ends(f, isDone) by { EndsAre(f, isDone); }
      }
      if cut != AtLine {
        PrefixOf(wrote, []);
        return;
      }
    }
  }

  ghost function Relayed(s: Bytes, fills: seq<nat>, limit: nat, redact: Bytes -> Bytes,
      isDone: Bytes -> bool): seq<Frame> {
    UpToDone(Frames(Contents(s, fills), limit, redact), isDone)
  }

  lemma EndsAre(f: Frame, isDone: Bytes -> bool)
    ensures Ends(f, isDone) <==> f.whole && isDone(f.data)
  {
  }

  /** The frames still to come begin with the next line's, if it has one. */
  lemma RelayedNext(s: Bytes, fills: seq<nat>, limit: nat, redact: Bytes -> Bytes, isDone: Bytes -> bool)
    ensures var c := Content(Line(s), fills);
            var later := Relayed(Rest(s), FillsAfter(fills, Extent(Line(s))), limit, redact, isDone);
            var line := Cutoff(c, limit);
            var f := Frame(redact(line), |line| == |c|);
            && Relayed(s, fills, limit, redact, isDone) ==
               (if DropSpace(line) == [] then later else if Ends(f, isDone) then [f] else [f] + later)
            && (Rest(s) == [] ==> later == [])
  {
    hide Content, FillsAfter, Extent, Line, Frames, Contents, Cutoff, Rest, DropSpace, UpToDone, Ends;
    FirstFrame(s, fills, limit, redact);
    var c := Content(Line(s), fills);
    var frames := Frames(Contents(Rest(s), FillsAfter(fills, Extent(Line(s)))), limit, redact);
    assert [] + frames == frames;
    UpToNext(Frame(redact(Cutoff(c, limit)), |Cutoff(c, limit)| == |c|), frames, isDone);
  }

  lemma UpToNext(f: Frame, later: seq<Frame>, isDone: Bytes -> bool)
    ensures UpToDone([f] + later, isDone) == if Ends(f, isDone) then [f] else [f] + UpToDone(later, isDone)
    ensures UpToDone([], isDone) == []
  {
    assert ([f] + later)[1..] == later;
  }

  lemma FirstFrame(s: Bytes, fills: seq<nat>, limit: nat, redact: Bytes -> Bytes)
    ensures var c := Content(Line(s), fills);
            var later := Frames(Contents(Rest(s), FillsAfter(fills, Extent(Line(s)))), limit, redact);
            Frames(Contents(s, fills), limit, redact) ==
            (if DropSpace(Cutoff(c, limit)) == [] then []
             else [Frame(redact(Cutoff(c, limit)), |Cutoff(c, limit)| == |c|)]) + later
    ensures !IsEnded(Line(s)) ==> Rest(s) == []
    ensures Rest(s) == [] ==> Frames(Contents(Rest(s), FillsAfter(fills, Extent(Line(s)))), limit, redact) == []
    ensures Rest(s) == s[|Line(s)|..]
  {
    if s != [] {
      var later := Contents(Rest(s), FillsAfter(fills, Extent(Line(s))));
      assert ([Content(Line(s), fills)] + later)[1..] == later;
    }
  }

  /** Something can be seen in the line. */
  predicate CanBeSeen(line: Bytes) {
    exists k :: 0 <= k < |line| && IsVisible(line[k])
  }

  /** The frames an executor writes, a line each and within the limit, are relayed
      as they are, each whole, up to its done. */
  lemma LinesRelayed(lines: seq<Bytes>, fills: seq<nat>, limit: nat, redact: Bytes -> Bytes, isDone: Bytes -> bool)
    requires forall k :: 0 <= k < |lines| ==> IsPlain(lines[k]) && CanBeSeen(lines[k]) && |lines[k]| <= limit
    ensures var frames := seq(|lines|, k requires 0 <= k < |lines| => Frame(redact(lines[k]), true));
            Relayed(Unlines(lines), fills, limit, redact, isDone) == UpToDone(frames, isDone)
  {
    LinesRead(lines, fills);
    FramesWhole(lines, limit, redact);
    hide Contents, Unlines, Frames, UpToDone, IsPlain, CanBeSeen;
  }

  lemma {:induction false} FramesWhole(lines: seq<Bytes>, limit: nat, redact: Bytes -> Bytes)
    requires forall k :: 0 <= k < |lines| ==> CanBeSeen(lines[k]) && |lines[k]| <= limit
    ensures Frames(lines, limit, redact) == seq(|lines|, k requires 0 <= k < |lines| => Frame(redact(lines[k]), true))
  {
    hide DropSpace, CanBeSeen;
    if lines != [] {
      FramesWhole(lines[1..], limit, redact);
      FrameWhole(lines[0], limit);
      hide Cutoff;
    }
  }

  lemma FrameWhole(line: Bytes, limit: nat)
    requires CanBeSeen(line) && |line| <= limit
    ensures Cutoff(line, limit) == line && DropSpace(line) != []
  {
    hide DropSpace;
    var k :| 0 <= k < |line| && IsVisible(line[k]);
    VisibleStays(line, k);
  }
}
