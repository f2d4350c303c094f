// A stream of bytes and its lines.
module TextLines {
  import opened ByteStrings

  /** The length of the line s begins with, its terminator included. */
  function LineEnd(s: Bytes): (n: nat)
    requires s != []
    ensures 0 < n <= |s|
    ensures forall k :: 0 <= k < n - 1 ==> s[k] != LF
    ensures n < |s| ==> s[n - 1] == LF
  {
    if s[0] == LF || |s| == 1 then 1 else 1 + LineEnd(s[1..])
  }

  /** The lines of a stream, each with its terminator; what follows the last
      line feed is a line too. */
  function Lines(s: Bytes): seq<Bytes> {
    if s == [] then []
    else var n := LineEnd(s); [s[..n]] + Lines(s[n..])
  }

  predicate IsEnded(line: Bytes) {
    line != [] && line[|line| - 1] == LF
  }

  /** The lines that are ended, without their line feeds. */
  function Ended(s: Bytes): seq<Bytes> {
    if s == [] || s[LineEnd(s) - 1] != LF then []
    else var n := LineEnd(s); [s[..n - 1]] + Ended(s[n..])
  }

  /** What follows the last line feed. */
  function Tail(s: Bytes): (t: Bytes)
    ensures |t| <= |s| && LF !in t
  {
    if s == [] then []
    else if s[LineEnd(s) - 1] != LF then
      assert LineEnd(s) == |s|;
      s
    else Tail(s[LineEnd(s)..])
  }

  lemma {:induction false} LinesCover(s: Bytes)
    ensures Concat(Lines(s)) == s
  {
    if s != [] {
      var n := LineEnd(s);
      LinesCover(s[n..]);
      var rest := Lines(s[n..]);
      assert Lines(s) == [s[..n]] + rest;
      hide Lines, LineEnd;
      assert ([s[..n]] + rest)[1..] == rest;
    }
  }

  lemma LineEndAt(s: Bytes, n: nat)
    requires 0 < n <= |s| && s[n - 1] == LF && LF !in s[..n - 1]
    ensures LineEnd(s) == n
  {
    assert forall k :: 0 <= k < n - 1 ==> s[..n - 1][k] == s[k];
  }

  lemma LineEndAfter(s: Bytes, n: nat)
    requires s != [] && n <= |s| && LF !in s[..n]
    ensures LineEnd(s) >= n
  {
    assert forall k :: 0 <= k < n ==> s[..n][k] == s[k];
  }

  lemma LineEndGrows(a: Bytes, b: Bytes)
    requires a != [] && a[LineEnd(a) - 1] == LF
    ensures LineEnd(a + b) == LineEnd(a)
  {
    var n := LineEnd(a);
    assert (a + b)[..n] == a[..n];
    LineEndAt(a + b, n);
  }

  lemma FirstLine(a: Bytes, b: Bytes)
    requires a != [] && a[LineEnd(a) - 1] == LF
    ensures var n := LineEnd(a); Ended(a + b) == [a[..n - 1]] + Ended(a[n..] + b) && Tail(a + b) == Tail(a[n..] + b)
  {
    var n := LineEnd(a);
    LineEndGrows(a, b);
    assert (a + b)[..n - 1] == a[..n - 1];
    assert (a + b)[n..] == a[n..] + b;
  }

  lemma NoLine(s: Bytes)
    requires s == [] || s[LineEnd(s) - 1] != LF
    ensures Ended(s) == [] && Tail(s) == s
  {
  }

  /** Reading on from what is left of a beginning finds the rest of the lines. */
  lemma {:induction false} ReadOn(a: Bytes, b: Bytes)
    ensures Ended(a + b) == Ended(a) + Ended(Tail(a) + b)
    ensures Tail(a + b) == Tail(Tail(a) + b)
  {
    hide Ended, Tail, LineEnd;
    if a == [] || a[LineEnd(a) - 1] != LF {
      NoLine(a);
    } else {
      var n := LineEnd(a);
      FirstLine(a, b);
      FirstLine(a, []);
      assert a + [] == a && a[n..] + [] == a[n..];
      ReadOn(a[n..], b);
    }
  }

  /** The ended lines and the tail are the lines. */
  lemma {:induction false} LinesSplit(s: Bytes)
    ensures |Lines(s)| == |Ended(s)| + (if Tail(s) == [] then 0 else 1)
    ensures forall k :: 0 <= k < |Ended(s)| ==> Lines(s)[k] == Ended(s)[k] + [LF]
    ensures Tail(s) != [] ==> Lines(s)[|Ended(s)|] == Tail(s)
  {
    if s != [] {
      var n := LineEnd(s);
      if s[n - 1] == LF {
        LinesSplit(s[n..]);
        assert s[..n] == s[..n - 1] + [LF];
        assert Lines(s)[1..] == Lines(s[n..]) && Ended(s)[1..] == Ended(s[n..]);
        forall k | 0 <= k < |Ended(s)|
          ensures Lines(s)[k] == Ended(s)[k] + [LF]
        {
          if k > 0 {
            assert Lines(s)[k] == Lines(s[n..])[k - 1] && Ended(s)[k] == Ended(s[n..])[k - 1];
          }
        }
      } else {
        assert n == |s| && s[..n] == s && Lines(s[n..]) == [];
      }
    }
  }

  /** Lines written one after the other, each with a line feed. */
  function Unlines(lines: seq<Bytes>): Bytes {
    if lines == [] then [] else lines[0] + [LF] + Unlines(lines[1..])
  }

  /** They are read back as the ended lines. */
  lemma {:induction false} EndedUnlines(lines: seq<Bytes>)
    requires forall k :: 0 <= k < |lines| ==> LF !in lines[k]
    ensures Ended(Unlines(lines)) == lines && Tail(Unlines(lines)) == []
  {
    hide Ended, Tail, LineEnd;
    if lines == [] {
      NoLine([]);
    } else {
      var a, rest := lines[0] + [LF], Unlines(lines[1..]);
      assert a[..|a| - 1] == lines[0];
      LineEndAt(a, |a|);
      FirstLine(a, rest);
      assert a[|a|..] + rest == rest;
      EndedUnlines(lines[1..]);
    }
  }
}
