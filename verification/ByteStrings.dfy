// Byte strings as the runner handles them: frames, lines and output chunks.
module ByteStrings {
  newtype byte = x: int | 0 <= x < 256

  type Bytes = seq<byte>

  const TAB: byte := 9
  const LF: byte := 10
  const CR: byte := 13
  const SPACE: byte := 32
  const QUOTE: byte := 34
  const COMMA: byte := 44
  const ZERO: byte := 48
  const COLON: byte := 58
  const BACKSLASH: byte := 92
  const LBRACKET: byte := 91
  const RBRACKET: byte := 93
  const LBRACE: byte := 123
  const RBRACE: byte := 125

  /** The bytes of several byte strings written one after the other. */
  function Concat(lines: seq<Bytes>): Bytes {
    if lines == [] then [] else lines[0] + Concat(lines[1..])
  }

  lemma {:induction false} ConcatAppend(a: seq<Bytes>, b: seq<Bytes>)
    ensures Concat(a + b) == Concat(a) + Concat(b)
  {
    if a == [] {
      assert a + b == b;
    } else {
      calc {
        Concat(a + b);
        { assert (a + b)[0] == a[0] && (a + b)[1..] == a[1..] + b; }
        a[0] + Concat(a[1..] + b);
        { ConcatAppend(a[1..], b); }
        a[0] + (Concat(a[1..]) + Concat(b));
        (a[0] + Concat(a[1..])) + Concat(b);
        Concat(a) + Concat(b);
      }
    }
  }

  lemma ConcatOne(line: Bytes)
    ensures Concat([line]) == line
  {
    assert [line][1..] == [];
  }

  /** Writing one more line adds exactly its bytes at the end. */
  lemma ConcatSnoc(lines: seq<Bytes>, line: Bytes)
    ensures Concat(lines + [line]) == Concat(lines) + line
  {
    hide Concat;
    ConcatAppend(lines, [line]);
    ConcatOne(line);
  }

  lemma ConcatSplit(lines: seq<Bytes>, k: nat)
    requires k <= |lines|
    ensures Concat(lines) == Concat(lines[..k]) + Concat(lines[k..])
  {
    hide Concat;
    assert lines == lines[..k] + lines[k..];
    ConcatAppend(lines[..k], lines[k..]);
  }

  /** The bytes of lines i..j are found at the offset where line i begins. */
  lemma ConcatSlice(lines: seq<Bytes>, i: nat, j: nat)
    requires i <= j <= |lines|
    ensures |Concat(lines[..i])| + |Concat(lines[i..j])| == |Concat(lines[..j])| <= |Concat(lines)|
    ensures Concat(lines)[|Concat(lines[..i])|..|Concat(lines[..j])|] == Concat(lines[i..j])
  {
    hide Concat;
    ConcatSplit(lines, j);
    ConcatSplit(lines[..j], i);
    assert lines[..j][..i] == lines[..i];
    assert lines[..j][i..] == lines[i..j];
  }

  /** s without the bytes of cut at its end, as bytes.TrimRight. */
  function TrimRight(s: Bytes, cut: set<byte>): (r: Bytes)
    ensures |r| <= |s| && r == s[..|r|]
    ensures forall k :: |r| <= k < |s| ==> s[k] in cut
    ensures r != [] ==> r[|r| - 1] !in cut
  {
    if s != [] && s[|s| - 1] in cut then TrimRight(s[..|s| - 1], cut) else s
  }

  /** What is cut off is what of cut there is at the end. */
  lemma {:induction false} TrimRightTo(x: Bytes, e: Bytes, cut: set<byte>)
    requires x == [] || x[|x| - 1] !in cut
    requires forall k :: 0 <= k < |e| ==> e[k] in cut
    ensures TrimRight(x + e, cut) == x
    decreases |e|
  {
    if e == [] {
      assert x + e == x;
    } else {
      var shorter := e[..|e| - 1];
      assert (x + e)[..|x + e| - 1] == x + shorter;
      TrimRightTo(x, shorter, cut);
    }
  }
}
