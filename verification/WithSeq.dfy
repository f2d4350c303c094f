// How a frame gets its sequence number (desktop/runner/runs.go, withSeq), and
// what a reader of the run's NDJSON gets back.
module SeqField {
  import opened ByteStrings
  import opened TextLines
  import opened Options

  const SEQ_KEY: Bytes := [QUOTE, 115, 101, 113, QUOTE, COLON]  // "seq":

  const BLANKS: set<byte> := {SPACE, TAB}
  const JSON_SPACE: set<byte> := {SPACE, TAB, CR, LF}

  predicate IsDigit(b: byte) {
    ZERO <= b <= 57
  }

  /** n in decimal. */
  function Digits(n: nat): (d: Bytes)
    ensures d != [] && forall k :: 0 <= k < |d| ==> IsDigit(d[k])
  {
    (if n < 10 then [] else Digits(n / 10)) + [ZERO + (n % 10) as byte]
  }

  /** A number with one more digit at its end. */
  function Extended(high: Option<nat>, b: byte): Option<nat> {
    if high.Some? && IsDigit(b) then Some(10 * high.value + (b - ZERO) as int) else None
  }

  /** The number a run of digits writes; none for anything else. */
  function Number(d: Bytes): Option<nat> {
    if d == [] then Some(0) else Extended(Number(d[..|d| - 1]), d[|d| - 1])
  }

  lemma ExtendedDigit(high: nat, k: nat)
    requires k < 10
    ensures Extended(Some(high), ZERO + k as byte) == Some(10 * high + k)
  {
  }

  lemma NumberSnoc(d: Bytes, k: nat)
    requires k < 10 && Number(d).Some?
    ensures Number(d + [ZERO + k as byte]) == Some(10 * Number(d).value + k)
  {
    hide Extended;
    var e := d + [ZERO + k as byte];
    assert e[..|e| - 1] == d && e[|e| - 1] == ZERO + k as byte;
    ExtendedDigit(Number(d).value, k);
  }

  lemma {:induction false} DigitsNumber(n: nat)
    ensures Number(Digits(n)) == Some(n)
  {
    assert n == 10 * (n / 10) + n % 10;
    if n < 10 {
      NumberSnoc([], n);
    } else {
      hide Number;
      DigitsNumber(n / 10);
      NumberSnoc(Digits(n / 10), n % 10);
    }
  }

  /** Bytes of the white-space rune s begins with, as unicode.IsSpace reads
      UTF-8; 0 when it begins with none. */
  function SpaceWidth(s: Bytes): nat
    ensures SpaceWidth(s) <= |s|
  {
    if |s| >= 1 && (9 <= s[0] <= 13 || s[0] == SPACE) then 1
    else if |s| >= 2 && s[0] == 0xC2 && s[1] in {0x85, 0xA0} then 2
    else if |s| >= 3 && s[..3] in {[0xE1, 0x9A, 0x80], [0xE2, 0x81, 0x9F], [0xE3, 0x80, 0x80]} then 3
    else if |s| >= 3 && s[0] == 0xE2 && s[1] == 0x80 && (0x80 <= s[2] <= 0x8A || s[2] in {0xA8, 0xA9, 0xAF}) then 3
    else 0
  }

  /** s without the white space it begins with. */
  function DropSpace(s: Bytes): Bytes {
    if SpaceWidth(s) == 0 then s else DropSpace(s[SpaceWidth(s)..])
  }

  /** A character of ASCII that can be seen. */
  predicate IsVisible(b: byte) {
    33 <= b <= 126
  }

  /** What can be seen is not taken for space. */
  lemma {:induction false} VisibleStays(s: Bytes, k: nat)
    requires k < |s| && IsVisible(s[k])
    ensures DropSpace(s) != []
    decreases |s|
  {
    var n := SpaceWidth(s);
    if n > 0 {
      NoneInSpace(s);
      VisibleStays(s[n..], k - n);
    }
  }

  lemma NoneInSpace(s: Bytes)
    ensures forall k :: 0 <= k < SpaceWidth(s) ==> !IsVisible(s[k])
  {
  }

  function Field(seqNo: nat): Bytes {
    SEQ_KEY + Digits(seqNo)
  }

  /** What lies between the braces of an object's text, white space at its end
      left out. */
  function Body(t: Bytes): Bytes
    requires |t| >= 2
  {
    TrimRight(t[..|t| - 1], JSON_SPACE)
  }

  predicate IsBraced(t: Bytes) {
    |t| >= 2 && t[0] == LBRACE && t[|t| - 1] == RBRACE
  }

  /** A frame as it is buffered and sent: numbered, and one line. */
  function WithSeq(line: Bytes, seqNo: nat): Bytes {
    var t := TrimRight(line, BLANKS);
    if IsBraced(t) then
      BodyStarts(t);
      var body := Body(t);
      body + (if body[|body| - 1] != LBRACE then [COMMA] else []) + Field(seqNo) + [RBRACE, LF]
    else if t != [] && t[0] == LBRACE then
      var rest := DropSpace(t[1..]);
      [LBRACE] + Field(seqNo) + (if rest != [] && rest[0] != RBRACE then [COMMA] else []) + t[1..] + [LF]
    else
      t + [LF]
  }

  /** A frame that is no object is sent as it is, without the blanks at its end. */
  lemma OtherFramesStay(x: Bytes, blanks: Bytes, seqNo: nat)
    requires x != [] && x[0] != LBRACE && x[|x| - 1] != 32 && x[|x| - 1] != 9
    requires forall k :: 0 <= k < |blanks| ==> blanks[k] == 32 || blanks[k] == 9
    ensures WithSeq(x + blanks, seqNo) == x + [LF]
  {
    hide TrimRight, Digits;
    TrimRightTo(x, blanks, BLANKS);
  }

  /** The opening brace is never trimmed away. */
  lemma BodyStarts(t: Bytes)
    requires IsBraced(t)
    ensures Body(t) != [] && Body(t)[0] == LBRACE
  {
    assert t[..|t| - 1][0] !in JSON_SPACE;
  }

  lemma FieldBytes(seqNo: nat)
    ensures COMMA !in Field(seqNo) && LF !in Field(seqNo)
  {
    var d := Digits(seqNo);
    assert forall k :: 0 <= k < |d| ==> IsDigit(d[k]);
  }

  // --- one frame, one line ------------------------------------------------------

  ghost predicate OneLine(s: Bytes) {
    s != [] && s[|s| - 1] == LF && forall k :: 0 <= k < |s| - 1 ==> s[k] != LF
  }

  /** A frame without a line feed is sent as exactly one line. */
  lemma WithSeqOneLine(line: Bytes, seqNo: nat)
    requires LF !in line
    ensures OneLine(WithSeq(line, seqNo))
  {
    hide TrimRight, Digits, DropSpace, Field;
    FieldBytes(seqNo);
    var t := TrimRight(line, BLANKS);
    assert LF !in t;
    if IsBraced(t) {
      BodyStarts(t);
      assert LF !in Body(t);
    }
  }

  /** A batch is read back as the frames it was made of. */
  lemma {:induction false} BatchLines(frames: seq<Bytes>)
    requires forall k :: 0 <= k < |frames| ==> OneLine(frames[k])
    ensures Lines(Concat(frames)) == frames
  {
    if frames != [] {
      var s := Concat(frames);
      var n := LineEnd(s);
      assert s[..|frames[0]|] == frames[0];
      assert s[..|frames[0]| - 1] == frames[0][..|frames[0]| - 1];
      LineEndAt(s, |frames[0]|);
      assert s[n..] == Concat(frames[1..]);
      BatchLines(frames[1..]);
    }
  }

  // --- the number a decoder finds ------------------------------------------------

  /** Where a scan of JSON text stands: inside how many brackets, inside a
      string, behind a backslash (sections 2 and 7 of RFC 8259). A bracket
      closed before it was opened leaves the depth at -1 for good. */
  datatype Scan = Scan(depth: int, inString: bool, escaped: bool)

  const TOP := Scan(0, false, false)

  function Step(st: Scan, c: byte): Scan {
    if st.inString then
      if st.escaped then st.(escaped := false)
      else if c == BACKSLASH then st.(escaped := true)
      else if c == QUOTE then st.(inString := false)
      else st
    else if st.depth < 0 then st
    else if c == QUOTE then st.(inString := true)
    else if c == LBRACE || c == LBRACKET then st.(depth := st.depth + 1)
    else if c == RBRACE || c == RBRACKET then st.(depth := st.depth - 1)
    else st
  }

  function ScanAll(st: Scan, s: Bytes): Scan
    decreases |s|
  {
    if s == [] then st else ScanAll(Step(st, s[0]), s[1..])
  }

  /** s split at the commas that stand at the top level. */
  function Split(st: Scan, s: Bytes): (parts: seq<Bytes>)
    ensures parts != []
    decreases |s|
  {
    if s == [] then [[]]
    else if s[0] == COMMA && st == TOP then [[]] + Split(TOP, s[1..])
    else Prepend(s[0], Split(Step(st, s[0]), s[1..]))
  }

  function Prepend(c: byte, parts: seq<Bytes>): seq<Bytes>
    requires parts != []
  {
    [[c] + parts[0]] + parts[1..]
  }

  lemma PrependAppend(c: byte, head: seq<Bytes>, tail: seq<Bytes>)
    requires head != []
    ensures Prepend(c, head + tail) == Prepend(c, head) + tail
  {
    assert (head + tail)[1..] == head[1..] + tail;
  }

  /** The members of an object's text, as text. */
  function Members(t: Bytes): seq<Bytes>
    requires IsBraced(t)
  {
    BodyStarts(t);
    var inner := Body(t)[1..];
    if inner == [] then [] else Split(TOP, inner)
  }

  /** Every string and bracket opened between the braces is closed there. */
  predicate Closes(t: Bytes)
    requires IsBraced(t)
  {
    ScanAll(TOP, t[1..|t| - 1]) == TOP
  }

  /** The last member of a frame, when the frame is an object on one line. */
  function LastMember(frame: Bytes): Option<Bytes> {
    if frame != [] && frame[|frame| - 1] == LF && IsBraced(frame[..|frame| - 1]) then
      var m := Members(frame[..|frame| - 1]);
      if m == [] then None else Some(m[|m| - 1])
    else None
  }

  /** The sequence number a decoder takes from a frame: the last member wins. */
  function SeqOf(frame: Bytes): Option<nat> {
    var m := LastMember(frame);
    if m.Some? && SEQ_KEY <= m.value then Number(m.value[|SEQ_KEY|..]) else None
  }

  lemma {:induction false} ScanAppend(st: Scan, a: Bytes, b: Bytes)
    ensures ScanAll(st, a + b) == ScanAll(ScanAll(st, a), b)
    decreases |a|
  {
    if a == [] {
      assert a + b == b;
    } else {
      assert (a + b)[1..] == a[1..] + b;
      ScanAppend(Step(st, a[0]), a[1..], b);
    }
  }

  lemma {:induction false} ScanSpace(st: Scan, s: Bytes)
    requires forall k :: 0 <= k < |s| ==> s[k] in JSON_SPACE
    ensures ScanAll(st, s) == TOP <==> st == TOP
    decreases |s|
  {
    if s != [] {
      assert s[0] in JSON_SPACE;
      ScanSpace(Step(st, s[0]), s[1..]);
    }
  }

  lemma {:induction false} SplitAtComma(st: Scan, a: Bytes, b: Bytes)
    requires ScanAll(st, a) == TOP
    ensures Split(st, a + ([COMMA] + b)) == Split(st, a) + Split(TOP, b)
    decreases |a|
  {
    var s := a + ([COMMA] + b);
    if a == [] {
      assert s == [COMMA] + b;
    } else {
      assert s[0] == a[0] && s[1..] == a[1..] + ([COMMA] + b);
      if a[0] == COMMA && st == TOP {
        SplitAtComma(TOP, a[1..], b);
      } else {
        hide Prepend;
        SplitAtComma(Step(st, a[0]), a[1..], b);
        PrependAppend(a[0], Split(Step(st, a[0]), a[1..]), Split(TOP, b));
      }
    }
  }

  lemma {:induction false} SplitWhole(st: Scan, s: Bytes)
    requires COMMA !in s
    ensures Split(st, s) == [s]
    decreases |s|
  {
    if s != [] {
      SplitWhole(Step(st, s[0]), s[1..]);
      assert [s[0]] + s[1..] == s;
    }
  }

  /** Text that does not end in a top-level comma runs on into what follows. */
  lemma {:induction false} SplitRunsOn(st: Scan, a: Bytes, b: Bytes)
    requires a != [] && COMMA !in b
    requires a[|a| - 1] == COMMA ==> ScanAll(st, a[..|a| - 1]) != TOP
    ensures var parts := Split(st, a + b); |parts[|parts| - 1]| > |b|
    decreases |a|
  {
    assert (a + b)[1..] == a[1..] + b;
    var next := if a[0] == COMMA && st == TOP then TOP else Step(st, a[0]);
    if |a| == 1 {
      assert a[..0] == [];
      assert a[1..] + b == b;
      SplitWhole(next, b);
    } else {
      assert a[..|a| - 1][1..] == a[1..][..|a| - 2];
      SplitRunsOn(next, a[1..], b);
    }
  }

  /** An opening brace leaves a scan inside something. */
  lemma BraceOpens(st: Scan, a: Bytes)
    requires a != [] && a[|a| - 1] == LBRACE
    ensures ScanAll(st, a) != TOP
  {
    assert a == a[..|a| - 1] + [LBRACE];
    ScanAppend(st, a[..|a| - 1], [LBRACE]);
    var before := ScanAll(st, a[..|a| - 1]);
    assert ScanAll(before, [LBRACE]) == Step(before, LBRACE);
  }

  lemma ClosesBody(t: Bytes)
    requires IsBraced(t)
    ensures Body(t) != [] && (Closes(t) <==> ScanAll(TOP, Body(t)[1..]) == TOP)
  {
    BodyStarts(t);
    var inner := t[1..|t| - 1];
    var n := |Body(t)| - 1;
    assert inner == Body(t)[1..] + inner[n..] by {
      assert Body(t) == t[..|t| - 1][..n + 1];
    }
    assert forall k :: 0 <= k < |inner[n..]| ==> inner[n..][k] == t[..|t| - 1][n + 1 + k];
    ScanAppend(TOP, Body(t)[1..], inner[n..]);
    ScanSpace(ScanAll(TOP, Body(t)[1..]), inner[n..]);
  }

  /** What the numbered frame has before its field. */
  function Before(body: Bytes): Bytes
    requires body != []
  {
    body[1..] + (if body[|body| - 1] != LBRACE then [COMMA] else [])
  }

  /** The numbered frame is an object again, on one line. */
  lemma Numbered(line: Bytes, seqNo: nat)
    requires IsBraced(TrimRight(line, BLANKS))
    ensures var frame, body := WithSeq(line, seqNo), Body(TrimRight(line, BLANKS));
            && frame != [] && frame[|frame| - 1] == LF && IsBraced(frame[..|frame| - 1]) && body != []
            && Body(frame[..|frame| - 1])[1..] == Before(body) + Field(seqNo)
  {
    hide Digits, TrimRight;
    var t := TrimRight(line, BLANKS);
    BodyStarts(t);
    var body := Body(t);
    var inner := [LBRACE] + Before(body) + Field(seqNo);
    assert body == [LBRACE] + body[1..];
    var frame := WithSeq(line, seqNo);
    assert frame == inner + [RBRACE, LF];
    assert frame[..|frame| - 1][..|inner|] == inner;
    var d := Digits(seqNo);
    assert inner[|inner| - 1] == d[|d| - 1];
    assert TrimRight(inner, JSON_SPACE) == inner;
    assert inner[1..] == Before(body) + Field(seqNo);
  }

  /** The field is a member of its own exactly when the text before it closes
      what it opens. */
  lemma SplitField(body: Bytes, seqNo: nat)
    requires body != [] && body[0] == LBRACE
    ensures var parts := Split(TOP, Before(body) + Field(seqNo));
            && (ScanAll(TOP, body[1..]) == TOP ==>
                  parts == (if body[1..] == [] then [] else Split(TOP, body[1..])) + [Field(seqNo)])
            && (parts[|parts| - 1] == Field(seqNo) <==> ScanAll(TOP, body[1..]) == TOP)
  {
    hide Split, ScanAll, Field;
    FieldBytes(seqNo);
    var text := body[1..];
    if text == [] {
      assert Before(body) + Field(seqNo) == Field(seqNo);
      SplitWhole(TOP, Field(seqNo));
      ScanSpace(TOP, []);
    } else if body[|body| - 1] == LBRACE {
      BraceOpens(TOP, text);
      assert Before(body) == text;
      SplitRunsOn(TOP, text, Field(seqNo));
    } else if ScanAll(TOP, text) == TOP {
      assert Before(body) + Field(seqNo) == text + ([COMMA] + Field(seqNo));
      SplitAtComma(TOP, text, Field(seqNo));
      SplitWhole(TOP, Field(seqNo));
    } else {
      assert Before(body)[..|text|] == text;
      SplitRunsOn(TOP, Before(body), Field(seqNo));
    }
  }

  /** A frame that is an object keeps its members and gets its number as one
      more, the last, exactly when the object closes what it opens: a frame cut
      inside a string or a nested object gets no top-level number. */
  lemma WithSeqMembers(line: Bytes, seqNo: nat)
    requires IsBraced(TrimRight(line, BLANKS))
    ensures var t, frame := TrimRight(line, BLANKS), WithSeq(line, seqNo);
            && frame != [] && frame[|frame| - 1] == LF && IsBraced(frame[..|frame| - 1])
            && (Closes(t) ==> Members(frame[..|frame| - 1]) == Members(t) + [Field(seqNo)])
            && (LastMember(frame) == Some(Field(seqNo)) <==> Closes(t))
  {
    hide Split, ScanAll, Field, WithSeq, Body, Before, Closes;
    var t := TrimRight(line, BLANKS);
    BodyStarts(t);
    Numbered(line, seqNo);
    ClosesBody(t);
    SplitField(Body(t), seqNo);
    FieldNotEmpty(Body(t), seqNo);
    var m := Members(WithSeq(line, seqNo)[..|WithSeq(line, seqNo)| - 1]);
    assert m == Split(TOP, Before(Body(t)) + Field(seqNo));
    assert LastMember(WithSeq(line, seqNo)) == Some(m[|m| - 1]);
  }

  lemma FieldNotEmpty(body: Bytes, seqNo: nat)
    requires body != []
    ensures Before(body) + Field(seqNo) != []
  {
  }

  /** A decoder that lets the last member win reads the run's number, whatever
      seq the frame carried before. */
  lemma WithSeqDecodes(line: Bytes, seqNo: nat)
    requires IsBraced(TrimRight(line, BLANKS)) && Closes(TrimRight(line, BLANKS))
    ensures SeqOf(WithSeq(line, seqNo)) == Some(seqNo)
  {
    hide WithSeq, Closes, Members;
    WithSeqMembers(line, seqNo);
    DigitsNumber(seqNo);
    assert Field(seqNo)[|SEQ_KEY|..] == Digits(seqNo);
    assert SEQ_KEY <= Field(seqNo);
  }

  // --- a frame cut at the length limit -------------------------------------------------------

  lemma {:induction false} TrimRightAppend(a: Bytes, b: Bytes, cut: set<byte>)
    requires TrimRight(b, cut) != []
    ensures TrimRight(a + b, cut) == a + TrimRight(b, cut)
    decreases |b|
  {
    if b[|b| - 1] in cut {
      assert (a + b)[..|a + b| - 1] == a + b[..|b| - 1];
      TrimRightAppend(a, b[..|b| - 1], cut);
    }
  }

  lemma {:induction false} DigitsScan(d: Bytes)
    requires forall k :: 0 <= k < |d| ==> IsDigit(d[k])
    ensures ScanAll(TOP, d) == TOP
    decreases |d|
  {
    if d != [] {
      assert IsDigit(d[0]);
      DigitsScan(d[1..]);
    }
  }

  lemma FieldScans(seqNo: nat)
    ensures ScanAll(TOP, Field(seqNo)) == TOP
  {
    ScanAppend(TOP, SEQ_KEY, Digits(seqNo));
    DigitsScan(Digits(seqNo));
    var tail := Digits(seqNo);
    assert ScanAll(TOP, SEQ_KEY) == TOP by { KeyScans(); }
  }

  lemma KeyScans()
    ensures ScanAll(TOP, SEQ_KEY) == TOP
  {
    var inside := Scan(0, true, false);
    var a, b, c, d, e := [115, 101, 113, QUOTE, COLON], [101, 113, QUOTE, COLON],
        [113, QUOTE, COLON], [QUOTE, COLON], [COLON];
    assert SEQ_KEY[1..] == a && a[1..] == b && b[1..] == c && c[1..] == d && d[1..] == e && e[1..] == [];
    assert ScanAll(TOP, e) == TOP;
    assert ScanAll(inside, d) == ScanAll(TOP, e);
    assert ScanAll(inside, c) == ScanAll(inside, d);
    assert ScanAll(inside, b) == ScanAll(inside, c);
    assert ScanAll(inside, a) == ScanAll(inside, b);
  }

  /** A frame that was cut: an object's beginning. */
  predicate IsCut(t: Bytes) {
    t != [] && t[0] == LBRACE && !IsBraced(t)
  }

  /** Something of the object's first member is left. */
  predicate HasBegun(t: Bytes)
    requires t != []
  {
    DropSpace(t[1..]) != [] && DropSpace(t[1..])[0] != RBRACE
  }

  lemma ObjectMembers(x: Bytes)
    requires TrimRight(x, JSON_SPACE) != []
    ensures IsBraced([LBRACE] + x + [RBRACE])
    ensures Members([LBRACE] + x + [RBRACE]) == Split(TOP, TrimRight(x, JSON_SPACE))
  {
    hide TrimRight, Split;
    var t := [LBRACE] + x + [RBRACE];
    assert t[..|t| - 1] == [LBRACE] + x;
    TrimRightAppend([LBRACE], x, JSON_SPACE);
    assert ([LBRACE] + TrimRight(x, JSON_SPACE))[1..] == TrimRight(x, JSON_SPACE);
  }

  lemma CutShape(line: Bytes, seqNo: nat)
    requires IsCut(TrimRight(line, BLANKS)) && HasBegun(TrimRight(line, BLANKS))
    ensures WithSeq(line, seqNo) == [LBRACE] + (Field(seqNo) + ([COMMA] + TrimRight(line, BLANKS)[1..])) + [LF]
  {
    hide TrimRight, DropSpace, Field;
  }

  lemma FieldFirst(seqNo: nat, text: Bytes)
    requires TrimRight(text, JSON_SPACE) != []
    ensures TrimRight(Field(seqNo) + ([COMMA] + text), JSON_SPACE) != []
    ensures Split(TOP, TrimRight(Field(seqNo) + ([COMMA] + text), JSON_SPACE)) ==
            [Field(seqNo)] + Split(TOP, TrimRight(text, JSON_SPACE))
  {
    hide TrimRight, Split, Field, ScanAll;
    var inner := TrimRight(text, JSON_SPACE);
    var field := Field(seqNo);
    TrimRightAppend(field + [COMMA], text, JSON_SPACE);
    assert field + [COMMA] + text == field + ([COMMA] + text) && field + [COMMA] + inner == field + ([COMMA] + inner);
    FieldScans(seqNo);
    SplitAtComma(TOP, field, inner);
    FieldBytes(seqNo);
    SplitWhole(TOP, field);
  }

  /** The numbered beginning, with `lost` for what was cut off, has the number
      as a member before the members of the object as it was. */
  predicate NumberedFirst(line: Bytes, seqNo: nat, lost: Bytes)
    requires IsCut(TrimRight(line, BLANKS))
  {
    var t, frame := TrimRight(line, BLANKS), WithSeq(line, seqNo);
    && frame != [] && frame[|frame| - 1] == LF && frame[0] == LBRACE
    && Members(frame[..|frame| - 1] + lost + [RBRACE]) == [Field(seqNo)] + Members(t + lost + [RBRACE])
  }

  lemma BegunFirst(line: Bytes, seqNo: nat, lost: Bytes)
    requires IsCut(TrimRight(line, BLANKS)) && HasBegun(TrimRight(line, BLANKS))
    ensures NumberedFirst(line, seqNo, lost)
  {
    hide WithSeq, Field, TrimRight, Split, Members, DropSpace;
    var t, frame := TrimRight(line, BLANKS), WithSeq(line, seqNo);
    var text, field := t[1..] + lost, Field(seqNo);
    CutShape(line, seqNo);
    NotBlank(t[1..], lost);
    FieldFirst(seqNo, text);
    ObjectMembers(text);
    ObjectMembers(field + ([COMMA] + text));
    assert t + lost + [RBRACE] == [LBRACE] + text + [RBRACE];
    assert frame[..|frame| - 1] + lost + [RBRACE] == [LBRACE] + (field + ([COMMA] + text)) + [RBRACE];
  }

  lemma BareShape(line: Bytes, seqNo: nat)
    requires IsCut(TrimRight(line, BLANKS)) && !HasBegun(TrimRight(line, BLANKS))
    ensures WithSeq(line, seqNo) == [LBRACE] + (Field(seqNo) + TrimRight(line, BLANKS)[1..]) + [LF]
  {
    hide TrimRight, DropSpace, Field;
    var t := TrimRight(line, BLANKS);
    assert [LBRACE] + Field(seqNo) + [] + t[1..] + [LF] == [LBRACE] + (Field(seqNo) + t[1..]) + [LF];
  }

  /** White space, and then nothing or a closing brace, and a visible byte. */
  lemma {:induction false} BareRuns(st: Scan, a: Bytes, c: byte)
    requires st == TOP && (DropSpace(a) == [] || DropSpace(a)[0] == RBRACE) && c != COMMA
    ensures |Split(st, a + [c])| == 1
    decreases |a|
  {
    var s := a + [c];
    var n := SpaceWidth(a);
    if a == [] {
      SplitWhole(st, s);
    } else if n == 0 {
      assert s[0] == RBRACE;
      UnderRuns(st, s);
    } else {
      var w, rest := a[..n], a[n..] + [c];
      assert s == w + rest;
      BareRuns(st, a[n..], c);
      SpaceScans(a, n);
      SplitOn(st, w, rest);
    }
  }

  /** After a bracket closed too early nothing is split any more. */
  lemma {:induction false} UnderRuns(st: Scan, s: Bytes)
    requires st.depth < 0 || (st == TOP && s != [] && s[0] == RBRACE)
    ensures |Split(st, s)| == 1
    decreases |s|
  {
    if s != [] {
      UnderRuns(Step(st, s[0]), s[1..]);
    }
  }

  lemma SpaceScans(a: Bytes, n: nat)
    requires 0 < n == SpaceWidth(a)
    ensures n <= 3 && forall k :: 0 <= k < n ==> IsFiller(a[k])
  {
  }

  predicate IsFiller(b: byte) {
    b !in {COMMA, QUOTE, BACKSLASH, LBRACE, RBRACE, LBRACKET, RBRACKET}
  }

  /** Filler before a text joins its first part. */
  lemma {:induction false} SplitOn(st: Scan, w: Bytes, rest: Bytes)
    requires st == TOP && forall k :: 0 <= k < |w| ==> IsFiller(w[k])
    ensures |Split(st, w + rest)| == |Split(st, rest)|
    decreases |w|
  {
    if w == [] {
      assert w + rest == rest;
    } else {
      assert IsFiller(w[0]) && (w + rest)[1..] == w[1..] + rest;
      SplitOn(st, w[1..], rest);
    }
  }

  lemma {:induction false} FieldJoins(st: Scan, a: Bytes, b: Bytes)
    requires COMMA !in a && ScanAll(st, a) == TOP
    ensures |Split(st, a + b)| == |Split(TOP, b)|
    decreases |a|
  {
    if a == [] {
      assert a + b == b;
    } else {
      assert (a + b)[1..] == a[1..] + b;
      FieldJoins(Step(st, a[0]), a[1..], b);
    }
  }

  /** A frame of which nothing but the brace is left gets its number without the
      comma that the lost members would need. */
  lemma BareNotFirst(line: Bytes, seqNo: nat)
    requires IsCut(TrimRight(line, BLANKS)) && !HasBegun(TrimRight(line, BLANKS))
    ensures !NumberedFirst(line, seqNo, [ZERO])
  {
    hide WithSeq, Field, TrimRight, Split, Members, DropSpace, ScanAll;
    var t, frame := TrimRight(line, BLANKS), WithSeq(line, seqNo);
    var text, field := t[1..] + [ZERO], Field(seqNo);
    BareShape(line, seqNo);
    EndsVisible(text);
    EndsVisible(field + text);
    ObjectMembers(text);
    ObjectMembers(field + text);
    assert t + [ZERO] + [RBRACE] == [LBRACE] + text + [RBRACE];
    assert frame[..|frame| - 1] + [ZERO] + [RBRACE] == [LBRACE] + (field + text) + [RBRACE];
    BareRuns(TOP, t[1..], ZERO);
    FieldScans(seqNo);
    FieldBytes(seqNo);
    FieldJoins(TOP, field, text);
  }

  lemma EndsVisible(s: Bytes)
    requires s != [] && s[|s| - 1] == ZERO
    ensures TrimRight(s, JSON_SPACE) == s
  {
  }

  /** A cut frame gets its number first, and however the object went on before it
      was cut its members follow that one, all of them and no others, if and only
      if something of its first member is left. */
  lemma CutFrameMembers(line: Bytes, seqNo: nat)
    requires IsCut(TrimRight(line, BLANKS))
    ensures (forall lost :: NumberedFirst(line, seqNo, lost)) <==> HasBegun(TrimRight(line, BLANKS))
  {
    hide NumberedFirst, HasBegun, TrimRight;
    if HasBegun(TrimRight(line, BLANKS)) {
      forall lost
        ensures NumberedFirst(line, seqNo, lost)
      {
        BegunFirst(line, seqNo, lost);
      }
    } else {
      BareNotFirst(line, seqNo);
    }
  }

  /** Text with more than white space in it is not trimmed away. */
  lemma {:induction false} NotBlank(a: Bytes, b: Bytes)
    requires DropSpace(a) != []
    ensures TrimRight(a + b, JSON_SPACE) != []
  {
    VisibleByte(a);
    var k :| 0 <= k < |a| && a[k] !in JSON_SPACE;
    assert (a + b)[k] == a[k];
  }

  lemma {:induction false} VisibleByte(a: Bytes)
    requires DropSpace(a) != []
    ensures exists k :: 0 <= k < |a| && a[k] !in JSON_SPACE
    decreases |a|
  {
    var n := SpaceWidth(a);
    if n == 0 {
      assert a[0] !in JSON_SPACE;
    } else {
      VisibleByte(a[n..]);
      var k :| 0 <= k < |a[n..]| && a[n..][k] !in JSON_SPACE;
      assert a[n + k] !in JSON_SPACE;
    }
  }
}
