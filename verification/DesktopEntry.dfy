// The autostart entry of the desktop app on Linux
// (desktop/src/main/login-item.ts), and the reading of it that the Desktop Entry
// Specification 1.5 prescribes (section 4 for the values of string keys, section
// 7 for the Exec key).
module DesktopEntries {
  import opened Options

  const BACKSLASH: char := '\\'
  const QUOTE: char := '"'
  const NEWLINE: char := '\n'
  const HIDDEN_FLAG := "--hidden"

  // --- writing ----------------------------------------------------------------------------

  /** The replacements in the order they are made, and all of them at once. */
  datatype Rule = Backslashes | Quotes | Percents | Everything

  predicate Special(c: char) {
    c in {QUOTE, '`', '$'}
  }

  function Replaced(rule: Rule, c: char): string {
    if c == BACKSLASH && rule in {Backslashes, Everything} then [BACKSLASH, BACKSLASH, BACKSLASH, BACKSLASH]
    else if Special(c) && rule in {Quotes, Everything} then [BACKSLASH, BACKSLASH, c]
    else if c == '%' && rule in {Percents, Everything} then "%%"
    else [c]
  }

  function ReplaceAll(rule: Rule, s: string): string {
    if s == "" then "" else Replaced(rule, s[0]) + ReplaceAll(rule, s[1..])
  }

  function DesktopExecArg(arg: string): string {
    [QUOTE] + ReplaceAll(Percents, ReplaceAll(Quotes, ReplaceAll(Backslashes, arg))) + [QUOTE]
  }

  lemma {:induction false} ReplaceAppend(rule: Rule, a: string, b: string)
    ensures ReplaceAll(rule, a + b) == ReplaceAll(rule, a) + ReplaceAll(rule, b)
  {
    if a == "" {
      assert a + b == b;
    } else {
      assert (a + b)[0] == a[0] && (a + b)[1..] == a[1..] + b;
      ReplaceAppend(rule, a[1..], b);
    }
  }

  lemma OneChar(rule: Rule, c: char)
    ensures ReplaceAll(rule, [c]) == Replaced(rule, c)
  {
    assert ReplaceAll(rule, [c][1..]) == "";
  }

  lemma OneByOne(c: char)
    ensures ReplaceAll(Percents, ReplaceAll(Quotes, Replaced(Backslashes, c))) == Replaced(Everything, c)
  {
    if c == BACKSLASH {
      var two := [BACKSLASH, BACKSLASH];
      assert [BACKSLASH, BACKSLASH, BACKSLASH, BACKSLASH] == [BACKSLASH] + [BACKSLASH] + [BACKSLASH] + [BACKSLASH];
      Untouched(Quotes);
      Untouched(Percents);
    } else {
      OneChar(Quotes, c);
      if Special(c) {
        var t := [BACKSLASH] + ([BACKSLASH] + [c]);
        assert Replaced(Quotes, c) == t;
        ReplaceAppend(Percents, [BACKSLASH], [BACKSLASH] + [c]);
        ReplaceAppend(Percents, [BACKSLASH], [c]);
        OneChar(Percents, BACKSLASH);
        OneChar(Percents, c);
      } else {
        OneChar(Percents, c);
      }
    }
  }

  lemma Untouched(rule: Rule)
    requires rule in {Quotes, Percents}
    ensures var four := [BACKSLASH, BACKSLASH, BACKSLASH, BACKSLASH]; ReplaceAll(rule, four) == four
  {
    var b := [BACKSLASH];
    assert [BACKSLASH, BACKSLASH, BACKSLASH, BACKSLASH] == (b + b) + (b + b);
    OneChar(rule, BACKSLASH);
    ReplaceAppend(rule, b, b);
    ReplaceAppend(rule, b + b, b + b);
  }

  /** The three replacements, each over the whole text, are one over its
      characters: none of them touches what an earlier one wrote. */
  lemma {:induction false} AllAtOnce(s: string)
    ensures ReplaceAll(Percents, ReplaceAll(Quotes, ReplaceAll(Backslashes, s))) == ReplaceAll(Everything, s)
  {
    if s != "" {
      var c, rest := Replaced(Backslashes, s[0]), ReplaceAll(Backslashes, s[1..]);
      ReplaceAppend(Quotes, c, rest);
      ReplaceAppend(Percents, ReplaceAll(Quotes, c), ReplaceAll(Quotes, rest));
      OneByOne(s[0]);
      AllAtOnce(s[1..]);
    }
  }

  function Join(lines: seq<string>): string
    requires lines != []
  {
    if |lines| == 1 then lines[0] else lines[0] + [NEWLINE] + Join(lines[1..])
  }

  const BEFORE: seq<string> := [
    "[Desktop Entry]", "Type=Application", "Version=1.0", "Name=TaskTrooper", COMMENT]

  const COMMENT := "Comment=Start TaskTrooper's " + "local server in the background"

  const AFTER: seq<string> := ["Icon=tasktrooper", "Terminal=false", "X-GNOME-Autostart-enabled=true", ""]

  const EXEC := "Exec="

  function ExecLine(executable: string): string {
    EXEC + DesktopExecArg(executable) + " " + HIDDEN_FLAG
  }

  function AutostartEntry(executable: string): string {
    Join(BEFORE + [ExecLine(executable)] + AFTER)
  }

  // --- reading ----------------------------------------------------------------------------

  /** A character of a value of type string: ASCII and no control character. */
  predicate IsText(c: char) {
    ' ' <= c <= '~'
  }

  predicate AllText(s: string) {
    forall k :: 0 <= k < |s| ==> IsText(s[k])
  }

  /** What names an executable program: its full path, or its name alone,
      without an equals sign in either. */
  predicate IsExecutable(arg: string) {
    arg != "" && '=' !in arg && (arg[0] == '/' || '/' !in arg)
  }

  /** A file's first line and what follows it. */
  function FirstLine(s: string): string {
    if s == "" || s[0] == NEWLINE then "" else [s[0]] + FirstLine(s[1..])
  }

  function LaterLines(s: string): Option<string> {
    if s == "" then None else if s[0] == NEWLINE then Some(s[1..]) else LaterLines(s[1..])
  }

  /** The value of the file's first Exec key. */
  function ExecValue(file: string): Option<string>
    decreases |file|
  {
    var line := FirstLine(file);
    if EXEC <= line then Some(line[|EXEC|..])
    else
      match LaterLines(file)
      case None => None
      case Some(rest) => LaterShorter(file); ExecValue(rest)
  }

  lemma {:induction false} LaterShorter(s: string)
    ensures LaterLines(s).Some? ==> |LaterLines(s).value| < |s|
  {
    if s != "" {
      LaterShorter(s[1..]);
    }
  }

  function Escape(c: char): char {
    if c == 's' then ' ' else if c == 'n' then '\n' else if c == 't' then '\t' else if c == 'r' then '\r' else c
  }

  /** The escapes of a value of type string. */
  function Unescaped(v: string): Option<string> {
    if v == "" then Some("")
    else if v[0] != BACKSLASH then
      match Unescaped(v[1..]) case None => None case Some(r) => Some([v[0]] + r)
    else if |v| == 1 then None
    else
      var c := v[1];
      if c !in {'s', 'n', 't', 'r', BACKSLASH} then None
      else
        match Unescaped(v[2..])
        case None => None
        case Some(r) => Some([Escape(c)] + r)
  }

  datatype Read = Read(arg: string, rest: string)

  /** A quoted argument after its opening quote. */
  function Quoted(s: string): Option<Read> {
    if s == "" then None
    else if s[0] == QUOTE then Some(Read("", s[1..]))
    else if s[0] in {'`', '$'} then None
    else if s[0] == BACKSLASH then
      if |s| == 1 || !(Special(s[1]) || s[1] == BACKSLASH) then None
      else match Quoted(s[2..]) case None => None case Some(r) => Some(r.(arg := [s[1]] + r.arg))
    else match Quoted(s[1..]) case None => None case Some(r) => Some(r.(arg := [s[0]] + r.arg))
  }

  const RESERVED: set<char> := {' ', '\t', '\n', QUOTE, '\'', BACKSLASH, '>', '<', '~', '|',
      '&', ';', '$', '*', '?', '#', '(', ')', '`'}

  /** An argument without quotes. */
  function Plain(s: string): Option<Read> {
    if s == "" || s[0] == ' ' then Some(Read("", s))
    else if s[0] in RESERVED then None
    else match Plain(s[1..]) case None => None case Some(r) => Some(r.(arg := [s[0]] + r.arg))
  }

  /** A percent sign is written twice; once it begins a field code, and the
      argument is no literal. */
  function Literal(s: string): Option<string> {
    if s == "" then Some("")
    else if s[0] == '%' then
      if |s| == 1 || s[1] != '%' then None
      else match Literal(s[2..]) case None => None case Some(r) => Some("%" + r)
    else match Literal(s[1..]) case None => None case Some(r) => Some([s[0]] + r)
  }

  function Argument(s: string): Option<Read>
    requires s != ""
  {
    var read := if s[0] == QUOTE then Quoted(s[1..]) else Plain(s);
    if read.None? || !(read.value.rest == "" || read.value.rest[0] == ' ') then None
    else match Literal(read.value.arg) case None => None case Some(l) => Some(read.value.(arg := l))
  }

  /** The arguments of a command line of at most n characters. */
  function Arguments(s: string, n: nat): Option<seq<string>>
    decreases n
  {
    if s == "" then Some([])
    else if n == 0 then None
    else if s[0] == ' ' then Arguments(s[1..], n - 1)
    else
      match Argument(s)
      case None => None
      case Some(read) =>
        match Arguments(read.rest, n - 1)
        case None => None
        case Some(more) => Some([read.arg] + more)
  }

  /** The command line a file starts. */
  function Command(file: string): Option<seq<string>> {
    match ExecValue(file)
    case None => None
    case Some(v) =>
      if !AllText(v) then None
      else
        match Unescaped(v)
        case None => None
        case Some(line) =>
          match Arguments(line, |line|)
          case None => None
          case Some(args) => if args != [] && IsExecutable(args[0]) then Some(args) else None
  }

  // --- what is written is what is read -----------------------------------------------------

  /** An argument once the string's escapes are undone. */
  function Shell(c: char): string {
    if c == BACKSLASH || Special(c) then [BACKSLASH, c] else Percent(c)
  }

  function Percent(c: char): string {
    if c == '%' then "%%" else [c]
  }

  function ShellAll(s: string): string {
    if s == "" then "" else Shell(s[0]) + ShellAll(s[1..])
  }

  function PercentAll(s: string): string {
    if s == "" then "" else Percent(s[0]) + PercentAll(s[1..])
  }

  lemma UnescapedPlain(c: char, rest: string)
    requires c != BACKSLASH
    ensures Unescaped([c] + rest) == match Unescaped(rest) case None => None case Some(r) => Some([c] + r)
  {
    assert ([c] + rest)[1..] == rest;
  }

  lemma UnescapedPair(rest: string)
    ensures Unescaped([BACKSLASH, BACKSLASH] + rest) ==
            match Unescaped(rest) case None => None case Some(r) => Some([BACKSLASH] + r)
  {
    assert ([BACKSLASH, BACKSLASH] + rest)[2..] == rest;
  }

  lemma UnescapedChar(c: char, rest: string)
    requires Unescaped(rest).Some?
    ensures Unescaped(Replaced(Everything, c) + rest) == Some(Shell(c) + Unescaped(rest).value)
  {
    hide Unescaped;
    var r := Unescaped(rest).value;
    if c == BACKSLASH {
      var pair := [BACKSLASH, BACKSLASH];
      assert Replaced(Everything, c) + rest == pair + (pair + rest);
      UnescapedPair(rest);
      UnescapedPair(pair + rest);
      assert [BACKSLASH] + ([BACKSLASH] + r) == Shell(c) + r;
    } else if Special(c) {
      assert Replaced(Everything, c) + rest == [BACKSLASH, BACKSLASH] + ([c] + rest);
      UnescapedPlain(c, rest);
      UnescapedPair([c] + rest);
      assert [BACKSLASH] + ([c] + r) == Shell(c) + r;
    } else {
      UnescapedPlain(c, rest);
      if c == '%' {
        UnescapedPlain(c, [c] + rest);
        assert Replaced(Everything, c) + rest == [c] + ([c] + rest);
        assert [c] + ([c] + r) == Shell(c) + r;
      }
    }
  }

  lemma {:induction false} UnescapedAll(s: string, rest: string)
    requires Unescaped(rest).Some?
    ensures Unescaped(ReplaceAll(Everything, s) + rest) == Some(ShellAll(s) + Unescaped(rest).value)
  {
    hide Unescaped, Replaced, Shell;
    if s == "" {
      assert "" + rest == rest && "" + Unescaped(rest).value == Unescaped(rest).value;
    } else {
      UnescapedAll(s[1..], rest);
      var later := ReplaceAll(Everything, s[1..]);
      UnescapedChar(s[0], later + rest);
      assert Replaced(Everything, s[0]) + (later + rest) == Replaced(Everything, s[0]) + later + rest;
      assert Shell(s[0]) + (ShellAll(s[1..]) + Unescaped(rest).value) ==
             Shell(s[0]) + ShellAll(s[1..]) + Unescaped(rest).value;
    }
  }

  lemma QuotedChar(c: char, rest: string)
    requires c != BACKSLASH && !Special(c)
    ensures Quoted([c] + rest) == match Quoted(rest) case None => None case Some(r) => Some(r.(arg := [c] + r.arg))
  {
    assert ([c] + rest)[1..] == rest;
  }

  lemma QuotedShell(c: char, rest: string)
    ensures Quoted(Shell(c) + rest) ==
            match Quoted(rest) case None => None case Some(r) => Some(r.(arg := Percent(c) + r.arg))
  {
    if c == BACKSLASH || Special(c) {
      assert (Shell(c) + rest)[2..] == rest;
    } else {
      hide Quoted;
      QuotedChar(c, rest);
      if c == '%' {
        QuotedChar(c, [c] + rest);
        assert Shell(c) + rest == [c] + ([c] + rest);
        if Quoted(rest).Some? {
          assert [c] + ([c] + Quoted(rest).value.arg) == Percent(c) + Quoted(rest).value.arg;
        }
      }
    }
  }

  lemma {:induction false} QuotedAll(s: string, rest: string)
    ensures Quoted(ShellAll(s) + rest) ==
            match Quoted(rest) case None => None case Some(r) => Some(r.(arg := PercentAll(s) + r.arg))
  {
    hide Quoted, Shell, Percent;
    if s == "" {
      assert "" + rest == rest;
      if Quoted(rest).Some? {
        assert "" + Quoted(rest).value.arg == Quoted(rest).value.arg;
      }
    } else {
      QuotedAll(s[1..], rest);
      QuotedShell(s[0], ShellAll(s[1..]) + rest);
      assert Shell(s[0]) + (ShellAll(s[1..]) + rest) == Shell(s[0]) + ShellAll(s[1..]) + rest;
      if Quoted(rest).Some? {
        var arg := Quoted(rest).value.arg;
        assert Percent(s[0]) + (PercentAll(s[1..]) + arg) == Percent(s[0]) + PercentAll(s[1..]) + arg;
      }
    }
  }

  lemma {:induction false} LiteralAll(s: string)
    ensures Literal(PercentAll(s)) == Some(s)
  {
    if s != "" {
      LiteralAll(s[1..]);
      var t := PercentAll(s);
      if s[0] == '%' {
        assert t[2..] == PercentAll(s[1..]);
        assert "%" + s[1..] == s;
      } else {
        assert t[1..] == PercentAll(s[1..]);
        assert [s[0]] + s[1..] == s;
      }
    }
  }

  /** An argument read as the line has it. */
  lemma QuotedArgument(s: string, rest: string)
    requires rest == "" || rest[0] == ' '
    ensures Argument([QUOTE] + ShellAll(s) + [QUOTE] + rest) == Some(Read(s, rest))
  {
    var text := [QUOTE] + ShellAll(s) + [QUOTE] + rest;
    assert text[1..] == ShellAll(s) + ([QUOTE] + rest);
    QuotedAll(s, [QUOTE] + rest);
    assert ([QUOTE] + rest)[1..] == rest;
    assert PercentAll(s) + "" == PercentAll(s);
    LiteralAll(s);
  }

  /** One that is cut off before its closing quote is no argument. */
  lemma UnendedArgument(s: string)
    ensures Argument([QUOTE] + ShellAll(s)) == None
  {
    var text := [QUOTE] + ShellAll(s);
    assert text[1..] == ShellAll(s) + "";
    QuotedAll(s, "");
  }

  lemma {:induction false} PlainWord(s: string)
    requires forall k :: 0 <= k < |s| ==> s[k] !in RESERVED && s[k] != '%'
    ensures Plain(s) == Some(Read(s, "")) && Literal(s) == Some(s)
  {
    if s != "" {
      PlainWord(s[1..]);
      assert [s[0]] + s[1..] == s;
    }
  }

  lemma HiddenArgument(n: nat)
    requires n >= 2
    ensures Arguments(" " + HIDDEN_FLAG, n) == Some([HIDDEN_FLAG])
  {
    PlainWord(HIDDEN_FLAG);
    assert (" " + HIDDEN_FLAG)[1..] == HIDDEN_FLAG;
    assert Argument(HIDDEN_FLAG) == Some(Read(HIDDEN_FLAG, ""));
    assert Arguments("", n - 2) == Some([]);
    assert [HIDDEN_FLAG] + [] == [HIDDEN_FLAG];
    assert Arguments(HIDDEN_FLAG, n - 1) == Some([HIDDEN_FLAG]);
  }

  lemma {:induction false} Lines(line: string, rest: string)
    requires NEWLINE !in line
    ensures FirstLine(line + [NEWLINE] + rest) == line && LaterLines(line + [NEWLINE] + rest) == Some(rest)
  {
    var s := line + [NEWLINE] + rest;
    if line == "" {
      assert s[1..] == rest;
    } else {
      assert s[1..] == line[1..] + [NEWLINE] + rest;
      Lines(line[1..], rest);
    }
  }

  /** Lines before the one that is looked for are passed over. */
  lemma {:induction false} PassedOver(before: seq<string>, rest: seq<string>)
    requires rest != [] && forall k :: 0 <= k < |before| ==> NEWLINE !in before[k] && !(EXEC <= before[k])
    ensures ExecValue(Join(before + rest)) == ExecValue(Join(rest))
  {
    if before == [] {
      assert before + rest == rest;
    } else {
      assert (before + rest)[1..] == before[1..] + rest;
      Lines(before[0], Join(before[1..] + rest));
      PassedOver(before[1..], rest);
    }
  }

  lemma BeforeLines(k: nat)
    requires k < |BEFORE|
    ensures NEWLINE !in BEFORE[k] && !(EXEC <= BEFORE[k])
  {
    assert EXEC[0] == 'E' && EXEC[2] == 'e';
    if k == 0 {
    } else if k == 1 {
    } else if k == 2 {
    } else if k == 3 {
    } else {
      var start, end := "Comment=Start TaskTrooper's ", "local server in the background";
      assert start[0] == 'C' && COMMENT[0] == start[0];
      assert NEWLINE !in start && NEWLINE !in end;
    }
  }

  /** The entry's Exec value is what follows the key, up to the first line
      break there is. */
  lemma EntryValue(x: string)
    ensures ExecValue(AutostartEntry(x)) ==
            Some(FirstLine(DesktopExecArg(x) + " " + HIDDEN_FLAG + [NEWLINE] + Join(AFTER)))
  {
    hide DesktopExecArg;
    forall k | 0 <= k < |BEFORE|
      ensures NEWLINE !in BEFORE[k] && !(EXEC <= BEFORE[k])
    {
      BeforeLines(k);
    }
    var rest := [ExecLine(x)] + AFTER;
    assert BEFORE + [ExecLine(x)] + AFTER == BEFORE + rest;
    PassedOver(BEFORE, rest);
    assert rest[1..] == AFTER;
    var tail := DesktopExecArg(x) + " " + HIDDEN_FLAG + [NEWLINE] + Join(AFTER);
    assert Join(rest) == EXEC + tail;
    KeyLine(EXEC, tail);
  }

  lemma {:induction false} KeyLine(key: string, tail: string)
    requires NEWLINE !in key
    ensures FirstLine(key + tail) == key + FirstLine(tail)
  {
    if key == "" {
      assert key + tail == tail;
    } else {
      assert (key + tail)[1..] == key[1..] + tail;
      KeyLine(key[1..], tail);
    }
  }

  /** Writing keeps a text ASCII without control characters, or keeps it not. */
  lemma {:induction false} TextStays(s: string)
    ensures AllText(ReplaceAll(Everything, s)) <==> AllText(s)
  {
    if s != "" {
      TextStays(s[1..]);
      var c, rest := Replaced(Everything, s[0]), ReplaceAll(Everything, s[1..]);
      assert AllText(c) <==> IsText(s[0]) by {
        assert c[0] == s[0] || c[0] == BACKSLASH;
        assert c[|c| - 1] == s[0];
      }
      TextJoins(c, rest);
      TextJoins([s[0]], s[1..]);
      assert [s[0]] + s[1..] == s;
    }
  }

  lemma TextJoins(a: string, b: string)
    ensures AllText(a + b) <==> AllText(a) && AllText(b)
  {
    if AllText(a + b) {
      assert forall k :: 0 <= k < |a| ==> (a + b)[k] == a[k];
      assert forall k :: 0 <= k < |b| ==> (a + b)[|a| + k] == b[k];
    }
  }

  const CLOSING := [QUOTE] + " " + HIDDEN_FLAG

  lemma ArgLine(x: string)
    ensures DesktopExecArg(x) + " " + HIDDEN_FLAG == [QUOTE] + (ReplaceAll(Everything, x) + CLOSING)
  {
    AllAtOnce(x);
  }

  lemma ValueText(x: string)
    ensures AllText([QUOTE] + (ReplaceAll(Everything, x) + CLOSING)) <==> AllText(x)
  {
    TextStays(x);
    TextJoins([QUOTE], ReplaceAll(Everything, x) + CLOSING);
    TextJoins(ReplaceAll(Everything, x), CLOSING);
    assert AllText([QUOTE]) && AllText(CLOSING);
  }

  lemma CleanValue(x: string)
    requires AllText(x)
    ensures ExecValue(AutostartEntry(x)) == Some([QUOTE] + (ReplaceAll(Everything, x) + CLOSING))
  {
    hide DesktopExecArg, AutostartEntry, ExecValue, FirstLine, LaterLines, Join, AllText, ReplaceAll;
    EntryValue(x);
    ArgLine(x);
    ValueText(x);
    var value := DesktopExecArg(x) + " " + HIDDEN_FLAG;
    NoNewline(value);
    Lines(value, Join(AFTER));
  }

  lemma UnescapedValue(x: string)
    ensures Unescaped([QUOTE] + (ReplaceAll(Everything, x) + CLOSING)) == Some([QUOTE] + (ShellAll(x) + CLOSING))
  {
    UnescapedWord(CLOSING);
    hide Unescaped, ShellAll, ReplaceAll;
    UnescapedAll(x, CLOSING);
    UnescapedQuote(ReplaceAll(Everything, x) + CLOSING);
  }

  /** An argument that a value of type string can hold is read back from the
      entry, with the flag after it, and starts when it names an executable. */
  lemma EntryReadsBack(x: string)
    requires AllText(x)
    ensures Command(AutostartEntry(x)) == if IsExecutable(x) then Some([x, HIDDEN_FLAG]) else None
  {
    hide AutostartEntry, ExecValue, AllText, ReplaceAll, Unescaped, ShellAll, Arguments, IsExecutable;
    CleanValue(x);
    ValueText(x);
    UnescapedValue(x);
    var line := [QUOTE] + (ShellAll(x) + CLOSING);
    assert line == [QUOTE] + ShellAll(x) + [QUOTE] + (" " + HIDDEN_FLAG);
    HiddenArgument(|line| - 1);
    LineArguments(x, " " + HIDDEN_FLAG, |line|);
    assert [x] + [HIDDEN_FLAG] == [x, HIDDEN_FLAG];
  }

  lemma BreakStays(a: string, b: string)
    ensures ReplaceAll(Everything, a + [NEWLINE] + b) ==
            ReplaceAll(Everything, a) + ([NEWLINE] + ReplaceAll(Everything, b))
  {
    OneChar(Everything, NEWLINE);
    hide ReplaceAll;
    assert a + [NEWLINE] + b == a + ([NEWLINE] + b);
    ReplaceAppend(Everything, a, [NEWLINE] + b);
    ReplaceAppend(Everything, [NEWLINE], b);
  }

  /** What a line break leaves of the entry's value. */
  lemma BrokenOff(a: string, b: string)
    requires NEWLINE !in a
    ensures FirstLine(ReplaceAll(Everything, a + [NEWLINE] + b) + CLOSING + [NEWLINE] + Join(AFTER)) ==
            ReplaceAll(Everything, a)
  {
    hide ReplaceAll, FirstLine, Join, LaterLines;
    BreakStays(a, b);
    NoBreak(a);
    var start, end, more := ReplaceAll(Everything, a), ReplaceAll(Everything, b), CLOSING + [NEWLINE] + Join(AFTER);
    Lines(start, end + more);
    assert start + ([NEWLINE] + end) + CLOSING + [NEWLINE] + Join(AFTER) == start + [NEWLINE] + (end + more);
  }

  lemma {:induction false} NoBreak(a: string)
    requires NEWLINE !in a
    ensures NEWLINE !in ReplaceAll(Everything, a)
  {
    if a != "" {
      NoBreak(a[1..]);
    }
  }

  /** One that no value of type string can hold never is: the entry then names
      no command. */
  lemma EntryRefused(x: string)
    requires !AllText(x)
    ensures Command(AutostartEntry(x)) == None
  {
    hide AutostartEntry, ExecValue, ReplaceAll, Unescaped, ShellAll, FirstLine, LaterLines, DesktopExecArg, Join;
    EntryValue(x);
    ArgLine(x);
    var tail := DesktopExecArg(x) + " " + HIDDEN_FLAG + [NEWLINE] + Join(AFTER);
    if NEWLINE in x {
      var k :| 0 <= k < |x| && x[k] == NEWLINE && NEWLINE !in x[..k] by { FirstBreak(x); }
      var a, b := x[..k], x[k + 1..];
      assert x == a + [NEWLINE] + b;
      BrokenOff(a, b);
      var later := ReplaceAll(Everything, x) + CLOSING + [NEWLINE] + Join(AFTER);
      assert tail == [QUOTE] + later;
      KeyLine([QUOTE], later);
      BrokenLine(a);
    } else {
      var value := DesktopExecArg(x) + " " + HIDDEN_FLAG;
      ValueText(x);
      assert NEWLINE !in value by {
        NoBreak(x);
      }
      Lines(value, Join(AFTER));
    }
  }

  lemma {:induction false} FirstBreak(x: string)
    requires NEWLINE in x
    ensures exists k :: 0 <= k < |x| && x[k] == NEWLINE && NEWLINE !in x[..k]
  {
    if x[0] == NEWLINE {
      assert x[..0] == "";
    } else {
      FirstBreak(x[1..]);
      var k :| 0 <= k < |x[1..]| && x[1..][k] == NEWLINE && NEWLINE !in x[1..][..k];
      assert x[..k + 1] == [x[0]] + x[1..][..k];
      assert x[k + 1] == NEWLINE;
    }
  }

  /** The beginning of an argument is no command. */
  lemma BrokenLine(a: string)
    ensures var v := [QUOTE] + ReplaceAll(Everything, a);
            Unescaped(v) == Some([QUOTE] + ShellAll(a)) && Arguments([QUOTE] + ShellAll(a), 1 + |ShellAll(a)|) == None
  {
    assert Unescaped("") == Some("");
    UnendedArgument(a);
    UnescapedAll(a, "");
    assert ReplaceAll(Everything, a) + "" == ReplaceAll(Everything, a) && ShellAll(a) + "" == ShellAll(a);
    UnescapedQuote(ReplaceAll(Everything, a));
    hide ShellAll, ReplaceAll, Unescaped, Argument;
  }

  /** The entry starts exactly the given path with the flag if, and only if, the
      path is ASCII without control characters and names an executable; it names
      no command otherwise. */
  lemma EntryRoundTrip(x: string)
    ensures Command(AutostartEntry(x)) == Some([x, HIDDEN_FLAG]) <==> AllText(x) && IsExecutable(x)
    ensures !(AllText(x) && IsExecutable(x)) ==> Command(AutostartEntry(x)) == None
  {
    if AllText(x) {
      EntryReadsBack(x);
    } else {
      EntryRefused(x);
    }
    hide Command, AutostartEntry;
  }

  /** A path with an equals sign, and one with a letter beyond ASCII, are written
      by the program and start nothing. */
  lemma RefusedPaths()
    ensures Command(AutostartEntry("/opt/a=b/app")) == None
    ensures Command(AutostartEntry("/home/\U{00E9}/app")) == None
  {
    assert "/opt/a=b/app"[6] == '=';
    assert !IsText("/home/\U{00E9}/app"[6]);
    hide Command, AutostartEntry;
    EntryRoundTrip("/opt/a=b/app");
    EntryRoundTrip("/home/\U{00E9}/app");
  }

  lemma UnescapedQuote(v: string)
    ensures Unescaped([QUOTE] + v) == match Unescaped(v) case None => None case Some(r) => Some([QUOTE] + r)
  {
    UnescapedPlain(QUOTE, v);
  }

  lemma LineArguments(x: string, rest: string, n: nat)
    requires n > 0 && rest != "" && rest[0] == ' ' && Arguments(rest, n - 1).Some?
    ensures Arguments([QUOTE] + ShellAll(x) + [QUOTE] + rest, n) == Some([x] + Arguments(rest, n - 1).value)
  {
    QuotedArgument(x, rest);
    var line := [QUOTE] + ShellAll(x) + [QUOTE] + rest;
    assert line[0] == QUOTE;
    hide Argument, ShellAll, Arguments;
    FirstArgument(line, n);
  }

  lemma FirstArgument(s: string, n: nat)
    requires n > 0 && s != "" && s[0] != ' ' && Argument(s).Some? && Arguments(Argument(s).value.rest, n - 1).Some?
    ensures Arguments(s, n) == Some([Argument(s).value.arg] + Arguments(Argument(s).value.rest, n - 1).value)
  {
    hide Argument;
  }

  lemma NoNewline(s: string)
    requires AllText(s)
    ensures NEWLINE !in s
  {
  }

  lemma {:induction false} UnescapedWord(s: string)
    requires BACKSLASH !in s
    ensures Unescaped(s) == Some(s)
  {
    if s != "" {
      UnescapedWord(s[1..]);
      assert [s[0]] + s[1..] == s;
    }
  }
}
