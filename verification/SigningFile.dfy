// The signing material of a release (desktop/runner/mobile_release.go): which
// secrets are accepted, the file of assignments they are written to, and the
// reading of that file by a shell (Shell Command Language, POSIX.1-2017,
// sections 2.2.1 and 2.2.2).
module SigningFiles {
  import opened ByteStrings
  import opened Options

  const NUL: byte := 0
  const APOSTROPHE: byte := 39
  const EQUALS: byte := 61
  const UNDERSCORE: byte := 95

  const MAX_RELEASE_SECRETS: nat := 32
  const MAX_RELEASE_SECRET_BYTES: nat := 1_048_576
  const RELEASE_REDACT_MIN_LEN: nat := 8

  type Secrets = map<Bytes, Bytes>

  // --- the order of names -------------------------------------------------------------------

  predicate Less(a: Bytes, b: Bytes) {
    b != [] && (a == [] || a[0] < b[0] || (a[0] == b[0] && Less(a[1..], b[1..])))
  }

  lemma {:induction false} LessTotal(a: Bytes, b: Bytes)
    ensures Less(a, b) || Less(b, a) || a == b
    ensures !(Less(a, b) && Less(b, a)) && !Less(a, a)
  {
    if a != [] && b != [] && a[0] == b[0] {
      LessTotal(a[1..], b[1..]);
      assert a == [a[0]] + a[1..] && b == [b[0]] + b[1..];
    }
    if a != [] {
      LessTotal(a[1..], a[1..]);
    }
  }

  lemma {:induction false} LessTransitive(a: Bytes, b: Bytes, c: Bytes)
    requires Less(a, b) && Less(b, c)
    ensures Less(a, c)
  {
    if a != [] && a[0] == b[0] == c[0] {
      LessTransitive(a[1..], b[1..], c[1..]);
    }
  }

  predicate IsLeast(n: Bytes, names: set<Bytes>) {
    n in names && forall m :: m in names ==> m == n || Less(n, m)
  }

  lemma HasLeast(names: set<Bytes>)
    requires names != {}
    ensures exists n :: IsLeast(n, names)
    decreases names
  {
    var x :| x in names;
    var rest := names - {x};
    if rest == {} {
      assert names == {x};
      assert IsLeast(x, names);
    } else {
      HasLeast(rest);
      var n :| IsLeast(n, rest);
      LessTotal(n, x);
      if Less(x, n) {
        forall m | m in names && m != x
          ensures Less(x, m)
        {
          if m != n {
            LessTransitive(x, n, m);
          }
        }
        assert IsLeast(x, names);
      } else {
        assert IsLeast(n, names);
      }
    }
  }

  /** sort.Strings of a set of names. */
  ghost function Sorted(names: set<Bytes>): seq<Bytes> {
    if names == {} then []
    else
      HasLeast(names);
      var n :| IsLeast(n, names);
      [n] + Sorted(names - {n})
  }

  ghost predicate InOrder(names: seq<Bytes>) {
    forall i, j :: 0 <= i < j < |names| ==> Less(names[i], names[j])
  }

  lemma {:induction false} SortedSorts(names: set<Bytes>)
    ensures InOrder(Sorted(names))
    ensures forall n :: n in Sorted(names) <==> n in names
    decreases names
  {
    if names != {} {
      HasLeast(names);
      var n := Sorted(names)[0];
      SortedSorts(names - {n});
      var rest := Sorted(names - {n});
      assert Sorted(names) == [n] + rest;
      forall i, j | 0 <= i < j < |Sorted(names)|
        ensures Less(Sorted(names)[i], Sorted(names)[j])
      {
        assert rest[j - 1] in rest;
        if i > 0 {
          assert Less(rest[i - 1], rest[j - 1]);
        }
      }
      forall m
        ensures m in Sorted(names) <==> m in names
      {
        assert m in Sorted(names) <==> m == n || m in rest;
      }
    }
  }

  method SortNames(names: set<Bytes>) returns (sorted: seq<Bytes>)
    ensures sorted == Sorted(names)
  {
    sorted := [];
    var todo := names;
    while todo != {}
      invariant Sorted(names) == sorted + Sorted(todo)
      decreases todo
    {
      HasLeast(todo);
      var n :| n in todo && IsLeast(n, todo);
      LeastIsFirst(todo, n);
      sorted := sorted + [n];
      todo := todo - {n};
    }
  }

  lemma LeastIsFirst(names: set<Bytes>, n: Bytes)
    requires IsLeast(n, names)
    ensures Sorted(names) == [n] + Sorted(names - {n})
  {
    HasLeast(names);
    var m := Sorted(names)[0];
    LessTotal(m, n);
  }

  // --- writing ------------------------------------------------------------------------------

  /** Each apostrophe leaves the quotes, stands escaped, and enters them again. */
  function Escaped(v: Bytes): Bytes {
    if v == [] then []
    else (if v[0] == APOSTROPHE then [APOSTROPHE, BACKSLASH, APOSTROPHE, APOSTROPHE] else [v[0]]) + Escaped(v[1..])
  }

  function Assignment(name: Bytes, value: Bytes): Bytes {
    name + [EQUALS, APOSTROPHE] + Escaped(value) + [APOSTROPHE, LF]
  }

  function Text(secrets: Secrets, names: seq<Bytes>): Bytes
    requires forall n :: n in names ==> n in secrets
  {
    if names == [] then []
    else Text(secrets, names[..|names| - 1]) + Assignment(names[|names| - 1], secrets[names[|names| - 1]])
  }

  /** The signing file's text: names in order, so that equal secrets make equal
      files. */
  method SigningText(secrets: Secrets) returns (body: Bytes)
    ensures forall n :: n in Sorted(secrets.Keys) <==> n in secrets
    ensures body == Text(secrets, Sorted(secrets.Keys))
  {
    hide Sorted, Escaped, InOrder;
    SortedSorts(secrets.Keys);
    var names := SortNames(secrets.Keys);
    body := [];
    for k := 0 to |names|
      invariant body == Text(secrets, names[..k])
    {
      body := body + names[k];
      body := body + [EQUALS, APOSTROPHE];
      body := body + Escaped(secrets[names[k]]);
      body := body + [APOSTROPHE, LF];
      assert names[..k + 1][..k] == names[..k];
      assert body == Text(secrets, names[..k]) + Assignment(names[k], secrets[names[k]]);
    }
    assert names[..|names|] == names;
  }

  // --- reading ------------------------------------------------------------------------------

  predicate NameStart(b: byte) {
    65 <= b <= 90 || 97 <= b <= 122 || b == UNDERSCORE
  }

  predicate NamePart(b: byte) {
    NameStart(b) || 48 <= b <= 57
  }

  /** Bytes that stand for themselves outside quotes. */
  predicate IsOrdinary(b: byte) {
    NamePart(b) || b in {37, 43, 44, 45, 46, 47, 58, 61, 64}
  }

  datatype Read = Read(word: Bytes, rest: Bytes)

  /** A word up to the end of its line, with what is quoted in it. */
  function Word(s: Bytes, quoted: bool): (r: Option<Read>)
    ensures r.Some? ==> |r.value.rest| <= |s|
    decreases |s|
  {
    if s == [] then if quoted then None else Some(Read([], []))
    else if quoted then if s[0] == APOSTROPHE then Word(s[1..], false) else After(s[0], Word(s[1..], true))
    else if s[0] == LF then Some(Read([], s[1..]))
    else if s[0] == APOSTROPHE then Word(s[1..], true)
    else if s[0] == BACKSLASH then
      if |s| == 1 then None
      else if s[1] == LF then Word(s[2..], false)
      else After(s[1], Word(s[2..], false))
    else if IsOrdinary(s[0]) then After(s[0], Word(s[1..], false))
    else None
  }

  function After(b: byte, read: Option<Read>): Option<Read> {
    match read case None => None case Some(r) => Some(r.(word := [b] + r.word))
  }

  /** The name that is assigned to: letters, digits and underscores before the
      equals sign. */
  function Name(s: Bytes): (r: Option<Read>)
    ensures r.Some? ==> |r.value.rest| < |s|
  {
    if s == [] then None
    else if s[0] == EQUALS then Some(Read([], s[1..]))
    else if NamePart(s[0]) then After(s[0], Name(s[1..]))
    else None
  }

  /** The assignments of a sourced file, if it holds nothing else. */
  function Assignments(s: Bytes): Option<seq<(Bytes, Bytes)>>
    decreases |s|
  {
    if s == [] then Some([])
    else if s[0] == LF then Assignments(s[1..])
    else if !NameStart(s[0]) then None
    else
      match Name(s)
      case None => None
      case Some(name) =>
        match Word(name.rest, false)
        case None => None
        case Some(value) =>
          match Assignments(value.rest)
          case None => None
          case Some(more) => Some([(name.word, value.word)] + more)
  }

  /** A shell reads a text file: one without NUL. */
  function Sourced(s: Bytes): Option<seq<(Bytes, Bytes)>> {
    if NUL in s then None else Assignments(s)
  }

  // --- what is written is what is read ------------------------------------------------------

  lemma {:induction false} EscapedWord(v: Bytes, rest: Bytes)
    ensures Word(Escaped(v) + [APOSTROPHE, LF] + rest, true) == Some(Read(v, rest))
  {
    var s := Escaped(v) + [APOSTROPHE, LF] + rest;
    if v == [] {
      assert s[1..] == [LF] + rest && s[1..][1..] == rest;
    } else {
      EscapedWord(v[1..], rest);
      var later := Escaped(v[1..]) + [APOSTROPHE, LF] + rest;
      assert [v[0]] + v[1..] == v;
      if v[0] == APOSTROPHE {
        assert s == [APOSTROPHE, BACKSLASH, APOSTROPHE, APOSTROPHE] + later;
        OutAndIn(later);
      } else {
        assert s == [v[0]] + later && s[1..] == later;
      }
    }
  }

  lemma OutAndIn(later: Bytes)
    ensures Word([APOSTROPHE, BACKSLASH, APOSTROPHE, APOSTROPHE] + later, true) == After(APOSTROPHE, Word(later, true))
  {
    var s := [APOSTROPHE, BACKSLASH, APOSTROPHE, APOSTROPHE] + later;
    var t, u := [BACKSLASH, APOSTROPHE, APOSTROPHE] + later, [APOSTROPHE] + later;
    assert s[1..] == t && t[2..] == u && u[1..] == later;
    assert Word(u, false) == Word(later, true);
    assert Word(t, false) == After(APOSTROPHE, Word(u, false));
  }

  /** Names the release script reads: a capital letter, then up to 63 capital
      letters, digits and underscores. */
  predicate IsSecretName(n: Bytes) {
    && 1 <= |n| <= 64 && 65 <= n[0] <= 90
    && forall k :: 0 < k < |n| ==> 65 <= n[k] <= 90 || 48 <= n[k] <= 57 || n[k] == UNDERSCORE
  }

  lemma {:induction false} NameRead(n: Bytes, rest: Bytes)
    requires forall k :: 0 <= k < |n| ==> NamePart(n[k])
    ensures Name(n + [EQUALS] + rest) == Some(Read(n, rest))
  {
    var s := n + [EQUALS] + rest;
    if n == [] {
      assert s[1..] == rest;
    } else {
      assert s[1..] == n[1..] + [EQUALS] + rest;
      NameRead(n[1..], rest);
      assert [n[0]] + n[1..] == n;
    }
  }

  lemma AssignmentRead(name: Bytes, value: Bytes, rest: Bytes)
    requires IsSecretName(name) && Assignments(rest).Some?
    ensures Assignments(Assignment(name, value) + rest) == Some([(name, value)] + Assignments(rest).value)
  {
    hide Escaped, Word, Name;
    var s := Assignment(name, value) + rest;
    var word := [APOSTROPHE] + (Escaped(value) + [APOSTROPHE, LF] + rest);
    assert s == name + [EQUALS] + word;
    NameRead(name, word);
    QuoteOpens(Escaped(value) + [APOSTROPHE, LF] + rest);
    EscapedWord(value, rest);
    assert s[0] == name[0];
  }

  lemma QuoteOpens(s: Bytes)
    ensures Word([APOSTROPHE] + s, false) == Word(s, true)
  {
    assert ([APOSTROPHE] + s)[1..] == s;
  }

  function Pairs(secrets: Secrets, names: seq<Bytes>): (pairs: seq<(Bytes, Bytes)>)
    requires forall n :: n in names ==> n in secrets
    ensures |pairs| == |names| && forall k :: 0 <= k < |names| ==> pairs[k] == (names[k], secrets[names[k]])
  {
    if names == [] then []
    else Pairs(secrets, names[..|names| - 1]) + [(names[|names| - 1], secrets[names[|names| - 1]])]
  }

  lemma {:induction false} TextRead(secrets: Secrets, names: seq<Bytes>, rest: Bytes)
    requires forall n :: n in names ==> n in secrets && IsSecretName(n)
    requires Assignments(rest).Some?
    ensures Assignments(Text(secrets, names) + rest) == Some(Pairs(secrets, names) + Assignments(rest).value)
    decreases |names|
  {
    hide Assignments, Assignment;
    if names == [] {
      assert [] + rest == rest;
      assert Pairs(secrets, names) + Assignments(rest).value == Assignments(rest).value;
    } else {
      var n := names[|names| - 1];
      AssignmentRead(n, secrets[n], rest);
      TextRead(secrets, names[..|names| - 1], Assignment(n, secrets[n]) + rest);
      var more := Assignments(rest).value;
      assert Pairs(secrets, names[..|names| - 1]) + ([(n, secrets[n])] + more) == Pairs(secrets, names) + more;
      assert Text(secrets, names) + rest == Text(secrets, names[..|names| - 1]) + (Assignment(n, secrets[n]) + rest);
    }
  }

  lemma {:induction false} EscapedNul(v: Bytes)
    ensures NUL in Escaped(v) <==> NUL in v
  {
    if v != [] {
      EscapedNul(v[1..]);
      assert v == [v[0]] + v[1..];
    }
  }

  lemma {:induction false} TextNul(secrets: Secrets, names: seq<Bytes>)
    requires forall n :: n in names ==> n in secrets && IsSecretName(n)
    ensures NUL in Text(secrets, names) <==> exists n :: n in names && NUL in secrets[n]
    decreases |names|
  {
    if names != [] {
      var before, n := names[..|names| - 1], names[|names| - 1];
      TextNul(secrets, before);
      EscapedNul(secrets[n]);
      hide Escaped, Text;
      assert names == before + [n];
      assert forall k :: 0 <= k < |n| ==> n[k] != NUL;
    }
  }

  /** Sourcing the signing file assigns exactly the secrets, each once and in
      the order of the names, apostrophes and line feeds in them or not, if and
      only if none of them holds a NUL. */
  lemma SigningRoundTrip(secrets: Secrets)
    requires forall n :: n in secrets ==> IsSecretName(n)
    ensures forall n :: n in Sorted(secrets.Keys) <==> n in secrets
    ensures Sourced(Text(secrets, Sorted(secrets.Keys))) == Some(Pairs(secrets, Sorted(secrets.Keys)))
       <==> forall n :: n in secrets ==> NUL !in secrets[n]
  {
    var names := Sorted(secrets.Keys);
    SortedSorts(secrets.Keys);
    hide Sorted, Text, Assignments, Pairs;
    TextNul(secrets, names);
    assert Assignments([]) == Some([]) by { NoAssignments(); }
    TextRead(secrets, names, []);
    assert Text(secrets, names) + [] == Text(secrets, names);
    assert Pairs(secrets, names) + [] == Pairs(secrets, names);
  }

  lemma NoAssignments()
    ensures Assignments([]) == Some([])
  {
  }

  // --- what is accepted ---------------------------------------------------------------------

  const PASSWORD_SUFFIX: Bytes := [95, 80, 65, 83, 83, 87, 79, 82, 68]
  const SECRET_SUFFIX: Bytes := [95, 83, 69, 67, 82, 69, 84]

  predicate HasSuffix(s: Bytes, suffix: Bytes) {
    |suffix| <= |s| && s[|s| - |suffix|..] == suffix
  }

  predicate IsPassword(name: Bytes) {
    HasSuffix(name, PASSWORD_SUFFIX) || HasSuffix(name, SECRET_SUFFIX)
  }

  predicate AcceptableOne(name: Bytes, value: Bytes) {
    IsSecretName(name) && value != [] && NUL !in value && (IsPassword(name) ==> |value| >= RELEASE_REDACT_MIN_LEN)
  }

  /** The bytes of the secrets named, names and values. */
  ghost function Size(secrets: Secrets, names: set<Bytes>): nat
    requires names <= secrets.Keys
  {
    if names == {} then 0
    else
      var n :| n in names;
      |n| + |secrets[n]| + Size(secrets, names - {n})
  }

  lemma {:induction false} SizeWithout(secrets: Secrets, names: set<Bytes>, n: Bytes)
    requires names <= secrets.Keys && n in names
    ensures Size(secrets, names) == |n| + |secrets[n]| + Size(secrets, names - {n})
    decreases names
  {
    var m :| m in names && Size(secrets, names) == |m| + |secrets[m]| + Size(secrets, names - {m});
    if m != n {
      SizeWithout(secrets, names - {m}, n);
      SizeWithout(secrets, names - {n}, m);
      assert names - {m} - {n} == names - {n} - {m};
    }
  }

  ghost predicate Acceptable(secrets: Secrets) {
    && |secrets| <= MAX_RELEASE_SECRETS
    && (forall n :: n in secrets ==> AcceptableOne(n, secrets[n]))
    && Size(secrets, secrets.Keys) <= MAX_RELEASE_SECRET_BYTES
  }

  /** checkReleaseSecrets: the secrets themselves, or none of them. */
  method CheckReleaseSecrets(secrets: Secrets) returns (out: Option<Secrets>)
    ensures out == if Acceptable(secrets) then Some(secrets) else None
  {
    if |secrets| == 0 {
      assert secrets.Keys == {} by {
        assert |secrets.Keys| == |secrets|;
      }
      assert secrets == map[];
      return Some(map[]);
    }
    if |secrets| > MAX_RELEASE_SECRETS {
      return None;
    }
    var total, kept := 0, map[];
    var todo := secrets.Keys;
    while todo != {}
      invariant todo <= secrets.Keys
      invariant total + Size(secrets, todo) == Size(secrets, secrets.Keys) && total <= MAX_RELEASE_SECRET_BYTES
      invariant forall n :: n in secrets && n !in todo ==> AcceptableOne(n, secrets[n])
      invariant kept == map n | n in secrets && n !in todo :: secrets[n]
      decreases todo
    {
      var name :| name in todo;
      var value := secrets[name];
      if !IsSecretName(name) {
        return None;
      }
      if value == [] {
        return None;
      }
      if NUL in value {
        return None;
      }
      if IsPassword(name) && |value| < RELEASE_REDACT_MIN_LEN {
        return None;
      }
      SizeWithout(secrets, todo, name);
      total := total + |name| + |value|;
      if total > MAX_RELEASE_SECRET_BYTES {
        return None;
      }
      kept := kept[name := value];
      todo := todo - {name};
    }
    assert kept == secrets;
    return Some(kept);
  }

  /** What is accepted can be sourced again as it is. */
  lemma AcceptedRoundTrip(secrets: Secrets)
    requires Acceptable(secrets)
    ensures forall n :: n in Sorted(secrets.Keys) <==> n in secrets
    ensures Sourced(Text(secrets, Sorted(secrets.Keys))) == Some(Pairs(secrets, Sorted(secrets.Keys)))
  {
    hide Sorted, Text, Sourced, Pairs;
    SigningRoundTrip(secrets);
  }
}
