/**
 * The path-glob compiler (router.py). `_glob_re` writes a regular expression as text, character by
 * character. The text is read back here by a parser for the part of Python's syntax it uses, given
 * the usual meaning, and compared with what the globs say about a path's segments.
 */
module Glob {
  import opened Wrappers

  // ------------------------------------------------------------------ regular expressions

  datatype Class = Only(c: char) | Except(c: char)

  datatype Regex =
    | Empty
    | One(chars: Class)
    | Then(first: Regex, rest: Regex)
    | Many(body: Regex)
    | Maybe(body: Regex)

  predicate In(chars: Class, c: char) {
    match chars case Only(d) => c == d case Except(d) => c != d
  }

  /** `r` matches the whole of `s`. */
  predicate Matches(r: Regex, s: string)
    decreases r, |s|
  {
    match r
    case Empty => s == ""
    case One(chars) => |s| == 1 && In(chars, s[0])
    case Then(a, b) => exists k :: 0 <= k <= |s| && Matches(a, s[..k]) && Matches(b, s[k..])
    case Many(a) => s == "" || exists k :: 0 < k <= |s| && Matches(a, s[..k]) && Matches(r, s[k..])
    case Maybe(a) => s == "" || Matches(a, s)
  }

  const DOT := Except('\n')

  /** What Python's `re.escape` puts a backslash before. */
  predicate Escaped(c: char) { c in "()[]{}?*+-|^$\\.&~# \t\n\r\U{000b}\U{000c}" }

  /** Characters that do not stand for themselves in a pattern. */
  predicate Meta(c: char) { c in "()[]{}?*+|^$\\." }

  function Starts(s: string, prefix: string): (r: bool)
    ensures r ==> |prefix| <= |s| && s == prefix + s[|prefix|..]
  {
    prefix <= s
  }

  /** One atom at the start of `s`, and the text after it. */
  function ParseAtom(s: string): (r: Option<(Regex, string)>)
    ensures r.Some? ==> |r.value.1| < |s|
    decreases |s|, 0
  {
    if s == "" then None
    else if s[0] == '.' then Some((One(DOT), s[1..]))
    else if s[0] == '\\' then
      if |s| >= 2 && Escaped(s[1]) then Some((One(Only(s[1])), s[2..])) else None
    else if Starts(s, "[^") then
      if |s| >= 4 && s[2] !in "]\\[" && s[3] == ']' then Some((One(Except(s[2])), s[4..])) else None
    else if Starts(s, "(?:") then
      match ParseAll(s[3..]) {
        case None => None
        case Some((body, after)) => if after != "" then Some((body, after[1..])) else None
      }
    else if Meta(s[0]) then None
    else Some((One(Only(s[0])), s[1..]))
  }

  function Quantified(a: Regex, s: string): (r: (Regex, string))
    ensures |r.1| <= |s|
  {
    if s != "" && s[0] == '*' then (Many(a), s[1..])
    else if s != "" && s[0] == '?' then (Maybe(a), s[1..])
    else (a, s)
  }

  /** A run of quantified atoms, up to a closing bracket or the end. */
  function ParseAll(s: string): (r: Option<(Regex, string)>)
    ensures r.Some? ==> |r.value.1| <= |s| && (r.value.1 == "" || r.value.1[0] == ')')
    decreases |s|, 1
  {
    if s == "" || s[0] == ')' then Some((Empty, s))
    else
      match ParseAtom(s)
      case None => None
      case Some((a, s1)) =>
        var (q, s2) := Quantified(a, s1);
        match ParseAll(s2)
        case None => None
        case Some((rest, s3)) => Some((Then(q, rest), s3))
  }

  /** `^body$`, or nothing this parser knows. */
  function Parse(text: string): (r: Option<Regex>) {
    if |text| < 2 || text[0] != '^' || text[|text| - 1] != '$' then None
    else
      match ParseAll(text[1..|text| - 1])
      case None => None
      case Some((body, after)) => if after == "" then Some(body) else None
  }

  /** `re.compile(text).match(path)`: `$` also stands before a final newline. */
  predicate Accepts(text: string, path: string) {
    match Parse(text)
    case None => false
    case Some(body) =>
      || Matches(body, path)
      || (path != "" && path[|path| - 1] == '\n' && Matches(body, path[..|path| - 1]))
  }

  // ------------------------------------------------------------------ globs

  /** The pieces of a pattern; `Dirs` is a double star and its slash. */
  datatype Token = Lit(c: char) | InSegment | Anything | Dirs

  function Tokens(pattern: string): (r: seq<Token>)
  {
    if pattern == "" then []
    else if Starts(pattern, "**/") then [Dirs] + Tokens(pattern[3..])
    else if Starts(pattern, "**") then [Anything] + Tokens(pattern[2..])
    else if pattern[0] == '*' then [InSegment] + Tokens(pattern[1..])
    else [Lit(pattern[0])] + Tokens(pattern[1..])
  }

  function Escape(c: char): string { if Escaped(c) then ['\\', c] else [c] }

  function Emit(t: Token): string {
    match t
    case Dirs => "(?:.*/)?"
    case Anything => ".*"
    case InSegment => "[^/]*"
    case Lit(c) => Escape(c)
  }

  function Text(ts: seq<Token>): string { if ts == [] then "" else Emit(ts[0]) + Text(ts[1..]) }

  function Meaning(t: Token): Regex {
    match t
    case Dirs => Maybe(Then(Many(One(DOT)), Then(One(Only('/')), Empty)))
    case Anything => Many(One(DOT))
    case InSegment => Many(One(Except('/')))
    case Lit(c) => One(Only(c))
  }

  function Compiled(ts: seq<Token>): Regex { if ts == [] then Empty else Then(Meaning(ts[0]), Compiled(ts[1..])) }

  /** No piece starts with a character that would change the piece before it. */
  lemma TextStarts(ts: seq<Token>)
    ensures Text(ts) == "" || (Text(ts)[0] !in "*?)")
  {
    if ts != [] { assert Text(ts)[0] == Emit(ts[0])[0]; }
  }

  lemma ParseGroup(s: string)
    ensures ParseAll(".*/)?" + s) == Some((Then(Many(One(DOT)), Then(One(Only('/')), Empty)), ")?" + s))
  {
    var t := ".*/)?" + s;
    assert t[1..] == "*/)?" + s && t[1..][1..] == "/)?" + s;
    var u := "/)?" + s;
    assert u[1..] == ")?" + s;
    assert ParseAll(u[1..]) == Some((Empty, u[1..]));
    assert ParseAtom(u) == Some((One(Only('/')), u[1..]));
    assert ParseAll(u) == Some((Then(One(Only('/')), Empty), u[1..]));
    assert ParseAtom(t) == Some((One(DOT), t[1..]));
    assert Quantified(One(DOT), t[1..]) == (Many(One(DOT)), u);
  }

  lemma ParseDirs(s: string)
    ensures var text := Emit(Dirs) + s; ParseAtom(text) == Some((Meaning(Dirs).body, "?" + s))
  {
    var text := Emit(Dirs) + s;
    assert text[3..] == ".*/)?" + s;
    ParseGroup(s);
    hide ParseAll;
    assert (")?" + s)[1..] == "?" + s;
  }

  lemma ParsePiece(t: Token, s: string)
    requires s == "" || s[0] !in "*?)"
    ensures Emit(t) + s != "" && (Emit(t) + s)[0] != ')'
    ensures ParseAtom(Emit(t) + s).Some?
    ensures var (a, s1) := ParseAtom(Emit(t) + s).value; Quantified(a, s1) == (Meaning(t), s)
  {
    hide ParseAll;
    var text := Emit(t) + s;
    match t
    case Dirs =>
      ParseDirs(s);
      hide ParseAtom;
      assert ("?" + s)[1..] == s;
    case Anything =>
      assert text[1..] == "*" + s && ("*" + s)[1..] == s;
    case InSegment =>
      assert text[4..] == "*" + s && ("*" + s)[1..] == s;
    case Lit(c) =>
      if Escaped(c) { assert text[2..] == s; } else { assert text[0] == c && text[1..] == s; }
  }

  /** The text of any list of pieces reads back as what the pieces mean. */
  lemma {:induction false} ParseText(ts: seq<Token>)
    ensures ParseAll(Text(ts)) == Some((Compiled(ts), ""))
  {
    if ts != [] {
      ParseText(ts[1..]);
      TextStarts(ts[1..]);
      ParsePiece(ts[0], Text(ts[1..]));
    }
  }

  // ------------------------------------------------------------------ what a glob says

  predicate Plain(s: string) { '\n' !in s }

  /** A path's segments: what stands between its slashes. */
  function Split(s: string): (r: seq<string>)
    ensures |r| >= 1
    ensures forall i :: 0 <= i < |r| ==> '/' !in r[i]
  {
    if s == "" then [""]
    else
      var r := Split(s[1..]);
      if s[0] == '/' then [""] + r else [[s[0]] + r[0]] + r[1..]
  }

  function Join(segs: seq<string>): string
    requires |segs| >= 1
  {
    if |segs| == 1 then segs[0] else segs[0] + "/" + Join(segs[1..])
  }

  lemma {:induction false} JoinSplit(s: string)
    ensures Join(Split(s)) == s
  {
    if s != "" {
      JoinSplit(s[1..]);
      var r := Split(s[1..]);
      if s[0] == '/' {
        assert Split(s)[1..] == r;
      } else {
        assert Split(s)[1..] == r[1..];
      }
      assert s == [s[0]] + s[1..];
    }
  }

  /** What is left after `j` whole segments and `k` characters of the next. */
  function After(segs: seq<string>, j: nat, k: nat): (r: seq<string>)
    requires j < |segs| && k <= |segs[j]|
    ensures |r| == |segs| - j
  {
    [segs[j][k..]] + segs[j + 1..]
  }

  /**
   * The pieces accept the segments; `whole` says the first is untouched. A double star with its slash
   * drops whole directories: from the middle of one it drops nothing, unless `lenient` lets it drop
   * the rest of that one first.
   */
  predicate Fits(ts: seq<Token>, segs: seq<string>, whole: bool, lenient: bool)
    requires |segs| >= 1
    decreases |ts|
  {
    if ts == [] then segs == [""]
    else
      match ts[0]
      case Lit(c) =>
        if c == '/' then segs[0] == "" && |segs| > 1 && Fits(ts[1..], segs[1..], true, lenient)
        else segs[0] != "" && segs[0][0] == c && Fits(ts[1..], After(segs, 0, 1), false, lenient)
      case InSegment =>
        exists k: nat :: k <= |segs[0]| && Fits(ts[1..], After(segs, 0, k), whole && k == 0, lenient)
      case Anything =>
        exists j: nat, k: nat :: j < |segs| && k <= |segs[j]|
          && Fits(ts[1..], After(segs, j, k), k == 0 && (whole || j > 0), lenient)
      case Dirs =>
        exists j: nat :: j < |segs| && (j == 0 || whole || lenient)
          && Fits(ts[1..], After(segs, j, 0), whole || j > 0, lenient)
  }

  /** What the pattern says about a path, segment by segment. */
  predicate Glob(pattern: string, path: string, lenient: bool) {
    Fits(Tokens(pattern), Split(path), true, lenient)
  }

  /** Every double star with a slash starts a segment. */
  predicate StartsSegments(ts: seq<Token>, atStart: bool) {
    if ts == [] then true
    else
      && (ts[0] == Dirs ==> atStart)
      && StartsSegments(ts[1..], ts[0] == Dirs || ts[0] == Lit('/'))
  }

  // ------------------------------------------------------------------ suffixes and segments

  lemma AfterNothing(segs: seq<string>)
    requires |segs| >= 1
    ensures After(segs, 0, 0) == segs
  {}

  lemma AfterSlash(segs: seq<string>, j: nat, k: nat)
    requires j < |segs| && k <= |segs[j]|
    ensures After([""] + segs, j + 1, k) == After(segs, j, k)
  {}

  lemma AfterChar(c: char, segs: seq<string>, j: nat, k: nat)
    requires j < |segs| && k <= |segs[j]|
    ensures var all := [[c] + segs[0]] + segs[1..];
            if j == 0 then After(all, 0, k + 1) == After(segs, 0, k) else After(all, j, k) == After(segs, j, k)
  {
    var all := [[c] + segs[0]] + segs[1..];
    assert all[j + 1..] == segs[j + 1..];
    if j == 0 { assert all[0][k + 1..] == segs[0][k..]; }
  }

  lemma {:induction false} SuffixIsAfter(s: string, i: nat) returns (j: nat, k: nat)
    requires i <= |s|
    ensures j < |Split(s)| && k <= |Split(s)[j]| && Split(s[i..]) == After(Split(s), j, k)
    ensures '/' !in s[..i] ==> j == 0 && k == i
    ensures i > 0 && s[i - 1] == '/' ==> k == 0 && j > 0
    ensures i == 0 ==> j == 0 && k == 0
    decreases |s|
  {
    hide After;
    if i == 0 {
      j, k := 0, 0;
      assert s[0..] == s;
      AfterNothing(Split(s));
    } else {
      j, k := SuffixIsAfter(s[1..], i - 1);
      assert s[1..][i - 1..] == s[i..] && s[..i] == [s[0]] + s[1..][..i - 1];
      if s[0] == '/' {
        AfterSlash(Split(s[1..]), j, k);
        j := j + 1;
      } else {
        AfterChar(s[0], Split(s[1..]), j, k);
        if j == 0 { k := k + 1; }
      }
    }
  }

  lemma {:induction false} AfterIsSuffix(s: string, j: nat, k: nat) returns (i: nat)
    requires j < |Split(s)| && k <= |Split(s)[j]|
    ensures i <= |s| && Split(s[i..]) == After(Split(s), j, k)
    ensures j == 0 ==> i == k && '/' !in s[..i]
    ensures j > 0 && k == 0 ==> i > 0 && s[i - 1] == '/'
    decreases |s|
  {
    hide After;
    if j == 0 && k == 0 {
      i := 0;
      assert s[0..] == s;
      AfterNothing(Split(s));
    } else {
      var j', k' := if s[0] == '/' then j - 1 else j, if s[0] != '/' && j == 0 then k - 1 else k;
      i := AfterIsSuffix(s[1..], j', k');
      if s[0] == '/' { AfterSlash(Split(s[1..]), j', k'); } else { AfterChar(s[0], Split(s[1..]), j', k'); }
      assert s[1..][i..] == s[i + 1..] && s[..i + 1] == [s[0]] + s[1..][..i];
      i := i + 1;
    }
  }

  // ------------------------------------------------------------------ what the pieces match

  predicate AllIn(chars: Class, s: string) { forall i :: 0 <= i < |s| ==> In(chars, s[i]) }

  lemma {:induction false} ManyOfClass(chars: Class, s: string)
    ensures Matches(Many(One(chars)), s) <==> AllIn(chars, s)
    decreases |s|
  {
    var r := Many(One(chars));
    if s != "" {
      ManyOfClass(chars, s[1..]);
      if Matches(r, s) {
        var k :| 0 < k <= |s| && Matches(One(chars), s[..k]) && Matches(r, s[k..]);
        assert s[..k][0] == s[0];
        forall i | 0 <= i < |s| ensures In(chars, s[i]) {
          if i > 0 { assert s[1..][i - 1] == s[i]; }
        }
      }
      if AllIn(chars, s) {
        assert forall i :: 0 <= i < |s| - 1 ==> s[1..][i] == s[i + 1];
        assert Matches(One(chars), s[..1]);
      }
    }
  }

  lemma SlashTakes(u: string)
    ensures Matches(Then(One(Only('/')), Empty), u) <==> u == "/"
  {
    var slash := Then(One(Only('/')), Empty);
    if Matches(slash, u) {
      var k :| 0 <= k <= |u| && Matches(One(Only('/')), u[..k]) && Matches(Empty, u[k..]);
      assert u == u[..k] + u[k..];
    }
    if u == "/" { assert u[..1] == "/" && u[1..] == ""; }
  }

  lemma UpToSlash(s: string)
    requires Plain(s)
    ensures Matches(Then(Many(One(DOT)), Then(One(Only('/')), Empty)), s) <==> s != "" && s[|s| - 1] == '/'
  {
    var slash := Then(One(Only('/')), Empty);
    if k :| 0 <= k <= |s| && Matches(Many(One(DOT)), s[..k]) && Matches(slash, s[k..]) {
      SlashTakes(s[k..]);
      assert s[|s| - 1] == s[k..][0];
    }
    if s != "" && s[|s| - 1] == '/' {
      var k := |s| - 1;
      ManyOfClass(DOT, s[..k]);
      assert AllIn(DOT, s[..k]);
      SlashTakes(s[k..]);
      assert s[k..] == "/";
    }
  }

  /** `(?:.*` `/)?` takes nothing, or anything up to a slash. */
  lemma DirsTake(s: string)
    requires Plain(s)
    ensures Matches(Meaning(Dirs), s) <==> s == "" || s[|s| - 1] == '/'
  {
    UpToSlash(s);
  }

  /** The first piece takes `s[..i]`. */
  predicate Takes(t: Token, s: string, i: nat)
    requires i <= |s|
  {
    match t
    case Lit(c) => i == 1 && s[0] == c
    case InSegment => '/' !in s[..i]
    case Anything => true
    case Dirs => i == 0 || s[i - 1] == '/'
  }

  lemma TakesIsMatch(t: Token, s: string, i: nat)
    requires i <= |s| && Plain(s)
    ensures Matches(Meaning(t), s[..i]) <==> Takes(t, s, i)
  {
    match t
    case Lit(c) => if i >= 1 { assert s[..i][0] == s[0]; }
    case InSegment =>
      ManyOfClass(Except('/'), s[..i]);
    case Anything =>
      ManyOfClass(DOT, s[..i]);
    case Dirs => DirsTake(s[..i]);
  }

  lemma CompiledStep(ts: seq<Token>, s: string)
    requires ts != [] && Plain(s)
    ensures Matches(Compiled(ts), s) <==> exists i: nat :: i <= |s| && Takes(ts[0], s, i) && Matches(Compiled(ts[1..]), s[i..])
  {
    ThenMatches(Meaning(ts[0]), Compiled(ts[1..]), s);
    hide Matches, Takes, Plain;
    forall i: nat | i <= |s| ensures Matches(Meaning(ts[0]), s[..i]) <==> Takes(ts[0], s, i) {
      TakesIsMatch(ts[0], s, i);
    }
  }

  lemma ThenMatches(a: Regex, b: Regex, s: string)
    ensures Matches(Then(a, b), s) <==> exists k: nat :: k <= |s| && Matches(a, s[..k]) && Matches(b, s[k..])
  {
    if k: nat :| k <= |s| && Matches(a, s[..k]) && Matches(b, s[k..]) {}
  }

  /** When the rest of a directory may be dropped, it does not matter whether it was begun. */
  lemma {:induction false} WholeIsIdle(ts: seq<Token>, segs: seq<string>, whole: bool)
    requires |segs| >= 1
    ensures Fits(ts, segs, whole, true) <==> Fits(ts, segs, false, true)
    decreases |ts|
  {
    if ts != [] {
      forall rest: seq<string>, w: bool | |rest| >= 1
        ensures Fits(ts[1..], rest, w, true) <==> Fits(ts[1..], rest, false, true)
      {
        WholeIsIdle(ts[1..], rest, w);
      }
    }
  }

  /** Taking a suffix of the path and taking segments away are one thing. */
  lemma {:induction false} FitsStep(ts: seq<Token>, s: string)
    requires ts != []
    ensures Fits(ts, Split(s), false, true)
      <==> exists i: nat :: i <= |s| && Takes(ts[0], s, i) && Fits(ts[1..], Split(s[i..]), false, true)
  {
    var segs := Split(s);
    forall rest: seq<string>, w: bool | |rest| >= 1
      ensures Fits(ts[1..], rest, w, true) <==> Fits(ts[1..], rest, false, true)
    {
      WholeIsIdle(ts[1..], rest, w);
    }
    if i: nat :| i <= |s| && Takes(ts[0], s, i) && Fits(ts[1..], Split(s[i..]), false, true) {
      StepFits(ts, s, i);
    }
    if Fits(ts, segs, false, true) {
      var i := FitsTakes(ts, s);
    }
  }

  lemma {:induction false} StepFits(ts: seq<Token>, s: string, i: nat)
    requires ts != [] && i <= |s| && Takes(ts[0], s, i) && Fits(ts[1..], Split(s[i..]), false, true)
    ensures Fits(ts, Split(s), false, true)
  {
    var segs, rest := Split(s), Split(s[i..]);
    var j, k := SuffixIsAfter(s, i);
    WholeIsIdle(ts[1..], rest, k == 0 && j > 0);
    WholeIsIdle(ts[1..], rest, true);
    match ts[0]
    case Lit(c) => assert segs[1..] == segs[0 + 1..];
    case InSegment => assert rest == After(segs, 0, i);
    case Anything => assert rest == After(segs, j, k);
    case Dirs => assert rest == After(segs, j, 0);
  }

  lemma {:induction false} FitsTakes(ts: seq<Token>, s: string) returns (i: nat)
    requires ts != [] && Fits(ts, Split(s), false, true)
    ensures i <= |s| && Takes(ts[0], s, i) && Fits(ts[1..], Split(s[i..]), false, true)
  {
    var segs := Split(s);
    var j: nat, k: nat, w := 0, 0, false;
    match ts[0]
    case Lit(c) =>
      i := 1;
      assert s != "";
      if c != '/' { i := AfterIsSuffix(s, 0, 1); } else { WholeIsIdle(ts[1..], segs[1..], true); }
    case InSegment =>
      k :| k <= |segs[0]| && Fits(ts[1..], After(segs, 0, k), false, true);
      i := AfterIsSuffix(s, 0, k);
    case Anything =>
      j, k :| j < |segs| && k <= |segs[j]| && Fits(ts[1..], After(segs, j, k), k == 0 && (false || j > 0), true);
      WholeIsIdle(ts[1..], After(segs, j, k), k == 0 && j > 0);
      i := AfterIsSuffix(s, j, k);
    case Dirs =>
      j :| j < |segs| && Fits(ts[1..], After(segs, j, 0), false || j > 0, true);
      WholeIsIdle(ts[1..], After(segs, j, 0), j > 0);
      i := AfterIsSuffix(s, j, 0);
  }

  /** On every pattern the regular expression is the lenient reading of the glob. */
  lemma {:induction false} CompiledIsLenient(ts: seq<Token>, s: string)
    requires Plain(s)
    ensures Matches(Compiled(ts), s) <==> Fits(ts, Split(s), true, true)
    decreases |ts|
  {
    if ts != [] {
      CompiledStep(ts, s);
      FitsStep(ts, s);
      WholeIsIdle(ts, Split(s), true);
      forall i: nat | i <= |s|
        ensures Matches(Compiled(ts[1..]), s[i..]) <==> Fits(ts[1..], Split(s[i..]), false, true)
      {
        CompiledIsLenient(ts[1..], s[i..]);
        WholeIsIdle(ts[1..], Split(s[i..]), true);
      }
    }
  }

  /** Where every double star with a slash starts a segment, the two readings are one. */
  lemma {:induction false} ReadingsAgree(ts: seq<Token>, segs: seq<string>, whole: bool, atStart: bool)
    requires |segs| >= 1 && StartsSegments(ts, atStart) && (atStart ==> whole)
    ensures Fits(ts, segs, whole, false) <==> Fits(ts, segs, whole, true)
    decreases |ts|
  {
    if ts != [] {
      var next := ts[0] == Dirs || ts[0] == Lit('/');
      forall rest: seq<string>, w: bool | |rest| >= 1 && (next ==> w)
        ensures Fits(ts[1..], rest, w, false) <==> Fits(ts[1..], rest, w, true)
      {
        ReadingsAgree(ts[1..], rest, w, next);
      }
    }
  }

  /** The strict reading never accepts more. */
  lemma {:induction false} StrictIsNarrower(ts: seq<Token>, segs: seq<string>, whole: bool)
    requires |segs| >= 1 && Fits(ts, segs, whole, false)
    ensures Fits(ts, segs, whole, true)
    decreases |ts|
  {
    if ts != [] {
      forall rest: seq<string>, w: bool | |rest| >= 1 && Fits(ts[1..], rest, w, false)
        ensures Fits(ts[1..], rest, w, true)
      {
        StrictIsNarrower(ts[1..], rest, w);
      }
    }
  }

  // ------------------------------------------------------------------ the compiler

  /** The compiled text accepts what the glob says, for every pattern and every one-line path. */
  lemma GlobKeepsMeaning(pattern: string, path: string)
    requires Plain(path)
    ensures var text := "^" + Text(Tokens(pattern)) + "$";
            && (Accepts(text, path) <==> Glob(pattern, path, true))
            && (StartsSegments(Tokens(pattern), true) ==> (Accepts(text, path) <==> Glob(pattern, path, false)))
            && (Glob(pattern, path, false) ==> Accepts(text, path))
  {
    var ts := Tokens(pattern);
    var text := "^" + Text(ts) + "$";
    assert text[1..|text| - 1] == Text(ts);
    ParseText(ts);
    CompiledIsLenient(ts, path);
    if StartsSegments(ts, true) { ReadingsAgree(ts, Split(path), true, true); }
    if Glob(pattern, path, false) { StrictIsNarrower(ts, Split(path), true); }
  }

  /** The end of the text stands before a final newline too: such a path is accepted with every one-line path it ends. */
  lemma NewlineAfter(pattern: string, path: string)
    requires Plain(path) && Glob(pattern, path, true)
    ensures Accepts("^" + Text(Tokens(pattern)) + "$", path + "\n")
  {
    GlobKeepsMeaning(pattern, path);
    hide Glob, Text, Tokens, Parse, Matches;
    assert (path + "\n")[..|path + "\n"| - 1] == path;
  }

  lemma MidSegmentPieces()
    ensures Tokens("a**/b") == [Lit('a'), Dirs, Lit('b')]
  {
    var p := "a**/b";
    assert p[1..] == "**/b" && p[1..][3..] == "b" && "b"[1..] == "";
    assert Tokens("b") == [Lit('b')];
    assert Tokens("**/b") == [Dirs] + [Lit('b')];
    assert Tokens(p) == [Lit('a')] + [Dirs, Lit('b')];
  }

  lemma MidSegmentPath()
    ensures Split("ax/b") == ["ax", "b"]
  {
    var s := "ax/b";
    assert s[1..] == "x/b" && s[1..][1..] == "/b" && s[1..][1..][1..] == "b" && "b"[1..] == "";
    assert Split("") == [""] && ['b'] + "" == "b" && ['x'] + "" == "x" && ['a'] + "x" == "ax";
    assert Split("b") == ["b"];
    assert Split("/b") == ["", "b"];
    assert Split("x/b") == ["x", "b"];
  }

  /** Why the pattern matters: in the middle of a name the expression takes the rest of the directory. */
  lemma MidSegmentDiffers()
    ensures !StartsSegments(Tokens("a**/b"), true)
    ensures Accepts("^" + Text(Tokens("a**/b")) + "$", "ax/b")
    ensures !Glob("a**/b", "ax/b", false)
  {
    MidSegmentPieces();
    MidSegmentPath();
    hide Tokens, Split, Accepts, Text, Fits, StartsSegments;
    MidSegmentFits();
    GlobKeepsMeaning("a**/b", "ax/b");
  }

  lemma MidSegmentFits()
    ensures var ts := [Lit('a'), Dirs, Lit('b')];
            !StartsSegments(ts, true) && Fits(ts, ["ax", "b"], true, true) && !Fits(ts, ["ax", "b"], true, false)
  {
    var ts := [Lit('a'), Dirs, Lit('b')];
    assert ts[1..] == [Dirs, Lit('b')] && After(["ax", "b"], 0, 1) == ["x", "b"];
    LetterStep(ts, ["ax", "b"], true);
    LetterStep(ts, ["ax", "b"], false);
    hide Fits;
    MidSegmentRest();
  }

  lemma LetterStep(ts: seq<Token>, segs: seq<string>, lenient: bool)
    requires ts != [] && ts[0].Lit? && ts[0].c != '/' && |segs| >= 1 && segs[0] != "" && segs[0][0] == ts[0].c
    ensures Fits(ts, segs, true, lenient) <==> Fits(ts[1..], After(segs, 0, 1), false, lenient)
  {}

  lemma MidSegmentRest()
    ensures Fits([Dirs, Lit('b')], ["x", "b"], false, true) && !Fits([Dirs, Lit('b')], ["x", "b"], false, false)
  {
    var rest := ["x", "b"];
    assert After(rest, 1, 0) == ["b"] && After(rest, 0, 0) == rest && [Dirs, Lit('b')][1..] == [Lit('b')];
    LastPiece(["b"], true, true);
    LastPiece(rest, false, false);
  }

  lemma LastPiece(segs: seq<string>, whole: bool, lenient: bool)
    requires |segs| >= 1
    ensures Fits([Lit('b')], segs, whole, lenient) <==> segs == ["b"]
  {
    if segs[0] != "" {
      var after := After(segs, 0, 1);
      assert after[0] == segs[0][1..] && segs[0] == [segs[0][0]] + segs[0][1..] && |after| == |segs|;
      if after == [""] && segs[0][0] == 'b' { assert segs[0] == "b" && segs == ["b"]; }
      if segs == ["b"] { assert after == [""]; }
    }
  }

  /** `pattern.startswith(prefix, i)`. */
  predicate StartsAt(pattern: string, i: nat, prefix: string) {
    i + |prefix| <= |pattern| && pattern[i..i + |prefix|] == prefix
  }

  function TextFrom(pattern: string, i: nat): string {
    if i <= |pattern| then Text(Tokens(pattern[i..])) else ""
  }

  /** What one turn of the loop writes, and how far it moves. */
  lemma TextUnfolds(pattern: string, i: nat)
    requires i < |pattern|
    ensures StartsAt(pattern, i, "**/") ==> TextFrom(pattern, i) == "(?:.*/)?" + TextFrom(pattern, i + 3)
    ensures !StartsAt(pattern, i, "**/") && StartsAt(pattern, i, "**")
      ==> TextFrom(pattern, i) == ".*" + TextFrom(pattern, i + 2)
    ensures !StartsAt(pattern, i, "**") && pattern[i] == '*' ==> TextFrom(pattern, i) == "[^/]*" + TextFrom(pattern, i + 1)
    ensures pattern[i] != '*' ==> TextFrom(pattern, i) == Escape(pattern[i]) + TextFrom(pattern, i + 1)
    ensures StartsAt(pattern, i, "**/") ==> i + 3 <= |pattern|
    ensures StartsAt(pattern, i, "**") ==> i + 2 <= |pattern|
    ensures StartsAt(pattern, i, "**/") || StartsAt(pattern, i, "**") ==> pattern[i] == '*'
  {
    var rest := pattern[i..];
    if StartsAt(pattern, i, "**/") {
      assert rest[..3] == pattern[i..i + 3] && rest == "**/" + rest[3..] && Starts(rest, "**/");
      assert rest[3..] == pattern[i + 3..];
    } else {
      if StartsAt(pattern, i, "**") {
        assert rest[..2] == pattern[i..i + 2] && rest == "**" + rest[2..] && Starts(rest, "**");
        assert rest[2..] == pattern[i + 2..];
      } else {
        assert rest[1..] == pattern[i + 1..];
      }
    }
  }

  lemma TextEnds(pattern: string)
    ensures TextFrom(pattern, 0) == Text(Tokens(pattern)) && TextFrom(pattern, |pattern|) == ""
  {
    assert pattern[0..] == pattern && pattern[|pattern|..] == "";
  }

  /** `_glob_re`, up to `re.compile`. */
  method GlobRe(pattern: string) returns (text: string)
    ensures forall path :: Plain(path) ==> (Accepts(text, path) <==> Glob(pattern, path, true))
    ensures StartsSegments(Tokens(pattern), true)
      ==> forall path :: Plain(path) ==> (Accepts(text, path) <==> Glob(pattern, path, false))
  {
    hide TextFrom, StartsAt, Escape, Accepts, Glob, StartsSegments, Plain, Tokens, Text;
    var out, i := "", 0;
    while i < |pattern|
      invariant i <= |pattern|
      invariant out + TextFrom(pattern, i) == TextFrom(pattern, 0)
    {
      TextUnfolds(pattern, i);
      if StartsAt(pattern, i, "**/") {
        out, i := out + "(?:.*/)?", i + 3;
      } else if StartsAt(pattern, i, "**") {
        out, i := out + ".*", i + 2;
      } else if pattern[i] == '*' {
        out, i := out + "[^/]*", i + 1;
      } else {
        out, i := out + Escape(pattern[i]), i + 1;
      }
    }
    TextEnds(pattern);
    assert out == out + "" == Text(Tokens(pattern));
    text := "^" + out + "$";
    forall path | Plain(path)
      ensures Accepts(text, path) <==> Glob(pattern, path, true)
      ensures StartsSegments(Tokens(pattern), true) ==> (Accepts(text, path) <==> Glob(pattern, path, false))
    {
      GlobKeepsMeaning(pattern, path);
    }
  }

  // ------------------------------------------------------------------ the profile's paths

  /** A double star and a slash stand only at the start of the pattern or after a slash. */
  predicate SegmentGlob(pattern: string, atStart: bool) {
    forall i: nat :: i < |pattern| && StartsAt(pattern, i, "**/") ==> if i == 0 then atStart else pattern[i - 1] == '/'
  }

  lemma DropKeeps(pattern: string, n: nat, atStart: bool, next: bool)
    requires 0 < n <= |pattern| && SegmentGlob(pattern, atStart)
    requires pattern[n - 1] == '/' ==> next
    ensures SegmentGlob(pattern[n..], next)
  {
    var rest := pattern[n..];
    forall i: nat | StartsAt(rest, i, "**/") ensures if i == 0 then next else rest[i - 1] == '/' {
      assert pattern[i + n..i + n + 3] == rest[i..i + 3];
      assert StartsAt(pattern, i + n, "**/");
    }
  }

  /** A pattern can be checked on its text. */
  lemma {:induction false} SegmentGlobStarts(pattern: string, atStart: bool)
    requires SegmentGlob(pattern, atStart)
    ensures StartsSegments(Tokens(pattern), atStart)
    decreases |pattern|
  {
    if pattern != "" {
      if Starts(pattern, "**/") {
        assert pattern[0..3] == "**/" && StartsAt(pattern, 0, "**/");
        DropKeeps(pattern, 3, atStart, true);
        SegmentGlobStarts(pattern[3..], true);
      } else if Starts(pattern, "**") {
        DropKeeps(pattern, 2, atStart, false);
        SegmentGlobStarts(pattern[2..], false);
      } else {
        var next := pattern[0] == '/';
        DropKeeps(pattern, 1, atStart, next);
        SegmentGlobStarts(pattern[1..], next);
      }
    }
  }

  const PROFILE_PATHS := [
    "package.json", "**/package.json", "pnpm-lock.yaml", "package-lock.json", "yarn.lock", "pyproject.toml",
    "requirements*.txt", "go.mod", "Cargo.toml", "pom.xml", "build.gradle*", "Gemfile", "composer.json",
    "Makefile", "Dockerfile", "docker-compose*.yml", ".github/workflows/**"]

  predicate NoSlashStar(pattern: string) {
    forall i :: 0 <= i < |pattern| - 2 ==> !(pattern[i] == '*' && pattern[i + 1] == '*' && pattern[i + 2] == '/')
  }

  lemma StarsAndSlash(pattern: string, i: nat)
    requires StartsAt(pattern, i, "**/")
    ensures i + 2 < |pattern| && pattern[i] == '*' && pattern[i + 1] == '*' && pattern[i + 2] == '/'
  {
    var w := pattern[i..i + 3];
    assert pattern[i] == w[0] && pattern[i + 1] == w[1] && pattern[i + 2] == w[2];
  }

  lemma NoSlashStarIsFine(pattern: string, atStart: bool)
    requires NoSlashStar(pattern)
    ensures SegmentGlob(pattern, atStart)
  {
    if !SegmentGlob(pattern, atStart) {
      var i: nat :| i < |pattern| && StartsAt(pattern, i, "**/");
      StarsAndSlash(pattern, i);
    }
  }

  lemma DirsThenPlainIsFine(rest: string)
    requires NoSlashStar(rest) && rest != "" && rest[0] != '*' && rest[0] != '/'
    ensures SegmentGlob("**/" + rest, true)
  {
    var p := "**/" + rest;
    assert p[3..] == rest;
    if !SegmentGlob(p, true) {
      var i: nat :| i < |p| && StartsAt(p, i, "**/") && i > 0;
      StarsAndSlash(p, i);
    }
  }

  lemma PlainPathsAreFine()
    ensures NoSlashStar("package.json") && NoSlashStar("pnpm-lock.yaml") && NoSlashStar("package-lock.json")
    ensures NoSlashStar("yarn.lock") && NoSlashStar("pyproject.toml") && NoSlashStar("go.mod") && NoSlashStar("Cargo.toml")
    ensures NoSlashStar("pom.xml") && NoSlashStar("Gemfile") && NoSlashStar("composer.json") && NoSlashStar("Makefile")
    ensures NoSlashStar("Dockerfile")
  {}

  lemma StarPathsAreFine()
    ensures NoSlashStar("requirements*.txt") && NoSlashStar("build.gradle*")
    ensures NoSlashStar("docker-compose*.yml") && NoSlashStar(".github/workflows/**")
  {}

  lemma ProfilePathsAreFine(k: nat)
    requires k < |PROFILE_PATHS|
    ensures SegmentGlob(PROFILE_PATHS[k], true)
  {
    hide NoSlashStar, SegmentGlob;
    PlainPathsAreFine();
    StarPathsAreFine();
    if k == 1 {
      DirsThenPlainIsFine("package.json");
      assert PROFILE_PATHS[1] == "**/" + "package.json";
    } else {
      NoSlashStarIsFine(PROFILE_PATHS[k], true);
    }
  }

  /** The profile's compiled patterns mean what their globs say, on every one-line path. */
  lemma ProfilePathsMean(k: nat, path: string)
    requires k < |PROFILE_PATHS| && Plain(path)
    ensures Accepts("^" + Text(Tokens(PROFILE_PATHS[k])) + "$", path) <==> Glob(PROFILE_PATHS[k], path, false)
  {
    ProfilePathsAreFine(k);
    SegmentGlobStarts(PROFILE_PATHS[k], true);
    GlobKeepsMeaning(PROFILE_PATHS[k], path);
  }

  lemma {:induction false} PlainName(name: string, segs: seq<string>, whole: bool, lenient: bool)
    requires '*' !in name && '/' !in name && |segs| >= 1
    ensures Fits(Tokens(name), segs, whole, lenient) <==> segs == [name]
    decreases |name|
  {
    if name != "" {
      if segs[0] != "" {
        var after := After(segs, 0, 1);
        PlainName(name[1..], after, false, lenient);
        assert after[0] == segs[0][1..] && segs[0] == [segs[0][0]] + segs[0][1..] && name == [name[0]] + name[1..];
        if after == [name[1..]] && segs[0][0] == name[0] { assert segs == [segs[0]]; }
        if segs == [name] { assert after == [name[1..]]; }
      }
    }
  }

  /** `**` `/name` is the file of that name in any directory. */
  lemma AnyDirectory(name: string, path: string)
    requires '*' !in name && '/' !in name && Plain(path)
    ensures Accepts("^" + Text(Tokens("**/" + name)) + "$", path) <==> Split(path)[|Split(path)| - 1] == name
  {
    var pattern, segs := "**/" + name, Split(path);
    assert pattern[3..] == name && Starts(pattern, "**/");
    var ts := Tokens(pattern);
    assert ts[0] == Dirs && ts[1..] == Tokens(name);
    forall j: nat | j < |segs| ensures Fits(ts[1..], After(segs, j, 0), true, true) <==> j == |segs| - 1 && segs[j] == name {
      PlainName(name, After(segs, j, 0), true, true);
      assert segs[j][0..] == segs[j];
    }
    GlobKeepsMeaning(pattern, path);
  }
}
