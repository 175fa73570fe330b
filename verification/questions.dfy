/**
 * The question list of a blocking comment (next_step.py): printed as a numbered list under a head,
 * read back from whatever a person sees of a comment. Regular expressions are written out as the
 * scans they make; each has only one way to match.
 */
module Questions {
  import opened Sequences
  import opened Wrappers

  const MAX_QUESTIONS := 8

  // ------------------------------------------------------------------ characters

  /** Python's white space, for `\s` and `strip` alike. */
  predicate Space(c: char) {
    || '\t' <= c <= '\r'
    || '\U{1c}' <= c <= ' '
    || c == '\U{85}' || c == '\U{a0}' || c == '\U{1680}' || c == '\U{2028}' || c == '\U{2029}' || c == '\U{202f}'
    || c == '\U{205f}' || c == '\U{3000}'
    || '\U{2000}' <= c <= '\U{200a}'
  }

  /** Where `splitlines` ends a line. */
  predicate Break(c: char) { '\n' <= c <= '\r' || '\U{1c}' <= c <= '\U{1e}' || c == '\U{85}' || c == '\U{2028}' || c == '\U{2029}' }

  predicate Star(c: char) { c == '*' }

  /** Lower case as `re.IGNORECASE` compares it with a letter a to z. */
  function Fold(c: char): char {
    if 'A' <= c <= 'Z' then c - 'A' + 'a'
    else if c == '\U{17f}' then 's'
    else if c == '\U{130}' || c == '\U{131}' then 'i'
    else if c == '\U{212a}' then 'k'
    else c
  }

  predicate OneLine(s: string) { forall i :: 0 <= i < |s| ==> !Break(s[i]) }

  // ------------------------------------------------------------------ strings

  /** `x` stands at place `i`, in whatever case. */
  predicate At(s: string, i: nat, x: string) {
    i + |x| <= |s| && forall k :: 0 <= k < |x| ==> Fold(s[i + k]) == x[k]
  }

  predicate Has(s: string, x: string) { exists i: nat :: i <= |s| && At(s, i, x) }

  function Find(s: string, x: string): (r: Option<nat>)
    ensures r.Some? ==> At(s, r.value, x)
    ensures r.None? ==> !Has(s, x)
  {
    if At(s, 0, x) then Some(0)
    else if s == "" then None
    else
      match Find(s[1..], x)
      case Some(i) => Some(i + 1)
      case None =>
        assert forall i: nat :: At(s, i, x) ==> i > 0 && At(s[1..], i - 1, x);
        None
  }

  /** `s` without what `\s*` or the like takes at its start. */
  function Drop(p: char -> bool, s: string): (r: string)
    ensures r != "" ==> !p(r[0])
  {
    if s != "" && p(s[0]) then Drop(p, s[1..]) else s
  }

  predicate Trimmed(p: char -> bool, s: string) { s == "" || (!p(s[0]) && !p(s[|s| - 1])) }

  /** `str.strip`. */
  function Strip(p: char -> bool, s: string): (r: string)
    ensures Trimmed(p, r) && PartOf(r, s)
    ensures Trimmed(p, s) ==> r == s
    decreases |s|
  {
    Slice(s, 0, |s|);
    if s == "" then s
    else if p(s[0]) then Slice(s, 1, |s|); PartOfPart(Strip(p, s[1..]), s[1..], s); Strip(p, s[1..])
    else if p(s[|s| - 1]) then
      Slice(s, 0, |s| - 1);
      PartOfPart(Strip(p, s[..|s| - 1]), s[..|s| - 1], s);
      Strip(p, s[..|s| - 1])
    else s
  }

  predicate PartOf(a: string, s: string) { exists i, j :: 0 <= i <= j <= |s| && a == s[i..j] }

  lemma Slice(s: string, i: nat, j: nat)
    requires i <= j <= |s|
    ensures PartOf(s[i..j], s) && s[0..j] == s[..j] && s[i..|s|] == s[i..] && PartOf(s, s)
  {
    assert s == s[0..|s|];
  }

  lemma PartOfPart(a: string, b: string, s: string)
    requires PartOf(b, s)
    ensures PartOf(a, b) ==> PartOf(a, s)
  {
    if PartOf(a, b) {
      var i, j :| 0 <= i <= j <= |s| && b == s[i..j];
      var k, l :| 0 <= k <= l <= |b| && a == b[k..l];
      SliceOfSlice(s, i, j, k, l);
      Slice(s, i + k, i + l);
    }
  }

  lemma PartIsOneLine(a: string, s: string)
    requires PartOf(a, s) && OneLine(s)
    ensures OneLine(a)
  {}

  lemma {:induction false} DropIsSuffix(p: char -> bool, s: string)
    ensures |Drop(p, s)| <= |s| && Drop(p, s) == s[|s| - |Drop(p, s)|..]
  {
    if s != "" && p(s[0]) { DropIsSuffix(p, s[1..]); }
  }

  lemma DropIsPart(p: char -> bool, s: string)
    ensures PartOf(Drop(p, s), s)
  {
    DropIsSuffix(p, s);
    hide Drop;
    Slice(s, |s| - |Drop(p, s)|, |s|);
  }

  // ------------------------------------------------------------------ what a person sees

  datatype Mark = Mark(open: string, close: string)

  const FOLD_MARK := Mark("<details>", "</details>")
  const CODE_MARK := Mark("```", "```")
  const COMMENT_MARK := Mark("<!--", "-->")

  /** How much one match at the start of `s` takes; nothing when there is none. */
  function Match(s: string, m: Mark): (n: nat)
    requires m.open != ""
    ensures n <= |s|
  {
    if At(s, 0, m.open) && Find(s[|m.open|..], m.close).Some? then
      |m.open| + Find(s[|m.open|..], m.close).value + |m.close|
    else 0
  }

  /** `re.sub(open[\s\S]*?close, " ", s)`. */
  function Cut(s: string, m: Mark): string
    requires m.open != ""
  {
    if s == "" then ""
    else if Match(s, m) > 0 then " " + Cut(s[Match(s, m)..], m)
    else [s[0]] + Cut(s[1..], m)
  }

  function Visible(body: string): string { Cut(Cut(Cut(body, FOLD_MARK), CODE_MARK), COMMENT_MARK) }

  // ------------------------------------------------------------------ lines

  function LineEnd(s: string): (n: nat)
    ensures n <= |s| && OneLine(s[..n]) && (n < |s| ==> Break(s[n]))
  {
    if s == "" || Break(s[0]) then 0 else 1 + LineEnd(s[1..])
  }

  /** Where the next line starts: a carriage return and a line feed end one line together. */
  function AfterBreak(s: string, n: nat): (b: nat)
    requires n < |s|
    ensures n < b <= |s|
  {
    if s[n] == '\r' && n + 1 < |s| && s[n + 1] == '\n' then n + 2 else n + 1
  }

  /** `str.splitlines`. */
  function Lines(s: string): (r: seq<string>)
    ensures forall l :: l in r ==> OneLine(l)
    decreases |s|
  {
    if s == "" then []
    else
      var n := LineEnd(s);
      if n == |s| then [s[..n]]
      else [s[..n]] + Lines(s[AfterBreak(s, n)..])
  }

  function Digits(s: string): (n: nat)
    ensures n <= |s|
  {
    if s == "" || !Digit(s[0]) then 0 else 1 + Digits(s[1..])
  }

  /** How long the list marker at the start is: a number with a dot or bracket, a dash or a star. */
  function MarkerLength(s: string): (k: nat)
    ensures k <= |s|
  {
    var n := Digits(s);
    if n > 0 then (if n < |s| && (s[n] == '.' || s[n] == ')') then n + 1 else 0)
    else if s != "" && (s[0] == '-' || s[0] == '*') then 1
    else 0
  }

  /** What follows a list marker and its white space. */
  function AfterMarker(s: string): (r: Option<string>)
    ensures r.Some? ==> PartOf(r.value, s)
    ensures r.Some? && r.value != "" ==> !Space(r.value[0]) && r.value[|r.value| - 1] == s[|s| - 1]
  {
    var k := MarkerLength(s);
    if k == 0 || k == |s| || !Space(s[k]) then None
    else
      DropTail(s, k);
      Some(Drop(Space, s[k..]))
  }

  lemma DropTail(s: string, k: nat)
    requires k <= |s|
    ensures var r := Drop(Space, s[k..]);
            PartOf(r, s) && (r != "" ==> !Space(r[0]) && r[|r| - 1] == s[|s| - 1])
  {
    hide Space;
    var r := Drop(Space, s[k..]);
    DropIsSuffix(Space, s[k..]);
    hide Drop;
    assert r == s[|s| - |r|..];
    Slice(s, |s| - |r|, |s|);
  }

  /** `_ITEM_RE`, and its group stripped. */
  function Item(line: string): (r: Option<string>)
    ensures r.Some? ==> PartOf(r.value, line) && r.value != "" && Trimmed(Space, r.value)
  {
    var s := Drop(Space, line);
    DropIsPart(Space, line);
    match AfterMarker(s)
    case None => None
    case Some(rest) =>
      var q := Strip(Space, rest);
      PartOfPart(q, rest, s);
      PartOfPart(q, s, line);
      if q == "" then None else Some(q)
  }

  /** `QUESTIONS_HEAD_RE`, and what its group holds. */
  function Head(line: string): Option<string> {
    var s := Drop(Star, Drop(Space, line));
    if !At(s, 0, "question") then None
    else
      var t := if At(s, 8, "s") then s[9..] else s[8..];
      if !At(t, 0, " for you") then None else Some(AfterHead(t[8..]))
  }

  function AfterHead(u: string): string {
    Drop(Space, Drop(Star, if u != "" && u[0] == ':' then u[1..] else u))
  }

  lemma AfterHeadIsPart(u: string)
    ensures PartOf(AfterHead(u), u)
  {
    hide Space, Star;
    var v := if u != "" && u[0] == ':' then u[1..] else u;
    Slice(u, |u| - |v|, |u|);
    DropIsPart(Star, v);
    DropIsPart(Space, Drop(Star, v));
    PartOfPart(Drop(Space, Drop(Star, v)), Drop(Star, v), v);
    PartOfPart(AfterHead(u), v, u);
  }

  lemma HeadIsPart(line: string)
    ensures Head(line).Some? ==> PartOf(Head(line).value, line)
  {
    hide Space, Star, AfterHead;
    if Head(line).Some? {
      var s0 := Drop(Space, line);
      var s := Drop(Star, s0);
      var t := if At(s, 8, "s") then s[9..] else s[8..];
      DropIsPart(Space, line);
      DropIsPart(Star, s0);
      Slice(s, |s| - |t|, |s|);
      Slice(t, 8, |t|);
      AfterHeadIsPart(t[8..]);
      PartOfPart(AfterHead(t[8..]), t[8..], t);
      PartOfPart(AfterHead(t[8..]), t, s);
      PartOfPart(AfterHead(t[8..]), s, s0);
      PartOfPart(AfterHead(t[8..]), s0, line);
    }
  }

  /** `.strip().strip("*").strip()`. */
  function Bare(s: string): (r: string)
    ensures PartOf(r, s) && Trimmed(Space, r)
  {
    var a := Strip(Space, s);
    var b := Strip(Star, a);
    var r := Strip(Space, b);
    PartOfPart(b, a, s);
    PartOfPart(r, b, s);
    r
  }

  /** Without its list marker, if it has one. */
  function Unmarked(s: string): (r: string)
    ensures PartOf(r, s)
    ensures s != "" && Trimmed(Space, s) ==> r != "" && Trimmed(Space, r)
  {
    assert s == s[0..|s|];
    match AfterMarker(s) case Some(r) => NotAllSpace(s); r case None => s
  }

  /** A marker is never the whole of a stripped text. */
  lemma NotAllSpace(s: string)
    ensures s != "" && Trimmed(Space, s) && AfterMarker(s).Some? ==> AfterMarker(s).value != ""
  {
    hide Space, PartOf, MarkerLength, Digits, Drop;
    if s != "" && Trimmed(Space, s) && AfterMarker(s).Some? {
      DropStops(s[MarkerLength(s)..]);
    }
  }

  lemma {:induction false} DropStops(s: string)
    requires s != "" && !Space(s[|s| - 1])
    ensures Drop(Space, s) != ""
  {
    if Space(s[0]) { DropStops(s[1..]); }
  }

  // ------------------------------------------------------------------ the list

  predicate Blank(line: string) { Strip(Space, line) == "" }

  /** The list under a head, from the line after it. */
  function Items(lines: seq<string>, got: bool): seq<string> {
    if lines == [] then []
    else
      match Item(lines[0])
      case Some(q) => [q] + Items(lines[1..], true)
      case None => if Blank(lines[0]) && !got then Items(lines[1..], got) else []
  }

  function OnHeadLine(rest: string): seq<string> { if Bare(rest) == "" then [] else [Unmarked(Bare(rest))] }

  /** The first head with a question under it. */
  function UnderHeads(lines: seq<string>): seq<string> {
    if lines == [] then []
    else
      match Head(lines[0])
      case None => UnderHeads(lines[1..])
      case Some(rest) =>
        var start := OnHeadLine(rest);
        var found := start + Items(lines[1..], start != []);
        if found != [] then found else UnderHeads(lines[1..])
  }

  /** The text of a line that reads as a question. */
  function Asks(line: string): Option<string> {
    var bare := Bare(match AfterMarker(Drop(Space, line)) case Some(r) => r case None => line);
    if bare != "" && bare[|bare| - 1] == '?' && 8 <= |bare| <= 300 then Some(bare) else None
  }

  lemma AsksIsPart(line: string)
    ensures Asks(line).Some? ==> PartOf(Asks(line).value, line) && Asks(line).value != "" && Trimmed(Space, Asks(line).value)
  {
    hide Space, AfterMarker, Bare, PartOf;
    var s := Drop(Space, line);
    var unmarked := match AfterMarker(s) case Some(r) => r case None => line;
    DropIsPart(Space, line);
    Slice(line, 0, |line|);
    PartOfPart(unmarked, s, line);
    PartOfPart(Bare(unmarked), unmarked, line);
  }

  function Asked(lines: seq<string>, seen: seq<string>): seq<string> {
    if lines == [] then []
    else
      match Asks(lines[0])
      case Some(q) => if q in seen then Asked(lines[1..], seen) else [q] + Asked(lines[1..], seen + [q])
      case None => Asked(lines[1..], seen)
  }

  function Take(qs: seq<string>, limit: nat): seq<string> { if |qs| <= limit then qs else qs[..limit] }

  function Extract(body: string, limit: nat): seq<string> {
    var lines := Lines(Visible(body));
    var found := UnderHeads(lines);
    Take(if found != [] then found else Asked(lines, []), limit)
  }

  /** `extract_questions`. */
  method ExtractQuestions(body: string, limit: nat) returns (out: seq<string>)
    ensures out == Extract(body, limit)
  {
    hide Lines, Visible, Item, Head, Asks, OnHeadLine, Blank, Items, UnderHeads, Asked;
    var lines := Lines(Visible(body));
    UnderHeadsFrom(lines, 0);
    for i := 0 to |lines|
      invariant UnderHeads(lines[i..]) == UnderHeads(lines)
    {
      UnderHeadsFrom(lines, i);
      var m := Head(lines[i]);
      if m == None { continue; }
      out := OnHeadLine(m.value);
      ghost var all := out + Items(lines[i + 1..], out != []);
      var j := i + 1;
      while j < |lines|
        invariant i < j <= |lines|
        invariant out + Items(lines[j..], out != []) == all
      {
        ItemsFrom(lines, j, out);
        var item := Item(lines[j]);
        if item.Some? {
          out := out + [item.value];
        } else if Blank(lines[j]) {
          if out != [] { break; }
        } else {
          break;
        }
        j := j + 1;
      }
      ItemsEnd(lines, j, out);
      if out != [] {
        return Take(out, limit);
      }
    }
    UnderHeadsFrom(lines, |lines|);
    out := [];
    assert lines[0..] == lines;
    for i := 0 to |lines|
      invariant out + Asked(lines[i..], out) == Asked(lines, [])
    {
      AskedFrom(lines, i, out);
      var q := Asks(lines[i]);
      if q.Some? && q.value !in out {
        out := out + [q.value];
      }
    }
    AskedFrom(lines, |lines|, out);
    return Take(out, limit);
  }

  // The functions on the lines from `i` on, one line at a time.

  lemma UnderHeadsFrom(lines: seq<string>, i: nat)
    requires i <= |lines|
    ensures i == 0 ==> lines[i..] == lines
    ensures i == |lines| ==> UnderHeads(lines[i..]) == []
    ensures i < |lines| && Head(lines[i]).None? ==> UnderHeads(lines[i..]) == UnderHeads(lines[i + 1..])
    ensures i < |lines| && Head(lines[i]).Some?
      ==> var start := OnHeadLine(Head(lines[i]).value);
          var found := start + Items(lines[i + 1..], start != []);
          UnderHeads(lines[i..]) == if found != [] then found else UnderHeads(lines[i + 1..])
  {
    hide Lines, Item, Head, OnHeadLine, Blank, Items;
    if i < |lines| { assert lines[i..][0] == lines[i] && lines[i..][1..] == lines[i + 1..]; }
  }

  lemma ItemsFrom(lines: seq<string>, j: nat, out: seq<string>)
    requires j < |lines|
    ensures match Item(lines[j])
            case Some(q) => out + Items(lines[j..], out != []) == (out + [q]) + Items(lines[j + 1..], out + [q] != [])
            case None =>
              if Blank(lines[j]) && out == [] then Items(lines[j..], out != []) == Items(lines[j + 1..], out != [])
              else Items(lines[j..], out != []) == []
  {
    hide Item, Blank;
    assert lines[j..][0] == lines[j] && lines[j..][1..] == lines[j + 1..];
    var item := Item(lines[j]);
    if item.Some? {
      assert out + ([item.value] + Items(lines[j + 1..], true)) == (out + [item.value]) + Items(lines[j + 1..], true);
    }
  }

  lemma ItemsEnd(lines: seq<string>, j: nat, out: seq<string>)
    requires j <= |lines|
    ensures out + [] == out && (j == |lines| ==> Items(lines[j..], out != []) == [])
  {}

  lemma AskedFrom(lines: seq<string>, i: nat, out: seq<string>)
    requires i <= |lines|
    ensures out + [] == out
    ensures i == |lines| ==> Asked(lines[i..], out) == []
    ensures i < |lines|
      ==> match Asks(lines[i])
          case Some(q) =>
            if q in out then Asked(lines[i..], out) == Asked(lines[i + 1..], out)
            else out + Asked(lines[i..], out) == (out + [q]) + Asked(lines[i + 1..], out + [q])
          case None => Asked(lines[i..], out) == Asked(lines[i + 1..], out)
  {
    hide Asks;
    if i < |lines| {
      assert lines[i..][0] == lines[i] && lines[i..][1..] == lines[i + 1..];
      var q := Asks(lines[i]);
      if q.Some? && q.value !in out {
        var rest := Asked(lines[i + 1..], out + [q.value]);
        assert out + ([q.value] + rest) == (out + [q.value]) + rest;
      }
    }
  }

  // ------------------------------------------------------------------ the printer

  const HEADER := "**Questions for you:**"

  function Row(i: nat, q: string): string { Decimal(i) + ". " + q }

  function Joined(qs: seq<string>, i: nat): string {
    if qs == [] then "" else if |qs| == 1 then Row(i, qs[0]) else Row(i, qs[0]) + "\n" + Joined(qs[1..], i + 1)
  }

  /** `questions_block`. */
  function Block(qs: seq<string>): string {
    if qs == [] then "" else HEADER + "\n" + Joined(qs, 1) + "\n\n"
  }

  /** A question as a person would write it on one line. */
  predicate Sayable(q: string) { q != "" && Trimmed(Space, q) && OneLine(q) }

  predicate AllSayable(qs: seq<string>) { forall i :: 0 <= i < |qs| ==> Sayable(qs[i]) }

  // ------------------------------------------------------------------ its lines

  lemma {:induction false} LineEndAt(l: string, rest: string)
    requires OneLine(l)
    ensures LineEnd(l + "\n" + rest) == |l|
  {
    var s := l + "\n" + rest;
    if l != "" {
      assert s[1..] == l[1..] + "\n" + rest && s[0] == l[0];
      LineEndAt(l[1..], rest);
    }
  }

  lemma LinesCons(l: string, rest: string)
    requires OneLine(l)
    ensures Lines(l + "\n" + rest) == [l] + Lines(rest)
  {
    hide LineEnd;
    var s := l + "\n" + rest;
    LineEndAt(l, rest);
    assert s[..|l|] == l && s[|l|] == '\n' && s[|l| + 1..] == rest;
  }

  function Rows(qs: seq<string>, i: nat): string {
    if qs == [] then "" else Row(i, qs[0]) + "\n" + Rows(qs[1..], i + 1)
  }

  function RowLines(qs: seq<string>, i: nat): seq<string> {
    if qs == [] then [] else [Row(i, qs[0])] + RowLines(qs[1..], i + 1)
  }

  lemma {:induction false} JoinedRows(qs: seq<string>, i: nat)
    requires qs != []
    ensures Joined(qs, i) + "\n" == Rows(qs, i)
  {
    hide Row;
    var row, rest := Row(i, qs[0]), Rows(qs[1..], i + 1);
    if |qs| > 1 {
      JoinedRows(qs[1..], i + 1);
      assert row + "\n" + Joined(qs[1..], i + 1) + "\n" == row + "\n" + (Joined(qs[1..], i + 1) + "\n");
    } else {
      assert qs[1..] == [] && rest == "";
    }
  }

  lemma BlockRows(qs: seq<string>)
    requires qs != []
    ensures Block(qs) == HEADER + "\n" + (Rows(qs, 1) + "\n")
  {
    JoinedRows(qs, 1);
    assert HEADER + "\n" + Joined(qs, 1) + "\n\n" == HEADER + "\n" + (Joined(qs, 1) + "\n" + "\n");
  }

  lemma RowIsOneLine(i: nat, q: string)
    requires OneLine(q)
    ensures OneLine(Row(i, q))
  {
    var row, d := Row(i, q), Decimal(i);
    forall k | 0 <= k < |row| ensures !Break(row[k]) {
      if k < |d| { assert row[k] == d[k] && Digit(d[k]); }
      else if k >= |d| + 2 { assert row[k] == q[k - |d| - 2]; }
    }
  }

  lemma {:induction false} RowsLines(qs: seq<string>, i: nat)
    requires AllSayable(qs)
    ensures Lines(Rows(qs, i) + "\n") == RowLines(qs, i) + [""]
  {
    if qs == [] {
      EmptyLine();
    } else {
      assert Sayable(qs[0]);
      RowIsOneLine(i, qs[0]);
      hide Row, Lines, OneLine, Sayable;
      LinesCons(Row(i, qs[0]), Rows(qs[1..], i + 1) + "\n");
      RowsLines(qs[1..], i + 1);
      RowsSplit(Row(i, qs[0]), Rows(qs[1..], i + 1));
    }
  }

  lemma RowsSplit(row: string, rest: string)
    ensures row + "\n" + rest + "\n" == row + "\n" + (rest + "\n")
  {}

  lemma EmptyLine()
    ensures Lines("\n") == [""] && "" + "\n" == "\n"
  {
    LinesCons("", "");
    assert "" + "\n" + "" == "\n";
  }

  // ------------------------------------------------------------------ reading them back

  lemma {:induction false} DigitsOf(d: string, rest: string)
    requires forall i :: 0 <= i < |d| ==> Digit(d[i])
    requires rest != "" && !Digit(rest[0])
    ensures Digits(d + rest) == |d|
  {
    if d != "" {
      assert (d + rest)[1..] == d[1..] + rest;
      DigitsOf(d[1..], rest);
    }
  }

  lemma SpaceFacts()
    ensures Space(' ') && !Space('*') && !Space('Q') && forall c :: Digit(c) ==> !Space(c)
  {}

  lemma MarkerOfRow(i: nat, q: string)
    ensures var row, k := Row(i, q), |Decimal(i)| + 1;
            MarkerLength(row) == k && k < |row| && row[k..] == " " + q && Digit(row[0])
  {
    hide Decimal;
    var row, d := Row(i, q), Decimal(i);
    var rest := ". " + q;
    assert row == d + rest;
    DigitsOf(d, rest);
    assert row[0] == d[0] && row[|d|] == rest[0];
    assert rest[1..] == " " + q && row[|d| + 1..] == rest[1..];
  }

  lemma MarkerReadsBack(i: nat, q: string)
    requires q != "" && !Space(q[0])
    ensures AfterMarker(Row(i, q)) == Some(q) && !Space(Row(i, q)[0])
  {
    hide Space, PartOf, Decimal, MarkerLength, Row;
    SpaceFacts();
    MarkerOfRow(i, q);
    var tail := " " + q;
    assert tail[1..] == q && tail[0] == ' ';
    assert Drop(Space, q) == q;
    assert Drop(Space, tail) == q;
    assert Row(i, q)[MarkerLength(Row(i, q))] == tail[0];
  }

  lemma RowReadsBack(i: nat, q: string)
    requires Sayable(q)
    ensures Item(Row(i, q)) == Some(q)
  {
    hide Space, AfterMarker, Row, PartOf, OneLine;
    MarkerReadsBack(i, q);
  }

  /** What may stand before an item of a list. */
  predicate ListMarker(mark: string) {
    || mark == "-" || mark == "*"
    || (|mark| >= 2 && (mark[|mark| - 1] == '.' || mark[|mark| - 1] == ')') && forall i :: 0 <= i < |mark| - 1 ==> Digit(mark[i]))
  }

  lemma MarkerLengthOf(mark: string, rest: string)
    requires ListMarker(mark)
    ensures MarkerLength(mark + " " + rest) == |mark| && !Space((mark + " " + rest)[0])
  {
    var s := mark + " " + rest;
    if mark != "-" && mark != "*" {
      var n := |mark| - 1;
      var tail := [mark[n]] + " " + rest;
      assert s == mark[..n] + tail;
      DigitsOf(mark[..n], tail);
    }
  }

  /** An item reads as its text under any marker: a number with a dot or a bracket, a dash, a star. */
  lemma ItemUnderAnyMarker(mark: string, q: string)
    requires ListMarker(mark) && Sayable(q)
    ensures Item(mark + " " + q) == Some(q)
  {
    hide Space, PartOf, MarkerLength, OneLine, ListMarker;
    SpaceFacts();
    MarkerLengthOf(mark, q);
    var s, tail := mark + " " + q, " " + q;
    assert s[|mark|] == ' ' && s[|mark|..] == tail && tail[1..] == q && tail[0] == ' ';
    assert Drop(Space, q) == q;
    assert Drop(Space, tail) == q;
    assert AfterMarker(s) == Some(q);
    assert Drop(Space, s) == s;
  }

  lemma {:induction false} CrLfEndsALine(l: string, rest: string)
    requires OneLine(l)
    ensures LineEnd(l + "\r\n" + rest) == |l|
  {
    var s := l + "\r\n" + rest;
    if l != "" {
      assert s[1..] == l[1..] + "\r\n" + rest && s[0] == l[0];
      CrLfEndsALine(l[1..], rest);
    }
  }

  /** A carriage return and a line feed end one line, not two. */
  lemma CrLfIsOneBreak(l: string, rest: string)
    requires OneLine(l)
    ensures Lines(l + "\r\n" + rest) == [l] + Lines(rest)
  {
    hide LineEnd;
    var s := l + "\r\n" + rest;
    CrLfEndsALine(l, rest);
    assert s[..|l|] == l && s[|l|] == '\r' && s[|l| + 1] == '\n' && s[|l| + 2..] == rest;
  }

  /** A question on the head's own line is the first, and what is listed under it follows. */
  lemma QuestionOnTheHeadLine(q: string, lines: seq<string>)
    requires Sayable(q) && Trimmed(Star, q) && q[0] != '-' && !Digit(q[0])
    ensures UnderHeads(["Questions for you: " + q] + lines) == [q] + Items(lines, true)
  {
    HeadWith(q);
    OnHeadLineWith(q);
    hide Head, OnHeadLine, Items, Sayable, Trimmed;
    var all := ["Questions for you: " + q] + lines;
    assert all[0] == "Questions for you: " + q && all[1..] == lines;
  }

  lemma OnHeadLineWith(q: string)
    requires Sayable(q) && Trimmed(Star, q) && q[0] != '-' && !Digit(q[0])
    ensures OnHeadLine(q) == [q]
  {
    hide Space, PartOf;
    assert Bare(q) == q;
    assert MarkerLength(q) == 0;
  }

  lemma HeadWith(q: string)
    requires q != "" && !Space(q[0]) && q[0] != '*'
    ensures Head("Questions for you: " + q) == Some(q)
  {
    hide Space, PartOf, At;
    SpaceFacts();
    var s := "Questions for you: " + q;
    var t, u, v := " for you: " + q, ": " + q, " " + q;
    assert s == "Questions" + t && t == " for you" + u;
    HeadWords(t, u);
    assert s[9..] == t && t[8..] == u && u[1..] == v && v[1..] == q;
    assert Drop(Star, s) == s && Drop(Space, s) == s;
    assert Drop(Space, q) == q;
    assert Drop(Star, v) == v && Drop(Space, v) == q;
    assert AfterHead(u) == q;
  }

  lemma HeadWords(t: string, u: string)
    ensures At("Questions" + t, 0, "question") && At("Questions" + t, 8, "s") && At(" for you" + u, 0, " for you")
  {}

  lemma HeaderReadsBack()
    ensures Head(HEADER) == Some("")
  {
    hide Space, PartOf, Drop, At;
    SpaceFacts();
    var s, t := "Questions for you:**", " for you:**";
    HeaderStars();
    HeaderWords();
    assert s[9..] == t && t[8..] == ":**";
    HeaderEnds();
  }

  lemma HeaderEnds()
    ensures AfterHead(":**") == ""
  {
    hide Space, PartOf, Drop;
    HeaderStars();
    assert ":**"[1..] == "**";
  }

  lemma HeaderWords()
    ensures At("Questions for you:**", 0, "question") && At("Questions for you:**", 8, "s") && At(" for you:**", 0, " for you")
  {}

  lemma HeaderStars()
    ensures Drop(Space, HEADER) == HEADER && Drop(Star, HEADER) == "Questions for you:**"
    ensures Drop(Star, "**") == "" && Drop(Space, "") == ""
  {
    SpaceFacts();
    hide Space, PartOf;
    assert HEADER == "**" + "Questions for you:**" && "**" == "**" + "";
    TwoStars("Questions for you:**");
    TwoStars("");
  }

  lemma TwoStars(s: string)
    requires s == "" || s[0] != '*'
    ensures Drop(Star, "**" + s) == s
  {
    var one := "*" + s;
    assert ("**" + s)[1..] == one && one[1..] == s;
    assert Drop(Star, s) == s;
    assert Drop(Star, one) == s;
  }

  lemma NothingOnHeadLine()
    ensures OnHeadLine("") == []
  {
    hide Space, PartOf;
  }

  lemma EmptyLineReads()
    ensures Item("") == None && Blank("")
  {
    hide Space, PartOf;
  }

  lemma {:induction false} RowsReadBack(qs: seq<string>, i: nat, got: bool)
    requires AllSayable(qs) && (got || qs != [])
    ensures Items(RowLines(qs, i) + [""], got) == qs
  {
    hide Item, Blank, Sayable, Row;
    var lines := RowLines(qs, i) + [""];
    if qs == [] {
      EmptyLineReads();
      assert lines == [""];
    } else {
      RowReadsBack(i, qs[0]);
      assert lines[0] == Row(i, qs[0]) && lines[1..] == RowLines(qs[1..], i + 1) + [""];
      RowsReadBack(qs[1..], i + 1, true);
    }
  }

  lemma BlockLines(qs: seq<string>)
    requires qs != [] && AllSayable(qs)
    ensures Lines(Block(qs)) == [HEADER] + (RowLines(qs, 1) + [""])
  {
    hide Lines, Rows, RowLines, Block, Sayable;
    BlockRows(qs);
    assert OneLine(HEADER);
    LinesCons(HEADER, Rows(qs, 1) + "\n");
    RowsLines(qs, 1);
  }

  lemma ReadsBackIfAllVisible(qs: seq<string>, limit: nat)
    requires qs != [] && AllSayable(qs) && Visible(Block(qs)) == Block(qs)
    ensures Extract(Block(qs), limit) == Take(qs, limit)
  {
    hide Lines, RowLines, Block, Head, Items, OnHeadLine, Visible, Sayable;
    var lines := Lines(Block(qs));
    BlockLines(qs);
    assert lines[0] == HEADER && lines[1..] == RowLines(qs, 1) + [""];
    HeaderReadsBack();
    NothingOnHeadLine();
    RowsReadBack(qs, 1, false);
    assert [] + qs == qs;
  }

  // ------------------------------------------------------------------ markers

  /** Somewhere `m` opens, and closes again after that. */
  ghost predicate Paired(s: string, m: Mark) {
    exists i: nat :: At(s, i, m.open) && Has(s[i + |m.open|..], m.close)
  }

  lemma {:induction false} CutsNothing(s: string, m: Mark)
    requires !Paired(s, m) && m.open != ""
    ensures Cut(s, m) == s
  {
    if s != "" {
      var rest := s[1..];
      if Paired(rest, m) {
        var i: nat :| At(rest, i, m.open) && Has(rest[i + |m.open|..], m.close);
        assert rest[i + |m.open|..] == s[i + 1 + |m.open|..];
        assert At(s, i + 1, m.open);
      }
      CutsNothing(rest, m);
      if At(s, 0, m.open) {
        FindFinds(s[|m.open|..], m.close);
      }
    }
  }

  lemma FindFinds(s: string, x: string)
    ensures Find(s, x).Some? <==> Has(s, x)
  {}

  /** A text that crosses no white space and starts like a marker. */
  predicate Sharp(x: string) {
    && x != "" && (x[0] == '<' || x[0] == '`' || x[0] == '-')
    && forall k :: 0 <= k < |x| ==> !Space(x[k]) && !Break(x[k])
  }

  predicate Marker(m: Mark) { Sharp(m.open) && Sharp(m.close) }

  lemma TheMarkers()
    ensures Marker(FOLD_MARK) && Marker(CODE_MARK) && Marker(COMMENT_MARK)
  {}

  /** No two of the texts hold an opening and a later closing. */
  ghost predicate Clean(qs: seq<string>, m: Mark) {
    && (forall i :: 0 <= i < |qs| ==> !Paired(qs[i], m))
    && (forall i, j :: 0 <= i < j < |qs| && Has(qs[i], m.open) ==> !Has(qs[j], m.close))
  }

  lemma AtChar(s: string, i: nat, x: string, k: nat)
    requires At(s, i, x) && k < |x|
    ensures i + k < |s| && Fold(s[i + k]) == x[k]
  {}

  lemma AtShift(s: string, k: nat, i: nat, x: string)
    requires k <= |s|
    ensures At(s[k..], i, x) <==> At(s, k + i, x)
  {
    forall n | 0 <= n < |x| && k + i + |x| <= |s| ensures Fold(s[k..][i + n]) == x[n] <==> Fold(s[k + i + n]) == x[n] {}
  }

  lemma HasShift(s: string, k: nat, x: string)
    requires k <= |s| && Has(s[k..], x)
    ensures Has(s, x)
  {
    var i: nat :| i <= |s[k..]| && At(s[k..], i, x);
    AtShift(s, k, i, x);
  }

  lemma AtPart(s: string, i: nat, j: nat, n: nat, x: string)
    requires i <= j <= |s| && At(s[i..j], n, x)
    ensures At(s, i + n, x)
  {
    forall k | 0 <= k < |x| ensures Fold(s[i + n + k]) == x[k] {
      AtChar(s[i..j], n, x, k);
    }
  }

  lemma PartHas(a: string, s: string, x: string)
    requires PartOf(a, s) && Has(a, x)
    ensures Has(s, x)
  {
    var i, j :| 0 <= i <= j <= |s| && a == s[i..j];
    var n: nat :| n <= |a| && At(a, n, x);
    AtPart(s, i, j, n, x);
  }

  lemma Opening(s: string, m: Mark) returns (i: nat)
    requires Paired(s, m)
    ensures At(s, i, m.open) && i + |m.open| <= |s| && Has(s[i + |m.open|..], m.close)
  {
    i :| At(s, i, m.open) && Has(s[i + |m.open|..], m.close);
  }

  lemma Pairs(s: string, i: nat, m: Mark)
    requires At(s, i, m.open) && i + |m.open| <= |s| && Has(s[i + |m.open|..], m.close)
    ensures Paired(s, m)
  {}

  lemma PartPaired(a: string, s: string, m: Mark)
    requires PartOf(a, s) && Paired(a, m)
    ensures Paired(s, m)
  {
    hide At, Has, Paired;
    var i, j :| 0 <= i <= j <= |s| && a == s[i..j];
    var n := Opening(a, m);
    AtPart(s, i, j, n, m.open);
    SliceOfSlice(s, i, j, n + |m.open|, j - i);
    assert a[n + |m.open|..] == a[n + |m.open|..j - i];
    TailHas(s, i + n + |m.open|, j, m.close);
    Pairs(s, i + n, m);
  }

  lemma TailHas(s: string, e: nat, j: nat, x: string)
    requires e <= j <= |s| && Has(s[e..j], x)
    ensures Has(s[e..], x)
  {
    var t := s[e..];
    Slice(t, 0, j - e);
    assert t[0..j - e] == s[e..j];
    PartHas(s[e..j], t, x);
  }

  // ------------------------------------------------------------------ white space keeps texts apart

  lemma NotAcross(s: string, i: nat, x: string, n: nat)
    requires At(s, i, x) && Sharp(x) && n < |s| && (Space(s[n]) || Break(s[n]))
    ensures n < i || i + |x| <= n
  {
    hide At;
    if i <= n < i + |x| { AtChar(s, i, x, n - i); }
  }

  /** No sharp text lies across a separator. */
  lemma AtJoin(a: string, c: char, b: string, i: nat, x: string)
    requires Sharp(x) && (Space(c) || Break(c)) && At(a + [c] + b, i, x)
    ensures if i < |a| then At(a, i, x) else i > |a| && At(b, i - |a| - 1, x)
  {
    var s := a + [c] + b;
    NotAcross(s, i, x, |a|);
    assert s[|a| + 1..] == b && s[0..|a|] == a;
    if i > |a| {
      AtShift(s, |a| + 1, i - |a| - 1, x);
    } else {
      forall k | 0 <= k < |x| ensures Fold(a[i + k]) == x[k] {
        AtChar(s, i, x, k);
      }
    }
  }

  lemma HasJoin(a: string, c: char, b: string, x: string)
    requires Sharp(x) && (Space(c) || Break(c)) && Has(a + [c] + b, x)
    ensures Has(a, x) || Has(b, x)
  {
    var i: nat :| i <= |a + [c] + b| && At(a + [c] + b, i, x);
    AtJoin(a, c, b, i, x);
    assert i > |a| ==> i - |a| - 1 <= |b|;
  }

  lemma PairedJoin(a: string, c: char, b: string, m: Mark)
    requires Marker(m) && (Space(c) || Break(c)) && Paired(a + [c] + b, m)
    ensures Paired(a, m) || Paired(b, m) || (Has(a, m.open) && Has(b, m.close))
  {
    hide Has, Space, Break;
    var s := a + [c] + b;
    var i: nat :| At(s, i, m.open) && Has(s[i + |m.open|..], m.close);
    AtJoin(a, c, b, i, m.open);
    var e := i + |m.open|;
    if i < |a| {
      assert s[e..] == a[e..] + [c] + b;
      HasJoin(a[e..], c, b, m.close);
      AtHas(a, i, m.open);
    } else {
      assert s[e..] == b[e - |a| - 1..];
      assert At(b, i - |a| - 1, m.open) && b[i - |a| - 1 + |m.open|..] == s[e..];
    }
  }

  lemma AtHas(s: string, i: nat, x: string)
    requires At(s, i, x)
    ensures Has(s, x)
  {}

  lemma NothingSharp(s: string, x: string)
    requires Sharp(x) && forall k :: 0 <= k < |s| ==> s[k] != '<' && s[k] != '`' && s[k] != '-'
    ensures !Has(s, x)
  {
    hide At;
    if Has(s, x) {
      var i: nat :| i <= |s| && At(s, i, x);
      AtChar(s, i, x, 0);
    }
  }

  lemma PairedOpens(s: string, m: Mark)
    requires Paired(s, m)
    ensures Has(s, m.open)
  {
    var i: nat :| At(s, i, m.open) && Has(s[i + |m.open|..], m.close);
  }

  lemma NothingPaired(s: string, m: Mark)
    requires !Has(s, m.open)
    ensures !Paired(s, m)
  {
    hide Has, At, Paired;
    if Paired(s, m) { PairedOpens(s, m); }
  }

  lemma RowHas(i: nat, q: string, x: string)
    requires Sharp(x)
    ensures Has(Row(i, q), x) ==> Has(q, x)
  {
    var n := Decimal(i) + ".";
    assert Row(i, q) == n + [' '] + q;
    NothingSharp(n, x);
    if Has(Row(i, q), x) { HasJoin(n, ' ', q, x); }
  }

  lemma RowPaired(i: nat, q: string, m: Mark)
    requires Marker(m)
    ensures Paired(Row(i, q), m) ==> Paired(q, m)
  {
    var n := Decimal(i) + ".";
    assert Row(i, q) == n + [' '] + q;
    NothingSharp(n, m.open);
    NothingPaired(n, m);
    if Paired(Row(i, q), m) { PairedJoin(n, ' ', q, m); }
  }

  lemma {:induction false} RowsHave(qs: seq<string>, i: nat, x: string)
    requires Sharp(x) && Has(Rows(qs, i), x)
    ensures exists k :: 0 <= k < |qs| && Has(qs[k], x)
  {
    hide Row, Sharp;
    if qs == [] {
      NothingSharp("", x);
    } else {
      var rest := Rows(qs[1..], i + 1);
      assert Rows(qs, i) == Row(i, qs[0]) + ['\n'] + rest;
      HasJoin(Row(i, qs[0]), '\n', rest, x);
      RowHas(i, qs[0], x);
      if Has(rest, x) {
        RowsHave(qs[1..], i + 1, x);
        var k :| 0 <= k < |qs[1..]| && Has(qs[1..][k], x);
        assert qs[1..][k] == qs[k + 1];
      }
    }
  }

  lemma {:induction false} RowsUnpaired(qs: seq<string>, i: nat, m: Mark)
    requires Marker(m) && Clean(qs, m)
    ensures !Paired(Rows(qs, i), m)
  {
    hide Row, Sharp, Has;
    if qs == [] {
      NothingSharp("", m.open);
      NothingPaired("", m);
    } else {
      var rest := Rows(qs[1..], i + 1);
      assert Rows(qs, i) == Row(i, qs[0]) + ['\n'] + rest;
      RowsUnpaired(qs[1..], i + 1, m);
      RowPaired(i, qs[0], m);
      RowHas(i, qs[0], m.open);
      if Has(rest, m.close) {
        RowsHave(qs[1..], i + 1, m.close);
        var k :| 0 <= k < |qs[1..]| && Has(qs[1..][k], m.close);
        assert qs[1..][k] == qs[k + 1];
      }
      if Paired(Rows(qs, i), m) { PairedJoin(Row(i, qs[0]), '\n', rest, m); }
    }
  }

  lemma BlockUnpaired(qs: seq<string>, m: Mark)
    requires qs != [] && Marker(m) && Clean(qs, m)
    ensures !Paired(Block(qs), m)
  {
    hide Row, Rows, Sharp, Has, Block;
    BlockRows(qs);
    var rows := Rows(qs, 1);
    RowsUnpaired(qs, 1, m);
    NothingSharp("", m.open);
    NothingSharp("", m.close);
    NothingPaired("", m);
    NothingSharp(HEADER, m.open);
    NothingPaired(HEADER, m);
    var tail := rows + ['\n'] + "";
    assert Block(qs) == HEADER + ['\n'] + tail;
    if Paired(tail, m) { PairedJoin(rows, '\n', "", m); }
    if Paired(Block(qs), m) { PairedJoin(HEADER, '\n', tail, m); }
  }

  /** The questions the block can carry. */
  ghost predicate AllClean(qs: seq<string>) { Clean(qs, FOLD_MARK) && Clean(qs, CODE_MARK) && Clean(qs, COMMENT_MARK) }

  /**
   * The round trip: any list of one-line questions between which no fold, fence or comment opens and
   * closes is read back from its printed block, up to the limit.
   */
  lemma RoundTrip(qs: seq<string>, limit: nat)
    requires qs != [] && AllSayable(qs) && AllClean(qs)
    ensures Extract(Block(qs), limit) == Take(qs, limit)
  {
    hide Block, Cut, Extract, Sayable, Clean;
    TheMarkers();
    BlockUnpaired(qs, FOLD_MARK);
    BlockUnpaired(qs, CODE_MARK);
    BlockUnpaired(qs, COMMENT_MARK);
    CutsNothing(Block(qs), FOLD_MARK);
    CutsNothing(Block(qs), CODE_MARK);
    CutsNothing(Block(qs), COMMENT_MARK);
    ReadsBackIfAllVisible(qs, limit);
  }

  /** A list of at most eight questions free of opening markers comes back whole. */
  lemma PlainRoundTrip(qs: seq<string>)
    requires 1 <= |qs| <= MAX_QUESTIONS && AllSayable(qs)
    requires forall i :: 0 <= i < |qs| ==> !Has(qs[i], "<details>") && !Has(qs[i], "```") && !Has(qs[i], "<!--")
    ensures Extract(Block(qs), MAX_QUESTIONS) == qs
  {
    hide Block, Extract, Sayable, Has;
    forall i | 0 <= i < |qs| ensures !Paired(qs[i], FOLD_MARK) && !Paired(qs[i], CODE_MARK) && !Paired(qs[i], COMMENT_MARK) {
      NothingPaired(qs[i], FOLD_MARK);
      NothingPaired(qs[i], CODE_MARK);
      NothingPaired(qs[i], COMMENT_MARK);
    }
    RoundTrip(qs, MAX_QUESTIONS);
  }

  // ------------------------------------------------------------------ what is visible pairs no marker

  /** A first character that is no white space was copied, not cut. */
  lemma FirstCopied(s: string, m: Mark)
    requires m.open != "" && Cut(s, m) != "" && Cut(s, m)[0] != ' '
    ensures s != "" && Cut(s, m) == [s[0]] + Cut(s[1..], m)
  {}

  lemma {:induction false} CutCopies(s: string, m: Mark, x: string)
    requires m.open != "" && At(Cut(s, m), 0, x) && forall k :: 0 <= k < |x| ==> !Space(x[k])
    ensures At(s, 0, x) && Cut(s, m)[|x|..] == Cut(s[|x|..], m)
  {
    if x == "" {
      assert s[0..] == s && Cut(s, m)[0..] == Cut(s, m);
    } else {
      AtChar(Cut(s, m), 0, x, 0);
      FirstCopied(s, m);
      hide Cut, Space;
      var rest, y := Cut(s[1..], m), x[1..];
      forall k | 0 <= k < |y| ensures Fold(rest[k]) == y[k] {
        AtChar(Cut(s, m), 0, x, k + 1);
      }
      CutCopies(s[1..], m, y);
      forall k | 0 <= k < |x| ensures Fold(s[k]) == x[k] {
        if k > 0 { AtChar(s[1..], 0, y, k - 1); }
      }
      assert Cut(s, m)[|x|..] == rest[|y|..] && s[|x|..] == s[1..][|y|..];
    }
  }

  /** What is left of `s` after the first character of the result. */
  function Left(s: string, m: Mark): (r: string)
    requires m.open != "" && s != ""
    ensures |r| < |s| && r == s[|s| - |r|..]
  {
    if Match(s, m) > 0 then s[Match(s, m)..] else s[1..]
  }

  lemma CutStep(s: string, m: Mark, i: nat, x: string)
    requires m.open != "" && Sharp(x) && At(Cut(s, m), i, x)
    ensures s != "" && (i == 0 ==> Match(s, m) == 0)
    ensures i > 0 ==> At(Cut(Left(s, m), m), i - 1, x)
    ensures Cut(s, m)[1..] == Cut(Left(s, m), m)
  {
    var c := Cut(s, m);
    AtChar(c, i, x, 0);
    if i > 0 { AtShift(c, 1, i - 1, x); }
  }

  lemma {:induction false} CutHas(s: string, m: Mark, x: string)
    requires m.open != "" && Sharp(x) && Has(Cut(s, m), x)
    ensures Has(s, x)
    decreases |s|
  {
    hide At, Cut;
    var c := Cut(s, m);
    var i: nat :| i <= |c| && At(c, i, x);
    CutStep(s, m, i, x);
    if i == 0 {
      CutCopies(s, m, x);
    } else {
      var rest := Left(s, m);
      CutHas(rest, m, x);
      HasShift(s, |s| - |rest|, x);
    }
  }

  lemma PairedHere(s: string, m: Mark, w: Mark)
    requires Marker(m) && Marker(w) && At(Cut(s, m), 0, w.open) && Has(Cut(s, m)[|w.open|..], w.close)
    ensures Paired(s, w) && w != m
  {
    hide Cut, Has, Find;
    CutStep(s, m, 0, w.open);
    CutCopies(s, m, w.open);
    var after := s[|w.open|..];
    CutHas(after, m, w.close);
    assert s[0 + |w.open|..] == after;
    FindFinds(after, m.close);
  }

  lemma {:induction false} CutPaired(s: string, m: Mark, w: Mark)
    requires Marker(m) && Marker(w) && Paired(Cut(s, m), w)
    ensures Paired(s, w) && w != m
    decreases |s|
  {
    hide Cut, Has, Match;
    var c := Cut(s, m);
    var i: nat :| At(c, i, w.open) && Has(c[i + |w.open|..], w.close);
    if i == 0 {
      assert c[0 + |w.open|..] == c[|w.open|..];
      PairedHere(s, m, w);
    } else {
      CutStep(s, m, i, w.open);
      var rest := Left(s, m);
      assert c[1..][i - 1 + |w.open|..] == c[i + |w.open|..];
      CutPaired(rest, m, w);
      Slice(s, |s| - |rest|, |s|);
      PartPaired(rest, s, w);
    }
  }

  lemma VisibleIsUnpaired(body: string)
    ensures !Paired(Visible(body), FOLD_MARK) && !Paired(Visible(body), CODE_MARK) && !Paired(Visible(body), COMMENT_MARK)
  {
    hide Cut, Paired, Sharp;
    TheMarkers();
    var a := Cut(body, FOLD_MARK);
    var b := Cut(a, CODE_MARK);
    if Paired(a, FOLD_MARK) { CutPaired(body, FOLD_MARK, FOLD_MARK); }
    if Paired(b, FOLD_MARK) { CutPaired(a, CODE_MARK, FOLD_MARK); }
    if Paired(b, CODE_MARK) { CutPaired(a, CODE_MARK, CODE_MARK); }
    if Paired(Visible(body), FOLD_MARK) { CutPaired(b, COMMENT_MARK, FOLD_MARK); }
    if Paired(Visible(body), CODE_MARK) { CutPaired(b, COMMENT_MARK, CODE_MARK); }
    if Paired(Visible(body), COMMENT_MARK) { CutPaired(b, COMMENT_MARK, COMMENT_MARK); }
  }

  lemma {:induction false} LineIsPart(s: string, k: nat)
    requires k < |Lines(s)|
    ensures PartOf(Lines(s)[k], s)
    decreases |s|
  {
    hide PartOf, OneLine, AfterBreak, Break;
    var n := LineEnd(s);
    Slice(s, 0, n);
    if k > 0 {
      var rest := s[AfterBreak(s, n)..];
      LineIsPart(rest, k - 1);
      Slice(s, AfterBreak(s, n), |s|);
      PartOfPart(Lines(rest)[k - 1], rest, s);
    }
  }

  lemma CleanCons(l: string, ls: seq<string>, m: Mark)
    requires !Paired(l, m) && Clean(ls, m)
    requires Has(l, m.open) ==> forall j :: 0 <= j < |ls| ==> !Has(ls[j], m.close)
    ensures Clean([l] + ls, m)
  {
    hide Paired, Has;
    var all := [l] + ls;
    forall i, j | 0 <= i < j < |all| && Has(all[i], m.open) ensures !Has(all[j], m.close) {
      assert all[j] == ls[j - 1];
    }
  }

  lemma {:induction false} LinesClean(s: string, m: Mark)
    requires !Paired(s, m)
    ensures Clean(Lines(s), m)
    decreases |s|
  {
    if s != "" {
      hide At, Has, PartOf, Paired, OneLine, Clean;
      var n := LineEnd(s);
      Slice(s, 0, n);
      if Paired(s[..n], m) { PartPaired(s[..n], s, m); }
      if n < |s| {
        var b := AfterBreak(s, n);
        var rest := s[b..];
        Slice(s, b, |s|);
        if Paired(rest, m) { PartPaired(rest, s, m); }
        LinesClean(rest, m);
        forall j | 0 <= j < |Lines(rest)| && Has(s[..n], m.open) ensures !Has(Lines(rest)[j], m.close) {
          LineIsPart(rest, j);
          if Has(Lines(rest)[j], m.close) { FirstLinePairs(s, n, b, Lines(rest)[j], m); }
        }
        CleanCons(s[..n], Lines(rest), m);
      } else {
        NoneClean(m);
        CleanCons(s[..n], [], m);
      }
    } else {
      NoneClean(m);
    }
  }

  lemma NoneClean(m: Mark)
    ensures Clean([], m)
  {}

  lemma FirstLinePairs(s: string, n: nat, b: nat, later: string, m: Mark)
    requires n <= b <= |s| && Has(s[..n], m.open) && PartOf(later, s[b..]) && Has(later, m.close)
    ensures Paired(s, m)
  {
    PartHas(later, s[b..], m.close);
    hide Has;
    var i := Where(s[..n], m.open);
    assert s[0..n] == s[..n];
    AtPart(s, 0, n, i, m.open);
    var e := i + |m.open|;
    assert s[e..][b - e..] == s[b..];
    HasShift(s[e..], b - e, m.close);
  }

  lemma Where(s: string, x: string) returns (i: nat)
    requires Has(s, x)
    ensures At(s, i, x) && i + |x| <= |s|
  {
    i :| i <= |s| && At(s, i, x);
  }

  // ------------------------------------------------------------------ what is read can be printed

  /** Each text is part of a line of its own, in order. */
  predicate Among(qs: seq<string>, lines: seq<string>)
    decreases |qs|
  {
    qs == [] || exists k :: 0 <= k < |lines| && PartOf(qs[0], lines[k]) && Among(qs[1..], lines[k + 1..])
  }

  lemma {:induction false} AmongIn(qs: seq<string>, lines: seq<string>, j: nat) returns (k: nat)
    requires Among(qs, lines) && j < |qs|
    ensures k < |lines| && PartOf(qs[j], lines[k])
  {
    hide PartOf;
    k :| 0 <= k < |lines| && PartOf(qs[0], lines[k]) && Among(qs[1..], lines[k + 1..]);
    if j > 0 {
      var n := AmongIn(qs[1..], lines[k + 1..], j - 1);
      k := k + 1 + n;
    }
  }

  lemma {:induction false} AmongClean(qs: seq<string>, lines: seq<string>, m: Mark)
    requires Among(qs, lines) && Clean(lines, m)
    ensures Clean(qs, m)
  {
    hide PartOf, Paired, Has;
    if qs != [] {
      var k :| 0 <= k < |lines| && PartOf(qs[0], lines[k]) && Among(qs[1..], lines[k + 1..]);
      AmongClean(qs[1..], lines[k + 1..], m);
      if Paired(qs[0], m) { PartPaired(qs[0], lines[k], m); }
      forall i, j | 0 <= i < j < |qs| && Has(qs[i], m.open) ensures !Has(qs[j], m.close) {
        if i == 0 {
          PartHas(qs[0], lines[k], m.open);
          if Has(qs[j], m.close) {
            var n := AmongIn(qs[1..], lines[k + 1..], j - 1);
            PartHas(qs[j], lines[k + 1 + n], m.close);
          }
        } else {
          assert qs[i] == qs[1..][i - 1] && qs[j] == qs[1..][j - 1];
        }
      }
    }
  }

  lemma AmongSkip(qs: seq<string>, lines: seq<string>)
    requires lines != [] && Among(qs, lines[1..])
    ensures Among(qs, lines)
  {
    hide PartOf;
    if qs != [] {
      var rest := lines[1..];
      var k :| 0 <= k < |rest| && PartOf(qs[0], rest[k]) && Among(qs[1..], rest[k + 1..]);
      assert rest[k] == lines[k + 1] && rest[k + 1..] == lines[k + 1 + 1..];
    }
  }

  lemma AmongCons(q: string, qs: seq<string>, lines: seq<string>)
    requires lines != [] && PartOf(q, lines[0]) && Among(qs, lines[1..])
    ensures Among([q] + qs, lines)
  {
    assert ([q] + qs)[1..] == qs && lines[0 + 1..] == lines[1..];
  }

  lemma AmongAt(q: string, qs: seq<string>, lines: seq<string>, k: nat)
    requires k < |lines| && PartOf(q, lines[k]) && Among(qs, lines[k + 1..])
    ensures Among([q] + qs, lines)
  {
    assert ([q] + qs)[1..] == qs;
  }

  lemma {:induction false} AmongTake(qs: seq<string>, lines: seq<string>, n: nat)
    requires Among(qs, lines) && n <= |qs|
    ensures Among(qs[..n], lines)
  {
    hide PartOf;
    if n == 0 {
      assert qs[..0] == [];
    } else {
      var k :| 0 <= k < |lines| && PartOf(qs[0], lines[k]) && Among(qs[1..], lines[k + 1..]);
      AmongTake(qs[1..], lines[k + 1..], n - 1);
      AmongAt(qs[0], qs[1..][..n - 1], lines, k);
      assert qs[..n] == [qs[0]] + qs[1..][..n - 1];
    }
  }

  predicate AllOneLine(lines: seq<string>) { forall i :: 0 <= i < |lines| ==> OneLine(lines[i]) }

  /** The texts can be said, and each comes from a line of its own. */
  predicate Read(qs: seq<string>, lines: seq<string>) { AllSayable(qs) && Among(qs, lines) }

  lemma ReadCons(q: string, qs: seq<string>, lines: seq<string>)
    requires lines != [] && AllOneLine(lines) && Read(qs, lines[1..])
    requires PartOf(q, lines[0]) && q != "" && Trimmed(Space, q)
    ensures Read([q] + qs, lines)
  {
    PartIsOneLine(q, lines[0]);
    assert Sayable(q);
    hide PartOf, Sayable;
    AmongCons(q, qs, lines);
  }

  lemma ItemsRead(lines: seq<string>, got: bool)
    requires AllOneLine(lines)
    ensures Read(Items(lines, got), lines)
  {
    hide PartOf, Item, Blank, Sayable, OneLine, Among;
    if lines != [] {
      var item := Item(lines[0]);
      if item.Some? {
        ItemsRead(lines[1..], true);
        ReadCons(item.value, Items(lines[1..], true), lines);
      } else if Blank(lines[0]) && !got {
        ItemsRead(lines[1..], got);
        AmongSkip(Items(lines[1..], got), lines);
      } else {
        NoneRead(lines);
      }
    } else {
      NoneRead(lines);
    }
  }

  lemma NoneRead(lines: seq<string>)
    ensures Read([], lines)
  {}

  lemma OnHeadLineIsPart(line: string)
    requires Head(line).Some?
    ensures var start := OnHeadLine(Head(line).value);
            |start| <= 1 && (|start| == 1 ==> PartOf(start[0], line) && start[0] != "" && Trimmed(Space, start[0]))
  {
    hide Head, Space, PartOf, AfterMarker, Trimmed;
    var rest := Head(line).value;
    HeadIsPart(line);
    PartOfPart(Bare(rest), rest, line);
    PartOfPart(Unmarked(Bare(rest)), Bare(rest), line);
  }

  lemma {:induction false} UnderHeadsRead(lines: seq<string>)
    requires AllOneLine(lines)
    ensures Read(UnderHeads(lines), lines)
  {
    hide PartOf, Sayable, OneLine, Among, Head, Items, OnHeadLine, Trimmed;
    if lines == [] {
      NoneRead(lines);
    } else {
      var rest := lines[1..];
      UnderHeadsRead(rest);
      AmongSkip(UnderHeads(rest), lines);
      var h := Head(lines[0]);
      if h.Some? {
        var start := OnHeadLine(h.value);
        ItemsRead(rest, start != []);
        OnHeadLineIsPart(lines[0]);
        var items := Items(rest, start != []);
        if start != [] {
          ReadCons(start[0], items, lines);
          assert start == [start[0]];
        } else {
          AmongSkip(items, lines);
          assert start + items == items;
        }
      }
    }
  }

  lemma {:induction false} AskedRead(lines: seq<string>, seen: seq<string>)
    requires AllOneLine(lines)
    ensures Read(Asked(lines, seen), lines)
  {
    hide PartOf, Sayable, OneLine, Among, Asks, Trimmed;
    if lines == [] {
      NoneRead(lines);
    } else {
      var q := Asks(lines[0]);
      if q.Some? && q.value !in seen {
        AskedRead(lines[1..], seen + [q.value]);
        AsksIsPart(lines[0]);
        ReadCons(q.value, Asked(lines[1..], seen + [q.value]), lines);
      } else {
        AskedRead(lines[1..], seen);
        AmongSkip(Asked(lines[1..], seen), lines);
      }
    }
  }

  /** Whatever a comment holds, what is read from it is one to a line, trimmed, and at most `limit`. */
  lemma ExtractRead(body: string, limit: nat)
    ensures |Extract(body, limit)| <= limit && Read(Extract(body, limit), Lines(Visible(body)))
  {
    hide Lines, Visible, UnderHeads, Asked, Among, Sayable, OneLine;
    var lines := Lines(Visible(body));
    UnderHeadsRead(lines);
    AskedRead(lines, []);
    var found := if UnderHeads(lines) != [] then UnderHeads(lines) else Asked(lines, []);
    if |found| > limit { AmongTake(found, lines, limit); }
  }

  /** A line that is a question as it stands: it ends in a question mark, is 8 to 300 long, and carries no marker, star or white space around it. */
  predicate PlainQuestion(line: string) {
    && 8 <= |line| <= 300 && line[|line| - 1] == '?'
    && !Space(line[0]) && !Digit(line[0]) && line[0] != '-' && line[0] != '*'
  }

  lemma PlainQuestionAsks(line: string)
    requires PlainQuestion(line)
    ensures Asks(line) == Some(line)
  {
    assert !Space('?');
    assert Drop(Space, line) == line && MarkerLength(line) == 0;
    assert Trimmed(Space, line) && Trimmed(Star, line);
    assert Bare(line) == line;
  }

  /** The lines that ask, each text once. */
  lemma {:induction false} AskedExactly(lines: seq<string>, seen: seq<string>)
    ensures forall q :: q in Asked(lines, seen) <==> q !in seen && exists i :: 0 <= i < |lines| && Asks(lines[i]) == Some(q)
    ensures forall i, j :: 0 <= i < j < |Asked(lines, seen)| ==> Asked(lines, seen)[i] != Asked(lines, seen)[j]
  {
    hide Asks;
    if lines != [] {
      var rest, a := lines[1..], Asks(lines[0]);
      forall i | 0 <= i < |rest| ensures rest[i] == lines[i + 1] {}
      forall i | 0 < i < |lines| ensures lines[i] == rest[i - 1] {}
      if a.Some? && a.value !in seen { AskedExactly(rest, seen + [a.value]); } else { AskedExactly(rest, seen); }
    }
  }

  /**
   * What is read of a comment with no list under a head: texts that end in a question mark, 8 to 300
   * long, none twice - and, short of the limit, every line that is such a question as it stands.
   */
  lemma WithoutAHead(body: string, limit: nat)
    requires UnderHeads(Lines(Visible(body))) == []
    ensures var qs, lines := Extract(body, limit), Lines(Visible(body));
            && (forall q :: q in qs ==> 8 <= |q| <= 300 && q[|q| - 1] == '?')
            && (forall i, j :: 0 <= i < j < |qs| ==> qs[i] != qs[j])
            && (|qs| < limit ==> forall line :: line in lines && PlainQuestion(line) ==> line in qs)
  {
    hide Lines, Visible, UnderHeads, Asked, Asks, PlainQuestion;
    var lines := Lines(Visible(body));
    var all, qs := Asked(lines, []), Extract(body, limit);
    AskedExactly(lines, []);
    forall q | q in qs ensures 8 <= |q| <= 300 && q[|q| - 1] == '?' {
      assert q in all;
      var i :| 0 <= i < |lines| && Asks(lines[i]) == Some(q);
      AsksQuestion(lines[i]);
    }
    forall line | |qs| < limit && line in lines && PlainQuestion(line) ensures line in qs {
      PlainQuestionAsks(line);
      var i :| 0 <= i < |lines| && lines[i] == line;
      assert Asks(lines[i]) == Some(line);
    }
  }

  lemma AsksQuestion(line: string)
    requires Asks(line).Some?
    ensures var q := Asks(line).value; 8 <= |q| <= 300 && q[|q| - 1] == '?'
  {
  }

  /**
   * So what a notice repeats is what the comment asked: printing the questions read from any comment
   * and reading that again gives the same questions.
   */
  lemma NoticeRepeatsQuestions(body: string, limit: nat)
    ensures var qs := Extract(body, limit); qs != [] ==> Extract(Block(qs), limit) == qs
  {
    hide Extract, Lines, Visible, Among, AllSayable, Clean, Block, Paired;
    var qs, lines := Extract(body, limit), Lines(Visible(body));
    ExtractRead(body, limit);
    VisibleIsUnpaired(body);
    LinesClean(Visible(body), FOLD_MARK);
    LinesClean(Visible(body), CODE_MARK);
    LinesClean(Visible(body), COMMENT_MARK);
    AmongClean(qs, lines, FOLD_MARK);
    AmongClean(qs, lines, CODE_MARK);
    AmongClean(qs, lines, COMMENT_MARK);
    if qs != [] { RoundTrip(qs, limit); }
  }
}
