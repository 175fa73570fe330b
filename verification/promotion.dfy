/**
 * Shipping an epic across repos (router.py): every repo has one promotion PR for it, which merges or
 * is closed in any order and may be reopened. Each merge event is handled beside the others, and
 * again after a crash. A handler finds out which epics its promotion means, looks at one repo at a
 * time, so it never sees all of them at once, and moves the epic on in two writes.
 */
module Promotion {
  import opened FiniteSets
  import opened Sequences
  import opened Wrappers

  // ------------------------------------------------------------------ one look at the estate

  /** An open pull request: the numbers in a promotion title, its base, its text. */
  datatype Pull = Pull(title: Option<seq<nat>>, base: string, body: string)

  function Reference(repo: string, n: nat): string { repo + "#" + Decimal(n) }

  predicate StandsAt(body: string, i: nat, text: string) { i + |text| <= |body| && body[i..i + |text|] == text }

  /** `owner/repo#n in body`: a substring, whatever stands around it. */
  predicate Mentions(body: string, repo: string, n: nat) {
    exists i: nat :: i <= |body| && StandsAt(body, i, Reference(repo, n))
  }

  /** A repo as a handler finds it; `pulls` is absent when they cannot be listed. */
  datatype RepoView = RepoView(name: string, default: string, pulls: Option<seq<Pull>>, shipping: set<nat>)

  predicate Promotes(p: Pull, repo: RepoView, home: string, epic: nat) {
    && p.title.Some? && p.base == repo.default
    && ((repo.name == home && epic in p.title.value) || Mentions(p.body, home, epic))
  }

  /** The epic still waits for this repo: its promotion is open, or nobody can tell. */
  predicate Waits(repo: RepoView, home: string, epic: nat) {
    repo.pulls.None? || exists i :: 0 <= i < |repo.pulls.value| && Promotes(repo.pulls.value[i], repo, home, epic)
  }

  method OpenPromotions(repos: seq<RepoView>, epic: nat, home: string) returns (waiting: seq<string>)
    ensures forall name :: name in waiting <==> exists i :: 0 <= i < |repos| && repos[i].name == name && Waits(repos[i], home, epic)
    ensures waiting == [] <==> forall i :: 0 <= i < |repos| ==> !Waits(repos[i], home, epic)
  {
    waiting := [];
    for i := 0 to |repos|
      invariant forall name :: name in waiting <==> exists j :: 0 <= j < i && repos[j].name == name && Waits(repos[j], home, epic)
      invariant waiting == [] <==> forall j :: 0 <= j < i ==> !Waits(repos[j], home, epic)
    {
      var repo := repos[i];
      ghost var before := waiting;
      if repo.pulls.None? {
        waiting := waiting + [repo.name];
      } else {
        for k := 0 to |repo.pulls.value|
          invariant (exists j :: 0 <= j < k && Promotes(repo.pulls.value[j], repo, home, epic)) ==> repo.name in waiting
          invariant (forall j :: 0 <= j < k ==> !Promotes(repo.pulls.value[j], repo, home, epic)) ==> waiting == before
          invariant waiting == before || waiting == before + [repo.name]
        {
          if Promotes(repo.pulls.value[k], repo, home, epic) && repo.name !in waiting {
            waiting := waiting + [repo.name];
          }
        }
      }
    }
  }

  /** A sibling owns the epic the promotion's body names, and it waits to ship. */
  predicate NamesSibling(sibling: RepoView, body: string, n: nat) {
    Mentions(body, sibling.name, n) && n in sibling.shipping
  }

  predicate FirstAt(siblings: seq<RepoView>, body: string, n: nat, i: nat)
    requires i < |siblings|
  {
    NamesSibling(siblings[i], body, n) && forall j :: 0 <= j < i ==> !NamesSibling(siblings[j], body, n)
  }

  /** The first sibling that does. */
  function FirstNamed(siblings: seq<RepoView>, body: string, n: nat): (r: Option<string>)
    ensures r.None? <==> forall i :: 0 <= i < |siblings| ==> !NamesSibling(siblings[i], body, n)
    ensures r.Some? ==> exists i :: 0 <= i < |siblings| && siblings[i].name == r.value && FirstAt(siblings, body, n, i)
  {
    if siblings == [] then None
    else if NamesSibling(siblings[0], body, n) then Some(siblings[0].name)
    else
      var rest, r := siblings[1..], FirstNamed(siblings[1..], body, n);
      assert forall i :: 0 <= i < |siblings| ==> i == 0 || siblings[i] == rest[i - 1];
      assert forall i: nat :: i < |rest| && FirstAt(rest, body, n, i) ==> siblings[i + 1] == rest[i] && FirstAt(siblings, body, n, i + 1);
      r
  }

  /** Where a number ships from: this repo first, else the first sibling the body names. */
  function Place(here: RepoView, siblings: seq<RepoView>, body: string, n: nat): Option<string> {
    if n in here.shipping then Some(here.name) else FirstNamed(siblings, body, n)
  }

  /** The list in the order of the numbers, each with its one place. */
  function Promoted(here: RepoView, siblings: seq<RepoView>, numbers: seq<nat>, body: string): (r: seq<(string, nat)>)
    ensures |r| <= |numbers|
    ensures forall e :: e in r <==> e.1 in numbers && Place(here, siblings, body, e.1) == Some(e.0)
  {
    if numbers == [] then []
    else
      var place := Place(here, siblings, body, numbers[0]);
      var rest := Promoted(here, siblings, numbers[1..], body);
      assert numbers == [numbers[0]] + numbers[1..];
      if place.Some? then [(place.value, numbers[0])] + rest else rest
  }

  method SearchSiblings(siblings: seq<RepoView>, body: string, n: nat) returns (found: Option<string>)
    ensures found == FirstNamed(siblings, body, n)
  {
    assert siblings[0..] == siblings;
    for i := 0 to |siblings|
      invariant FirstNamed(siblings[i..], body, n) == FirstNamed(siblings, body, n)
    {
      assert siblings[i..][0] == siblings[i] && siblings[i..][1..] == siblings[i + 1..];
      if NamesSibling(siblings[i], body, n) { return Some(siblings[i].name); }
    }
    found := None;
  }

  lemma PromotedFrom(here: RepoView, siblings: seq<RepoView>, numbers: seq<nat>, body: string, k: nat, out: seq<(string, nat)>)
    requires k < |numbers|
    ensures var place := Place(here, siblings, body, numbers[k]);
            out + Promoted(here, siblings, numbers[k..], body)
            == (if place.Some? then out + [(place.value, numbers[k])] else out) + Promoted(here, siblings, numbers[k + 1..], body)
  {
    hide Place;
    assert numbers[k..][0] == numbers[k] && numbers[k..][1..] == numbers[k + 1..];
    var place, rest := Place(here, siblings, body, numbers[k]), Promoted(here, siblings, numbers[k + 1..], body);
    if place.Some? { assert out + ([(place.value, numbers[k])] + rest) == out + [(place.value, numbers[k])] + rest; }
  }

  method PromotedEpics(here: RepoView, siblings: seq<RepoView>, numbers: seq<nat>, body: string)
    returns (out: seq<(string, nat)>)
    ensures out == Promoted(here, siblings, numbers, body)
  {
    hide Promoted, FirstNamed;
    out := [];
    assert numbers[0..] == numbers;
    for k := 0 to |numbers|
      invariant out + Promoted(here, siblings, numbers[k..], body) == Promoted(here, siblings, numbers, body)
    {
      var n := numbers[k];
      PromotedFrom(here, siblings, numbers, body, k, out);
      if n in here.shipping {
        out := out + [(here.name, n)];
      } else {
        var found := SearchSiblings(siblings, body, n);
        if found.Some? { out := out + [(found.value, n)]; }
      }
    }
    NonePromoted(here, siblings, body);
  }

  lemma NonePromoted(here: RepoView, siblings: seq<RepoView>, body: string)
    ensures Promoted(here, siblings, [], body) == []
  {
  }

  // ------------------------------------------------------------------ what a mention means

  /** Characters of an owner or repo name, and the slash between them. */
  predicate NameChar(c: char) {
    'a' <= c <= 'z' || 'A' <= c <= 'Z' || Digit(c) || c == '-' || c == '_' || c == '.' || c == '/'
  }

  predicate AllName(s: string) { forall i :: 0 <= i < |s| ==> NameChar(s[i]) }

  predicate BeginsAt(body: string, i: nat)
    requires i <= |body|
  {
    i == 0 || !NameChar(body[i - 1])
  }

  predicate EndsAt(body: string, i: nat)
    requires i <= |body|
  {
    i == |body| || !Digit(body[i])
  }

  /** The reference stands by itself: no longer name before it, no longer number after it. */
  predicate Names(body: string, repo: string, n: nat) {
    exists i: nat :: i <= |body| && StandsAt(body, i, Reference(repo, n))
                     && BeginsAt(body, i) && EndsAt(body, i + |Reference(repo, n)|)
  }

  /** A reference of its own whose text holds `repo#n`: a longer owner or path before, more digits after. */
  ghost predicate Hides(body: string, repo: string, n: nat, before: string, m: nat) {
    AllName(before) && m > 0 && Decimal(n) <= Decimal(m) && Names(body, before + repo, m)
  }

  /** The number a string of digits writes. */
  function Value(d: string): nat
    requires forall i :: 0 <= i < |d| ==> Digit(d[i])
  {
    if d == "" then 0
    else
      assert Digit(d[|d| - 1]);
      10 * Value(d[..|d| - 1]) + (d[|d| - 1] as int - '0' as int)
  }

  lemma {:induction false} DecimalOfValue(d: string)
    requires d != "" && d[0] != '0' && forall i :: 0 <= i < |d| ==> Digit(d[i])
    ensures Value(d) > 0 && Decimal(Value(d)) == d
  {
    var last := (d[|d| - 1] as int - '0' as int);
    if |d| == 1 {
      assert d[..0] == "" && Value(d) == last;
    } else {
      var front := d[..|d| - 1];
      DecimalOfValue(front);
      assert Value(d) / 10 == Value(front) && Value(d) % 10 == last;
    }
    assert d == d[..|d| - 1] + [d[|d| - 1]];
  }

  lemma {:induction false} NoLeadingZero(n: nat)
    requires n > 0
    ensures Decimal(n)[0] != '0'
  {
    if n >= 10 { NoLeadingZero(n / 10); }
  }

  /** Where the name characters before `j` begin. */
  function NameStart(body: string, j: nat): (i: nat)
    requires j <= |body|
    ensures i <= j && BeginsAt(body, i) && AllName(body[i..j])
  {
    if j == 0 || !NameChar(body[j - 1]) then j
    else
      var i := NameStart(body, j - 1);
      assert body[i..j] == body[i..j - 1] + [body[j - 1]];
      i
  }

  /** Where the digits from `k` on end. */
  function DigitsEnd(body: string, k: nat): (e: nat)
    requires k <= |body|
    ensures k <= e <= |body| && EndsAt(body, e) && forall i :: k <= i < e ==> Digit(body[i])
    decreases |body| - k
  {
    if k < |body| && Digit(body[k]) then DigitsEnd(body, k + 1) else k
  }

  lemma {:induction false} DigitsReach(body: string, k: nat, e: nat)
    requires k <= e <= |body| && forall i :: k <= i < e ==> Digit(body[i])
    ensures DigitsEnd(body, k) >= e
    decreases e - k
  {
    if k < e { DigitsReach(body, k + 1, e); }
  }

  lemma ReferencePrefix(repo: string, m: nat, n: nat)
    requires Decimal(n) <= Decimal(m)
    ensures Reference(repo, n) <= Reference(repo, m)
  {
    hide Decimal;
  }

  lemma StandsInside(body: string, i: nat, before: string, repo: string, m: nat, n: nat)
    requires StandsAt(body, i, Reference(before + repo, m)) && Decimal(n) <= Decimal(m)
    ensures StandsAt(body, i + |before|, Reference(repo, n))
  {
    var whole, tail, part := Reference(before + repo, m), Reference(repo, m), Reference(repo, n);
    ReferencePrefix(repo, m, n);
    assert whole == before + tail;
    hide Reference, Decimal;
    assert whole[|before|..|before| + |part|] == tail[..|part|] == part;
    SliceOfSlice(body, i, i + |whole|, |before|, |before| + |part|);
  }

  /** The number that stands where a shorter one does. */
  lemma WholeNumber(body: string, k: nat, n: nat) returns (m: nat, e: nat)
    requires n > 0 && StandsAt(body, k, Decimal(n))
    ensures k <= e <= |body| && body[k..e] == Decimal(m) && EndsAt(body, e) && m > 0 && Decimal(n) <= Decimal(m)
  {
    var d := Decimal(n);
    forall x | k <= x < k + |d| ensures Digit(body[x]) {
      assert body[x] == body[k..k + |d|][x - k];
    }
    DigitsReach(body, k, k + |d|);
    e := DigitsEnd(body, k);
    var run := body[k..e];
    SliceOfSlice(body, k, e, 0, |d|);
    assert run[..|d|] == run[0..|d|] == d && run[0] == d[0];
    NoLeadingZero(n);
    DecimalOfValue(run);
    m := Value(run);
  }

  lemma ReferenceParts(body: string, j: nat, repo: string, n: nat)
    requires StandsAt(body, j, Reference(repo, n))
    ensures j + |repo| + 1 <= |body| && body[j..j + |repo| + 1] == repo + "#"
    ensures StandsAt(body, j + |repo| + 1, Decimal(n))
  {
    hide Decimal;
    var short := Reference(repo, n);
    SliceOfSlice(body, j, j + |short|, |repo| + 1, |short|);
    SliceOfSlice(body, j, j + |short|, 0, |repo| + 1);
    assert short[|repo| + 1..|short|] == Decimal(n) && short[0..|repo| + 1] == repo + "#";
  }

  lemma MentionHasWhole(body: string, j: nat, repo: string, n: nat) returns (before: string, m: nat)
    requires n > 0 && StandsAt(body, j, Reference(repo, n))
    ensures Hides(body, repo, n, before, m)
  {
    hide NameChar, Digit, Decimal, EndsAt, BeginsAt, AllName;
    var k := j + |repo| + 1;
    ReferenceParts(body, j, repo, n);
    var e;
    m, e := WholeNumber(body, k, n);
    var i := NameStart(body, j);
    before := body[i..j];
    SliceInTwo(body, i, k, e);
    SliceInTwo(body, i, j, k);
    Joined(before, repo, m);
    assert i + |Reference(before + repo, m)| == e && StandsAt(body, i, Reference(before + repo, m));
  }

  lemma Joined(before: string, repo: string, m: nat)
    ensures before + (repo + "#") + Decimal(m) == Reference(before + repo, m)
  {
  }

  /**
   * Exactly when the substring is found: some reference that stands by itself has a number that
   * begins with these digits, in a repo whose name ends with this one.
   */
  lemma MentionsExactly(body: string, repo: string, n: nat)
    requires n > 0
    ensures Mentions(body, repo, n) <==> exists before, m :: Hides(body, repo, n, before, m)
  {
    if Mentions(body, repo, n) {
      var j: nat :| j <= |body| && StandsAt(body, j, Reference(repo, n));
      var before, m := MentionHasWhole(body, j, repo, n);
    }
    if before, m :| Hides(body, repo, n, before, m) {
      var i: nat :| i <= |body| && StandsAt(body, i, Reference(before + repo, m))
        && BeginsAt(body, i) && EndsAt(body, i + |Reference(before + repo, m)|);
      StandsInside(body, i, before, repo, m, n);
    }
  }

  /** The substring and the reference part exactly on a text that names a longer one and not this one. */
  lemma MentionsMisleads(body: string, repo: string, n: nat)
    requires n > 0
    ensures Names(body, repo, n) ==> Mentions(body, repo, n)
    ensures Mentions(body, repo, n) && !Names(body, repo, n)
       <==> !Names(body, repo, n) && exists before, m :: (before != "" || m != n) && Hides(body, repo, n, before, m)
  {
    MentionsExactly(body, repo, n);
    if Mentions(body, repo, n) && !Names(body, repo, n) {
      var before, m :| Hides(body, repo, n, before, m);
      assert "" + repo == repo;
    }
  }

  /** So this is when a repo is waited for, in terms of what its open promotions really name. */
  lemma WaitsExactly(repo: RepoView, home: string, epic: nat)
    requires epic > 0
    ensures Waits(repo, home, epic) <==>
      repo.pulls.None?
      || exists i :: 0 <= i < |repo.pulls.value|
           && var p := repo.pulls.value[i];
              p.title.Some? && p.base == repo.default
              && ((repo.name == home && epic in p.title.value) || exists before, m :: Hides(p.body, home, epic, before, m))
  {
    if repo.pulls.Some? {
      forall i | 0 <= i < |repo.pulls.value| ensures var p := repo.pulls.value[i];
        Mentions(p.body, home, epic) <==> exists before, m :: Hides(p.body, home, epic, before, m)
      {
        MentionsExactly(repo.pulls.value[i].body, home, epic);
      }
    }
  }

  /**
   * The substring is not the reference: an open promotion of epic `m` alone holds `n` back wherever
   * `m` is a longer number that starts like it, and when it merges its handler ships nothing of `n`.
   */
  lemma LongerNumberHoldsEpicBack(home: string, sibling: RepoView, m: nat, n: nat, others: seq<RepoView>)
    requires n > 0 && m != n && Decimal(n) <= Decimal(m) && m > 0
    ensures var pull := Pull(Some([m]), sibling.default, Reference(home, m));
            && Waits(sibling.(pulls := Some([pull])), home, n)
            && forall e :: e in Promoted(sibling, others, pull.title.value, pull.body) ==> e.1 != n
  {
    var body := Reference(home, m);
    var pull := Pull(Some([m]), sibling.default, body);
    assert body[0..|body|] == body && StandsAt(body, 0, Reference("" + home, m)) by { assert "" + home == home; }
    StandsInside(body, 0, "", home, m, n);
    assert Mentions(body, home, n);
    var repo := sibling.(pulls := Some([pull]));
    assert Promotes(repo.pulls.value[0], repo, home, n);
  }

  /** An entry of a sibling the text does not name by itself. */
  ghost predicate TouchesUnnamed(here: RepoView, siblings: seq<RepoView>, numbers: seq<nat>, body: string, repo: string, n: nat) {
    (repo, n) in Promoted(here, siblings, numbers, body) && repo != here.name && !Names(body, repo, n)
  }

  /**
   * Exactly when a handler touches an epic of a sibling its promotion does not name: the sibling is
   * the first hit for a number this repo does not ship, and all that hits is a longer reference.
   */
  lemma TouchesUnnamedExactly(
      here: RepoView, siblings: seq<RepoView>, numbers: seq<nat>, body: string, repo: string, n: nat)
    requires n > 0
    ensures TouchesUnnamed(here, siblings, numbers, body, repo, n)
       <==> && n in numbers && repo != here.name && n !in here.shipping
            && FirstNamed(siblings, body, n) == Some(repo)
            && !Names(body, repo, n)
            && exists before, m :: (before != "" || m != n) && Hides(body, repo, n, before, m)
  {
    MentionsMisleads(body, repo, n);
    hide Names, Hides, Mentions;
    var listed := Promoted(here, siblings, numbers, body);
    assert (repo, n) in listed <==> n in numbers && Place(here, siblings, body, n) == Some(repo);
    if TouchesUnnamed(here, siblings, numbers, body, repo, n) { HitIsMentioned(siblings, body, n, repo); }
  }

  lemma HitIsMentioned(siblings: seq<RepoView>, body: string, n: nat, repo: string)
    requires FirstNamed(siblings, body, n) == Some(repo)
    ensures Mentions(body, repo, n)
  {
  }

  /**
   * Exactly when an epic is found by the handler of a promotion that mentions it: in its own repo if
   * it ships there, elsewhere if this repo ships no epic of that number and no sibling asked before
   * ships one the text mentions. However fully a text names its epic, its own repo's number comes first.
   */
  lemma FoundExactly(here: RepoView, siblings: seq<RepoView>, body: string, n: nat, home: string)
    ensures Place(here, siblings, body, n) == Some(home)
       <==> (n in here.shipping && here.name == home)
            || (n !in here.shipping && exists i :: 0 <= i < |siblings| && siblings[i].name == home && FirstAt(siblings, body, n, i))
  {
    if i :| 0 <= i < |siblings| && siblings[i].name == home && FirstAt(siblings, body, n, i) {
      OnlyOneFirst(siblings, body, n, i);
    }
  }

  lemma OnlyOneFirst(siblings: seq<RepoView>, body: string, n: nat, i: nat)
    requires i < |siblings| && FirstAt(siblings, body, n, i)
    ensures FirstNamed(siblings, body, n) == Some(siblings[i].name)
  {
    var r := FirstNamed(siblings, body, n);
    assert NamesSibling(siblings[i], body, n);
    var j :| 0 <= j < |siblings| && siblings[j].name == r.value && FirstAt(siblings, body, n, j);
    assert i == j;
  }

  // ------------------------------------------------------------------ handlers side by side

  datatype State = Unopened | Open | Merged | Closed

  /** A repo's promotion PR for the epic. */
  datatype Pr = Pr(repo: string, body: string, state: State)

  /**
   * How the handling of an event ended. `Missed`: the epic was at staging and the handler did not
   * find it. A handler that raises is over; one a crash cuts off starts again.
   */
  datatype End = NotShipping | Missed | StillWaiting(trouble: bool) | Shipped | Raised

  /** `clear` while no repo looked at was waited for; `trouble` once one could not be listed. */
  datatype Phase = Arrived | Scan(next: nat, clear: bool, trouble: bool) | Unlabel | Relabel | Over(end: End)

  /** The handling of one merge event; `since` is how many merges there had been when it arrived. */
  datatype Handler = Handler(guid: nat, pr: nat, since: nat, phase: Phase)

  /** What a look at a repo's pulls yields; one that cannot even be opened is passed over. */
  datatype Sight = Listed | Unlisted | PassedOver

  /**
   * `staging` and `deployed`: the epic carries `factory:in-staging`, `factory:deployed`. The rest is
   * history: `excused` PRs were not opened at first, or were closed or passed over since; `late` when
   * one was opened or reopened, or passed over; `broken` when a handler went no further after taking
   * the first label off.
   */
  datatype World = World(
    home: string, epic: nat, prs: seq<Pr>, merges: seq<nat>, handlers: seq<Handler>,
    staging: bool, deployed: bool, excused: set<nat>, late: bool, broken: bool)

  datatype Change = OpenIt | MergeIt | CloseIt | ReopenIt

  datatype Action =
    | Check(here: RepoView, siblings: seq<RepoView>) | Look(pr: nat, sight: Sight) | Decide
    | TakeLabel(taken: bool) | AddLabel | Fail | Crash

  /** Somebody changes a PR, a merge's event is delivered, or handler `h` goes on. */
  datatype Step = Turn(pr: nat, change: Change) | Deliver(guid: nat, pr: nat) | Act(h: nat, action: Action)

  predicate IsAt(w: World, i: nat, s: State) { i < |w.prs| && w.prs[i].state == s }

  /** The ledger knows this delivery. */
  predicate Known(w: World, guid: nat) { exists h :: 0 <= h < |w.handlers| && w.handlers[h].guid == guid }

  /** A view of the epic's home shows the label as it is. */
  predicate SeesLabel(w: World, v: RepoView) { v.name == w.home ==> (w.epic in v.shipping <==> w.staging) }

  /** What the handler of this PR's merge may find: its own repo, and the siblings it can open. */
  predicate Views(w: World, i: nat, here: RepoView, siblings: seq<RepoView>)
    requires i < |w.prs|
  {
    && here.name == w.prs[i].repo && SeesLabel(w, here)
    && forall j :: 0 <= j < |siblings| ==> SeesLabel(w, siblings[j])
  }

  predicate Finds(w: World, i: nat, here: RepoView, siblings: seq<RepoView>)
    requires i < |w.prs|
  {
    Place(here, siblings, w.prs[i].body, w.epic) == Some(w.home)
  }

  /** What a change needs, and leads to. */
  function Before(c: Change): State { match c case OpenIt => Unopened case ReopenIt => Closed case _ => Open }
  function Becomes(c: Change): State { match c case MergeIt => Merged case CloseIt => Closed case _ => Open }

  predicate MayAct(w: World, h: nat, a: Action)
    requires h < |w.handlers|
  {
    var p := w.handlers[h].phase;
    match a
    case Check(here, siblings) =>
      p.Arrived? && w.handlers[h].pr < |w.prs| && Views(w, w.handlers[h].pr, here, siblings)
    case Look(i, sight) => p.Scan? && p.next == i < |w.prs| && (sight.PassedOver? ==> i != w.handlers[h].pr)
    case Decide => p.Scan? && p.next == |w.prs|
    case TakeLabel(_) => p.Unlabel?
    case AddLabel => p.Relabel?
    case Fail => !p.Over? && !p.Unlabel?
    case Crash => !p.Over?
  }

  predicate Enabled(w: World, s: Step) {
    match s
    case Turn(i, c) => IsAt(w, i, Before(c))
    case Deliver(_, i) => IsAt(w, i, Merged)
    case Act(h, a) => h < |w.handlers| && MayAct(w, h, a)
  }

  function Looked(w: World, p: Phase, i: nat, sight: Sight): Phase
    requires p.Scan? && i < |w.prs|
  {
    match sight
    case Listed => Scan(i + 1, p.clear && !w.prs[i].state.Open?, p.trouble)
    case Unlisted => Scan(i + 1, false, true)
    case PassedOver => Scan(i + 1, p.clear, p.trouble)
  }

  /**
   * Taking the label off never fails the handler: an error there is taken for "already gone". A
   * crash puts the delivery back, to be handled from the start.
   */
  function NewPhase(w: World, h: nat, a: Action): Phase
    requires h < |w.handlers| && MayAct(w, h, a)
  {
    var p := w.handlers[h].phase;
    match a
    case Check(here, siblings) =>
      if Finds(w, w.handlers[h].pr, here, siblings) then Scan(0, true, false)
      else Over(if w.staging then Missed else NotShipping)
    case Look(i, sight) => Looked(w, p, i, sight)
    case Decide => if p.clear then Unlabel else Over(StillWaiting(p.trouble))
    case TakeLabel(_) => Relabel
    case AddLabel => Over(Shipped)
    case Fail => Over(Raised)
    case Crash => Arrived
  }

  predicate PassesOver(a: Action) { a.Look? && a.sight.PassedOver? }

  function Acted(w: World, h: nat, a: Action): World
    requires h < |w.handlers| && MayAct(w, h, a)
  {
    w.(handlers := w.handlers[h := w.handlers[h].(phase := NewPhase(w, h, a))],
    staging := w.staging && !(a.TakeLabel? && a.taken),
    deployed := w.deployed || a.AddLabel?,
    excused := if PassesOver(a) then w.excused + {a.pr} else w.excused,
    late := w.late || PassesOver(a),
    broken := w.broken || ((a.Fail? || a.Crash?) && w.handlers[h].phase.Relabel?))
  }

  function Turned(w: World, i: nat, c: Change): World
    requires i < |w.prs|
  {
    w.(prs := w.prs[i := w.prs[i].(state := Becomes(c))],
    merges := if c.MergeIt? then w.merges + [i] else w.merges,
    excused := if c.CloseIt? then w.excused + {i} else w.excused,
    late := w.late || c.OpenIt? || c.ReopenIt?)
  }

  /** A delivery the ledger knows is dropped. */
  function Delivered(w: World, guid: nat, i: nat): World {
    if Known(w, guid) then w else w.(handlers := w.handlers + [Handler(guid, i, |w.merges|, Arrived)])
  }

  function Next(w: World, s: Step): World
    requires Enabled(w, s)
  {
    match s
    case Turn(i, c) => Turned(w, i, c)
    case Deliver(guid, i) => Delivered(w, guid, i)
    case Act(h, a) => Acted(w, h, a)
  }

  predicate IsRun(w: World, steps: seq<Step>)
    decreases |steps|
  {
    steps == [] || (Enabled(w, steps[0]) && IsRun(Next(w, steps[0]), steps[1..]))
  }

  function After(w: World, steps: seq<Step>): World
    requires IsRun(w, steps)
    decreases |steps|
  {
    if steps == [] then w else After(Next(w, steps[0]), steps[1..])
  }

  function UnopenedAmong(prs: seq<Pr>): set<nat> { set i | 0 <= i < |prs| && prs[i].state.Unopened? }

  /** A release at `factory:in-staging` with these promotion PRs, none handled yet. */
  function Release(home: string, epic: nat, prs: seq<Pr>): World {
    World(home, epic, prs, [], [], true, false, UnopenedAmong(prs), false, false)
  }

  /** None of the PRs has merged or been closed before the start; each is for the epic. */
  predicate Begins(home: string, epic: nat, prs: seq<Pr>) {
    forall i :: 0 <= i < |prs| ==>
      (prs[i].state.Open? || prs[i].state.Unopened?) && (prs[i].repo == home || Mentions(prs[i].body, home, epic))
  }

  predicate AllOpen(prs: seq<Pr>) { forall i :: 0 <= i < |prs| ==> prs[i].state.Open? }

  // ------------------------------------------------------------------ the invariant

  ghost predicate MergesSound(w: World) {
    && (forall i :: 0 <= i < |w.merges| ==> IsAt(w, w.merges[i], Merged))
    && (forall i, j :: 0 <= i < j < |w.merges| ==> w.merges[i] != w.merges[j])
    && (forall i :: 0 <= i < |w.prs| && w.prs[i].state.Merged? ==> i in w.merges)
  }

  /** The PR merged, or there is a reason for not waiting for it. */
  predicate Accounted(w: World, i: nat)
    requires i < |w.prs|
  {
    w.prs[i].state.Merged? || i in w.excused
  }

  ghost predicate PrsSound(w: World) {
    forall i :: 0 <= i < |w.prs| ==> (w.prs[i].state.Unopened? || w.prs[i].state.Closed? ==> i in w.excused)
  }

  ghost predicate AllMerged(w: World) { forall i :: 0 <= i < |w.prs| ==> w.prs[i].state.Merged? }

  /** The first `n` PRs are accounted for, and none is open if none was opened late or passed over. */
  ghost predicate ClearUpTo(w: World, n: nat) {
    n <= |w.prs| && forall i :: 0 <= i < n ==> Accounted(w, i) && (!w.late ==> !w.prs[i].state.Open?)
  }

  ghost predicate HandlerOk(w: World, h: Handler) {
    && h.since <= |w.merges| && h.pr in w.merges[..h.since]
    && match h.phase
       case Arrived => true
       case Scan(next, clear, trouble) =>
         && next <= |w.prs|
         && (clear ==> ClearUpTo(w, next))
         && (h.since == |w.prs| && !trouble ==> clear)
       case Unlabel => ClearUpTo(w, |w.prs|)
       case Relabel => ClearUpTo(w, |w.prs|)
       case Over(end) =>
         && (end.NotShipping? ==> !w.staging)
         && (end.StillWaiting? && h.since == |w.prs| ==> end.trouble)
         && (end.Shipped? ==> w.deployed)
  }

  /** Some handler is between its two writes. */
  ghost predicate SomeBetween(w: World) { exists h :: 0 <= h < |w.handlers| && w.handlers[h].phase.Relabel? }

  ghost predicate SomeShipped(w: World) { exists h :: 0 <= h < |w.handlers| && w.handlers[h].phase == Over(Shipped) }

  ghost predicate LabelsSound(w: World) {
    && (w.deployed ==> ClearUpTo(w, |w.prs|) && SomeShipped(w))
    && (!w.staging ==> ClearUpTo(w, |w.prs|) && (w.deployed || SomeBetween(w) || w.broken))
  }

  ghost predicate Inv(w: World) {
    && MergesSound(w) && PrsSound(w) && LabelsSound(w)
    && (forall h :: 0 <= h < |w.handlers| ==> HandlerOk(w, w.handlers[h]))
  }

  function UpTo(n: nat): (r: set<nat>)
    ensures |r| == n && forall i: nat :: i in r <==> i < n
  {
    if n == 0 then {} else UpTo(n - 1) + {n - 1}
  }

  /** As many distinct merges as PRs means all of them. */
  lemma MergeCount(w: World)
    requires MergesSound(w)
    ensures |w.merges| <= |w.prs|
    ensures AllMerged(w) <==> |w.merges| == |w.prs|
  {
    var merged, all := Elements(w.merges), UpTo(|w.prs|);
    CountDistinct(w.merges);
    forall i | i in merged ensures i in all { assert i in w.merges; }
    SubsetSize(merged, all);
    if |w.merges| == |w.prs| {
      forall i | 0 <= i < |w.prs| ensures w.prs[i].state.Merged? { assert i in all; }
    }
    if AllMerged(w) {
      forall i | i in all ensures i in merged { assert w.prs[i].state.Merged?; }
      assert merged == all;
    }
  }

  /** What no step takes back. */
  ghost predicate Follows(w: World, next: World) {
    && |next.prs| == |w.prs| && |w.merges| <= |next.merges| && next.merges[..|w.merges|] == w.merges
    && (forall n: nat :: ClearUpTo(w, n) ==> ClearUpTo(next, n))
    && (!w.staging ==> !next.staging) && (w.deployed ==> next.deployed)
  }

  lemma ActClears(w: World, h: nat, a: Action, n: nat)
    requires h < |w.handlers| && MayAct(w, h, a) && ClearUpTo(w, n)
    ensures ClearUpTo(Acted(w, h, a), n)
  {
    hide MayAct, NewPhase;
  }

  /** A merged PR stays merged, an excused one excused, and only a late change opens one. */
  lemma TurnClears(w: World, i: nat, c: Change, n: nat)
    requires PrsSound(w) && IsAt(w, i, Before(c)) && ClearUpTo(w, n)
    ensures ClearUpTo(Turned(w, i, c), n)
  {
  }

  lemma StepFollows(w: World, s: Step)
    requires PrsSound(w) && Enabled(w, s)
    ensures Follows(w, Next(w, s))
  {
    forall n: nat | ClearUpTo(w, n) ensures ClearUpTo(Next(w, s), n) {
      match s
      case Turn(i, c) => TurnClears(w, i, c, n);
      case Act(h, a) => ActClears(w, h, a, n);
      case Deliver(_, _) =>
    }
    hide ClearUpTo, PrsSound, MayAct, NewPhase, Known;
  }

  lemma HandlerCarries(w: World, next: World, g: Handler)
    requires Follows(w, next) && HandlerOk(w, g)
    ensures HandlerOk(next, g)
  {
    hide ClearUpTo;
    assert next.merges[..g.since] == next.merges[..|w.merges|][..g.since];
  }

  /** The label shows wherever the epic is found. */
  lemma FindsNeedsLabel(w: World, i: nat, here: RepoView, siblings: seq<RepoView>)
    requires i < |w.prs| && Views(w, i, here, siblings) && Finds(w, i, here, siblings)
    ensures w.staging
  {
    FoundExactly(here, siblings, w.prs[i].body, w.epic, w.home);
  }

  /** What a handler may rely on. */
  lemma HandlerKnows(w: World, h: nat)
    requires Inv(w) && h < |w.handlers|
    ensures HandlerOk(w, w.handlers[h])
    ensures w.handlers[h].since == |w.prs| ==> AllMerged(w)
  {
    MergeCount(w);
  }

  lemma ClearOneMore(w: World, n: nat)
    requires ClearUpTo(w, n) && n < |w.prs| && Accounted(w, n) && (!w.late ==> !w.prs[n].state.Open?)
    ensures ClearUpTo(w, n + 1)
  {
  }

  lemma LookOk(w: World, h: nat, i: nat, sight: Sight)
    requires Inv(w) && h < |w.handlers| && MayAct(w, h, Look(i, sight))
    ensures HandlerOk(Acted(w, h, Look(i, sight)), Acted(w, h, Look(i, sight)).handlers[h])
  {
    HandlerKnows(w, h);
    var p, next := w.handlers[h].phase, Acted(w, h, Look(i, sight));
    if Looked(w, p, i, sight).clear {
      ActClears(w, h, Look(i, sight), i);
      ClearOneMore(next, i);
    }
    hide Inv, ClearUpTo;
  }

  lemma OwnAct(w: World, h: nat, a: Action)
    requires Inv(w) && h < |w.handlers| && MayAct(w, h, a)
    ensures HandlerOk(Acted(w, h, a), Acted(w, h, a).handlers[h])
  {
    if a.Look? {
      LookOk(w, h, a.pr, a.sight);
    } else if a.Check? {
      HandlerKnows(w, h);
      NothingToClear(Acted(w, h, a));
      hide Inv, Finds, Views, ClearUpTo, AllMerged;
    } else {
      HandlerKnows(w, h);
      var p := w.handlers[h].phase;
      if (p.Scan? && p.clear) || p.Unlabel? || p.Relabel? { ActClears(w, h, a, if p.Scan? then p.next else |w.prs|); }
      hide Inv, Finds, Views, ClearUpTo, AllMerged, Looked;
    }
  }

  lemma NothingToClear(w: World)
    ensures ClearUpTo(w, 0)
  {
  }

  lemma StepKeepsMerges(w: World, s: Step)
    requires MergesSound(w) && PrsSound(w) && Enabled(w, s)
    ensures MergesSound(Next(w, s)) && PrsSound(Next(w, s))
  {
    hide MayAct, NewPhase, Known;
    if s.Turn? && s.change.MergeIt? { assert (w.merges + [s.pr])[|w.merges|] == s.pr; }
  }

  /** A handler that is over stays so, and one between its writes stays there, ships or breaks off. */
  lemma HandlerMovesOn(w: World, s: Step, h: nat)
    requires Enabled(w, s) && h < |w.handlers|
    ensures var next := Next(w, s);
            && h < |next.handlers|
            && (w.handlers[h].phase.Over? ==> next.handlers[h].phase == w.handlers[h].phase)
            && (w.handlers[h].phase.Relabel? ==>
                 next.handlers[h].phase.Relabel? || next.broken || (next.deployed && next.handlers[h].phase == Over(Shipped)))
  {
    hide Finds, Views, Known, Looked;
  }

  lemma LabelsStay(w: World, s: Step)
    requires Enabled(w, s)
    ensures var next := Next(w, s);
            && (SomeShipped(w) ==> SomeShipped(next)) && (w.broken ==> next.broken)
            && (SomeBetween(w) ==> SomeBetween(next) || next.broken || next.deployed)
  {
    hide MayAct, NewPhase, Known;
    if SomeShipped(w) {
      var h :| 0 <= h < |w.handlers| && w.handlers[h].phase == Over(Shipped);
      HandlerMovesOn(w, s, h);
    }
    if SomeBetween(w) {
      var h :| 0 <= h < |w.handlers| && w.handlers[h].phase.Relabel?;
      HandlerMovesOn(w, s, h);
    }
  }

  /** A label write comes after a clear scan. */
  lemma WritesAreClear(w: World, h: nat, a: Action)
    requires Inv(w) && h < |w.handlers| && MayAct(w, h, a) && (a.TakeLabel? || a.AddLabel?)
    ensures ClearUpTo(w, |w.prs|)
    ensures Acted(w, h, a).handlers[h].phase == if a.TakeLabel? then Relabel else Over(Shipped)
  {
    assert HandlerOk(w, w.handlers[h]);
    hide Inv, ClearUpTo;
  }

  lemma StepKeepsLabels(w: World, s: Step)
    requires Inv(w) && Enabled(w, s)
    ensures LabelsSound(Next(w, s))
  {
    LabelsStay(w, s);
    StepFollows(w, s);
    if s.Act? && (s.action.TakeLabel? || s.action.AddLabel?) { WritesAreClear(w, s.h, s.action); }
    hide ClearUpTo, MergesSound, PrsSound, HandlerOk, MayAct, NewPhase, Known;
  }

  lemma NewHandlerOk(w: World, guid: nat, i: nat)
    requires MergesSound(w) && IsAt(w, i, Merged)
    ensures HandlerOk(w, Handler(guid, i, |w.merges|, Arrived))
  {
    assert w.merges[..|w.merges|] == w.merges;
  }

  lemma HandlersAfter(w: World, s: Step)
    requires Enabled(w, s)
    ensures var next := Next(w, s);
            && |next.handlers| == |w.handlers| + (if s.Deliver? && !Known(w, s.guid) then 1 else 0)
            && (forall h :: 0 <= h < |w.handlers| && !(s.Act? && s.h == h) ==> next.handlers[h] == w.handlers[h])
            && (s.Deliver? && !Known(w, s.guid) ==> next.handlers[|w.handlers|] == Handler(s.guid, s.pr, |w.merges|, Arrived))
  {
    hide MayAct, NewPhase;
  }

  lemma StepKeepsInv(w: World, s: Step)
    requires Inv(w) && Enabled(w, s)
    ensures Inv(Next(w, s))
  {
    StepKeepsMerges(w, s);
    StepKeepsLabels(w, s);
    StepFollows(w, s);
    HandlersAfter(w, s);
    if s.Deliver? { NewHandlerOk(w, s.guid, s.pr); }
    if s.Act? { OwnAct(w, s.h, s.action); }
    hide HandlerOk, MergesSound, PrsSound, LabelsSound, Follows, MayAct, Acted, Turned, Known;
    var next := Next(w, s);
    forall h | 0 <= h < |next.handlers| ensures HandlerOk(next, next.handlers[h]) {
      if !(s.Act? && s.h == h) { HandlerCarries(w, next, next.handlers[h]); }
    }
  }

  lemma {:induction false} RunKeepsInv(w: World, steps: seq<Step>)
    requires Inv(w) && IsRun(w, steps)
    ensures Inv(After(w, steps)) && |After(w, steps).prs| == |w.prs|
    decreases |steps|
  {
    if steps != [] {
      StepKeepsInv(w, steps[0]);
      SamePrs(w, steps[0]);
      hide Inv, Next, Enabled;
      RunKeepsInv(Next(w, steps[0]), steps[1..]);
    }
  }

  lemma SamePrs(w: World, s: Step)
    requires Enabled(w, s)
    ensures var next := Next(w, s);
            && next.home == w.home && next.epic == w.epic && |next.prs| == |w.prs|
            && forall i :: 0 <= i < |w.prs| ==> next.prs[i].repo == w.prs[i].repo && next.prs[i].body == w.prs[i].body
  {
    hide MayAct, NewPhase, Known;
  }

  lemma ReleaseInv(home: string, epic: nat, prs: seq<Pr>)
    requires Begins(home, epic, prs)
    ensures Inv(Release(home, epic, prs))
  {
  }

  // ------------------------------------------------------------------ never too early

  predicate Closes(steps: seq<Step>, i: nat) { exists k :: 0 <= k < |steps| && steps[k] == Turn(i, CloseIt) }

  predicate PassedIn(steps: seq<Step>, i: nat) {
    exists k :: 0 <= k < |steps| && steps[k].Act? && steps[k].action == Look(i, PassedOver)
  }

  /** In none of these steps is a PR reopened, opened for the first time, or passed over. */
  predicate NothingLate(steps: seq<Step>) {
    forall k :: 0 <= k < |steps| ==>
      && !(steps[k].Turn? && (steps[k].change.OpenIt? || steps[k].change.ReopenIt?))
      && !(steps[k].Act? && PassesOver(steps[k].action))
  }

  /** Where the excuses come from. */
  lemma {:induction false} ExcusedBySteps(w: World, steps: seq<Step>)
    requires IsRun(w, steps)
    ensures forall i: nat :: i in After(w, steps).excused ==> i in w.excused || Closes(steps, i) || PassedIn(steps, i)
    ensures NothingLate(steps) ==> After(w, steps).late == w.late
    decreases |steps|
  {
    if steps != [] {
      var next, rest := Next(w, steps[0]), steps[1..];
      ExcusedBySteps(next, rest);
      OneExcuse(w, steps[0]);
      hide Enabled, Next;
      if NothingLate(steps) {
        forall k | 0 <= k < |rest| ensures rest[k] == steps[k + 1] {}
        assert NothingLate(rest);
      }
      forall i: nat | i in After(w, steps).excused ensures i in w.excused || Closes(steps, i) || PassedIn(steps, i) {
        if Closes(rest, i) {
          var k :| 0 <= k < |rest| && rest[k] == Turn(i, CloseIt);
          assert steps[k + 1] == Turn(i, CloseIt);
        } else if PassedIn(rest, i) {
          var k :| 0 <= k < |rest| && rest[k].Act? && rest[k].action == Look(i, PassedOver);
          assert steps[k + 1].Act?;
        } else if i !in w.excused {
          if steps[0].Turn? { assert steps[0] == Turn(i, CloseIt); } else { assert steps[0].action == Look(i, PassedOver); }
        }
      }
    }
  }

  lemma OneExcuse(w: World, s: Step)
    requires Enabled(w, s)
    ensures var next := Next(w, s);
            && (forall i: nat :: i in next.excused && i !in w.excused ==>
                 s == Turn(i, CloseIt) || (s.Act? && s.action == Look(i, PassedOver)))
            && (next.late && !w.late ==>
                 (s.Turn? && (s.change.OpenIt? || s.change.ReopenIt?)) || (s.Act? && PassesOver(s.action)))
  {
    hide MayAct, NewPhase, Known;
  }

  /** The epic has lost its first label or has its last. */
  predicate Shipping(w: World) { w.deployed || !w.staging }

  /**
   * Never too early, up to what the code cannot see: an epic moves on only when each of its PRs has
   * merged, or was not open at the start, was closed, or was passed over as its repo could not be
   * opened; and none is open then, unless one was opened, reopened or passed over on the way.
   */
  lemma NeverDeployedEarly(home: string, epic: nat, prs: seq<Pr>, steps: seq<Step>)
    requires Begins(home, epic, prs) && IsRun(Release(home, epic, prs), steps)
    ensures var w := After(Release(home, epic, prs), steps);
            Shipping(w) ==>
              && |w.prs| == |prs|
              && (forall i: nat :: i < |prs| ==>
                   w.prs[i].state.Merged? || prs[i].state.Unopened? || Closes(steps, i) || PassedIn(steps, i))
              && (NothingLate(steps) ==> forall i :: 0 <= i < |prs| ==> !w.prs[i].state.Open?)
  {
    var w0 := Release(home, epic, prs);
    var w := After(w0, steps);
    ReleaseInv(home, epic, prs);
    RunKeepsInv(w0, steps);
    ExcusedBySteps(w0, steps);
    hide IsRun, After, Closes, PassedIn, NothingLate;
    if Shipping(w) {
      assert ClearUpTo(w, |w.prs|);
      forall i: nat | i < |prs| ensures w.prs[i].state.Merged? || prs[i].state.Unopened? || Closes(steps, i) || PassedIn(steps, i) {
        assert Accounted(w, i);
      }
    }
  }

  // ------------------------------------------------------------------ no lost wake-up, and when one is lost

  /** Handled without an error, every repo that could be opened listed. */
  predicate Clean(p: Phase) { p.Over? && (p.end.NotShipping? || p.end.Missed? || p.end.Shipped? || p.end == StillWaiting(false)) }

  /** Some event of this PR's merge was. */
  ghost predicate Handled(w: World, pr: nat) {
    exists h :: 0 <= h < |w.handlers| && w.handlers[h].pr == pr && Clean(w.handlers[h].phase)
  }

  /** Every PR is merged and handled, and no handler is between its two writes. */
  ghost predicate Settled(w: World) {
    AllMerged(w) && (forall i :: 0 <= i < |w.prs| ==> Handled(w, i)) && !SomeBetween(w)
  }

  /** A handler of this PR's merge did not find the epic, which was waiting. */
  ghost predicate MissedBy(w: World, pr: nat) {
    exists h :: 0 <= h < |w.handlers| && w.handlers[h].pr == pr && w.handlers[h].phase == Over(Missed)
  }

  ghost predicate LastMissed(w: World) { |w.merges| > 0 && MissedBy(w, w.merges[|w.merges| - 1]) }

  /**
   * No lost wake-up: once every PR is merged and handled, the epic is deployed - however the merges,
   * closings and reopenings, the handlers and their single looks and writes interleaved, and however
   * else other handlers failed - unless one broke off between taking the old label and adding the new
   * one, or the last merge's handler found another epic, or none, in its place. It is not deployed
   * exactly when one of these happened and no handler got through both writes.
   */
  lemma NoLostWakeUp(home: string, epic: nat, prs: seq<Pr>, steps: seq<Step>)
    requires Begins(home, epic, prs) && prs != [] && IsRun(Release(home, epic, prs), steps)
    requires Settled(After(Release(home, epic, prs), steps))
    ensures var w := After(Release(home, epic, prs), steps);
            && (!w.broken && !LastMissed(w) ==> w.deployed)
            && (!w.deployed <==> (w.broken || LastMissed(w)) && !SomeShipped(w))
  {
    var w0 := Release(home, epic, prs);
    ReleaseInv(home, epic, prs);
    RunKeepsInv(w0, steps);
    hide Inv, Settled, IsRun;
    SettledEnd(After(w0, steps));
  }

  lemma SettledEnd(w: World)
    requires Inv(w) && w.prs != [] && Settled(w)
    ensures !w.broken && !LastMissed(w) ==> w.deployed
    ensures !w.deployed <==> (w.broken || LastMissed(w)) && !SomeShipped(w)
  {
    MergeCount(w);
    var last := w.merges[|w.merges| - 1];
    assert IsAt(w, last, Merged) && Handled(w, last);
    var h :| 0 <= h < |w.handlers| && w.handlers[h].pr == last && Clean(w.handlers[h].phase);
    LastSawAll(w, h);
    hide HandlerOk, Clean, MergesSound, ClearUpTo;
    if SomeShipped(w) { ShippedDeployed(w); }
  }

  lemma ShippedDeployed(w: World)
    requires Inv(w) && SomeShipped(w)
    ensures w.deployed
  {
    hide MergesSound, PrsSound, LabelsSound;
    var g :| 0 <= g < |w.handlers| && w.handlers[g].phase == Over(Shipped);
    assert HandlerOk(w, w.handlers[g]);
  }

  /** The event of the last merge arrived after every merge: its handler ships, misses, or finds it shipping no more. */
  lemma LastSawAll(w: World, h: nat)
    requires Inv(w) && AllMerged(w) && h < |w.handlers| && |w.merges| > 0
    requires w.handlers[h].pr == w.merges[|w.merges| - 1] && Clean(w.handlers[h].phase)
    ensures w.handlers[h].phase == Over(Missed) || w.deployed || SomeBetween(w) || w.broken
  {
    MergeCount(w);
    var n := w.handlers[h].since;
    assert HandlerOk(w, w.handlers[h]);
    var i :| 0 <= i < n && w.merges[..n][i] == w.handlers[h].pr;
    assert w.merges[i] == w.merges[|w.merges| - 1];
    assert i == |w.merges| - 1;
  }

  /** A repo whose handlers always find the epic: it is the home, or ships no epic of that number itself. */
  predicate NothingInTheWay(here: RepoView, siblings: seq<RepoView>, body: string, home: string, epic: nat) {
    if here.name == home then true
    else
      && epic !in here.shipping && Mentions(body, home, epic)
      && exists i :: 0 <= i < |siblings| && siblings[i].name == home
           && forall j :: 0 <= j < i ==> !NamesSibling(siblings[j], body, epic)
  }

  /** When nothing is in the way a waiting epic is found: the home, or no nearer epic of the same number. */
  lemma FoundUnlessInTheWay(w: World, i: nat, here: RepoView, siblings: seq<RepoView>)
    requires i < |w.prs| && Views(w, i, here, siblings) && w.staging
    ensures NothingInTheWay(here, siblings, w.prs[i].body, w.home, w.epic) ==> Finds(w, i, here, siblings)
  {
    if NothingInTheWay(here, siblings, w.prs[i].body, w.home, w.epic) && here.name != w.home {
      var k :| 0 <= k < |siblings| && siblings[k].name == w.home
        && forall j :: 0 <= j < k ==> !NamesSibling(siblings[j], w.prs[i].body, w.epic);
      assert SeesLabel(w, siblings[k]);
      assert FirstAt(siblings, w.prs[i].body, w.epic, k);
      FoundExactly(here, siblings, w.prs[i].body, w.epic, w.home);
    }
  }

  /** No handler that checks in finds anything in the way of the epic. */
  predicate NothingInTheWayIn(home: string, epic: nat, prs: seq<Pr>, steps: seq<Step>) {
    forall k, i :: 0 <= k < |steps| && 0 <= i < |prs| && steps[k].Act? && steps[k].action.Check?
      && steps[k].action.here.name == prs[i].repo
      ==> NothingInTheWay(steps[k].action.here, steps[k].action.siblings, prs[i].body, home, epic)
  }

  ghost predicate NoneMissed(w: World) { forall h :: 0 <= h < |w.handlers| ==> w.handlers[h].phase != Over(Missed) }

  predicate SameNames(w: World, home: string, epic: nat, prs: seq<Pr>) {
    && w.home == home && w.epic == epic && |w.prs| == |prs|
    && forall i :: 0 <= i < |prs| ==> w.prs[i].repo == prs[i].repo && w.prs[i].body == prs[i].body
  }

  lemma {:induction false} NoneMisses(w: World, home: string, epic: nat, prs: seq<Pr>, steps: seq<Step>)
    requires SameNames(w, home, epic, prs) && IsRun(w, steps) && NothingInTheWayIn(home, epic, prs, steps) && NoneMissed(w)
    ensures NoneMissed(After(w, steps))
    decreases |steps|
  {
    if steps != [] {
      var next, rest := Next(w, steps[0]), steps[1..];
      OneMoreFinds(w, home, epic, prs, steps);
      SamePrs(w, steps[0]);
      forall k | 0 <= k < |rest| ensures rest[k] == steps[k + 1] {}
      hide Enabled, Next, NothingInTheWay, NoneMissed;
      NoneMisses(next, home, epic, prs, rest);
    }
  }

  lemma OneMoreFinds(w: World, home: string, epic: nat, prs: seq<Pr>, steps: seq<Step>)
    requires SameNames(w, home, epic, prs) && steps != [] && Enabled(w, steps[0])
    requires NothingInTheWayIn(home, epic, prs, steps) && NoneMissed(w)
    ensures NoneMissed(Next(w, steps[0]))
  {
    var s, next := steps[0], Next(w, steps[0]);
    HandlersAfter(w, s);
    if s.Act? && s.action.Check? && w.staging {
      FoundUnlessInTheWay(w, w.handlers[s.h].pr, s.action.here, s.action.siblings);
    }
    hide Views, Finds, Known, NothingInTheWay;
    forall h | 0 <= h < |next.handlers| ensures next.handlers[h].phase != Over(Missed) {
      if h < |w.handlers| { assert w.handlers[h].phase != Over(Missed); }
    }
  }

  /** So with nothing in the way, and nobody breaking off, no wake-up is lost. */
  lemma WakesUp(home: string, epic: nat, prs: seq<Pr>, steps: seq<Step>)
    requires Begins(home, epic, prs) && prs != [] && IsRun(Release(home, epic, prs), steps)
    requires Settled(After(Release(home, epic, prs), steps)) && !After(Release(home, epic, prs), steps).broken
    requires NothingInTheWayIn(home, epic, prs, steps)
    ensures After(Release(home, epic, prs), steps).deployed
  {
    NoLostWakeUp(home, epic, prs, steps);
    NoneMisses(Release(home, epic, prs), home, epic, prs, steps);
  }

  /** Its own repo's epic of the same number comes first, however fully the text names this one. */
  lemma OwnNumberIsTaken(here: RepoView, siblings: seq<RepoView>, body: string, home: string, epic: nat)
    requires here.name != home && epic in here.shipping
    ensures Place(here, siblings, body, epic) == Some(here.name) != Some(home)
  {
  }

  // ------------------------------------------------------------------ lost for good

  /** Past its check with nothing to stop it: it may still deploy. */
  predicate MayShip(p: Phase) { (p.Scan? && p.clear) || p.Unlabel? || p.Relabel? }

  /** Neither label, and nobody left who would add one. */
  ghost predicate Stranded(w: World) {
    !w.staging && !w.deployed && forall h :: 0 <= h < |w.handlers| ==> !MayShip(w.handlers[h].phase)
  }

  lemma StrandedStays(w: World, s: Step)
    requires Stranded(w) && Enabled(w, s)
    ensures Stranded(Next(w, s))
  {
    var next := Next(w, s);
    HandlersAfter(w, s);
    if s.Act? {
      assert !MayShip(w.handlers[s.h].phase);
      if s.action.Check? && Finds(w, w.handlers[s.h].pr, s.action.here, s.action.siblings) {
        FindsNeedsLabel(w, w.handlers[s.h].pr, s.action.here, s.action.siblings);
      }
    }
    hide Finds, Views, Known, Looked;
    forall h | 0 <= h < |next.handlers| ensures !MayShip(next.handlers[h].phase) {
      if h < |w.handlers| { assert !MayShip(w.handlers[h].phase); }
    }
  }

  /** A stranded epic stays so through everything, later events included. */
  lemma {:induction false} LostForGood(w: World, steps: seq<Step>)
    requires Stranded(w) && IsRun(w, steps)
    ensures Stranded(After(w, steps))
    decreases |steps|
  {
    if steps != [] {
      StrandedStays(w, steps[0]);
      hide Stranded, Next, Enabled;
      LostForGood(Next(w, steps[0]), steps[1..]);
    }
  }

  /** Breaking off between the writes, by an error or a crash, strands the epic exactly when no other handler is past its check. */
  lemma BreakingOffStrands(w: World, h: nat, a: Action)
    requires h < |w.handlers| && w.handlers[h].phase.Relabel? && !w.staging && !w.deployed && (a.Fail? || a.Crash?)
    ensures MayAct(w, h, a)
    ensures Stranded(Acted(w, h, a)) <==> forall g :: 0 <= g < |w.handlers| && g != h ==> !MayShip(w.handlers[g].phase)
  {
    var next := Acted(w, h, a);
    forall g | 0 <= g < |w.handlers| && g != h ensures next.handlers[g] == w.handlers[g] {}
    assert next.handlers[h].phase == if a.Fail? then Over(Raised) else Arrived;
  }

  /** Nobody is handling anything. */
  ghost predicate Quiet(w: World) { forall h :: 0 <= h < |w.handlers| ==> w.handlers[h].phase.Over? }

  /** Every delivery of these is one the ledger knows. */
  predicate OnlyKnown(w: World, steps: seq<Step>) {
    forall k :: 0 <= k < |steps| ==> (steps[k].Deliver? ==> Known(w, steps[k].guid))
  }

  /** With all handlers over, nothing moves the epic until a delivery with a new guid: a repeated one is dropped. */
  lemma {:induction false} QuietStays(w: World, steps: seq<Step>)
    requires Quiet(w) && IsRun(w, steps) && OnlyKnown(w, steps)
    ensures var end := After(w, steps);
            end.handlers == w.handlers && end.deployed == w.deployed && end.staging == w.staging
    decreases |steps|
  {
    if steps != [] {
      var next, rest := Next(w, steps[0]), steps[1..];
      assert steps[0].Deliver? ==> Known(w, steps[0].guid);
      assert !steps[0].Act?;
      assert next.handlers == w.handlers;
      forall k | 0 <= k < |rest| && rest[k].Deliver? ensures Known(next, rest[k].guid) { assert rest[k] == steps[k + 1]; }
      QuietStays(next, rest);
    }
  }

  // ------------------------------------------------------------------ runs put together

  lemma {:induction false} RunConcat(w: World, a: seq<Step>, b: seq<Step>)
    requires IsRun(w, a) && IsRun(After(w, a), b)
    ensures IsRun(w, a + b) && After(w, a + b) == After(After(w, a), b)
    decreases |a|
  {
    hide Enabled, Next;
    if a == [] {
      assert a + b == b;
    } else {
      RunConcat(Next(w, a[0]), a[1..], b);
      assert (a + b)[1..] == a[1..] + b;
    }
  }

  /** A run and one more step. */
  lemma RunThen(w: World, a: seq<Step>, s: Step)
    requires IsRun(w, a) && Enabled(After(w, a), s)
    ensures IsRun(w, a + [s]) && After(w, a + [s]) == Next(After(w, a), s)
  {
    assert [s][1..] == [] && IsRun(Next(After(w, a), s), []);
    RunConcat(w, a, [s]);
  }

  function Put(w: World, h: nat, p: Phase): World
    requires h < |w.handlers|
  {
    w.(handlers := w.handlers[h := w.handlers[h].(phase := p)])
  }

  predicate OpenFrom(w: World, n: nat) { exists i :: n <= i < |w.prs| && w.prs[i].state.Open? }

  /** Merges, deliveries and handlers at work; no PR is opened, closed, reopened or passed over. */
  predicate PlainStep(s: Step) { s.Deliver? || (s.Turn? && s.change.MergeIt?) || (s.Act? && !PassesOver(s.action)) }

  predicate Plain(steps: seq<Step>) { forall k :: 0 <= k < |steps| ==> PlainStep(steps[k]) }

  predicate NoDelivery(steps: seq<Step>) { forall k :: 0 <= k < |steps| ==> !steps[k].Deliver? }

  /** A handler may list the pulls of all the repos it has left. */
  lemma {:induction false} LooksThrough(w: World, h: nat) returns (steps: seq<Step>)
    requires h < |w.handlers| && w.handlers[h].phase.Scan? && w.handlers[h].phase.next <= |w.prs|
    ensures IsRun(w, steps) && Plain(steps) && NoDelivery(steps)
    ensures var p := w.handlers[h].phase;
            After(w, steps) == Put(w, h, Scan(|w.prs|, p.clear && !OpenFrom(w, p.next), p.trouble))
    decreases |w.prs| - w.handlers[h].phase.next
  {
    var p := w.handlers[h].phase;
    if p.next == |w.prs| {
      steps := [];
      assert w.handlers[h := w.handlers[h]] == w.handlers;
    } else {
      var look := Act(h, Look(p.next, Listed));
      var next := Next(w, look);
      var rest := LooksThrough(next, h);
      steps := [look] + rest;
      assert OpenFrom(w, p.next) <==> w.prs[p.next].state.Open? || OpenFrom(next, p.next + 1);
      assert next == Put(w, h, next.handlers[h].phase);
      assert forall q: Phase :: Put(next, h, q).handlers == Put(w, h, q).handlers;
    }
  }

  /** The PR is for the epic: in its home, or mentioning it. */
  predicate IsFor(w: World, i: nat)
    requires i < |w.prs|
  {
    w.prs[i].repo == w.home || Mentions(w.prs[i].body, w.home, w.epic)
  }

  /** The estate as it may look with no other epic of that number about. */
  lemma ViewOf(w: World, i: nat) returns (here: RepoView, siblings: seq<RepoView>)
    requires i < |w.prs| && IsFor(w, i) && w.staging
    ensures Views(w, i, here, siblings) && Finds(w, i, here, siblings)
  {
    var home := RepoView(w.home, "", None, {w.epic});
    if w.prs[i].repo == w.home {
      here, siblings := home, [];
    } else {
      here, siblings := RepoView(w.prs[i].repo, "", None, {}), [home];
      assert FirstAt(siblings, w.prs[i].body, w.epic, 0);
    }
    FoundExactly(here, siblings, w.prs[i].body, w.epic, w.home);
  }

  function Decided(w: World): Phase { if OpenFrom(w, 0) then Over(StillWaiting(false)) else Unlabel }

  /** A handler that has not begun may look everything over, and waits exactly if a PR is open. */
  lemma HandledToDecision(w: World, h: nat) returns (steps: seq<Step>)
    requires h < |w.handlers| && w.handlers[h].phase.Arrived? && w.handlers[h].pr < |w.prs|
    requires IsFor(w, w.handlers[h].pr) && w.staging
    ensures IsRun(w, steps) && Plain(steps) && NoDelivery(steps)
    ensures After(w, steps) == Put(w, h, Decided(w))
  {
    var here, siblings := ViewOf(w, w.handlers[h].pr);
    var check := Act(h, Check(here, siblings));
    RunThen(w, [], check);
    assert [] + [check] == [check];
    var scanning := Put(w, h, Scan(0, true, false));
    assert After(w, [check]) == scanning;
    var rest := ScannedToDecision(scanning, h);
    RunConcat(w, [check], rest);
    hide IsRun, After, Enabled, Next, Views, Finds;
    steps := [check] + rest;
    assert Put(scanning, h, Decided(w)) == Put(w, h, Decided(w)) && Decided(scanning) == Decided(w);
  }

  lemma ScannedToDecision(w: World, h: nat) returns (steps: seq<Step>)
    requires h < |w.handlers| && w.handlers[h].phase == Scan(0, true, false)
    ensures IsRun(w, steps) && Plain(steps) && NoDelivery(steps)
    ensures After(w, steps) == Put(w, h, Decided(w))
  {
    steps := LooksThrough(w, h);
    var looked := Put(w, h, Scan(|w.prs|, !OpenFrom(w, 0), false));
    assert After(w, steps) == looked;
    RunThen(w, steps, Act(h, Decide));
    steps := steps + [Act(h, Decide)];
    assert Put(looked, h, Decided(w)) == Put(w, h, Decided(w));
  }

  lemma NewGuid(w: World) returns (guid: nat)
    ensures !Known(w, guid)
  {
    var used := set h | 0 <= h < |w.handlers| :: w.handlers[h].guid;
    guid := NewNumber(used);
    assert forall h :: 0 <= h < |w.handlers| ==> w.handlers[h].guid in used;
  }

  /** So may a newly delivered event. */
  lemma DeliveredToDecision(w: World, i: nat) returns (guid: nat, steps: seq<Step>)
    requires IsAt(w, i, Merged) && IsFor(w, i) && w.staging
    ensures IsRun(w, steps) && Plain(steps)
    ensures After(w, steps) == w.(handlers := w.handlers + [Handler(guid, i, |w.merges|, Decided(w))])
  {
    var h := |w.handlers|;
    guid := NewGuid(w);
    RunThen(w, [], Deliver(guid, i));
    assert [] + [Deliver(guid, i)] == [Deliver(guid, i)];
    var arrived := w.(handlers := w.handlers + [Handler(guid, i, |w.merges|, Arrived)]);
    assert After(w, [Deliver(guid, i)]) == arrived;
    steps := HandledToDecision(arrived, h);
    RunConcat(w, [Deliver(guid, i)], steps);
    assert Put(arrived, h, Decided(arrived)).handlers == w.handlers + [Handler(guid, i, |w.merges|, Decided(w))];
    steps := [Deliver(guid, i)] + steps;
  }

  /** Both writes: the rest of a handler that has seen no PR open. */
  lemma Deploys(w: World, h: nat) returns (steps: seq<Step>)
    requires h < |w.handlers| && w.handlers[h].phase.Unlabel?
    ensures IsRun(w, steps) && Plain(steps) && NoDelivery(steps)
    ensures After(w, steps).deployed && After(w, steps).prs == w.prs
  {
    steps := [];
    RunThen(w, steps, Act(h, TakeLabel(true)));
    steps := steps + [Act(h, TakeLabel(true))];
    RunThen(w, steps, Act(h, AddLabel));
    steps := steps + [Act(h, AddLabel)];
  }

  /** With no promotion PR open, one event handled without trouble deploys the epic. */
  lemma HandledToTheEnd(w: World, i: nat) returns (steps: seq<Step>)
    requires IsAt(w, i, Merged) && IsFor(w, i) && w.staging && !OpenFrom(w, 0)
    ensures IsRun(w, steps) && Plain(steps) && After(w, steps).deployed && After(w, steps).prs == w.prs
  {
    var guid;
    guid, steps := DeliveredToDecision(w, i);
    var rest := Deploys(After(w, steps), |w.handlers|);
    RunConcat(w, steps, rest);
    steps := steps + rest;
  }

  /**
   * Nobody notices when taking the old label off fails: from the same start the epic may come to carry
   * both labels, and as it still counts as at staging the next event handled ships it again.
   */
  lemma MayKeepBothLabels(w: World, i: nat) returns (steps: seq<Step>)
    requires IsAt(w, i, Merged) && IsFor(w, i) && w.staging && !OpenFrom(w, 0)
    ensures IsRun(w, steps) && Plain(steps)
    ensures var end := After(w, steps); end.staging && end.deployed && end.prs == w.prs && IsFor(end, i) && !OpenFrom(end, 0)
  {
    var guid;
    guid, steps := DeliveredToDecision(w, i);
    var h := |w.handlers|;
    RunThen(w, steps, Act(h, TakeLabel(false)));
    steps := steps + [Act(h, TakeLabel(false))];
    RunThen(w, steps, Act(h, AddLabel));
    steps := steps + [Act(h, AddLabel)];
  }

  /** Every open PR from `i` on but `j` may merge. */
  lemma {:induction false} MergesOpen(w: World, i: nat, j: nat) returns (steps: seq<Step>)
    requires i <= |w.prs|
    ensures IsRun(w, steps) && Plain(steps)
    ensures var end := After(w, steps);
            && end == w.(prs := end.prs, merges := end.merges) && |end.prs| == |w.prs|
            && forall k :: 0 <= k < |w.prs| ==>
                 end.prs[k] == if k >= i && k != j && w.prs[k].state.Open? then w.prs[k].(state := Merged) else w.prs[k]
    decreases |w.prs| - i
  {
    if i == |w.prs| {
      steps := [];
    } else if i != j && w.prs[i].state.Open? {
      var merge := Turn(i, MergeIt);
      steps := MergesOpen(Next(w, merge), i + 1, j);
      steps := [merge] + steps;
    } else {
      steps := MergesOpen(w, i + 1, j);
    }
  }

  // ------------------------------------------------------------------ exactly how early

  ghost predicate DeploysEarly(home: string, epic: nat, prs: seq<Pr>, steps: seq<Step>) {
    && IsRun(Release(home, epic, prs), steps)
    && After(Release(home, epic, prs), steps).deployed && !AllMerged(After(Release(home, epic, prs), steps))
  }

  ghost predicate DeploysWithOneOpen(home: string, epic: nat, prs: seq<Pr>, steps: seq<Step>) {
    && IsRun(Release(home, epic, prs), steps)
    && After(Release(home, epic, prs), steps).deployed && OpenFrom(After(Release(home, epic, prs), steps), 0)
  }

  /** A handler that ships is of a merge, so the only PR of a release merged. */
  lemma ShippedHasMerged(w: World)
    requires Inv(w) && w.deployed
    ensures exists i :: 0 <= i < |w.prs| && w.prs[i].state.Merged?
  {
    var h :| 0 <= h < |w.handlers| && w.handlers[h].phase == Over(Shipped);
    assert HandlerOk(w, w.handlers[h]);
    var k :| 0 <= k < w.handlers[h].since && w.merges[..w.handlers[h].since][k] == w.handlers[h].pr;
    assert IsAt(w, w.merges[k], Merged);
  }

  /** A release of two PRs or more, `open` open at the start, can be deployed without PR `j`, and then with it open. */
  lemma DeploysWithout(home: string, epic: nat, prs: seq<Pr>, open: nat, j: nat) returns (steps: seq<Step>)
    requires Begins(home, epic, prs) && open < |prs| && j < |prs| && open != j && prs[open].state.Open?
    ensures DeploysEarly(home, epic, prs, steps) && (prs[j].state.Unopened? ==> Plain(steps))
    ensures IsAt(After(Release(home, epic, prs), steps), j, if prs[j].state.Open? then Closed else Unopened)
  {
    var w := Release(home, epic, prs);
    var close := if prs[j].state.Open? then [Turn(j, CloseIt)] else [];
    if prs[j].state.Open? { RunThen(w, [], Turn(j, CloseIt)); assert [] + close == close; }
    var merges := MergesOpen(After(w, close), 0, j);
    RunConcat(w, close, merges);
    var ready := After(w, close + merges);
    assert !OpenFrom(ready, 0) && IsAt(ready, open, Merged) && IsFor(ready, open);
    var handled := HandledToTheEnd(ready, open);
    RunConcat(w, close + merges, handled);
    steps := close + merges + handled;
    var end := After(w, steps);
    assert end.prs == ready.prs && end.prs[j].state == if prs[j].state.Open? then Closed else Unopened;
  }

  /**
   * Exactly how early: a release with a PR open at the start can be deployed before all its PRs have
   * merged iff it has another PR, which need only be closed - and then, that PR reopened, with one
   * open. With nobody closing, reopening or opening a PR and every repo opened, iff one of the PRs was
   * not open at the start.
   */
  lemma EarlyExactly(home: string, epic: nat, prs: seq<Pr>)
    requires Begins(home, epic, prs) && exists i :: 0 <= i < |prs| && prs[i].state.Open?
    ensures (exists steps :: DeploysEarly(home, epic, prs, steps)) <==> |prs| >= 2
    ensures (exists steps :: DeploysWithOneOpen(home, epic, prs, steps)) <==> |prs| >= 2
    ensures (exists steps :: Plain(steps) && DeploysEarly(home, epic, prs, steps)) <==> !AllOpen(prs)
  {
    var w := Release(home, epic, prs);
    ReleaseInv(home, epic, prs);
    var open :| 0 <= open < |prs| && prs[open].state.Open?;
    if |prs| >= 2 {
      var j := if open == 0 then 1 else 0;
      var steps := DeploysWithout(home, epic, prs, open, j);
      var again := Turn(j, if prs[j].state.Open? then ReopenIt else OpenIt);
      RunThen(w, steps, again);
      assert After(w, steps + [again]).prs[j].state.Open?;
      assert DeploysWithOneOpen(home, epic, prs, steps + [again]);
    } else {
      forall steps ensures !DeploysEarly(home, epic, prs, steps) && !DeploysWithOneOpen(home, epic, prs, steps) {
        OnlyPrMerged(home, epic, prs, steps);
      }
    }
    if !AllOpen(prs) {
      var j :| 0 <= j < |prs| && !prs[j].state.Open?;
      var steps := DeploysWithout(home, epic, prs, open, j);
    } else {
      forall steps | Plain(steps) ensures !DeploysEarly(home, epic, prs, steps) { PlainIsNotEarly(home, epic, prs, steps); }
    }
  }

  lemma OnlyPrMerged(home: string, epic: nat, prs: seq<Pr>, steps: seq<Step>)
    requires Begins(home, epic, prs) && |prs| == 1
    ensures !DeploysEarly(home, epic, prs, steps) && !DeploysWithOneOpen(home, epic, prs, steps)
  {
    var w := Release(home, epic, prs);
    if IsRun(w, steps) && After(w, steps).deployed {
      ReleaseInv(home, epic, prs);
      RunKeepsInv(w, steps);
      ShippedHasMerged(After(w, steps));
    }
  }

  lemma PlainIsNotEarly(home: string, epic: nat, prs: seq<Pr>, steps: seq<Step>)
    requires Begins(home, epic, prs) && AllOpen(prs) && Plain(steps)
    ensures !DeploysEarly(home, epic, prs, steps)
  {
    var w := Release(home, epic, prs);
    if IsRun(w, steps) && After(w, steps).deployed {
      NeverDeployedEarly(home, epic, prs, steps);
      hide IsRun, After;
      forall i: nat | i < |prs| ensures !Closes(steps, i) && !PassedIn(steps, i) && After(w, steps).prs[i].state.Merged? {
        forall k | 0 <= k < |steps| ensures steps[k] != Turn(i, CloseIt) && !(steps[k].Act? && steps[k].action == Look(i, PassedOver)) {
          assert PlainStep(steps[k]);
        }
      }
    }
  }

  /** A handler may list the pulls of all the repos it has left but `j`, whose repo it cannot open. */
  lemma {:induction false} LooksPast(w: World, h: nat, j: nat) returns (steps: seq<Step>)
    requires h < |w.handlers| && w.handlers[h].phase.Scan? && w.handlers[h].phase.clear && w.handlers[h].phase.next <= |w.prs|
    requires w.handlers[h].pr != j && forall i :: 0 <= i < |w.prs| && i != j ==> !w.prs[i].state.Open?
    ensures IsRun(w, steps) && forall k :: 0 <= k < |steps| ==> steps[k].Act?
    ensures var end := After(w, steps);
            && end.prs == w.prs && |end.handlers| == |w.handlers|
            && end.handlers[h].phase == Scan(|w.prs|, true, w.handlers[h].phase.trouble)
    decreases |w.prs| - w.handlers[h].phase.next
  {
    var p := w.handlers[h].phase;
    if p.next == |w.prs| {
      steps := [];
    } else {
      var look := Act(h, Look(p.next, if p.next == j then PassedOver else Listed));
      steps := LooksPast(Next(w, look), h, j);
      steps := [look] + steps;
    }
  }

  /** Nobody opens, closes or reopens a PR. */
  predicate OnlyMerges(steps: seq<Step>) { forall k :: 0 <= k < |steps| && steps[k].Turn? ==> steps[k].change.MergeIt? }

  /** A newly delivered event's handler finds the epic and begins to look. */
  lemma ChecksIn(w: World, i: nat) returns (steps: seq<Step>)
    requires IsAt(w, i, Merged) && IsFor(w, i) && w.staging
    ensures IsRun(w, steps) && OnlyMerges(steps)
    ensures exists guid :: After(w, steps) == w.(handlers := w.handlers + [Handler(guid, i, |w.merges|, Scan(0, true, false))])
  {
    var h := |w.handlers|;
    var guid := NewGuid(w);
    steps := [];
    RunThen(w, steps, Deliver(guid, i));
    steps := steps + [Deliver(guid, i)];
    var arrived := w.(handlers := w.handlers + [Handler(guid, i, |w.merges|, Arrived)]);
    assert After(w, steps) == arrived && IsFor(arrived, i);
    var here, siblings := ViewOf(arrived, i);
    RunThen(w, steps, Act(h, Check(here, siblings)));
    steps := steps + [Act(h, Check(here, siblings))];
    assert After(w, steps) == w.(handlers := w.handlers + [Handler(guid, i, |w.merges|, Scan(0, true, false))]);
  }

  lemma DeploysPast(w: World, i: nat, j: nat) returns (steps: seq<Step>)
    requires IsAt(w, i, Merged) && IsFor(w, i) && w.staging && IsAt(w, j, Open) && i != j
    requires forall k :: 0 <= k < |w.prs| && k != j ==> !w.prs[k].state.Open?
    ensures IsRun(w, steps) && OnlyMerges(steps) && After(w, steps).deployed && IsAt(After(w, steps), j, Open)
  {
    var h := |w.handlers|;
    steps := ChecksIn(w, i);
    var looks := LooksPast(After(w, steps), h, j);
    RunConcat(w, steps, looks);
    steps := steps + looks;
    RunThen(w, steps, Act(h, Decide));
    steps := steps + [Act(h, Decide)];
    var ready := After(w, steps);
    assert IsAt(ready, j, Open) && ready.handlers[h].phase.Unlabel?;
    var rest := Deploys(ready, h);
    RunConcat(w, steps, rest);
    assert OnlyMerges(rest) by {
      forall k | 0 <= k < |rest| && rest[k].Turn? ensures rest[k].change.MergeIt? { assert PlainStep(rest[k]); }
    }
    steps := steps + rest;
  }

  /** Nothing but merges, and handlers that cannot open one repo: its open PR is passed over, not waited for. */
  lemma UnopenedRepoIsPassedOver(home: string, epic: nat, prs: seq<Pr>, i: nat, j: nat)
    requires Begins(home, epic, prs) && AllOpen(prs) && i < |prs| && j < |prs| && i != j
    ensures exists steps :: IsRun(Release(home, epic, prs), steps) && OnlyMerges(steps)
              && After(Release(home, epic, prs), steps).deployed && IsAt(After(Release(home, epic, prs), steps), j, Open)
  {
    var w := Release(home, epic, prs);
    var merges := MergesOpen(w, 0, j);
    assert OnlyMerges(merges) by {
      forall k | 0 <= k < |merges| && merges[k].Turn? ensures merges[k].change.MergeIt? { assert PlainStep(merges[k]); }
    }
    var merged := After(w, merges);
    assert IsFor(merged, i);
    var rest := DeploysPast(merged, i, j);
    RunConcat(w, merges, rest);
    assert OnlyMerges(merges + rest);
  }

  // ------------------------------------------------------------------ how wake-ups are lost

  /** Once the label is gone, the other merges' events are handled cleanly, to no effect. */
  lemma {:induction false} HandledInVain(w: World, i: nat) returns (steps: seq<Step>)
    requires Stranded(w) && AllMerged(w) && !SomeBetween(w) && i <= |w.prs|
    ensures IsRun(w, steps)
    ensures var end := After(w, steps);
            && Stranded(end) && end == w.(handlers := end.handlers) && !SomeBetween(end)
            && (forall j :: i <= j < |w.prs| ==> Handled(end, j))
    decreases |w.prs| - i
  {
    if i == |w.prs| {
      steps := [];
    } else {
      steps := HandledInVain(w, i + 1);
      var mid := After(w, steps);
      var more := OneInVain(mid, i);
      RunConcat(w, steps, more);
      steps := steps + more;
      var end := After(mid, more);
      forall j | i <= j < |w.prs| ensures Handled(end, j) {
        if j > i {
          assert Handled(mid, j);
          var g :| 0 <= g < |mid.handlers| && mid.handlers[g].pr == j && Clean(mid.handlers[g].phase);
          assert end.handlers[g] == mid.handlers[g];
        } else {
          assert end.handlers[|mid.handlers|].pr == i;
        }
      }
    }
  }

  lemma OneInVain(w: World, i: nat) returns (steps: seq<Step>)
    requires Stranded(w) && IsAt(w, i, Merged) && !SomeBetween(w)
    ensures IsRun(w, steps) && Stranded(After(w, steps)) && !SomeBetween(After(w, steps))
    ensures exists guid :: After(w, steps) == w.(handlers := w.handlers + [Handler(guid, i, |w.merges|, Over(NotShipping))])
  {
    var h := |w.handlers|;
    var guid := NewGuid(w);
    var here := RepoView(w.prs[i].repo, "", None, {});
    steps := [];
    RunThen(w, steps, Deliver(guid, i));
    steps := steps + [Deliver(guid, i)];
    var arrived := w.(handlers := w.handlers + [Handler(guid, i, |w.merges|, Arrived)]);
    assert After(w, steps) == arrived && Views(arrived, i, here, []);
    if Finds(arrived, i, here, []) { FindsNeedsLabel(arrived, i, here, []); }
    RunThen(w, steps, Act(h, Check(here, [])));
    steps := steps + [Act(h, Check(here, []))];
    var end := After(w, steps);
    assert end == w.(handlers := w.handlers + [Handler(guid, i, |w.merges|, Over(NotShipping))]);
    forall g | 0 <= g < |end.handlers| ensures !MayShip(end.handlers[g].phase) && !end.handlers[g].phase.Relabel? {
      if g < h { assert !MayShip(w.handlers[g].phase); }
    }
  }

  lemma BreaksOff(home: string, epic: nat, prs: seq<Pr>) returns (steps: seq<Step>)
    requires Begins(home, epic, prs) && AllOpen(prs) && prs != []
    ensures IsRun(Release(home, epic, prs), steps)
    ensures var w := After(Release(home, epic, prs), steps); AllMerged(w) && Stranded(w) && !SomeBetween(w) && |w.prs| == |prs|
  {
    var w := Release(home, epic, prs);
    steps := MergesOpen(w, 0, |prs|);
    var merged := After(w, steps);
    assert !OpenFrom(merged, 0) && IsAt(merged, 0, Merged) && IsFor(merged, 0);
    var guid, more := DeliveredToDecision(merged, 0);
    RunConcat(w, steps, more);
    steps := steps + more;
    RunThen(w, steps, Act(0, TakeLabel(true)));
    steps := steps + [Act(0, TakeLabel(true))];
    RunThen(w, steps, Act(0, Fail));
    steps := steps + [Act(0, Fail)];
  }

  /**
   * Breaking off can lose every release: all PRs merge, one handler fails between its writes, each
   * merge's event is handled without an error - and the epic has neither label, for good.
   */
  lemma WakeUpCanBeLost(home: string, epic: nat, prs: seq<Pr>)
    requires Begins(home, epic, prs) && AllOpen(prs) && prs != []
    ensures exists steps :: IsRun(Release(home, epic, prs), steps)
                            && Settled(After(Release(home, epic, prs), steps)) && Stranded(After(Release(home, epic, prs), steps))
  {
    var w := Release(home, epic, prs);
    var steps := BreaksOff(home, epic, prs);
    var broken := After(w, steps);
    var more := HandledInVain(broken, 0);
    RunConcat(w, steps, more);
    assert Settled(After(w, steps + more));
  }

  /** All but `j` merge, one after the other, each handled while `j` is open. */
  lemma {:induction false} OthersWait(w: World, i: nat, j: nat) returns (steps: seq<Step>)
    requires i <= |w.prs| && IsAt(w, j, Open) && w.staging && Quiet(w)
    requires forall k :: 0 <= k < |w.prs| ==> IsFor(w, k) && (k >= i ==> w.prs[k].state.Open?)
    ensures IsRun(w, steps)
    ensures var end := After(w, steps);
            && end == w.(prs := end.prs, merges := end.merges, handlers := end.handlers) && Quiet(end)
            && |end.prs| == |w.prs|
            && (forall k :: 0 <= k < |w.prs| ==>
                 end.prs[k] == if k >= i && k != j then w.prs[k].(state := Merged) else w.prs[k])
            && (forall k :: 0 <= k < |w.prs| && ((k >= i && k != j) || Handled(w, k)) ==> Handled(end, k))
    decreases |w.prs| - i
  {
    if i == |w.prs| {
      steps := [];
    } else if i == j {
      steps := OthersWait(w, i + 1, j);
    } else {
      RunThen(w, [], Turn(i, MergeIt));
      assert [] + [Turn(i, MergeIt)] == [Turn(i, MergeIt)];
      steps := [Turn(i, MergeIt)];
      var merged := After(w, steps);
      assert OpenFrom(merged, 0) by { assert merged.prs[j].state.Open?; }
      assert IsFor(merged, i);
      var guid, more := DeliveredToDecision(merged, i);
      RunConcat(w, steps, more);
      steps := steps + more;
      var waited := After(w, steps);
      OneMoreHandled(w, merged, waited, guid, i);
      forall k | 0 <= k < |w.prs| ensures IsFor(waited, k) { assert IsFor(w, k); }
      var rest := OthersWait(waited, i + 1, j);
      RunConcat(w, steps, rest);
      steps := steps + rest;
    }
  }

  lemma OneMoreHandled(w: World, merged: World, waited: World, guid: nat, i: nat)
    requires i < |w.prs| && merged.handlers == w.handlers && merged.prs == w.prs[i := w.prs[i].(state := Merged)]
    requires waited == merged.(handlers := w.handlers + [Handler(guid, i, |merged.merges|, Over(StillWaiting(false)))])
    ensures Handled(waited, i) && (forall k: nat :: Handled(w, k) ==> Handled(waited, k)) && (Quiet(w) ==> Quiet(waited))
  {
    assert waited.handlers[|w.handlers|].pr == i;
    forall k: nat | Handled(w, k) ensures Handled(waited, k) {
      var h :| 0 <= h < |w.handlers| && w.handlers[h].pr == k && Clean(w.handlers[h].phase);
      assert waited.handlers[h] == w.handlers[h];
    }
  }

  /** Merged, handled, at rest, still at staging: only a new delivery can help. */
  ghost predicate LeftWaiting(w: World) {
    && Quiet(w) && w.staging && !w.deployed && !w.broken
    && forall i :: 0 <= i < |w.prs| && w.prs[i].state.Merged? ==> Handled(w, i)
  }

  /**
   * Without anybody breaking off: every release with a PR outside the epic's home can be lost when
   * that PR merges last and its repo has an epic of the same number waiting to ship.
   */
  lemma OwnNumberLosesIt(home: string, epic: nat, prs: seq<Pr>, j: nat)
    requires Begins(home, epic, prs) && AllOpen(prs) && j < |prs| && prs[j].repo != home
    ensures exists steps :: IsRun(Release(home, epic, prs), steps)
              && var w := After(Release(home, epic, prs), steps); Settled(w) && LastMissed(w) && LeftWaiting(w)
  {
    var w := Release(home, epic, prs);
    var steps := OthersWait(w, 0, j);
    var waited := After(w, steps);
    RunThen(w, steps, Turn(j, MergeIt));
    steps := steps + [Turn(j, MergeIt)];
    var merged := After(w, steps);
    var guid, missed := MissesThere(merged, j);
    RunConcat(w, steps, missed);
    hide IsRun, After, Enabled, Next;
    forall k | 0 <= k < |prs| && k != j ensures Handled(merged, k) { assert Handled(waited, k); }
    MissedLast(merged, After(w, steps + missed), guid, j);
  }

  /** The merge's event is delivered, and its handler ships another epic of the same number. */
  lemma MissesThere(w: World, j: nat) returns (guid: nat, steps: seq<Step>)
    requires IsAt(w, j, Merged) && w.prs[j].repo != w.home && w.staging
    ensures IsRun(w, steps)
    ensures After(w, steps) == w.(handlers := w.handlers + [Handler(guid, j, |w.merges|, Over(Missed))])
  {
    guid := NewGuid(w);
    RunThen(w, [], Deliver(guid, j));
    steps := [Deliver(guid, j)];
    assert [] + steps == steps;
    var here := RepoView(w.prs[j].repo, "", None, {w.epic});
    OwnNumberIsTaken(here, [], w.prs[j].body, w.home, w.epic);
    var arrived := After(w, steps);
    assert arrived == w.(handlers := w.handlers + [Handler(guid, j, |w.merges|, Arrived)]);
    assert Views(arrived, j, here, []) && !Finds(arrived, j, here, []);
    RunThen(w, steps, Act(|w.handlers|, Check(here, [])));
    steps := steps + [Act(|w.handlers|, Check(here, []))];
  }

  lemma MissedLast(w: World, end: World, guid: nat, j: nat)
    requires AllMerged(w) && Quiet(w) && w.staging && !w.deployed && !w.broken && j < |w.prs|
    requires |w.merges| > 0 && w.merges[|w.merges| - 1] == j
    requires forall k :: 0 <= k < |w.prs| && k != j ==> Handled(w, k)
    requires end == w.(handlers := w.handlers + [Handler(guid, j, |w.merges|, Over(Missed))])
    ensures Settled(end) && LastMissed(end) && LeftWaiting(end)
  {
    assert end.handlers[|w.handlers|].pr == j;
    forall k | 0 <= k < |w.prs| ensures Handled(end, k) {
      if k != j {
        assert Handled(w, k);
        var h :| 0 <= h < |w.handlers| && w.handlers[h].pr == k && Clean(w.handlers[h].phase);
        assert end.handlers[h] == w.handlers[h];
      }
    }
  }

  /** Closing the last open PR is no event: every release of two can be left waiting with none open. */
  lemma ClosedLastLosesIt(home: string, epic: nat, prs: seq<Pr>, j: nat)
    requires Begins(home, epic, prs) && AllOpen(prs) && j < |prs|
    ensures exists steps :: IsRun(Release(home, epic, prs), steps)
              && var w := After(Release(home, epic, prs), steps); LeftWaiting(w) && !OpenFrom(w, 0)
  {
    var w := Release(home, epic, prs);
    var steps := OthersWait(w, 0, j);
    var mid := After(w, steps);
    RunThen(w, steps, Turn(j, CloseIt));
    steps := steps + [Turn(j, CloseIt)];
    var end := After(w, steps);
    forall i | 0 <= i < |end.prs| && end.prs[i].state.Merged? ensures Handled(end, i) {
      assert Handled(mid, i);
    }
  }

  /** One repo whose pulls cannot be listed leaves it waiting too, even for the last merge's event. */
  lemma UnlistedRepoWaits(w: World, i: nat) returns (steps: seq<Step>)
    requires IsAt(w, i, Merged) && IsFor(w, i) && w.staging
    ensures IsRun(w, steps)
    ensures exists guid :: After(w, steps) == w.(handlers := w.handlers + [Handler(guid, i, |w.merges|, Over(StillWaiting(true)))])
  {
    var h := |w.handlers|;
    steps := ChecksIn(w, i);
    var guid :| After(w, steps) == w.(handlers := w.handlers + [Handler(guid, i, |w.merges|, Scan(0, true, false))]);
    RunThen(w, steps, Act(h, Look(0, Unlisted)));
    steps := steps + [Act(h, Look(0, Unlisted))];
    var scanning := w.(handlers := w.handlers + [Handler(guid, i, |w.merges|, Scan(1, false, true))]);
    assert After(w, steps) == scanning;
    var looks := LooksThrough(scanning, h);
    RunConcat(w, steps, looks);
    steps := steps + looks;
    RunThen(w, steps, Act(h, Decide));
    steps := steps + [Act(h, Decide)];
    assert After(w, steps) == w.(handlers := w.handlers + [Handler(guid, i, |w.merges|, Over(StillWaiting(true)))]);
  }

  /**
   * What is for good: a release left waiting stays so through everything but a delivery with a new
   * guid, as the ledger drops a repeated one; with none open, a new one may still deploy it.
   */
  lemma OnlyNewDeliveryHelps(w: World, i: nat)
    requires LeftWaiting(w) && !OpenFrom(w, 0) && IsAt(w, i, Merged) && IsFor(w, i)
    ensures forall steps :: IsRun(w, steps) && OnlyKnown(w, steps) ==> !After(w, steps).deployed
    ensures exists steps :: IsRun(w, steps) && After(w, steps).deployed
  {
    forall steps | IsRun(w, steps) && OnlyKnown(w, steps) ensures !After(w, steps).deployed { QuietStays(w, steps); }
    var steps := HandledToTheEnd(w, i);
  }

  /** What is not: a handler cut off by a crash anywhere but between its writes is handled again, and may deploy. */
  lemma CrashIsHandledAgain(w: World, h: nat)
    requires h < |w.handlers| && !w.handlers[h].phase.Over? && !w.handlers[h].phase.Relabel?
    requires IsAt(w, w.handlers[h].pr, Merged) && IsFor(w, w.handlers[h].pr) && w.staging && !OpenFrom(w, 0)
    ensures exists steps :: IsRun(w, [Act(h, Crash)] + steps) && NoDelivery(steps) && After(w, [Act(h, Crash)] + steps).deployed
  {
    var cut := CutOff(w, h);
    hide IsRun, After, Enabled, Next, Views, Finds, NoDelivery;
    var steps := HandledToDecision(cut, h);
    var rest := Deploys(After(cut, steps), h);
    RunConcat(cut, steps, rest);
    RunConcat(w, [Act(h, Crash)], steps + rest);
    assert NoDelivery(steps + rest) by { BothDeliverNothing(steps, rest); }
  }

  lemma BothDeliverNothing(a: seq<Step>, b: seq<Step>)
    requires NoDelivery(a) && NoDelivery(b)
    ensures NoDelivery(a + b)
  {
  }

  lemma CutOff(w: World, h: nat) returns (cut: World)
    requires h < |w.handlers| && !w.handlers[h].phase.Over? && !w.handlers[h].phase.Relabel?
    requires IsAt(w, w.handlers[h].pr, Merged) && IsFor(w, w.handlers[h].pr) && !OpenFrom(w, 0)
    ensures IsRun(w, [Act(h, Crash)]) && cut == After(w, [Act(h, Crash)]) == Put(w, h, Arrived)
    ensures IsFor(cut, cut.handlers[h].pr) && !OpenFrom(cut, 0)
  {
    RunThen(w, [], Act(h, Crash));
    assert [] + [Act(h, Crash)] == [Act(h, Crash)];
    cut := After(w, [Act(h, Crash)]);
    assert cut == Put(w, h, Arrived).(broken := w.broken);
  }
}
