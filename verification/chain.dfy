/**
 * The follow-up graph (graph.py): route, a fan of role runs, a chain step that looks at what the
 * round completed, another fan, until nothing is pending or the cap is reached. One durable thread
 * per issue carries its `completed` list through every invocation, finished or cut short.
 */
module Chain {
  const MAX_ROUNDS := 4
  const EXPEDITE_MAX_ROUNDS := 32

  /** `repo` is empty when the run belongs to the repo the event came from. */
  datatype Pending = Pending(role: string, issue: int, repo: string)

  datatype Status = Success | NoOp | Failed

  datatype Completion = Completion(role: string, issue: int, repo: string, round: nat, invocation: nat, status: Status)

  /** Where the invocation is; `Running` lists the runs sent and not yet back. */
  datatype Stage = Idle | AtFan | Running(sent: seq<Pending>) | AtChain

  /** `examined` and `releases` record what the chain steps did: the latter for this invocation. */
  datatype Thread = Thread(
    home: string, stage: Stage, pending: seq<Pending>, completed: seq<Completion>,
    invocation: nat, release: bool, dispatched: bool, expedited: bool, round: nat,
    used: set<nat>, examined: seq<nat>, releases: nat)

  /** What the router decided: a role, the issues it is for, a repo for each or one for all of them. */
  datatype Route = Route(role: string, issues: seq<int>, repos: seq<string>, repo: string)

  datatype Step =
    | Invoke(invocation: nat, route: Route, release: bool)
    | Fan
    | Complete(i: nat, status: Status)
    | Chain(next: seq<Pending>, sawExpedited: bool, released: seq<int>)

  // ------------------------------------------------------------------ fan

  function Cap(t: Thread): nat { if t.expedited then EXPEDITE_MAX_ROUNDS else MAX_ROUNDS }

  /** The first of each (role, issue, repo), in order. */
  function Deduped(pending: seq<Pending>, seen: set<Pending>): (r: seq<Pending>)
    ensures |r| <= |pending|
    ensures forall p :: p in r <==> p in pending && p !in seen
    ensures forall i, j :: 0 <= i < j < |r| ==> r[i] != r[j]
  {
    if pending == [] then []
    else if pending[0] in seen then Deduped(pending[1..], seen)
    else
      assert pending == [pending[0]] + pending[1..];
      [pending[0]] + Deduped(pending[1..], seen + {pending[0]})
  }

  /** Where a pending run really goes. */
  function Target(p: Pending, home: string): Pending { if '/' in p.repo then p else p.(repo := home) }

  /** The list spells no run both ways, with the event's repo and without. */
  predicate SpelledOneWay(pending: seq<Pending>, home: string) {
    forall i, j :: 0 <= i < |pending| && 0 <= j < |pending| && Target(pending[i], home) == Target(pending[j], home)
      ==> pending[i] == pending[j]
  }

  predicate TargetsDiffer(sent: seq<Pending>, home: string) {
    forall i, j :: 0 <= i < j < |sent| ==> Target(sent[i], home) != Target(sent[j], home)
  }

  /**
   * Exactly when a round never sends one run twice: its pending list spells each run one way. The
   * de-duplication alone compares the spelling, not the target.
   */
  lemma NoRunSentTwice(pending: seq<Pending>, home: string)
    ensures TargetsDiffer(Deduped(pending, {}), home) <==> SpelledOneWay(pending, home)
  {
    var sent := Deduped(pending, {});
    forall i, j | 0 <= i < j < |sent| && SpelledOneWay(pending, home) ensures Target(sent[i], home) != Target(sent[j], home) {
      assert sent[i] in pending && sent[j] in pending;
    }
    if TargetsDiffer(sent, home) {
      forall i, j | 0 <= i < |pending| && 0 <= j < |pending| && Target(pending[i], home) == Target(pending[j], home)
        ensures pending[i] == pending[j]
      {
        assert pending[i] in sent && pending[j] in sent;
        var a :| 0 <= a < |sent| && sent[a] == pending[i];
        var b :| 0 <= b < |sent| && sent[b] == pending[j];
        SameTargetSamePlace(sent, home, a, b);
      }
    }
  }

  lemma SameTargetSamePlace(sent: seq<Pending>, home: string, a: nat, b: nat)
    requires TargetsDiffer(sent, home) && a < |sent| && b < |sent| && Target(sent[a], home) == Target(sent[b], home)
    ensures a == b
  {}

  /** What the de-duplication alone would let through. */
  lemma BothSpellingsAreSent(role: string, issue: int)
    ensures var p, q := Pending(role, issue, ""), Pending(role, issue, "o/r");
            Deduped([p, q], {}) == [p, q] && Target(p, "o/r") == Target(q, "o/r")
  {
    var p, q := Pending(role, issue, ""), Pending(role, issue, "o/r");
    assert [p, q][1..] == [q] && [q][1..] == [];
    assert '/' in q.repo by { assert q.repo[1] == '/'; }
  }

  // ------------------------------------------------------------------ what the rounds are made of

  /** An issue with no repo of its own is in the decision's. */
  function RepoOf(r: Route, i: nat): string { if i < |r.repos| && r.repos[i] != "" then r.repos[i] else r.repo }

  /** `route_node`'s list. */
  function Routed(r: Route): (pending: seq<Pending>)
    ensures |pending| == if r.role == "none" then 0 else |r.issues|
    ensures forall i :: 0 <= i < |pending| ==> pending[i] == Pending(r.role, r.issues[i], RepoOf(r, i))
  {
    var n := if r.role == "none" then 0 else |r.issues|;
    seq(n, i requires 0 <= i < n => Pending(r.role, r.issues[i], RepoOf(r, i)))
  }

  /** The router leaves out the repo the event came from and spells out every other. */
  predicate Elsewhere(repo: string, home: string) { repo == "" || ('/' in repo && repo != home) }

  predicate RouteSpells(r: Route, home: string) {
    Elsewhere(r.repo, home) && forall i :: 0 <= i < |r.repos| ==> Elsewhere(r.repos[i], home)
  }

  /** So a routed list spells each run one way. */
  lemma RoutedIsDistinct(r: Route, home: string)
    requires RouteSpells(r, home)
    ensures SpelledOneWay(Routed(r), home)
  {
    var all := Routed(r);
    forall i | 0 <= i < |all| ensures Elsewhere(all[i].repo, home) {}
  }

  /** What `chain` adds spells every repo out, but for the intake runs a release frees. */
  predicate ChainSpells(next: seq<Pending>) { forall p :: p in next ==> '/' in p.repo && p.role != "intake" }

  function Intakes(released: seq<int>): (r: seq<Pending>)
    ensures |r| == |released| && forall i :: 0 <= i < |r| ==> r[i] == Pending("intake", released[i], "")
  {
    if released == [] then [] else [Pending("intake", released[0], "")] + Intakes(released[1..])
  }

  /** So does a chained one. */
  lemma ChainedRoundsAreDistinct(next: seq<Pending>, released: seq<int>, home: string)
    requires ChainSpells(next)
    ensures SpelledOneWay(next + Intakes(released), home)
  {
    var all := next + Intakes(released);
    forall i | 0 <= i < |all| ensures all[i] in next || all[i] in Intakes(released) {}
  }

  // ------------------------------------------------------------------ chain

  /** This round's completions of this invocation: their places in `completed`. */
  function ThisRound(t: Thread, n: nat): (r: seq<nat>)
    requires n <= |t.completed|
    ensures forall i: nat :: i in r <==> i < n && t.completed[i].round == t.round && t.completed[i].invocation == t.invocation
    ensures forall i, j :: 0 <= i < j < |r| ==> r[i] < r[j]
  {
    if n == 0 then []
    else
      var rest := ThisRound(t, n - 1);
      assert forall i :: 0 <= i < |rest| ==> rest[i] in rest;
      var c := t.completed[n - 1];
      if c.round == t.round && c.invocation == t.invocation then rest + [n - 1] else rest
  }

  predicate AnyFailed(t: Thread, places: seq<nat>)
    requires forall i :: i in places ==> i < |t.completed|
  {
    exists i :: i in places && t.completed[i].status.Failed?
  }

  function Chained(t: Thread, next: seq<Pending>, sawExpedited: bool, released: seq<int>): Thread {
    var places := ThisRound(t, |t.completed|);
    var opens := t.release && !t.dispatched && !AnyFailed(t, places);
    t.(pending := if opens then next + Intakes(released) else next,
    round := t.round + 1, stage := AtFan,
    expedited := t.expedited || sawExpedited,
    dispatched := t.dispatched || opens,
    releases := if opens then t.releases + 1 else t.releases,
    examined := t.examined + places)
  }

  function Fanned(t: Thread): Thread {
    var items := Deduped(t.pending, {});
    if t.round >= Cap(t) then t.(stage := Idle)
    else if items != [] then t.(stage := Running(items))
    else if t.release && !t.dispatched then t.(stage := AtChain)
    else t.(stage := Idle)
  }

  predicate Enabled(t: Thread, s: Step) {
    match s
    case Invoke(inv, route, _) => inv !in t.used && RouteSpells(route, t.home)
    case Fan => t.stage.AtFan?
    case Complete(i, _) => t.stage.Running? && i < |t.stage.sent|
    case Chain(next, _, _) => t.stage.AtChain? && ChainSpells(next)
  }

  function Next(t: Thread, s: Step): Thread
    requires Enabled(t, s)
  {
    match s
    case Invoke(inv, route, release) =>
      t.(stage := AtFan, pending := Routed(route), invocation := inv, release := release,
      dispatched := false, expedited := false, round := 0, used := t.used + {inv}, releases := 0)
    case Fan => Fanned(t)
    case Complete(i, status) =>
      var p := Target(t.stage.sent[i], t.home);
      var left := t.stage.sent[..i] + t.stage.sent[i + 1..];
      t.(completed := t.completed + [Completion(p.role, p.issue, p.repo, t.round, t.invocation, status)],
      stage := if left == [] then AtChain else Running(left))
    case Chain(next, saw, released) => Chained(t, next, saw, released)
  }

  predicate IsRun(t: Thread, steps: seq<Step>)
    decreases |steps|
  {
    steps == [] || (Enabled(t, steps[0]) && IsRun(Next(t, steps[0]), steps[1..]))
  }

  function After(t: Thread, steps: seq<Step>): Thread
    requires IsRun(t, steps)
    decreases |steps|
  {
    if steps == [] then t else After(Next(t, steps[0]), steps[1..])
  }

  /** A thread's history goes on step by step. */
  lemma {:induction false} AfterThen(t: Thread, steps: seq<Step>, s: Step)
    requires IsRun(t, steps) && Enabled(After(t, steps), s)
    ensures IsRun(t, steps + [s]) && After(t, steps + [s]) == Next(After(t, steps), s)
    decreases |steps|
  {
    hide Next, Enabled;
    if steps == [] {
      assert [] + [s] == [s] && [s][1..] == [];
    } else {
      assert (steps + [s])[1..] == steps[1..] + [s];
      AfterThen(Next(t, steps[0]), steps[1..], s);
    }
  }

  function Fresh(home: string): Thread { Thread(home, Idle, [], [], 0, false, false, false, 0, {0}, [], 0) }

  // ------------------------------------------------------------------ the invariant

  /** Completions of this invocation that a chain step has already looked at. */
  predicate Past(t: Thread, c: Completion) { c.invocation == t.invocation && c.round < t.round }

  ghost predicate Inv(t: Thread) {
    && t.invocation in t.used
    && (forall i :: 0 <= i < |t.completed| ==>
      && t.completed[i].invocation in t.used
      && (t.completed[i].invocation == t.invocation ==>
        t.completed[i].round <= t.round && (t.stage.AtFan? || t.stage.Idle? ==> t.completed[i].round < t.round)))
    && (forall k :: 0 <= k < |t.examined| ==>
      t.examined[k] < |t.completed| &&
      (t.completed[t.examined[k]].invocation == t.invocation ==> t.completed[t.examined[k]].round < t.round))
    && (forall k, l :: 0 <= k < l < |t.examined| ==> t.examined[k] != t.examined[l])
    && (forall i :: 0 <= i < |t.completed| && Past(t, t.completed[i]) ==> i in t.examined)
    && t.releases == (if t.dispatched then 1 else 0)
    && (t.stage.Running? ==> t.round < Cap(t) && t.stage.sent != [])
    && (t.stage.AtChain? ==> t.round < Cap(t))
    && t.round <= Cap(t)
    && (t.stage.Idle? && t.release && !t.dispatched ==> t.round == Cap(t))
    && SpelledOneWay(t.pending, t.home)
    && (t.stage.Running? ==> TargetsDiffer(t.stage.sent, t.home))
  }

  lemma ChainedSpells(t: Thread, next: seq<Pending>, saw: bool, released: seq<int>)
    requires ChainSpells(next)
    ensures SpelledOneWay(Chained(t, next, saw, released).pending, t.home)
  {
    ChainedRoundsAreDistinct(next, released, t.home);
    ChainedRoundsAreDistinct(next, [], t.home);
    assert next + Intakes([]) == next;
    hide SpelledOneWay, ChainSpells, Intakes, ThisRound, AnyFailed;
  }

  lemma ChainExamines(t: Thread, next: seq<Pending>, saw: bool, released: seq<int>)
    requires Inv(t) && t.stage.AtChain?
    ensures var u := Chained(t, next, saw, released);
            && (forall k :: 0 <= k < |u.examined| ==>
                 u.examined[k] < |u.completed|
                 && (u.completed[u.examined[k]].invocation == u.invocation ==> u.completed[u.examined[k]].round < u.round))
            && (forall k, l :: 0 <= k < l < |u.examined| ==> u.examined[k] != u.examined[l])
            && (forall i :: 0 <= i < |u.completed| && Past(u, u.completed[i]) ==> i in u.examined)
  {
    hide SpelledOneWay, TargetsDiffer, AnyFailed, Intakes;
    var u := Chained(t, next, saw, released);
    var places := ThisRound(t, |t.completed|);
    hide ThisRound;
    forall k | 0 <= k < |u.examined|
      ensures u.examined[k] < |u.completed|
      ensures u.completed[u.examined[k]].invocation == u.invocation ==> u.completed[u.examined[k]].round < u.round
    {
      if k < |t.examined| { assert u.examined[k] == t.examined[k]; } else { assert u.examined[k] in places; }
    }
    forall i | 0 <= i < |u.completed| && Past(u, u.completed[i]) ensures i in u.examined {
      if u.completed[i].round == t.round { assert i in places; } else { assert Past(t, t.completed[i]); }
    }
    forall k, l | 0 <= k < l < |u.examined| ensures u.examined[k] != u.examined[l] {
      if k < |t.examined| <= l {
        assert u.examined[l] in places;
        assert u.examined[k] == t.examined[k];
      }
    }
  }

  lemma ChainKeepsInv(t: Thread, next: seq<Pending>, saw: bool, released: seq<int>)
    requires Inv(t) && t.stage.AtChain? && ChainSpells(next)
    ensures Inv(Chained(t, next, saw, released))
  {
    ChainedSpells(t, next, saw, released);
    ChainExamines(t, next, saw, released);
    hide SpelledOneWay, TargetsDiffer, ChainSpells, Intakes, ThisRound, AnyFailed, Past;
  }

  lemma StepKeepsInv(t: Thread, s: Step)
    requires Inv(t) && Enabled(t, s)
    ensures Inv(Next(t, s))
  {
    match s
    case Chain(next, saw, released) => ChainKeepsInv(t, next, saw, released);
    case Complete(i, status) => CompleteKeepsInv(t, i, status);
    case Invoke(_, route, _) =>
      RoutedIsDistinct(route, t.home);
      hide SpelledOneWay, TargetsDiffer, RouteSpells;
    case Fan => FanKeepsInv(t);
  }

  lemma FanKeepsInv(t: Thread)
    requires Inv(t) && t.stage.AtFan?
    ensures Inv(Fanned(t))
  {
    NoRunSentTwice(t.pending, t.home);
    hide SpelledOneWay, TargetsDiffer, Deduped;
    var u := Fanned(t);
    assert u == t.(stage := u.stage);
    forall i | 0 <= i < |u.completed| && Past(u, u.completed[i]) ensures i in u.examined { assert Past(t, t.completed[i]); }
  }

  lemma CompleteKeepsInv(t: Thread, i: nat, status: Status)
    requires Inv(t) && Enabled(t, Complete(i, status))
    ensures Inv(Next(t, Complete(i, status)))
  {
    var u := Next(t, Complete(i, status));
    forall j | 0 <= j < |u.completed| && Past(u, u.completed[j]) ensures j in u.examined { assert Past(t, t.completed[j]); }
    LeftDiffer(t.stage.sent, t.home, i);
    hide SpelledOneWay, TargetsDiffer;
  }

  lemma LeftDiffer(sent: seq<Pending>, home: string, i: nat)
    requires i < |sent| && TargetsDiffer(sent, home)
    ensures TargetsDiffer(sent[..i] + sent[i + 1..], home)
  {
    var left := sent[..i] + sent[i + 1..];
    forall a, b | 0 <= a < b < |left| ensures Target(left[a], home) != Target(left[b], home) {
      var x, y := if a < i then a else a + 1, if b < i then b else b + 1;
      assert left[a] == sent[x] && left[b] == sent[y];
    }
  }

  lemma {:induction false} RunKeepsInv(t: Thread, steps: seq<Step>)
    requires Inv(t) && IsRun(t, steps)
    ensures Inv(After(t, steps))
    decreases |steps|
  {
    if steps != [] {
      StepKeepsInv(t, steps[0]);
      RunKeepsInv(Next(t, steps[0]), steps[1..]);
    }
  }

  /**
   * Over any sequence of invocations on the thread, crashed ones included: no completion is looked
   * at by two chain steps; every one is looked at before its own invocation goes on to another
   * round; `release_chain` is entered at most once per invocation; no round is ever sent at or past
   * its cap, even as the expedited flag raises it; and no round sends one role to one issue of one
   * repo twice.
   */
  lemma ChainsExactlyOnce(home: string, steps: seq<Step>)
    requires IsRun(Fresh(home), steps)
    ensures var t := After(Fresh(home), steps);
            && (forall k, l :: 0 <= k < l < |t.examined| ==> t.examined[k] != t.examined[l])
            && (forall i :: 0 <= i < |t.completed| && Past(t, t.completed[i]) ==> i in t.examined)
            && t.releases <= 1
            && t.round <= Cap(t) && (t.stage.Running? ==> t.round < Cap(t) && TargetsDiffer(t.stage.sent, t.home))
  {
    FreshInv(home);
    hide Inv, Fresh, Past, Cap, TargetsDiffer;
    RunKeepsInv(Fresh(home), steps);
    InvSays(After(Fresh(home), steps));
  }

  lemma FreshInv(home: string)
    ensures Inv(Fresh(home))
  {
  }

  lemma InvSays(t: Thread)
    requires Inv(t)
    ensures forall k, l :: 0 <= k < l < |t.examined| ==> t.examined[k] != t.examined[l]
    ensures forall i :: 0 <= i < |t.completed| && Past(t, t.completed[i]) ==> i in t.examined
    ensures t.releases <= 1 && t.round <= Cap(t)
    ensures t.stage.Running? ==> t.round < Cap(t) && TargetsDiffer(t.stage.sent, t.home)
  {
  }

  /** A chain step looks at exactly the completions of its own invocation and round, once each. */
  lemma ChainLooksAtItsOwn(t: Thread, next: seq<Pending>, saw: bool, released: seq<int>)
    requires Inv(t) && t.stage.AtChain?
    ensures var u := Chained(t, next, saw, released);
            && |t.examined| <= |u.examined| && u.examined[..|t.examined|] == t.examined
            && (forall i :: i in u.examined[|t.examined|..] ==> i < |t.completed| && t.completed[i].invocation == t.invocation && i !in t.examined)
            && (forall i :: 0 <= i < |t.completed| && t.completed[i].invocation == t.invocation ==> i in u.examined)
  {
    var u := Chained(t, next, saw, released);
    var places := ThisRound(t, |t.completed|);
    assert u.examined[|t.examined|..] == places;
    forall i | 0 <= i < |t.completed| && t.completed[i].invocation == t.invocation ensures i in u.examined {
      if t.completed[i].round == t.round { assert i in places; } else { assert Past(t, t.completed[i]); }
    }
  }

  // ------------------------------------------------------------------ what is decided is done

  /** The chain step opens the release: one is wanted, not open yet, and nothing failed in its round. */
  predicate Opens(t: Thread) {
    && t.release && !t.dispatched
    && forall i :: 0 <= i < |t.completed| && t.completed[i].round == t.round && t.completed[i].invocation == t.invocation
         ==> !t.completed[i].status.Failed?
  }

  /** A run the chain step asks for: a follow-up, or the intake of an issue the release freed. */
  predicate AskedFor(t: Thread, next: seq<Pending>, released: seq<int>, p: Pending) {
    p in next || (Opens(t) && p == Pending("intake", p.issue, "") && p.issue in released)
  }

  /** The cap leaves another round. */
  predicate RoundsLeft(t: Thread, saw: bool) { t.round + 1 < if t.expedited || saw then 32 else 4 }

  predicate Sends(t: Thread, p: Pending) { t.stage.Running? && p in t.stage.sent }

  /** The fan sends what is pending, goes back to the chain step only for a release still to be opened, and ends otherwise. */
  lemma FanSends(t: Thread)
    ensures var u := Fanned(t);
            && (forall p :: Sends(u, p) <==> t.round < Cap(t) && p in t.pending)
            && (u.stage.Running? ==> forall i, j :: 0 <= i < j < |u.stage.sent| ==> u.stage.sent[i] != u.stage.sent[j])
            && (u.stage.AtChain? <==>
                 t.round < (if t.expedited then 32 else 4) && t.pending == [] && t.release && !t.dispatched)
            && u == t.(stage := u.stage)
  {
    var items := Deduped(t.pending, {});
    assert forall p :: p in items <==> p in t.pending;
    if items == [] { assert forall p :: p !in t.pending; }
  }

  lemma ChainedAsks(t: Thread, next: seq<Pending>, saw: bool, released: seq<int>)
    ensures forall p :: p in Chained(t, next, saw, released).pending <==> AskedFor(t, next, released, p)
  {
    var places := ThisRound(t, |t.completed|);
    assert Opens(t) <==> t.release && !t.dispatched && !AnyFailed(t, places);
    hide Opens, ThisRound, AnyFailed, Intakes;
    forall p ensures p in Chained(t, next, saw, released).pending <==> AskedFor(t, next, released, p) { IntakesHas(released, p); }
  }

  /** The fan after a chain step sends exactly the runs it asked for, each once, and nothing at the cap. */
  lemma ChainedIsSent(t: Thread, next: seq<Pending>, saw: bool, released: seq<int>)
    requires t.stage.AtChain? && ChainSpells(next)
    ensures var u := Next(Next(t, Chain(next, saw, released)), Fan);
            && (forall p :: Sends(u, p) <==> RoundsLeft(t, saw) && AskedFor(t, next, released, p))
            && (u.stage.Running? ==> forall i, j :: 0 <= i < j < |u.stage.sent| ==> u.stage.sent[i] != u.stage.sent[j])
            && u.completed == t.completed && u.round == t.round + 1 && u.invocation == t.invocation && u.home == t.home
  {
    ChainedAsks(t, next, saw, released);
    FanSends(Chained(t, next, saw, released));
    hide AskedFor, Sends, AnyFailed, ThisRound, Intakes, Fanned;
  }

  lemma IntakesHas(released: seq<int>, p: Pending)
    ensures p in Intakes(released) <==> p == Pending("intake", p.issue, "") && p.issue in released
  {
    var all := Intakes(released);
    if p == Pending("intake", p.issue, "") && p.issue in released {
      var i :| 0 <= i < |released| && released[i] == p.issue;
      assert all[i] == p;
    }
  }

  /** A run the router decided on. */
  predicate DecidedOn(r: Route, p: Pending) {
    && r.role != "none"
    && exists i :: 0 <= i < |r.issues| && p == Pending(r.role, r.issues[i], if i < |r.repos| && r.repos[i] != "" then r.repos[i] else r.repo)
  }

  /** And the first fan of an invocation exactly what the router decided on. */
  lemma RoutedIsSent(t: Thread, invocation: nat, route: Route, release: bool)
    requires Enabled(t, Invoke(invocation, route, release))
    ensures var u := Next(Next(t, Invoke(invocation, route, release)), Fan);
            && (forall p :: Sends(u, p) <==> DecidedOn(route, p))
            && (u.stage.Running? ==> forall i, j :: 0 <= i < j < |u.stage.sent| ==> u.stage.sent[i] != u.stage.sent[j])
            && u.completed == t.completed && u.round == 0 && u.invocation == invocation
  {
    RoutedHas(route);
    FanSends(Next(t, Invoke(invocation, route, release)));
    hide DecidedOn, Sends, Routed, Fanned;
  }

  lemma RoutedHas(r: Route)
    ensures forall p :: p in Routed(r) <==> DecidedOn(r, p)
  {
    var all := Routed(r);
    forall p | DecidedOn(r, p) ensures p in all {
      var i :| 0 <= i < |r.issues| && p == Pending(r.role, r.issues[i], RepoOf(r, i));
      assert all[i] == p;
    }
  }

  function Targets(sent: seq<Pending>, home: string): (r: seq<Pending>)
    ensures |r| == |sent| && forall i :: 0 <= i < |r| ==> r[i] == Target(sent[i], home)
  {
    seq(|sent|, i requires 0 <= i < |sent| => Target(sent[i], home))
  }

  /** The runs of these completions. */
  function Runs(completed: seq<Completion>): (r: seq<Pending>)
    ensures |r| == |completed|
    ensures forall i :: 0 <= i < |r| ==> r[i] == Pending(completed[i].role, completed[i].issue, completed[i].repo)
  {
    seq(|completed|, i requires 0 <= i < |completed| => Pending(completed[i].role, completed[i].issue, completed[i].repo))
  }

  predicate OnlyCompletions(steps: seq<Step>) { forall i :: 0 <= i < |steps| ==> steps[i].Complete? }

  /** Runs sent and not yet back. */
  function Out(t: Thread): seq<Pending> { if t.stage.Running? then Targets(t.stage.sent, t.home) else [] }

  /** `u` is `t` with completions of this round and invocation added. */
  ghost predicate Added(t: Thread, u: Thread) {
    && |t.completed| <= |u.completed| && u.completed[..|t.completed|] == t.completed
    && u.round == t.round && u.invocation == t.invocation && u.home == t.home
    && forall i :: |t.completed| <= i < |u.completed| ==>
         u.completed[i].round == t.round && u.completed[i].invocation == t.invocation
  }

  lemma OneComesBack(t: Thread, i: nat, status: Status)
    requires Enabled(t, Complete(i, status))
    ensures var u := Next(t, Complete(i, status));
            Conserved(t, u) && |u.completed| == |t.completed| + 1
  {
    var u := Next(t, Complete(i, status));
    var out := Out(t);
    var left := t.stage.sent[..i] + t.stage.sent[i + 1..];
    assert Targets(left, t.home) == out[..i] + out[i + 1..];
    assert Out(u) == out[..i] + out[i + 1..];
    assert out == out[..i] + [out[i]] + out[i + 1..];
    assert Runs(u.completed[|t.completed|..]) == [out[i]];
  }

  /** As a round goes on, what came back and what is still out are together what was sent, no run twice or lost. */
  lemma {:induction false} RoundConserves(t: Thread, steps: seq<Step>)
    requires OnlyCompletions(steps) && IsRun(t, steps)
    ensures Conserved(t, After(t, steps))
    decreases |steps|
  {
    if steps == [] {
      assert Runs(t.completed[|t.completed|..]) == [];
    } else {
      assert steps[0].Complete?;
      var v, rest := Next(t, steps[0]), steps[1..];
      OneComesBack(t, steps[0].i, steps[0].status);
      hide Conserved, Next, Enabled;
      forall i | 0 <= i < |rest| ensures rest[i].Complete? { assert rest[i] == steps[i + 1]; }
      RoundConserves(v, rest);
      ConservedOn(t, v, After(v, rest));
    }
  }

  /** `u` is `t` later in its round: completions were added, and with what is out they are what was out. */
  ghost predicate Conserved(t: Thread, u: Thread) {
    Added(t, u) && multiset(Runs(u.completed[|t.completed|..])) + multiset(Out(u)) == multiset(Out(t))
  }

  lemma ConservedOn(t: Thread, v: Thread, u: Thread)
    requires Conserved(t, v) && Conserved(v, u)
    ensures Conserved(t, u)
  {
    hide Out, Runs;
    RunsSplit(u.completed, |t.completed|, |v.completed|);
    assert u.completed[|t.completed|..|v.completed|] == v.completed[|t.completed|..];
    assert u.completed[..|t.completed|] == v.completed[..|t.completed|];
    forall i | |t.completed| <= i < |v.completed| ensures u.completed[i] == v.completed[i] {
      assert u.completed[..|v.completed|][i] == v.completed[i];
    }
  }

  lemma RunsSplit(completed: seq<Completion>, a: nat, b: nat)
    requires a <= b <= |completed|
    ensures multiset(Runs(completed[a..])) == multiset(Runs(completed[a..b])) + multiset(Runs(completed[b..]))
  {
    assert Runs(completed[a..]) == Runs(completed[a..b]) + Runs(completed[b..]);
  }

  /**
   * What a chain step decides on is done: once the round it leads to is over, the completions it added
   * are exactly one for each run asked for - its role, its issue, its repo - and none besides.
   */
  lemma DecidedIsDone(t: Thread, next: seq<Pending>, saw: bool, released: seq<int>, steps: seq<Step>)
    requires Inv(t) && t.stage.AtChain? && ChainSpells(next) && RoundsLeft(t, saw) && OnlyCompletions(steps)
    requires var sent := Next(Next(t, Chain(next, saw, released)), Fan);
             IsRun(sent, steps) && sent.stage.Running? && !After(sent, steps).stage.Running?
    ensures var done := After(Next(Next(t, Chain(next, saw, released)), Fan), steps);
            && Added(t.(round := t.round + 1), done)
            && var runs := Runs(done.completed[|t.completed|..]);
               && (forall r :: r in runs <==> exists p :: AskedFor(t, next, released, p) && r == Target(p, t.home))
               && forall i, j :: 0 <= i < j < |runs| ==> runs[i] != runs[j]
  {
    var sent := Next(Next(t, Chain(next, saw, released)), Fan);
    StepKeepsInv(t, Chain(next, saw, released));
    StepKeepsInv(Next(t, Chain(next, saw, released)), Fan);
    InvSays(sent);
    ChainedIsSent(t, next, saw, released);
    hide Inv, Next, Enabled, AskedFor, IsRun, After, RoundsLeft, Target;
    RoundDone(sent, steps);
    var runs := Runs(After(sent, steps).completed[|t.completed|..]);
    forall r ensures r in runs <==> exists p :: AskedFor(t, next, released, p) && r == Target(p, t.home) {
      assert r in runs <==> exists p :: Sends(sent, p) && r == Target(p, t.home);
    }
  }

  /** So is what the router decided on, whatever the thread was at before. */
  lemma RoutedIsDone(t: Thread, invocation: nat, route: Route, release: bool, steps: seq<Step>)
    requires Inv(t) && Enabled(t, Invoke(invocation, route, release)) && OnlyCompletions(steps)
    requires var sent := Next(Next(t, Invoke(invocation, route, release)), Fan);
             IsRun(sent, steps) && sent.stage.Running? && !After(sent, steps).stage.Running?
    ensures var done := After(Next(Next(t, Invoke(invocation, route, release)), Fan), steps);
            && Added(t.(round := 0, invocation := invocation), done)
            && var runs := Runs(done.completed[|t.completed|..]);
               && (forall r :: r in runs <==> exists p :: DecidedOn(route, p) && r == Target(p, t.home))
               && forall i, j :: 0 <= i < j < |runs| ==> runs[i] != runs[j]
  {
    var sent := Next(Next(t, Invoke(invocation, route, release)), Fan);
    StepKeepsInv(t, Invoke(invocation, route, release));
    StepKeepsInv(Next(t, Invoke(invocation, route, release)), Fan);
    InvSays(sent);
    RoutedIsSent(t, invocation, route, release);
    assert sent.home == t.home;
    hide Inv, Next, Enabled, DecidedOn, IsRun, After, Target;
    RoundDone(sent, steps);
    var runs := Runs(After(sent, steps).completed[|t.completed|..]);
    forall r ensures r in runs <==> exists p :: DecidedOn(route, p) && r == Target(p, t.home) {
      assert r in runs <==> exists p :: Sends(sent, p) && r == Target(p, t.home);
    }
  }

  /** A round that is over added one completion for each run sent. */
  lemma RoundDone(t: Thread, steps: seq<Step>)
    requires OnlyCompletions(steps) && IsRun(t, steps) && t.stage.Running? && !After(t, steps).stage.Running?
    requires TargetsDiffer(t.stage.sent, t.home)
    ensures var done := After(t, steps);
            && Added(t, done)
            && var runs := Runs(done.completed[|t.completed|..]);
               && (forall r :: r in runs <==> exists p :: Sends(t, p) && r == Target(p, t.home))
               && forall i, j :: 0 <= i < j < |runs| ==> runs[i] != runs[j]
  {
    RoundConserves(t, steps);
    hide IsRun, After, Target;
    var runs, out := Runs(After(t, steps).completed[|t.completed|..]), Out(t);
    assert multiset(runs) == multiset(out);
    SameOnce(out, runs);
    OutHas(t);
  }

  lemma OutHas(t: Thread)
    requires t.stage.Running?
    ensures forall r :: r in Out(t) <==> exists p :: Sends(t, p) && r == Target(p, t.home)
  {
    var out := Out(t);
    forall p | Sends(t, p) ensures Target(p, t.home) in out {
      var i :| 0 <= i < |t.stage.sent| && t.stage.sent[i] == p;
      assert out[i] == Target(p, t.home);
    }
    forall r | r in out ensures exists p :: Sends(t, p) && r == Target(p, t.home) {
      var i :| 0 <= i < |out| && out[i] == r;
      assert Sends(t, t.stage.sent[i]);
    }
  }

  /** A reordering of a list without repeats has the same members, and none twice. */
  lemma SameOnce(a: seq<Pending>, b: seq<Pending>)
    requires multiset(a) == multiset(b) && forall i, j :: 0 <= i < j < |a| ==> a[i] != a[j]
    ensures forall x :: x in a <==> x in b
    ensures forall i, j :: 0 <= i < j < |b| ==> b[i] != b[j]
  {
    forall x ensures x in a <==> x in b { assert x in multiset(a) <==> x in multiset(b); }
    forall i, j | 0 <= i < j < |b| ensures b[i] != b[j] {
      if b[i] == b[j] {
        assert b == b[..i] + [b[i]] + b[i + 1..j] + [b[j]] + b[j + 1..];
        assert multiset(b)[b[i]] >= 2;
        OnceEach(a, b[i]);
      }
    }
  }

  lemma {:induction false} OnceEach(a: seq<Pending>, x: Pending)
    requires forall i, j :: 0 <= i < j < |a| ==> a[i] != a[j]
    ensures multiset(a)[x] <= 1
  {
    if a != [] {
      assert a == [a[0]] + a[1..];
      OnceEach(a[1..], x);
      if a[0] == x { assert x !in a[1..]; }
    }
  }

  // ------------------------------------------------------------------ it ends

  /** Rounds left under the highest cap, then work left in the round. */
  function Rest(t: Thread): nat {
    match t.stage
    case AtFan => |t.pending| + 2
    case Running(sent) => |sent| + 1
    case _ => 0
  }

  /** Every step but a new invocation gets closer to the end; only an idle thread has none left. */
  lemma InvocationsEnd(t: Thread, s: Step)
    requires Inv(t) && Enabled(t, s) && !s.Invoke?
    ensures var u := Next(t, s);
            u.round > t.round || (u.round == t.round && Rest(u) < Rest(t))
    ensures Next(t, s).round <= EXPEDITE_MAX_ROUNDS
  {
    StepKeepsInv(t, s);
  }

  lemma GoesOn(t: Thread) returns (s: Step)
    requires Inv(t) && !t.stage.Idle?
    ensures Enabled(t, s) && !s.Invoke?
  {
    match t.stage
    case AtFan => s := Fan;
    case Running(_) => s := Complete(0, Success);
    case AtChain => s := Chain([], false, []);
  }

  lemma OnlyIdleStops(t: Thread)
    requires Inv(t) && forall s: Step :: Enabled(t, s) ==> s.Invoke?
    ensures t.stage.Idle?
  {
    if !t.stage.Idle? { var s := GoesOn(t); }
  }

  function Chains(steps: seq<Step>): nat {
    if steps == [] then 0 else (if steps[0].Chain? then 1 else 0) + Chains(steps[1..])
  }

  predicate Uninterrupted(steps: seq<Step>) { forall i :: 0 <= i < |steps| ==> !steps[i].Invoke? }

  /** Some chain step of these found an expedited issue. */
  predicate SeesExpedited(steps: seq<Step>) { exists i :: 0 <= i < |steps| && steps[i].Chain? && steps[i].sawExpedited }

  /**
   * Chain steps of one uninterrupted invocation, whatever they decide: no more than the plain cap
   * leaves when nothing expedited turns up, than the higher cap leaves when something does.
   */
  lemma {:induction false} RoundsAreBounded(t: Thread, steps: seq<Step>)
    requires Inv(t) && IsRun(t, steps) && Uninterrupted(steps)
    ensures Chains(steps) <= EXPEDITE_MAX_ROUNDS - t.round
    ensures !t.expedited && !SeesExpedited(steps) ==> Chains(steps) <= MAX_ROUNDS - t.round
    decreases |steps|
  {
    if steps != [] {
      StepKeepsInv(t, steps[0]);
      assert !steps[0].Invoke?;
      forall i | 0 <= i < |steps[1..]| ensures !steps[1..][i].Invoke? { assert steps[1..][i] == steps[i + 1]; }
      if SeesExpedited(steps[1..]) {
        var i :| 0 <= i < |steps[1..]| && steps[1..][i].Chain? && steps[1..][i].sawExpedited;
        assert steps[i + 1].sawExpedited;
      }
      RoundsAreBounded(Next(t, steps[0]), steps[1..]);
    }
  }

  /** So a new invocation gets at most four chain steps, whatever came before it on the thread, or thirty-two once something expedited turns up. */
  lemma InvocationIsBounded(t: Thread, invocation: nat, route: Route, release: bool, steps: seq<Step>)
    requires Inv(t) && Enabled(t, Invoke(invocation, route, release)) && Uninterrupted(steps)
    requires IsRun(Next(t, Invoke(invocation, route, release)), steps)
    ensures Chains(steps) <= if SeesExpedited(steps) then 32 else 4
  {
    StepKeepsInv(t, Invoke(invocation, route, release));
    hide Inv;
    RoundsAreBounded(Next(t, Invoke(invocation, route, release)), steps);
  }

  /**
   * What a failed round does to a release: the chain step opens it exactly when nothing in the round
   * failed. When it does not, the invocation goes on to another chain step, unless the cap ends it.
   */
  lemma FailureOnlyDefersRelease(t: Thread, next: seq<Pending>, saw: bool, released: seq<int>)
    requires Inv(t) && t.stage.AtChain? && t.release && !t.dispatched && ChainSpells(next)
    ensures var u := Chained(t, next, saw, released);
            && (u.dispatched <==> !AnyFailed(t, ThisRound(t, |t.completed|)))
            && (!u.dispatched ==> (Fanned(u).stage.Idle? <==> u.round == Cap(u)))
            && (Fanned(u).stage.AtChain? ==> forall more, s, r :: Chained(Fanned(u), more, s, r).dispatched)
  {
    var u := Chained(t, next, saw, released);
    ChainKeepsInv(t, next, saw, released);
    var f := Fanned(u);
    if f.stage.AtChain? {
      var places := ThisRound(f, |f.completed|);
      forall i: nat ensures i !in places {}
    }
  }

  /** So a release that was asked for is opened by the time its invocation ends, unless the rounds ran out. */
  lemma ReleaseOpensUnlessCapped(home: string, steps: seq<Step>)
    requires IsRun(Fresh(home), steps)
    ensures var t := After(Fresh(home), steps);
            t.stage.Idle? && t.release ==> t.dispatched || t.round == Cap(t)
  {
    FreshInv(home);
    RunKeepsInv(Fresh(home), steps);
  }

  // ------------------------------------------------------------------ the loops as written

  lemma DedupedFrom(pending: seq<Pending>, i: nat, seen: set<Pending>)
    requires i < |pending|
    ensures Deduped(pending[i..], seen) ==
      if pending[i] in seen then Deduped(pending[i + 1..], seen)
      else [pending[i]] + Deduped(pending[i + 1..], seen + {pending[i]})
  {
    assert pending[i..][0] == pending[i] && pending[i..][1..] == pending[i + 1..];
  }

  /** `fan`'s loop. */
  method FanItems(pending: seq<Pending>) returns (items: seq<Pending>)
    ensures items == Deduped(pending, {})
  {
    items := [];
    var seen: set<Pending> := {};
    assert pending[0..] == pending;
    hide Deduped;
    for i := 0 to |pending|
      invariant items + Deduped(pending[i..], seen) == Deduped(pending, {})
    {
      DedupedFrom(pending, i, seen);
      if pending[i] !in seen {
        seen := seen + {pending[i]};
        items := items + [pending[i]];
      }
    }
    NothingToSend(seen);
  }

  lemma NothingToSend(seen: set<Pending>)
    ensures Deduped([], seen) == []
  {
  }

  /** `chain_node`'s filter over the durable list, and its `failed` test. */
  method ChainRound(t: Thread) returns (places: seq<nat>, failed: bool)
    ensures places == ThisRound(t, |t.completed|)
    ensures failed <==> AnyFailed(t, places)
  {
    places, failed := [], false;
    for i := 0 to |t.completed|
      invariant places == ThisRound(t, i)
      invariant failed <==> exists j :: j in places && t.completed[j].status.Failed?
    {
      var c := t.completed[i];
      if c.round == t.round && c.invocation == t.invocation {
        places := places + [i];
        assert i in places;
        failed := failed || c.status.Failed?;
      }
    }
  }
}
