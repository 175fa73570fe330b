/**
 * What happens to a role's commits (`_observe` in role_runner.py): run the project's own tests on
 * the working copy, push when they are green, hand a red log back to the agent at most twice.
 * Everything the observer meets is in `World`: the working copy at the start of each round, what a
 * test run answers and leaves behind, whether the clock has run down, what the agent ends with.
 */
module Observe {
  import opened Wrappers

  const MAX_FIX_RESUMES := 2

  type Files = map<string, string>

  /**
   * The working copy: the branch HEAD is on and whether it is ahead of origin, the test command its
   * profile names, the files git does not ignore, and those of the commit at HEAD.
   */
  datatype Copy = Copy(on: string, ahead: bool, command: Option<string>, work: Files, head: Files)

  /** `inspect_pushable_branch` finds one; no protected branch has such a name. */
  predicate Pushable(c: Copy) { ("factory/" <= c.on || "factory-console/" <= c.on) && c.ahead }

  datatype Verdict = Green | Red(code: int) | TestsTimedOut

  datatype Status = Success | Error | Timeout

  datatype Outcome = Outcome(status: Status, exitCode: Option<int>)

  /** Indexed by round. `left` is the copy as the test run leaves it. */
  datatype World = World(
    copy: nat -> Copy, verdict: nat -> Verdict, left: nat -> Copy, late: nat -> bool, agent: nat -> Outcome, push: Outcome)

  datatype Event =
    | Tested(tree: Files, command: string, verdict: Verdict)
    | Resumed(status: Status)
    | Pushed(branch: string, tree: Files, status: Status)

  /** What the role run is told after the push. */
  function PushOutcome(push: Outcome): Outcome {
    Outcome(push.status, if push.status == Success then Some(0) else push.exitCode)
  }

  // ------------------------------------------------------------------ the observer

  datatype Round = Stop(outcome: Outcome, events: seq<Event>) | Again(red: Outcome, events: seq<Event>)

  /** One round: the last, or a red one the agent answered. */
  function OneRound(w: World, first: Outcome, resumes: nat, red: Option<Outcome>): Round {
    var c := w.copy(resumes);
    if !Pushable(c) then Stop(if red.Some? then red.value else first, [])
    else if c.command == None then
      Stop(PushOutcome(w.push), [Pushed(c.on, c.head, w.push.status)])
    else
      var test := Tested(c.work, c.command.value, w.verdict(resumes));
      match w.verdict(resumes)
      case TestsTimedOut => Stop(Outcome(Timeout, None), [test])
      case Green => Stop(PushOutcome(w.push), [test, Pushed(w.left(resumes).on, w.left(resumes).head, w.push.status)])
      case Red(code) =>
        var failed := Outcome(Error, Some(code));
        if resumes >= MAX_FIX_RESUMES || w.late(resumes) then Stop(failed, [test])
        else if w.agent(resumes).status == Timeout then Stop(Outcome(Timeout, None), [test, Resumed(Timeout)])
        else Again(failed, [test, Resumed(w.agent(resumes).status)])
  }

  /** What is still to come in round `resumes`, and the run's outcome. */
  function Rest(w: World, first: Outcome, resumes: nat, red: Option<Outcome>): (r: (Outcome, seq<Event>))
    requires resumes <= MAX_FIX_RESUMES
    decreases MAX_FIX_RESUMES - resumes
  {
    match OneRound(w, first, resumes, red)
    case Stop(outcome, events) => (outcome, events)
    case Again(failed, events) =>
      var (outcome, later) := Rest(w, first, resumes + 1, Some(failed));
      (outcome, events + later)
  }

  /** The whole run: its outcome and its steps. */
  function Run(w: World, first: Outcome): (Outcome, seq<Event>) { Rest(w, first, 0, None) }

  /** The trace so far and what is still to come make up the run. */
  ghost predicate OnTrack(w: World, first: Outcome, resumes: nat, red: Option<Outcome>, trace: seq<Event>) {
    && resumes <= MAX_FIX_RESUMES
    && Run(w, first) == (Rest(w, first, resumes, red).0, trace + Rest(w, first, resumes, red).1)
  }

  lemma StartsOnTrack(w: World, first: Outcome)
    ensures OnTrack(w, first, 0, None, [])
  {
    assert [] + Run(w, first).1 == Run(w, first).1;
  }

  lemma RoundKeepsTrack(w: World, first: Outcome, resumes: nat, red: Option<Outcome>, trace: seq<Event>)
    requires OnTrack(w, first, resumes, red, trace)
    ensures var round := OneRound(w, first, resumes, red);
            match round
            case Stop(outcome, events) => Run(w, first) == (outcome, trace + events)
            case Again(failed, events) => OnTrack(w, first, resumes + 1, Some(failed), trace + events)
  {
    var round := OneRound(w, first, resumes, red);
    if round.Again? {
      var later := Rest(w, first, resumes + 1, Some(round.red)).1;
      assert trace + (round.events + later) == trace + round.events + later;
    }
  }

  /** The loop. */
  method Observe(w: World, first: Outcome) returns (outcome: Outcome, trace: seq<Event>)
    ensures (outcome, trace) == Run(w, first)
  {
    hide OnTrack, Run, Rest;
    var resumes: nat, red, done := 0, None, false;
    trace, outcome := [], first;
    StartsOnTrack(w, first);
    while !done
      invariant !done ==> resumes <= MAX_FIX_RESUMES && OnTrack(w, first, resumes, red, trace)
      invariant done ==> (outcome, trace) == Run(w, first)
      decreases !done, MAX_FIX_RESUMES - resumes
    {
      RoundKeepsTrack(w, first, resumes, red, trace);
      ghost var before := trace;
      var c := w.copy(resumes);
      if !Pushable(c) {
        assert before + [] == before;
        outcome, done := if red.Some? then red.value else first, true;
        continue;
      }
      if c.command.Some? {
        var verdict := w.verdict(resumes);
        trace := trace + [Tested(c.work, c.command.value, verdict)];
        if verdict == TestsTimedOut {
          outcome, done := Outcome(Timeout, None), true;
          continue;
        }
        if verdict.Red? {
          var failed := Outcome(Error, Some(verdict.code));
          if resumes >= MAX_FIX_RESUMES || w.late(resumes) {
            outcome, done := failed, true;
            continue;
          }
          var fixed := w.agent(resumes);
          trace := trace + [Resumed(fixed.status)];
          assert trace == before + [Tested(c.work, c.command.value, verdict), Resumed(fixed.status)];
          if fixed.status == Timeout {
            outcome, done := Outcome(Timeout, None), true;
          } else {
            red, resumes := Some(failed), resumes + 1;
            assert OnTrack(w, first, resumes, red, trace);
          }
          continue;
        }
        c := c.(on := w.left(resumes).on, head := w.left(resumes).head);
      }
      trace := trace + [Pushed(c.on, c.head, w.push.status)];
      assert trace == before + OneRound(w, first, resumes, red).events;
      outcome, done := PushOutcome(w.push), true;
    }
  }

  // ------------------------------------------------------------------ what every run does

  /** Round `k` goes back to the agent, and the agent comes back. */
  predicate HandsBack(w: World, k: nat) {
    && Pushable(w.copy(k)) && w.copy(k).command.Some? && w.verdict(k).Red? && !w.late(k)
    && w.agent(k).status != Timeout
  }

  /** The `i`-th of these rounds was handed back to the agent: a red test of what it left, and its answer. */
  predicate RedRound(w: World, start: nat, events: seq<Event>, i: nat)
    requires 2 * i + 1 < |events|
  {
    var k := start + i;
    && HandsBack(w, k)
    && events[2 * i] == Tested(w.copy(k).work, w.copy(k).command.value, w.verdict(k))
    && events[2 * i + 1] == Resumed(w.agent(k).status)
  }

  /** Rounds from `start` on, all handed back. */
  predicate RedRounds(w: World, start: nat, events: seq<Event>, n: nat)
    requires |events| == 2 * n
  {
    forall i: nat :: i < n ==> RedRound(w, start, events, i)
  }

  datatype Ending =
    | Pushes(branch: string, tree: Files, status: Status)
    | PushesGreen(tested: Files, command: string, branch: string, tree: Files, status: Status)
    | StopsRed(tested: Files, command: string, code: int)
    | StopsLate(tested: Files, command: string)
    | AgentRanOut(tested: Files, command: string, code: int)
    | NothingToPush

  function Events(e: Ending): seq<Event> {
    match e
    case Pushes(b, t, s) => [Pushed(b, t, s)]
    case PushesGreen(t0, cmd, b, t, s) => [Tested(t0, cmd, Green), Pushed(b, t, s)]
    case StopsRed(t, cmd, code) => [Tested(t, cmd, Red(code))]
    case StopsLate(t, cmd) => [Tested(t, cmd, TestsTimedOut)]
    case AgentRanOut(t, cmd, code) => [Tested(t, cmd, Red(code)), Resumed(Timeout)]
    case NothingToPush => []
  }

  /** How the last round went, `n` fixes in, and what it makes of the run. */
  predicate Ends(w: World, first: Outcome, n: nat, outcome: Outcome, e: Ending) {
    var c := w.copy(n);
    match e
    case NothingToPush =>
      && !Pushable(c)
      && (if n == 0 then outcome == first
          else w.verdict(n - 1).Red? && outcome == Outcome(Error, Some(w.verdict(n - 1).code)))
    case Pushes(b, t, s) => Pushable(c) && c.command == None && b == c.on && t == c.head && s == w.push.status && Tells(w, outcome)
    case PushesGreen(t0, cmd, b, t, s) =>
      && Pushable(c) && c.command == Some(cmd) && w.verdict(n).Green? && t0 == c.work
      && b == w.left(n).on && t == w.left(n).head && s == w.push.status && Tells(w, outcome)
    case StopsRed(t, cmd, code) =>
      && Pushable(c) && c.command == Some(cmd) && w.verdict(n) == Red(code) && t == c.work && (n == 2 || w.late(n))
      && outcome == Outcome(Error, Some(code))
    case StopsLate(t, cmd) =>
      && Pushable(c) && c.command == Some(cmd) && w.verdict(n).TestsTimedOut? && t == c.work
      && outcome == Outcome(Timeout, None)
    case AgentRanOut(t, cmd, code) =>
      && Pushable(c) && c.command == Some(cmd) && w.verdict(n) == Red(code) && t == c.work && n < 2 && !w.late(n)
      && w.agent(n).status == Timeout && outcome == Outcome(Timeout, None)
  }

  /** The run says of itself what its push said. */
  predicate Tells(w: World, outcome: Outcome) {
    outcome.status == w.push.status && outcome.exitCode == if w.push.status == Success then Some(0) else w.push.exitCode
  }

  lemma RedRoundFirst(w: World, start: nat, reds: seq<Event>, n: nat)
    requires n > 0 && |reds| == 2 * n && RedRounds(w, start + 1, reds[2..], n - 1) && HandsBack(w, start)
    requires reds[0] == Tested(w.copy(start).work, w.copy(start).command.value, w.verdict(start))
    requires reds[1] == Resumed(w.agent(start).status)
    ensures RedRounds(w, start, reds, n)
  {
    var rest := reds[2..];
    forall i: nat | i < n ensures RedRound(w, start, reds, i) {
      if i > 0 {
        assert RedRound(w, start + 1, rest, i - 1);
        assert reds[2 * i] == rest[2 * (i - 1)] && reds[2 * i + 1] == rest[2 * (i - 1) + 1];
      }
    }
  }

  /** The last red test, in the round before. */
  predicate RedSoFar(w: World, n: nat, red: Option<Outcome>) {
    if n == 0 then red == None else w.verdict(n - 1).Red? && red == Some(Outcome(Error, Some(w.verdict(n - 1).code)))
  }

  lemma StopShape(w: World, first: Outcome, n: nat, red: Option<Outcome>) returns (e: Ending)
    requires n <= 2 && RedSoFar(w, n, red)
    requires OneRound(w, first, n, red).Stop?
    ensures OneRound(w, first, n, red).events == Events(e) && Ends(w, first, n, OneRound(w, first, n, red).outcome, e)
  {
    var c := w.copy(n);
    if !Pushable(c) {
      e := NothingToPush;
    } else if c.command == None {
      e := Pushes(c.on, c.head, w.push.status);
    } else {
      match w.verdict(n)
      case TestsTimedOut => e := StopsLate(c.work, c.command.value);
      case Green => e := PushesGreen(c.work, c.command.value, w.left(n).on, w.left(n).head, w.push.status);
      case Red(code) =>
        if n >= MAX_FIX_RESUMES || w.late(n) {
          e := StopsRed(c.work, c.command.value, code);
        } else {
          e := AgentRanOut(c.work, c.command.value, code);
        }
    }
  }

  lemma AgainShape(w: World, first: Outcome, n: nat, red: Option<Outcome>)
    requires OneRound(w, first, n, red).Again?
    ensures var round := OneRound(w, first, n, red);
            && n < MAX_FIX_RESUMES && HandsBack(w, n) && RedSoFar(w, n + 1, Some(round.red))
            && round.events == [Tested(w.copy(n).work, w.copy(n).command.value, w.verdict(n)), Resumed(w.agent(n).status)]
  {}

  lemma {:induction false} RestShape(w: World, first: Outcome, resumes: nat, red: Option<Outcome>)
    returns (n: nat, reds: seq<Event>, e: Ending)
    requires resumes <= MAX_FIX_RESUMES && RedSoFar(w, resumes, red)
    ensures resumes <= n <= MAX_FIX_RESUMES && |reds| == 2 * (n - resumes) && RedRounds(w, resumes, reds, n - resumes)
    ensures Rest(w, first, resumes, red).1 == reds + Events(e)
    ensures Ends(w, first, n, Rest(w, first, resumes, red).0, e)
    decreases MAX_FIX_RESUMES - resumes
  {
    hide Ends, Events, OneRound, RedSoFar, HandsBack;
    var round := OneRound(w, first, resumes, red);
    if round.Stop? {
      n, reds := resumes, [];
      e := StopShape(w, first, resumes, red);
    } else {
      AgainShape(w, first, resumes, red);
      var rest;
      n, rest, e := RestShape(w, first, resumes + 1, Some(round.red));
      reds := round.events + rest;
      assert reds[2..] == rest;
      RedRoundFirst(w, resumes, reds, n - resumes);
      assert reds + Events(e) == round.events + (rest + Events(e));
    }
  }

  /**
   * Every run is at most two red rounds handed to the agent, then one round that ends it: each as the
   * copy, the tests, the clock and the agent of that round make it.
   */
  lemma RunShape(w: World, first: Outcome) returns (n: nat, reds: seq<Event>, e: Ending)
    ensures n <= 2 && |reds| == 2 * n && RedRounds(w, 0, reds, n)
    ensures Run(w, first).1 == reds + Events(e) && Ends(w, first, n, Run(w, first).0, e)
  {
    n, reds, e := RestShape(w, first, 0, None);
  }

  // ------------------------------------------------------------------ the main results

  function CountTests(events: seq<Event>): nat {
    if events == [] then 0 else (if events[0].Tested? then 1 else 0) + CountTests(events[1..])
  }

  predicate HasRed(events: seq<Event>) { exists i :: 0 <= i < |events| && events[i].Tested? && events[i].verdict.Red? }

  predicate HasPush(events: seq<Event>) { exists i :: 0 <= i < |events| && events[i].Pushed? }

  predicate GreenAt(events: seq<Event>, i: int) { 0 <= i < |events| && events[i].Tested? && events[i].verdict == Green }

  /** The copy in the round that pushes: the last one. */
  function Fixes(events: seq<Event>): nat {
    if events == [] then 0 else (if events[0].Resumed? then 1 else 0) + Fixes(events[1..])
  }

  lemma {:induction false} CountsAdd(a: seq<Event>, b: seq<Event>)
    ensures CountTests(a + b) == CountTests(a) + CountTests(b) && Fixes(a + b) == Fixes(a) + Fixes(b)
  {
    if a == [] { assert a + b == b; } else {
      CountsAdd(a[1..], b);
      assert (a + b)[1..] == a[1..] + b;
    }
  }

  lemma {:induction false} RedRoundsCount(w: World, start: nat, reds: seq<Event>, n: nat)
    requires |reds| == 2 * n && RedRounds(w, start, reds, n)
    ensures CountTests(reds) == n && Fixes(reds) == n
    decreases n
  {
    hide HandsBack;
    if n > 0 {
      var rest := reds[2..];
      assert RedRounds(w, start + 1, rest, n - 1) by { RedRoundsTail(w, start, reds, n); }
      RedRoundsCount(w, start + 1, rest, n - 1);
      assert RedRound(w, start, reds, 0);
      assert reds == [reds[0], reds[1]] + rest;
      CountsAdd([reds[0], reds[1]], rest);
      assert [reds[0], reds[1]][1..] == [reds[1]];
    }
  }

  lemma RedRoundsTail(w: World, start: nat, reds: seq<Event>, n: nat)
    requires n > 0 && |reds| == 2 * n && RedRounds(w, start, reds, n)
    ensures RedRounds(w, start + 1, reds[2..], n - 1)
  {
    var rest, next := reds[2..], start + 1;
    forall i: nat | i < n - 1 ensures RedRound(w, next, rest, i) {
      assert RedRound(w, start, reds, i + 1);
      assert rest[2 * i] == reds[2 * (i + 1)] && rest[2 * i + 1] == reds[2 * (i + 1) + 1];
    }
  }

  lemma EndingCounts(e: Ending)
    ensures CountTests(Events(e)) <= 1
    ensures Fixes(Events(e)) == if e.AgentRanOut? then 1 else 0
  {
    var events := Events(e);
    if |events| == 2 {
      CountsAdd([events[0]], [events[1]]);
      assert events == [events[0]] + [events[1]];
    }
  }

  /** The tests run at most three times, the agent is resumed at most twice. */
  lemma TestRunsAreBounded(w: World, first: Outcome)
    ensures CountTests(Run(w, first).1) <= MAX_FIX_RESUMES + 1 && Fixes(Run(w, first).1) <= MAX_FIX_RESUMES
  {
    var n, reds, e := RunShape(w, first);
    RedRoundsCount(w, 0, reds, n);
    EndingCounts(e);
    CountsAdd(reds, Events(e));
  }

  /**
   * There is at most one push and it is the last step. It comes straight after a green test, with no
   * agent step between, exactly when the copy of that round names a test command.
   */
  lemma PushFollowsGreen(w: World, first: Outcome, i: nat)
    requires i < |Run(w, first).1| && Run(w, first).1[i].Pushed?
    ensures var t := Run(w, first).1;
            && i == |t| - 1
            && (GreenAt(t, i - 1) <==> w.copy(Fixes(t)).command.Some?)
            && (GreenAt(t, i - 1) ==>
                 && t[i - 1].tree == w.copy(Fixes(t)).work
                 && t[i].tree == w.left(Fixes(t)).head && t[i].branch == w.left(Fixes(t)).on)
            && (!GreenAt(t, i - 1) ==> t[i].tree == w.copy(Fixes(t)).head && t[i].branch == w.copy(Fixes(t)).on)
  {
    var n, reds, e := RunShape(w, first);
    RedRoundsCount(w, 0, reds, n);
    EndingCounts(e);
    CountsAdd(reds, Events(e));
    InReds(w, reds, n, i);
    if i > 0 { InReds(w, reds, n, i - 1); }
  }

  lemma InReds(w: World, reds: seq<Event>, n: nat, i: nat)
    requires |reds| == 2 * n && RedRounds(w, 0, reds, n)
    ensures i < |reds| ==> !reds[i].Pushed? && !GreenAt(reds, i) && (reds[i].Tested? <==> i % 2 == 0)
    ensures i < |reds| && i % 2 == 0 ==>
      && HandsBack(w, i / 2) && i + 1 < |reds| && reds[i + 1].Resumed?
      && reds[i] == Tested(w.copy(i / 2).work, w.copy(i / 2).command.value, w.verdict(i / 2))
  {
    if i < |reds| {
      assert i == 2 * (i / 2) || i == 2 * (i / 2) + 1;
      assert i / 2 < n;
      assert RedRound(w, 0, reds, i / 2);
    }
  }

  /**
   * A red test goes back to the agent exactly when fewer than two did before it and the clock has time
   * left; the run is over otherwise.
   */
  lemma RedGoesBackExactly(w: World, first: Outcome, i: nat)
    requires i < |Run(w, first).1| && Run(w, first).1[i].Tested? && Run(w, first).1[i].verdict.Red?
    ensures var t := Run(w, first).1;
            && t[i].tree == w.copy(i / 2).work && t[i].verdict == w.verdict(i / 2)
            && (i + 1 < |t| <==> i / 2 < 2 && !w.late(i / 2))
            && (i + 1 < |t| ==> t[i + 1] == Resumed(w.agent(i / 2).status))
  {
    var n, reds, e := RunShape(w, first);
    InReds(w, reds, n, i);
    if i < |reds| {
      assert RedRound(w, 0, reds, i / 2);
    }
  }

  /** A run is tested at all exactly when there is something to push and a command to test it with. */
  lemma TestedExactly(w: World, first: Outcome)
    ensures var t, c := Run(w, first).1, w.copy(0);
            && (t == [] <==> !c.ahead || !("factory/" <= c.on || "factory-console/" <= c.on))
            && (t != [] && t[0].Tested? <==> t != [] && c.command.Some?)
  {
    var n, reds, e := RunShape(w, first);
    if n > 0 {
      InReds(w, reds, n, 0);
    }
  }

  /** Nothing is left to commit. */
  predicate Committed(c: Copy) { c.work == c.head }

  /** The test run of round `n` moves neither HEAD nor the branch it is on. */
  predicate TestsLeaveHead(w: World, n: nat) { w.left(n).on == w.copy(n).on && w.left(n).head == w.copy(n).head }

  /**
   * The tests see the files, the push sends HEAD. For a copy with nothing to commit and tests that
   * leave HEAD alone, what is pushed is what was green, on the branch inspected; and each of the two
   * is needed: with either one given, the trees are the same exactly when the other holds.
   */
  lemma PushedTreeWasTested(w: World, first: Outcome, i: nat)
    requires i < |Run(w, first).1| && Run(w, first).1[i].Pushed?
    requires w.copy(Fixes(Run(w, first).1)).command.Some?
    ensures var t := Run(w, first).1;
            var n := Fixes(t);
            var c := w.copy(n);
            && GreenAt(t, i - 1)
            && (Committed(c) && TestsLeaveHead(w, n) ==> t[i].tree == t[i - 1].tree && t[i].branch == c.on)
            && (TestsLeaveHead(w, n) ==> (t[i].tree == t[i - 1].tree <==> Committed(c)))
            && (Committed(c) && t[i].branch == c.on ==> (t[i].tree == t[i - 1].tree <==> TestsLeaveHead(w, n)))
  {
    PushFollowsGreen(w, first, i);
  }

  /** Every verdict in the trace is the suite's own on the tree it saw. */
  ghost predicate Judges(suite: Files -> Verdict, t: seq<Event>) {
    forall i :: 0 <= i < |t| && t[i].Tested? ==> t[i].verdict == suite(t[i].tree)
  }

  /** A suite that always answers alike passes what is pushed, then. */
  lemma PushedTreePasses(w: World, first: Outcome, i: nat, suite: Files -> Verdict)
    requires i < |Run(w, first).1| && Run(w, first).1[i].Pushed? && Judges(suite, Run(w, first).1)
    requires var n := Fixes(Run(w, first).1);
             w.copy(n).command.Some? && Committed(w.copy(n)) && TestsLeaveHead(w, n)
    ensures suite(Run(w, first).1[i].tree) == Green
  {
    PushedTreeWasTested(w, first, i);
  }

  /** A first round that tests one tree, is green, and pushes another. */
  ghost predicate GreenThenPushes(w: World, first: Outcome, tested: Files, branch: string, pushed: Files) {
    && Run(w, first).0.status == Success
    && Run(w, first).1 == [Tested(tested, "npm test", Green), Pushed(branch, pushed, Success)]
  }

  /**
   * Without the first condition: an edit never committed turns the tests green, and HEAD goes without
   * it, whatever the same suite would say of HEAD.
   */
  lemma UncommittedEditIsTestedNotPushed(first: Outcome, fixed: Files, broken: Files, suite: Files -> Verdict)
    requires suite(fixed) == Green && suite(broken).Red?
    ensures exists w: World ::
              TestsLeaveHead(w, 0) && GreenThenPushes(w, first, fixed, "factory/1", broken) && Judges(suite, Run(w, first).1)
  {
    var c := Copy("factory/1", true, Some("npm test"), fixed, broken);
    var ok := Outcome(Success, Some(0));
    var w := World((i: nat) => c, (i: nat) => Green, (i: nat) => c, (i: nat) => false, (i: nat) => ok, ok);
    assert TestsLeaveHead(w, 0) && GreenThenPushes(w, first, fixed, "factory/1", broken) && Judges(suite, Run(w, first).1);
  }

  /** Without the second: a test run that checks something out has that pushed, on whatever branch. */
  lemma TestsThatMoveHeadArePushed(first: Outcome, tested: Files, elsewhere: string, other: Files)
    ensures exists w: World :: Committed(w.copy(0)) && GreenThenPushes(w, first, tested, elsewhere, other)
  {
    var c := Copy("factory/1", true, Some("npm test"), tested, tested);
    var moved := c.(on := elsewhere, head := other);
    var ok := Outcome(Success, Some(0));
    var w := World((i: nat) => c, (i: nat) => Green, (i: nat) => moved, (i: nat) => false, (i: nat) => ok, ok);
    assert Committed(w.copy(0)) && GreenThenPushes(w, first, tested, elsewhere, other);
  }

  /** The run succeeds exactly when its push does, or when there is nothing to push or test. */
  lemma SuccessExactly(w: World, first: Outcome)
    ensures var (outcome, t) := Run(w, first);
            outcome.status == Success
            <==> (HasPush(t) && w.push.status == Success) || (t == [] && first.status == Success)
  {
    var n, reds, e := RunShape(w, first);
    var t := Run(w, first).1;
    if HasPush(t) {
      var i :| 0 <= i < |t| && t[i].Pushed?;
      InReds(w, reds, n, i);
    }
    if e.Pushes? || e.PushesGreen? {
      assert t[|t| - 1].Pushed?;
    }
  }

  /** Success after a later green test and its push. */
  predicate EndsGreen(events: seq<Event>) {
    |events| >= 2 && events[|events| - 1].Pushed? && GreenAt(events, |events| - 2)
  }

  /**
   * Once a test has been red, a successful run ends with a green test and its push exactly when the
   * copy it pushes still names a test command.
   */
  lemma RedThenSuccess(w: World, first: Outcome)
    requires HasRed(Run(w, first).1) && Run(w, first).0.status == Success
    ensures var t := Run(w, first).1;
            && HasPush(t) && t[|t| - 1].Pushed?
            && (EndsGreen(t) <==> w.copy(Fixes(t)).command.Some?)
  {
    var t := Run(w, first).1;
    SuccessExactly(w, first);
    var i :| 0 <= i < |t| && t[i].Pushed?;
    PushFollowsGreen(w, first, i);
  }

  /** So a suite that was red can be pushed untested: the agent takes the command out of the profile. */
  lemma CommandRemovedIsPushed(first: Outcome, tree: Files)
    ensures exists w: World ::
              && Run(w, first).0.status == Success
              && Run(w, first).1 == [Tested(tree, "npm test", Red(1)), Resumed(Success), Pushed("factory/1", tree, Success)]
              && !EndsGreen(Run(w, first).1)
  {
    var with := Copy("factory/1", true, Some("npm test"), tree, tree);
    var ok := Outcome(Success, Some(0));
    var w := World((i: nat) => if i == 0 then with else with.(command := None), (i: nat) => Red(1), (i: nat) => with,
                   (i: nat) => false, (i: nat) => ok, ok);
    assert Rest(w, first, 1, Some(Outcome(Error, Some(1)))) == (PushOutcome(ok), [Pushed("factory/1", tree, Success)]);
    assert Run(w, first).1 == [Tested(tree, "npm test", Red(1)), Resumed(Success)] + [Pushed("factory/1", tree, Success)];
  }
}
