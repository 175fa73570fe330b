/**
 * The reconciler (reconcile.py) and the auto-advance map (router.py): which role the sweep
 * restarts on an idle issue, when, and how often; and what automation may never start.
 * Times are microseconds since a midnight UTC.
 */
module Reconcile {
  import opened Wrappers

  const MINUTE := 60 * 1000000
  const DAY := 24 * 60 * MINUTE
  const RETRY_AFTER := 10 * MINUTE
  const STALL_AFTER := 20 * MINUTE
  const LIMIT_WAIT := 30 * MINUTE
  const MAX_RETRIES := 2
  const WINDOW := 20

  const IN_PROGRESS := "factory:in-progress"
  const EXPEDITE := "factory:expedite"
  const BLOCKED := "factory:blocked"
  const READY_TO_SHIP := "factory:ready-to-ship"
  const EPIC_READY := "factory:epic-ready"

  // ------------------------------------------------------------------ when a usage limit resets

  /** `resets 3:05pm (UTC)`, as the pattern reads it: up to two digits each. */
  datatype Clock = Clock(hour: nat, minute: nat, pm: bool)

  function Offset(c: Clock): int { (c.hour % 12 + if c.pm then 12 else 0) * 60 * MINUTE + c.minute * MINUTE }

  predicate IsTime(t: int, day: int, hour: int, minute: int) {
    0 <= hour < 24 && 0 <= minute < 60 && t == day * DAY + hour * 60 * MINUTE + minute * MINUTE
  }

  /** A clock with an am and a pm shows this at `t`: twelve o'clock comes first in each half of the day. */
  ghost predicate Shows(t: int, c: Clock) {
    exists day, hour :: IsTime(t, day, hour, c.minute) && hour % 12 == c.hour % 12 && (c.pm <==> hour >= 12)
  }

  lemma ShownAt(t: int, c: Clock)
    requires c.minute <= 59
    ensures Shows(t, c) <==> t % DAY == Offset(c)
  {
    if Shows(t, c) {
      var day, hour :| IsTime(t, day, hour, c.minute) && hour % 12 == c.hour % 12 && (c.pm <==> hour >= 12);
      hide Shows;
      TimeIsOffset(t, c, day, hour);
    }
    if t % DAY == Offset(c) { OffsetIsTime(t, c); }
  }

  lemma TimeIsOffset(t: int, c: Clock, day: int, hour: int)
    requires IsTime(t, day, hour, c.minute) && hour % 12 == c.hour % 12 && (c.pm <==> hour >= 12)
    ensures t % DAY == Offset(c)
  {
    assert hour == c.hour % 12 + if c.pm then 12 else 0;
    InDay(t, day, Offset(c));
  }

  lemma OffsetIsTime(t: int, c: Clock)
    requires c.minute <= 59 && t % DAY == Offset(c)
    ensures Shows(t, c)
  {
    var hour := c.hour % 12 + if c.pm then 12 else 0;
    assert IsTime(t, t / DAY, hour, c.minute);
    assert hour % 12 == c.hour % 12 && (c.pm <==> hour >= 12);
  }

  lemma InDay(t: int, day: int, x: int)
    requires t == day * DAY + x && 0 <= x < DAY
    ensures t % DAY == x
  {
  }

  /** `limit_resets_at`; nothing when the minute is not one a clock has, which raises. */
  function LimitResetsAt(clock: Option<Clock>, finished: int): Option<int> {
    match clock
    case None => Some(finished + LIMIT_WAIT)
    case Some(c) =>
      if c.minute > 59 then None
      else
        var at := finished - finished % DAY + Offset(c);
        Some(if at > finished then at else at + DAY)
  }

  lemma OnTheDay(start: int, offset: int)
    requires start % DAY == 0 && 0 <= offset < DAY
    ensures (start + offset) % DAY == offset
  {
  }

  /** It is the first moment after the run ended when the clock says that, at most a day later. */
  lemma LimitResetIsNext(c: Clock, finished: int)
    requires c.minute <= 59
    ensures var at := LimitResetsAt(Some(c), finished).value;
            && finished < at <= finished + DAY && Shows(at, c)
            && forall t :: finished < t < at ==> !Shows(t, c)
  {
    hide Shows;
    var at := LimitResetsAt(Some(c), finished).value;
    ResetIsAtOffset(c, finished);
    ShownAt(at, c);
    forall t | finished < t < at ensures !Shows(t, c) { ShownAt(t, c); }
  }

  lemma ResetIsAtOffset(c: Clock, finished: int)
    requires c.minute <= 59
    ensures var at := LimitResetsAt(Some(c), finished).value;
            && finished < at <= finished + DAY && at % DAY == Offset(c)
            && forall t :: finished < t < at ==> t % DAY != Offset(c)
  {
    OffsetInDay(c);
    hide Offset;
    var at := LimitResetsAt(Some(c), finished).value;
    var start := finished - finished % DAY;
    StartOfDay(finished);
    OnTheDay(start, Offset(c));
    OnTheDay(start + DAY, Offset(c));
    forall t | finished < t < at ensures t % DAY != Offset(c) { NotBefore(start, Offset(c), finished, t); }
  }

  lemma OffsetInDay(c: Clock)
    requires c.minute <= 59
    ensures 0 <= Offset(c) < DAY
  {
  }

  lemma StartOfDay(t: int)
    ensures var start := t - t % DAY; start % DAY == 0 && (start + DAY) % DAY == 0 && start <= t < start + DAY
  {
  }

  lemma NotBefore(start: int, offset: int, finished: int, t: int)
    requires start % DAY == 0 && 0 <= offset < DAY && start <= finished < start + DAY
    requires finished < t < if start + offset > finished then start + offset else start + offset + DAY
    ensures t % DAY != offset
  {
    DayOf(start, t);
    var day := t - t % DAY;
    assert t % DAY == t - day;
  }

  lemma DayOf(start: int, t: int)
    requires start % DAY == 0 && start <= t < start + 2 * DAY
    ensures t - t % DAY == start || t - t % DAY == start + DAY
  {
    if t < start + DAY { OnTheDay(start, t - start); } else { OnTheDay(start + DAY, t - start - DAY); }
  }

  // ------------------------------------------------------------------ runs

  datatype Outcome = Success | NoOp | Error | Timeout

  /** A run row. `interrupted` and `limited` say which marks its error text carries. */
  datatype Run = Run(id: nat, role: string, finished: Option<int>, outcome: Outcome,
                     interrupted: bool, limited: bool, resets: Option<Clock>)

  datatype Kind = Succeeded | Interrupted | Limited | Failed | Other

  function RunKind(r: Run): Kind {
    if r.outcome.Success? then Succeeded
    else if r.outcome.NoOp? then Other
    else if r.interrupted then Interrupted
    else if r.limited then Limited
    else Failed
  }

  function Fails(runs: seq<Run>, role: string): nat {
    if runs == [] || runs[0].role != role || RunKind(runs[0]).Succeeded? then 0
    else (if RunKind(runs[0]).Failed? then 1 else 0) + Fails(runs[1..], role)
  }

  /** Failures of the newest run's role since it last succeeded; `runs` is newest first. */
  function ConsecutiveFailures(runs: seq<Run>): nat { if runs == [] then 0 else Fails(runs, runs[0].role) }

  method CountFailures(runs: seq<Run>) returns (fails: nat)
    ensures fails == ConsecutiveFailures(runs)
  {
    fails := 0;
    var i := 0;
    while i < |runs| && runs[i].role == runs[0].role && !RunKind(runs[i]).Succeeded?
      invariant i <= |runs|
      invariant i < |runs| ==> fails + Fails(runs[i..], runs[0].role) == ConsecutiveFailures(runs)
      invariant i == |runs| ==> fails == ConsecutiveFailures(runs)
    {
      assert runs[i..][0] == runs[i] && runs[i..][1..] == runs[i + 1..];
      fails := fails + if RunKind(runs[i]).Failed? then 1 else 0;
      i := i + 1;
    }
    if i < |runs| { assert runs[i..][0] == runs[i]; }
  }

  // ------------------------------------------------------------------ what starts from which state

  /** ROLE_STARTS. */
  predicate StartsFrom(role: string, state: string) {
    || (role == "intake" && state == "factory:intake")
    || (role == "planner" && state == "factory:spec-approved")
    || (role == "testplanner" && state == "factory:planned")
    || (role == "architect" && state == "factory:planned")
    || (role == "dispatch" && state == "factory:design-approved")
    || (role == "implementer" && state == "factory:ready")
    || (role == "reviewer" && state == "factory:in-review")
    || (role == "qa" && state == "factory:in-test")
    || (role == "release" && state == READY_TO_SHIP)
  }

  datatype Advance = Nothing | Gate(spec: bool) | Start(role: string)

  /** EXPEDITE_MAP through `expedited_next`: without epic branches the chain stops before release. */
  function ExpeditedNext(state: string, epics: bool): Advance {
    if state == "factory:spec-ready" then Gate(true)
    else if state == "factory:design-ready" then Gate(false)
    else if state == "factory:ready" then Start("implementer")
    else if state == "factory:in-review" then Start("reviewer")
    else if state == "factory:in-test" then Start("qa")
    else if state == READY_TO_SHIP then (if epics then Start("release") else Nothing)
    else Nothing
  }

  /** The two tables agree: expedite starts a role only from a state the role starts from. */
  lemma TablesAgree(state: string, epics: bool)
    ensures ExpeditedNext(state, epics).Start? ==> StartsFrom(ExpeditedNext(state, epics).role, state)
  {
  }

  predicate Orthogonal(mark: string) { mark == IN_PROGRESS || mark == EXPEDITE || mark == BLOCKED }

  predicate Kindly(mark: string) {
    mark == "factory:release" || mark == "factory:fast-track" || mark == "factory:profile" || mark == "factory:bug"
  }

  function States(labels: seq<string>, kinds: bool): seq<string> {
    if labels == [] then []
    else
      (if "factory:" <= labels[0] && !Orthogonal(labels[0]) && !(kinds && Kindly(labels[0])) then [labels[0]] else [])
      + States(labels[1..], kinds)
  }

  /** The router's `sole_state`, which leaves kind labels out. */
  function SoleState(labels: seq<string>): Option<string> {
    if |States(labels, true)| == 1 then Some(States(labels, true)[0]) else None
  }

  lemma {:induction false} StatesHas(labels: seq<string>, kinds: bool, mark: string)
    ensures mark in States(labels, kinds) <==>
      mark in labels && "factory:" <= mark && !Orthogonal(mark) && !(kinds && Kindly(mark))
  {
    if labels != [] { StatesHas(labels[1..], kinds, mark); }
  }

  // ------------------------------------------------------------------ the sweep's decision

  datatype Decision = Restart(role: string, state: string) | Leave | Raise

  predicate AllFinished(runs: seq<Run>) { forall i :: 0 <= i < |runs| ==> runs[i].finished.Some? }

  /** Nothing is live on the issue and it sits at one state. */
  predicate Idle(labels: seq<string>, runs: seq<Run>) {
    && runs != [] && IN_PROGRESS !in labels && BLOCKED !in labels
    && AllFinished(runs)
    && |States(labels, false)| == 1
  }

  predicate Stopped(r: Run) { RunKind(r).Interrupted? || RunKind(r).Limited? || RunKind(r).Failed? }

  function StalledRole(labels: seq<string>, runs: seq<Run>, epics: bool, expedited: bool, now: int): Decision {
    if !Idle(labels, runs) then Leave
    else
      var state, last := States(labels, false)[0], runs[0];
      var ended := last.finished.value;
      if Stopped(last) && StartsFrom(last.role, state) then
        if RunKind(last).Limited? then
          match LimitResetsAt(last.resets, ended)
          case None => Raise
          case Some(at) => if now < at then Leave else Restart(last.role, state)
        else if now - ended < RETRY_AFTER then Leave
        else if RunKind(last).Failed? && ConsecutiveFailures(runs) > MAX_RETRIES then Leave
        else Restart(last.role, state)
      else
        var next := ExpeditedNext(state, epics);
        if next.Start? && now - ended >= STALL_AFTER && expedited then Restart(next.role, state) else Leave
  }

  function GaveUpOn(labels: seq<string>, runs: seq<Run>): Option<string> {
    if Idle(labels, runs) && StartsFrom(runs[0].role, States(labels, false)[0])
       && RunKind(runs[0]).Failed? && ConsecutiveFailures(runs) > MAX_RETRIES
    then Some(runs[0].role) else None
  }

  /** A run a usage limit cut off, and one that failed by itself. */
  predicate AtALimit(r: Run) { (r.outcome.Error? || r.outcome.Timeout?) && !r.interrupted && r.limited }
  predicate FailedItself(r: Run) { (r.outcome.Error? || r.outcome.Timeout?) && !r.interrupted && !r.limited }

  /** How long the sweep holds back: until a named reset, or half an hour for one not named, else ten minutes. */
  ghost predicate TooSoon(last: Run, now: int)
    requires last.finished.Some?
  {
    var ended := last.finished.value;
    if AtALimit(last) then
      if last.resets.None? then now < ended + 30 * MINUTE
      else exists at :: ended < at <= ended + DAY && Shows(at, last.resets.value) && now < at
    else now < ended + 10 * MINUTE
  }

  /**
   * The restart decision is exact: an idle issue, stopped at a state its last role starts from, is
   * in exactly one of three places - given up on, waiting, or restarted with that role - and the
   * fourth, a sweep that raises, takes a reset time no clock shows.
   */
  lemma DecisionIsExact(labels: seq<string>, runs: seq<Run>, epics: bool, expedited: bool, now: int)
    requires Idle(labels, runs) && (runs[0].outcome.Error? || runs[0].outcome.Timeout?)
    requires StartsFrom(runs[0].role, States(labels, false)[0])
    ensures var d, gaveUp, last := StalledRole(labels, runs, epics, expedited, now), GaveUpOn(labels, runs).Some?, runs[0];
            var raises := AtALimit(last) && last.resets.Some? && last.resets.value.minute > 59;
            && (d == Raise <==> raises)
            && (gaveUp <==> FailedItself(last) && ConsecutiveFailures(runs) > 2)
            && (!raises ==>
                 && (d.Restart? <==> !gaveUp && !TooSoon(last, now))
                 && (d.Leave? <==> gaveUp || TooSoon(last, now))
                 && (d.Restart? ==> d == Restart(last.role, States(labels, false)[0])))
  {
    var last := runs[0];
    if AtALimit(last) && last.resets.Some? && last.resets.value.minute <= 59 {
      ResetIsTheWait(last.resets.value, last.finished.value, now);
    }
  }

  lemma ResetIsTheWait(c: Clock, ended: int, now: int)
    requires c.minute <= 59
    ensures now < LimitResetsAt(Some(c), ended).value <==>
            exists at :: ended < at <= ended + DAY && Shows(at, c) && now < at
  {
    var reset := LimitResetsAt(Some(c), ended).value;
    LimitResetIsNext(c, ended);
    if at :| ended < at <= ended + DAY && Shows(at, c) && now < at {
      ShownAt(at, c);
      ShownAt(reset, c);
      if at > reset { OncePerDay(reset, at); }
    }
  }

  lemma OncePerDay(a: int, b: int)
    requires a < b && a % DAY == b % DAY
    ensures b >= a + DAY
  {
  }

  /** The four stages an expedited issue goes on to by itself, the last with epic branches only. */
  predicate GoesOn(role: string, state: string, epics: bool) {
    || (role == "implementer" && state == "factory:ready")
    || (role == "reviewer" && state == "factory:in-review")
    || (role == "qa" && state == "factory:in-test")
    || (role == "release" && state == "factory:ready-to-ship" && epics)
  }

  /**
   * In every other case the sweep starts a role exactly on an expedited issue that has been idle at
   * the state before that role for twenty minutes, and never raises.
   */
  lemma AdvanceIsExact(labels: seq<string>, runs: seq<Run>, epics: bool, expedited: bool, now: int, role: string, state: string)
    requires !(Idle(labels, runs) && (runs[0].outcome.Error? || runs[0].outcome.Timeout?)
               && StartsFrom(runs[0].role, States(labels, false)[0]))
    ensures var d := StalledRole(labels, runs, epics, expedited, now);
            && !d.Raise? && GaveUpOn(labels, runs).None?
            && (d == Restart(role, state) <==>
                 && runs != [] && "factory:in-progress" !in labels && "factory:blocked" !in labels
                 && (forall i :: 0 <= i < |runs| ==> runs[i].finished.Some?) && States(labels, false) == [state]
                 && expedited && GoesOn(role, state, epics) && now >= runs[0].finished.value + 20 * MINUTE)
  {
  }

  // ------------------------------------------------------------------ bounded restarts over histories

  /** `list_runs(..., limit=n)`: newest first. */
  function Newest(runs: seq<Run>, n: nat): seq<Run> {
    if runs == [] || n == 0 then [] else [runs[|runs| - 1]] + Newest(runs[..|runs| - 1], n - 1)
  }

  /** An answered run: its place in the issue's history, and the role queued for it. */
  datatype Answer = Answer(place: nat, role: string)

  /** One issue over time: its labels, its runs oldest first, and every restart ever queued. */
  datatype History = History(labels: seq<string>, runs: seq<Run>, answers: seq<Answer>)

  datatype Event =
    | Labelled(labels: seq<string>)
    | Began(role: string)
    | Ended(place: nat, run: Run)
    | Swept(epics: bool, expedited: bool, now: int)

  predicate Possible(h: History, e: Event) {
    match e
    case Ended(i, r) => i < |h.runs| && h.runs[i].finished.None? && r.finished.Some? && r.id == h.runs[i].id && r.role == h.runs[i].role
    case _ => true
  }

  predicate Answered(h: History, place: nat) { exists k :: 0 <= k < |h.answers| && h.answers[k].place == place }

  function Next(h: History, e: Event): History
    requires Possible(h, e)
  {
    match e
    case Labelled(labels) => h.(labels := labels)
    case Began(role) => h.(runs := h.runs + [Run(|h.runs|, role, None, Error, false, false, None)])
    case Ended(i, r) => h.(runs := h.runs[i := r])
    case Swept(epics, expedited, now) =>
      var d := StalledRole(h.labels, Newest(h.runs, WINDOW), epics, expedited, now);
      if d.Restart? && !Answered(h, |h.runs| - 1) && h.runs != []
      then h.(answers := h.answers + [Answer(|h.runs| - 1, d.role)])
      else h
  }

  predicate IsRun(h: History, events: seq<Event>)
    decreases |events|
  {
    events == [] || (Possible(h, events[0]) && IsRun(Next(h, events[0]), events[1..]))
  }

  function After(h: History, events: seq<Event>): History
    requires IsRun(h, events)
    decreases |events|
  {
    if events == [] then h else After(Next(h, events[0]), events[1..])
  }

  /** What a sweep saw when it answered a run: all of it finished, and too few failures to give up. */
  ghost predicate AnswerOk(h: History, a: Answer) {
    && a.place < |h.runs|
    && var seen := Newest(h.runs[..a.place + 1], WINDOW);
       && AllFinished(seen)
       && (RunKind(h.runs[a.place]).Failed? && a.role == h.runs[a.place].role ==> ConsecutiveFailures(seen) <= MAX_RETRIES)
  }

  ghost predicate Inv(h: History) {
    && (forall k :: 0 <= k < |h.answers| ==> AnswerOk(h, h.answers[k]))
    && (forall k, l :: 0 <= k < l < |h.answers| ==> h.answers[k].place != h.answers[l].place)
  }

  lemma AllFinishedTail(runs: seq<Run>)
    requires runs != [] && AllFinished(runs)
    ensures AllFinished(runs[1..])
  {
  }

  /** Ending a run changes nothing a window of finished runs saw. */
  lemma {:induction false} NewestStays(runs: seq<Run>, i: nat, r: Run, n: nat)
    requires i < |runs| && runs[i].finished.None?
    requires AllFinished(Newest(runs, n))
    ensures Newest(runs[i := r], n) == Newest(runs, n)
  {
    if n > 0 {
      var rest := runs[..|runs| - 1];
      assert Newest(runs, n)[0] == runs[|runs| - 1];
      assert runs[i := r][..|runs| - 1] == rest[i := r];
      assert Newest(runs, n)[1..] == Newest(rest, n - 1);
      assert AllFinished(Newest(rest, n - 1)) by { AllFinishedTail(Newest(runs, n)); }
      NewestStays(rest, i, r, n - 1);
    }
  }

  lemma StepKeepsAnswer(h: History, e: Event, a: Answer)
    requires Possible(h, e) && AnswerOk(h, a)
    ensures AnswerOk(Next(h, e), a)
  {
    var next := Next(h, e);
    var seen := h.runs[..a.place + 1];
    if e.Ended? {
      if e.place <= a.place {
        NewestStays(seen, e.place, e.run, WINDOW);
        assert next.runs[..a.place + 1] == seen[e.place := e.run];
        assert seen[|seen| - 1] == Newest(seen, WINDOW)[0];
      } else {
        assert next.runs[..a.place + 1] == seen;
      }
    } else {
      assert next.runs[..a.place + 1] == seen;
    }
  }

  lemma SweepAnswers(h: History, e: Event)
    requires e.Swept? && Next(h, e) != h
    ensures |Next(h, e).answers| == |h.answers| + 1 && AnswerOk(h, Next(h, e).answers[|h.answers|])
  {
    var seen := Newest(h.runs, WINDOW);
    assert h.runs[..|h.runs|] == h.runs;
    var last := h.runs[|h.runs| - 1];
    assert seen[0] == last;
    TablesAgree(States(h.labels, false)[0], e.epics);
  }

  /** A sweep answers the newest run exactly when it decides to restart and has not answered that run before. */
  lemma SweepAnswersExactly(h: History, epics: bool, expedited: bool, now: int)
    requires h.runs != []
    ensures var d := StalledRole(h.labels, Newest(h.runs, WINDOW), epics, expedited, now);
            var place := |h.runs| - 1;
            Next(h, Swept(epics, expedited, now)).answers ==
              if d.Restart? && (forall k :: 0 <= k < |h.answers| ==> h.answers[k].place != place)
              then h.answers + [Answer(place, d.role)] else h.answers
  {
  }

  /** A history goes on event by event. */
  lemma {:induction false} AfterThen(h: History, events: seq<Event>, e: Event)
    requires IsRun(h, events) && Possible(After(h, events), e)
    ensures IsRun(h, events + [e]) && After(h, events + [e]) == Next(After(h, events), e)
    decreases |events|
  {
    if events == [] {
      assert [] + [e] == [e] && [e][1..] == [];
    } else {
      assert (events + [e])[1..] == events[1..] + [e];
      AfterThen(Next(h, events[0]), events[1..], e);
    }
  }

  lemma StepKeepsInv(h: History, e: Event)
    requires Inv(h) && Possible(h, e)
    ensures Inv(Next(h, e))
  {
    var next := Next(h, e);
    if e.Swept? && next != h { SweepAnswers(h, e); }
    forall k | 0 <= k < |next.answers| ensures AnswerOk(next, next.answers[k]) {
      if k < |h.answers| { StepKeepsAnswer(h, e, h.answers[k]); }
    }
  }

  lemma {:induction false} RunKeepsInv(h: History, events: seq<Event>)
    requires Inv(h) && IsRun(h, events)
    ensures Inv(After(h, events))
    decreases |events|
  {
    if events != [] {
      StepKeepsInv(h, events[0]);
      RunKeepsInv(Next(h, events[0]), events[1..]);
    }
  }

  /** Failed runs at places `lo` up to `hi`. */
  function Failures(runs: seq<Run>, lo: nat, hi: nat): nat
    requires hi <= |runs|
    decreases hi
  {
    if lo >= hi then 0 else Failures(runs, lo, hi - 1) + if FailedItself(runs[hi - 1]) then 1 else 0
  }

  /** Those of them the sweep answered by restarting the role that failed. */
  function Retried(h: History, lo: nat, hi: nat): nat
    requires hi <= |h.runs|
    decreases hi
  {
    if lo >= hi then 0
    else
      Retried(h, lo, hi - 1)
      + if FailedItself(h.runs[hi - 1]) && Answer(hi - 1, h.runs[hi - 1].role) in h.answers then 1 else 0
  }

  /** The places `lo` up to `hi` hold one role's runs, none of them a success. */
  predicate Block(runs: seq<Run>, role: string, lo: nat, hi: nat)
    requires hi <= |runs|
  {
    forall i :: lo <= i < hi ==> runs[i].role == role && !runs[i].outcome.Success?
  }

  /** The stretch goes no further back than `lo`, or the window does not see further. */
  predicate BeginsAt(runs: seq<Run>, role: string, lo: nat, size: nat, n: nat)
    requires lo <= |runs|
  {
    lo == 0 || runs[lo - 1].role != role || runs[lo - 1].outcome.Success? || size == n
  }

  /** A window counts every failure of the stretch it ends with, and exactly those where the stretch begins inside it. */
  lemma {:induction false} WindowCounts(runs: seq<Run>, role: string, lo: nat, hi: nat, n: nat)
    requires lo <= hi <= |runs| && hi - lo <= n && Block(runs, role, lo, hi)
    ensures Fails(Newest(runs[..hi], n), role) >= Failures(runs, lo, hi)
    ensures BeginsAt(runs, role, lo, hi - lo, n) ==> Fails(Newest(runs[..hi], n), role) == Failures(runs, lo, hi)
    decreases hi
  {
    if lo < hi {
      assert runs[..hi][..hi - 1] == runs[..hi - 1];
      WindowCounts(runs, role, lo, hi - 1, n - 1);
      assert Newest(runs[..hi], n)[1..] == Newest(runs[..hi - 1], n - 1);
    } else if lo > 0 && n > 0 {
      assert Newest(runs[..hi], n)[0] == runs[lo - 1];
    }
  }

  lemma {:induction false} RetriedWithinFailures(h: History, role: string, lo: nat, hi: nat)
    requires Inv(h) && lo <= hi <= |h.runs| && hi - lo <= 20 && Block(h.runs, role, lo, hi)
    ensures Retried(h, lo, hi) <= Failures(h.runs, lo, hi) && Retried(h, lo, hi) <= 2
    decreases hi
  {
    if lo < hi {
      RetriedWithinFailures(h, role, lo, hi - 1);
      var last := h.runs[hi - 1];
      if FailedItself(last) && Answer(hi - 1, last.role) in h.answers {
        var k :| 0 <= k < |h.answers| && h.answers[k] == Answer(hi - 1, last.role);
        assert AnswerOk(h, h.answers[k]);
        WindowCounts(h.runs, role, lo, hi, WINDOW);
        assert Newest(h.runs[..hi], WINDOW)[0] == last;
      }
    }
  }

  /** These places hold failed runs the sweep answered by starting the same role again. */
  predicate AnsweredFailures(h: History, places: set<nat>, lo: nat, hi: nat) {
    hi <= |h.runs| && forall p :: p in places ==> lo <= p < hi && FailedItself(h.runs[p]) && Answer(p, h.runs[p].role) in h.answers
  }

  lemma {:induction false} AnsweredAreCounted(h: History, places: set<nat>, lo: nat, hi: nat)
    requires AnsweredFailures(h, places, lo, hi)
    ensures |places| <= Retried(h, lo, hi)
    decreases hi
  {
    if lo >= hi {
      if p :| p in places { assert false; }
      assert places == {};
    } else {
      AnsweredAreCounted(h, places - {hi - 1}, lo, hi - 1);
      if hi - 1 in places { assert places == (places - {hi - 1}) + {hi - 1}; } else { assert places == places - {hi - 1}; }
    }
  }

  /**
   * Bounded restarts, over any history of labels, runs and sweeps: a run is answered at most once
   * ever, and in any stretch of at most twenty runs of one role without a success, no three failed
   * ones are answered by starting that role again.
   */
  lemma RestartsAreBounded(labels: seq<string>, events: seq<Event>, role: string, lo: nat, hi: nat, places: set<nat>)
    requires IsRun(History(labels, [], []), events)
    requires lo <= hi <= |After(History(labels, [], []), events).runs| && hi - lo <= 20
    requires Block(After(History(labels, [], []), events).runs, role, lo, hi)
    requires AnsweredFailures(After(History(labels, [], []), events), places, lo, hi)
    ensures var h := After(History(labels, [], []), events);
            && (forall k, l :: 0 <= k < l < |h.answers| ==> h.answers[k].place != h.answers[l].place)
            && |places| <= 2
  {
    RunKeepsInv(History(labels, [], []), events);
    RetriedWithinFailures(After(History(labels, [], []), events), role, lo, hi);
    AnsweredAreCounted(After(History(labels, [], []), events), places, lo, hi);
  }
}
