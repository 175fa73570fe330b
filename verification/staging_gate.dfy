/**
 * Gate GS, which automation must never open: every way a role starts without a person
 * (graph.py's chain step, the expedite map, the reconciler's queued restarts and replayed labels) on
 * one issue, while people and agents change its labels, and its epic's, at will in between. Deciding
 * on a run and starting it are two steps; whether the run may write to staging is read at the second.
 */
module StagingGate {
  import opened Wrappers
  import opened Reconcile

  const IN_STAGING := "factory:in-staging"

  /** A restart in the delivery queue: the role, the state the sweep saw, the run it answers; and, as history, the labels it saw. */
  datatype Queued = Queued(role: string, seenAt: string, answers: Run, labels: seq<string>, epicLabels: seq<string>)

  /** A role automation decided to start: what it read just before, and the restart it serves, if any. */
  datatype Decision = Decision(
    role: string, labels: seq<string>, epicLabels: seq<string>, closed: bool, serves: Option<Queued>)

  /** A decision carried out, with the labels of the issue and of its epic as the run begins. */
  datatype AutoRun = AutoRun(decision: Decision, labels: seq<string>, epicLabels: seq<string>)

  /** `task`: the issue is a task of an epic, whose labels are `epicLabels`. */
  datatype Issue = Issue(
    task: bool, labels: seq<string>, epicLabels: seq<string>, closed: bool, runs: seq<Run>,
    queue: seq<Queued>, decided: seq<Decision>, started: seq<AutoRun>)

  datatype Event =
    | Changed(labels: seq<string>, epicLabels: seq<string>, closed: bool, runs: seq<Run>)
    | Swept(now: int)
    | Processed(i: nat)
    | ChainedAfter(role: string, systemTests: bool)
    | Expedited(gateMerged: bool)
    | LabelSeen(name: string, seen: seq<string>, allowed: bool, gateMerged: bool)
    | TaskReleased(epicSeen: seq<string>)
    | EpicTouched(casesOnStaging: bool)
    | Begun(d: nat)

  /** `expedite_now`: what an expedited issue's own state starts; a gate's merge may fail. */
  function ExpediteNow(labels: seq<string>, epics: bool, gateMerged: bool): Option<string> {
    if BLOCKED in labels || IN_PROGRESS in labels || SoleState(labels).None? then None
    else match ExpeditedNext(SoleState(labels).value, epics)
      case Nothing => None
      case Gate(spec) => if gateMerged then Some(if spec then "planner" else "dispatch") else None
      case Start(role) => Some(role)
  }

  /** `is_expedited`: the marker is on the issue, or on the epic of a task. */
  predicate IsExpedited(task: bool, labels: seq<string>, epicLabels: seq<string>) {
    EXPEDITE in labels || (task && EXPEDITE in epicLabels)
  }

  predicate RefusesExpedite(labels: seq<string>) {
    "factory:release" in labels || "factory:profile" in labels || "factory:fast-track" in labels
  }

  /**
   * What a label event starts on its issue without a person, replayed by the sweep or not, on the
   * labels it carries. `allowed`: the sender may apply that label, it is not the factory's own write of
   * `factory:ready`, and the fast lane is still free to take the issue.
   */
  function LabelStarts(
      name: string, seen: seq<string>, expedited: bool, epics: bool, allowed: bool, gateMerged: bool): Option<string> {
    if !allowed || name !in seen then None
    else if name == "factory:spec-approved" then Some("planner")
    else if name == "factory:design-approved" then Some("dispatch")
    else if name == "factory:fast-track" then Some("fasttrack")
    else if name == "factory:profile" then Some("profiler")
    else if (name == "factory:ready" && expedited) || (name == EXPEDITE && !RefusesExpedite(seen))
    then ExpediteNow(seen, epics, gateMerged)
    else None
  }

  /** The stand-down in `route`: a restart runs only on an issue still idle where the sweep saw it. */
  predicate StillThere(labels: seq<string>, closed: bool, seenAt: string) {
    !closed && seenAt in labels && BLOCKED !in labels && IN_PROGRESS !in labels
  }

  function Decided(i: Issue, role: string, labels: seq<string>, epicLabels: seq<string>, serves: Option<Queued>): Issue {
    i.(decided := i.decided + [Decision(role, labels, epicLabels, i.closed, serves)])
  }

  function Next(i: Issue, e: Event, epics: bool): Issue {
    match e
    case Changed(labels, epicLabels, closed, runs) =>
      i.(labels := labels, epicLabels := epicLabels, closed := closed, runs := runs)
    case Swept(now) =>
      var seen := Newest(i.runs, WINDOW);
      var d := StalledRole(i.labels, seen, epics, IsExpedited(i.task, i.labels, i.epicLabels), now);
      if d.Restart? && seen != [] && !i.closed
      then i.(queue := i.queue + [Queued(d.role, d.state, seen[0], i.labels, i.epicLabels)]) else i
    case Processed(n) =>
      if n < |i.queue| && StillThere(i.labels, i.closed, i.queue[n].seenAt)
      then Decided(i, i.queue[n].role, i.labels, i.epicLabels, Some(i.queue[n])) else i
    case ChainedAfter(role, systemTests) =>
      if (role == "planner" || role == "testplanner") && "factory:planned" in i.labels
      then Decided(i, if role == "planner" && systemTests then "testplanner" else "architect", i.labels, i.epicLabels, None) else i
    case Expedited(gateMerged) =>
      var role := ExpediteNow(i.labels, epics, gateMerged);
      if role.Some? && IsExpedited(i.task, i.labels, i.epicLabels) then Decided(i, role.value, i.labels, i.epicLabels, None) else i
    case LabelSeen(name, seen, allowed, gateMerged) =>
      var role := LabelStarts(name, seen, IsExpedited(i.task, seen, i.epicLabels), epics, allowed, gateMerged);
      if role.Some? then Decided(i, role.value, seen, i.epicLabels, None) else i
    case TaskReleased(epicSeen) =>
      if i.task && EXPEDITE in epicSeen && "factory:ready" in i.labels && IN_PROGRESS !in i.labels && BLOCKED !in i.labels
      then Decided(i, "implementer", i.labels, epicSeen, None) else i
    case EpicTouched(cases) =>
      if "factory:design-approved" in i.labels || (IN_STAGING in i.labels && cases)
      then Decided(i, "dispatch", i.labels, i.epicLabels, None) else i
    case Begun(d) =>
      if d < |i.decided| then i.(started := i.started + [AutoRun(i.decided[d], i.labels, i.epicLabels)]) else i
  }

  function After(i: Issue, events: seq<Event>, epics: bool): Issue
    decreases |events|
  {
    if events == [] then i else After(Next(i, events[0], epics), events[1..], epics)
  }

  /** An issue nothing has been decided about. */
  function Untouched(task: bool, labels: seq<string>, epicLabels: seq<string>): Issue {
    Issue(task, labels, epicLabels, false, [], [], [], [])
  }

  // ------------------------------------------------------------------ the invariant

  /** The roles that work on code. */
  predicate CodeRole(role: string) { role == "implementer" || role == "reviewer" || role == "qa" || role == "release" }

  /** The labels hold a state this role follows on. */
  predicate FollowsOn(role: string, labels: seq<string>) {
    || (role == "intake" && "factory:intake" in labels)
    || (role == "planner" && ("factory:spec-approved" in labels || "factory:spec-ready" in labels))
    || ((role == "testplanner" || role == "architect") && "factory:planned" in labels)
    || (role == "dispatch"
        && ("factory:design-approved" in labels || "factory:design-ready" in labels || "factory:in-staging" in labels))
    || (role == "implementer" && "factory:ready" in labels)
    || (role == "reviewer" && "factory:in-review" in labels)
    || (role == "qa" && "factory:in-test" in labels)
    || (role == "release" && "factory:ready-to-ship" in labels)
    || (role == "fasttrack" && "factory:fast-track" in labels)
    || (role == "profiler" && "factory:profile" in labels)
  }

  /** The run broke off in that role: it had been started before. */
  predicate BrokeOff(r: Run, role: string) { r.role == role && (r.outcome.Error? || r.outcome.Timeout?) }

  /** A restart is of a role the state seen leads to: the one that broke off, or what expedite goes on to. */
  predicate QueuedOk(q: Queued, task: bool, epics: bool) {
    && StartsFrom(q.role, q.seenAt)
    && (BrokeOff(q.answers, q.role)
        || (CodeRole(q.role) && IsExpedited(task, q.labels, q.epicLabels) && (q.role == "release" ==> epics)))
  }

  predicate DecisionOk(d: Decision, task: bool, epics: bool) {
    && FollowsOn(d.role, d.labels)
    && (CodeRole(d.role) ==> BLOCKED !in d.labels && IN_PROGRESS !in d.labels)
    && match d.serves
       case Some(q) => d.role == q.role && StillThere(d.labels, d.closed, q.seenAt) && QueuedOk(q, task, epics)
       case None => CodeRole(d.role) ==> IsExpedited(task, d.labels, d.epicLabels) && (d.role == "release" ==> epics)
  }

  ghost predicate Inv(i: Issue, epics: bool) {
    && (forall k :: 0 <= k < |i.queue| ==> QueuedOk(i.queue[k], i.task, epics))
    && (forall k :: 0 <= k < |i.decided| ==> DecisionOk(i.decided[k], i.task, epics))
    && (forall k :: 0 <= k < |i.started| ==> DecisionOk(i.started[k].decision, i.task, epics))
  }

  /** Every start state is one automation leads on from: by expedite, after a plan, at a gate's label, or where issues come in. */
  lemma StartTableAgrees(role: string, state: string)
    ensures StartsFrom(role, state) <==>
      || (role == "intake" && state == "factory:intake")
      || GoesOn(role, state, true)
      || ((role == "testplanner" || role == "architect") && state == "factory:planned")
      || ((state == "factory:spec-approved" || state == "factory:design-approved")
          && forall seen, more, epics, merged :: state in seen ==> LabelStarts(state, seen, more, epics, true, merged) == Some(role))
  {
    if state == "factory:spec-approved" || state == "factory:design-approved" {
      assert LabelStarts(state, [state], false, true, true, true).Some?;
    }
  }

  lemma SweepQueuesOk(labels: seq<string>, epicLabels: seq<string>, seen: seq<Run>, task: bool, epics: bool, now: int)
    requires seen != [] && StalledRole(labels, seen, epics, IsExpedited(task, labels, epicLabels), now).Restart?
    ensures var d := StalledRole(labels, seen, epics, IsExpedited(task, labels, epicLabels), now);
            QueuedOk(Queued(d.role, d.state, seen[0], labels, epicLabels), task, epics)
  {
    TablesAgree(States(labels, false)[0], epics);
  }

  lemma RestartFollowsOn(role: string, state: string, labels: seq<string>)
    requires StartsFrom(role, state) && state in labels
    ensures FollowsOn(role, labels)
  {
  }

  /** What expedite starts, exactly: the role after the issue's sole state, or after the gate it merges, unless somebody is at work or it is blocked. */
  lemma ExpediteExactly(labels: seq<string>, epics: bool, gateMerged: bool, role: string)
    ensures ExpediteNow(labels, epics, gateMerged) == Some(role) <==>
      && BLOCKED !in labels && IN_PROGRESS !in labels && SoleState(labels).Some?
      && var state := SoleState(labels).value;
         || GoesOn(role, state, epics)
         || (gateMerged && role == "planner" && state == "factory:spec-ready")
         || (gateMerged && role == "dispatch" && state == "factory:design-ready")
  {
  }

  /** A state label: of the factory's, no mark, and no kind of issue. */
  predicate IsState(x: string) {
    && "factory:" <= x
    && x != "factory:in-progress" && x != "factory:expedite" && x != "factory:blocked"
    && x != "factory:release" && x != "factory:fast-track" && x != "factory:profile" && x != "factory:bug"
  }

  /** The sole state of an issue, whose labels are distinct: it has that state label and no other. */
  lemma {:induction false} SoleStateExactly(labels: seq<string>, state: string)
    requires forall i, j :: 0 <= i < j < |labels| ==> labels[i] != labels[j]
    ensures SoleState(labels) == Some(state) <==>
            state in labels && IsState(state) && forall x :: x in labels && IsState(x) ==> x == state
    ensures States(labels, true) == [] <==> forall x :: x in labels ==> !IsState(x)
  {
    if labels != [] {
      var rest := labels[1..];
      SoleStateExactly(rest, state);
      assert labels == [labels[0]] + rest && labels[0] !in rest;
      var later := States(rest, true);
      assert States(labels, true) == if IsState(labels[0]) then [labels[0]] + later else later;
      if |later| > 0 {
        assert later[0] in later;
        StatesHas(rest, true, later[0]);
      }
    }
  }

  lemma SoleStateIsThere(labels: seq<string>)
    ensures SoleState(labels).Some? ==> SoleState(labels).value in labels
  {
    if SoleState(labels).Some? {
      assert States(labels, true)[0] in States(labels, true);
      StatesHas(labels, true, SoleState(labels).value);
    }
  }

  /** Nobody works on the issue, and it is at `factory:ready-to-ship` and at no other state. */
  predicate AtTheDoor(labels: seq<string>) {
    SoleState(labels) == Some(READY_TO_SHIP) && BLOCKED !in labels && IN_PROGRESS !in labels
  }

  /** Expedite starts a release exactly there, and with epic branches. */
  lemma ExpediteReleasesExactly(labels: seq<string>, epics: bool, gateMerged: bool)
    ensures ExpediteNow(labels, epics, gateMerged) == Some("release") <==> AtTheDoor(labels) && epics
    ensures AtTheDoor(labels) ==> READY_TO_SHIP in labels && EPIC_READY !in labels
  {
    if AtTheDoor(labels) {
      StatesHas(labels, true, READY_TO_SHIP);
      StatesHas(labels, true, EPIC_READY);
      TwoStates(labels);
      assert READY_TO_SHIP in States(labels, true);
    }
  }

  /** Of all label events only the marker's own starts a release, on an issue at the door. */
  lemma LabelReleasesExactly(
      name: string, seen: seq<string>, expedited: bool, epics: bool, allowed: bool, gateMerged: bool)
    ensures LabelStarts(name, seen, expedited, epics, allowed, gateMerged) == Some("release") <==>
      && name == "factory:expedite" && allowed && "factory:expedite" in seen
      && "factory:release" !in seen && "factory:profile" !in seen && "factory:fast-track" !in seen
      && AtTheDoor(seen) && epics
  {
    hide ExpediteNow;
    ExpediteReleasesExactly(seen, epics, gateMerged);
    if name == "factory:ready" && name in seen && AtTheDoor(seen) {
      StatesHas(seen, true, "factory:ready");
      StatesHas(seen, true, READY_TO_SHIP);
      TwoStates(seen);
    }
  }

  /** What a label event starts follows on a label it carries; a code role only with the marker, and where expedite would start it. */
  lemma LabelStartsOk(name: string, seen: seq<string>, expedited: bool, epics: bool, allowed: bool, gateMerged: bool)
    requires LabelStarts(name, seen, expedited, epics, allowed, gateMerged).Some?
    ensures var role := LabelStarts(name, seen, expedited, epics, allowed, gateMerged).value;
            && FollowsOn(role, seen)
            && (CodeRole(role) ==>
                 (expedited || EXPEDITE in seen) && ExpediteNow(seen, epics, gateMerged) == Some(role))
  {
    if ExpediteNow(seen, epics, gateMerged).Some? { ExpediteFollowsOn(seen, epics, gateMerged); }
    hide ExpediteNow;
  }

  lemma ExpediteFollowsOn(labels: seq<string>, epics: bool, gateMerged: bool)
    requires ExpediteNow(labels, epics, gateMerged).Some?
    ensures var role := ExpediteNow(labels, epics, gateMerged).value;
            FollowsOn(role, labels) && BLOCKED !in labels && IN_PROGRESS !in labels && (role == "release" ==> epics)
  {
    ExpediteExactly(labels, epics, gateMerged, ExpediteNow(labels, epics, gateMerged).value);
    SoleStateIsThere(labels);
    hide ExpediteNow, SoleState;
  }

  lemma DecidedKeepsInv(
      i: Issue, role: string, labels: seq<string>, epicLabels: seq<string>, serves: Option<Queued>, epics: bool)
    requires Inv(i, epics) && DecisionOk(Decision(role, labels, epicLabels, i.closed, serves), i.task, epics)
    ensures Inv(Decided(i, role, labels, epicLabels, serves), epics)
  {
    hide QueuedOk, DecisionOk;
  }

  lemma SweptKeepsInv(i: Issue, e: Event, epics: bool)
    requires Inv(i, epics) && e.Swept?
    ensures Inv(Next(i, e, epics), epics)
  {
    hide StalledRole, Newest, QueuedOk, DecisionOk;
    var seen := Newest(i.runs, WINDOW);
    if seen != [] && StalledRole(i.labels, seen, epics, IsExpedited(i.task, i.labels, i.epicLabels), e.now).Restart? {
      SweepQueuesOk(i.labels, i.epicLabels, seen, i.task, epics, e.now);
    }
  }

  lemma ProcessedKeepsInv(i: Issue, n: nat, epics: bool)
    requires Inv(i, epics)
    ensures Inv(Next(i, Processed(n), epics), epics)
  {
    if n < |i.queue| && StillThere(i.labels, i.closed, i.queue[n].seenAt) {
      assert QueuedOk(i.queue[n], i.task, epics);
      RestartFollowsOn(i.queue[n].role, i.queue[n].seenAt, i.labels);
      hide StartsFrom, FollowsOn;
      DecidedKeepsInv(i, i.queue[n].role, i.labels, i.epicLabels, Some(i.queue[n]), epics);
    }
  }

  lemma StepKeepsInv(i: Issue, e: Event, epics: bool)
    requires Inv(i, epics)
    ensures Inv(Next(i, e, epics), epics)
  {
    hide StalledRole, Newest, QueuedOk, ExpediteNow, Inv, LabelStarts;
    match e
    case Changed(_, _, _, _) => MovedKeepsInv(i, e, epics);
    case Begun(_) => MovedKeepsInv(i, e, epics);
    case Swept(_) => SweptKeepsInv(i, e, epics);
    case Processed(n) => ProcessedKeepsInv(i, n, epics);
    case Expedited(merged) =>
      var role := ExpediteNow(i.labels, epics, merged);
      if role.Some? && IsExpedited(i.task, i.labels, i.epicLabels) {
        ExpediteFollowsOn(i.labels, epics, merged);
        DecidedKeepsInv(i, role.value, i.labels, i.epicLabels, None, epics);
      }
    case LabelSeen(name, seen, allowed, merged) =>
      var expedited := IsExpedited(i.task, seen, i.epicLabels);
      var role := LabelStarts(name, seen, expedited, epics, allowed, merged);
      if role.Some? {
        LabelStartsOk(name, seen, expedited, epics, allowed, merged);
        if CodeRole(role.value) { ExpediteFollowsOn(seen, epics, merged); }
        DecidedKeepsInv(i, role.value, seen, i.epicLabels, None, epics);
      }
    case ChainedAfter(role, tests) =>
      if Next(i, e, epics) != i {
        DecidedKeepsInv(i, if role == "planner" && tests then "testplanner" else "architect", i.labels, i.epicLabels, None, epics);
      }
    case TaskReleased(epicSeen) =>
      if Next(i, e, epics) != i { DecidedKeepsInv(i, "implementer", i.labels, epicSeen, None, epics); }
    case EpicTouched(_) => if Next(i, e, epics) != i { DecidedKeepsInv(i, "dispatch", i.labels, i.epicLabels, None, epics); }
  }

  lemma MovedKeepsInv(i: Issue, e: Event, epics: bool)
    requires Inv(i, epics) && (e.Changed? || e.Begun?)
    ensures Inv(Next(i, e, epics), epics)
  {
    hide QueuedOk, DecisionOk;
  }

  lemma {:induction false} RunKeepsInv(i: Issue, events: seq<Event>, epics: bool)
    requires Inv(i, epics)
    ensures Inv(After(i, events, epics), epics) && After(i, events, epics).task == i.task
    decreases |events|
  {
    if events != [] {
      StepKeepsInv(i, events[0], epics);
      hide Inv;
      RunKeepsInv(Next(i, events[0], epics), events[1..], epics);
    }
  }

  /** An issue's history goes on event by event. */
  lemma {:induction false} AfterThen(i: Issue, events: seq<Event>, e: Event, epics: bool)
    ensures After(i, events + [e], epics) == Next(After(i, events, epics), e, epics)
    decreases |events|
  {
    hide Next;
    if events == [] {
      assert [] + [e] == [e] && [e][1..] == [];
    } else {
      assert (events + [e])[1..] == events[1..] + [e];
      AfterThen(Next(i, events[0], epics), events[1..], e, epics);
    }
  }

  // ------------------------------------------------------------------ what is promised

  /**
   * No role out of turn: whatever happens to an issue, every run automation decides on found the issue
   * at a state that role follows on; and an implementer, reviewer, QA or release run found it neither
   * blocked nor with a run on it.
   */
  lemma NoRoleOutOfTurn(task: bool, labels: seq<string>, epicLabels: seq<string>, events: seq<Event>, epics: bool, k: nat)
    requires k < |After(Untouched(task, labels, epicLabels), events, epics).decided|
    ensures var d := After(Untouched(task, labels, epicLabels), events, epics).decided[k];
            && FollowsOn(d.role, d.labels)
            && (CodeRole(d.role) ==> "factory:blocked" !in d.labels && "factory:in-progress" !in d.labels)
  {
    RunKeepsInv(Untouched(task, labels, epicLabels), events, epics);
    assert DecisionOk(After(Untouched(task, labels, epicLabels), events, epics).decided[k], task, epics);
  }

  /**
   * Nor one nobody asked for: an implementer, reviewer, QA or release run is decided on only where the
   * marker was on the issue or its epic, when automation decided or when the sweep saw it, or to
   * restart a run of that role that broke off; and a release of the first kind only with epic branches.
   */
  lemma OnlyExpeditedOrBrokenOff(
      task: bool, labels: seq<string>, epicLabels: seq<string>, events: seq<Event>, epics: bool, k: nat)
    requires k < |After(Untouched(task, labels, epicLabels), events, epics).decided|
    requires CodeRole(After(Untouched(task, labels, epicLabels), events, epics).decided[k].role)
    ensures var d := After(Untouched(task, labels, epicLabels), events, epics).decided[k];
            match d.serves
            case None => ("factory:expedite" in d.labels || (task && "factory:expedite" in d.epicLabels)) && (d.role == "release" ==> epics)
            case Some(q) =>
              || (q.answers.role == d.role && (q.answers.outcome.Error? || q.answers.outcome.Timeout?))
              || (("factory:expedite" in q.labels || (task && "factory:expedite" in q.epicLabels)) && (d.role == "release" ==> epics))
  {
    RunKeepsInv(Untouched(task, labels, epicLabels), events, epics);
    assert DecisionOk(After(Untouched(task, labels, epicLabels), events, epics).decided[k], task, epics);
  }

  /**
   * The staging gate is never opened by automation: no release it decides on finds the issue at
   * `factory:epic-ready` alone, and where there are no epic branches the only release it decides on
   * restarts one that broke off.
   */
  lemma GateStaysShut(task: bool, labels: seq<string>, epicLabels: seq<string>, events: seq<Event>, epics: bool, k: nat)
    requires k < |After(Untouched(task, labels, epicLabels), events, epics).decided|
    requires After(Untouched(task, labels, epicLabels), events, epics).decided[k].role == "release"
    ensures var d := After(Untouched(task, labels, epicLabels), events, epics).decided[k];
            && SoleState(d.labels) != Some(EPIC_READY)
            && (!epics ==> d.serves.Some? && BrokeOff(d.serves.value.answers, "release"))
  {
    RunKeepsInv(Untouched(task, labels, epicLabels), events, epics);
    var d := After(Untouched(task, labels, epicLabels), events, epics).decided[k];
    assert DecisionOk(d, task, epics);
    StatesHas(d.labels, true, READY_TO_SHIP);
    assert READY_TO_SHIP in States(d.labels, true);
  }

  /**
   * Over any history, every queued restart that goes ahead found its issue open, still at the state
   * the sweep saw, not blocked and with no run on it; all others stood down.
   */
  lemma RestartsFindTheIssueIdle(task: bool, labels: seq<string>, epicLabels: seq<string>, events: seq<Event>, epics: bool, k: nat)
    requires k < |After(Untouched(task, labels, epicLabels), events, epics).decided|
    requires After(Untouched(task, labels, epicLabels), events, epics).decided[k].serves.Some?
    ensures var d := After(Untouched(task, labels, epicLabels), events, epics).decided[k];
            !d.closed && d.serves.value.seenAt in d.labels && BLOCKED !in d.labels && IN_PROGRESS !in d.labels
  {
    RunKeepsInv(Untouched(task, labels, epicLabels), events, epics);
    assert DecisionOk(After(Untouched(task, labels, epicLabels), events, epics).decided[k], task, epics);
  }

  /** `staging_policy`: whether this run may write to the integration branch. */
  predicate StagingOpen(r: AutoRun, task: bool, epics: bool) {
    && r.decision.role == "release"
    && (if !epics then true
        else if task then IN_STAGING in r.epicLabels || EPIC_READY in r.epicLabels
        else EPIC_READY in r.labels)
  }

  /** Nothing moved the issue between the decision and the start. */
  predicate Unmoved(r: AutoRun) { r.labels == r.decision.labels }

  /**
   * What automation can do to staging. An automatic release of an epic, or of any issue at one state,
   * that starts on what was decided never gets to write there where there are epic branches. Without
   * them it always does, but only restarts a release a person had started.
   */
  lemma AutomaticRunsAndStaging(
      task: bool, labels: seq<string>, epicLabels: seq<string>, events: seq<Event>, epics: bool, k: nat)
    requires k < |After(Untouched(task, labels, epicLabels), events, epics).started|
    ensures var r := After(Untouched(task, labels, epicLabels), events, epics).started[k];
            && (epics && !task && StagingOpen(r, task, epics) ==> !Unmoved(r) || SoleState(r.labels).None?)
            && (!epics && StagingOpen(r, task, epics) ==>
                 r.decision.serves.Some? && r.decision.serves.value.answers.role == "release")
  {
    RunKeepsInv(Untouched(task, labels, epicLabels), events, epics);
    var r := After(Untouched(task, labels, epicLabels), events, epics).started[k];
    assert DecisionOk(r.decision, task, epics);
    StatesHas(r.labels, true, READY_TO_SHIP);
    StatesHas(r.labels, true, EPIC_READY);
    TwoStates(r.labels);
  }

  lemma TwoStates(labels: seq<string>)
    ensures SoleState(labels).Some? ==> forall x, y :: x in States(labels, true) && y in States(labels, true) ==> x == y
  {
  }

  // ------------------------------------------------------------------ exactly when it does get there

  /** A release comes to an issue that stays as it is. */
  predicate ReleaseComes(task: bool, labels: seq<string>, epicLabels: seq<string>) {
    AtTheDoor(labels) && IsExpedited(task, labels, epicLabels)
  }

  /** A release on an issue with these labels may write to staging, where there are epic branches. */
  predicate DoorOpen(task: bool, labels: seq<string>, epicLabels: seq<string>) {
    if task then IN_STAGING in epicLabels || EPIC_READY in epicLabels else EPIC_READY in labels
  }

  /** Labels do not change, and label events are about the labels the issue has. */
  predicate StandsStill(e: Event, labels: seq<string>) {
    !e.Changed? && (e.LabelSeen? ==> e.seen == labels)
  }

  /** Some run of such events, from an issue without history, ends with an automatic run that may write to staging. */
  ghost predicate GetsToStaging(task: bool, labels: seq<string>, epicLabels: seq<string>, events: seq<Event>, epics: bool) {
    && (forall n :: 0 <= n < |events| ==> StandsStill(events[n], labels))
    && var i := After(Untouched(task, labels, epicLabels), events, epics);
       exists k :: 0 <= k < |i.started| && StagingOpen(i.started[k], task, epics)
  }

  /** Nothing moved, and no release has been decided on unless one comes to this issue. */
  ghost predicate Still(i: Issue, task: bool, labels: seq<string>, epicLabels: seq<string>, epics: bool) {
    && i.task == task && i.labels == labels && i.epicLabels == epicLabels && i.runs == [] && i.queue == []
    && (forall k :: 0 <= k < |i.decided| ==> i.decided[k].role == "release" ==> epics && ReleaseComes(task, labels, epicLabels))
    && (forall k :: 0 <= k < |i.started| ==>
         && i.started[k].labels == labels && i.started[k].epicLabels == epicLabels
         && (i.started[k].decision.role == "release" ==> epics && ReleaseComes(task, labels, epicLabels)))
  }

  lemma StepKeepsStill(i: Issue, e: Event, task: bool, labels: seq<string>, epicLabels: seq<string>, epics: bool)
    requires Still(i, task, labels, epicLabels, epics) && StandsStill(e, labels)
    ensures Still(Next(i, e, epics), task, labels, epicLabels, epics)
  {
    hide StalledRole, ExpediteNow, AtTheDoor;
    match e
    case Expedited(merged) => ExpediteReleasesExactly(labels, epics, merged);
    case LabelSeen(name, _, allowed, merged) =>
      hide LabelStarts;
      LabelReleasesExactly(name, labels, IsExpedited(task, labels, epicLabels), epics, allowed, merged);
    case _ =>
  }

  lemma {:induction false} RunKeepsStill(
      i: Issue, events: seq<Event>, task: bool, labels: seq<string>, epicLabels: seq<string>, epics: bool)
    requires Still(i, task, labels, epicLabels, epics)
    requires forall n :: 0 <= n < |events| ==> StandsStill(events[n], labels)
    ensures Still(After(i, events, epics), task, labels, epicLabels, epics)
    decreases |events|
  {
    if events != [] {
      StepKeepsStill(i, events[0], task, labels, epicLabels, epics);
      hide Still, StandsStill;
      RunKeepsStill(Next(i, events[0], epics), events[1..], task, labels, epicLabels, epics);
    }
  }

  /** Where a release comes, expedite decides on it. */
  lemma ExpediteDecides(i: Issue, epics: bool, gateMerged: bool)
    ensures var j := Next(i, Expedited(gateMerged), epics);
            epics && ReleaseComes(i.task, i.labels, i.epicLabels) <==>
            j == i.(decided := i.decided + [Decision("release", i.labels, i.epicLabels, i.closed, None)])
  {
    hide AtTheDoor;
    ExpediteReleasesExactly(i.labels, epics, gateMerged);
    var j := Next(i, Expedited(gateMerged), epics);
    var wanted := i.decided + [Decision("release", i.labels, i.epicLabels, i.closed, None)];
    assert wanted[|i.decided|].role == "release";
    if j.decided == wanted { assert j.decided[|i.decided|].role == "release"; }
  }

  /** Starting the newest decision. */
  lemma BegunLast(i: Issue, d: Decision, epics: bool)
    requires i.decided != [] && i.decided[|i.decided| - 1] == d
    ensures var j := Next(i, Begun(|i.decided| - 1), epics);
            |j.started| == |i.started| + 1 && j.started[|i.started|] == AutoRun(d, i.labels, i.epicLabels)
  {
  }

  /**
   * Exactly when automation alone gets a release to staging on an issue that stays as it is: an
   * expedited task at its own `factory:ready-to-ship`, where its epic is on staging already - or still
   * waits there for gate GS, which nobody has then given. Never an epic, or an issue that is no task.
   */
  lemma GetsToStagingExactly(task: bool, labels: seq<string>, epicLabels: seq<string>, epics: bool)
    ensures (exists events :: GetsToStaging(task, labels, epicLabels, events, epics)) <==>
            epics && task && ReleaseComes(task, labels, epicLabels) && DoorOpen(task, labels, epicLabels)
  {
    if epics && task && ReleaseComes(task, labels, epicLabels) && DoorOpen(task, labels, epicLabels) {
      ReleasedStraightAway(labels, epicLabels);
    }
    forall events | GetsToStaging(task, labels, epicLabels, events, epics)
      ensures epics && task && ReleaseComes(task, labels, epicLabels) && DoorOpen(task, labels, epicLabels)
    {
      hide AtTheDoor;
      ExpediteReleasesExactly(labels, epics, true);
      RunKeepsStill(Untouched(task, labels, epicLabels), events, task, labels, epicLabels, epics);
    }
  }

  lemma ReleasedStraightAway(labels: seq<string>, epicLabels: seq<string>)
    requires ReleaseComes(true, labels, epicLabels) && DoorOpen(true, labels, epicLabels)
    ensures GetsToStaging(true, labels, epicLabels, [Expedited(true), Begun(0)], true)
  {
    hide ReleaseComes;
    var i := Untouched(true, labels, epicLabels);
    var (a, b) := (Expedited(true), Begun(0));
    ExpediteDecides(i, true, true);
    var j := Next(i, a, true);
    BegunLast(j, Decision("release", labels, epicLabels, false, None), true);
    var k := Next(j, b, true);
    hide Next;
    assert [a, b][1..] == [b] && [b][1..] == [];
    assert After(k, [], true) == k && After(j, [b], true) == k && After(i, [a, b], true) == k;
    assert StagingOpen(k.started[0], true, true);
  }

  /** Over any history: before its epic is on staging, a task's run may write there exactly as a release while the epic waits. */
  lemma TaskWritesExactlyWhileItsEpicWaits(
      labels: seq<string>, epicLabels: seq<string>, events: seq<Event>, k: nat)
    requires k < |After(Untouched(true, labels, epicLabels), events, true).started|
    ensures var r := After(Untouched(true, labels, epicLabels), events, true).started[k];
            && (IN_STAGING !in r.epicLabels ==>
                 (StagingOpen(r, true, true) <==> r.decision.role == "release" && EPIC_READY in r.epicLabels))
            && (StagingOpen(r, true, true) ==> READY_TO_SHIP in r.decision.labels)
  {
    RunKeepsInv(Untouched(true, labels, epicLabels), events, true);
    assert DecisionOk(After(Untouched(true, labels, epicLabels), events, true).started[k].decision, true, true);
  }

  /**
   * Every other way takes a move between decision and start. On any issue, whatever it is: expedited,
   * moved, then started, the run gets there exactly if a release was decided on and the door is open
   * where the issue now is.
   */
  lemma MovedBeforeItStarts(i: Issue, moved: Event, gateMerged: bool, epics: bool)
    requires moved.Changed?
    ensures var j := Next(Next(Next(i, Expedited(gateMerged), epics), moved, epics), Begun(|i.decided|), epics);
            (|j.started| == |i.started| + 1 && StagingOpen(j.started[|i.started|], i.task, epics)) <==>
            epics && ReleaseComes(i.task, i.labels, i.epicLabels) && DoorOpen(i.task, moved.labels, moved.epicLabels)
  {
    hide ReleaseComes, ExpediteNow, IsExpedited;
    ExpediteDecides(i, epics, gateMerged);
    var j := Next(i, Expedited(gateMerged), epics);
    if j.decided != i.decided {
      var d := j.decided[|i.decided|];
      BegunLast(Next(j, moved, epics), d, epics);
      if d.role == "release" { assert j.decided == i.decided + [Decision("release", i.labels, i.epicLabels, i.closed, None)]; }
    }
  }

  /** And a queued restart goes ahead on an issue moved to two states: it gets there unmoved since it was decided on. */
  lemma MovedBeforeItsRestart(i: Issue, n: nat, moved: Event, epics: bool)
    requires moved.Changed? && n < |i.queue|
    ensures var j := Next(Next(Next(i, moved, epics), Processed(n), epics), Begun(|i.decided|), epics);
            var q := i.queue[n];
            (|j.started| == |i.started| + 1 && StagingOpen(j.started[|i.started|], i.task, epics)) <==>
            && q.role == "release" && StillThere(moved.labels, moved.closed, q.seenAt)
            && (epics ==> DoorOpen(i.task, moved.labels, moved.epicLabels))
  {
    hide StillThere;
    var q := i.queue[n];
    if StillThere(moved.labels, moved.closed, q.seenAt) {
      var j := Next(Next(i, moved, epics), Processed(n), epics);
      BegunLast(j, Decision(q.role, moved.labels, moved.epicLabels, moved.closed, Some(q)), epics);
    }
  }
}
