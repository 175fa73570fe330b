/**
 * Everything a delivery, a role run, a question or a deleter blocks on, and in what order
 * (webhook.py, graph.py, role_runner.py, ask.py, repo_cache.py, issue_workspaces.py). Each job is
 * a program of acquires and releases; which environments it names depends on its data
 * (`build_environment`, `train_turn`). Any number of jobs interleave step by step.
 */
module LockOrder {
  import opened FiniteSets
  import opened Wrappers

  // ------------------------------------------------------------------ which turns a run takes

  /** `owner/repo#n`; `number` is absent when what follows `#` is not a number. */
  datatype EpicRef = EpicRef(repo: string, number: Option<int>)

  datatype IssueKey = IssueKey(number: int, epic: Option<EpicRef>, staging: bool)

  const STAGING := IssueKey(0, None, true)

  datatype Role = Release | Other(name: string)

  /**
   * One role run: its repo, role and workspace key (none without issue workspaces), whether a
   * person approved writing to staging, and whether its copy has to be made afresh.
   */
  datatype RoleRun = RoleRun(repo: string, role: Role, workspace: Option<IssueKey>, stagingOpen: bool, cold: bool)

  function BuildEnvironment(repo: string, role: Role, key: Option<IssueKey>, stagingOpen: bool): Option<IssueKey> {
    if key.None? || role != Release then key
    else if key.value.epic.None? then Some(STAGING)
    else if key.value.epic.value.repo != repo then key
    else if stagingOpen then Some(STAGING)
    else if key.value.epic.value.number.Some? then Some(IssueKey(key.value.epic.value.number.value, None, false))
    else key
  }

  function TrainTurn(repo: string, role: Role, key: Option<IssueKey>): Option<string> {
    if key.None? || role != Release || key.value.epic.None? then None
    else
      var home := key.value.epic.value.repo;
      if home == "" || home == repo || '/' !in home then None else Some(home)
  }

  // ------------------------------------------------------------------ resources and programs

  datatype Resource =
    | IssueLock(key: string) | WorkerSlot | PoolThread | ConversationLock(name: string)
    | StagingTurn(repo: string) | EnvironmentTurn(repo: string, number: int)
    | SessionSlot | CacheLock(repo: string) | FactoryLock

  /** The one order every job acquires in. */
  function Level(r: Resource): (n: nat)
    ensures n <= 7
  {
    match r
    case IssueLock(_) => 0
    case WorkerSlot => 1
    case PoolThread => 2
    case ConversationLock(_) => 3
    case StagingTurn(_) => 3
    case EnvironmentTurn(_, _) => 4
    case SessionSlot => 5
    case CacheLock(_) => 6
    case FactoryLock => 7
  }

  /** The sizes of the pools; `threads` is how many calls `asyncio.to_thread` runs at once. */
  datatype Limits = Limits(workers: nat, sessions: nat, threads: nat)

  predicate SomeOfEach(limits: Limits) { limits.workers > 0 && limits.sessions > 0 && limits.threads > 0 }

  function Capacity(r: Resource, limits: Limits): nat {
    match r
    case WorkerSlot => limits.workers
    case PoolThread => limits.threads
    case SessionSlot => limits.sessions
    case _ => 1
  }

  datatype Op = Acquire(r: Resource) | Free(r: Resource) | Launch(runs: seq<RoleRun>) | Join

  datatype Job =
    | Delivery(key: string, rounds: seq<seq<RoleRun>>)
    | Run(run: RoleRun)
    | Question(conversation: Option<string>, fetches: seq<string>)
    | Deleter(repo: string, number: int)

  function Turn(repo: string, key: IssueKey): Resource {
    if key.staging then StagingTurn(repo) else EnvironmentTurn(repo, key.number)
  }

  /** Hold `r` around `body`. */
  function Within(r: Resource, body: seq<Op>): seq<Op> { [Acquire(r)] + body + [Free(r)] }

  /** Read the factory's own checkout `n` times over. */
  function Reads(n: nat): seq<Op> { if n == 0 then [] else Within(FactoryLock, []) + Reads(n - 1) }

  /** In the session: the copy if it has to be made, then the branch guard, the role and the handbook. */
  function Session(run: RoleRun, key: Option<IssueKey>): seq<Op> {
    Within(SessionSlot, (if key.None? || run.cold then Within(CacheLock(run.repo), []) else []) + Reads(3))
  }

  function TurnProgram(run: RoleRun): seq<Op> {
    var key := BuildEnvironment(run.repo, run.role, run.workspace, run.stagingOpen);
    var home := TrainTurn(run.repo, run.role, key);
    var session := Session(run, key);
    var turn := if key.Some? then Within(Turn(run.repo, key.value), session) else session;
    if home.Some? then Within(StagingTurn(home.value), turn) else turn
  }

  /** Afterwards the comments are scored and the next step is said, by the factory's tables. */
  function RunProgram(run: RoleRun): seq<Op> { TurnProgram(run) + Reads(2) }

  function Rounds(rounds: seq<seq<RoleRun>>): seq<Op> {
    if rounds == [] then [] else [Launch(rounds[0]), Join] + Rounds(rounds[1..])
  }

  function Fetches(repos: seq<string>): seq<Op> {
    if repos == [] then [] else Within(CacheLock(repos[0]), []) + Fetches(repos[1..])
  }

  function Program(job: Job): seq<Op> {
    match job
    case Delivery(key, rounds) => Within(IssueLock(key), Within(WorkerSlot, Within(PoolThread, Reads(1) + Rounds(rounds))))
    case Run(run) => RunProgram(run)
    case Question(c, fetches) =>
      var session := Within(SessionSlot, Fetches(fetches));
      Within(PoolThread, if c.Some? then Within(ConversationLock(c.value), session) else session)
    case Deleter(repo, number) => Within(EnvironmentTurn(repo, number), [])
  }

  /** What a program holds after its first `pc` operations. */
  function Held(program: seq<Op>, pc: nat): set<Resource>
    requires pc <= |program|
  {
    if pc == 0 then {}
    else match program[pc - 1]
      case Acquire(r) => Held(program, pc - 1) + {r}
      case Free(r) => Held(program, pc - 1) - {r}
      case _ => Held(program, pc - 1)
  }

  // ------------------------------------------------------------------ every program keeps the order

  /** The operation at `pc` acquires above everything held, frees something held, or may wait. */
  predicate ClimbsAt(body: seq<Op>, floor: nat, pc: nat)
    requires pc < |body|
  {
    var held := Held(body, pc);
    match body[pc]
    case Acquire(r) => Level(r) >= floor && forall h :: h in held ==> Level(h) < Level(r)
    case Free(r) => r in held
    case Launch(_) => floor <= 3
    case Join => floor <= 3 && forall h :: h in held ==> Level(h) < 3
  }

  /** `body` acquires only upwards from `floor` and gives everything back. */
  ghost predicate Climbs(body: seq<Op>, floor: nat) {
    Held(body, |body|) == {} && forall pc :: 0 <= pc < |body| ==> ClimbsAt(body, floor, pc)
  }

  lemma {:induction false} HeldConcat(a: seq<Op>, b: seq<Op>, pc: nat)
    requires Held(a, |a|) == {} && pc <= |a| + |b|
    ensures Held(a + b, pc) == if pc <= |a| then Held(a, pc) else Held(b, pc - |a|)
  {
    if pc > 0 { HeldConcat(a, b, pc - 1); }
  }

  lemma ClimbsConcat(a: seq<Op>, b: seq<Op>, floor: nat)
    requires Climbs(a, floor) && Climbs(b, floor)
    ensures Climbs(a + b, floor)
  {
    HeldConcat(a, b, |a| + |b|);
    forall pc | 0 <= pc < |a + b| ensures ClimbsAt(a + b, floor, pc) {
      HeldConcat(a, b, pc);
      if pc < |a| { assert ClimbsAt(a, floor, pc); } else { assert ClimbsAt(b, floor, pc - |a|); }
    }
  }

  lemma {:induction false} HeldWithin(r: Resource, body: seq<Op>, floor: nat, pc: nat)
    requires Climbs(body, floor) && Level(r) < floor && pc <= |body|
    ensures Held(Within(r, body), pc + 1) == Held(body, pc) + {r}
    ensures forall h :: h in Held(body, pc) ==> Level(h) >= floor
  {
    var program := Within(r, body);
    if pc == 0 {
      assert Held(program, 0) == {} && program[0] == Acquire(r);
    } else {
      HeldWithin(r, body, floor, pc - 1);
      assert program[pc] == body[pc - 1];
      assert ClimbsAt(body, floor, pc - 1);
    }
  }

  /** Wrapping a climbing body in a lower resource climbs again. */
  lemma ClimbsWithin(r: Resource, body: seq<Op>, floor: nat)
    requires Climbs(body, floor) && Level(r) < floor
    ensures Climbs(Within(r, body), Level(r))
  {
    var program := Within(r, body);
    HeldWithin(r, body, floor, |body|);
    assert program[|body| + 1] == Free(r);
    forall pc | 0 <= pc < |program| ensures ClimbsAt(program, Level(r), pc) {
      if 0 < pc <= |body| {
        HeldWithin(r, body, floor, pc - 1);
        assert program[pc] == body[pc - 1];
        assert ClimbsAt(body, floor, pc - 1);
      }
    }
  }

  lemma ClimbsLower(body: seq<Op>, floor: nat, lower: nat)
    requires Climbs(body, floor) && lower <= floor
    ensures Climbs(body, lower)
  {
    forall pc | 0 <= pc < |body| ensures ClimbsAt(body, lower, pc) { assert ClimbsAt(body, floor, pc); }
  }

  lemma {:induction false} ReadsClimb(n: nat, floor: nat)
    requires floor <= 7
    ensures Climbs(Reads(n), floor)
  {
    if n > 0 {
      ClimbsWithin(FactoryLock, [], 8);
      ClimbsLower(Within(FactoryLock, []), 7, floor);
      ReadsClimb(n - 1, floor);
      ClimbsConcat(Within(FactoryLock, []), Reads(n - 1), floor);
    }
  }

  lemma {:induction false} FetchesClimb(repos: seq<string>)
    ensures Climbs(Fetches(repos), 6)
  {
    if repos != [] {
      ClimbsWithin(CacheLock(repos[0]), [], 7);
      FetchesClimb(repos[1..]);
      ClimbsConcat(Within(CacheLock(repos[0]), []), Fetches(repos[1..]), 6);
    }
  }

  lemma {:induction false} RoundsClimb(rounds: seq<seq<RoleRun>>)
    ensures Climbs(Rounds(rounds), 3)
  {
    if rounds != [] {
      var first := [Launch(rounds[0]), Join];
      assert Held(first, 0) == {} && Held(first, 1) == {} && Held(first, 2) == {};
      assert ClimbsAt(first, 3, 0) && ClimbsAt(first, 3, 1);
      RoundsClimb(rounds[1..]);
      ClimbsConcat(first, Rounds(rounds[1..]), 3);
    }
  }

  /** Keys come from `workspace_key`, which never names the staging environment. */
  predicate FromIssue(run: RoleRun) { run.workspace.Some? ==> !run.workspace.value.staging }

  lemma SessionClimbs(run: RoleRun, key: Option<IssueKey>)
    ensures Climbs(Session(run, key), 5)
  {
    var cache := if key.None? || run.cold then Within(CacheLock(run.repo), []) else [];
    ClimbsWithin(CacheLock(run.repo), [], 7);
    assert Climbs([], 6);
    ReadsClimb(3, 6);
    ClimbsConcat(cache, Reads(3), 6);
    ClimbsWithin(SessionSlot, cache + Reads(3), 6);
  }

  lemma TurnClimbs(run: RoleRun)
    requires FromIssue(run)
    ensures Climbs(TurnProgram(run), 3)
  {
    var key := BuildEnvironment(run.repo, run.role, run.workspace, run.stagingOpen);
    var home := TrainTurn(run.repo, run.role, key);
    var session := Session(run, key);
    SessionClimbs(run, key);
    hide Session;
    if key.Some? {
      ClimbsWithin(Turn(run.repo, key.value), session, 5);
      var turn := Within(Turn(run.repo, key.value), session);
      if home.Some? {
        ClimbsWithin(StagingTurn(home.value), turn, 4);
      } else {
        ClimbsLower(turn, Level(Turn(run.repo, key.value)), 3);
      }
    } else {
      ClimbsLower(session, 5, 3);
    }
  }

  lemma RunClimbs(run: RoleRun)
    requires FromIssue(run)
    ensures Climbs(RunProgram(run), 3)
  {
    TurnClimbs(run);
    ReadsClimb(2, 3);
    ClimbsConcat(TurnProgram(run), Reads(2), 3);
  }

  predicate Proper(job: Job) {
    match job
    case Delivery(_, rounds) => forall i, j :: 0 <= i < |rounds| && 0 <= j < |rounds[i]| ==> FromIssue(rounds[i][j])
    case Run(run) => FromIssue(run)
    case _ => true
  }

  /** Every job's acquisitions follow the one order, whatever its data says. */
  lemma EveryJobClimbs(job: Job)
    requires Proper(job)
    ensures Climbs(Program(job), if job.Run? then 3 else 0)
  {
    match job
    case Delivery(key, rounds) =>
      RoundsClimb(rounds);
      ReadsClimb(1, 3);
      ClimbsConcat(Reads(1), Rounds(rounds), 3);
      var body := Within(PoolThread, Reads(1) + Rounds(rounds));
      ClimbsWithin(PoolThread, Reads(1) + Rounds(rounds), 3);
      ClimbsWithin(WorkerSlot, body, 2);
      ClimbsWithin(IssueLock(key), Within(WorkerSlot, body), 1);
    case Run(run) => RunClimbs(run);
    case Question(c, fetches) =>
      FetchesClimb(fetches);
      ClimbsWithin(SessionSlot, Fetches(fetches), 6);
      var session := Within(SessionSlot, Fetches(fetches));
      if c.Some? { ClimbsWithin(ConversationLock(c.value), session, 5); } else { ClimbsLower(session, 5, 3); }
      var body := if c.Some? then Within(ConversationLock(c.value), session) else session;
      ClimbsWithin(PoolThread, body, 3);
      ClimbsLower(Within(PoolThread, body), 2, 0);
    case Deleter(repo, number) =>
      ClimbsWithin(EnvironmentTurn(repo, number), [], 5);
      ClimbsLower(Within(EnvironmentTurn(repo, number), []), 4, 0);
  }

  // ------------------------------------------------------------------ any number of jobs at once

  /** A started job; the runs of a delivery's round carry that delivery's index as `parent`. */
  datatype Agent = Agent(job: Job, pc: nat, parent: Option<nat>)

  type System = seq<Agent>

  datatype Event = Arrive(job: Job) | Advance(agent: nat)

  predicate Done(a: Agent) { a.pc >= |Program(a.job)| }

  function HeldBy(a: Agent): set<Resource> {
    if a.pc <= |Program(a.job)| then Held(Program(a.job), a.pc) else {}
  }

  function Holders(s: System, r: Resource): set<nat> {
    set i: nat | i < |s| && r in HeldBy(s[i])
  }

  /** A lock or slot is taken when one is left; a delivery joins its round when the runs are done. */
  predicate CanStep(s: System, i: nat, limits: Limits) {
    && i < |s| && !Done(s[i])
    && match Program(s[i].job)[s[i].pc]
       case Acquire(r) => |Holders(s, r)| < Capacity(r, limits)
       case Join => forall j :: 0 <= j < |s| && s[j].parent == Some(i) ==> Done(s[j])
       case _ => true
  }

  function Children(runs: seq<RoleRun>, parent: nat): (r: System)
    ensures |r| == |runs| && forall j :: 0 <= j < |r| ==> r[j] == Agent(Run(runs[j]), 0, Some(parent))
  {
    if runs == [] then [] else [Agent(Run(runs[0]), 0, Some(parent))] + Children(runs[1..], parent)
  }

  function Stepped(s: System, i: nat): System
    requires i < |s|
  {
    var a := s[i];
    var launched := if !Done(a) && Program(a.job)[a.pc].Launch? then Children(Program(a.job)[a.pc].runs, i) else [];
    s[i := a.(pc := a.pc + 1)] + launched
  }

  predicate Possible(s: System, e: Event, limits: Limits) {
    match e
    case Arrive(job) => Proper(job) && !job.Run?
    case Advance(i) => CanStep(s, i, limits)
  }

  function After(s: System, e: Event): System {
    match e
    case Arrive(job) => s + [Agent(job, 0, None)]
    case Advance(i) => if i < |s| then Stepped(s, i) else s
  }

  predicate AgentOk(s: System, i: nat)
    requires i < |s|
  {
    && s[i].pc <= |Program(s[i].job)| && Proper(s[i].job)
    && (s[i].job.Run? <==> s[i].parent.Some?)
  }

  ghost predicate Within1(s: System, limits: Limits) {
    forall r :: |Holders(s, r)| <= Capacity(r, limits)
  }

  ghost predicate Inv(s: System, limits: Limits) {
    (forall i :: 0 <= i < |s| ==> AgentOk(s, i)) && Within1(s, limits)
  }

  lemma {:induction false} ReadsOnlyLock(n: nat)
    ensures forall op :: op in Reads(n) ==> op.Acquire? || op.Free?
  {
    if n > 0 { ReadsOnlyLock(n - 1); }
  }

  lemma RunOnlyLocks(run: RoleRun)
    ensures forall op :: op in RunProgram(run) ==> op.Acquire? || op.Free?
  {
    ReadsOnlyLock(2);
    ReadsOnlyLock(3);
    hide Reads;
  }

  lemma StepHolders(s: System, i: nat, r: Resource)
    requires i < |s| && AgentOk(s, i) && !Done(s[i])
    ensures Holders(Stepped(s, i), r) <= Holders(s, r) + if Program(s[i].job)[s[i].pc] == Acquire(r) then {i} else {}
  {
    hide Program;
    var t := Stepped(s, i);
    forall j | j in Holders(t, r) && j != i ensures j in Holders(s, r) {
      if j < |s| { assert t[j] == s[j]; }
    }
    assert t[i] == s[i].(pc := s[i].pc + 1);
  }

  /** The runs of a delivery's rounds are proper when the delivery is. */
  lemma {:induction false} RoundsLaunch(rounds: seq<seq<RoleRun>>, pc: nat)
    requires pc < |Rounds(rounds)| && forall i, j :: 0 <= i < |rounds| && 0 <= j < |rounds[i]| ==> FromIssue(rounds[i][j])
    ensures Rounds(rounds)[pc].Launch? ==> forall j :: 0 <= j < |Rounds(rounds)[pc].runs| ==> FromIssue(Rounds(rounds)[pc].runs[j])
  {
    if pc >= 2 {
      forall i, j | 0 <= i < |rounds[1..]| && 0 <= j < |rounds[1..][i]| ensures FromIssue(rounds[1..][i][j]) {
        assert rounds[1..][i] == rounds[i + 1];
      }
      RoundsLaunch(rounds[1..], pc - 2);
    }
  }

  lemma {:induction false} FetchesOnlyLock(repos: seq<string>)
    ensures forall op :: op in Fetches(repos) ==> op.Acquire? || op.Free?
  {
    if repos != [] { FetchesOnlyLock(repos[1..]); }
  }

  lemma QuestionOnlyLocks(c: Option<string>, fetches: seq<string>)
    ensures forall op :: op in Program(Question(c, fetches)) ==> op.Acquire? || op.Free?
  {
    FetchesOnlyLock(fetches);
    assert forall op :: op in Within(SessionSlot, Fetches(fetches)) ==> op.Acquire? || op.Free?;
  }

  lemma DeliveryLaunches(key: string, rounds: seq<seq<RoleRun>>, pc: nat)
    requires Proper(Delivery(key, rounds)) && pc < |Program(Delivery(key, rounds))|
    requires Program(Delivery(key, rounds))[pc].Launch?
    ensures var runs := Program(Delivery(key, rounds))[pc].runs; forall j :: 0 <= j < |runs| ==> FromIssue(runs[j])
  {
    var body := Reads(1) + Rounds(rounds);
    assert Reads(1) == [Acquire(FactoryLock), Free(FactoryLock)] by { assert Reads(0) == []; }
    assert 3 <= pc < |body| + 3 && Program(Delivery(key, rounds))[pc] == body[pc - 3];
    RoundsLaunch(rounds, pc - 5);
  }

  lemma OnlyDeliveriesLaunch(job: Job, pc: nat)
    requires pc < |Program(job)| && !job.Delivery?
    ensures !Program(job)[pc].Launch?
  {
    hide RunProgram, Fetches;
    var op := Program(job)[pc];
    assert op in Program(job);
    match job
    case Run(run) => RunOnlyLocks(run);
    case Question(c, fetches) => QuestionOnlyLocks(c, fetches);
    case Deleter(_, _) =>
  }

  lemma LaunchesProper(job: Job, pc: nat)
    requires Proper(job) && pc < |Program(job)| && Program(job)[pc].Launch?
    ensures job.Delivery? && forall j :: 0 <= j < |Program(job)[pc].runs| ==> FromIssue(Program(job)[pc].runs[j])
  {
    hide Program, FromIssue;
    if job.Delivery? { DeliveryLaunches(job.key, job.rounds, pc); } else { OnlyDeliveriesLaunch(job, pc); }
  }

  lemma StepAgents(s: System, i: nat)
    requires i < |s| && !Done(s[i]) && forall j :: 0 <= j < |s| ==> AgentOk(s, j)
    ensures forall j :: 0 <= j < |Stepped(s, i)| ==> AgentOk(Stepped(s, i), j)
  {
    hide Program;
    var t := Stepped(s, i);
    var op := Program(s[i].job)[s[i].pc];
    assert AgentOk(s, i);
    if op.Launch? { LaunchesProper(s[i].job, s[i].pc); }
    forall j | 0 <= j < |t| ensures AgentOk(t, j) {
      if j < |s| { assert AgentOk(s, j); } else { assert t[j] == Agent(Run(op.runs[j - |s|]), 0, Some(i)); }
    }
  }

  /** Every event keeps every lock to one holder and every pool within its size. */
  lemma EventKeepsInv(s: System, e: Event, limits: Limits)
    requires Inv(s, limits) && Possible(s, e, limits)
    ensures Inv(After(s, e), limits)
  {
    hide Held, Program;
    match e {
      case Arrive(job) =>
        var t := s + [Agent(job, 0, None)];
        forall r ensures |Holders(t, r)| <= Capacity(r, limits) {
          NewHoldsNothing(job);
          assert Holders(t, r) == Holders(s, r);
        }
        forall j | 0 <= j < |t| ensures AgentOk(t, j) { if j < |s| { assert AgentOk(s, j); } }
      case Advance(i) =>
        StepAgents(s, i);
        forall r ensures |Holders(Stepped(s, i), r)| <= Capacity(r, limits) {
          assert AgentOk(s, i);
          StepHolders(s, i, r);
          SubsetSize(Holders(Stepped(s, i), r), Holders(s, r) + if Program(s[i].job)[s[i].pc] == Acquire(r) then {i} else {});
        }
    }
  }

  lemma NewHoldsNothing(job: Job)
    ensures HeldBy(Agent(job, 0, None)) == {}
  {
  }

  /** The holders of `r` once agent `i` has done `op`. */
  function HoldersAfter(before: set<nat>, r: Resource, op: Op, i: nat): set<nat> {
    if op == Acquire(r) then before + {i} else if op == Free(r) then before - {i} else before
  }

  /** A step that acquires takes the lock or slot, one that frees gives it back, and nobody else's holdings change. */
  lemma StepTakesOrGives(s: System, i: nat, r: Resource, limits: Limits)
    requires Inv(s, limits) && CanStep(s, i, limits)
    ensures var op := Program(s[i].job)[s[i].pc];
            && Holders(Stepped(s, i), r) == HoldersAfter(Holders(s, r), r, op, i)
            && (op == Acquire(r) ==> i !in Holders(s, r))
            && (op == Free(r) ==> i in Holders(s, r))
  {
    assert AgentOk(s, i);
    AgentClimbs(s, i);
    var op := Program(s[i].job)[s[i].pc];
    var t := Stepped(s, i);
    assert t[i] == s[i].(pc := s[i].pc + 1);
    HeldNext(Program(s[i].job), s[i].pc);
    hide Program, Held, AgentOk, ClimbsAt;
    var moved := HoldersAfter(Holders(s, r), r, op, i);
    forall j: nat ensures j in Holders(t, r) <==> j in moved {
      if j < |s| && j != i { assert t[j] == s[j]; }
      if |s| <= j < |t| { NewHoldsNothing(t[j].job); assert t[j].pc == 0; }
    }
  }

  lemma HeldNext(program: seq<Op>, pc: nat)
    requires pc < |program|
    ensures Held(program, pc + 1) == match program[pc]
                                     case Acquire(r) => Held(program, pc) + {r}
                                     case Free(r) => Held(program, pc) - {r}
                                     case _ => Held(program, pc)
  {
  }

  predicate IsHistory(s: System, events: seq<Event>, limits: Limits)
    decreases |events|
  {
    events == [] || (Possible(s, events[0], limits) && IsHistory(After(s, events[0]), events[1..], limits))
  }

  function End(s: System, events: seq<Event>): System
    decreases |events|
  {
    if events == [] then s else End(After(s, events[0]), events[1..])
  }

  lemma {:induction false} HistoryKeepsInv(s: System, events: seq<Event>, limits: Limits)
    requires Inv(s, limits) && IsHistory(s, events, limits)
    ensures Inv(End(s, events), limits)
    decreases |events|
  {
    if events != [] {
      EventKeepsInv(s, events[0], limits);
      HistoryKeepsInv(After(s, events[0]), events[1..], limits);
    }
  }

  lemma ReachableInv(events: seq<Event>, limits: Limits)
    requires IsHistory([], events, limits)
    ensures Inv(End([], events), limits)
  {
    forall r: Resource ensures Holders([], r) == {} {}
    HistoryKeepsInv([], events, limits);
  }

  // ------------------------------------------------------------------ no deadlock

  lemma AgentClimbs(s: System, i: nat)
    requires i < |s| && AgentOk(s, i) && !Done(s[i])
    ensures ClimbsAt(Program(s[i].job), if s[i].job.Run? then 3 else 0, s[i].pc)
    ensures s[i].job.Run? ==> !Program(s[i].job)[s[i].pc].Join?
  {
    hide Program;
    EveryJobClimbs(s[i].job);
    if s[i].job.Run? { RunStepsLock(s[i].job.run, s[i].pc); }
  }

  lemma RunStepsLock(run: RoleRun, pc: nat)
    requires pc < |Program(Run(run))|
    ensures !Program(Run(run))[pc].Join?
  {
    hide RunProgram;
    RunOnlyLocks(run);
    assert Program(Run(run))[pc] in RunProgram(run);
  }

  lemma DoneHoldsNothing(s: System, i: nat)
    requires i < |s| && AgentOk(s, i) && Done(s[i])
    ensures HeldBy(s[i]) == {}
  {
    hide Program;
    EveryJobClimbs(s[i].job);
  }

  /** A resource somebody must wait for is held by an unfinished agent that waits higher up. */
  lemma Holder(s: System, r: Resource, limits: Limits) returns (j: nat)
    requires Inv(s, limits) && |Holders(s, r)| >= Capacity(r, limits) > 0
    ensures j < |s| && !Done(s[j]) && r in HeldBy(s[j])
  {
    hide Program, Held;
    j :| j in Holders(s, r);
    assert AgentOk(s, j);
    if Done(s[j]) { DoneHoldsNothing(s, j); }
  }

  /** A delivery that cannot join waits for one of its own runs. */
  lemma Waited(s: System, i: nat, limits: Limits) returns (j: nat)
    requires Inv(s, limits) && i < |s| && !Done(s[i]) && !CanStep(s, i, limits) && Program(s[i].job)[s[i].pc].Join?
    ensures j < |s| && s[j].job.Run? && !Done(s[j])
  {
    hide Program;
    j :| j < |s| && s[j].parent == Some(i) && !Done(s[j]);
    assert AgentOk(s, j);
  }

  /** How far below the top of the order an agent waits. */
  function Depth(s: System, i: nat): nat
    requires i < |s|
  {
    if Done(s[i]) then 0
    else match Program(s[i].job)[s[i].pc]
      case Acquire(r) => 7 - Level(r)
      case Join => 8
      case _ => 0
  }

  /** From any unfinished agent, following who it waits for leads to one that can move. */
  lemma {:induction false} SomeoneMoves(s: System, i: nat, limits: Limits) returns (j: nat)
    requires Inv(s, limits) && SomeOfEach(limits) && i < |s| && !Done(s[i])
    ensures CanStep(s, j, limits)
    decreases Depth(s, i)
  {
    hide Program, Held;
    assert AgentOk(s, i);
    AgentClimbs(s, i);
    if CanStep(s, i, limits) {
      j := i;
    } else {
      var next := i;
      if !Program(s[i].job)[s[i].pc].Join? {
        next := Holder(s, Program(s[i].job)[s[i].pc].r, limits);
        assert AgentOk(s, next);
        AgentClimbs(s, next);
      }
      if CanStep(s, next, limits) { return next; }
      if Program(s[next].job)[s[next].pc].Join? {
        next := Waited(s, next, limits);
        assert AgentOk(s, next);
        AgentClimbs(s, next);
      }
      j := SomeoneMoves(s, next, limits);
    }
  }

  // ------------------------------------------------------------------ everything finishes

  function Cost(op: Op): nat {
    if op.Launch? then 1 + CostOfRuns(op.runs) else 1
  }

  function CostOfRuns(runs: seq<RoleRun>): nat {
    if runs == [] then 0 else |RunProgram(runs[0])| + CostOfRuns(runs[1..])
  }

  function CostOfOps(ops: seq<Op>): nat {
    if ops == [] then 0 else Cost(ops[0]) + CostOfOps(ops[1..])
  }

  /** The operations an agent still has before it, those of runs it is yet to launch included. */
  function Remaining(a: Agent): nat {
    if Done(a) then 0
    else if a.job.Run? then |Program(a.job)| - a.pc
    else CostOfOps(Program(a.job)[a.pc..])
  }

  function Total(s: System): nat {
    if s == [] then 0 else Remaining(s[0]) + Total(s[1..])
  }

  lemma {:induction false} TotalUpdate(s: System, i: nat, a: Agent)
    requires i < |s|
    ensures Total(s[i := a]) + Remaining(s[i]) == Total(s) + Remaining(a)
  {
    hide Remaining;
    if i == 0 {
      assert s[0 := a][1..] == s[1..];
    } else {
      assert s[i := a][1..] == s[1..][i - 1 := a];
      TotalUpdate(s[1..], i - 1, a);
    }
  }

  lemma {:induction false} TotalConcat(s: System, t: System)
    ensures Total(s + t) == Total(s) + Total(t)
  {
    if s == [] {
      assert s + t == t;
    } else {
      assert (s + t)[1..] == s[1..] + t;
      TotalConcat(s[1..], t);
    }
  }

  lemma {:induction false} TotalChildren(runs: seq<RoleRun>, parent: nat)
    ensures Total(Children(runs, parent)) == CostOfRuns(runs)
  {
    if runs != [] {
      TotalChildren(runs[1..], parent);
      assert Program(Run(runs[0])) == RunProgram(runs[0]);
    }
  }

  lemma JobShrinks(a: Agent)
    requires !a.job.Run? && a.pc < |Program(a.job)|
    ensures var op := Program(a.job)[a.pc];
            CostOfOps(Program(a.job)[a.pc..]) == Cost(op) + CostOfOps(Program(a.job)[a.pc + 1..])
  {
    var rest := Program(a.job)[a.pc..];
    assert rest[0] == Program(a.job)[a.pc] && rest[1..] == Program(a.job)[a.pc + 1..];
  }

  lemma StepShrinks(s: System, i: nat, limits: Limits)
    requires Inv(s, limits) && CanStep(s, i, limits)
    ensures Total(Stepped(s, i)) < Total(s)
  {
    hide Held, RunProgram, Total;
    var a := s[i];
    var op := Program(a.job)[a.pc];
    var b := a.(pc := a.pc + 1);
    var launched := if op.Launch? then Children(op.runs, i) else [];
    TotalUpdate(s, i, b);
    TotalConcat(s[i := b], launched);
    assert AgentOk(s, i);
    NoneRemain();
    if op.Launch? {
      LaunchesProper(a.job, a.pc);
      TotalChildren(op.runs, i);
    }
    if !a.job.Run? { JobShrinks(a); }
  }

  lemma NoneRemain()
    ensures Total([]) == 0
  {}

  predicate IsProgress(s: System, steps: seq<nat>, limits: Limits)
    decreases |steps|
  {
    steps == [] || (CanStep(s, steps[0], limits) && IsProgress(Stepped(s, steps[0]), steps[1..], limits))
  }

  function Progressed(s: System, steps: seq<nat>, limits: Limits): System
    requires IsProgress(s, steps, limits)
    decreases |steps|
  {
    if steps == [] then s else Progressed(Stepped(s, steps[0]), steps[1..], limits)
  }

  ghost predicate AtRest(s: System, limits: Limits) { forall i :: !CanStep(s, i, limits) }

  ghost predicate AllDone(s: System) { forall i :: 0 <= i < |s| ==> Done(s[i]) }

  lemma RestIsTheEnd(s: System, limits: Limits)
    requires Inv(s, limits) && SomeOfEach(limits) && AtRest(s, limits)
    ensures AllDone(s)
  {
    hide Inv;
    forall i | 0 <= i < |s| && !Done(s[i]) ensures exists j :: CanStep(s, j, limits) {
      var j := SomeoneMoves(s, i, limits);
    }
  }

  /**
   * No deadlock, no starvation by waiting: from any reachable state, however the locks and slots
   * are handed out, only boundedly many steps remain, and when none is possible every delivery,
   * run, question and deleter has finished.
   */
  lemma {:induction false} EverythingFinishes(s: System, steps: seq<nat>, limits: Limits)
    requires Inv(s, limits) && SomeOfEach(limits) && IsProgress(s, steps, limits)
    ensures |steps| <= Total(s)
    ensures AtRest(Progressed(s, steps, limits), limits) ==> AllDone(Progressed(s, steps, limits))
    decreases |steps|
  {
    hide Inv, Total, Stepped, AtRest, AllDone, CanStep;
    if steps == [] {
      if AtRest(s, limits) { RestIsTheEnd(s, limits); }
    } else {
      assert CanStep(s, steps[0], limits);
      StepShrinks(s, steps[0], limits);
      EventKeepsInv(s, Advance(steps[0]), limits) by { StepIsPossible(s, steps[0], limits); }
      assert After(s, Advance(steps[0])) == Stepped(s, steps[0]) by { StepIsPossible(s, steps[0], limits); }
      EverythingFinishes(Stepped(s, steps[0]), steps[1..], limits);
    }
  }

  lemma StepIsPossible(s: System, i: nat, limits: Limits)
    requires CanStep(s, i, limits)
    ensures i < |s| && Possible(s, Advance(i), limits) && After(s, Advance(i)) == Stepped(s, i)
  {
  }

  // ------------------------------------------------------------------ the release train

  /** A run that waits for a staging or environment turn holds no session. */
  lemma WaitersHoldNoSession(s: System, i: nat, limits: Limits)
    requires Inv(s, limits) && i < |s| && !Done(s[i])
    requires Program(s[i].job)[s[i].pc].Acquire?
    requires Program(s[i].job)[s[i].pc].r.StagingTurn? || Program(s[i].job)[s[i].pc].r.EnvironmentTurn?
    ensures SessionSlot !in HeldBy(s[i])
  {
    hide Program, Held;
    assert AgentOk(s, i);
    AgentClimbs(s, i);
  }

  lemma {:induction false} LevelsDiffer(body: seq<Op>, floor: nat, pc: nat)
    requires Climbs(body, floor) && pc <= |body|
    ensures forall x, y :: x in Held(body, pc) && y in Held(body, pc) && Level(x) == Level(y) ==> x == y
  {
    if pc > 0 {
      LevelsDiffer(body, floor, pc - 1);
      assert ClimbsAt(body, floor, pc - 1);
    }
  }

  /** No job ever holds two staging turns. */
  lemma OneStagingTurnEach(s: System, i: nat, h1: string, h2: string, limits: Limits)
    requires Inv(s, limits) && i < |s|
    requires StagingTurn(h1) in HeldBy(s[i]) && StagingTurn(h2) in HeldBy(s[i])
    ensures h1 == h2
  {
    hide Program, Held, Climbs, Proper;
    assert AgentOk(s, i);
    EveryJobClimbs(s[i].job);
    LevelsDiffer(Program(s[i].job), if s[i].job.Run? then 3 else 0, s[i].pc);
  }

  lemma {:induction false} HeldAbove(body: seq<Op>, floor: nat, pc: nat)
    requires Climbs(body, floor) && pc <= |body|
    ensures forall h :: h in Held(body, pc) ==> Level(h) >= floor
  {
    if pc > 0 {
      HeldAbove(body, floor, pc - 1);
      assert ClimbsAt(body, floor, pc - 1);
    }
  }

  /** Around a body that climbs above it, `r` is held wherever the session is. */
  lemma HoldsThroughout(r: Resource, body: seq<Op>, rest: seq<Op>, floor: nat, pc: nat)
    requires Climbs(body, floor) && Level(r) < floor && pc <= |Within(r, body)| + |rest|
    requires forall k: nat :: k <= |rest| ==> SessionSlot !in Held(rest, k)
    requires SessionSlot in Held(Within(r, body) + rest, pc)
    ensures r in Held(Within(r, body) + rest, pc)
  {
    ClimbsWithin(r, body, floor);
    HeldConcat(Within(r, body), rest, pc);
    assert pc < |Within(r, body)|;
    hide Climbs;
    if pc > 0 { HeldWithin(r, body, floor, pc - 1); }
  }

  lemma NoSessionAfter(n: nat)
    ensures forall k: nat :: k <= |Reads(n)| ==> SessionSlot !in Held(Reads(n), k)
  {
    ReadsClimb(n, 7);
    forall k: nat | k <= |Reads(n)| ensures SessionSlot !in Held(Reads(n), k) { HeldAbove(Reads(n), 7, k); }
  }

  // ------------------------------------------------------------------ which copy a run works in

  /** The copies of its own repo this run works in: its issue's, or as a task's release its epic's. */
  predicate WorksIn(run: RoleRun, number: int) {
    && run.workspace.Some?
    && var IssueKey(own, epic, _) := run.workspace.value;
       || (run.role != Release && number == own)
       || (run.role == Release && epic.Some? && epic.value.repo != run.repo && number == own)
       || (run.role == Release && epic.Some? && epic.value.repo == run.repo && !run.stagingOpen
           && number == if epic.value.number.Some? then epic.value.number.value else own)
  }

  /**
   * The run is on the release train of `home`: a release of its epics and standalone issues, or of its
   * own tasks with staging open, working there; or of its epics' tasks in another repo, beside it.
   */
  predicate OnStaging(run: RoleRun, home: string) {
    && run.workspace.Some? && run.role == Release
    && var epic := run.workspace.value.epic;
       || (home == run.repo && (epic.None? || (epic.value.repo == run.repo && run.stagingOpen)))
       || (home != run.repo && epic.Some? && epic.value.repo == home && '/' in home)
  }

  ghost predicate Turnless(ops: seq<Op>) { forall r :: Acquire(r) in ops ==> !r.StagingTurn? && !r.EnvironmentTurn? }

  lemma {:induction false} HeldIsAcquired(ops: seq<Op>, pc: nat)
    requires pc <= |ops|
    ensures forall h :: h in Held(ops, pc) ==> Acquire(h) in ops
  {
    if pc > 0 { HeldIsAcquired(ops, pc - 1); }
  }

  lemma {:induction false} ReadsAreTurnless(n: nat)
    ensures Turnless(Reads(n))
  {
    if n > 0 { ReadsAreTurnless(n - 1); }
  }

  lemma SessionIsTurnless(run: RoleRun, key: Option<IssueKey>)
    ensures Turnless(Session(run, key))
  {
    ReadsAreTurnless(3);
    hide Reads;
  }

  /** A session inside its turns, and what follows. */
  function InTurns(turn: Resource, home: Option<string>, session: seq<Op>): seq<Op> {
    (if home.Some? then Within(StagingTurn(home.value), Within(turn, session)) else Within(turn, session)) + Reads(2)
  }

  /** In the session the run holds these turns and no other. */
  lemma SessionInTurns(turn: Resource, home: Option<string>, session: seq<Op>, pc: nat)
    requires Climbs(session, 5) && Turnless(session) && (turn.StagingTurn? || turn.EnvironmentTurn?)
    requires home.Some? ==> turn.EnvironmentTurn?
    requires pc <= |InTurns(turn, home, session)| && SessionSlot in Held(InTurns(turn, home, session), pc)
    ensures forall r: Resource :: r.StagingTurn? || r.EnvironmentTurn? ==>
      (r in Held(InTurns(turn, home, session), pc) <==> r == turn || (home.Some? && r == StagingTurn(home.value)))
  {
    var inner := Within(turn, session);
    var program := InTurns(turn, home, session);
    HeldIsAcquired(program, pc);
    ReadsAreTurnless(2);
    NoSessionAfter(2);
    ClimbsWithin(turn, session, 5);
    hide Held, Reads;
    if home.Some? {
      ClimbsLower(inner, Level(turn), 4);
      HoldsThroughout(StagingTurn(home.value), inner, Reads(2), 4, pc);
      InnerTurn(StagingTurn(home.value), turn, session, pc);
    } else {
      HoldsThroughout(turn, session, Reads(2), 5, pc);
    }
  }

  lemma InnerTurn(around: Resource, turn: Resource, session: seq<Op>, pc: nat)
    requires Climbs(session, 5) && turn.EnvironmentTurn? && around.StagingTurn?
    requires pc <= |Within(around, Within(turn, session)) + Reads(2)|
    requires SessionSlot in Held(Within(around, Within(turn, session)) + Reads(2), pc)
    ensures turn in Held(Within(around, Within(turn, session)) + Reads(2), pc)
  {
    var inner := Within(turn, session);
    var outer := Within(around, inner);
    NoSessionAfter(2);
    ClimbsWithin(turn, session, 5);
    ClimbsWithin(around, inner, 4);
    HeldConcat(outer, Reads(2), pc);
    assert pc < |outer|;
    NoneAtFirst(outer + Reads(2));
    HeldWithin(around, inner, 4, pc - 1);
    assert inner + [] == inner;
    assert Held([], 0) == {};
    hide Held;
    HoldsThroughout(turn, session, [], 5, pc - 1);
  }

  lemma NoneAtFirst(ops: seq<Op>)
    ensures Held(ops, 0) == {}
  {
  }

  /** What `build_environment` and `train_turn` choose between them. */
  lemma TurnsChosen(run: RoleRun)
    requires FromIssue(run) && run.workspace.Some?
    ensures var key := BuildEnvironment(run.repo, run.role, run.workspace, run.stagingOpen);
            && key.Some?
            && var turn, home := Turn(run.repo, key.value), TrainTurn(run.repo, run.role, key);
               && (home.Some? ==> turn.EnvironmentTurn?)
               && (forall repo, n :: turn == EnvironmentTurn(repo, n) <==> repo == run.repo && WorksIn(run, n))
               && (forall h :: turn == StagingTurn(h) || home == Some(h) <==> OnStaging(run, h))
  {
    assert '/' !in "";
  }

  /**
   * Exactly which turns a run with a copy holds while it is in its session: a run that is no release
   * its own issue's and nothing else; a task's release its epic's, or its own if the epic is in another
   * repo, with that repo's staging turn around it; any other release its own repo's staging turn.
   */
  lemma SessionHoldsExactly(s: System, i: nat, limits: Limits)
    requires Inv(s, limits) && i < |s| && s[i].job.Run? && s[i].job.run.workspace.Some?
    requires SessionSlot in HeldBy(s[i])
    ensures var run := s[i].job.run;
            && (forall repo, n :: EnvironmentTurn(repo, n) in HeldBy(s[i]) <==> repo == run.repo && WorksIn(run, n))
            && (forall home :: StagingTurn(home) in HeldBy(s[i]) <==> OnStaging(run, home))
  {
    assert AgentOk(s, i);
    TurnsHeld(s[i].job.run, s[i].pc);
  }

  lemma TurnsHeld(run: RoleRun, pc: nat)
    requires FromIssue(run) && run.workspace.Some? && pc <= |RunProgram(run)| && SessionSlot in Held(RunProgram(run), pc)
    ensures forall repo, n :: EnvironmentTurn(repo, n) in Held(RunProgram(run), pc) <==> repo == run.repo && WorksIn(run, n)
    ensures forall home :: StagingTurn(home) in Held(RunProgram(run), pc) <==> OnStaging(run, home)
  {
    TurnsChosen(run);
    var key := BuildEnvironment(run.repo, run.role, run.workspace, run.stagingOpen);
    var home := TrainTurn(run.repo, run.role, key);
    SessionClimbs(run, key);
    SessionIsTurnless(run, key);
    hide Climbs, Held, Session, Within, Reads, Turnless, WorksIn, OnStaging, BuildEnvironment, TrainTurn, Turn, FromIssue;
    var turn := Turn(run.repo, key.value);
    assert RunProgram(run) == InTurns(turn, home, Session(run, key));
    var held := Held(RunProgram(run), pc);
    hide RunProgram, TurnProgram, InTurns;
    SessionInTurns(turn, home, Session(run, key), pc);
    forall repo, n ensures EnvironmentTurn(repo, n) in held <==> repo == run.repo && WorksIn(run, n) {
      assert EnvironmentTurn(repo, n) in held <==> EnvironmentTurn(repo, n) == turn;
    }
    forall h ensures StagingTurn(h) in held <==> OnStaging(run, h) {
      assert StagingTurn(h) in held <==> StagingTurn(h) == turn || home == Some(h);
    }
  }

  /** A run on a home's train that is in its session holds that home's staging turn. */
  lemma TrainHoldsStaging(s: System, i: nat, home: string, limits: Limits)
    requires Inv(s, limits) && i < |s| && s[i].job.Run? && OnStaging(s[i].job.run, home) && SessionSlot in HeldBy(s[i])
    ensures StagingTurn(home) in HeldBy(s[i])
  {
    hide HeldBy;
    SessionHoldsExactly(s, i, limits);
  }

  /** One train at a time: no two runs of one home's train are ever in a session together. */
  lemma OneTrain(s: System, i: nat, j: nat, home: string, limits: Limits)
    requires Inv(s, limits) && i < |s| && j < |s|
    requires s[i].job.Run? && OnStaging(s[i].job.run, home) && SessionSlot in HeldBy(s[i])
    requires s[j].job.Run? && OnStaging(s[j].job.run, home) && SessionSlot in HeldBy(s[j])
    ensures i == j
  {
    TrainHoldsStaging(s, i, home, limits);
    TrainHoldsStaging(s, j, home, limits);
    hide OnStaging, AgentOk, HeldBy;
    OneHolder(s, i, j, StagingTurn(home), limits);
  }

  lemma HoldsItsCopy(s: System, i: nat, number: int, limits: Limits)
    requires Inv(s, limits) && i < |s| && s[i].job.Run? && WorksIn(s[i].job.run, number) && SessionSlot in HeldBy(s[i])
    ensures EnvironmentTurn(s[i].job.run.repo, number) in HeldBy(s[i])
  {
    hide HeldBy;
    SessionHoldsExactly(s, i, limits);
  }

  /** So no two runs are ever in session in one issue's copy: its own runs, or releases into an epic. */
  lemma OneRunPerCopy(s: System, i: nat, j: nat, number: int, limits: Limits)
    requires Inv(s, limits) && i < |s| && j < |s| && s[i].job.Run? && s[j].job.Run?
    requires s[i].job.run.repo == s[j].job.run.repo
    requires WorksIn(s[i].job.run, number) && SessionSlot in HeldBy(s[i])
    requires WorksIn(s[j].job.run, number) && SessionSlot in HeldBy(s[j])
    ensures i == j
  {
    HoldsItsCopy(s, i, number, limits);
    HoldsItsCopy(s, j, number, limits);
    hide WorksIn, AgentOk, HeldBy;
    OneHolder(s, i, j, EnvironmentTurn(s[i].job.run.repo, number), limits);
  }

  lemma OneHolder(s: System, i: nat, j: nat, r: Resource, limits: Limits)
    requires Within1(s, limits) && Capacity(r, limits) == 1
    requires i < |s| && j < |s| && r in HeldBy(s[i]) && r in HeldBy(s[j])
    ensures i == j
  {
    hide HeldBy;
    SubsetSize({i, j}, Holders(s, r));
    assert |Holders(s, r)| <= Capacity(r, limits);
  }

  // ------------------------------------------------------------------ what each job takes and does

  predicate Takes(ops: seq<Op>, r: Resource) { Acquire(r) in ops }

  lemma WithinTakes(around: Resource, body: seq<Op>, r: Resource)
    ensures Takes(Within(around, body), r) <==> r == around || Takes(body, r)
  {
  }

  lemma {:induction false} ReadsTake(n: nat, r: Resource)
    ensures Takes(Reads(n), r) <==> n > 0 && r == FactoryLock
  {
    if n > 0 {
      ReadsTake(n - 1, r);
      WithinTakes(FactoryLock, [], r);
    }
  }

  lemma {:induction false} FetchesTake(repos: seq<string>, r: Resource)
    ensures Takes(Fetches(repos), r) <==> r.CacheLock? && r.repo in repos
  {
    if repos != [] {
      FetchesTake(repos[1..], r);
      WithinTakes(CacheLock(repos[0]), [], r);
    }
  }

  lemma {:induction false} RoundsTake(rounds: seq<seq<RoleRun>>, r: Resource)
    ensures !Takes(Rounds(rounds), r)
  {
    if rounds != [] { RoundsTake(rounds[1..], r); }
  }

  lemma SessionTakes(run: RoleRun, key: Option<IssueKey>, r: Resource)
    ensures Takes(Session(run, key), r) <==>
      r == SessionSlot || r == FactoryLock || (r == CacheLock(run.repo) && (key.None? || run.cold))
  {
    ReadsTake(3, r);
    WithinTakes(CacheLock(run.repo), [], r);
    var body := (if key.None? || run.cold then Within(CacheLock(run.repo), []) else []) + Reads(3);
    hide Reads, Within;
    WithinTakes(SessionSlot, body, r);
  }

  lemma RunTakes(run: RoleRun, r: Resource)
    requires !r.StagingTurn? && !r.EnvironmentTurn?
    ensures Takes(RunProgram(run), r) <==>
      r == SessionSlot || r == FactoryLock || (r == CacheLock(run.repo) && (run.workspace.None? || run.cold))
  {
    var key := BuildEnvironment(run.repo, run.role, run.workspace, run.stagingOpen);
    var home := TrainTurn(run.repo, run.role, key);
    var session := Session(run, key);
    SessionTakes(run, key, r);
    ReadsTake(2, r);
    hide Session, Reads, Within;
    if key.Some? {
      WithinTakes(Turn(run.repo, key.value), session, r);
      if home.Some? { WithinTakes(StagingTurn(home.value), Within(Turn(run.repo, key.value), session), r); }
    }
  }

  /**
   * What each kind of job locks besides turns: a delivery its issue, a worker slot and a thread; a
   * question its conversation, a thread, a session slot and the cache of each repo it reads; a run a
   * session slot and, where it has no copy or has to make it, its repo's cache.
   */
  lemma TakesExactly(job: Job, r: Resource)
    requires !r.StagingTurn? && !r.EnvironmentTurn?
    ensures Takes(Program(job), r) <==>
      match job
      case Delivery(key, _) => r == IssueLock(key) || r == WorkerSlot || r == PoolThread || r == FactoryLock
      case Run(run) => r == SessionSlot || r == FactoryLock || (r == CacheLock(run.repo) && (run.workspace.None? || run.cold))
      case Question(c, fetches) =>
        || (r.ConversationLock? && c == Some(r.name)) || r == PoolThread || r == SessionSlot
        || (r.CacheLock? && r.repo in fetches)
      case Deleter(_, _) => false
  {
    hide RunProgram, Reads, Rounds, Fetches, Within;
    match job
    case Delivery(key, rounds) =>
      ReadsTake(1, r);
      RoundsTake(rounds, r);
      var body := Reads(1) + Rounds(rounds);
      WithinTakes(PoolThread, body, r);
      WithinTakes(WorkerSlot, Within(PoolThread, body), r);
      WithinTakes(IssueLock(key), Within(WorkerSlot, Within(PoolThread, body)), r);
    case Run(run) => RunTakes(run, r);
    case Question(c, fetches) =>
      FetchesTake(fetches, r);
      var session := Within(SessionSlot, Fetches(fetches));
      WithinTakes(SessionSlot, Fetches(fetches), r);
      if c.Some? { WithinTakes(ConversationLock(c.value), session, r); }
      WithinTakes(PoolThread, if c.Some? then Within(ConversationLock(c.value), session) else session, r);
    case Deleter(repo, number) => WithinTakes(EnvironmentTurn(repo, number), [], r);
  }

  /** The runs launched by the first `pc` operations. */
  function Launched(ops: seq<Op>, pc: nat): seq<RoleRun>
    requires pc <= |ops|
  {
    if pc == 0 then [] else Launched(ops, pc - 1) + (if ops[pc - 1].Launch? then ops[pc - 1].runs else [])
  }

  /** The runs in the system that delivery `i` launched, in order. */
  function RunsOf(s: System, i: nat): seq<RoleRun> {
    if s == [] then []
    else
      var last := s[|s| - 1];
      RunsOf(s[..|s| - 1], i) + (if last.parent == Some(i) && last.job.Run? then [last.job.run] else [])
  }

  function AllRuns(rounds: seq<seq<RoleRun>>): seq<RoleRun> {
    if rounds == [] then [] else rounds[0] + AllRuns(rounds[1..])
  }

  ghost predicate LaunchesKept(s: System) {
    && (forall j :: 0 <= j < |s| ==> s[j].pc <= |Program(s[j].job)|)
    && (forall j :: 0 <= j < |s| && s[j].parent.Some? ==> s[j].parent.value < |s|)
    && forall i :: 0 <= i < |s| ==> RunsOf(s, i) == Launched(Program(s[i].job), s[i].pc)
  }

  lemma {:induction false} RunsOfConcat(s: System, t: System, i: nat)
    ensures RunsOf(s + t, i) == RunsOf(s, i) + RunsOf(t, i)
  {
    if t == [] {
      assert s + t == s;
    } else {
      RunsOfConcat(s, t[..|t| - 1], i);
      assert (s + t)[..|s + t| - 1] == s + t[..|t| - 1];
    }
  }

  /** Only who launched what counts, not how far it got. */
  lemma {:induction false} RunsOfSame(s: System, t: System, i: nat)
    requires |s| == |t| && forall j :: 0 <= j < |s| ==> s[j].job == t[j].job && s[j].parent == t[j].parent
    ensures RunsOf(s, i) == RunsOf(t, i)
  {
    if s != [] { RunsOfSame(s[..|s| - 1], t[..|t| - 1], i); }
  }

  lemma {:induction false} RunsOfChildren(runs: seq<RoleRun>, parent: nat, i: nat)
    ensures RunsOf(Children(runs, parent), i) == if i == parent then runs else []
  {
    if runs != [] {
      var first := [Agent(Run(runs[0]), 0, Some(parent))];
      RunsOfChildren(runs[1..], parent, i);
      RunsOfConcat(first, Children(runs[1..], parent), i);
      assert first[..0] == [] && RunsOf([], i) == [];
      assert RunsOf(first, i) == if i == parent then [runs[0]] else [];
    }
  }

  lemma {:induction false} NobodysRuns(s: System, i: nat)
    requires forall j :: 0 <= j < |s| ==> s[j].parent != Some(i)
    ensures RunsOf(s, i) == []
  {
    if s != [] { NobodysRuns(s[..|s| - 1], i); }
  }

  lemma LaunchedNext(ops: seq<Op>, pc: nat)
    requires pc < |ops|
    ensures Launched(ops, pc + 1) == Launched(ops, pc) + (if ops[pc].Launch? then ops[pc].runs else [])
  {
  }

  lemma StepKeepsLaunches(s: System, i: nat)
    requires LaunchesKept(s) && i < |s| && !Done(s[i])
    ensures LaunchesKept(Stepped(s, i))
  {
    var a, t := s[i], Stepped(s, i);
    forall j | 0 <= j < |t| ensures t[j].pc <= |Program(t[j].job)| && (t[j].parent.Some? ==> t[j].parent.value < |t|) {
      if j < |s| && j != i { assert t[j] == s[j]; }
    }
    hide Program;
    hide RunsOf, Launched, Stepped;
    forall j | 0 <= j < |t| ensures RunsOf(t, j) == Launched(Program(t[j].job), t[j].pc) { StepKeepsRuns(s, i, j); }
  }

  lemma StepKeepsRuns(s: System, i: nat, j: nat)
    requires LaunchesKept(s) && i < |s| && !Done(s[i]) && j < |Stepped(s, i)|
    ensures var t := Stepped(s, i); t[j].pc <= |Program(t[j].job)| && RunsOf(t, j) == Launched(Program(t[j].job), t[j].pc)
  {
    hide Program, RunsOf, Launched;
    var a, t := s[i], Stepped(s, i);
    var op := Program(a.job)[a.pc];
    var moved := s[i := a.(pc := a.pc + 1)];
    var launched := if op.Launch? then Children(op.runs, i) else [];
    RunsOfConcat(moved, launched, j);
    RunsOfSame(s, moved, j);
    if op.Launch? { RunsOfChildren(op.runs, i, j); } else { NobodysRuns([], j); }
    if j >= |s| {
      NobodysRuns(s, j);
      NoneLaunched(Program(t[j].job));
    } else if j == i {
      LaunchedNext(Program(a.job), a.pc);
    } else {
      assert t[j] == s[j];
    }
  }

  lemma NoneLaunched(ops: seq<Op>)
    ensures Launched(ops, 0) == []
  {
  }

  lemma ArriveKeepsLaunches(s: System, job: Job)
    requires LaunchesKept(s)
    ensures LaunchesKept(s + [Agent(job, 0, None)])
  {
    hide Program;
    var t := s + [Agent(job, 0, None)];
    forall j | 0 <= j < |t| ensures RunsOf(t, j) == Launched(Program(t[j].job), t[j].pc) {
      RunsOfConcat(s, [Agent(job, 0, None)], j);
      assert [Agent(job, 0, None)][..0] == [];
      if j == |s| { NobodysRuns(s, j); }
    }
  }

  lemma {:induction false} HistoryKeepsLaunches(s: System, events: seq<Event>, limits: Limits)
    requires LaunchesKept(s) && IsHistory(s, events, limits)
    ensures LaunchesKept(End(s, events))
    decreases |events|
  {
    if events != [] {
      match events[0] {
        case Arrive(job) => ArriveKeepsLaunches(s, job);
        case Advance(i) => StepKeepsLaunches(s, i);
      }
      HistoryKeepsLaunches(After(s, events[0]), events[1..], limits);
    }
  }

  lemma {:induction false} LaunchedConcat(a: seq<Op>, b: seq<Op>, pc: nat)
    requires pc <= |b|
    ensures Launched(a + b, |a| + pc) == Launched(a, |a|) + Launched(b, pc)
    decreases pc
  {
    if pc == 0 {
      LaunchedPrefix(a, b, |a|);
    } else {
      LaunchedConcat(a, b, pc - 1);
    }
  }

  lemma {:induction false} LaunchedPrefix(a: seq<Op>, b: seq<Op>, pc: nat)
    requires pc <= |a|
    ensures Launched(a + b, pc) == Launched(a, pc)
  {
    if pc > 0 { LaunchedPrefix(a, b, pc - 1); }
  }

  lemma {:induction false} LaunchedInside(r: Resource, body: seq<Op>, pc: nat)
    requires pc <= |body|
    ensures Launched(Within(r, body), pc + 1) == Launched(body, pc)
  {
    var ops := Within(r, body);
    if pc == 0 {
      NoneLaunched(ops);
      LaunchedNext(ops, 0);
      NoneLaunched(body);
    } else {
      LaunchedInside(r, body, pc - 1);
      LaunchedNext(ops, pc);
      LaunchedNext(body, pc - 1);
      assert ops[pc] == body[pc - 1];
    }
  }

  lemma LaunchedWithin(r: Resource, body: seq<Op>)
    ensures Launched(Within(r, body), |body| + 2) == Launched(body, |body|)
  {
    LaunchedInside(r, body, |body|);
    LaunchedNext(Within(r, body), |body| + 1);
    assert Within(r, body)[|body| + 1] == Free(r);
  }

  lemma {:induction false} RoundsLaunchAll(rounds: seq<seq<RoleRun>>)
    ensures Launched(Rounds(rounds), |Rounds(rounds)|) == AllRuns(rounds)
  {
    if rounds == [] {
      NoneLaunched([]);
    } else {
      var first, later := [Launch(rounds[0]), Join], Rounds(rounds[1..]);
      NoneLaunched(first);
      LaunchedNext(first, 0);
      LaunchedNext(first, 1);
      RoundsLaunchAll(rounds[1..]);
      LaunchedConcat(first, later, |later|);
      hide Launched;
      assert Rounds(rounds) == first + later;
    }
  }

  lemma ReadLaunchesNothing()
    ensures Launched(Reads(1), |Reads(1)|) == []
  {
    assert Reads(1) == Within(FactoryLock, []) by { assert Reads(0) == []; }
    LaunchedWithin(FactoryLock, []);
    NoneLaunched([]);
  }

  lemma DeliveryLaunchesAll(key: string, rounds: seq<seq<RoleRun>>)
    ensures var program := Program(Delivery(key, rounds)); Launched(program, |program|) == AllRuns(rounds)
  {
    hide Reads, Rounds, Launched, AllRuns;
    var body := Reads(1) + Rounds(rounds);
    ReadLaunchesNothing();
    RoundsLaunchAll(rounds);
    LaunchedConcat(Reads(1), Rounds(rounds), |Rounds(rounds)|);
    assert Launched(body, |body|) == AllRuns(rounds);
    var thread := Within(PoolThread, body);
    var slot := Within(WorkerSlot, thread);
    LaunchedWithin(PoolThread, body);
    LaunchedWithin(WorkerSlot, thread);
    LaunchedWithin(IssueLock(key), slot);
  }

  /** The jobs that came in from outside, in order. */
  function Came(events: seq<Event>): seq<Job> {
    if events == [] then [] else (if events[0].Arrive? then [events[0].job] else []) + Came(events[1..])
  }

  function Outer(s: System): seq<Job> {
    if s == [] then []
    else
      var last := s[|s| - 1];
      Outer(s[..|s| - 1]) + (if last.parent.None? then [last.job] else [])
  }

  lemma {:induction false} OuterConcat(s: System, t: System)
    ensures Outer(s + t) == Outer(s) + Outer(t)
  {
    if t == [] {
      assert s + t == s;
    } else {
      OuterConcat(s, t[..|t| - 1]);
      assert (s + t)[..|s + t| - 1] == s + t[..|t| - 1];
    }
  }

  lemma {:induction false} OuterSame(s: System, t: System)
    requires |s| == |t| && forall j :: 0 <= j < |s| ==> s[j].job == t[j].job && s[j].parent == t[j].parent
    ensures Outer(s) == Outer(t)
  {
    if s != [] { OuterSame(s[..|s| - 1], t[..|t| - 1]); }
  }

  lemma {:induction false} OuterChildren(s: System)
    requires forall j :: 0 <= j < |s| ==> s[j].parent.Some?
    ensures Outer(s) == []
  {
    if s != [] { OuterChildren(s[..|s| - 1]); }
  }

  lemma StepKeepsOuter(s: System, i: nat)
    requires i < |s| && !Done(s[i])
    ensures Outer(Stepped(s, i)) == Outer(s)
  {
    hide Program, Outer;
    var a := s[i];
    var op := Program(a.job)[a.pc];
    var moved := s[i := a.(pc := a.pc + 1)];
    var launched := if op.Launch? then Children(op.runs, i) else [];
    OuterConcat(moved, launched);
    OuterSame(s, moved);
    OuterChildren(launched);
  }

  lemma {:induction false} HistoryKeepsOuter(s: System, events: seq<Event>, limits: Limits)
    requires IsHistory(s, events, limits)
    ensures Outer(End(s, events)) == Outer(s) + Came(events)
    decreases |events|
  {
    if events != [] {
      match events[0] {
        case Arrive(job) =>
          OuterConcat(s, [Agent(job, 0, None)]);
          assert [Agent(job, 0, None)][..0] == [] && Outer([]) == [];
        case Advance(i) => StepKeepsOuter(s, i);
      }
      HistoryKeepsOuter(After(s, events[0]), events[1..], limits);
    }
  }

  ghost predicate RoundsRun(s: System) {
    forall i :: 0 <= i < |s| && s[i].job.Delivery? ==> RunsOf(s, i) == AllRuns(s[i].job.rounds)
  }

  lemma RoundsAreRun(s: System)
    requires LaunchesKept(s) && AllDone(s)
    ensures RoundsRun(s)
  {
    hide LaunchesKept, RunsOf, AllRuns, Done;
    forall i | 0 <= i < |s| && s[i].job.Delivery? ensures RunsOf(s, i) == AllRuns(s[i].job.rounds) { AllLaunched(s, i); }
  }

  lemma NoneLaunchedYet()
    ensures LaunchesKept([]) && Outer([]) == []
  {
  }

  /**
   * Nothing that comes in is lost or done in part: once no job can go on, the system holds each job
   * that came, finished, and for each delivery exactly the runs of its rounds, in order, all finished.
   */
  lemma EverythingIsDone(events: seq<Event>, limits: Limits)
    requires IsHistory([], events, limits) && SomeOfEach(limits) && AtRest(End([], events), limits)
    ensures var s := End([], events); AllDone(s) && Outer(s) == Came(events) && RoundsRun(s)
  {
    hide *;
    NoneLaunchedYet();
    ReachableInv(events, limits);
    RestIsTheEnd(End([], events), limits);
    HistoryKeepsLaunches([], events, limits);
    HistoryKeepsOuter([], events, limits);
    assert [] + Came(events) == Came(events);
    RoundsAreRun(End([], events));
  }

  lemma AllLaunched(s: System, i: nat)
    requires LaunchesKept(s) && i < |s| && s[i].job.Delivery? && Done(s[i])
    ensures RunsOf(s, i) == AllRuns(s[i].job.rounds)
  {
    hide Program, Launched, RunsOf, AllRuns;
    DeliveryLaunchesAll(s[i].job.key, s[i].job.rounds);
  }
}
