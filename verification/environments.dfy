/**
 * Build environments on disk and their turns (issue_workspaces.py): the bookkeeping `hold` keeps
 * around each lock for GET /environments, and the two deleters, `sweep` and `discard`, which run
 * beside it and never wait. Every guarded block of the code is one step.
 */
module Environments {
  import opened FiniteSets
  import opened Wrappers

  datatype Env = Staging(repo: string) | Issue(repo: string, number: int)

  /** What a deleter read from a home's meta.json; `Torn` is a file it could not read whole. */
  datatype Meta = Whole(env: Env, epic: Option<Env>) | Torn

  type User = nat

  datatype Phase =
    | Refused    // the lock was not free at once
    | Queued     // listed in the environment's queue, blocked on its lock
    | Granted    // has the lock, still listed
    | Owned      // has the lock, not yet shown as holder
    | Holding    // the run itself
    | Leaving    // no longer shown as holder, lock not yet released
    | Deleting(locked: bool)

  datatype Turn = Turn(env: Env, phase: Phase)

  datatype Holder = Holder(user: User, state: string)

  /** `stale` lists who gave up while listed as waiting: nothing takes such an entry out again. */
  datatype State = State(
    lock: map<Env, User>, queues: map<Env, seq<User>>, holders: map<Env, Holder>,
    users: map<User, Turn>, homes: set<Env>, stale: set<User>)

  datatype Step =
    | Arrive(user: User, env: Env)
    | Enqueue(user: User)
    | GiveUp(user: User)
    | Grant(user: User)
    | Dequeue(user: User)
    | Show(user: User)
    | Mark(env: Env, state: string)
    | Prepare(user: User)
    | Hide(user: User)
    | Leave(user: User)
    | TryDelete(user: User, home: Env, meta: Meta)
    | Deleted(user: User)

  /** `sweep` never picks the staging environment of a repo. */
  predicate SweepMayPick(meta: Meta) { meta.Torn? || meta.env.Issue? }

  /** `discard` picks the closed issue's own copy and, for an epic, every copy that names it. */
  predicate DiscardPicks(meta: Meta, closed: Env)
    requires closed.Issue?
  {
    meta.Whole? && (meta.env == closed || meta.epic == Some(closed))
  }

  /** Every staging environment is written with no epic. */
  predicate WellWritten(meta: Meta) { meta.Whole? && meta.env.Staging? ==> meta.epic.None? }

  predicate At(s: State, u: User, p: Phase) { u in s.users && s.users[u].phase == p }

  /** A new run or deletion. */
  predicate IsNew(s: State, u: User) { u !in s.users && u !in s.stale }

  predicate Enabled(s: State, step: Step) {
    match step
    case Arrive(u, e) => IsNew(s, u)
    case Enqueue(u) => At(s, u, Refused)
    case GiveUp(u) => At(s, u, Queued)
    case Grant(u) => At(s, u, Queued) && s.users[u].env !in s.lock
    case Dequeue(u) => At(s, u, Granted)
    case Show(u) => At(s, u, Owned)
    case Mark(_, _) => true
    case Prepare(u) => At(s, u, Holding)
    case Hide(u) => At(s, u, Holding)
    case Leave(u) => At(s, u, Leaving)
    case TryDelete(u, home, meta) =>
      && IsNew(s, u) && home in s.homes
      && (meta.Whole? ==> meta.env == home && meta.env.Issue?)
    case Deleted(u) => At(s, u, Deleting(true)) || At(s, u, Deleting(false))
  }

  function Without(q: seq<User>, u: User): seq<User> {
    if q == [] then [] else if q[0] == u then Without(q[1..], u) else [q[0]] + Without(q[1..], u)
  }

  function Queue(s: State, e: Env): seq<User> { if e in s.queues then s.queues[e] else [] }

  function Moved(s: State, u: User, p: Phase): map<User, Turn>
    requires u in s.users
  {
    s.users[u := s.users[u].(phase := p)]
  }

  function Next(s: State, step: Step): State
    requires Enabled(s, step)
  {
    match step
    case Arrive(u, e) =>
      if e in s.lock
      then s.(users := s.users[u := Turn(e, Refused)])
      else s.(lock := s.lock[e := u], users := s.users[u := Turn(e, Owned)])
    case Enqueue(u) =>
      var e := s.users[u].env;
      s.(queues := s.queues[e := Queue(s, e) + [u]], users := Moved(s, u, Queued))
    case GiveUp(u) => s.(users := s.users - {u}, stale := s.stale + {u})
    case Grant(u) => s.(lock := s.lock[s.users[u].env := u], users := Moved(s, u, Granted))
    case Dequeue(u) =>
      var e := s.users[u].env;
      var rest := Without(Queue(s, e), u);
      s.(queues := if rest == [] then s.queues - {e} else s.queues[e := rest], users := Moved(s, u, Owned))
    case Show(u) => s.(holders := s.holders[s.users[u].env := Holder(u, "starting")], users := Moved(s, u, Holding))
    case Mark(e, state) =>
      if e in s.holders then s.(holders := s.holders[e := s.holders[e].(state := state)]) else s
    case Prepare(u) => s.(homes := s.homes + {s.users[u].env})
    case Hide(u) => s.(holders := s.holders - {s.users[u].env}, users := Moved(s, u, Leaving))
    case Leave(u) => s.(lock := s.lock - {s.users[u].env}, users := s.users - {u})
    case TryDelete(u, home, meta) =>
      if meta.Torn? then s.(users := s.users[u := Turn(home, Deleting(false))])
      else if home in s.lock then s
      else s.(lock := s.lock[home := u], users := s.users[u := Turn(home, Deleting(true))])
    case Deleted(u) =>
      var Turn(e, p) := s.users[u];
      s.(homes := s.homes - {e}, lock := if p.locked then s.lock - {e} else s.lock, users := s.users - {u})
  }

  // ------------------------------------------------------------------ the invariant

  predicate HasLock(p: Phase) { p.Granted? || p.Owned? || p.Holding? || p.Leaving? || p == Deleting(true) }

  predicate Listed(p: Phase) { p.Queued? || p.Granted? }

  ghost predicate UserOk(s: State, u: User)
    requires u in s.users
  {
    var Turn(e, p) := s.users[u];
    && u !in s.stale
    && (HasLock(p) ==> e in s.lock && s.lock[e] == u)
    && (Listed(p) <==> u in Queue(s, e))
    && (p.Holding? ==> e in s.holders && s.holders[e].user == u)
    && (p == Deleting(true) ==> e.Issue?)
  }

  ghost predicate EnvOk(s: State, e: Env) {
    && (e in s.lock ==> s.lock[e] in s.users && s.users[s.lock[e]].env == e && HasLock(s.users[s.lock[e]].phase))
    && (e in s.holders ==> s.holders[e].user in s.users && s.users[s.holders[e].user] == Turn(e, Holding))
    && (e in s.queues ==> s.queues[e] != [])
    && (forall u :: u in Queue(s, e) ==> u in s.stale || (u in s.users && s.users[u].env == e && Listed(s.users[u].phase)))
    && NoRepeats(Queue(s, e))
  }

  ghost predicate NoRepeats(q: seq<User>) { forall i, j :: 0 <= i < j < |q| ==> q[i] != q[j] }

  ghost predicate Inv(s: State) {
    (forall u :: u in s.users ==> UserOk(s, u)) && (forall e :: EnvOk(s, e))
  }

  lemma {:induction false} WithoutRemoves(q: seq<User>, u: User)
    ensures forall v :: v in Without(q, u) <==> v in q && v != u
    ensures NoRepeats(q) ==> NoRepeats(Without(q, u))
  {
    if q != [] {
      WithoutRemoves(q[1..], u);
      assert q == [q[0]] + q[1..];
      if NoRepeats(q) {
        assert NoRepeats(q[1..]);
        forall j | 0 <= j < |Without(q[1..], u)| ensures Without(q[1..], u)[j] != q[0] {
          assert Without(q[1..], u)[j] in q[1..];
        }
      }
    }
  }

  lemma QueueStepUser(s: State, step: Step, u: User)
    requires step.Enqueue? || step.Dequeue?
    requires Enabled(s, step) && u in s.users && UserOk(s, u) && UserOk(s, step.user)
    ensures UserOk(Next(s, step), u)
  {
    WithoutRemoves(Queue(s, s.users[step.user].env), step.user);
  }

  lemma LockStepUser(s: State, step: Step, u: User)
    requires !step.Enqueue? && !step.Dequeue? && !step.Arrive? && !step.Mark? && !step.TryDelete?
    requires Enabled(s, step) && u in Next(s, step).users && u in s.users && UserOk(s, u) && UserOk(s, step.user)
    ensures UserOk(Next(s, step), u)
  {
  }

  lemma ArriveUser(s: State, step: Step, u: User)
    requires step.Arrive? && Enabled(s, step) && u in Next(s, step).users && (u in s.users ==> UserOk(s, u)) && EnvOk(s, step.env)
    ensures UserOk(Next(s, step), u)
  {
    hide NoRepeats;
  }

  lemma TryDeleteUser(s: State, step: Step, u: User)
    requires step.TryDelete? && Enabled(s, step) && u in Next(s, step).users && (u in s.users ==> UserOk(s, u)) && EnvOk(s, step.home)
    ensures UserOk(Next(s, step), u)
  {
    hide NoRepeats;
    if u != step.user {
      hide UserOk, EnvOk;
      NewLeavesOthers(s, step, u);
    }
  }

  lemma NewLeavesOthers(s: State, step: Step, u: User)
    requires step.TryDelete? && Enabled(s, step) && u in s.users && u != step.user && UserOk(s, u)
    ensures UserOk(Next(s, step), u)
  {
    hide NoRepeats;
    assert Next(s, step).users[u] == s.users[u];
  }

  lemma MarkUser(s: State, step: Step, u: User)
    requires step.Mark? && u in s.users && UserOk(s, u)
    ensures UserOk(Next(s, step), u)
  {
  }

  lemma StepUser(s: State, step: Step, u: User)
    requires Inv(s) && Enabled(s, step) && u in Next(s, step).users
    ensures UserOk(Next(s, step), u)
  {
    hide UserOk, EnvOk;
    if step.Arrive? {
      ArriveUser(s, step, u);
    } else if step.TryDelete? {
      TryDeleteUser(s, step, u);
    } else if step.Mark? {
      MarkUser(s, step, u);
    } else if step.Enqueue? || step.Dequeue? {
      QueueStepUser(s, step, u);
    } else {
      LockStepUser(s, step, u);
    }
  }

  lemma QueueStepEnv(s: State, step: Step, e: Env)
    requires step.Enqueue? || step.Dequeue?
    requires Enabled(s, step) && EnvOk(s, e) && UserOk(s, step.user) && (e in s.lock ==> UserOk(s, s.lock[e]))
    ensures EnvOk(Next(s, step), e)
  {
    var q := Queue(s, e);
    WithoutRemoves(q, step.user);
    if step.Enqueue? && s.users[step.user].env == e { assert NoRepeats(q + [step.user]); }
  }

  lemma GiveUpEnv(s: State, step: Step, e: Env)
    requires step.GiveUp? && Enabled(s, step) && EnvOk(s, e)
    ensures EnvOk(Next(s, step), e)
  {
    hide NoRepeats;
    assert Queue(Next(s, step), e) == Queue(s, e);
  }

  lemma LockStepEnv(s: State, step: Step, e: Env)
    requires !step.Enqueue? && !step.Dequeue? && !step.Arrive? && !step.Mark? && !step.TryDelete? && !step.GiveUp?
    requires Enabled(s, step) && EnvOk(s, e) && UserOk(s, step.user) && (e in s.lock ==> UserOk(s, s.lock[e]))
    ensures EnvOk(Next(s, step), e)
  {
    hide NoRepeats;
    assert Queue(Next(s, step), e) == Queue(s, e);
  }

  lemma ArriveEnv(s: State, step: Step, e: Env)
    requires step.Arrive? && Enabled(s, step) && EnvOk(s, e)
    ensures EnvOk(Next(s, step), e)
  {
    hide NoRepeats, UserOk;
    assert Next(s, step).queues == s.queues && Next(s, step).holders == s.holders;
    assert Queue(Next(s, step), e) == Queue(s, e);
  }

  lemma TryDeleteEnv(s: State, step: Step, e: Env)
    requires step.TryDelete? && Enabled(s, step) && EnvOk(s, e)
    ensures EnvOk(Next(s, step), e)
  {
    hide NoRepeats, UserOk;
    assert Next(s, step).queues == s.queues && Next(s, step).holders == s.holders;
    assert Queue(Next(s, step), e) == Queue(s, e);
  }

  lemma MarkEnv(s: State, step: Step, e: Env)
    requires step.Mark? && EnvOk(s, e)
    ensures EnvOk(Next(s, step), e)
  {
    hide NoRepeats;
  }

  lemma StepEnv(s: State, step: Step, e: Env)
    requires Inv(s) && Enabled(s, step)
    ensures EnvOk(Next(s, step), e)
  {
    hide UserOk;
    assert EnvOk(s, e);
    if step.Arrive? {
      ArriveEnv(s, step, e);
    } else if step.TryDelete? {
      TryDeleteEnv(s, step, e);
    } else if step.Mark? {
      MarkEnv(s, step, e);
    } else if step.GiveUp? {
      GiveUpEnv(s, step, e);
    } else if step.Enqueue? || step.Dequeue? {
      QueueStepEnv(s, step, e);
    } else {
      LockStepEnv(s, step, e);
    }
  }

  lemma StepKeepsInv(s: State, step: Step)
    requires Inv(s) && Enabled(s, step)
    ensures Inv(Next(s, step))
  {
    hide UserOk, EnvOk;
    var t := Next(s, step);
    forall u | u in t.users ensures UserOk(t, u) { StepUser(s, step, u); }
    forall e ensures EnvOk(t, e) { StepEnv(s, step, e); }
  }

  predicate IsRun(s: State, steps: seq<Step>)
    decreases |steps|
  {
    steps == [] || (Enabled(s, steps[0]) && IsRun(Next(s, steps[0]), steps[1..]))
  }

  function After(s: State, steps: seq<Step>): State
    requires IsRun(s, steps)
    decreases |steps|
  {
    if steps == [] then s else After(Next(s, steps[0]), steps[1..])
  }

  /** A run goes on step by step. */
  lemma {:induction false} AfterThen(w: State, steps: seq<Step>, s: Step)
    requires IsRun(w, steps) && Enabled(After(w, steps), s)
    ensures IsRun(w, steps + [s]) && After(w, steps + [s]) == Next(After(w, steps), s)
    decreases |steps|
  {
    hide Next, Enabled;
    if steps == [] {
      assert [] + [s] == [s] && [s][1..] == [];
    } else {
      assert (steps + [s])[1..] == steps[1..] + [s];
      AfterThen(Next(w, steps[0]), steps[1..], s);
    }
  }

  lemma {:induction false} RunKeepsInv(s: State, steps: seq<Step>)
    requires Inv(s) && IsRun(s, steps)
    ensures Inv(After(s, steps))
    decreases |steps|
  {
    if steps != [] {
      StepKeepsInv(s, steps[0]);
      RunKeepsInv(Next(s, steps[0]), steps[1..]);
    }
  }

  // ------------------------------------------------------------------ what is promised

  /** A run is live in `e` from the moment it has the turn until it lets go. */
  ghost predicate RunsIn(s: State, e: Env, u: User) {
    u in s.users && s.users[u].env == e && HasLock(s.users[u].phase) && !s.users[u].phase.Deleting?
  }

  ghost predicate NoTornRead(steps: seq<Step>) {
    forall i :: 0 <= i < |steps| ==> !(steps[i].TryDelete? && steps[i].meta.Torn?)
  }

  /** No deleter works without the lock of the home it deletes. */
  ghost predicate DeletersLock(s: State) {
    forall u :: u in s.users ==> s.users[u].phase != Deleting(false)
  }

  lemma StepLocks(s: State, step: Step)
    requires DeletersLock(s) && Enabled(s, step) && !(step.TryDelete? && step.meta.Torn?)
    ensures DeletersLock(Next(s, step))
  {}

  lemma {:induction false} WholeReadsLock(s: State, steps: seq<Step>)
    requires Inv(s) && DeletersLock(s) && IsRun(s, steps) && NoTornRead(steps)
    ensures DeletersLock(After(s, steps))
    decreases |steps|
  {
    if steps != [] {
      StepKeepsInv(s, steps[0]);
      StepLocks(s, steps[0]);
      hide Inv, DeletersLock, Enabled, Next;
      forall i | 0 <= i < |steps[1..]| ensures !(steps[1..][i].TryDelete? && steps[1..][i].meta.Torn?) {
        assert steps[1..][i] == steps[i + 1];
      }
      WholeReadsLock(Next(s, steps[0]), steps[1..]);
    }
  }

  const INIT := State(map[], map[], map[], map[], {}, {})

  /**
   * In any run in which every meta.json was read whole: a deletion happens only while no run has
   * the environment's turn, never in a staging environment; one run at most has each turn; and
   * the holder shown for an environment is the run that owns its turn.
   */
  lemma NoDeletionUnderARun(steps: seq<Step>, deleter: User)
    requires IsRun(INIT, steps) && NoTornRead(steps)
    ensures var s := After(INIT, steps);
            && (Enabled(s, Deleted(deleter)) ==>
                 s.users[deleter].env.Issue? && forall u :: !RunsIn(s, s.users[deleter].env, u))
            && (forall e, u, v :: RunsIn(s, e, u) && RunsIn(s, e, v) ==> u == v)
            && (forall e :: e in s.holders ==> RunsIn(s, e, s.holders[e].user))
  {
    RunKeepsInv(INIT, steps);
    WholeReadsLock(INIT, steps);
    var s := After(INIT, steps);
    if Enabled(s, Deleted(deleter)) { assert UserOk(s, deleter); }
    forall e, u | RunsIn(s, e, u) ensures e in s.lock && s.lock[e] == u { assert UserOk(s, u); }
    forall e | e in s.holders ensures RunsIn(s, e, s.holders[e].user) { assert EnvOk(s, e); }
  }

  /** In none of these steps does `d` begin anything. */
  predicate NothingBegunBy(steps: seq<Step>, d: User) {
    forall i :: 0 <= i < |steps| ==> !((steps[i].Arrive? || steps[i].TryDelete?) && steps[i].user == d)
  }

  /** After this try and these steps, the deletion goes ahead while a run is live in the home. */
  ghost predicate DeletesUnderARun(s: State, d: User, home: Env, meta: Meta, steps: seq<Step>) {
    var all := [TryDelete(d, home, meta)] + steps;
    && NothingBegunBy(steps, d) && IsRun(s, all) && Enabled(After(s, all), Deleted(d))
    && exists u :: RunsIn(After(s, all), home, u)
  }

  lemma SomeoneNew(s: State, d: User) returns (u: User)
    ensures IsNew(s, u) && u != d
  {
    var used := s.users.Keys + s.stale + {d};
    u := NewNumber(used);
    assert u !in used;
  }

  /** A run and one more step. */
  lemma {:induction false} RunThen(s: State, steps: seq<Step>, step: Step)
    requires IsRun(s, steps) && Enabled(After(s, steps), step)
    ensures IsRun(s, steps + [step]) && After(s, steps + [step]) == Next(After(s, steps), step)
    decreases |steps|
  {
    if steps == [] {
      assert [] + [step] == [step] && [step][1..] == [] && IsRun(Next(s, step), []);
    } else {
      RunThen(Next(s, steps[0]), steps[1..], step);
      assert (steps + [step])[1..] == steps[1..] + [step];
    }
  }

  /** A run may take a free turn, deleters without its lock or not. */
  lemma NewRunTakes(s: State, all: seq<Step>, home: Env, x: User)
    requires IsRun(s, all) && IsNew(After(s, all), x) && home !in After(s, all).lock
    ensures IsRun(s, all + [Arrive(x, home)]) && RunsIn(After(s, all + [Arrive(x, home)]), home, x)
    ensures forall d :: d != x && Enabled(After(s, all), Deleted(d)) ==> Enabled(After(s, all + [Arrive(x, home)]), Deleted(d))
  {
    RunThen(s, all, Arrive(x, home));
  }

  /** Deletes without the lock, from any state: who holds the turn, or takes it, is not heeded. */
  lemma TornReadMayDelete(s: State, d: User, home: Env) returns (steps: seq<Step>)
    requires Inv(s) && Enabled(s, TryDelete(d, home, Torn))
    ensures DeletesUnderARun(s, d, home, Torn, steps)
  {
    var try := TryDelete(d, home, Torn);
    var t := Next(s, try);
    assert EnvOk(s, home);
    hide Inv, EnvOk, UserOk;
    RunThen(s, [], try);
    assert [] + [try] == [try] && [try] + [] == [try];
    assert After(s, [try]) == t && Enabled(t, Deleted(d));
    var x := SomeoneNew(t, d);
    if home in s.lock && s.users[s.lock[home]].phase != Deleting(true) {
      steps := [];
      assert RunsIn(t, home, s.lock[home]);
    } else if home in s.lock {
      var v := s.lock[home];
      RunThen(s, [try], Deleted(v));
      NewRunTakes(s, [try] + [Deleted(v)], home, x);
      steps := [Deleted(v), Arrive(x, home)];
      assert [try] + steps == [try] + [Deleted(v)] + [Arrive(x, home)];
    } else {
      NewRunTakes(s, [try], home, x);
      steps := [Arrive(x, home)];
    }
  }

  lemma StepHolds(s: State, d: User, home: Env, step: Step)
    requires Enabled(s, step) && !((step.Arrive? || step.TryDelete?) && step.user == d)
    requires d !in s.users || s.users[d] == Turn(home, Deleting(true))
    ensures d !in Next(s, step).users || Next(s, step).users[d] == Turn(home, Deleting(true))
  {
  }

  /** A deleter that read its meta.json whole has the home's lock until it is done. */
  lemma {:induction false} WholeReadHolds(s: State, d: User, home: Env, steps: seq<Step>)
    requires Inv(s) && IsRun(s, steps) && NothingBegunBy(steps, d)
    requires d !in s.users || s.users[d] == Turn(home, Deleting(true))
    ensures Inv(After(s, steps))
    ensures d !in After(s, steps).users || After(s, steps).users[d] == Turn(home, Deleting(true))
    decreases |steps|
  {
    if steps != [] {
      StepKeepsInv(s, steps[0]);
      StepHolds(s, d, home, steps[0]);
      hide Inv, Enabled, Next;
      assert !((steps[0].Arrive? || steps[0].TryDelete?) && steps[0].user == d);
      forall i | 0 <= i < |steps[1..]| ensures !((steps[1..][i].Arrive? || steps[1..][i].TryDelete?) && steps[1..][i].user == d) {
        assert steps[1..][i] == steps[i + 1];
      }
      WholeReadHolds(Next(s, steps[0]), d, home, steps[1..]);
    }
  }

  lemma DeleterIsAlone(s: State, d: User, u: User)
    requires Inv(s) && d in s.users && s.users[d].phase == Deleting(true)
    ensures !RunsIn(s, s.users[d].env, u)
  {
    assert UserOk(s, d);
    if u in s.users { assert UserOk(s, u); }
  }

  /**
   * Exactly what it takes: a try can end in a deletion under a live run, even of a staging copy, if
   * and only if its meta.json was not read whole - from any state, whatever else goes on.
   */
  lemma DeletesUnderARunOnlyIfTorn(s: State, d: User, home: Env, meta: Meta)
    requires Inv(s) && Enabled(s, TryDelete(d, home, meta))
    ensures (exists steps :: DeletesUnderARun(s, d, home, meta, steps)) <==> meta.Torn?
  {
    if meta.Torn? {
      var steps := TornReadMayDelete(s, d, home);
    } else if steps :| DeletesUnderARun(s, d, home, meta, steps) {
      var try := TryDelete(d, home, meta);
      var all := [try] + steps;
      assert all[0] == try && all[1..] == steps;
      StepKeepsInv(s, try);
      hide Inv;
      WholeReadHolds(Next(s, try), d, home, steps);
      var u :| RunsIn(After(s, all), home, u);
      DeleterIsAlone(After(s, all), d, u);
    }
  }

  /** An entry given up on stays in the list of waiting runs for good. */
  lemma {:induction false} GivenUpStaysListed(s: State, e: Env, u: User, steps: seq<Step>)
    requires Inv(s) && IsRun(s, steps) && u in s.stale && u in Queue(s, e)
    ensures u in After(s, steps).stale && u in Queue(After(s, steps), e)
    decreases |steps|
  {
    if steps != [] {
      var step := steps[0];
      StepKeepsInv(s, step);
      if step.Dequeue? {
        assert UserOk(s, step.user);
        WithoutRemoves(Queue(s, s.users[step.user].env), step.user);
      }
      hide Inv, UserOk, EnvOk;
      GivenUpStaysListed(Next(s, step), e, u, steps[1..]);
    }
  }

  /** `sweep` and `discard` only ever try what the model lets them: an issue's home, or a torn read. */
  lemma PickersSpareStaging(meta: Meta, closed: Env)
    requires closed.Issue? && WellWritten(meta)
    ensures SweepMayPick(meta) || DiscardPicks(meta, closed) ==> meta.Torn? || meta.env.Issue?
  {
  }

  // ------------------------------------------------------------------ as the code keeps it

  /** A home that `_copies` lists, and what was read there. */
  datatype Found = Found(home: Env, meta: Meta)

  /** Deleted if tried: free, or not read whole. */
  predicate Free(copy: Found, locks: map<Env, User>) { copy.meta.Torn? || copy.home !in locks }

  /** What `discard` tries. */
  predicate Names(copy: Found, closed: Env) {
    copy.meta.Whole? && (copy.meta.env == closed || copy.meta.epic == Some(closed))
  }

  /** What `sweep` tries. */
  predicate Due(copy: Found, due: set<Env>) { copy.meta.Torn? || (copy.meta.env.Issue? && copy.home in due) }

  /** Of `before`, the tried copies among the first `n` that could go are gone, and no other. */
  ghost predicate GoneUpTo(before: set<Env>, now: set<Env>, copies: seq<Found>, tried: Found -> bool, n: nat, locks: map<Env, User>)
    requires n <= |copies|
  {
    forall h :: h in now <==> h in before && forall i :: 0 <= i < n && copies[i].home == h ==> !(tried(copies[i]) && Free(copies[i], locks))
  }

  lemma OneMoreGone(
      before: set<Env>, now: set<Env>, copies: seq<Found>, tried: Found -> bool, n: nat, locks: map<Env, User>, next: set<Env>)
    requires n < |copies| && GoneUpTo(before, now, copies, tried, n, locks)
    requires next == if tried(copies[n]) && Free(copies[n], locks) then now - {copies[n].home} else now
    ensures GoneUpTo(before, next, copies, tried, n + 1, locks)
  {
    hide Free;
  }

  lemma NoneGone(homes: set<Env>, copies: seq<Found>, tried: Found -> bool, locks: map<Env, User>)
    ensures GoneUpTo(homes, homes, copies, tried, 0, locks)
  {
  }

  lemma ListingSays(copies: seq<Found>, homes: set<Env>, closed: Env)
    requires closed.Issue? && Listing(copies, homes)
    ensures forall i :: 0 <= i < |copies| ==>
      && copies[i].home in homes
      && (DiscardPicks(copies[i].meta, closed) <==> Names(copies[i], closed))
      && (Names(copies[i], closed) ==> copies[i].meta.env == copies[i].home && copies[i].home.Issue?)
    ensures forall i, j :: 0 <= i < j < |copies| ==> copies[i].home != copies[j].home
  {
  }

  lemma AllGone(before: set<Env>, now: set<Env>, copies: seq<Found>, tried: Found -> bool, locks: map<Env, User>)
    requires GoneUpTo(before, now, copies, tried, |copies|, locks)
    ensures forall h :: h in now <==> h in before && forall i :: 0 <= i < |copies| && copies[i].home == h ==>
              !(tried(copies[i]) && Free(copies[i], locks))
  {
  }

  lemma DiscardedAll(before: set<Env>, now: set<Env>, copies: seq<Found>, closed: Env, locks: map<Env, User>)
    requires GoneUpTo(before, now, copies, (copy: Found) => Names(copy, closed), |copies|, locks)
    ensures forall h :: h in now <==> h in before && forall i :: 0 <= i < |copies| && copies[i].home == h ==>
              !(copies[i].meta.Whole? && (copies[i].meta.env == closed || copies[i].meta.epic == Some(closed)) && h !in locks)
  {
    AllGone(before, now, copies, (copy: Found) => Names(copy, closed), locks);
  }

  lemma OneFewer(before: set<Env>, now: set<Env>, home: Env)
    requires home in now && now <= before
    ensures |before - (now - {home})| == |before - now| + 1
  {
    assert before - (now - {home}) == (before - now) + {home};
  }

  /** Each home once, its meta.json its own where it could be read. */
  predicate Listing(copies: seq<Found>, homes: set<Env>) {
    && (forall i :: 0 <= i < |copies| ==>
         copies[i].home in homes && WellWritten(copies[i].meta)
         && (copies[i].meta.Whole? ==> copies[i].meta.env == copies[i].home))
    && forall i, j :: 0 <= i < j < |copies| ==> copies[i].home != copies[j].home
  }

  class IssueWorkspaces {
    var locks: map<Env, User>
    var queues: map<Env, seq<User>>
    var holders: map<Env, Holder>
    var homes: set<Env>
    ghost var users: map<User, Turn>
    ghost var stale: set<User>

    ghost function Now(): State
      reads this
    {
      State(locks, queues, holders, users, homes, stale)
    }

    /** The non-blocking first try of `hold`. */
    method TryHold(u: User, e: Env) returns (got: bool)
      requires Inv(Now()) && IsNew(Now(), u)
      modifies this
      ensures Now() == Next(old(Now()), Arrive(u, e)) && Inv(Now())
      ensures got <==> e !in old(locks)
    {
      StepKeepsInv(Now(), Arrive(u, e));
      got := e !in locks;
      if got { locks := locks[e := u]; }
      users := users[u := Turn(e, if got then Owned else Refused)];
    }

    method Enlist(u: User, e: Env)
      requires Inv(Now()) && At(Now(), u, Refused) && users[u].env == e
      modifies this
      ensures Now() == Next(old(Now()), Enqueue(u)) && Inv(Now())
    {
      StepKeepsInv(Now(), Enqueue(u));
      queues := queues[e := (if e in queues then queues[e] else []) + [u]];
      users := users[u := Turn(e, Queued)];
    }

    /** `on_wait` raised: the run is gone, its entry is not. */
    method Abandon(u: User)
      requires Inv(Now()) && At(Now(), u, Queued)
      modifies this
      ensures Now() == Next(old(Now()), GiveUp(u)) && Inv(Now())
    {
      StepKeepsInv(Now(), GiveUp(u));
      users, stale := users - {u}, stale + {u};
    }

    /** After the blocking acquire: take this run's entry, and no other, out of the queue. */
    method Delist(u: User, e: Env)
      requires Inv(Now()) && At(Now(), u, Granted) && users[u].env == e
      modifies this
      ensures Now() == Next(old(Now()), Dequeue(u)) && Inv(Now())
    {
      StepKeepsInv(Now(), Dequeue(u));
      var waiting := Others(if e in queues then queues[e] else [], u);
      queues := if waiting == [] then queues - {e} else queues[e := waiting];
      users := users[u := Turn(e, Owned)];
    }

    method Others(queue: seq<User>, u: User) returns (waiting: seq<User>)
      ensures waiting == Without(queue, u)
    {
      waiting := [];
      for i := 0 to |queue|
        invariant waiting + Without(queue[i..], u) == Without(queue, u)
      {
        assert queue[i..][0] == queue[i] && queue[i..][1..] == queue[i + 1..];
        if queue[i] != u { waiting := waiting + [queue[i]]; }
      }
    }

    method ShowHolder(u: User, e: Env)
      requires Inv(Now()) && At(Now(), u, Owned) && users[u].env == e
      modifies this
      ensures Now() == Next(old(Now()), Show(u)) && Inv(Now())
    {
      StepKeepsInv(Now(), Show(u));
      holders := holders[e := Holder(u, "starting")];
      users := users[u := Turn(e, Holding)];
    }

    method MarkState(e: Env, state: string)
      requires Inv(Now())
      modifies this
      ensures Now() == Next(old(Now()), Mark(e, state)) && Inv(Now())
    {
      StepKeepsInv(Now(), Mark(e, state));
      if e in holders { holders := holders[e := holders[e].(state := state)]; }
    }

    /** The `finally` of `hold`: hidden first, released after. */
    method LetGo(u: User, e: Env)
      requires Inv(Now()) && At(Now(), u, Holding) && users[u].env == e
      modifies this
      ensures Now() == Next(Next(old(Now()), Hide(u)), Leave(u)) && Inv(Now())
    {
      StepKeepsInv(Now(), Hide(u));
      StepKeepsInv(Next(Now(), Hide(u)), Leave(u));
      holders := holders - {e};
      locks := locks - {e};
      users := users - {u};
    }

    /**
     * `_remove`: a home in use is skipped, another deleted under its lock; what could not be read is
     * deleted under a lock of its own that nobody else has.
     */
    method Remove(u: User, home: Env, meta: Meta) returns (removed: nat)
      requires Inv(Now()) && IsNew(Now(), u) && home in homes
      requires meta.Whole? ==> meta.env == home && home.Issue?
      modifies this
      ensures removed == if meta.Whole? && home in old(locks) then 0 else 1
      ensures removed == 0 ==> Now() == old(Now())
      ensures removed == 1 ==> Now() == Next(Next(old(Now()), TryDelete(u, home, meta)), Deleted(u))
      ensures Now() == old(Now()).(homes := if removed == 1 then old(homes) - {home} else old(homes))
      ensures Inv(Now())
    {
      StepKeepsInv(Now(), TryDelete(u, home, meta));
      if meta.Whole? && home in locks { return 0; }
      StepKeepsInv(Next(Now(), TryDelete(u, home, meta)), Deleted(u));
      homes := homes - {home};
      assert users[u := Turn(home, Deleting(meta.Whole?))] - {u} == users;
      assert meta.Whole? ==> locks[home := u] - {home} == locks;
      removed := 1;
    }

    /**
     * `discard`, with nothing beside it: every copy of the closed issue, and for an epic every copy
     * that names it, is deleted unless it is in use. No other copy is, nor one whose meta.json is torn.
     */
    method Discard(u: User, copies: seq<Found>, closed: Env) returns (removed: nat)
      requires Inv(Now()) && IsNew(Now(), u) && closed.Issue? && Listing(copies, homes)
      modifies this
      ensures Now() == old(Now()).(homes := homes) && removed == |old(homes) - homes|
      ensures forall h :: h in homes <==> h in old(homes) && forall i :: 0 <= i < |copies| && copies[i].home == h ==>
        !(copies[i].meta.Whole? && (copies[i].meta.env == closed || copies[i].meta.epic == Some(closed)) && h !in old(locks))
    {
      removed := 0;
      var before := homes;
      ghost var tried := (copy: Found) => Names(copy, closed);
      NoneGone(homes, copies, tried, locks);
      ListingSays(copies, homes, closed);
      hide Inv, GoneUpTo, Next, Enabled, UserOk, EnvOk, Listing, WellWritten, Names, DiscardPicks;
      for n := 0 to |copies|
        invariant Now() == old(Now()).(homes := homes) && Inv(Now()) && IsNew(Now(), u)
        invariant homes <= before && removed == |before - homes|
        invariant forall i :: n <= i < |copies| ==> copies[i].home in homes
        invariant GoneUpTo(before, homes, copies, tried, n, locks)
      {
        ghost var was := homes;
        if DiscardPicks(copies[n].meta, closed) {
          var one := Remove(u, copies[n].home, copies[n].meta);
          if one == 1 { OneFewer(before, was, copies[n].home); }
          removed := removed + one;
        }
        OneMoreGone(before, was, copies, tried, n, locks, homes);
      }
      DiscardedAll(before, homes, copies, closed, locks);
    }

    /**
     * `sweep`, with nothing beside it: of the copies it can read, every issue's that is due - idle too
     * long, or its issue found closed - is deleted unless it is in use, and no staging environment; of
     * those it cannot, every one, in use or not.
     */
    method Sweep(u: User, copies: seq<Found>, due: set<Env>) returns (removed: nat)
      requires Inv(Now()) && IsNew(Now(), u) && Listing(copies, homes)
      modifies this
      ensures Now() == old(Now()).(homes := homes) && removed == |old(homes) - homes|
      ensures forall h :: h in homes <==> h in old(homes) && forall i :: 0 <= i < |copies| && copies[i].home == h ==>
        !(copies[i].meta.Torn? || (h.Issue? && h in due && h !in old(locks)))
    {
      removed := 0;
      var before := homes;
      ghost var tried := (copy: Found) => Due(copy, due);
      NoneGone(homes, copies, tried, locks);
      hide Inv, GoneUpTo, Next, Enabled, UserOk, EnvOk;
      for n := 0 to |copies|
        invariant Now() == old(Now()).(homes := homes) && Inv(Now()) && IsNew(Now(), u)
        invariant homes <= before && removed == |before - homes|
        invariant forall i :: n <= i < |copies| ==> copies[i].home in homes
        invariant GoneUpTo(before, homes, copies, tried, n, locks)
      {
        ghost var was := homes;
        var home, meta := copies[n].home, copies[n].meta;
        if meta.Torn? || (meta.env.Issue? && home in due) {
          var one := Remove(u, home, meta);
          if one == 1 { OneFewer(before, was, home); }
          removed := removed + one;
        }
        OneMoreGone(before, was, copies, tried, n, locks, homes);
      }
      AllGone(before, homes, copies, tried, locks);
    }
  }
}
