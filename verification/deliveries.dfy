/**
 * The durable delivery queue and the worker that drains it (ledger.py, webhook.py), as a
 * transition system. Rows are kept in arrival order. The worker's memory is what a crash wipes:
 * the table of per-issue locks with its reference counts, the lock objects themselves, the live
 * tasks, and which of them hold a worker slot.
 */
module Deliveries {
  import opened FiniteSets
  import opened Wrappers

  datatype Guid = Guid(text: string)

  /** `thread_key`: the repository and the issue, written `repo#issue`. */
  datatype Key = Key(repo: string, issue: string)

  datatype Status = Pending | Processing | Done | Failed

  /** One row of `webhook_deliveries`; `key` is the thread key of its payload. */
  datatype Row = Row(guid: Guid, key: Key, status: Status)

  /** A `process` task: the key it was made for and the lock object it was handed. */
  datatype Task = Task(key: Key, lock: nat)

  /**
   * `heap[n]` is the n-th lock object ever made: the tasks holding or queued on it, holder first
   * (asyncio.Lock is first come, first served). `table` is `issue_locks`.
   */
  datatype Memory = Memory(
    table: map<Key, nat>, waiting: map<Key, nat>, heap: seq<seq<Guid>>,
    tasks: map<Guid, Task>, running: set<Guid>)

  datatype World = World(rows: seq<Row>, up: bool, mem: Memory)

  datatype Step =
    | Record(guid: Guid, key: Key)
    | Claim(limit: nat)
    | Enter(guid: Guid)
    | Finish(guid: Guid, ok: bool)
    | Crash
    | Restart

  const NOTHING := Memory(map[], map[], [], map[], {})
  const INIT := World([], false, NOTHING)

  predicate Finished(s: Status) { s.Done? || s.Failed? }

  function Rank(s: Status): nat {
    if s.Pending? then 2 else if s.Processing? then 1 else 0
  }

  // ------------------------------------------------------------------ the ledger's statements

  predicate Known(rows: seq<Row>, guid: Guid) { exists i :: 0 <= i < |rows| && rows[i].guid == guid }

  function Recorded(rows: seq<Row>, guid: Guid, key: Key): seq<Row> {
    if Known(rows, guid) then rows else rows + [Row(guid, key, Pending)]
  }

  /** The oldest `limit` pending rows, as `claim_pending` returns them. */
  function Oldest(rows: seq<Row>, limit: nat): seq<Row> {
    if rows == [] || limit == 0 then []
    else if rows[0].status.Pending? then [rows[0]] + Oldest(rows[1..], limit - 1)
    else Oldest(rows[1..], limit)
  }

  /** The rows once those are marked `processing`. */
  function Marked(rows: seq<Row>, limit: nat): (r: seq<Row>)
    ensures |r| == |rows|
  {
    if rows == [] || limit == 0 then rows
    else if rows[0].status.Pending? then [rows[0].(status := Processing)] + Marked(rows[1..], limit - 1)
    else [rows[0]] + Marked(rows[1..], limit)
  }

  function Stamped(rows: seq<Row>, guid: Guid, s: Status): (r: seq<Row>)
    ensures |r| == |rows|
    ensures forall i :: 0 <= i < |rows| ==> r[i] == if rows[i].guid == guid then rows[i].(status := s) else rows[i]
  {
    if rows == [] then []
    else [if rows[0].guid == guid then rows[0].(status := s) else rows[0]] + Stamped(rows[1..], guid, s)
  }

  function Requeued(rows: seq<Row>): (r: seq<Row>)
    ensures |r| == |rows|
    ensures forall i :: 0 <= i < |rows| ==>
      r[i] == if rows[i].status.Processing? then rows[i].(status := Pending) else rows[i]
  {
    if rows == [] then []
    else [if rows[0].status.Processing? then rows[0].(status := Pending) else rows[0]] + Requeued(rows[1..])
  }

  // ------------------------------------------------------------------ the worker's memory

  /** One turn of the batch loop: find or make the key's lock, count the task, queue it. */
  function Spawned(m: Memory, row: Row): Memory {
    var made := row.key !in m.table;
    var lock := if made then |m.heap| else m.table[row.key];
    var heap := if made then m.heap + [[]] else m.heap;
    m.(table := m.table[row.key := lock],
    waiting := m.waiting[row.key := if row.key in m.waiting then m.waiting[row.key] + 1 else 1],
    heap := if lock < |heap| then heap[lock := heap[lock] + [row.guid]] else heap,
    tasks := m.tasks[row.guid := Task(row.key, lock)])
  }

  function SpawnedAll(m: Memory, batch: seq<Row>): Memory
    decreases |batch|
  {
    if batch == [] then m else SpawnedAll(Spawned(m, batch[0]), batch[1..])
  }

  /** The task leaves lock and slot, drops its count, and the last one drops the lock. */
  function Left(m: Memory, guid: Guid): Memory
    requires guid in m.tasks
  {
    var Task(key, lock) := m.tasks[guid];
    var count := if key in m.waiting && m.waiting[key] > 0 then m.waiting[key] - 1 else 0;
    m.(heap := if lock < |m.heap| && m.heap[lock] != [] then m.heap[lock := m.heap[lock][1..]] else m.heap,
    waiting := if count == 0 then m.waiting - {key} else m.waiting[key := count],
    table := if count == 0 then m.table - {key} else m.table,
    tasks := m.tasks - {guid},
    running := m.running - {guid})
  }

  predicate HoldsLock(m: Memory, guid: Guid) {
    && guid in m.tasks
    && m.tasks[guid].lock < |m.heap|
    && m.heap[m.tasks[guid].lock] != []
    && m.heap[m.tasks[guid].lock][0] == guid
  }

  // ------------------------------------------------------------------ the transition system

  predicate Enabled(w: World, s: Step, slots: nat) {
    match s
    case Record(_, _) => true
    case Claim(_) => w.up
    case Enter(g) => w.up && HoldsLock(w.mem, g) && g !in w.mem.running && |w.mem.running| < slots
    case Finish(g, _) => w.up && g in w.mem.running && g in w.mem.tasks
    case Crash => true
    case Restart => !w.up
  }

  function Next(w: World, s: Step): World {
    match s
    case Record(g, k) => w.(rows := Recorded(w.rows, g, k))
    case Claim(n) => w.(rows := Marked(w.rows, n), mem := SpawnedAll(w.mem, Oldest(w.rows, n)))
    case Enter(g) => w.(mem := w.mem.(running := w.mem.running + {g}))
    case Finish(g, ok) =>
      if g in w.mem.tasks
      then w.(rows := Stamped(w.rows, g, if ok then Done else Failed), mem := Left(w.mem, g))
      else w
    case Crash => w.(up := false, mem := NOTHING)
    case Restart => World(Requeued(w.rows), true, NOTHING)
  }

  predicate IsRun(w: World, steps: seq<Step>, slots: nat)
    decreases |steps|
  {
    steps == [] || (Enabled(w, steps[0], slots) && IsRun(Next(w, steps[0]), steps[1..], slots))
  }

  function After(w: World, steps: seq<Step>): World
    decreases |steps|
  {
    if steps == [] then w else After(Next(w, steps[0]), steps[1..])
  }

  /** A run goes on step by step. */
  lemma {:induction false} AfterThen(w: World, steps: seq<Step>, s: Step, slots: nat)
    requires IsRun(w, steps, slots) && Enabled(After(w, steps), s, slots)
    ensures IsRun(w, steps + [s], slots) && After(w, steps + [s]) == Next(After(w, steps), s)
    decreases |steps|
  {
    hide Next, Enabled;
    if steps == [] {
      assert [] + [s] == [s] && [s][1..] == [];
    } else {
      assert (steps + [s])[1..] == steps[1..] + [s];
      AfterThen(Next(w, steps[0]), steps[1..], s, slots);
    }
  }

  // ------------------------------------------------------------------ the invariant

  /** The guids of a key's processing rows, oldest first. */
  function Live(rows: seq<Row>, key: Key): seq<Guid> {
    if rows == [] then []
    else (if rows[0].key == key && rows[0].status.Processing? then [rows[0].guid] else []) + Live(rows[1..], key)
  }

  function LiveGuids(rows: seq<Row>): set<Guid> {
    set i | 0 <= i < |rows| && rows[i].status.Processing? :: rows[i].guid
  }

  ghost predicate Distinct(rows: seq<Row>) {
    forall i, j :: 0 <= i < j < |rows| ==> rows[i].guid != rows[j].guid
  }

  /** Per key, in arrival order: finished rows, then processing ones, then pending ones. */
  ghost predicate Ordered(rows: seq<Row>) {
    forall i, j :: 0 <= i < j < |rows| && rows[i].key == rows[j].key ==> Rank(rows[i].status) <= Rank(rows[j].status)
  }

  /** The table has a lock for `k` exactly when `k` has live rows, and its line is those rows. */
  ghost predicate KeySound(rows: seq<Row>, m: Memory, k: Key) {
    && (k in m.table <==> Live(rows, k) != [])
    && (k in m.waiting <==> k in m.table)
    && (k in m.table ==>
      m.table[k] < |m.heap| && m.heap[m.table[k]] == Live(rows, k) && m.waiting[k] == |Live(rows, k)|)
  }

  /** No two keys share a lock. */
  ghost predicate TableInjective(m: Memory) {
    forall k, l :: k in m.table && l in m.table && m.table[k] == m.table[l] ==> k == l
  }

  ghost predicate TableSound(rows: seq<Row>, m: Memory) {
    TableInjective(m) && forall k :: KeySound(rows, m, k)
  }

  /** A live row has a task, and the task's lock is the one the table holds for its key. */
  predicate RowSound(m: Memory, row: Row) {
    row.status.Processing? ==>
      && row.key in m.table && row.guid in m.tasks
      && m.tasks[row.guid] == Task(row.key, m.table[row.key])
  }

  ghost predicate TasksSound(rows: seq<Row>, m: Memory) {
    && m.tasks.Keys == LiveGuids(rows)
    && (forall i :: 0 <= i < |rows| ==> RowSound(m, rows[i]))
  }

  ghost predicate Inv(w: World, slots: nat) {
    && Distinct(w.rows) && Ordered(w.rows)
    && (!w.up ==> w.mem == NOTHING)
    && (w.up ==> TableSound(w.rows, w.mem) && TasksSound(w.rows, w.mem))
    && (forall g :: g in w.mem.running ==> HoldsLock(w.mem, g))
    && |w.mem.running| <= slots
  }

  // ------------------------------------------------------------------ lists of live rows

  lemma {:induction false} LiveConcat(a: seq<Row>, b: seq<Row>, key: Key)
    ensures Live(a + b, key) == Live(a, key) + Live(b, key)
  {
    if a == [] {
      assert a + b == b;
    } else {
      assert (a + b)[1..] == a[1..] + b;
      LiveConcat(a[1..], b, key);
    }
  }

  lemma {:induction false} LiveEmpty(rows: seq<Row>, key: Key)
    requires forall i :: 0 <= i < |rows| && rows[i].key == key ==> !rows[i].status.Processing?
    ensures Live(rows, key) == []
  {
    if rows != [] { LiveEmpty(rows[1..], key); }
  }

  lemma {:induction false} LiveIndex(rows: seq<Row>, key: Key, n: nat) returns (i: nat)
    requires n < |Live(rows, key)|
    ensures i < |rows| && rows[i] == Row(Live(rows, key)[n], key, Processing)
    ensures n == 0 ==> Live(rows[..i], key) == []
  {
    var mine := rows[0].key == key && rows[0].status.Processing?;
    if mine && n == 0 {
      i := 0;
    } else {
      var j := LiveIndex(rows[1..], key, if mine then n - 1 else n);
      i := j + 1;
      if n == 0 { assert rows[..i][1..] == rows[1..][..j]; }
    }
  }

  /** Changing one row's status leaves the other keys alone and splits its own key's list there. */
  lemma LiveAround(rows: seq<Row>, i: nat, s: Status, key: Key)
    requires i < |rows|
    ensures rows[i].key != key ==> Live(rows[i := rows[i].(status := s)], key) == Live(rows, key)
    ensures Live(rows, key) == Live(rows[..i], key) + Live([rows[i]], key) + Live(rows[i + 1..], key)
    ensures Live(rows[i := rows[i].(status := s)], key)
         == Live(rows[..i], key) + Live([rows[i].(status := s)], key) + Live(rows[i + 1..], key)
  {
    var after := rows[i := rows[i].(status := s)];
    assert rows == rows[..i] + [rows[i]] + rows[i + 1..];
    assert after == rows[..i] + [after[i]] + rows[i + 1..];
    LiveConcat(rows[..i] + [rows[i]], rows[i + 1..], key);
    LiveConcat(rows[..i], [rows[i]], key);
    LiveConcat(rows[..i] + [after[i]], rows[i + 1..], key);
    LiveConcat(rows[..i], [after[i]], key);
  }

  lemma StampedAt(rows: seq<Row>, i: nat, s: Status)
    requires i < |rows| && Distinct(rows)
    ensures Stamped(rows, rows[i].guid, s) == rows[i := rows[i].(status := s)]
  {
  }

  lemma LiveGuidsAround(rows: seq<Row>, i: nat, s: Status)
    requires i < |rows| && Distinct(rows)
    ensures LiveGuids(rows[i := rows[i].(status := s)])
         == if s.Processing? then LiveGuids(rows) + {rows[i].guid} else LiveGuids(rows) - {rows[i].guid}
    ensures !rows[i].status.Processing? ==> rows[i].guid !in LiveGuids(rows)
  {
    var after := rows[i := rows[i].(status := s)];
    forall g | g in LiveGuids(rows) && g != rows[i].guid ensures g in LiveGuids(after) {
      var j :| 0 <= j < |rows| && rows[j].status.Processing? && rows[j].guid == g;
      assert after[j] == rows[j];
    }
    forall g | g in LiveGuids(after) && g != rows[i].guid ensures g in LiveGuids(rows) {
      var j :| 0 <= j < |rows| && after[j].status.Processing? && after[j].guid == g;
      assert after[j] == rows[j];
    }
    if s.Processing? {
      assert after[i].guid in LiveGuids(after);
    }
  }

  // ------------------------------------------------------------------ each step keeps the invariant

  lemma RecordRows(rows: seq<Row>, row: Row)
    requires !Known(rows, row.guid) && row.status.Pending? && Distinct(rows) && Ordered(rows)
    ensures Distinct(rows + [row]) && Ordered(rows + [row])
    ensures LiveGuids(rows + [row]) == LiveGuids(rows)
    ensures forall k :: Live(rows + [row], k) == Live(rows, k)
  {
    forall key ensures Live(rows + [row], key) == Live(rows, key) {
      LiveConcat(rows, [row], key);
    }
    forall h | h in LiveGuids(rows) ensures h in LiveGuids(rows + [row]) {
      var j :| 0 <= j < |rows| && rows[j].status.Processing? && rows[j].guid == h;
      assert (rows + [row])[j] == rows[j];
    }
  }

  lemma RecordKeeps(w: World, g: Guid, k: Key, slots: nat)
    requires Inv(w, slots)
    ensures Inv(Next(w, Record(g, k)), slots)
  {
    if !Known(w.rows, g) {
      RecordRows(w.rows, Row(g, k, Pending));
      if w.up { SameLiveKeeps(w.rows, w.rows + [Row(g, k, Pending)], w.mem); }
    }
  }

  lemma SameLiveKeeps(rows: seq<Row>, after: seq<Row>, m: Memory)
    requires TableSound(rows, m) && forall k :: Live(after, k) == Live(rows, k)
    ensures TableSound(after, m)
  {
    forall k ensures KeySound(after, m, k) { assert KeySound(rows, m, k); }
  }

  function FirstPending(rows: seq<Row>): (i: nat)
    ensures i <= |rows|
    ensures forall j :: 0 <= j < i ==> !rows[j].status.Pending?
    ensures i < |rows| ==> rows[i].status.Pending?
  {
    if rows == [] || rows[0].status.Pending? then 0 else FirstPending(rows[1..]) + 1
  }

  /** A batch is claimed one row at a time, each the oldest still pending. */
  lemma {:induction false} ClaimByOnes(rows: seq<Row>, n: nat)
    requires n > 0
    ensures var i := FirstPending(rows);
            if i == |rows| then Marked(rows, n) == rows && Oldest(rows, n) == []
            else
              var one := rows[i := rows[i].(status := Processing)];
              Marked(rows, n) == Marked(one, n - 1) && Oldest(rows, n) == [rows[i]] + Oldest(one, n - 1)
  {
    if rows != [] {
      var i := FirstPending(rows);
      if i == 0 {
        MarkedSkip(rows[0].(status := Processing), rows[1..], n - 1);
        assert rows[0 := rows[0].(status := Processing)] == [rows[0].(status := Processing)] + rows[1..];
      } else {
        ClaimByOnes(rows[1..], n);
        if i < |rows| {
          var one := rows[1..][i - 1 := rows[i].(status := Processing)];
          assert rows[i := rows[i].(status := Processing)] == [rows[0]] + one;
          MarkedSkip(rows[0], one, n - 1);
        }
      }
    }
  }

  lemma MarkedSkip(r: Row, rows: seq<Row>, n: nat)
    requires !r.status.Pending?
    ensures Marked([r] + rows, n) == [r] + Marked(rows, n)
    ensures Oldest([r] + rows, n) == Oldest(rows, n)
  {
    assert ([r] + rows)[1..] == rows;
    if n == 0 { assert Marked(rows, 0) == rows && Oldest(rows, 0) == []; }
  }

  lemma SpawnKeepsKey(rows: seq<Row>, after: seq<Row>, m: Memory, row: Row, k: Key)
    requires KeySound(rows, m, k) && KeySound(rows, m, row.key) && TableInjective(m)
    requires Live(after, k) == Live(rows, k) + if k == row.key then [row.guid] else []
    ensures KeySound(after, Spawned(m, row), k)
  {
    if k == row.key && k !in m.table { assert Live(after, k) == [row.guid]; }
  }

  lemma SpawnKeepsTable(rows: seq<Row>, after: seq<Row>, m: Memory, row: Row)
    requires TableSound(rows, m)
    requires forall k :: Live(after, k) == Live(rows, k) + if k == row.key then [row.guid] else []
    ensures TableSound(after, Spawned(m, row))
  {
    assert KeySound(rows, m, row.key);
    forall k ensures KeySound(after, Spawned(m, row), k) {
      assert KeySound(rows, m, k);
      SpawnKeepsKey(rows, after, m, row, k);
    }
    assert TableInjective(Spawned(m, row)) by {
      forall k | k in m.table ensures m.table[k] < |m.heap| { assert KeySound(rows, m, k); }
    }
  }

  lemma ClaimOneRows(rows: seq<Row>, i: nat)
    requires Distinct(rows) && Ordered(rows) && i < |rows| && rows[i].status.Pending?
    requires forall j :: 0 <= j < i ==> !rows[j].status.Pending?
    ensures var after := rows[i := rows[i].(status := Processing)];
            && Distinct(after) && Ordered(after)
            && LiveGuids(after) == LiveGuids(rows) + {rows[i].guid} && rows[i].guid !in LiveGuids(rows)
            && forall k :: Live(after, k) == Live(rows, k) + if k == rows[i].key then [rows[i].guid] else []
  {
    var after := rows[i := rows[i].(status := Processing)];
    forall k ensures Live(after, k) == Live(rows, k) + if k == rows[i].key then [rows[i].guid] else [] {
      LiveAround(rows, i, Processing, k);
      if k == rows[i].key { LiveEmpty(rows[i + 1..], k); }
    }
    LiveGuidsAround(rows, i, Processing);
  }

  lemma SpawnKeepsTasks(rows: seq<Row>, after: seq<Row>, i: nat, m: Memory)
    requires TasksSound(rows, m) && i < |rows| && Distinct(rows)
    requires after == rows[i := rows[i].(status := Processing)]
    requires LiveGuids(after) == LiveGuids(rows) + {rows[i].guid}
    ensures TasksSound(after, Spawned(m, rows[i]))
  {
    var m' := Spawned(m, rows[i]);
    forall j | 0 <= j < |after| ensures RowSound(m', after[j]) {
      assert RowSound(m, rows[j]);
      assert j != i ==> rows[j].guid != rows[i].guid;
    }
  }

  lemma SpawnKeepsHolder(rows: seq<Row>, m: Memory, row: Row, g: Guid)
    requires KeySound(rows, m, row.key) && row.guid !in m.tasks && HoldsLock(m, g)
    ensures HoldsLock(Spawned(m, row), g)
  {
  }

  lemma ClaimOneKeeps(w: World, i: nat, slots: nat)
    requires Inv(w, slots) && w.up
    requires i < |w.rows| && w.rows[i].status.Pending?
    requires forall j :: 0 <= j < i ==> !w.rows[j].status.Pending?
    ensures Inv(World(w.rows[i := w.rows[i].(status := Processing)], true, Spawned(w.mem, w.rows[i])), slots)
  {
    var row := w.rows[i];
    var after := w.rows[i := row.(status := Processing)];
    ClaimOneRows(w.rows, i);
    SpawnKeepsTable(w.rows, after, w.mem, row);
    SpawnKeepsTasks(w.rows, after, i, w.mem);
    assert KeySound(w.rows, w.mem, row.key);
    forall g | g in w.mem.running ensures HoldsLock(Spawned(w.mem, row), g) {
      SpawnKeepsHolder(w.rows, w.mem, row, g);
    }
  }

  function Started(w: World, i: nat): World
    requires i < |w.rows|
  {
    World(w.rows[i := w.rows[i].(status := Processing)], true, Spawned(w.mem, w.rows[i]))
  }

  lemma ClaimNext(w: World, n: nat)
    requires w.up
    ensures var i := FirstPending(w.rows);
            Next(w, Claim(n)) == if n == 0 || i == |w.rows| then w else Next(Started(w, i), Claim(n - 1))
  {
    hide Spawned;
    var i := FirstPending(w.rows);
    if n > 0 {
      ClaimByOnes(w.rows, n);
      hide Marked, Oldest;
      if i < |w.rows| { assert Oldest(w.rows, n)[1..] == Oldest(Started(w, i).rows, n - 1); }
    } else {
      assert Marked(w.rows, 0) == w.rows && Oldest(w.rows, 0) == [];
    }
  }

  lemma {:induction false} ClaimKeeps(w: World, n: nat, slots: nat)
    requires Inv(w, slots) && w.up
    ensures Inv(Next(w, Claim(n)), slots)
    decreases n
  {
    hide Inv, Next, Spawned;
    var i := FirstPending(w.rows);
    ClaimNext(w, n);
    if n > 0 && i < |w.rows| {
      ClaimOneKeeps(w, i, slots);
      ClaimKeeps(Started(w, i), n - 1, slots);
    }
  }

  /** The head of a key's live list is a row with only finished rows of that key before it. */
  lemma HeadRow(rows: seq<Row>, i: nat)
    requires Distinct(rows) && Ordered(rows) && i < |rows| && rows[i].status.Processing?
    requires Live(rows, rows[i].key) != [] && Live(rows, rows[i].key)[0] == rows[i].guid
    ensures Live(rows[..i], rows[i].key) == []
    ensures forall j :: 0 <= j < i && rows[j].key == rows[i].key ==> Finished(rows[j].status)
  {
    var key := rows[i].key;
    var h := LiveIndex(rows, key, 0);
    assert h == i;
    forall j | 0 <= j < i && rows[j].key == key ensures Finished(rows[j].status) {
      NotLive(rows[..i], j, key);
      assert Rank(rows[j].status) <= Rank(rows[i].status);
    }
  }

  lemma NotLive(rows: seq<Row>, j: nat, key: Key)
    requires j < |rows| && rows[j].key == key && Live(rows, key) == []
    ensures !rows[j].status.Processing?
  {
    LiveAround(rows, j, Processing, key);
  }

  /** A task that runs is the head of its key's line. */
  lemma RunningRow(w: World, g: Guid, slots: nat) returns (i: nat)
    requires Inv(w, slots) && w.up && g in w.mem.running
    ensures i < |w.rows| && w.rows[i].guid == g && w.rows[i].status.Processing?
    ensures RowSound(w.mem, w.rows[i]) && w.mem.tasks[g].key == w.rows[i].key
    ensures Live(w.rows, w.rows[i].key) != [] && Live(w.rows, w.rows[i].key)[0] == g
  {
    assert HoldsLock(w.mem, g);
    i :| 0 <= i < |w.rows| && w.rows[i].status.Processing? && w.rows[i].guid == g;
    assert RowSound(w.mem, w.rows[i]);
    assert KeySound(w.rows, w.mem, w.rows[i].key);
  }

  lemma LeaveKeepsKey(rows: seq<Row>, after: seq<Row>, m: Memory, g: Guid, k: Key)
    requires g in m.tasks && m.tasks[g].key in m.table && m.tasks[g].lock == m.table[m.tasks[g].key]
    requires KeySound(rows, m, k) && KeySound(rows, m, m.tasks[g].key) && TableInjective(m)
    requires k == m.tasks[g].key ==> Live(rows, k) != [] && Live(after, k) == Live(rows, k)[1..]
    requires k != m.tasks[g].key ==> Live(after, k) == Live(rows, k)
    ensures KeySound(after, Left(m, g), k)
  {
  }

  lemma LeaveKeepsTable(rows: seq<Row>, after: seq<Row>, m: Memory, g: Guid)
    requires TableSound(rows, m) && g in m.tasks && m.tasks[g].key in m.table && m.tasks[g].lock == m.table[m.tasks[g].key]
    requires var key := m.tasks[g].key; Live(rows, key) != [] && Live(after, key) == Live(rows, key)[1..]
    requires forall k :: k != m.tasks[g].key ==> Live(after, k) == Live(rows, k)
    ensures TableSound(after, Left(m, g))
  {
    assert KeySound(rows, m, m.tasks[g].key);
    forall k ensures KeySound(after, Left(m, g), k) {
      assert KeySound(rows, m, k);
      LeaveKeepsKey(rows, after, m, g, k);
    }
  }

  lemma FinishLive(rows: seq<Row>, i: nat, s: Status, k: Key)
    requires i < |rows| && rows[i].status.Processing? && !s.Processing? && Live(rows[..i], rows[i].key) == []
    ensures var after := rows[i := rows[i].(status := s)];
            if k == rows[i].key then Live(rows, k) != [] && Live(after, k) == Live(rows, k)[1..] else Live(after, k) == Live(rows, k)
  {
    LiveAround(rows, i, s, k);
    if k == rows[i].key {
      assert Live([rows[i]], k) == [rows[i].guid];
      assert Live([rows[i].(status := s)], k) == [];
    }
  }

  lemma LeaveKeepsTasks(rows: seq<Row>, after: seq<Row>, i: nat, s: Status, m: Memory)
    requires Distinct(rows) && TasksSound(rows, m) && i < |rows| && rows[i].status.Processing?
    requires after == rows[i := rows[i].(status := s)] && !s.Processing?
    requires TableSound(after, Left(m, rows[i].guid))
    ensures TasksSound(after, Left(m, rows[i].guid))
  {
    var m' := Left(m, rows[i].guid);
    LiveGuidsAround(rows, i, s);
    forall j | 0 <= j < |after| ensures RowSound(m', after[j]) {
      assert RowSound(m, rows[j]);
      if after[j].status.Processing? {
        LiveAround(after, j, Processing, after[j].key);
        assert Live([after[j]], after[j].key) == [after[j].guid];
        assert KeySound(after, m', after[j].key);
      }
    }
  }

  lemma LeaveKeepsHolder(m: Memory, g: Guid, h: Guid)
    requires HoldsLock(m, g) && HoldsLock(m, h) && g != h
    ensures HoldsLock(Left(m, g), h)
  {
  }

  lemma FinishRows(rows: seq<Row>, i: nat, s: Status)
    requires Distinct(rows) && Ordered(rows) && i < |rows| && Finished(s)
    requires forall j :: 0 <= j < i && rows[j].key == rows[i].key ==> Finished(rows[j].status)
    ensures Distinct(rows[i := rows[i].(status := s)]) && Ordered(rows[i := rows[i].(status := s)])
  {
  }

  lemma FinishTable(rows: seq<Row>, i: nat, s: Status, m: Memory)
    requires TableSound(rows, m) && i < |rows| && rows[i].status.Processing? && RowSound(m, rows[i]) && !s.Processing?
    requires Live(rows[..i], rows[i].key) == []
    ensures TableSound(rows[i := rows[i].(status := s)], Left(m, rows[i].guid))
  {
    var after := rows[i := rows[i].(status := s)];
    forall k | k != rows[i].key ensures Live(after, k) == Live(rows, k) { FinishLive(rows, i, s, k); }
    FinishLive(rows, i, s, rows[i].key);
    LeaveKeepsTable(rows, after, m, rows[i].guid);
  }

  lemma FinishKeeps(w: World, g: Guid, ok: bool, slots: nat)
    requires Inv(w, slots) && w.up && g in w.mem.running
    ensures Inv(Next(w, Finish(g, ok)), slots)
  {
    hide Live, Stamped, HoldsLock, KeySound, Distinct, Ordered, LiveGuids, RowSound;
    var i := RunningRow(w, g, slots);
    var s := if ok then Done else Failed;
    HeadRow(w.rows, i);
    StampedAt(w.rows, i, s);
    FinishRows(w.rows, i, s);
    FinishTable(w.rows, i, s, w.mem);
    LeaveKeepsTasks(w.rows, w.rows[i := w.rows[i].(status := s)], i, s, w.mem);
    forall h | h in w.mem.running && h != g ensures HoldsLock(Left(w.mem, g), h) {
      LeaveKeepsHolder(w.mem, g, h);
    }
  }

  lemma EnterKeeps(w: World, g: Guid, slots: nat)
    requires Inv(w, slots) && Enabled(w, Enter(g), slots)
    ensures Inv(Next(w, Enter(g)), slots)
  {
    var m := Next(w, Enter(g)).mem;
    forall k ensures KeySound(w.rows, m, k) { assert KeySound(w.rows, w.mem, k); }
    forall i | 0 <= i < |w.rows| ensures RowSound(m, w.rows[i]) { assert RowSound(w.mem, w.rows[i]); }
  }

  lemma RestartKeeps(w: World, slots: nat)
    requires Inv(w, slots)
    ensures Inv(Next(w, Restart), slots)
  {
    RequeuedRows(w.rows);
    hide Distinct, Ordered, Live, LiveGuids;
    assert TableSound(Requeued(w.rows), NOTHING);
  }

  lemma RequeuedRows(rows: seq<Row>)
    requires Distinct(rows) && Ordered(rows)
    ensures var back := Requeued(rows);
            && Distinct(back) && Ordered(back) && LiveGuids(back) == {}
            && (forall k :: Live(back, k) == [])
            && (forall i :: 0 <= i < |back| ==> !back[i].status.Processing?)
  {
    NoneLive(Requeued(rows));
    hide Live, LiveGuids;
    forall i | 0 <= i < |rows| ensures Requeued(rows)[i].key == rows[i].key && Requeued(rows)[i].guid == rows[i].guid {}
  }

  lemma NoneLive(rows: seq<Row>)
    requires forall i :: 0 <= i < |rows| ==> !rows[i].status.Processing?
    ensures LiveGuids(rows) == {} && forall k :: Live(rows, k) == []
  {
    forall k ensures Live(rows, k) == [] { LiveEmpty(rows, k); }
  }

  lemma StepKeepsInv(w: World, s: Step, slots: nat)
    requires Inv(w, slots) && Enabled(w, s, slots)
    ensures Inv(Next(w, s), slots)
  {
    match s
    case Record(g, k) => RecordKeeps(w, g, k, slots);
    case Claim(n) => ClaimKeeps(w, n, slots);
    case Enter(g) => EnterKeeps(w, g, slots);
    case Finish(g, ok) => FinishKeeps(w, g, ok, slots);
    case Crash =>
    case Restart => RestartKeeps(w, slots);
  }

  lemma {:induction false} EveryRunKeepsInv(w: World, steps: seq<Step>, slots: nat)
    requires Inv(w, slots) && IsRun(w, steps, slots)
    ensures Inv(After(w, steps), slots)
    decreases |steps|
  {
    if steps != [] {
      StepKeepsInv(w, steps[0], slots);
      EveryRunKeepsInv(Next(w, steps[0]), steps[1..], slots);
    }
  }

  /** Main result: every reachable state, through any crashes and restarts, satisfies the invariant. */
  lemma ReachableIsSafe(steps: seq<Step>, slots: nat)
    requires IsRun(INIT, steps, slots)
    ensures Inv(After(INIT, steps), slots)
  {
    EveryRunKeepsInv(INIT, steps, slots);
  }

  // ------------------------------------------------------------------ what the invariant says

  /** The rows of one key, in arrival order. */
  function Of(rows: seq<Row>, key: Key): seq<Row> {
    if rows == [] then []
    else (if rows[0].key == key then [rows[0]] else []) + Of(rows[1..], key)
  }

  lemma {:induction false} OfIndex(rows: seq<Row>, key: Key, a: nat, b: nat) returns (i: nat, j: nat)
    requires a < b < |Of(rows, key)|
    ensures i < j < |rows| && rows[i] == Of(rows, key)[a] && rows[j] == Of(rows, key)[b]
    ensures rows[i].key == key && rows[j].key == key
  {
    var mine := if rows[0].key == key then 1 else 0;
    if a >= mine {
      i, j := OfIndex(rows[1..], key, a - mine, b - mine);
      i, j := i + 1, j + 1;
    } else if b == 1 {
      i := 0;
      j := OfFirst(rows[1..], key, 0);
      j := j + 1;
    } else {
      i := 0;
      j := OfFirst(rows[1..], key, b - 1);
      j := j + 1;
    }
  }

  lemma {:induction false} OfFirst(rows: seq<Row>, key: Key, a: nat) returns (i: nat)
    requires a < |Of(rows, key)|
    ensures i < |rows| && rows[i] == Of(rows, key)[a] && rows[i].key == key
  {
    if rows[0].key == key && a == 0 {
      i := 0;
    } else {
      i := OfFirst(rows[1..], key, if rows[0].key == key then a - 1 else a);
      i := i + 1;
    }
  }

  lemma {:induction false} LiveOf(rows: seq<Row>, key: Key)
    ensures Live(rows, key) == Live(Of(rows, key), key)
  {
    if rows != [] {
      LiveOf(rows[1..], key);
      LiveConcat(if rows[0].key == key then [rows[0]] else [], Of(rows[1..], key), key);
    }
  }

  function Guids(rows: seq<Row>): (r: seq<Guid>)
    ensures |r| == |rows| && forall i :: 0 <= i < |rows| ==> r[i] == rows[i].guid
  {
    if rows == [] then [] else [rows[0].guid] + Guids(rows[1..])
  }

  lemma {:induction false} LiveAll(rows: seq<Row>, key: Key)
    requires forall r :: r in rows ==> r.key == key && r.status.Processing?
    ensures Live(rows, key) == Guids(rows)
  {
    if rows != [] { LiveAll(rows[1..], key); }
  }

  /** How many of these rows rank below `rank`, when ranks only grow. */
  function Below(rows: seq<Row>, rank: nat): (n: nat)
    ensures n <= |rows| && forall i :: 0 <= i < n ==> Rank(rows[i].status) < rank
    ensures n < |rows| ==> Rank(rows[n].status) >= rank
  {
    if rows == [] || Rank(rows[0].status) >= rank then 0 else 1 + Below(rows[1..], rank)
  }

  lemma OfOrdered(rows: seq<Row>, key: Key)
    requires Ordered(rows)
    ensures Ordered(Of(rows, key)) && forall r :: r in Of(rows, key) ==> r.key == key
  {
    var own := Of(rows, key);
    forall i, j | 0 <= i < j < |own| ensures Rank(own[i].status) <= Rank(own[j].status) {
      var p, q := OfIndex(rows, key, i, j);
    }
    forall r | r in own ensures r.key == key {
      var n :| 0 <= n < |own| && own[n] == r;
      var i := OfFirst(rows, key, n);
    }
  }

  lemma ThreeParts(own: seq<Row>, key: Key) returns (a: nat, b: nat)
    requires Ordered(own) && forall r :: r in own ==> r.key == key
    ensures a <= b <= |own|
    ensures forall i :: 0 <= i < a ==> Finished(own[i].status)
    ensures forall i :: a <= i < b ==> own[i].status.Processing?
    ensures forall i :: b <= i < |own| ==> own[i].status.Pending?
    ensures Guids(own[a..b]) == Live(own, key)
  {
    hide Live, Guids;
    a, b := Below(own, 1), Below(own, 2);
    assert a <= b;
    LiveOfParts(own, key, a, b);
  }

  lemma LiveOfParts(own: seq<Row>, key: Key, a: nat, b: nat)
    requires a <= b <= |own| && forall r :: r in own ==> r.key == key
    requires forall i :: 0 <= i < a || b <= i < |own| ==> !own[i].status.Processing?
    requires forall i :: a <= i < b ==> own[i].status.Processing?
    ensures Guids(own[a..b]) == Live(own, key)
  {
    hide Live, Guids;
    assert own == own[..a] + own[a..b] + own[b..];
    LiveConcat(own[..a] + own[a..b], own[b..], key);
    LiveConcat(own[..a], own[a..b], key);
    LiveEmpty(own[..a], key);
    LiveEmpty(own[b..], key);
    LiveAll(own[a..b], key);
  }

  /**
   * Per-issue order: each key's deliveries, in arrival order, are a finished part, then exactly
   * the line of the key's lock, then a pending part.
   */
  lemma IssueOrder(w: World, key: Key, slots: nat) returns (a: nat, b: nat)
    requires Inv(w, slots) && w.up
    ensures var own := Of(w.rows, key);
            && a <= b <= |own|
            && (forall i :: 0 <= i < a ==> Finished(own[i].status))
            && (forall i :: a <= i < b ==> own[i].status.Processing?)
            && (forall i :: b <= i < |own| ==> own[i].status.Pending?)
            && (key !in w.mem.table ==> a == b)
            && (key in w.mem.table ==> w.mem.table[key] < |w.mem.heap| && Guids(own[a..b]) == w.mem.heap[w.mem.table[key]])
  {
    hide TasksSound, TableInjective, LiveGuids, HoldsLock, Live;
    OfOrdered(w.rows, key);
    var own := Of(w.rows, key);
    a, b := ThreeParts(own, key);
    LiveOf(w.rows, key);
    assert KeySound(w.rows, w.mem, key);
  }

  /** The live tasks of one key. */
  function TasksOf(m: Memory, key: Key): set<Guid> {
    set g | g in m.tasks && m.tasks[g].key == key
  }

  /** The line of a key's lock lists exactly the key's live tasks. */
  lemma LineIsTasks(w: World, key: Key, slots: nat)
    requires Inv(w, slots) && w.up
    ensures forall g :: g in Live(w.rows, key) <==> g in TasksOf(w.mem, key)
    ensures forall i, j :: 0 <= i < j < |Live(w.rows, key)| ==> Live(w.rows, key)[i] != Live(w.rows, key)[j]
  {
    forall g | g in Live(w.rows, key) ensures g in TasksOf(w.mem, key) {
      var n :| 0 <= n < |Live(w.rows, key)| && Live(w.rows, key)[n] == g;
      var i := LiveIndex(w.rows, key, n);
      assert RowSound(w.mem, w.rows[i]);
    }
    forall g | g in TasksOf(w.mem, key) ensures g in Live(w.rows, key) {
      assert g in LiveGuids(w.rows);
      var i :| 0 <= i < |w.rows| && w.rows[i].status.Processing? && w.rows[i].guid == g;
      assert RowSound(w.mem, w.rows[i]);
      LiveAround(w.rows, i, Processing, key);
      assert Live([w.rows[i]], key) == [g];
    }
    LiveDistinct(w.rows, key);
  }

  lemma {:induction false} LiveDistinct(rows: seq<Row>, key: Key)
    requires Distinct(rows)
    ensures forall i, j :: 0 <= i < j < |Live(rows, key)| ==> Live(rows, key)[i] != Live(rows, key)[j]
  {
    if rows != [] {
      LiveDistinct(rows[1..], key);
      forall n | 0 <= n < |Live(rows[1..], key)| ensures Live(rows[1..], key)[n] != rows[0].guid {
        var i := LiveIndex(rows[1..], key, n);
      }
    }
  }

  /**
   * The lock table: a key has a lock exactly while it has live tasks, its count is their number,
   * they all share that lock, no two deliveries of one key run at once, and no more than `slots`
   * run overall.
   */
  lemma LockTableSound(w: World, key: Key, slots: nat)
    requires Inv(w, slots) && w.up
    ensures key in w.mem.table <==> TasksOf(w.mem, key) != {}
    ensures key in w.mem.waiting <==> key in w.mem.table
    ensures key in w.mem.waiting ==> w.mem.waiting[key] == |TasksOf(w.mem, key)| > 0
    ensures forall g :: g in TasksOf(w.mem, key) ==> key in w.mem.table && w.mem.tasks[g].lock == w.mem.table[key]
    ensures forall g, h :: g in w.mem.running * TasksOf(w.mem, key) && h in w.mem.running * TasksOf(w.mem, key) ==> g == h
    ensures |w.mem.running| <= slots
  {
    hide Live, Distinct, Ordered, LiveGuids, RowSound, TasksSound;
    LineIsTasks(w, key, slots);
    CountDistinct(Live(w.rows, key));
    assert Elements(Live(w.rows, key)) == TasksOf(w.mem, key);
    assert KeySound(w.rows, w.mem, key);
    if Live(w.rows, key) != [] { assert Live(w.rows, key)[0] in TasksOf(w.mem, key); }
    forall g | g in TasksOf(w.mem, key) ensures key in w.mem.table && w.mem.tasks[g].lock == w.mem.table[key] {
      TaskLock(w, g, slots);
    }
    forall g, h | g in w.mem.running * TasksOf(w.mem, key) && h in w.mem.running * TasksOf(w.mem, key) ensures g == h {
      assert HoldsLock(w.mem, g) && HoldsLock(w.mem, h);
    }
  }

  lemma TaskLock(w: World, g: Guid, slots: nat)
    requires Inv(w, slots) && w.up && g in w.mem.tasks
    ensures w.mem.tasks[g].key in w.mem.table && w.mem.tasks[g].lock == w.mem.table[w.mem.tasks[g].key]
  {
    hide Live, Distinct, Ordered, KeySound, HoldsLock;
    assert g in LiveGuids(w.rows);
    var i :| 0 <= i < |w.rows| && w.rows[i].status.Processing? && w.rows[i].guid == g;
    assert RowSound(w.mem, w.rows[i]);
  }

  // ------------------------------------------------------------------ conservation over runs

  lemma {:induction false} ClaimKeepsRows(rows: seq<Row>, n: nat)
    ensures forall i :: 0 <= i < |rows| ==>
      Marked(rows, n)[i] == rows[i] || (rows[i].status.Pending? && Marked(rows, n)[i] == rows[i].(status := Processing))
  {
    if rows != [] && n > 0 {
      ClaimKeepsRows(rows[1..], if rows[0].status.Pending? then n - 1 else n);
    }
  }

  /** A step never drops or renames a row, and never touches a finished one. */
  lemma StepKeepsRows(w: World, s: Step, slots: nat)
    requires Inv(w, slots) && Enabled(w, s, slots)
    ensures var rows := Next(w, s).rows;
            && |w.rows| <= |rows|
            && forall i :: 0 <= i < |w.rows| ==>
                 && rows[i].guid == w.rows[i].guid && rows[i].key == w.rows[i].key
                 && (Finished(w.rows[i].status) ==> rows[i] == w.rows[i])
  {
    hide Live, Ordered, KeySound, TableSound, TasksSound, HoldsLock, LiveGuids, Left, Spawned, SpawnedAll, RowSound;
    match s
    case Claim(n) => ClaimKeepsRows(w.rows, n);
    case Finish(g, ok) =>
      var i := RunningRow(w, g, slots);
      StampedAt(w.rows, i, if ok then Done else Failed);
    case _ =>
  }

  function Finishes(steps: seq<Step>, g: Guid): nat {
    if steps == [] then 0
    else (if steps[0].Finish? && steps[0].guid == g then 1 else 0) + Finishes(steps[1..], g)
  }

  /** Once a delivery has finished, no later step of the run, crash or no crash, finishes it again. */
  lemma {:induction false} FinishedStays(w: World, i: nat, steps: seq<Step>, slots: nat)
    requires Inv(w, slots) && IsRun(w, steps, slots) && i < |w.rows| && Finished(w.rows[i].status)
    ensures |w.rows| <= |After(w, steps).rows| && After(w, steps).rows[i] == w.rows[i]
    ensures Finishes(steps, w.rows[i].guid) == 0
    ensures forall ok :: Finish(w.rows[i].guid, ok) !in steps
    decreases |steps|
  {
    hide Live, Ordered, KeySound, TableSound, TasksSound, HoldsLock, LiveGuids, Next, RowSound;
    if steps != [] {
      StepKeepsRows(w, steps[0], slots);
      StepKeepsInv(w, steps[0], slots);
      if steps[0].Finish? && steps[0].guid == w.rows[i].guid {
        var j := RunningRow(w, steps[0].guid, slots);
        assert false;
      }
      FinishedStays(Next(w, steps[0]), i, steps[1..], slots);
    }
  }

  /** A row becomes finished by its own `Finish` step and by nothing else: done if that succeeded, failed if not. */
  lemma FinishedByFinish(w: World, s: Step, i: nat, slots: nat)
    requires Inv(w, slots) && Enabled(w, s, slots) && i < |w.rows| && !Finished(w.rows[i].status)
    ensures i < |Next(w, s).rows|
    ensures var row := Next(w, s).rows[i];
            && (row.status == Done <==> s == Finish(w.rows[i].guid, true))
            && (row.status == Failed <==> s == Finish(w.rows[i].guid, false))
  {
    hide Live, Ordered, KeySound, TableSound, TasksSound, HoldsLock, LiveGuids, Left, SpawnedAll, RowSound;
    match s
    case Claim(n) => ClaimKeepsRows(w.rows, n);
    case Finish(g, ok) =>
      var j := RunningRow(w, g, slots);
      StampedAt(w.rows, j, if ok then Done else Failed);
    case _ =>
  }

  /**
   * Conservation: over any run, crashes included, no recorded delivery is lost, none is recorded
   * twice, and each is finished at most once - exactly once when its row ends up finished, which is
   * done exactly if it was finished without an error and failed exactly if with one.
   */
  lemma {:induction false} Conservation(w: World, i: nat, steps: seq<Step>, slots: nat)
    requires Inv(w, slots) && IsRun(w, steps, slots) && i < |w.rows| && !Finished(w.rows[i].status)
    ensures var rows := After(w, steps).rows;
            && Distinct(rows)
            && |w.rows| <= |rows| && rows[i].guid == w.rows[i].guid && rows[i].key == w.rows[i].key
            && Finishes(steps, w.rows[i].guid) == (if Finished(rows[i].status) then 1 else 0)
            && (rows[i].status == Done <==> Finish(w.rows[i].guid, true) in steps)
            && (rows[i].status == Failed <==> Finish(w.rows[i].guid, false) in steps)
    decreases |steps|
  {
    hide Live, Ordered, KeySound, TableSound, TasksSound, HoldsLock, LiveGuids, Next, RowSound;
    if steps != [] {
      var s, next, g := steps[0], Next(w, steps[0]), w.rows[i].guid;
      StepKeepsRows(w, s, slots);
      StepKeepsInv(w, s, slots);
      EveryRunKeepsInv(next, steps[1..], slots);
      FinishedByFinish(w, s, i, slots);
      assert forall ok :: Finish(g, ok) in steps <==> Finish(g, ok) == s || Finish(g, ok) in steps[1..];
      if s.Finish? && s.guid == g {
        FinishedStays(next, i, steps[1..], slots);
      } else {
        Conservation(next, i, steps[1..], slots);
      }
    }
  }

  /** The issue a delivery was first recorded for. */
  function FirstKey(steps: seq<Step>, g: Guid): Option<Key> {
    if steps == [] then None
    else if steps[0].Record? && steps[0].guid == g then Some(steps[0].key)
    else FirstKey(steps[1..], g)
  }

  predicate HasKey(rows: seq<Row>, g: Guid, k: Key) { exists i :: 0 <= i < |rows| && rows[i].guid == g && rows[i].key == k }

  lemma StepAddsRecorded(w: World, s: Step, g: Guid, k: Key, slots: nat)
    requires Inv(w, slots) && Enabled(w, s, slots)
    ensures HasKey(Next(w, s).rows, g, k) <==>
            HasKey(w.rows, g, k) || (s == Record(g, k) && forall i :: 0 <= i < |w.rows| ==> w.rows[i].guid != g)
  {
    StepKeepsRows(w, s, slots);
    hide Inv, Marked, Stamped, Requeued, SpawnedAll, Left;
    var rows := Next(w, s).rows;
    if i :| 0 <= i < |w.rows| && w.rows[i].guid == g && w.rows[i].key == k {
      assert rows[i].guid == g && rows[i].key == k;
    }
    if s == Record(g, k) && forall i :: 0 <= i < |w.rows| ==> w.rows[i].guid != g {
      assert rows[|w.rows|] == Row(g, k, Pending);
    }
  }

  lemma {:induction false} RunAddsRecorded(w: World, steps: seq<Step>, g: Guid, k: Key, slots: nat)
    requires Inv(w, slots) && IsRun(w, steps, slots)
    ensures HasKey(After(w, steps).rows, g, k) <==>
            HasKey(w.rows, g, k) || ((forall i :: 0 <= i < |w.rows| ==> w.rows[i].guid != g) && FirstKey(steps, g) == Some(k))
    decreases |steps|
  {
    if steps != [] {
      var s, next := steps[0], Next(w, steps[0]);
      StepKeepsInv(w, s, slots);
      StepKeepsRows(w, s, slots);
      StepAddsRecorded(w, s, g, k, slots);
      if s.Record? {
        StepAddsRecorded(w, s, g, s.key, slots);
        assert forall i :: |w.rows| <= i < |next.rows| ==> next.rows[i] == Row(s.guid, s.key, Pending);
      }
      hide Inv, Marked, Stamped, Requeued, SpawnedAll, Left, Enabled;
      assert |next.rows| == |w.rows| || s.Record?;
      RunAddsRecorded(next, steps[1..], g, k, slots);
    }
  }

  /**
   * Nothing recorded is lost and nothing else gets in: from an empty start, through any run, the ledger
   * has a row for exactly the deliveries recorded in it, each for the issue it was first recorded for.
   */
  lemma RowsAreRecordings(steps: seq<Step>, g: Guid, k: Key, slots: nat)
    requires IsRun(INIT, steps, slots)
    ensures (exists i :: 0 <= i < |After(INIT, steps).rows| && After(INIT, steps).rows[i].guid == g && After(INIT, steps).rows[i].key == k)
            <==> FirstKey(steps, g) == Some(k)
  {
    ReachableIsSafe([], slots);
    RunAddsRecorded(INIT, steps, g, k, slots);
  }

  /** Processing is exactly the live tasks, and a crash followed by a restart puts them all back. */
  lemma CrashLosesNothing(w: World, slots: nat)
    requires Inv(w, slots) && w.up
    ensures LiveGuids(w.rows) == w.mem.tasks.Keys
    ensures var back := Next(Next(w, Crash), Restart);
            && back.up && |back.rows| == |w.rows| && LiveGuids(back.rows) == {}
            && forall i :: 0 <= i < |w.rows| ==>
                 && back.rows[i].guid == w.rows[i].guid
                 && (back.rows[i].status.Pending? <==> !Finished(w.rows[i].status))
                 && (Finished(w.rows[i].status) ==> back.rows[i] == w.rows[i])
  {
  }

  // ------------------------------------------------------------------ the queue drains

  function Weight(rows: seq<Row>, running: set<Guid>): nat {
    if rows == [] then 0
    else (match rows[0].status
          case Pending => 3
          case Processing => if rows[0].guid in running then 1 else 2
          case _ => 0) + Weight(rows[1..], running)
  }

  /** The worker's own moves, when they have something to do. */
  predicate Works(w: World, s: Step, slots: nat) {
    && Enabled(w, s, slots)
    && match s
       case Claim(n) => n > 0 && exists i :: 0 <= i < |w.rows| && w.rows[i].status.Pending?
       case Enter(_) => true
       case Finish(_, _) => true
       case _ => false
  }

  /** Nothing waits forever for a move: while a delivery is unfinished the worker has one. */
  lemma WorkerNeverStuck(w: World, i: nat, slots: nat) returns (s: Step)
    requires Inv(w, slots) && w.up && slots > 0 && i < |w.rows| && !Finished(w.rows[i].status)
    ensures Works(w, s, slots)
  {
    if w.rows[i].status.Pending? {
      s := Claim(1);
    } else if w.mem.running != {} {
      var g :| g in w.mem.running;
      s := Finish(g, true);
    } else {
      var key := w.rows[i].key;
      assert RowSound(w.mem, w.rows[i]) && KeySound(w.rows, w.mem, key);
      var head := LiveIndex(w.rows, key, 0);
      assert RowSound(w.mem, w.rows[head]);
      s := Enter(w.rows[head].guid);
    }
  }

  lemma {:induction false} WeightAt(rows: seq<Row>, i: nat, s: Status, running: set<Guid>, after: set<Guid>)
    requires i < |rows| && forall j :: 0 <= j < |rows| && j != i ==> (rows[j].guid in running <==> rows[j].guid in after)
    ensures Weight(rows[i := rows[i].(status := s)], after) + Weight([rows[i]], running)
         == Weight(rows, running) + Weight([rows[i].(status := s)], after)
  {
    if i == 0 {
      assert rows[0 := rows[0].(status := s)][1..] == rows[1..];
      SameWeight(rows[1..], running, after);
    } else {
      assert rows[i := rows[i].(status := s)][1..] == rows[1..][i - 1 := rows[i].(status := s)];
      WeightAt(rows[1..], i - 1, s, running, after);
    }
  }

  lemma {:induction false} SameWeight(rows: seq<Row>, running: set<Guid>, after: set<Guid>)
    requires forall j :: 0 <= j < |rows| ==> (rows[j].guid in running <==> rows[j].guid in after)
    ensures Weight(rows, running) == Weight(rows, after)
  {
    if rows != [] { SameWeight(rows[1..], running, after); }
  }

  lemma {:induction false} ClaimLightens(rows: seq<Row>, n: nat, running: set<Guid>)
    ensures Weight(Marked(rows, n), running) <= Weight(rows, running)
    ensures n > 0 && (exists i :: 0 <= i < |rows| && rows[i].status.Pending?) ==> Weight(Marked(rows, n), running) < Weight(rows, running)
  {
    if rows != [] && n > 0 {
      ClaimLightens(rows[1..], if rows[0].status.Pending? then n - 1 else n, running);
      if !rows[0].status.Pending? {
        forall i | 0 <= i < |rows| && rows[i].status.Pending? ensures rows[1..][i - 1].status.Pending? {}
      }
    }
  }

  lemma EnterLightens(w: World, g: Guid, slots: nat)
    requires Inv(w, slots) && Enabled(w, Enter(g), slots)
    ensures Weight(w.rows, w.mem.running + {g}) < Weight(w.rows, w.mem.running)
  {
    hide Live, Ordered, KeySound, TableSound, RowSound;
    assert g in LiveGuids(w.rows);
    var i :| 0 <= i < |w.rows| && w.rows[i].status.Processing? && w.rows[i].guid == g;
    WeightAt(w.rows, i, Processing, w.mem.running, w.mem.running + {g});
    assert w.rows[i := w.rows[i].(status := Processing)] == w.rows;
  }

  lemma FinishLightens(w: World, g: Guid, t: Status, slots: nat)
    requires Inv(w, slots) && w.up && g in w.mem.running && Finished(t)
    ensures Weight(Stamped(w.rows, g, t), w.mem.running - {g}) < Weight(w.rows, w.mem.running)
  {
    hide Live, Ordered, KeySound, TableSound, RowSound, HoldsLock, TasksSound;
    var i := RunningRow(w, g, slots);
    StampedAt(w.rows, i, t);
    WeightAt(w.rows, i, t, w.mem.running, w.mem.running - {g});
  }

  lemma WorkLightens(w: World, s: Step, slots: nat)
    requires Inv(w, slots) && Works(w, s, slots)
    ensures Next(w, s).up && Weight(Next(w, s).rows, Next(w, s).mem.running) < Weight(w.rows, w.mem.running)
  {
    hide Inv, Weight, Spawned, SpawnedAll, Stamped, HoldsLock;
    match s
    case Claim(n) =>
      SpawnRunning(w.mem, Oldest(w.rows, n));
      ClaimLightens(w.rows, n, w.mem.running);
    case Enter(g) => EnterLightens(w, g, slots);
    case Finish(g, ok) => FinishLightens(w, g, if ok then Done else Failed, slots);
  }

  lemma {:induction false} SpawnRunning(m: Memory, batch: seq<Row>)
    ensures SpawnedAll(m, batch).running == m.running
    decreases |batch|
  {
    if batch != [] { SpawnRunning(Spawned(m, batch[0]), batch[1..]); }
  }

  predicate IsWork(w: World, steps: seq<Step>, slots: nat)
    decreases |steps|
  {
    steps == [] || (Works(w, steps[0], slots) && IsWork(Next(w, steps[0]), steps[1..], slots))
  }

  /**
   * The queue drains: however the worker interleaves its moves, it makes at most `Weight` of them,
   * and when it has none left every recorded delivery is finished.
   */
  lemma {:induction false} QueueDrains(w: World, steps: seq<Step>, slots: nat)
    requires Inv(w, slots) && w.up && slots > 0 && IsWork(w, steps, slots)
    ensures |steps| <= Weight(w.rows, w.mem.running)
    ensures var end := After(w, steps);
            (forall s :: !Works(end, s, slots)) ==> forall i :: 0 <= i < |end.rows| ==> Finished(end.rows[i].status)
    decreases |steps|
  {
    hide Inv, Next, HoldsLock;
    if steps == [] {
      forall i | 0 <= i < |w.rows| && !Finished(w.rows[i].status) ensures exists s :: Works(w, s, slots) {
        var s := WorkerNeverStuck(w, i, slots);
      }
    } else {
      WorkLightens(w, steps[0], slots);
      StepKeepsInv(w, steps[0], slots);
      QueueDrains(Next(w, steps[0]), steps[1..], slots);
      assert After(w, steps) == After(Next(w, steps[0]), steps[1..]);
    }
  }
}
