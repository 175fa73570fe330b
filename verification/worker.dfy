/**
 * The ledger and the worker as the code writes them: objects whose methods update their fields.
 * Each method is proved to make exactly one step of the transition system of `Deliveries`.
 */
module DeliveryWorker {
  import opened Deliveries

  /** `update ... where delivery_guid = guid and status = 'pending'`. */
  function Taken(rows: seq<Row>, guid: Guid): (r: seq<Row>)
    ensures |r| == |rows|
    ensures forall i :: 0 <= i < |rows| ==>
      r[i] == if rows[i].guid == guid && rows[i].status.Pending? then rows[i].(status := Processing) else rows[i]
  {
    if rows == [] then []
    else [if rows[0].guid == guid && rows[0].status.Pending? then rows[0].(status := Processing) else rows[0]]
         + Taken(rows[1..], guid)
  }

  /** The j-th row of a batch is the only row its update touches, and comes next in claim order. */
  lemma {:induction false} TakesNext(rows: seq<Row>, limit: nat, j: nat) returns (i: nat)
    requires j < |Oldest(rows, limit)|
    ensures i < |rows| && rows[i].status.Pending? && Oldest(rows, limit)[j] == rows[i]
    ensures Marked(rows, j)[i] == rows[i]
    ensures Marked(rows, j + 1) == Marked(rows, j)[i := rows[i].(status := Processing)]
  {
    if rows[0].status.Pending? && j == 0 {
      i := 0;
      MarkedNone(rows);
      MarkedNone(rows[1..]);
    } else {
      var k := if rows[0].status.Pending? then j - 1 else j;
      i := TakesNext(rows[1..], if rows[0].status.Pending? then limit - 1 else limit, k);
      i := i + 1;
      MarkedNone(rows);
      MarkedNone(rows[1..]);
    }
  }

  lemma MarkedNone(rows: seq<Row>)
    ensures Marked(rows, 0) == rows
  {
  }

  lemma TakenIsNext(rows: seq<Row>, limit: nat, j: nat)
    requires Distinct(rows) && j < |Oldest(rows, limit)|
    ensures Taken(Marked(rows, j), Oldest(rows, limit)[j].guid) == Marked(rows, j + 1)
    ensures exists i :: 0 <= i < |rows| && Marked(rows, j)[i] == Oldest(rows, limit)[j] && Marked(rows, j)[i].status.Pending?
  {
    hide Marked, Oldest;
    var i := TakesNext(rows, limit, j);
    ClaimKeepsRows(rows, j);
  }

  class Ledger {
    var rows: seq<Row>

    constructor ()
      ensures rows == []
    {
      rows := [];
    }

    /** Insert a delivery; false if the guid was already seen. */
    method RecordDelivery(guid: Guid, key: Key) returns (isNew: bool)
      modifies this
      ensures rows == Recorded(old(rows), guid, key)
      ensures isNew <==> forall i :: 0 <= i < |old(rows)| ==> old(rows)[i].guid != guid
      ensures rows == if isNew then old(rows) + [Row(guid, key, Pending)] else old(rows)
    {
      var i := 0;
      while i < |rows| && rows[i].guid != guid
        invariant i <= |rows| && forall j :: 0 <= j < i ==> rows[j].guid != guid
      {
        i := i + 1;
      }
      isNew := i == |rows|;
      if isNew { rows := rows + [Row(guid, key, Pending)]; }
    }

    /** Move up to `limit` pending deliveries to processing, oldest first. */
    method ClaimPending(limit: nat) returns (claimed: seq<Row>)
      requires Distinct(rows)
      modifies this
      ensures rows == Marked(old(rows), limit)
      ensures claimed == Oldest(old(rows), limit)
    {
      hide Marked, Oldest;
      ghost var was := rows;
      var selected := Oldest(rows, limit);
      claimed := [];
      MarkedNone(rows);
      for j := 0 to |selected|
        invariant rows == Marked(was, j) && claimed == selected[..j]
      {
        TakenIsNext(was, limit, j);
        var hit := exists i :: 0 <= i < |rows| && rows[i].guid == selected[j].guid && rows[i].status.Pending?;
        assert hit;
        rows := Taken(rows, selected[j].guid);
        if hit { claimed := claimed + [selected[j]]; }
      }
      AllSelected(was, limit);
    }

    method FinishDelivery(guid: Guid, failed: bool)
      modifies this
      ensures rows == Stamped(old(rows), guid, if failed then Failed else Done)
    {
      rows := Stamped(rows, guid, if failed then Failed else Done);
    }

    /** On startup: anything left in processing died with an earlier process. */
    method RequeueProcessing() returns (count: nat)
      modifies this
      ensures rows == Requeued(old(rows))
      ensures count == |set i | 0 <= i < |old(rows)| && old(rows)[i].status.Processing?|
    {
      count := |set i | 0 <= i < |rows| && rows[i].status.Processing?|;
      rows := Requeued(rows);
    }
  }

  /** A batch shorter than its limit took every pending row. */
  lemma {:induction false} AllSelected(rows: seq<Row>, limit: nat)
    ensures |Oldest(rows, limit)| <= limit
    ensures Marked(rows, |Oldest(rows, limit)|) == Marked(rows, limit)
  {
    if rows != [] && limit > 0 {
      AllSelected(rows[1..], if rows[0].status.Pending? then limit - 1 else limit);
      if !rows[0].status.Pending? && |Oldest(rows[1..], limit)| == 0 { MarkedNone(rows[1..]); }
    }
  }

  lemma SafeRows(w: World, slots: nat)
    requires Inv(w, slots)
    ensures Distinct(w.rows)
  {
  }

  /** A running task is counted, and heads the line of its lock. */
  lemma Counted(w: World, g: Guid, slots: nat)
    requires Inv(w, slots) && w.up && g in w.mem.running
    ensures HoldsLock(w.mem, g)
    ensures w.mem.tasks[g].key in w.mem.waiting && w.mem.waiting[w.mem.tasks[g].key] > 0
  {
    assert HoldsLock(w.mem, g);
    LockTableSound(w, w.mem.tasks[g].key, slots);
    assert g in TasksOf(w.mem, w.mem.tasks[g].key);
  }

  class Worker {
    const ledger: Ledger
    const slots: nat
    var up: bool
    var issueLocks: map<Key, nat>
    var waiting: map<Key, nat>
    /** Every lock object made since the start; entry n is who holds and who queues on the n-th. */
    var locks: seq<seq<Guid>>
    var tasks: map<Guid, Task>
    var running: set<Guid>

    ghost function Mem(): Memory
      reads this
    {
      Memory(issueLocks, waiting, locks, tasks, running)
    }

    ghost function State(): World
      reads this, ledger
    {
      World(ledger.rows, up, Mem())
    }

    constructor (ledger: Ledger, concurrency: nat)
      ensures this.ledger == ledger && slots == if concurrency > 1 then concurrency else 1
      ensures State() == World(ledger.rows, false, NOTHING)
    {
      this.ledger := ledger;
      slots := if concurrency > 1 then concurrency else 1;
      up, issueLocks, waiting, locks, tasks, running := false, map[], map[], [], map[], {};
    }

    /** The worker loop starts: whatever an earlier process left in processing is pending again. */
    method Start() returns (requeued: nat)
      requires Inv(State(), slots) && !up
      modifies this, ledger
      ensures State() == Next(old(State()), Restart) && Inv(State(), slots)
    {
      hide Inv, Requeued;
      RestartKeeps(State(), slots);
      requeued := ledger.RequeueProcessing();
      up, issueLocks, waiting, locks, tasks, running := true, map[], map[], [], map[], {};
    }

    /** One pass of the loop: claim a batch, then queue a task for each delivery in claim order. */
    method Pass(limit: nat) returns (batch: seq<Row>)
      requires Inv(State(), slots) && up
      modifies this, ledger
      ensures State() == Next(old(State()), Claim(limit)) && Inv(State(), slots)
    {
      hide Inv, Spawned, Marked, Oldest;
      ghost var was, start := State(), Mem();
      SafeRows(State(), slots);
      ClaimKeeps(State(), limit, slots);
      batch := ledger.ClaimPending(limit);
      for j := 0 to |batch|
        invariant up && ledger.rows == Marked(was.rows, limit)
        invariant SpawnedAll(start, batch) == SpawnedAll(Mem(), batch[j..])
      {
        assert batch[j..][0] == batch[j] && batch[j..][1..] == batch[j + 1..];
        Spawn(batch[j]);
      }
    }

    method Spawn(item: Row)
      modifies this
      ensures Mem() == Spawned(old(Mem()), item) && up == old(up)
    {
      if item.key !in issueLocks {
        issueLocks := issueLocks[item.key := |locks|];
        locks := locks + [[]];
      }
      var lock := issueLocks[item.key];
      waiting := waiting[item.key := (if item.key in waiting then waiting[item.key] else 0) + 1];
      if lock < |locks| { locks := locks[lock := locks[lock] + [item.guid]]; }
      tasks := tasks[item.guid := Task(item.key, lock)];
    }

    /** A task at the head of its issue's lock takes a worker slot. */
    method Begin(guid: Guid)
      requires Inv(State(), slots) && Enabled(State(), Enter(guid), slots)
      modifies this
      ensures State() == Next(old(State()), Enter(guid)) && Inv(State(), slots)
    {
      EnterKeeps(State(), guid, slots);
      running := running + {guid};
    }

    /** The processor returned: stamp the row, leave lock and slot, drop the lock if nobody waits. */
    method End(guid: Guid, failed: bool)
      requires Inv(State(), slots) && up && guid in running
      modifies this, ledger
      ensures State() == Next(old(State()), Finish(guid, !failed)) && Inv(State(), slots)
      ensures |ledger.rows| == |old(ledger.rows)|
      ensures forall i :: 0 <= i < |ledger.rows| ==>
        ledger.rows[i] == var row := old(ledger.rows)[i];
          if row.guid != guid then row else row.(status := if failed then Failed else Done)
    {
      hide Inv;
      ghost var was := State();
      Counted(was, guid, slots);
      FinishKeeps(State(), guid, !failed, slots);
      ledger.FinishDelivery(guid, failed);
      var Task(key, lock) := tasks[guid];
      locks := locks[lock := locks[lock][1..]];
      running, tasks := running - {guid}, tasks - {guid};
      waiting := waiting[key := waiting[key] - 1];
      if waiting[key] == 0 {
        waiting := waiting - {key};
        issueLocks := issueLocks - {key};
      }
      assert Mem() == Left(was.mem, guid);
    }
  }
}
