/**
  The background tasks of a session: records, cancel tokens and output buffers
  (core/src/background.rs, core/src/app.rs).
 */
module TaskRegistry {
  import opened Prelude
  import opened TurnGates
  import opened TaskOutputs

  const MAX_TASKS_RETAINED := 50
  const MAX_TASK_SUMMARY := 800

  datatype TaskStatus = Running | Done | Failed | Cancelled

  datatype TaskRecord = TaskRecord(taskId: string, status: TaskStatus, summary: Option<string>)

  type Records = seq<TaskRecord>

  function Ids(tasks: Records): set<string> {
    set t | t in tasks :: t.taskId
  }

  function RunningIds(tasks: Records): set<string> {
    set t | t in tasks && t.status == Running :: t.taskId
  }

  /** No other record has the id of a running one. */
  predicate RunningUnique(tasks: Records) {
    forall i, j :: 0 <= i < |tasks| && 0 <= j < |tasks| && i != j && tasks[i].status == Running ==>
      tasks[i].taskId != tasks[j].taskId
  }

  /** The newest records, as many as are kept. */
  function Newest(tasks: Records): (r: Records)
    ensures |r| == if |tasks| > MAX_TASKS_RETAINED then MAX_TASKS_RETAINED else |tasks|
  {
    if |tasks| > MAX_TASKS_RETAINED then tasks[|tasks| - MAX_TASKS_RETAINED..] else tasks
  }

  /** The older records that make room for them. */
  function Evicted(tasks: Records): Records {
    tasks[..|tasks| - |Newest(tasks)|]
  }

  /** The index of the first record of a task. */
  function IndexOf(tasks: Records, id: string, i: nat): (r: int)
    requires i <= |tasks|
    ensures r == -1 ==> forall k :: i <= k < |tasks| ==> tasks[k].taskId != id
    ensures r != -1 ==> i <= r < |tasks| && tasks[r].taskId == id
    decreases |tasks| - i
  {
    if i == |tasks| then -1 else if tasks[i].taskId == id then i else IndexOf(tasks, id, i + 1)
  }

  /** The status a finished task's record gets. */
  function FinalStatus(outcome: string): TaskStatus {
    if outcome == "done" then Done else if outcome == "cancelled" then Cancelled else Failed
  }

  function Finalized(t: TaskRecord, outcome: string, summary: string): TaskRecord {
    t.(status := FinalStatus(outcome), summary := Some(Last(summary, MAX_TASK_SUMMARY)))
  }

  /** A record as a restart leaves it: nothing runs any more. */
  function Restarted(t: TaskRecord): TaskRecord {
    if t.status == Running then t.(status := Failed, summary := Some("interrupted by server restart")) else t
  }

  // ── What the operations do to the two id sets ───────────────────────────────

  lemma IdsSplit(a: Records, b: Records)
    ensures Ids(a + b) == Ids(a) + Ids(b)
    ensures RunningIds(a + b) == RunningIds(a) + RunningIds(b)
  {
    assert forall t :: t in a + b <==> t in a || t in b;
  }

  /** Dropping the oldest records leaves the running ones but theirs, and no id that was not there. */
  lemma IdsDropped(tasks: Records, n: nat)
    requires RunningUnique(tasks) && n <= |tasks|
    ensures RunningUnique(tasks[n..])
    ensures Ids(tasks) - Ids(tasks[..n]) <= Ids(tasks[n..])
    ensures RunningIds(tasks[n..]) == RunningIds(tasks) - Ids(tasks[..n])
  {
    assert tasks == tasks[..n] + tasks[n..];
    IdsSplit(tasks[..n], tasks[n..]);
    KeptElsewhere(tasks, n);
    assert RunningIds(tasks[..n]) <= Ids(tasks[..n]);
  }

  /** A running record that is kept shares its id with none that is dropped. */
  lemma KeptElsewhere(tasks: Records, n: nat)
    requires RunningUnique(tasks) && n <= |tasks|
    ensures RunningUnique(tasks[n..])
    ensures RunningIds(tasks[n..]) !! Ids(tasks[..n])
  {
    forall id | id in RunningIds(tasks[n..]) ensures id !in Ids(tasks[..n]) {
      var j :| n <= j < |tasks| && tasks[j].taskId == id && tasks[j].status == Running;
      assert forall k :: 0 <= k < n ==> tasks[k].taskId != id;
    }
    forall i, j | 0 <= i < |tasks[n..]| && 0 <= j < |tasks[n..]| && i != j && tasks[n..][i].status == Running
      ensures tasks[n..][i].taskId != tasks[n..][j].taskId
    {
      assert tasks[n + i].taskId != tasks[n + j].taskId;
    }
  }

  lemma IdsJoined(tasks: Records, record: TaskRecord)
    requires record.status == Running
    ensures Ids(tasks + [record]) == Ids(tasks) + {record.taskId}
    ensures RunningIds(tasks + [record]) == RunningIds(tasks) + {record.taskId}
  {
    IdsSplit(tasks, [record]);
    assert Ids([record]) == {record.taskId} && RunningIds([record]) == {record.taskId};
  }

  /** The maps after a registration are in step with the newest records, if the id is fresh. */
  lemma IdsRegistered(tasks: Records, record: TaskRecord)
    requires RunningUnique(tasks) && record.status == Running && record.taskId !in Ids(tasks)
    ensures var all := tasks + [record];
            && RunningUnique(Newest(all)) && record.taskId !in Ids(Evicted(all))
            && Ids(tasks) + {record.taskId} - Ids(Evicted(all)) <= Ids(Newest(all))
            && RunningIds(Newest(all)) == RunningIds(tasks) + {record.taskId} - Ids(Evicted(all))
  {
    var all := tasks + [record];
    var n := |all| - |Newest(all)|;
    IdsJoined(tasks, record);
    assert RunningUnique(all) by {
      assert forall t <- tasks :: t.taskId in Ids(tasks);
    }
    IdsDropped(all, n);
    assert Newest(all) == all[n..] && all[..n] == tasks[..n];
  }

  /** At most fifty records are kept, the new one last and the newest others before it. */
  ghost predicate KeepsNewest(tasks: Records, record: TaskRecord, kept: Records) {
    && |kept| == (if |tasks| < 50 then |tasks| + 1 else 50) && kept[|kept| - 1] == record
    && forall i :: 0 <= i < |kept| - 1 ==> kept[i] == tasks[i + 1 + |tasks| - |kept|]
  }

  lemma NewestAre(tasks: Records, record: TaskRecord)
    ensures KeepsNewest(tasks, record, Newest(tasks + [record]))
  {}

  /** With an id that is recorded already, the newest records and the maps can not be in step. */
  lemma IdsRepeated(tasks: Records, record: TaskRecord)
    requires record.status == Running && record.taskId in Ids(tasks)
    ensures var all := tasks + [record];
            RunningUnique(Newest(all)) ==>
              record.taskId in RunningIds(Newest(all)) && record.taskId in Ids(Evicted(all))
  {
    var all := tasks + [record];
    var n := |all| - |Newest(all)|;
    var kept := Newest(all);
    assert kept == all[n..] && kept[|kept| - 1] == record && record in kept;
    var i :| 0 <= i < |tasks| && tasks[i].taskId == record.taskId;
    if i < n {
      assert Evicted(all)[i] == tasks[i] && tasks[i] in Evicted(all);
    } else {
      assert kept[i - n] == tasks[i];
    }
  }

  /** The two sets of ids the maps have are in step with the records. */
  ghost predicate InStep(tasks: Records, cancellers: set<string>, outputs: set<string>) {
    RunningUnique(tasks) && cancellers == RunningIds(tasks) && outputs <= Ids(tasks)
  }

  lemma StepOfRegistration(tasks: Records, record: TaskRecord, cancellers: set<string>, outputs: set<string>)
    requires InStep(tasks, cancellers, outputs) && record.status == Running
    ensures var all, id := tasks + [record], {record.taskId};
            InStep(Newest(all), cancellers + id - Ids(Evicted(all)), outputs + id - Ids(Evicted(all)))
            <==> record.taskId !in Ids(tasks)
  {
    if record.taskId !in Ids(tasks) {
      IdsRegistered(tasks, record);
    } else {
      IdsRepeated(tasks, record);
    }
  }

  lemma IdsFinalized(tasks: Records, i: nat, t: TaskRecord)
    requires RunningUnique(tasks) && i < |tasks| && t.taskId == tasks[i].taskId && t.status != Running
    ensures Ids(tasks[i := t]) == Ids(tasks)
    ensures RunningIds(tasks[i := t]) == RunningIds(tasks) - {t.taskId}
  {
    var now := tasks[i := t];
    forall id ensures id in Ids(now) <==> id in Ids(tasks) {
      if id in Ids(now) {
        var k :| 0 <= k < |now| && now[k].taskId == id;
        assert tasks[k] in tasks;
      }
      if id in Ids(tasks) {
        var k :| 0 <= k < |tasks| && tasks[k].taskId == id;
        assert now[k] in now;
      }
    }
    forall id ensures id in RunningIds(now) <==> id in RunningIds(tasks) && id != t.taskId {
      if id in RunningIds(now) {
        var k :| 0 <= k < |now| && now[k].taskId == id && now[k].status == Running;
        assert k != i && tasks[k] in tasks;
      }
      if id in RunningIds(tasks) && id != t.taskId {
        var k :| 0 <= k < |tasks| && tasks[k].taskId == id && tasks[k].status == Running;
        assert now[k] in now;
      }
    }
  }

  class TaskRegistry {
    var tasks: Records
    var taskCancellers: map<string, CancellationToken>
    var taskOutputs: map<string, TaskOutput>

    /** The maps are in step with the records. */
    ghost predicate Valid()
      reads this
    {
      InStep(tasks, taskCancellers.Keys, taskOutputs.Keys)
    }

    /** `load_tasks`, from whatever list was saved. */
    constructor (saved: Records)
      ensures Valid()
      ensures tasks == seq(|saved|, i requires 0 <= i < |saved| => Restarted(saved[i]))
      ensures |tasks| == |saved| && forall i :: 0 <= i < |saved| ==>
        tasks[i] == if saved[i].status == Running
                    then TaskRecord(saved[i].taskId, Failed, Some("interrupted by server restart")) else saved[i]
      ensures taskCancellers.Keys == {} && taskOutputs.Keys == {}
    {
      var loaded := saved;
      for i := 0 to |saved|
        invariant |loaded| == |saved|
        invariant forall k :: 0 <= k < |saved| ==> loaded[k] == if k < i then Restarted(saved[k]) else saved[k]
      {
        if loaded[i].status == Running {
          loaded := loaded[i := loaded[i].(status := Failed, summary := Some("interrupted by server restart"))];
        }
      }
      tasks, taskCancellers, taskOutputs := loaded, map[], map[];
      assert RunningIds(loaded) == {} by {
        assert forall t <- loaded :: t.status != Running;
      }
    }

    /** Forget the tokens and buffers of evicted records. */
    method DropMaps(evicted: Records)
      modifies this`taskCancellers, this`taskOutputs
      ensures taskCancellers == old(taskCancellers) - Ids(evicted)
      ensures taskOutputs == old(taskOutputs) - Ids(evicted)
    {
      for i := 0 to |evicted|
        invariant taskCancellers == old(taskCancellers) - Ids(evicted[..i])
        invariant taskOutputs == old(taskOutputs) - Ids(evicted[..i])
      {
        var id := evicted[i].taskId;
        assert evicted[..i + 1] == evicted[..i] + [evicted[i]];
        IdsSplit(evicted[..i], [evicted[i]]);
        assert Ids([evicted[i]]) == {id};
        taskCancellers := taskCancellers - {id};
        taskOutputs := taskOutputs - {id};
      }
      assert evicted[..|evicted|] == evicted;
    }

    /**
      A freshly spawned task; the oldest records make room. For a running one the maps stay in
      step exactly when its id is not recorded yet.
     */
    method RegisterTask(record: TaskRecord, cancel: CancellationToken) returns (output: TaskOutput)
      requires Valid()
      modifies this
      ensures record.status == Running ==> (Valid() <==> record.taskId !in old(Ids(tasks)))
      ensures tasks == Newest(old(tasks) + [record])
      ensures KeepsNewest(old(tasks), record, tasks)
      ensures taskCancellers == old(taskCancellers)[record.taskId := cancel] - Ids(Evicted(old(tasks) + [record]))
      ensures taskOutputs == old(taskOutputs)[record.taskId := output] - Ids(Evicted(old(tasks) + [record]))
      ensures fresh(output) && output.Valid() && output.written == ""
    {
      output := new TaskOutput();
      NewestAre(tasks, record);
      if record.status == Running {
        StepOfRegistration(tasks, record, taskCancellers.Keys, taskOutputs.Keys);
      }
      taskCancellers := taskCancellers[record.taskId := cancel];
      taskOutputs := taskOutputs[record.taskId := output];
      ghost var id, gone := {record.taskId}, Ids(Evicted(tasks + [record]));
      Evict(tasks + [record]);
      assert taskCancellers.Keys == old(taskCancellers.Keys) + id - gone;
      assert taskOutputs.Keys == old(taskOutputs.Keys) + id - gone;
    }

    /** The list with its newest record, cut to the cap. */
    method Evict(all: Records)
      modifies this
      ensures tasks == Newest(all)
      ensures taskCancellers == old(taskCancellers) - Ids(Evicted(all))
      ensures taskOutputs == old(taskOutputs) - Ids(Evicted(all))
    {
      tasks := all;
      if |tasks| > MAX_TASKS_RETAINED {
        var drop := |tasks| - MAX_TASKS_RETAINED;
        DropMaps(tasks[..drop]);
        tasks := tasks[drop..];
      } else {
        assert Ids(all[..0]) == {};
      }
    }

    /** A task is over: its record says how, unless it has been evicted. */
    method FinalizeTask(id: string, outcome: string, summary: string)
      requires Valid()
      modifies this
      ensures Valid()
      ensures id !in taskCancellers
      ensures var i := IndexOf(old(tasks), id, 0);
        tasks == if i == -1 then old(tasks) else old(tasks)[i := Finalized(old(tasks)[i], outcome, summary)]
      ensures forall i :: 0 <= i < |tasks| && tasks[i] != old(tasks)[i] ==>
        && tasks[i].taskId == id && tasks[i].summary.Some?
        && tasks[i].status == (if outcome == "done" then Done else if outcome == "cancelled" then Cancelled else Failed)
        && tasks[i].summary.value == if |summary| > 800 then summary[|summary| - 800..] else summary
      ensures old(id in Ids(tasks)) ==>
        exists i :: 0 <= i < |tasks| && tasks[i].taskId == id && tasks[i].status != Running
      ensures forall other <- taskCancellers :: taskCancellers[other] == old(taskCancellers)[other]
      ensures taskOutputs == old(taskOutputs)
    {
      taskCancellers := taskCancellers - {id};
      var i := IndexOf(tasks, id, 0);
      if i != -1 {
        IdsFinalized(tasks, i, Finalized(tasks[i], outcome, summary));
        tasks := tasks[i := Finalized(tasks[i], outcome, summary)];
      } else {
        assert id !in RunningIds(tasks);
      }
    }

    /** True, and the token fired, exactly for a running task. */
    method CancelTask(id: string) returns (fired: bool)
      requires Valid()
      modifies if id in taskCancellers then {taskCancellers[id]} else {}
      ensures fired <==> id in RunningIds(tasks)
      ensures fired ==> id in taskCancellers && taskCancellers[id].cancelled
    {
      if id in taskCancellers {
        taskCancellers[id].Cancel();
        return true;
      }
      return false;
    }
  }
}
