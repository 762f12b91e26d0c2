/** The `scheduled_tasks(id, command, schedule, last_run, next_run, status)` table and the
    four functions that touch it: `add_scheduled_task`, `update_scheduled_task`,
    `get_scheduled_tasks` and `process_scheduled_tasks`. Timestamps are integers. */
module ScheduledTasks {
  import opened Wrappers
  import opened PyValues

  datatype Status = Pending | Completed | Failed

  /** One row, its columns in the order `get_scheduled_tasks` selects them. */
  datatype Task = Task(
    id: nat,
    command: string,
    schedule: string,
    lastRun: Option<int>,
    nextRun: Option<int>,
    status: Status)

  predicate IdsIncreasing(rows: seq<Task>)
  {
    forall i, j :: 0 <= i < j < |rows| ==> rows[i].id < rows[j].id
  }

  /** The table after `UPDATE ... SET last_run = ?, next_run = ?, status = ? WHERE id = ?`. */
  function Updated(rows: seq<Task>, taskId: nat, lastRun: Option<int>, nextRun: Option<int>, status: Status): seq<Task>
  {
    seq(|rows|, i requires 0 <= i < |rows| =>
      if rows[i].id == taskId then rows[i].(lastRun := lastRun, nextRun := nextRun, status := status) else rows[i])
  }

  /** The row the update targets gets exactly the three new values and keeps its id,
      command and schedule; every other row is unchanged. */
  lemma UpdateTouchesOnlyItsRow(rows: seq<Task>, taskId: nat, lastRun: Option<int>, nextRun: Option<int>, status: Status)
    ensures var r := Updated(rows, taskId, lastRun, nextRun, status);
      && |r| == |rows|
      && (forall i :: 0 <= i < |rows| && rows[i].id != taskId ==> r[i] == rows[i])
      && (forall i :: 0 <= i < |rows| && rows[i].id == taskId ==>
            r[i] == Task(taskId, rows[i].command, rows[i].schedule, lastRun, nextRun, status))
  {
  }

  /** An id that is not in the table leaves it as it was. */
  lemma UpdateOfAbsentIdChangesNothing(rows: seq<Task>, taskId: nat, lastRun: Option<int>, nextRun: Option<int>, status: Status)
    requires forall i :: 0 <= i < |rows| ==> rows[i].id != taskId
    ensures Updated(rows, taskId, lastRun, nextRun, status) == rows
  {
  }

  /** Repeating an update with the same arguments gives the same table. */
  lemma UpdateIdempotent(rows: seq<Task>, taskId: nat, lastRun: Option<int>, nextRun: Option<int>, status: Status)
    ensures var once := Updated(rows, taskId, lastRun, nextRun, status);
      Updated(once, taskId, lastRun, nextRun, status) == once
  {
  }

  /** With increasing ids, updating the id of row `i` is replacing row `i`. */
  lemma UpdateAtIndex(rows: seq<Task>, i: nat, lastRun: Option<int>, nextRun: Option<int>, status: Status)
    requires IdsIncreasing(rows) && i < |rows|
    ensures Updated(rows, rows[i].id, lastRun, nextRun, status)
      == rows[i := rows[i].(lastRun := lastRun, nextRun := nextRun, status := status)]
  {
    var r := Updated(rows, rows[i].id, lastRun, nextRun, status);
    forall j | 0 <= j < |rows| && j != i ensures r[j] == rows[j] {
      assert rows[j].id != rows[i].id by {
        if j < i { assert rows[j].id < rows[i].id; } else { assert rows[i].id < rows[j].id; }
      }
    }
  }

  /** A `{command, cron}` entry of the configuration's task list. */
  type TaskEntry = map<string, string>

  predicate Complete(entry: TaskEntry)
  {
    "command" in entry && "cron" in entry
  }

  /** The key whose absence makes `task['command']` or `task['cron']` raise `KeyError`. */
  function MissingKey(entry: TaskEntry): (r: Option<string>)
    ensures r.None? <==> Complete(entry)
  {
    if "command" !in entry then Some("command")
    else if "cron" !in entry then Some("cron")
    else None
  }

  /** The index of the first entry missing a key, or the number of entries. */
  function FirstIncomplete(entries: seq<TaskEntry>): (k: nat)
    ensures k <= |entries|
    ensures forall i :: 0 <= i < k ==> "command" in entries[i] && "cron" in entries[i]
    ensures k < |entries| ==> MissingKey(entries[k]).Some?
  {
    if entries == [] || MissingKey(entries[0]).Some? then 0 else 1 + FirstIncomplete(entries[1..])
  }

  /** The rows `add_scheduled_task` inserts for complete entries, ids counting up from `firstId`. */
  function PendingRows(entries: seq<TaskEntry>, firstId: nat): seq<Task>
    requires forall i :: 0 <= i < |entries| ==> "command" in entries[i] && "cron" in entries[i]
  {
    seq(|entries|, i requires 0 <= i < |entries| =>
      Task(firstId + i, entries[i]["command"], entries[i]["cron"], None, None, Pending))
  }

  class TaskTable {
    var rows: seq<Task>
    /** The id SQLite's AUTOINCREMENT hands out next. */
    var nextId: nat

    ghost predicate Valid()
      reads this
    {
      && 1 <= nextId
      && (forall i :: 0 <= i < |rows| ==> 1 <= rows[i].id < nextId)
      && IdsIncreasing(rows)
    }

    constructor ()
      ensures Valid() && rows == []
    {
      rows := [];
      nextId := 1;
    }

    /** `add_scheduled_task(command, schedule)`: one new pending row with no run times;
        the schedule is not checked and an equal row already present is no obstacle. */
    method AddScheduledTask(command: string, schedule: string) returns (id: nat)
      requires Valid()
      modifies this
      ensures Valid()
      ensures id == old(nextId) && nextId == old(nextId) + 1
      ensures rows == old(rows) + [Task(id, command, schedule, None, None, Pending)]
    {
      id := nextId;
      rows := rows + [Task(id, command, schedule, None, None, Pending)];
      nextId := nextId + 1;
    }

    /** `update_scheduled_task(task_id, last_run, next_run, status)` */
    method UpdateScheduledTask(taskId: nat, lastRun: Option<int>, nextRun: Option<int>, status: Status)
      requires Valid()
      modifies this
      ensures Valid() && nextId == old(nextId)
      ensures rows == Updated(old(rows), taskId, lastRun, nextRun, status)
    {
      rows := Updated(rows, taskId, lastRun, nextRun, status);
    }

    /** `get_scheduled_tasks()`: every row, unfiltered, in table order. */
    method GetScheduledTasks() returns (tasks: seq<Task>)
      ensures tasks == rows
    {
      tasks := rows;
    }
  }

  /** `process_scheduled_tasks(scheduled_tasks)`: one pending row per entry, in list order,
      with the command from `'command'` and the schedule from `'cron'`. The first entry
      missing a key raises `KeyError`; the rows of the entries before it stay inserted. */
  method ProcessScheduledTasks(table: TaskTable, entries: seq<TaskEntry>) returns (err: Option<Exc>)
    requires table.Valid()
    modifies table
    ensures table.Valid()
    ensures var k := FirstIncomplete(entries);
      && table.rows == old(table.rows) + PendingRows(entries[..k], old(table.nextId))
      && table.nextId == old(table.nextId) + k
      && err == if k < |entries| then Some(KeyError(MissingKey(entries[k]).value)) else None
  {
    var k := FirstIncomplete(entries);
    for i := 0 to |entries|
      invariant table.Valid()
      invariant i <= k
      invariant table.nextId == old(table.nextId) + i
      invariant table.rows == old(table.rows) + PendingRows(entries[..i], old(table.nextId))
    {
      var task := entries[i];
      if "command" !in task {
        return Some(KeyError("command"));
      }
      var command := task["command"];
      if "cron" !in task {
        return Some(KeyError("cron"));
      }
      var schedule := task["cron"];
      var _ := table.AddScheduledTask(command, schedule);
      assert entries[..i + 1] == entries[..i] + [entries[i]];
    }
    return None;
  }
}
