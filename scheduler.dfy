/** `run_scheduled_tasks` of `eventdb.py`: one scheduler tick. The clock reading, the cron
    library and the dispatch of a command are parameters: `cron(schedule, now)` is
    `croniter(schedule, now).get_next()` (`None` where croniter rejects the schedule) and
    `completes(command)` says whether dispatching the command returns normally. */
module Scheduler {
  import opened Wrappers
  import opened PyValues
  import opened ScheduledTasks

  type Cron = (string, int) -> Option<int>

  /** `next_run is None or now >= next_run` */
  predicate Due(t: Task, now: int)
  {
    t.nextRun.None? || now >= t.nextRun.value
  }

  /** The row of a task the tick ran: `last_run` is `now`, `next_run` is recomputed from
      the schedule and `now`, and the status records whether dispatch returned normally. */
  function TickTask(t: Task, now: int, cron: Cron, completes: string -> bool): Task
  {
    if Due(t, now) && cron(t.schedule, now).Some? then
      t.(lastRun := Some(now), nextRun := cron(t.schedule, now),
         status := if completes(t.command) then Completed else Failed)
    else t
  }

  /** The tick gets past a task that is not due or whose schedule croniter accepts. */
  predicate Passes(t: Task, now: int, cron: Cron)
  {
    !Due(t, now) || cron(t.schedule, now).Some?
  }

  /** The first due task whose schedule croniter rejects (the tick stops there, with that
      task's command already dispatched), or the number of tasks. */
  function StopIndexFrom(tasks: seq<Task>, now: int, cron: Cron, i: nat): (k: nat)
    requires i <= |tasks|
    ensures i <= k <= |tasks|
    ensures forall j :: i <= j < k ==> Passes(tasks[j], now, cron)
    ensures k < |tasks| ==> Due(tasks[k], now) && cron(tasks[k].schedule, now).None?
    decreases |tasks| - i
  {
    if i == |tasks| || (Due(tasks[i], now) && cron(tasks[i].schedule, now).None?) then i
    else StopIndexFrom(tasks, now, cron, i + 1)
  }

  function StopIndex(tasks: seq<Task>, now: int, cron: Cron): nat
  {
    StopIndexFrom(tasks, now, cron, 0)
  }

  /** The tick stops at `k` when every earlier task passes and `k` is the end or a due
      task with a rejected schedule. */
  lemma {:induction false} StopIndexIs(tasks: seq<Task>, now: int, cron: Cron, i: nat, k: nat)
    requires i <= k <= |tasks|
    requires forall j :: i <= j < k ==> Passes(tasks[j], now, cron)
    requires k < |tasks| ==> Due(tasks[k], now) && cron(tasks[k].schedule, now).None?
    ensures StopIndexFrom(tasks, now, cron, i) == k
    decreases k - i
  {
    if i < k {
      StopIndexIs(tasks, now, cron, i + 1, k);
    }
  }

  /** How many tasks the tick reaches: up to and including the one where it stops. */
  function Reached(tasks: seq<Task>, now: int, cron: Cron): (n: nat)
    ensures n <= |tasks|
  {
    var k := StopIndex(tasks, now, cron);
    if k < |tasks| then k + 1 else k
  }

  /** Where the tick stops and how many tasks it reaches, once the stopping point is known. */
  lemma StopsAt(tasks: seq<Task>, now: int, cron: Cron, k: nat)
    requires k <= |tasks|
    requires forall j :: 0 <= j < k ==> Passes(tasks[j], now, cron)
    requires k < |tasks| ==> Due(tasks[k], now) && cron(tasks[k].schedule, now).None?
    ensures StopIndex(tasks, now, cron) == k
    ensures Reached(tasks, now, cron) == if k < |tasks| then k + 1 else k
  {
    StopIndexIs(tasks, now, cron, 0, k);
  }

  /** The ids of the due tasks among the first `n`, in table order: the commands the tick
      dispatches. */
  function DueIds(tasks: seq<Task>, n: nat, now: int): seq<nat>
    requires n <= |tasks|
  {
    if n == 0 then []
    else DueIds(tasks, n - 1, now) + (if Due(tasks[n - 1], now) then [tasks[n - 1].id] else [])
  }

  /** The table once the tick has handled its first `i` tasks: each of them replaced by
      its ticked row, the others as read. */
  function Handled(tasks: seq<Task>, i: nat, now: int, cron: Cron, completes: string -> bool): (r: seq<Task>)
    requires i <= |tasks|
    ensures |r| == |tasks|
    decreases i
  {
    if i == 0 then tasks
    else Handled(tasks, i - 1, now, cron, completes)[i - 1 := TickTask(tasks[i - 1], now, cron, completes)]
  }

  /** Row `j` of the handled table is ticked exactly when the tick got past it. */
  lemma {:induction false} HandledRow(tasks: seq<Task>, i: nat, now: int, cron: Cron, completes: string -> bool, j: nat)
    requires i <= |tasks| && j < |tasks|
    ensures Handled(tasks, i, now, cron, completes)[j]
      == if j < i then TickTask(tasks[j], now, cron, completes) else tasks[j]
    decreases i
  {
    if i > 0 {
      HandledRow(tasks, i - 1, now, cron, completes, j);
    }
  }

  /** A task that is not due leaves the table as it is. */
  lemma SkipStep(tasks: seq<Task>, i: nat, now: int, cron: Cron, completes: string -> bool)
    requires i < |tasks| && !Due(tasks[i], now)
    ensures Handled(tasks, i + 1, now, cron, completes) == Handled(tasks, i, now, cron, completes)
  {
    var before := Handled(tasks, i, now, cron, completes);
    HandledRow(tasks, i, now, cron, completes, i);
    assert before[i := tasks[i]] == before;
  }

  /** Updating the row of a due task whose schedule croniter accepts handles that task. */
  lemma UpdateStep(tasks: seq<Task>, i: nat, now: int, cron: Cron, completes: string -> bool)
    requires i < |tasks| && Due(tasks[i], now) && cron(tasks[i].schedule, now).Some?
    requires IdsIncreasing(Handled(tasks, i, now, cron, completes))
    ensures Updated(Handled(tasks, i, now, cron, completes), tasks[i].id, Some(now),
                    cron(tasks[i].schedule, now), if completes(tasks[i].command) then Completed else Failed)
      == Handled(tasks, i + 1, now, cron, completes)
  {
    var before := Handled(tasks, i, now, cron, completes);
    HandledRow(tasks, i, now, cron, completes, i);
    UpdateAtIndex(before, i, Some(now), cron(tasks[i].schedule, now),
                  if completes(tasks[i].command) then Completed else Failed);
  }

  /** The body of the tick's loop for task `i`: dispatch and update it when it is due.
      `stop` reports a schedule croniter rejects, found after the dispatch and before the
      update. */
  method TickOne(table: TaskTable, tasks: seq<Task>, i: nat, now: int, cron: Cron, completes: string -> bool)
    returns (stop: bool)
    requires table.Valid() && i < |tasks|
    requires table.rows == Handled(tasks, i, now, cron, completes)
    modifies table
    ensures table.Valid() && table.nextId == old(table.nextId)
    ensures stop <==> !Passes(tasks[i], now, cron)
    ensures !stop ==> table.rows == Handled(tasks, i + 1, now, cron, completes)
    ensures stop ==> table.rows == old(table.rows)
  {
    var task := tasks[i];
    if !Due(task, now) {
      SkipStep(tasks, i, now, cron, completes);
      return false;
    }
    var ok := completes(task.command);
    var status := if ok then Completed else Failed;
    var next := cron(task.schedule, now);
    if next.None? {
      return true;
    }
    UpdateStep(tasks, i, now, cron, completes);
    table.UpdateScheduledTask(task.id, Some(now), next, status);
    return false;
  }

  /** One tick: read every row, then dispatch and update each due task in table order with
      the single `now` read before the loop. `ran` lists the ids dispatched; `err` is the
      exception of a schedule croniter rejects, which ends the tick. */
  method RunScheduledTasks(table: TaskTable, now: int, cron: Cron, completes: string -> bool)
    returns (ran: seq<nat>, err: Option<Exc>)
    requires table.Valid()
    modifies table
    ensures table.Valid() && table.nextId == old(table.nextId)
    ensures var tasks := old(table.rows);
      var k := StopIndex(tasks, now, cron);
      && table.rows == Handled(tasks, k, now, cron, completes)
      && ran == DueIds(tasks, Reached(tasks, now, cron), now)
      && err == if k < |tasks| then Some(ValueError) else None
  {
    var tasks := table.GetScheduledTasks();
    ran := [];
    for i := 0 to |tasks|
      invariant forall j :: 0 <= j < i ==> Passes(tasks[j], now, cron)
      invariant table.Valid() && table.nextId == old(table.nextId)
      invariant table.rows == Handled(tasks, i, now, cron, completes)
      invariant ran == DueIds(tasks, i, now)
    {
      if Due(tasks[i], now) {
        ran := ran + [tasks[i].id];
      }
      var stop := TickOne(table, tasks, i, now, cron, completes);
      if stop {
        StopsAt(tasks, now, cron, i);
        return ran, Some(ValueError);
      }
    }
    StopsAt(tasks, now, cron, |tasks|);
    return ran, None;
  }

  /** Where the tick got past a task, a task that is not due is neither dispatched nor
      updated, and a due one gets `last_run = now`, `next_run` from its schedule and
      `now` whatever the outcome, and status `completed` exactly when dispatch returned. */
  lemma TickStatusFollowsDispatch(tasks: seq<Task>, now: int, cron: Cron, completes: string -> bool, i: nat)
    requires i < StopIndex(tasks, now, cron)
    ensures var t := tasks[i];
      var r := Handled(tasks, StopIndex(tasks, now, cron), now, cron, completes)[i];
      && (!Due(t, now) ==> r == t)
      && (Due(t, now) ==>
            && r.id == t.id && r.command == t.command && r.schedule == t.schedule
            && r.lastRun == Some(now)
            && r.nextRun == cron(t.schedule, now) && r.nextRun.Some?
            && (r.status == Completed <==> completes(t.command))
            && (r.status == Failed <==> !completes(t.command)))
  {
    HandledRow(tasks, StopIndex(tasks, now, cron), now, cron, completes, i);
  }

  /** Rows the tick did not get past are as read. */
  lemma UnreachedRowsUnchanged(tasks: seq<Task>, now: int, cron: Cron, completes: string -> bool, i: nat)
    requires StopIndex(tasks, now, cron) <= i < |tasks|
    ensures Handled(tasks, StopIndex(tasks, now, cron), now, cron, completes)[i] == tasks[i]
  {
    HandledRow(tasks, StopIndex(tasks, now, cron), now, cron, completes, i);
  }

  /** Python refuses a call whose positional arguments do not match the parameters with a
      `TypeError`, before the body runs. */
  function CallCompletes(parameters: nat, arguments: nat, bodyCompletes: bool): bool
  {
    parameters == arguments && bodyCompletes
  }

  /** `eventdb.py` imports `execute_command` from `runner`, which takes two parameters, and
      calls it with three. */
  const RunnerExecuteCommandParameters: nat := 2
  const TickDispatchArguments: nat := 3

  /** The dispatch the tick performs as written: the call fails whatever the command. */
  function AsWrittenCompletes(bodyCompletes: string -> bool, command: string): bool
  {
    CallCompletes(RunnerExecuteCommandParameters, TickDispatchArguments, bodyCompletes(command))
  }

  /** As written, every due task the tick gets past is marked `failed`. */
  lemma AsWrittenTickFailsEveryDueTask(tasks: seq<Task>, now: int, cron: Cron, bodyCompletes: string -> bool, i: nat)
    requires i < StopIndex(tasks, now, cron) && Due(tasks[i], now)
    ensures Handled(tasks, StopIndex(tasks, now, cron), now, cron,
                    c => AsWrittenCompletes(bodyCompletes, c))[i].status == Failed
  {
    TickStatusFollowsDispatch(tasks, now, cron, c => AsWrittenCompletes(bodyCompletes, c), i);
  }

  /** A due task whose command dispatches without error: failed as written, completed
      with a dispatcher that accepts the three arguments. */
  lemma AsWrittenCounterexample(now: int, cron: Cron, bodyCompletes: string -> bool)
    requires cron("0 * * * *", now).Some? && bodyCompletes("list repos github_main")
    ensures
      var t := Task(1, "list repos github_main", "0 * * * *", None, None, Pending);
      && Handled([t], 1, now, cron, c => AsWrittenCompletes(bodyCompletes, c))[0].status == Failed
      && Handled([t], 1, now, cron, bodyCompletes)[0].status == Completed
  {
  }
}
