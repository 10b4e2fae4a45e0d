/** The kanban board (`src/components/kanban/Board.tsx`): which tasks the board
    shows for a selected day, how they fall into the four columns, and the drop
    rules with the two-task work-in-progress limit and the deferred "blocked"
    move. The task list the board receives stands for the task documents; a
    successful `updateDoc` patches the document with that id in place. Whether
    the write succeeds is a parameter, and so is the clock. */
module Kanban {
  import opened JsText

  type TaskId = string

  /** A stored status string that is none of the four column ids. */
  type OtherStatus = raw: string | raw != "todo" && raw != "in_progress" && raw != "blocked" && raw != "done"
    witness ""

  /** The four column ids, and any other value a stored document might carry. */
  datatype Status = Todo | InProgress | Blocked | Done | Other(raw: OtherStatus)

  datatype Task = Task(
    id: TaskId,
    userId: string,
    title: string,
    description: string,
    status: Status,
    createdAt: int,
    updatedAt: int,
    completedAt: Option<int>,
    blockedReason: Option<string>)

  const MsPerDay: int := 86_400_000
  const InProgressLimit: nat := 2
  const Columns: seq<Status> := [Todo, InProgress, Blocked, Done]

  predicate IsColumn(s: Status) {
    !s.Other?
  }

  /** The calendar day of a timestamp in milliseconds. */
  function DayOf(ms: int): int {
    ms / MsPerDay
  }

  /** The filter's test: a done task shows on the day its truthy `completedAt`
      falls on; any other task shows only when the selected day is today. */
  predicate Visible(t: Task, selectedDate: int, now: int)
    ensures t.status == Done ==> (Visible(t, selectedDate, now) <==>
      TruthyNum(t.completedAt) && DayOf(t.completedAt.value) == DayOf(selectedDate))
    ensures t.status != Done ==> (Visible(t, selectedDate, now) <==> DayOf(selectedDate) == DayOf(now))
  {
    if t.status == Done then TruthyNum(t.completedAt) && DayOf(t.completedAt.value) == DayOf(selectedDate)
    else DayOf(selectedDate) == DayOf(now)
  }

  /** A done task shows on one day only, whichever day is today. */
  lemma DoneTaskShowsOnOneDay(t: Task, d1: int, d2: int, now: int, later: int)
    requires t.status == Done && Visible(t, d1, now) && Visible(t, d2, later)
    ensures DayOf(d1) == DayOf(d2)
  {
  }

  /** `filteredTasks`: the visible tasks, in order. */
  function FilterVisible(tasks: seq<Task>, selectedDate: int, now: int): (r: seq<Task>)
    ensures |r| <= |tasks|
    ensures forall i | 0 <= i < |r| :: Visible(r[i], selectedDate, now)
  {
    if tasks == [] then []
    else
      var rest := FilterVisible(tasks[1..], selectedDate, now);
      if Visible(tasks[0], selectedDate, now) then [tasks[0]] + rest else rest
  }

  /** The filter keeps every visible task, with all its copies, and nothing else. */
  lemma {:induction false} FilterVisibleCounts(tasks: seq<Task>, selectedDate: int, now: int)
    ensures forall t :: multiset(FilterVisible(tasks, selectedDate, now))[t]
                        == if Visible(t, selectedDate, now) then multiset(tasks)[t] else 0
  {
    if tasks != [] {
      FilterVisibleCounts(tasks[1..], selectedDate, now);
      assert tasks == [tasks[0]] + tasks[1..];
    }
  }

  /** `tasks.filter((t) => t.status === s)`: the tasks with status `s`, in order. */
  function WithStatus(tasks: seq<Task>, s: Status): (r: seq<Task>)
    ensures |r| <= |tasks|
    ensures forall i | 0 <= i < |r| :: r[i].status == s && r[i] in tasks
    ensures r == [] <==> forall i | 0 <= i < |tasks| :: tasks[i].status != s
  {
    if tasks == [] then []
    else
      var rest := WithStatus(tasks[1..], s);
      if tasks[0].status == s then [tasks[0]] + rest else rest
  }

  /** The status filter keeps every task with that status, with all its copies, and
      nothing else. */
  lemma {:induction false} WithStatusCounts(tasks: seq<Task>, s: Status)
    ensures forall t :: multiset(WithStatus(tasks, s))[t] == if t.status == s then multiset(tasks)[t] else 0
  {
    if tasks != [] {
      WithStatusCounts(tasks[1..], s);
      assert tasks == [tasks[0]] + tasks[1..];
    }
  }

  /** The tasks handed to each column, in the order of `Columns`. */
  function BoardColumns(tasks: seq<Task>, selectedDate: int, now: int): (cols: seq<seq<Task>>)
    ensures |cols| == |Columns|
    ensures forall k, i | 0 <= k < |cols| && 0 <= i < |cols[k]| ::
      cols[k][i].status == Columns[k] && Visible(cols[k][i], selectedDate, now)
  {
    var visible := FilterVisible(tasks, selectedDate, now);
    seq(|Columns|, k requires 0 <= k < |Columns| => WithStatus(visible, Columns[k]))
  }

  /** Every visible task whose status is a column id lands in exactly one column,
      that of its status, with all its copies; other tasks land in none. */
  lemma ColumnsPartitionVisible(tasks: seq<Task>, selectedDate: int, now: int, t: Task)
    ensures var cols := BoardColumns(tasks, selectedDate, now);
      forall k | 0 <= k < |Columns| ::
        multiset(cols[k])[t] == if t.status == Columns[k] && Visible(t, selectedDate, now) then multiset(tasks)[t] else 0
    ensures IsColumn(t.status) ==> exists k :: 0 <= k < |Columns| && Columns[k] == t.status
  {
    var visible := FilterVisible(tasks, selectedDate, now);
    FilterVisibleCounts(tasks, selectedDate, now);
    forall k | 0 <= k < |Columns| {
      WithStatusCounts(visible, Columns[k]);
    }
    if IsColumn(t.status) {
      var k := if t.status == Todo then 0 else if t.status == InProgress then 1 else if t.status == Blocked then 2 else 3;
      assert Columns[k] == t.status;
    }
  }

  function CountOther(tasks: seq<Task>): nat {
    if tasks == [] then 0 else (if tasks[0].status.Other? then 1 else 0) + CountOther(tasks[1..])
  }

  /** The four columns together hold as many tasks as the list minus those with a
      status that is no column id. */
  lemma {:induction false} ColumnSizes(v: seq<Task>)
    ensures |WithStatus(v, Todo)| + |WithStatus(v, InProgress)| + |WithStatus(v, Blocked)| + |WithStatus(v, Done)|
            == |v| - CountOther(v)
  {
    if v != [] {
      ColumnSizes(v[1..]);
    }
  }

  /** The number of `in_progress` tasks in the whole, unfiltered list. */
  function InProgressCount(tasks: seq<Task>): (n: nat)
    ensures n <= |tasks|
    ensures n == 0 <==> forall i | 0 <= i < |tasks| :: tasks[i].status != InProgress
  {
    |WithStatus(tasks, InProgress)|
  }

  /** Replacing one task changes the count of a status by what leaves and what enters. */
  lemma {:induction false} CountAfterReplace(tasks: seq<Task>, i: nat, u: Task, s: Status)
    requires i < |tasks|
    ensures |WithStatus(tasks[i := u], s)|
            == |WithStatus(tasks, s)| - (if tasks[i].status == s then 1 else 0) + (if u.status == s then 1 else 0)
  {
    if i > 0 {
      CountAfterReplace(tasks[1..], i - 1, u, s);
      assert tasks[i := u][1..] == tasks[1..][i - 1 := u];
    } else {
      assert tasks[i := u][1..] == tasks[1..];
    }
  }

  /** `tasks.find((t) => t._id === id)`: the first task with that id. */
  function FindTask(tasks: seq<Task>, id: TaskId): (r: Option<nat>)
    ensures r.Some? ==> r.value < |tasks| && tasks[r.value].id == id
    ensures r.Some? ==> forall j | 0 <= j < r.value :: tasks[j].id != id
    ensures r.None? ==> forall j | 0 <= j < |tasks| :: tasks[j].id != id
  {
    if tasks == [] then None
    else if tasks[0].id == id then Some(0)
    else
      match FindTask(tasks[1..], id)
      case None => None
      case Some(j) => Some(j + 1)
  }

  /** No two tasks share an id. */
  ghost predicate DistinctIds(tasks: seq<Task>) {
    forall i, j | 0 <= i < j < |tasks| :: tasks[i].id != tasks[j].id
  }

  /** Replacing a task by one with the same id keeps the ids distinct. */
  lemma ReplaceKeepsIds(tasks: seq<Task>, i: nat, u: Task)
    requires DistinctIds(tasks) && i < |tasks| && u.id == tasks[i].id
    ensures DistinctIds(tasks[i := u])
  {
  }

  /** The patch of a move: `status` always, `completedAt = now` only for a move to done. */
  function MoveTask(t: Task, target: Status, now: int): (u: Task)
    ensures u.status == target
    ensures u.completedAt == (if target == Done then Some(now) else t.completedAt)
    ensures u == t.(status := target, completedAt := u.completedAt)
  {
    var moved := t.(status := target);
    if target == Done then moved.(completedAt := Some(now)) else moved
  }

  /** The patch of a confirmed block. */
  function BlockTask(t: Task, reason: string): (u: Task)
    ensures u.status == Blocked && u.blockedReason == Some(reason)
    ensures u.(status := t.status, blockedReason := t.blockedReason) == t
  {
    t.(status := Blocked, blockedReason := Some(reason))
  }

  /** A task moved to done while today is selected stays on the board: it shows in
      the done column for today (given a non-zero clock). */
  lemma MovedToDoneStaysVisible(t: Task, selectedDate: int, now: int)
    requires now != 0 && DayOf(selectedDate) == DayOf(now)
    ensures Visible(MoveTask(t, Done, now), selectedDate, now)
  {
  }

  /** Moving a done task elsewhere keeps its `completedAt`, so moving it back to done
      later overwrites the stamp rather than restoring it. */
  lemma LeavingDoneKeepsStamp(t: Task, target: Status, now: int, later: int)
    requires t.status == Done && target != Done
    ensures MoveTask(t, target, now).completedAt == t.completedAt
    ensures MoveTask(MoveTask(t, target, now), Done, later).completedAt == Some(later)
  {
  }

  datatype DropOutcome = NoTaskDragged | TaskNotFound | SameColumn | LimitReached | AwaitingReason | Moved | WriteFailed

  class KanbanBoard {
    var tasks: seq<Task>
    var draggedTaskId: Option<TaskId>
    var blockModalOpen: bool
    var pendingBlockTaskId: Option<TaskId>

    ghost predicate Valid()
      reads this
    {
      DistinctIds(tasks)
    }

    constructor(tasks: seq<Task>)
      requires DistinctIds(tasks)
      ensures Valid() && this.tasks == tasks
      ensures draggedTaskId.None? && !blockModalOpen && pendingBlockTaskId.None?
    {
      this.tasks := tasks;
      draggedTaskId, blockModalOpen, pendingBlockTaskId := None, false, None;
    }

    /** `handleDragStart`. */
    method DragStart(id: TaskId)
      modifies this
      ensures draggedTaskId == Some(id)
      ensures tasks == old(tasks) && blockModalOpen == old(blockModalOpen)
      ensures pendingBlockTaskId == old(pendingBlockTaskId)
    {
      draggedTaskId := Some(id);
    }

    /** `handleDrop(target)`. Without a dragged task (no id, or the empty one), or when it is not in the list,
        nothing changes (the dragged id is kept). A drop on the task's own column, a
        refused move to `in_progress` when two tasks are already there, and a move to
        `blocked`, which only opens the reason dialog, write nothing. Any other move
        patches `status`, and `completedAt = now` for done. The drag ends in every
        case past the lookup. At most two tasks stay `in_progress` if at most two were. */
    method Drop(target: Status, now: int, writeOk: bool) returns (outcome: DropOutcome)
      requires Valid() && IsColumn(target)
      modifies this
      ensures Valid()
      ensures outcome == NoTaskDragged <==> !TruthyStr(old(draggedTaskId))
      ensures outcome == TaskNotFound <==>
        TruthyStr(old(draggedTaskId)) && FindTask(old(tasks), old(draggedTaskId).value).None?
      ensures outcome == NoTaskDragged || outcome == TaskNotFound ==>
        tasks == old(tasks) && draggedTaskId == old(draggedTaskId)
        && blockModalOpen == old(blockModalOpen) && pendingBlockTaskId == old(pendingBlockTaskId)
      ensures outcome != NoTaskDragged && outcome != TaskNotFound ==>
        var i := FindTask(old(tasks), old(draggedTaskId).value).value;
        var t := old(tasks)[i];
        && draggedTaskId.None?
        && (outcome == SameColumn <==> t.status == target)
        && (outcome == LimitReached <==>
              t.status != target && target == InProgress && InProgressCount(old(tasks)) >= InProgressLimit)
        && (outcome == AwaitingReason <==> t.status != target && target == Blocked)
        && (outcome == Moved ==> writeOk && tasks == old(tasks)[i := MoveTask(t, target, now)])
        && (outcome == WriteFailed ==> !writeOk)
        && (outcome != Moved ==> tasks == old(tasks))
        && (outcome == AwaitingReason ==> pendingBlockTaskId == old(draggedTaskId) && blockModalOpen)
        && (outcome != AwaitingReason ==>
              pendingBlockTaskId == old(pendingBlockTaskId) && blockModalOpen == old(blockModalOpen))
      ensures InProgressCount(old(tasks)) <= InProgressLimit ==> InProgressCount(tasks) <= InProgressLimit
    {
      if !TruthyStr(draggedTaskId) {
        return NoTaskDragged;
      }
      var id := draggedTaskId.value;
      var found := FindTask(tasks, id);
      if found.None? {
        return TaskNotFound;
      }
      var i := found.value;
      var task := tasks[i];
      if task.status == target {
        draggedTaskId := None;
        return SameColumn;
      }
      if target == InProgress {
        var inProgressCount := InProgressCount(tasks);
        if inProgressCount >= InProgressLimit {
          draggedTaskId := None;
          return LimitReached;
        }
      }
      if target == Blocked {
        pendingBlockTaskId := Some(id);
        blockModalOpen := true;
        draggedTaskId := None;
        return AwaitingReason;
      }
      if writeOk {
        var moved := MoveTask(task, target, now);
        CountAfterReplace(tasks, i, moved, InProgress);
        ReplaceKeepsIds(tasks, i, moved);
        tasks := tasks[i := moved];
        outcome := Moved;
      } else {
        outcome := WriteFailed;
      }
      draggedTaskId := None;
    }

    /** `handleBlockConfirm(reason)`. With no pending task (no id, or the empty one)
        nothing changes. Otherwise
        the pending task, if the write succeeds, becomes blocked with the reason; the
        pending id is cleared and the dialog closed either way. Blocking never adds
        an `in_progress` task. */
    method ConfirmBlock(reason: string, writeOk: bool)
      requires Valid()
      modifies this
      ensures Valid()
      ensures draggedTaskId == old(draggedTaskId)
      ensures !TruthyStr(old(pendingBlockTaskId)) ==>
        tasks == old(tasks) && blockModalOpen == old(blockModalOpen) && pendingBlockTaskId == old(pendingBlockTaskId)
      ensures TruthyStr(old(pendingBlockTaskId)) ==>
        var found := FindTask(old(tasks), old(pendingBlockTaskId).value);
        && pendingBlockTaskId.None? && !blockModalOpen
        && tasks == (if writeOk && found.Some?
                     then old(tasks)[found.value := BlockTask(old(tasks)[found.value], reason)]
                     else old(tasks))
      ensures InProgressCount(tasks) <= InProgressCount(old(tasks))
    {
      if !TruthyStr(pendingBlockTaskId) {
        return;
      }
      var found := FindTask(tasks, pendingBlockTaskId.value);
      if writeOk && found.Some? {
        var i := found.value;
        var blocked := BlockTask(tasks[i], reason);
        CountAfterReplace(tasks, i, blocked, InProgress);
        ReplaceKeepsIds(tasks, i, blocked);
        tasks := tasks[i := blocked];
      }
      blockModalOpen := false;
      pendingBlockTaskId := None;
    }

    /** The reason dialog's `onOpenChange`: dismissing it closes it but keeps the
        pending id. */
    method SetBlockModalOpen(open: bool)
      modifies this
      ensures blockModalOpen == open
      ensures tasks == old(tasks) && draggedTaskId == old(draggedTaskId)
      ensures pendingBlockTaskId == old(pendingBlockTaskId)
    {
      blockModalOpen := open;
    }
  }

  /** From any list with at most two `in_progress` tasks, no sequence of a drag and a
      drop, followed by a block confirmation, brings more than two. */
  method DropKeepsLimit(tasks: seq<Task>, id: TaskId, target: Status, now: int, writeOk: bool,
                        reason: string, confirmOk: bool)
    returns (after: seq<Task>)
    requires DistinctIds(tasks) && IsColumn(target)
    requires InProgressCount(tasks) <= InProgressLimit
    ensures InProgressCount(after) <= InProgressLimit
    ensures |after| == |tasks|
  {
    var board := new KanbanBoard(tasks);
    board.DragStart(id);
    var _ := board.Drop(target, now, writeOk);
    board.ConfirmBlock(reason, confirmOk);
    after := board.tasks;
  }
}
