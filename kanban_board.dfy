/**
 * The kanban board: which task is being dragged, and the decision taken when
 * a card is released.
 */
module KanbanBoard {
  import opened Options
  import opened Seqs
  import opened StudyTypes
  import opened Storage

  /**
   * The update a drop produces: none when released over nothing, when the
   * dragged id is unknown, when the target is not one of the four column ids,
   * or when it is the task's own column; otherwise the task with only its
   * status replaced.
   */
  function DropDecision(tasks: Buckets, activeId: string, overId: Option<string>): (r: Option<StudyTask>)
    ensures r.Some? <==>
      overId.Some? && Find(AllTasks(tasks), TaskId, activeId).Some?
      && ParseStatus(overId.value).Some?
      && ParseStatus(overId.value).value != Find(AllTasks(tasks), TaskId, activeId).value.status
    ensures r.Some? ==> r.value == Find(AllTasks(tasks), TaskId, activeId).value.(status := ParseStatus(overId.value).value)
  {
    if overId.None? then None
    else
      match Find(AllTasks(tasks), TaskId, activeId)
      case None => None
      case Some(task) =>
        match ParseStatus(overId.value)
        case Some(newStatus) => if task.status != newStatus then Some(task.(status := newStatus)) else None
        case None => None
  }

  /**
   * A drop update is a task of the board with the dragged id, with only its
   * status changed: to the column it was dropped on, away from the one it was in.
   */
  lemma DropDecisionStatusOnly(tasks: Buckets, activeId: string, overId: Option<string>)
    requires DropDecision(tasks, activeId, overId).Some?
    ensures var u := DropDecision(tasks, activeId, overId).value;
      var was := Find(AllTasks(tasks), TaskId, activeId).value;
      u.id == activeId && overId == Some(StatusKey(u.status))
      && was.status != u.status && u.(status := was.status) == was
      && exists s :: was in tasks.Get(s)
  {
    var was := Find(AllTasks(tasks), TaskId, activeId).value;
    AllTasksMember(tasks, was);
    ParseStatusKey(overId.value, ParseStatus(overId.value).value);
  }

  /**
   * The drag-end handler: the active task is cleared first, then the lookup and
   * the checks run in the order of the source.
   */
  method DragEndUpdate(tasks: Buckets, activeId: string, overId: Option<string>) returns (update: Option<StudyTask>)
    ensures update == DropDecision(tasks, activeId, overId)
  {
    update := None;
    if overId.None? {
      return;
    }
    var task := FindTask(tasks, activeId);
    if task.None? {
      return;
    }
    var newStatus := ParseStatus(overId.value);
    if newStatus.Some? && task.value.status != newStatus.value {
      update := Some(task.value.(status := newStatus.value));
    }
  }

  /** Applying a drop update through `updateTask` leaves the task last in the target column, once. */
  lemma DropThenUpdate(tasks: Buckets, activeId: string, overId: Option<string>)
    requires DropDecision(tasks, activeId, overId).Some?
    ensures var u := DropDecision(tasks, activeId, overId).value;
      var col := MoveTask(tasks, u).Get(ParseStatus(overId.value).value);
      |col| > 0 && col[|col| - 1] == u && CountKey(AllTasks(MoveTask(tasks, u)), TaskId, activeId) == 1
  {
    MoveTaskPlaces(tasks, DropDecision(tasks, activeId, overId).value);
  }

  /** `totalTasks`: every task of every bucket. */
  function TotalTasks(tasks: Buckets): nat
  {
    |AllTasks(tasks)|
  }

  /** `activeTasks`: the sizes of the three buckets other than `completed`. */
  function ActiveTasks(tasks: Buckets): nat
  {
    |tasks.toStudy| + |tasks.inProgress| + |tasks.revision|
  }

  /** The tasks shown as active plus the completed ones are all the tasks. */
  lemma TotalIsActivePlusCompleted(tasks: Buckets)
    ensures TotalTasks(tasks) == ActiveTasks(tasks) + |tasks.completed|
    ensures ActiveTasks(tasks) <= TotalTasks(tasks)
  {
  }

  /** The board's drag state: the task being dragged, if any. */
  class Board {
    var activeTask: Option<StudyTask>

    constructor ()
      ensures activeTask.None?
    {
      activeTask := None;
    }

    /** `handleDragStart`: remember the task found by id, or nothing. */
    method HandleDragStart(tasks: Buckets, taskId: string)
      modifies this
      ensures activeTask == Find(AllTasks(tasks), TaskId, taskId)
    {
      activeTask := FindTask(tasks, taskId);
    }

    /** `handleDragEnd`: always clear the drag state, then decide on an update. */
    method HandleDragEnd(tasks: Buckets, activeId: string, overId: Option<string>) returns (update: Option<StudyTask>)
      modifies this
      ensures activeTask.None?
      ensures update == DropDecision(tasks, activeId, overId)
    {
      activeTask := None;
      update := DragEndUpdate(tasks, activeId, overId);
    }
  }
}
