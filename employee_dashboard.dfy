/** The employee dashboard: the assignee's task list, the "Mark as Complete" action
    (pending to requested) and the task-info modal. */
module EmployeeDashboard {
  import opened Seqs
  import opened Store

  const UPDATE_ERROR: string := "Error updating task. Please try again later."

  /** The tasks query `where('assignedTo', '==', uid)` over a snapshot of the collection. */
  function TasksAssignedTo(tasks: seq<Doc<Task>>, uid: string): (r: seq<Doc<Task>>)
    ensures forall i :: 0 <= i < |r| ==> r[i] in tasks && r[i].data.assignedTo == uid
    ensures forall i :: 0 <= i < |tasks| && tasks[i].data.assignedTo == uid ==> tasks[i] in r
  {
    Filter(tasks, (d: Doc<Task>) => d.data.assignedTo == uid)
  }

  /** The button is rendered, in the list and in the modal, only for a pending task. */
  predicate CanComplete(t: Task) {
    t.status == STATUS_PENDING
  }

  /** The partial update `{ status: 'requested', completedAt: now }`. */
  function RequestCompletion(t: Task, now: int): Task {
    t.(status := STATUS_REQUESTED, completedAt := Some(now))
  }

  /** The update touches exactly two fields: putting their old values back restores the task,
      and the new status is "requested" whatever the old one was (the write does not look at it). */
  lemma RequestCompletionFields(t: Task, now: int)
    ensures RequestCompletion(t, now).(status := t.status, completedAt := t.completedAt) == t
    ensures RequestCompletion(t, now).status == STATUS_REQUESTED
    ensures RequestCompletion(t, now).completedAt == Some(now)
  {
  }

  class EmployeeDashboard {
    var error: Option<string>
    var selectedTask: Option<Doc<Task>>
    var isInfoModalOpen: bool

    constructor ()
      ensures error == None && selectedTask == None && !isInfoModalOpen
    {
      error, selectedTask, isInfoModalOpen := None, None, false;
    }

    /** `handleCompleteTask`: `updateDoc` fails when the write fails or the task no longer
        exists; the status is not re-checked. */
    method HandleCompleteTask(db: Db, taskId: string, now: int, writeFails: bool)
      modifies this`error, db`tasks
      ensures !writeFails && taskId in old(db.tasks) ==>
        db.tasks == old(db.tasks)[taskId := RequestCompletion(old(db.tasks)[taskId], now)] && error == old(error)
      ensures writeFails || taskId !in old(db.tasks) ==>
        db.tasks == old(db.tasks) && error == Some(UPDATE_ERROR)
      ensures KnownStatuses(old(db.tasks)) ==> KnownStatuses(db.tasks)
    {
      if writeFails || taskId !in db.tasks {
        error := Some(UPDATE_ERROR);
      } else {
        db.tasks := db.tasks[taskId := RequestCompletion(db.tasks[taskId], now)];
      }
    }

    /** "Mark as Complete" on a list entry, rendered only when the listed copy of the task is
        pending. The handler writes by id: when the listed copy is still the stored one, a
        successful write moves the stored task from pending to requested; a stale copy is
        overwritten all the same. */
    method CompleteFromList(db: Db, task: Doc<Task>, now: int, writeFails: bool)
      requires CanComplete(task.data)
      modifies this`error, db`tasks
      ensures !writeFails && task.id in old(db.tasks) ==>
        db.tasks == old(db.tasks)[task.id := RequestCompletion(old(db.tasks)[task.id], now)] && error == old(error)
      ensures writeFails || task.id !in old(db.tasks) ==>
        db.tasks == old(db.tasks) && error == Some(UPDATE_ERROR)
      ensures !writeFails && task.id in old(db.tasks) && old(db.tasks)[task.id] == task.data ==>
        old(db.tasks)[task.id].status == STATUS_PENDING && db.tasks[task.id].status == STATUS_REQUESTED
      ensures KnownStatuses(old(db.tasks)) ==> KnownStatuses(db.tasks)
    {
      HandleCompleteTask(db, task.id, now, writeFails);
    }

    /** The "Info" button. */
    method ShowInfo(task: Doc<Task>)
      modifies this`selectedTask, this`isInfoModalOpen
      ensures selectedTask == Some(task) && isInfoModalOpen
    {
      selectedTask := Some(task);
      isInfoModalOpen := true;
    }

    /** The close buttons of the modal. */
    method CloseInfo()
      modifies this`selectedTask, this`isInfoModalOpen
      ensures selectedTask == None && !isInfoModalOpen
    {
      isInfoModalOpen := false;
      selectedTask := None;
    }

    /** "Mark as Complete" inside the modal, shown only while the modal is open on a task
        whose status, as last listed, is pending. It completes the task and closes the modal. */
    method CompleteFromModal(db: Db, now: int, writeFails: bool)
      requires isInfoModalOpen && selectedTask.Some? && CanComplete(selectedTask.value.data)
      modifies this, db`tasks
      ensures var id := old(selectedTask.value.id);
        && (!writeFails && id in old(db.tasks) ==>
              db.tasks == old(db.tasks)[id := RequestCompletion(old(db.tasks)[id], now)] && error == old(error))
        && (writeFails || id !in old(db.tasks) ==> db.tasks == old(db.tasks) && error == Some(UPDATE_ERROR))
      ensures selectedTask == None && !isInfoModalOpen
      ensures KnownStatuses(old(db.tasks)) ==> KnownStatuses(db.tasks)
    {
      HandleCompleteTask(db, selectedTask.value.id, now, writeFails);
      CloseInfo();
    }
  }
}
