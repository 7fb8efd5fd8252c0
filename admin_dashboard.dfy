/** The admin dashboard: the second task-creation path, the task and employee
    queries, and the assignee-name lookup. */
module AdminDashboard {
  import opened Text
  import opened Seqs
  import opened Store

  const ASSIGN_ERROR: string := "Error assigning task. Please try again later."
  const UNKNOWN: string := "Unknown"

  /** The tasks query `where('assignedBy', '==', uid)` over a snapshot of the collection. */
  function TasksAssignedBy(tasks: seq<Doc<Task>>, uid: string): (r: seq<Doc<Task>>)
    ensures forall i :: 0 <= i < |r| ==> r[i] in tasks && r[i].data.assignedBy == uid
    ensures forall i :: 0 <= i < |tasks| && tasks[i].data.assignedBy == uid ==> tasks[i] in r
  {
    Filter(tasks, (d: Doc<Task>) => d.data.assignedBy == uid)
  }

  /** The users query `where('role', '==', 'employee')` over a snapshot of the collection. */
  function Employees(users: seq<Doc<User>>): (r: seq<Doc<User>>)
    ensures forall i :: 0 <= i < |r| ==> r[i] in users && r[i].data.role == ROLE_EMPLOYEE
    ensures forall i :: 0 <= i < |users| && users[i].data.role == ROLE_EMPLOYEE ==> users[i] in r
  {
    Filter(users, (d: Doc<User>) => d.data.role == ROLE_EMPLOYEE)
  }

  /** `i` is the position `find` stops at when looking for `id`. */
  predicate FirstWithId(employees: seq<Doc<User>>, id: string, i: int) {
    0 <= i < |employees| && employees[i].id == id && forall j :: 0 <= j < i ==> employees[j].id != id
  }

  /** `employees.find(e => e.id === task.assignedTo)?.name || 'Unknown'`: the name of the
      first employee with that id, or "Unknown" when there is none or its name is empty. */
  function AssigneeName(employees: seq<Doc<User>>, assignedTo: string): (r: string)
    ensures r == UNKNOWN || exists i :: 0 <= i < |employees| && employees[i].id == assignedTo && employees[i].data.name == r
    ensures (forall i :: 0 <= i < |employees| ==> employees[i].id != assignedTo) ==> r == UNKNOWN
    ensures forall i :: FirstWithId(employees, assignedTo, i) && employees[i].data.name != "" ==>
                          r == employees[i].data.name
    ensures forall i :: FirstWithId(employees, assignedTo, i) && employees[i].data.name == "" ==> r == UNKNOWN
  {
    if employees == [] then UNKNOWN
    else if employees[0].id == assignedTo then
      (if employees[0].data.name != "" then employees[0].data.name else UNKNOWN)
    else
      var r := AssigneeName(employees[1..], assignedTo);
      assert forall i :: 1 <= i < |employees| ==> employees[i] == employees[1..][i - 1];
      r
  }

  /** The dashboard's form and error banner. */
  class AdminDashboard {
    var title: string
    var assignedTo: string
    var error: Option<string>

    constructor ()
      ensures title == "" && assignedTo == "" && error == None
    {
      title, assignedTo, error := "", "", None;
    }

    /** `handleAssignTask`: the form fields plus `status` and `assignedBy`, with no check of
        the fields themselves. `user` is the signed-in user's uid, absent when there is none,
        in which case reading `user.uid` throws inside the `try`. */
    method HandleAssignTask(db: Db, user: Option<string>, taskId: string, now: int, writeFails: bool)
      requires taskId !in db.tasks
      modifies this, db`tasks
      ensures user.Some? && !writeFails ==>
        && db.tasks == old(db.tasks)[taskId := Task(
             old(title), None, old(assignedTo), user.value, STATUS_PENDING, now, None, None, None, None)]
        && title == "" && assignedTo == "" && error == old(error)
      ensures user.None? || writeFails ==>
        && db.tasks == old(db.tasks) && error == Some(ASSIGN_ERROR)
        && title == old(title) && assignedTo == old(assignedTo)
      ensures KnownStatuses(old(db.tasks)) ==> KnownStatuses(db.tasks)
    {
      if user.None? || writeFails {
        error := Some(ASSIGN_ERROR);
      } else {
        db.tasks := db.tasks[taskId := Task(
          title, None, assignedTo, user.value, STATUS_PENDING, now, None, None, None, None)];
        title, assignedTo := "", "";
      }
    }
  }

  /** Unlike the modal path, this handler writes whatever the form holds. The title input
      is `required`, so the browser refuses an empty title, but a title of one space passes
      and is written, since nothing trims it; so is a task whose assignee has no user record. */
  method AssignWithoutChecks() returns (db: Db, page: AdminDashboard)
    ensures "t1" in db.tasks && db.tasks["t1"].assignedTo !in db.users
    ensures db.tasks["t1"].title == " " && Trim(db.tasks["t1"].title) == ""
  {
    db := new Db(map[], map[], map[], map[]);
    page := new AdminDashboard();
    page.title := " ";
    page.assignedTo := "nobody";
    page.HandleAssignTask(db, Some("admin1"), "t1", 0, false);
  }
}
