/** The kanban board (`components/fulfillment-os.tsx`): one column per task status,
    the status changes made by dropping a card, by the status selector and by
    'Complete Task', the record the 'New Task' form hands to `addTask`, and the
    CEO-only delete. */
module FulfillmentOS {
  import opened Optional
  import opened Seqs
  import opened Collection
  import opened Entities
  import opened Auth
  import opened Store

  /** `tasks.filter(t => t.status === status)`: a column's cards, in store order. Its
      length is the count shown in the column header. */
  function Column(tasks: seq<Task>, status: TaskStatus): (r: seq<Task>)
    ensures forall i :: 0 <= i < |r| ==> r[i] in tasks && r[i].status == status
    ensures forall i :: 0 <= i < |tasks| && tasks[i].status == status ==> tasks[i] in r
    ensures IsSubseq(r, tasks)
  {
    var keep := (t: Task) => t.status == status;
    FilterIsSubseq(tasks, keep);
    Filter(tasks, keep)
  }

  /** A column holds each task of its status exactly as often as the store does. */
  lemma ColumnCounts(tasks: seq<Task>, status: TaskStatus)
    ensures forall t :: multiset(Column(tasks, status))[t] == if t.status == status then multiset(tasks)[t] else 0
  {
    FilterCounts(tasks, (t: Task) => t.status == status);
  }

  /** Every task sits in exactly one column: the one for its status. */
  lemma ColumnsDisjoint(tasks: seq<Task>)
    ensures forall i, s :: 0 <= i < |tasks| ==> (tasks[i] in Column(tasks, s) <==> tasks[i].status == s)
  {
    forall i, s | 0 <= i < |tasks| && tasks[i] in Column(tasks, s) ensures tasks[i].status == s {
      var col := Column(tasks, s);
      var k :| 0 <= k < |col| && col[k] == tasks[i];
    }
  }

  /** The four header counts add up to the number of tasks. */
  lemma {:induction false} ColumnsCoverAll(tasks: seq<Task>)
    ensures |Column(tasks, Todo)| + |Column(tasks, InProgress)| + |Column(tasks, Review)|
          + |Column(tasks, Done)| == |tasks|
  {
    if tasks != [] {
      ColumnsCoverAll(tasks[1..]);
      ColumnStep(tasks, Todo);
      ColumnStep(tasks, InProgress);
      ColumnStep(tasks, Review);
      ColumnStep(tasks, Done);
    }
  }

  /** The first task counts towards its own column only. */
  lemma ColumnStep(tasks: seq<Task>, s: TaskStatus)
    requires tasks != []
    ensures |Column(tasks, s)| == |Column(tasks[1..], s)| + (if tasks[0].status == s then 1 else 0)
  {
  }

  /** A status patch: `{ status }` and nothing else. */
  function StatusPatch(status: TaskStatus): (p: TaskPatch)
    ensures p.status == Some(status) && p.id == None
  {
    NoTaskChange.(status := Some(status))
  }

  /** The status selector of the detail panel: `updateTask(id, { status })`. */
  function ChangeStatus(s: Snapshot, id: string, status: TaskStatus): (r: Snapshot)
    ensures r.clients == s.clients && r.posts == s.posts && r.protocols == s.protocols
    ensures |r.tasks| == |s.tasks|
    ensures forall i :: 0 <= i < |s.tasks| && s.tasks[i].id == id ==> r.tasks[i] == s.tasks[i].(status := status)
    ensures forall i :: 0 <= i < |s.tasks| && s.tasks[i].id != id ==> r.tasks[i] == s.tasks[i]
  {
    var r := UpdateTask(s, id, StatusPatch(status));
    forall i | 0 <= i < |s.tasks| && s.tasks[i].id == id ensures r.tasks[i] == s.tasks[i].(status := status) {
      StatusPatchTouchesOnlyStatus(s.tasks[i], status);
    }
    r
  }

  /** Dropping a dragged card on a column: an empty dragged id is ignored; otherwise
      only the status changes, to the column's. */
  function DropOnColumn(s: Snapshot, draggedId: string, column: TaskStatus): (r: Snapshot)
    ensures draggedId == "" ==> r == s
    ensures draggedId != "" ==> r == ChangeStatus(s, draggedId, column)
  {
    if draggedId == "" then s else ChangeStatus(s, draggedId, column)
  }

  /** 'Complete Task': status becomes Done; `completedAt` is left as it was. */
  function CompleteTask(s: Snapshot, id: string): (r: Snapshot)
    ensures r.clients == s.clients && r.posts == s.posts && r.protocols == s.protocols
    ensures |r.tasks| == |s.tasks|
    ensures forall i :: 0 <= i < |s.tasks| && s.tasks[i].id == id ==> r.tasks[i] == s.tasks[i].(status := Done)
    ensures forall i :: 0 <= i < |s.tasks| && s.tasks[i].id == id ==>
      r.tasks[i].status == Done && r.tasks[i].completedAt == s.tasks[i].completedAt
    ensures forall i :: 0 <= i < |s.tasks| && s.tasks[i].id != id ==> r.tasks[i] == s.tasks[i]
  {
    ChangeStatus(s, id, Done)
  }

  /** Moving a card never adds pending work: completing a task never raises the count
      of tasks not yet Done, and the completed task lands in the Done column. */
  lemma CompleteTaskLaws(s: Snapshot, id: string)
    ensures |Filter(CompleteTask(s, id).tasks, (t: Task) => t.status != Done)|
         <= |Filter(s.tasks, (t: Task) => t.status != Done)|
    ensures forall i :: 0 <= i < |s.tasks| && s.tasks[i].id == id ==>
      CompleteTask(s, id).tasks[i] in Column(CompleteTask(s, id).tasks, Done)
  {
    var r := CompleteTask(s, id);
    FilterPointwiseMonotone(s.tasks, r.tasks, (t: Task) => t.status != Done);
  }

  /** What the 'New Task' form collects. */
  datatype TaskForm = TaskForm(
    clientId: string,
    name: string,
    phase: string,
    assignedRole: string,
    deadline: string,
    priority: Priority,
    notes: string)

  /** `handleAddTask`'s record: the form's fields and a new task's defaults. It has no
      id or creation time: the empty placeholders are replaced by the store. */
  function TaskFromForm(f: TaskForm): (t: Task)
    ensures t.status == Todo && t.currentStage == "Todo" && t.assetLinks == []
    ensures t.sopReference == None && t.completedAt == None
    ensures t.clientId == f.clientId && t.name == f.name && t.priority == f.priority
    ensures t.deadline == f.deadline && t.notes == f.notes
    ensures t.phase == f.phase && t.assignedRole == f.assignedRole
  {
    Task("", f.clientId, f.name, f.phase, "Todo", f.assignedRole, Todo, f.deadline, f.priority,
         [], None, f.notes, "", None)
  }

  /** A new task lands at the end of the Todo column, whatever client id it names
      (no check against the client list). */
  lemma NewTaskJoinsTodo(s: Snapshot, f: TaskForm, freshId: string, now: string)
    ensures var r := AddTask(s, TaskFromForm(f), freshId, now);
            var col := Column(r.tasks, Todo);
            |col| == |Column(s.tasks, Todo)| + 1 && col[|col| - 1] == r.tasks[|s.tasks|]
            && r.tasks[|s.tasks|].clientId == f.clientId
  {
    var r := AddTask(s, TaskFromForm(f), freshId, now);
    var t := r.tasks[|s.tasks|];
    assert r.tasks == s.tasks + [t];
    FilterConcat(s.tasks, [t], (x: Task) => x.status == Todo);
  }

  datatype TaskAction = CompleteAction | DeleteAction

  /** The detail panel's buttons: 'Complete Task' always, 'Delete' only for the CEO. */
  function TaskActions(role: Option<string>): (r: seq<TaskAction>)
    ensures CompleteAction in r
    ensures DeleteAction in r <==> IsCeo(role)
  {
    if IsCeo(role) then [CompleteAction, DeleteAction] else [CompleteAction]
  }
}
