/**
 * The `tasks` table and the queries the task tools run on it
 * (supabase/functions/execute-tool/index.ts, cases create_task … get_next_task).
 * Rows are values; the table is a sequence in insertion order.  `ORDER BY` is the stable
 * sort of the Ordering module, so rows tied on every sort key stay in insertion order.
 */
module Tasks {
  import opened Wrappers
  import opened Text
  import Ordering

  const Pending := "pending"
  const InProgress := "in_progress"
  const Completed := "completed"

  /** A `tasks` row. Ids and timestamps are naturals; `result` is kept as text. */
  datatype Task = Task(
    id: nat,
    agent: nat,
    title: string,
    description: Option<string>,
    status: string,
    priority: int,
    parent: Option<nat>,
    result: Option<string>,
    createdAt: nat,
    completedAt: Option<nat>)

  // ---- the table's integrity ----

  predicate HasTask(tasks: seq<Task>, id: nat) {
    exists i :: 0 <= i < |tasks| && tasks[i].id == id
  }

  /** Primary key: no two rows share an id. */
  predicate UniqueIds(tasks: seq<Task>) {
    forall i, j :: 0 <= i < j < |tasks| ==> tasks[i].id != tasks[j].id
  }

  /** Every id is below the next one to hand out. */
  predicate IdsBelow(tasks: seq<Task>, next: nat) {
    forall i :: 0 <= i < |tasks| ==> tasks[i].id < next
  }

  /** The foreign key `tasks_parent_task_id_fkey`: a parent id names an existing row. */
  predicate ParentsExist(tasks: seq<Task>) {
    forall i {:trigger tasks[i].parent} :: 0 <= i < |tasks| && tasks[i].parent.Some? ==> HasTask(tasks, tasks[i].parent.value)
  }

  predicate TableValid(tasks: seq<Task>, next: nat) {
    UniqueIds(tasks) && IdsBelow(tasks, next) && ParentsExist(tasks)
  }

  /** The row with the given id (`.eq("id", id).single()`). */
  function Find(tasks: seq<Task>, id: nat): (r: Option<Task>)
    ensures r.Some? <==> HasTask(tasks, id)
    ensures r.Some? ==> r.value in tasks && r.value.id == id
    decreases |tasks|
  {
    if tasks == [] then None
    else if tasks[0].id == id then Some(tasks[0])
    else
      var r := Find(tasks[1..], id);
      assert HasTask(tasks, id) <==> HasTask(tasks[1..], id) by {
        if HasTask(tasks, id) {
          var i :| 0 <= i < |tasks| && tasks[i].id == id;
          assert tasks[1..][i - 1].id == id;
        }
        if HasTask(tasks[1..], id) {
          var i :| 0 <= i < |tasks[1..]| && tasks[1..][i].id == id;
          assert tasks[i + 1].id == id;
        }
      }
      r
  }

  /** `b` is `a` with some columns updated in place: same rows, same ids, same parents. */
  predicate SameKeys(a: seq<Task>, b: seq<Task>) {
    |a| == |b| && forall i :: 0 <= i < |a| ==> a[i].id == b[i].id && a[i].parent == b[i].parent
  }

  /** An update that keeps ids and parents keeps the table valid. */
  lemma SameKeysKeepValid(a: seq<Task>, b: seq<Task>, next: nat)
    requires TableValid(a, next) && SameKeys(a, b)
    ensures TableValid(b, next)
  {
    forall i | 0 <= i < |b| && b[i].parent.Some? ensures HasTask(b, b[i].parent.value) {
      var p := b[i].parent.value;
      assert a[i].parent == Some(p);
      var j :| 0 <= j < |a| && a[j].id == p;
      assert b[j].id == p;
    }
  }

  lemma AppendedHas(tasks: seq<Task>, t: Task)
    ensures HasTask(tasks + [t], t.id)
  {
    assert (tasks + [t])[|tasks|] == t;
  }

  /** Appending rows with fresh ids whose parents exist keeps the table valid. */
  lemma AppendKeepsValid(tasks: seq<Task>, next: nat, added: seq<Task>, next': nat)
    requires TableValid(tasks, next) && next <= next'
    requires UniqueIds(added)
    requires forall i :: 0 <= i < |added| ==> next <= added[i].id < next'
    requires forall i :: 0 <= i < |added| && added[i].parent.Some? ==> HasTask(tasks, added[i].parent.value)
    ensures TableValid(tasks + added, next')
  {
    var r := tasks + added;
    forall i, j | 0 <= i < j < |r| ensures r[i].id != r[j].id {
      if j >= |tasks| && i < |tasks| {
        assert r[i].id < next <= r[j].id;
      }
    }
    forall i | 0 <= i < |r| && r[i].parent.Some? ensures HasTask(r, r[i].parent.value) {
      var p := r[i].parent.value;
      assert HasTask(tasks, p);
      var j :| 0 <= j < |tasks| && tasks[j].id == p;
      assert r[j].id == p;
    }
  }

  // ---- list_tasks ----

  /** `ORDER BY priority DESC, created_at DESC`. */
  predicate ListedBefore(a: Task, b: Task) {
    a.priority > b.priority || (a.priority == b.priority && a.createdAt >= b.createdAt)
  }

  /** The `WHERE` of `list_tasks`: this agent, the status when one is given, roots when asked. */
  predicate Listed(t: Task, agent: nat, status: Option<string>, parentOnly: bool) {
    t.agent == agent && (!Truthy(status) || t.status == status.value) && (!parentOnly || t.parent.None?)
  }

  const ListLimit := 20

  function ListTasks(tasks: seq<Task>, agent: nat, status: Option<string>, parentOnly: bool): (r: seq<Task>)
    ensures |r| <= ListLimit
    ensures forall t :: t in r ==> t in tasks && Listed(t, agent, status, parentOnly)
  {
    var p := (t: Task) => Listed(t, agent, status, parentOnly);
    var sel := Ordering.Filter(tasks, p);
    Ordering.SortMembers(sel, ListedBefore);
    forall t | t in sel ensures t in tasks && p(t) {
      Ordering.FilterMembers(tasks, p, t);
    }
    var sorted := Ordering.SortBy(sel, ListedBefore);
    var r := Ordering.Limit(sorted, ListLimit);
    assert forall t :: t in r ==> t in sorted by {
      forall t | t in r ensures t in sorted {
        var i :| 0 <= i < |r| && r[i] == t;
        assert sorted[i] == t;
      }
    }
    r
  }

  lemma ListedBeforePreorder()
    ensures Ordering.Preorder(ListedBefore)
  {
  }

  /**
   * `list_tasks` returns at most 20 of the agent's rows that pass the filters, highest priority
   * first and newest first among equal priorities, and no row it leaves out ranks before one it
   * returns; when at most 20 rows pass, all of them are returned.
   */
  lemma ListTasksSpec(tasks: seq<Task>, agent: nat, status: Option<string>, parentOnly: bool)
    ensures var r := ListTasks(tasks, agent, status, parentOnly);
            var sel := Ordering.Filter(tasks, (t: Task) => Listed(t, agent, status, parentOnly));
            && |r| <= ListLimit
            && (forall i :: 0 <= i < |r| ==> r[i] in tasks && Listed(r[i], agent, status, parentOnly))
            && Ordering.Sorted(r, ListedBefore)
            && (forall x, y :: x in r && y in sel && y !in r ==> ListedBefore(x, y))
            && (|sel| <= ListLimit ==> multiset(r) == multiset(sel))
  {
    var p := (t: Task) => Listed(t, agent, status, parentOnly);
    var sel := Ordering.Filter(tasks, p);
    var r := ListTasks(tasks, agent, status, parentOnly);
    ListedBeforePreorder();
    Ordering.TopK(sel, ListLimit, ListedBefore);
    Ordering.SortPermutes(sel, ListedBefore);
    forall i | 0 <= i < |r| ensures r[i] in tasks && Listed(r[i], agent, status, parentOnly) {
      assert r[i] in multiset(sel);
      Ordering.FilterMembers(tasks, p, r[i]);
    }
  }

  // ---- get_next_task ----

  /** A task `get_next_task` may pick: the agent's, and pending. */
  predicate Candidate(t: Task, agent: nat) {
    t.agent == agent && t.status == Pending
  }

  /** `ORDER BY priority DESC, created_at ASC`. */
  predicate Ahead(a: Task, b: Task) {
    a.priority > b.priority || (a.priority == b.priority && a.createdAt <= b.createdAt)
  }

  lemma AheadPreorder()
    ensures Ordering.Preorder(Ahead)
  {
  }

  /** `... ORDER BY ... LIMIT 1` followed by `.single()`: no row is an error, here `None`. */
  function NextPending(tasks: seq<Task>, agent: nat): (r: Option<Task>)
    ensures r.Some? ==> r.value in tasks && Candidate(r.value, agent)
  {
    var p := (t: Task) => Candidate(t, agent);
    var sel := Ordering.Filter(tasks, p);
    Ordering.SortMembers(sel, Ahead);
    var sorted := Ordering.SortBy(sel, Ahead);
    if sorted == [] then None
    else
      Ordering.FilterMembers(tasks, p, sorted[0]);
      Some(sorted[0])
  }

  /**
   * The next task is one of the agent's pending tasks with the highest priority and, among
   * those, the earliest creation; there is none exactly when the agent has no pending task.
   */
  lemma NextPendingSpec(tasks: seq<Task>, agent: nat)
    ensures NextPending(tasks, agent).None? <==> forall i :: 0 <= i < |tasks| ==> !Candidate(tasks[i], agent)
    ensures NextPending(tasks, agent).Some? ==>
      var t := NextPending(tasks, agent).value;
      t in tasks && Candidate(t, agent)
      && forall u :: u in tasks && Candidate(u, agent) ==>
           t.priority > u.priority || (t.priority == u.priority && t.createdAt <= u.createdAt)
  {
    var p := (t: Task) => Candidate(t, agent);
    var sel := Ordering.Filter(tasks, p);
    AheadPreorder();
    Ordering.SortedHead(sel, Ahead);
    if sel == [] {
      forall i | 0 <= i < |tasks| ensures !Candidate(tasks[i], agent) {
        Ordering.FilterMembers(tasks, p, tasks[i]);
      }
    } else {
      var t := Ordering.SortBy(sel, Ahead)[0];
      Ordering.FilterMembers(tasks, p, t);
      forall u | u in tasks && Candidate(u, agent) ensures Ahead(t, u) {
        Ordering.FilterMembers(tasks, p, u);
      }
      var k :| 0 <= k < |tasks| && tasks[k] == t;
      assert Candidate(tasks[k], agent);
    }
  }

  // ---- get_task ----

  /** `ORDER BY priority ASC`. */
  predicate LowerPriorityFirst(a: Task, b: Task) {
    a.priority <= b.priority
  }

  lemma LowerPriorityFirstPreorder()
    ensures Ordering.Preorder(LowerPriorityFirst)
  {
  }

  predicate ChildOf(t: Task, parent: nat) {
    t.parent == Some(parent)
  }

  /** The children of a task, by ascending priority (any agent's: the query does not filter). */
  function Subtasks(tasks: seq<Task>, parent: nat): (r: seq<Task>)
    ensures forall t :: t in r ==> t in tasks && t.parent == Some(parent)
  {
    var p := (t: Task) => ChildOf(t, parent);
    var sel := Ordering.Filter(tasks, p);
    Ordering.SortMembers(sel, LowerPriorityFirst);
    forall t | t in sel ensures t in tasks && p(t) {
      Ordering.FilterMembers(tasks, p, t);
    }
    Ordering.SortBy(sel, LowerPriorityFirst)
  }

  /** `get_task` lists exactly the children of the task, lowest priority first. */
  lemma SubtasksSpec(tasks: seq<Task>, parent: nat)
    ensures var r := Subtasks(tasks, parent);
            && Ordering.Sorted(r, LowerPriorityFirst)
            && multiset(r) == multiset(Ordering.Filter(tasks, (t: Task) => ChildOf(t, parent)))
            && forall t :: t in r <==> t in tasks && t.parent == Some(parent)
  {
    var p := (t: Task) => ChildOf(t, parent);
    var sel := Ordering.Filter(tasks, p);
    LowerPriorityFirstPreorder();
    Ordering.SortSorted(sel, LowerPriorityFirst);
    Ordering.SortPermutes(sel, LowerPriorityFirst);
    forall t ensures t in Subtasks(tasks, parent) <==> t in tasks && t.parent == Some(parent) {
      Ordering.FilterMembers(tasks, p, t);
      assert t in Subtasks(tasks, parent) <==> t in multiset(sel);
    }
  }

  function CountCompleted(tasks: seq<Task>): (r: nat)
    ensures r <= |tasks|
  {
    if tasks == [] then 0 else (if tasks[0].status == Completed then 1 else 0) + CountCompleted(tasks[1..])
  }

  // ---- update_task ----

  /**
   * The row after `update_task`'s `updates` object: a truthy status replaces the status, and
   * `completed` also stamps `completed_at`; a given result replaces the result.
   */
  function Patched(t: Task, status: Option<string>, result: Option<string>, now: nat): (r: Task)
    ensures r.id == t.id && r.parent == t.parent && r.agent == t.agent && r.title == t.title
    ensures r.priority == t.priority && r.createdAt == t.createdAt && r.description == t.description
    ensures r.status == (if Truthy(status) then status.value else t.status)
    ensures r.completedAt == (if status == Some(Completed) then Some(now) else t.completedAt)
    ensures r.result == (if result.Some? then result else t.result)
  {
    t.(status := if Truthy(status) then status.value else t.status,
       completedAt := if status == Some(Completed) then Some(now) else t.completedAt,
       result := if result.Some? then result else t.result)
  }

  /** `siblings.every(s => s.status === "completed")` over all rows with that parent. */
  predicate AllChildrenCompleted(tasks: seq<Task>, parent: nat) {
    forall i :: 0 <= i < |tasks| && tasks[i].parent == Some(parent) ==> tasks[i].status == Completed
  }

  /** `update_task`'s update: `Patched` applied to the row with that id. */
  function PatchTask(tasks: seq<Task>, id: nat, status: Option<string>, result: Option<string>, now: nat)
    : (r: seq<Task>)
    ensures SameKeys(tasks, r)
    ensures forall i :: 0 <= i < |tasks| ==>
              r[i] == if tasks[i].id == id then Patched(tasks[i], status, result, now) else tasks[i]
  {
    seq(|tasks|, i requires 0 <= i < |tasks| =>
      if tasks[i].id == id then Patched(tasks[i], status, result, now) else tasks[i])
  }

  /** The cascade's update: that row becomes `completed`, stamped `now`. */
  function CompleteTask(tasks: seq<Task>, id: nat, now: nat): (r: seq<Task>)
    ensures SameKeys(tasks, r)
    ensures forall i :: 0 <= i < |tasks| ==>
              r[i] == if tasks[i].id == id then tasks[i].(status := Completed, completedAt := Some(now)) else tasks[i]
  {
    seq(|tasks|, i requires 0 <= i < |tasks| =>
      if tasks[i].id == id then tasks[i].(status := Completed, completedAt := Some(now)) else tasks[i])
  }

  /** `get_next_task`'s update: that row becomes `in_progress`. */
  function StartTask(tasks: seq<Task>, id: nat): (r: seq<Task>)
    ensures SameKeys(tasks, r)
    ensures forall i :: 0 <= i < |tasks| ==>
              r[i] == if tasks[i].id == id then tasks[i].(status := InProgress) else tasks[i]
  {
    seq(|tasks|, i requires 0 <= i < |tasks| => if tasks[i].id == id then tasks[i].(status := InProgress) else tasks[i])
  }

  /** Whether `update_task` goes on to complete the parent of the updated row `u`. */
  predicate Cascades(patched: seq<Task>, u: Task, status: Option<string>) {
    u.parent.Some? && status == Some(Completed) && AllChildrenCompleted(patched, u.parent.value)
  }

  /**
   * The table after `update_task` on an existing row: the row is patched at `now`, then, when it
   * was completed and every child of its parent now is, the parent is completed at `later`.
   */
  function UpdateTable(tasks: seq<Task>, id: nat, status: Option<string>, result: Option<string>, now: nat, later: nat)
    : (r: seq<Task>)
    requires HasTask(tasks, id)
    ensures SameKeys(tasks, r)
  {
    var u := Patched(Find(tasks, id).value, status, result, now);
    var patched := PatchTask(tasks, id, status, result, now);
    if Cascades(patched, u, status) then CompleteTask(patched, u.parent.value, later) else patched
  }

  /**
   * What `update_task` touches: only the row itself and, on completion, its parent. A status
   * other than `completed` never stamps `completed_at` and never reaches the parent.
   */
  lemma UpdateTableSpec(tasks: seq<Task>, id: nat, status: Option<string>, result: Option<string>, now: nat,
                        later: nat)
    requires UniqueIds(tasks) && HasTask(tasks, id)
    ensures var t := Find(tasks, id).value;
            var r := UpdateTable(tasks, id, status, result, now, later);
            && SameKeys(tasks, r)
            && (forall i :: 0 <= i < |tasks| && tasks[i].id != id && Some(tasks[i].id) != t.parent ==> r[i] == tasks[i])
            && (status != Some(Completed) ==> forall i :: 0 <= i < |tasks| && tasks[i].id != id ==> r[i] == tasks[i])
            && (status != Some(Completed) ==> forall i :: 0 <= i < |tasks| ==> r[i].completedAt == tasks[i].completedAt)
            && (forall i :: 0 <= i < |tasks| && tasks[i].id == id && t.parent != Some(id) ==>
                  r[i] == Patched(t, status, result, now))
  {
    var t := Find(tasks, id).value;
    forall i | 0 <= i < |tasks| && tasks[i].id == id ensures tasks[i] == t {
      var k :| 0 <= k < |tasks| && tasks[k] == t;
      assert tasks[k].id == id;
    }
  }

  /** `update_task` keeps the table's ids and parents, so it keeps the table valid. */
  lemma UpdateKeepsValid(tasks: seq<Task>, id: nat, status: Option<string>, result: Option<string>, now: nat,
                         later: nat, next: nat)
    requires TableValid(tasks, next) && HasTask(tasks, id)
    ensures TableValid(UpdateTable(tasks, id, status, result, now, later), next)
  {
    UpdateTableSpec(tasks, id, status, result, now, later);
    SameKeysKeepValid(tasks, UpdateTable(tasks, id, status, result, now, later), next);
  }

  /**
   * After completing a row, its parent `tasks[j]` ends up completed at `later` exactly when
   * every row under it is completed (or it already was, stamped at that very time).
   */
  lemma CascadeIff(tasks: seq<Task>, id: nat, status: Option<string>, result: Option<string>, now: nat, later: nat,
                   j: nat)
    requires UniqueIds(tasks) && HasTask(tasks, id)
    requires j < |tasks| && Some(tasks[j].id) == Find(tasks, id).value.parent && tasks[j].id != id
    requires status == Some(Completed)
    ensures var r := UpdateTable(tasks, id, status, result, now, later);
            var patched := PatchTask(tasks, id, status, result, now);
            (r[j] == tasks[j].(status := Completed, completedAt := Some(later)))
            <==> AllChildrenCompleted(patched, tasks[j].id)
                 || (tasks[j].status == Completed && tasks[j].completedAt == Some(later))
  {
  }

  // ---- reply texts ----

  /** The reply of `update_task` on an existing row, with the cascade note when it fired. */
  function UpdateReply(tasks: seq<Task>, id: nat, status: Option<string>, result: Option<string>, now: nat): string
    requires HasTask(tasks, id)
  {
    var u := Patched(Find(tasks, id).value, status, result, now);
    UpdatedText(id, u) + (if Cascades(PatchTask(tasks, id, status, result, now), u, status) then CascadeNote else "")
  }

  function StatusIcon(status: string): string {
    if status == Completed then "✅" else if status == InProgress then "🔄" else "⏳"
  }

  function CreatedText(id: nat, title: string, priority: int, parent: Option<nat>): string {
    "[Task Created]\nID: " + NatText(id) + "\nTitle: " + title + "\nPriority: " + IntText(priority)
    + "\nStatus: pending" + (if parent.Some? then "\nParent Task: " + NatText(parent.value) else "")
  }

  function SubtaskLine(n: nat, t: Task): string {
    "  " + NatText(n) + ". " + t.title + " (ID: " + NatText(t.id) + ")"
  }

  function DecomposedText(goal: string, parentId: nat, children: seq<Task>): string {
    "[Task Decomposed]\nGoal: " + goal + "\nID: " + NatText(parentId) + "\n\nSubtasks created ("
    + NatText(|children|) + "):\n" + Join(Numbered(children, SubtaskLine, 0), "\n")
  }

  function ListEntry(n: nat, t: Task): string {
    NatText(n) + ". " + StatusIcon(t.status) + " " + t.title + "\n   ID: " + NatText(t.id)
    + "\n   Status: " + t.status + (if t.parent.Some? then "\n   (subtask)" else "")
  }

  function ListText(rows: seq<Task>): string {
    if rows == [] then "No tasks found."
    else "[Current Tasks]\n" + Join(Numbered(rows, ListEntry, 0), "\n\n")
  }

  function ChildLine(n: nat, t: Task): string {
    "  " + NatText(n) + ". " + StatusIcon(t.status) + " " + t.title
  }

  function DetailsText(t: Task, children: seq<Task>): string {
    "[Task Details]\n" + StatusIcon(t.status) + " " + t.title + "\nID: " + NatText(t.id)
    + "\nStatus: " + t.status + "\nPriority: " + IntText(t.priority)
    + "\nDescription: " + OrElse(t.description, "None")
    + (if children == [] then ""
       else "\n\nSubtasks (" + NatText(CountCompleted(children)) + "/" + NatText(|children|)
            + " completed):\n" + Join(Numbered(children, ChildLine, 0), "\n"))
  }

  const CascadeNote := "\n\n✅ All subtasks complete - parent task marked as completed!"

  function UpdatedText(id: nat, t: Task): string {
    "[Task Updated]\nID: " + NatText(id) + "\nNew Status: " + t.status
    + (if t.completedAt.Some? then "\nCompleted: " + NatText(t.completedAt.value) else "")
  }

  const NoPendingTask := "No pending tasks found. All tasks are complete or none exist."

  function NextTaskText(t: Task): string {
    "[Next Task to Work On]\nTitle: " + t.title + "\nID: " + NatText(t.id) + "\nPriority: "
    + IntText(t.priority) + "\nDescription: " + OrElse(t.description, "None")
    + "\n\nTask is now marked as in_progress."
  }
}
