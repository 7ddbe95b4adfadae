/**
 * The tool executor (supabase/functions/execute-tool/index.ts): one method per case of the
 * `switch (toolName)`, over an in-memory copy of the `tasks` and `agent_memory` tables.
 *
 * Each database statement whose error the source inspects takes a `fault` argument: `Some(msg)`
 * is a failure of the store with that message, `None` lets the statement run.  Failures that
 * the table contents decide (a missing row, the parent foreign key, a null title) are computed
 * from the state.  Statements whose outcome the source ignores are modelled as succeeding.
 * `clock` stands for both clocks the source reads (`now()` in the database and `new Date()`
 * in the function); every statement that stamps a time takes the current value and moves it on.
 */
module Executor {
  import opened Wrappers
  import opened Text
  import opened Tasks
  import opened Memories
  import Calculator
  import Formatters

  /** One entry of `decompose_task`'s `subtasks` array. */
  datatype Subtask = Subtask(title: Option<string>, description: Option<string>, priority: Option<int>)

  const TitleRequired := "Error: Task title is required"
  const DecomposeRequired := "Error: Goal title and subtasks array are required"
  const TaskIdRequired := "Error: task_id is required"
  const ParentKeyViolation :=
    "insert or update on table \"tasks\" violates foreign key constraint \"tasks_parent_task_id_fkey\""
  const TitleNotNull := "null value in column \"title\" of relation \"tasks\" violates not-null constraint"
  const NoSingleRow := "JSON object requested, multiple (or no) rows returned"

  /** `priority || 0`. */
  function PriorityOrZero(p: Option<int>): (r: int)
    ensures p.None? ==> r == 0
    ensures p.Some? ==> r == p.value
  {
    if p.Some? then p.value else 0
  }

  predicate AllTitled(subtasks: seq<Subtask>) {
    forall i :: 0 <= i < |subtasks| ==> subtasks[i].title.Some?
  }

  /**
   * The rows of `decompose_task`'s multi-row insert: child `i` gets the next id after its
   * predecessor, is `pending` under `parentId`, and has priority `st.priority ?? i`; the one
   * statement stamps them all with the same time.
   */
  function Children(subtasks: seq<Subtask>, agent: nat, parentId: nat, firstId: nat, now: nat): (r: seq<Task>)
    requires AllTitled(subtasks)
    ensures |r| == |subtasks|
    ensures forall i :: 0 <= i < |r| ==>
              && r[i].id == firstId + i
              && r[i].agent == agent
              && r[i].title == subtasks[i].title.value
              && r[i].description == (if Truthy(subtasks[i].description) then subtasks[i].description else None)
              && r[i].status == Pending
              && r[i].priority == (if subtasks[i].priority.Some? then subtasks[i].priority.value else i)
              && r[i].parent == Some(parentId)
              && r[i].result.None? && r[i].completedAt.None?
              && r[i].createdAt == now
  {
    seq(|subtasks|, i requires 0 <= i < |subtasks| =>
      Task(firstId + i, agent, subtasks[i].title.value,
           if Truthy(subtasks[i].description) then subtasks[i].description else None,
           Pending, if subtasks[i].priority.Some? then subtasks[i].priority.value else i,
           Some(parentId), None, now, None))
  }

  /** The children take consecutive fresh ids and all hang under the one parent. */
  lemma ChildrenInsertable(subtasks: seq<Subtask>, agent: nat, parentId: nat, firstId: nat, now: nat)
    requires AllTitled(subtasks)
    ensures var kids := Children(subtasks, agent, parentId, firstId, now);
            && Tasks.UniqueIds(kids)
            && (forall i :: 0 <= i < |kids| ==> firstId <= kids[i].id < firstId + |kids|)
            && (forall i :: 0 <= i < |kids| ==> kids[i].parent == Some(parentId))
  {
  }

  const ToolNames := "web_search, fetch_url, get_datetime, calculator, memory_store, memory_recall, "
    + "memory_search, memory_reflect, memory_forget, memory_consolidate, create_task, decompose_task, "
    + "list_tasks, get_task, update_task, get_next_task"

  function UnknownTool(name: string): string {
    "Unknown tool: " + name + ". Available tools: " + ToolNames
  }

  /** The decoded `{ toolName, toolInput }` of a request. */
  datatype ToolCall =
    | WebSearchCall(query: Option<string>)
    | FetchUrlCall(url: Option<string>)
    | DateTimeCall
    | CalculatorCall(expression: Option<string>)
    | MemoryStoreCall(content: Option<string>, memoryType: Option<string>, importance: Option<real>,
                      category: Option<string>)
    | MemoryRecallCall(query: Option<string>, limit: Option<nat>)
    | CodeExecutorCall(code: Option<string>, language: Option<string>)
    | CreateTaskCall(title: Option<string>, description: Option<string>, priority: Option<int>,
                     parentTaskId: Option<nat>)
    | DecomposeTaskCall(goal: Option<string>, goalDescription: Option<string>, subtasks: Option<seq<Subtask>>)
    | ListTasksCall(status: Option<string>, parentOnly: bool)
    | GetTaskCall(taskId: Option<nat>)
    | UpdateTaskCall(taskId: Option<nat>, newStatus: Option<string>, newResult: Option<string>)
    | NextTaskCall
    | MemorySearchCall(query: Option<string>, limit: Option<nat>, category: Option<string>)
    | MemoryReflectCall(topic: Option<string>, depth: Option<nat>)
    | MemoryForgetCall(memoryId: Option<nat>, reason: Option<string>)
    | MemoryConsolidateCall(memoryIds: Option<seq<nat>>, summary: Option<string>)
    | UnknownCall(name: string)

  /**
   * What the outside world answers during one call: the Firecrawl replies (and whether it is
   * configured), the rendered clock, the expression evaluator, the embedding and language-model
   * answers (absent when the gateway is not configured or fails), and the store failures of the
   * first and second checked statement.
   */
  datatype Services = Services(
    firecrawl: bool,
    search: Formatters.Reply<Option<seq<Formatters.SearchItem>>>,
    scrape: Formatters.Reply<Option<Formatters.Scrape>>,
    now: Formatters.Clock,
    evaluate: string -> string,
    embedding: Option<seq<real>>,
    semantic: Option<seq<Match>>,
    reflection: Option<string>,
    synthesis: Option<string>,
    fault: Option<string>,
    secondFault: Option<string>)

  class Store {
    var tasks: seq<Task>
    var memories: seq<Memory>
    var nextId: nat
    var clock: nat

    /** Primary keys, the parent foreign key, and ids below the next one handed out. */
    ghost predicate Valid()
      reads this
    {
      Tasks.TableValid(tasks, nextId) && Memories.TableValid(memories, nextId)
    }

    constructor ()
      ensures Valid()
      ensures tasks == [] && memories == [] && nextId == 0 && clock == 0
    {
      tasks := [];
      memories := [];
      nextId := 0;
      clock := 0;
    }

    /** `create_task` (lines 293-323). */
    method CreateTask(agent: nat, title: Option<string>, description: Option<string>, priority: Option<int>,
                      parent: Option<nat>, fault: Option<string>) returns (result: string)
      requires Valid()
      modifies this
      ensures Valid()
      ensures !Truthy(title) ==> result == TitleRequired && unchanged(this)
      ensures Truthy(title) && fault.Some? ==> result == "Error creating task: " + fault.value && unchanged(this)
      ensures Truthy(title) && fault.None? && parent.Some? && !HasTask(old(tasks), parent.value)
              ==> result == "Error creating task: " + ParentKeyViolation && unchanged(this)
      ensures Truthy(title) && fault.None? && (parent.None? || HasTask(old(tasks), parent.value)) ==>
                var t := Task(old(nextId), agent, title.value, description, Pending, PriorityOrZero(priority),
                              parent, None, old(clock), None);
                && tasks == old(tasks) + [t] && memories == old(memories)
                && nextId == old(nextId) + 1 && clock == old(clock) + 1
                && result == CreatedText(t.id, title.value, t.priority, parent)
    {
      if !Truthy(title) {
        return TitleRequired;
      }
      if fault.Some? {
        return "Error creating task: " + fault.value;
      }
      if parent.Some? && !HasTask(tasks, parent.value) {
        return "Error creating task: " + ParentKeyViolation;
      }
      var t := Task(nextId, agent, title.value, description, Pending, PriorityOrZero(priority), parent, None,
                    clock, None);
      Tasks.AppendKeepsValid(tasks, nextId, [t], nextId + 1);
      tasks := tasks + [t];
      nextId := nextId + 1;
      clock := clock + 1;
      result := CreatedText(t.id, title.value, t.priority, parent);
    }

    /** `decompose_task` (lines 325-375): the root first, then all children in one insert. */
    method DecomposeTask(agent: nat, goal: Option<string>, description: Option<string>,
                         subtasks: Option<seq<Subtask>>, parentFault: Option<string>, childFault: Option<string>)
      returns (result: string)
      requires Valid()
      modifies this
      ensures Valid()
      ensures memories == old(memories)
      ensures !Truthy(goal) || subtasks.None? || subtasks.value == [] ==> result == DecomposeRequired && unchanged(this)
      ensures Truthy(goal) && subtasks.Some? && subtasks.value != [] && parentFault.Some? ==>
                result == "Error creating parent task: " + parentFault.value && unchanged(this)
      ensures Truthy(goal) && subtasks.Some? && subtasks.value != [] && parentFault.None?
              && (childFault.Some? || !AllTitled(subtasks.value)) ==>
                && tasks == old(tasks) + [Task(old(nextId), agent, goal.value, description, InProgress, 1, None, None, old(clock), None)]
                && nextId == old(nextId) + 1 && clock == old(clock) + 1
                && result == SubtaskFault(childFault)
      ensures Truthy(goal) && subtasks.Some? && subtasks.value != [] && parentFault.None?
              && childFault.None? && AllTitled(subtasks.value) ==>
                var root := Task(old(nextId), agent, goal.value, description, InProgress, 1, None, None, old(clock), None);
                var kids := Children(subtasks.value, agent, root.id, root.id + 1, old(clock) + 1);
                && tasks == old(tasks) + [root] + kids
                && nextId == old(nextId) + 1 + |kids| && clock == old(clock) + 2
                && result == DecomposedText(goal.value, root.id, kids)
    {
      if !Truthy(goal) || subtasks.None? || subtasks.value == [] {
        return DecomposeRequired;
      }
      if parentFault.Some? {
        return "Error creating parent task: " + parentFault.value;
      }
      result := CreateTree(agent, goal.value, description, subtasks.value, childFault);
    }

    /** The reply when the second insert fails: its error, or the rejected null title. */
    static function SubtaskFault(childFault: Option<string>): string {
      "Parent task created but error creating subtasks: " + (if childFault.Some? then childFault.value else TitleNotNull)
    }

    /** Both inserts of `decompose_task` (lines 338-372), once the arguments are accepted. */
    method CreateTree(agent: nat, goal: string, description: Option<string>, subtasks: seq<Subtask>,
                      childFault: Option<string>) returns (result: string)
      requires Valid()
      modifies this
      ensures Valid()
      ensures memories == old(memories)
      ensures childFault.Some? || !AllTitled(subtasks) ==>
                && tasks == old(tasks) + [Task(old(nextId), agent, goal, description, InProgress, 1, None, None, old(clock), None)]
                && nextId == old(nextId) + 1 && clock == old(clock) + 1
                && result == SubtaskFault(childFault)
      ensures childFault.None? && AllTitled(subtasks) ==>
                var root := Task(old(nextId), agent, goal, description, InProgress, 1, None, None, old(clock), None);
                var kids := Children(subtasks, agent, root.id, root.id + 1, old(clock) + 1);
                && tasks == old(tasks) + [root] + kids
                && nextId == old(nextId) + 1 + |kids| && clock == old(clock) + 2
                && result == DecomposedText(goal, root.id, kids)
    {
      var root := Task(nextId, agent, goal, description, InProgress, 1, None, None, clock, None);
      Tasks.AppendedHas(tasks, root);
      InsertTasks([root]);
      if childFault.Some? || !AllTitled(subtasks) {
        return SubtaskFault(childFault);
      }
      result := InsertChildren(goal, root.id, subtasks, agent);
    }

    /** The second insert of `decompose_task`: every subtask as a child of the new root. */
    method InsertChildren(goal: string, rootId: nat, subtasks: seq<Subtask>, agent: nat) returns (result: string)
      requires Valid() && AllTitled(subtasks) && HasTask(tasks, rootId) && nextId == rootId + 1
      modifies this
      ensures Valid() && memories == old(memories)
      ensures var kids := Children(subtasks, agent, rootId, rootId + 1, old(clock));
              && tasks == old(tasks) + kids && nextId == old(nextId) + |kids| && clock == old(clock) + 1
              && result == DecomposedText(goal, rootId, kids)
    {
      var kids := Children(subtasks, agent, rootId, rootId + 1, clock);
      ChildrenInsertable(subtasks, agent, rootId, rootId + 1, clock);
      InsertTasks(kids);
      result := DecomposedText(goal, rootId, kids);
    }

    /** One `insert` into `tasks`: the rows take the next ids and the statement's one timestamp. */
    method InsertTasks(added: seq<Task>)
      requires Valid()
      requires Tasks.UniqueIds(added)
      requires forall i :: 0 <= i < |added| ==> nextId <= added[i].id < nextId + |added|
      requires forall i :: 0 <= i < |added| && added[i].parent.Some? ==> HasTask(tasks, added[i].parent.value)
      modifies this
      ensures Valid()
      ensures tasks == old(tasks) + added && nextId == old(nextId) + |added| && clock == old(clock) + 1
      ensures memories == old(memories)
    {
      Tasks.AppendKeepsValid(tasks, nextId, added, nextId + |added|);
      tasks := tasks + added;
      nextId := nextId + |added|;
      clock := clock + 1;
    }

    /** `list_tasks` (lines 377-411). */
    method ListTasks(agent: nat, status: Option<string>, parentOnly: bool, fault: Option<string>)
      returns (result: string)
      ensures fault.Some? ==> result == "Error listing tasks: " + fault.value
      ensures fault.None? ==> result == ListText(Tasks.ListTasks(tasks, agent, status, parentOnly))
    {
      if fault.Some? {
        return "Error listing tasks: " + fault.value;
      }
      result := ListText(Tasks.ListTasks(tasks, agent, status, parentOnly));
    }

    /** `get_task` (lines 413-451): any agent's task, with its children by ascending priority. */
    method GetTask(taskId: Option<nat>, fault: Option<string>) returns (result: string)
      ensures taskId.None? ==> result == TaskIdRequired
      ensures taskId.Some? && (fault.Some? || !HasTask(tasks, taskId.value))
              ==> result == "Error: Task not found (" + NatText(taskId.value) + ")"
      ensures taskId.Some? && fault.None? && HasTask(tasks, taskId.value)
              ==> result == DetailsText(Find(tasks, taskId.value).value, Subtasks(tasks, taskId.value))
    {
      if taskId.None? {
        return TaskIdRequired;
      }
      var found := Find(tasks, taskId.value);
      if fault.Some? || found.None? {
        return "Error: Task not found (" + NatText(taskId.value) + ")";
      }
      result := DetailsText(found.value, Subtasks(tasks, taskId.value));
    }

    /**
     * With a falsy status and no result the `updates` object is empty; PostgREST then updates
     * no row and returns none, so `.single()` fails as for a missing id.
     */
    static predicate NothingToUpdate(status: Option<string>, newResult: Option<string>) {
      !Truthy(status) && newResult.None?
    }

    /** `update_task` (lines 453-503), with the one-level cascade to the parent. */
    method UpdateTask(taskId: Option<nat>, status: Option<string>, newResult: Option<string>, fault: Option<string>)
      returns (result: string)
      requires Valid()
      modifies this
      ensures Valid()
      ensures memories == old(memories) && nextId == old(nextId)
      ensures taskId.None? ==> result == TaskIdRequired && unchanged(this)
      ensures taskId.Some? && fault.Some? ==> result == "Error updating task: " + fault.value && unchanged(this)
      ensures taskId.Some? && fault.None? && (!HasTask(old(tasks), taskId.value) || NothingToUpdate(status, newResult))
              ==> result == "Error updating task: " + NoSingleRow && unchanged(this)
      ensures taskId.Some? && fault.None? && HasTask(old(tasks), taskId.value) && !NothingToUpdate(status, newResult) ==>
                && tasks == UpdateTable(old(tasks), taskId.value, status, newResult, old(clock), old(clock) + 1)
                && clock == old(clock) + 2
                && result == UpdateReply(old(tasks), taskId.value, status, newResult, old(clock))
    {
      if taskId.None? {
        return TaskIdRequired;
      }
      if fault.Some? {
        return "Error updating task: " + fault.value;
      }
      var id := taskId.value;
      var found := Find(tasks, id);
      if found.None? || NothingToUpdate(status, newResult) {
        return "Error updating task: " + NoSingleRow;
      }
      result := ApplyUpdate(id, status, newResult);
    }

    /** The update itself, on a row that exists (lines 477-501). */
    method ApplyUpdate(id: nat, status: Option<string>, newResult: Option<string>) returns (result: string)
      requires Valid() && HasTask(tasks, id)
      modifies this
      ensures tasks == UpdateTable(old(tasks), id, status, newResult, old(clock), old(clock) + 1)
      ensures result == UpdateReply(old(tasks), id, status, newResult, old(clock))
      ensures memories == old(memories) && nextId == old(nextId) && clock == old(clock) + 2
      ensures Valid()
    {
      var table := UpdateTable(tasks, id, status, newResult, clock, clock + 1);
      result := UpdateReply(tasks, id, status, newResult, clock);
      Tasks.UpdateKeepsValid(tasks, id, status, newResult, clock, clock + 1, nextId);
      tasks := table;
      clock := clock + 2;
    }

    /** `get_next_task` (lines 505-529): picks the next pending task and marks it started. */
    method GetNextTask(agent: nat, fault: Option<string>) returns (result: string)
      requires Valid()
      modifies this
      ensures Valid()
      ensures memories == old(memories) && nextId == old(nextId) && clock == old(clock)
      ensures fault.Some? || NextPending(old(tasks), agent).None? ==> result == NoPendingTask && unchanged(this)
      ensures fault.None? && NextPending(old(tasks), agent).Some? ==>
                var t := NextPending(old(tasks), agent).value;
                tasks == StartTask(old(tasks), t.id) && result == NextTaskText(t)
    {
      var next := NextPending(tasks, agent);
      if fault.Some? || next.None? {
        return NoPendingTask;
      }
      var t := next.value;
      Tasks.SameKeysKeepValid(tasks, StartTask(tasks, t.id), nextId);
      tasks := StartTask(tasks, t.id);
      result := NextTaskText(t);
    }

    /** `memory_store` (lines 193-247); `embedding` is the gateway's answer, if any. */
    method MemoryStore(agent: nat, content: Option<string>, memoryType: Option<string>, importance: Option<real>,
                       category: Option<string>, embedding: Option<seq<real>>, fault: Option<string>)
      returns (result: string)
      requires Valid()
      modifies this
      ensures Valid()
      ensures tasks == old(tasks)
      ensures !Truthy(content) ==> result == "Error: No content provided to store" && unchanged(this)
      ensures Truthy(content) && fault.Some? ==> result == "Error storing memory: " + fault.value && unchanged(this)
      ensures Truthy(content) && fault.None? ==>
                var m := Memory(old(nextId), agent, content.value, OrElse(memoryType, "short_term"),
                                OrNumber(importance, 0.5), Some(OrElse(category, "episodic")), None, embedding,
                                old(clock));
                && memories == old(memories) + [m] && nextId == old(nextId) + 1 && clock == old(clock) + 1
                && result == StoredText(OrElse(category, "episodic"), m.memoryType, content.value)
    {
      if !Truthy(content) {
        return "Error: No content provided to store";
      }
      if fault.Some? {
        return "Error storing memory: " + fault.value;
      }
      var m := Memory(nextId, agent, content.value, OrElse(memoryType, "short_term"), OrNumber(importance, 0.5),
                      Some(OrElse(category, "episodic")), None, embedding, clock);
      Memories.AppendKeepsValid(memories, nextId, m);
      memories := memories + [m];
      nextId := nextId + 1;
      clock := clock + 1;
      result := StoredText(OrElse(category, "episodic"), m.memoryType, content.value);
    }

    /** `memory_recall` (lines 249-278). */
    method MemoryRecall(agent: nat, query: Option<string>, limit: Option<nat>, fault: Option<string>)
      returns (result: string)
      ensures fault.Some? ==> result == "Error recalling memories: " + fault.value
      ensures fault.None? ==> result == RecallText(Recall(memories, agent, query, limit))
    {
      if fault.Some? {
        return "Error recalling memories: " + fault.value;
      }
      result := RecallText(Recall(memories, agent, query, limit));
    }

    /**
     * `memory_search` (lines 533-622): the similarity search's answer when it has rows, else the
     * keyword search.
     */
    method MemorySearch(agent: nat, query: Option<string>, limit: Option<nat>, category: Option<string>,
                        semantic: Option<seq<Match>>, fault: Option<string>) returns (result: string)
      ensures !Truthy(query) ==> result == "Error: Search query is required"
      ensures Truthy(query) && semantic.Some? && semantic.value != [] ==> result == SemanticText(semantic.value)
      ensures Truthy(query) && (semantic.None? || semantic.value == []) && fault.Some?
              ==> result == "Error searching memories: " + fault.value
      ensures Truthy(query) && (semantic.None? || semantic.value == []) && fault.None?
              ==> result == KeywordText(query.value, KeywordSearch(memories, agent, query.value, category, limit))
    {
      if !Truthy(query) {
        return "Error: Search query is required";
      }
      if semantic.Some? && semantic.value != [] {
        return SemanticText(semantic.value);
      }
      if fault.Some? {
        return "Error searching memories: " + fault.value;
      }
      result := KeywordText(query.value, KeywordSearch(memories, agent, query.value, category, limit));
    }

    /**
     * `memory_reflect` (lines 624-704): a non-empty reflection from the language model is stored
     * as a semantic memory; otherwise the memories are listed.
     */
    method MemoryReflect(agent: nat, topic: Option<string>, depth: Option<nat>, reflection: Option<string>,
                         fault: Option<string>) returns (result: string)
      requires Valid()
      modifies this
      ensures Valid()
      ensures tasks == old(tasks)
      ensures !Truthy(topic) ==> result == "Error: Topic is required for reflection" && unchanged(this)
      ensures Truthy(topic) && (fault.Some? || ReflectionSet(old(memories), agent, topic.value, depth) == [])
              ==> result == NothingToReflect(topic.value) && unchanged(this)
      ensures Truthy(topic) && fault.None? && ReflectionSet(old(memories), agent, topic.value, depth) != [] ==>
                var rows := ReflectionSet(old(memories), agent, topic.value, depth);
                if Truthy(reflection) then
                  && memories == old(memories) + [Memory(old(nextId), agent, ReflectionContent(topic.value, reflection.value),
                                                         "reflection", 0.8, Some("semantic"), None, None, old(clock))]
                  && nextId == old(nextId) + 1 && clock == old(clock) + 1
                  && result == ReflectionText(topic.value, |rows|, reflection.value)
                else
                  unchanged(this) && result == ReflectionFallback(topic.value, rows)
    {
      if !Truthy(topic) {
        return "Error: Topic is required for reflection";
      }
      var rows := ReflectionSet(memories, agent, topic.value, depth);
      if fault.Some? || rows == [] {
        return NothingToReflect(topic.value);
      }
      if !Truthy(reflection) {
        return ReflectionFallback(topic.value, rows);
      }
      var m := Memory(nextId, agent, ReflectionContent(topic.value, reflection.value), "reflection", 0.8,
                      Some("semantic"), None, None, clock);
      Memories.AppendKeepsValid(memories, nextId, m);
      memories := memories + [m];
      nextId := nextId + 1;
      clock := clock + 1;
      result := ReflectionText(topic.value, |rows|, reflection.value);
    }

    /** `memory_forget` (lines 706-748): decay by 0.5, and remove the record below 0.2. */
    method MemoryForget(agent: nat, memoryId: Option<nat>, reason: Option<string>, fetchFault: Option<string>,
                        updateFault: Option<string>) returns (result: string)
      requires Valid()
      modifies this
      ensures Valid()
      ensures tasks == old(tasks) && nextId == old(nextId) && clock == old(clock)
      ensures memoryId.None? ==> result == "Error: memory_id is required" && unchanged(this)
      ensures memoryId.Some? && (fetchFault.Some? || FindOwned(old(memories), memoryId.value, agent).None?)
              ==> result == "Error: Memory not found (" + NatText(memoryId.value) + ")" && unchanged(this)
      ensures memoryId.Some? && fetchFault.None? && FindOwned(old(memories), memoryId.value, agent).Some? ==>
                var m := FindOwned(old(memories), memoryId.value, agent).value;
                var d := Decayed(m.decay);
                if updateFault.Some? then
                  result == "Error updating memory: " + updateFault.value && unchanged(this)
                else if Forgotten(d) then
                  memories == RemoveIds(SetDecay(old(memories), m.id, d), [m.id])
                  && result == ForgottenText(m.content, reason)
                else
                  memories == SetDecay(old(memories), m.id, d) && result == DecayedText(m.content, d, reason)
    {
      if memoryId.None? {
        return "Error: memory_id is required";
      }
      var found := FindOwned(memories, memoryId.value, agent);
      if fetchFault.Some? || found.None? {
        return "Error: Memory not found (" + NatText(memoryId.value) + ")";
      }
      var m := found.value;
      var d := Decayed(m.decay);
      if updateFault.Some? {
        return "Error updating memory: " + updateFault.value;
      }
      Memories.SetDecayKeepsValid(memories, nextId, m.id, d);
      memories := SetDecay(memories, m.id, d);
      if Forgotten(d) {
        Memories.RemoveKeepsValid(memories, nextId, [m.id]);
        memories := RemoveIds(memories, [m.id]);
        result := ForgottenText(m.content, reason);
      } else {
        result := DecayedText(m.content, d, reason);
      }
    }

    /**
     * `memory_consolidate` (lines 750-844): merge the agent's listed records into one, then delete
     * every listed id.
     */
    method MemoryConsolidate(agent: nat, ids: Option<seq<nat>>, summary: Option<string>, synthesis: Option<string>,
                             fetchFault: Option<string>, insertFault: Option<string>) returns (result: string)
      requires Valid()
      modifies this
      ensures Valid()
      ensures tasks == old(tasks)
      ensures ids.None? || |ids.value| < 2
              ==> result == "Error: At least 2 memory_ids are required for consolidation" && unchanged(this)
      ensures ids.Some? && |ids.value| >= 2 && (fetchFault.Some? || |ConsolidationSet(old(memories), ids.value, agent)| < 2)
              ==> result == "Error: Could not find memories to consolidate" && unchanged(this)
      ensures ids.Some? && |ids.value| >= 2 && fetchFault.None? && |ConsolidationSet(old(memories), ids.value, agent)| >= 2 ==>
                var rows := ConsolidationSet(old(memories), ids.value, agent);
                var merged := Memory(old(nextId), agent, ConsolidatedContent(summary, synthesis, rows), "consolidated",
                                     ConsolidatedImportance(rows), Some(ConsolidatedCategory(rows)), None, None, old(clock));
                if insertFault.Some? then
                  result == "Error creating consolidated memory: " + insertFault.value && unchanged(this)
                else
                  && memories == RemoveIds(old(memories) + [merged], ids.value)
                  && nextId == old(nextId) + 1 && clock == old(clock) + 1
                  && result == ConsolidatedText(|rows|, merged.content, merged.id, merged.importance)
    {
      if ids.None? || |ids.value| < 2 {
        return "Error: At least 2 memory_ids are required for consolidation";
      }
      var rows := ConsolidationSet(memories, ids.value, agent);
      if fetchFault.Some? || |rows| < 2 {
        return "Error: Could not find memories to consolidate";
      }
      var merged := Memory(nextId, agent, ConsolidatedContent(summary, synthesis, rows), "consolidated",
                           ConsolidatedImportance(rows), Some(ConsolidatedCategory(rows)), None, None, clock);
      if insertFault.Some? {
        return "Error creating consolidated memory: " + insertFault.value;
      }
      Memories.AppendKeepsValid(memories, nextId, merged);
      Memories.RemoveKeepsValid(memories + [merged], nextId + 1, ids.value);
      memories := RemoveIds(memories + [merged], ids.value);
      nextId := nextId + 1;
      clock := clock + 1;
      result := ConsolidatedText(|rows|, merged.content, merged.id, merged.importance);
    }

    /** The `switch (toolName)` of the handler: one case per tool, and the unknown-tool reply. */
    method Execute(agent: nat, call: ToolCall, env: Services) returns (result: string)
      requires Valid()
      modifies this
      ensures Valid()
      ensures call.UnknownCall? ==> result == UnknownTool(call.name) && unchanged(this)
      ensures call.CalculatorCall? ==> result == Calculator.Calculate(call.expression, env.evaluate) && unchanged(this)
      ensures call.WebSearchCall? ==> result == Formatters.WebSearch(call.query, env.firecrawl, env.search) && unchanged(this)
      ensures call.FetchUrlCall? ==> result == Formatters.FetchUrl(call.url, env.firecrawl, env.scrape) && unchanged(this)
      ensures call.DateTimeCall? ==> result == Formatters.DateTime(env.now) && unchanged(this)
      ensures call.CodeExecutorCall? ==> result == Formatters.CodeExecutor(call.code, call.language) && unchanged(this)
    {
      match call
      case WebSearchCall(query) =>
        result := Formatters.WebSearch(query, env.firecrawl, env.search);
      case FetchUrlCall(url) =>
        result := Formatters.FetchUrl(url, env.firecrawl, env.scrape);
      case DateTimeCall =>
        result := Formatters.DateTime(env.now);
      case CalculatorCall(expression) =>
        result := Calculator.Calculate(expression, env.evaluate);
      case CodeExecutorCall(code, language) =>
        result := Formatters.CodeExecutor(code, language);
      case UnknownCall(name) =>
        result := UnknownTool(name);
      case CreateTaskCall(_, _, _, _) =>
        result := ExecuteTaskTool(agent, call, env);
      case DecomposeTaskCall(_, _, _) =>
        result := ExecuteTaskTool(agent, call, env);
      case ListTasksCall(_, _) =>
        result := ExecuteTaskTool(agent, call, env);
      case GetTaskCall(_) =>
        result := ExecuteTaskTool(agent, call, env);
      case UpdateTaskCall(_, _, _) =>
        result := ExecuteTaskTool(agent, call, env);
      case NextTaskCall =>
        result := ExecuteTaskTool(agent, call, env);
      case MemoryStoreCall(_, _, _, _) =>
        result := ExecuteMemoryTool(agent, call, env);
      case MemoryRecallCall(_, _) =>
        result := ExecuteMemoryTool(agent, call, env);
      case MemorySearchCall(_, _, _) =>
        result := ExecuteMemoryTool(agent, call, env);
      case MemoryReflectCall(_, _) =>
        result := ExecuteMemoryTool(agent, call, env);
      case MemoryForgetCall(_, _) =>
        result := ExecuteMemoryTool(agent, call, env);
      case MemoryConsolidateCall(_, _) =>
        result := ExecuteMemoryTool(agent, call, env);
    }

    /** The six task tools. */
    method ExecuteTaskTool(agent: nat, call: ToolCall, env: Services) returns (result: string)
      requires Valid()
      requires call.CreateTaskCall? || call.DecomposeTaskCall? || call.ListTasksCall? || call.GetTaskCall?
               || call.UpdateTaskCall? || call.NextTaskCall?
      modifies this
      ensures Valid() && memories == old(memories)
    {
      match call
      case CreateTaskCall(title, description, priority, parent) =>
        result := CreateTask(agent, title, description, priority, parent, env.fault);
      case DecomposeTaskCall(goal, description, subtasks) =>
        result := DecomposeTask(agent, goal, description, subtasks, env.fault, env.secondFault);
      case ListTasksCall(status, parentOnly) =>
        result := ListTasks(agent, status, parentOnly, env.fault);
      case GetTaskCall(taskId) =>
        result := GetTask(taskId, env.fault);
      case UpdateTaskCall(taskId, status, newResult) =>
        result := UpdateTask(taskId, status, newResult, env.fault);
      case NextTaskCall =>
        result := GetNextTask(agent, env.fault);
    }

    /** The six memory tools. */
    method ExecuteMemoryTool(agent: nat, call: ToolCall, env: Services) returns (result: string)
      requires Valid()
      requires call.MemoryStoreCall? || call.MemoryRecallCall? || call.MemorySearchCall? || call.MemoryReflectCall?
               || call.MemoryForgetCall? || call.MemoryConsolidateCall?
      modifies this
      ensures Valid() && tasks == old(tasks)
    {
      match call
      case MemoryStoreCall(content, memoryType, importance, category) =>
        result := MemoryStore(agent, content, memoryType, importance, category, env.embedding, env.fault);
      case MemoryRecallCall(query, limit) =>
        result := MemoryRecall(agent, query, limit, env.fault);
      case MemorySearchCall(query, limit, category) =>
        result := MemorySearch(agent, query, limit, category, env.semantic, env.fault);
      case MemoryReflectCall(topic, depth) =>
        result := MemoryReflect(agent, topic, depth, env.reflection, env.fault);
      case MemoryForgetCall(memoryId, reason) =>
        result := MemoryForget(agent, memoryId, reason, env.fault, env.secondFault);
      case MemoryConsolidateCall(ids, summary) =>
        result := MemoryConsolidate(agent, ids, summary, env.synthesis, env.fault, env.secondFault);
    }
  }
}
