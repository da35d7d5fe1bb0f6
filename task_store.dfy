/**
  The task list store (src/stores/tasks.js): a list of tasks, the current
  filter, one loading flag per action and the notifications the actions show.
  The getters are filters over the list; each action issues one request, is
  given the server's reply as an input, and updates the list in place.
*/
module TaskStore {
  import opened Wrappers

  /** A task as the server returns it; `isCompleted` is None when `is_completed` is not a boolean. */
  datatype Task = Task(entityId: string, isCompleted: Option<bool>, fields: map<string, string>)

  /** `a` is `b` with some elements left out, the rest in their original order. */
  predicate IsSubsequence<T(==)>(a: seq<T>, b: seq<T>)
    decreases |b|
  {
    a == [] || (b != [] && if a[0] == b[0] then IsSubsequence(a[1..], b[1..]) else IsSubsequence(a, b[1..]))
  }

  lemma {:induction false} SubsequenceOfItself<T>(s: seq<T>)
    ensures IsSubsequence(s, s)
    decreases |s|
  {
    if s != [] {
      SubsequenceOfItself(s[1..]);
    }
  }

  lemma {:induction false} SubsequenceNoLonger<T>(a: seq<T>, b: seq<T>)
    requires IsSubsequence(a, b)
    ensures |a| <= |b|
    decreases |b|
  {
    if a != [] {
      if a[0] == b[0] {
        SubsequenceNoLonger(a[1..], b[1..]);
      } else {
        SubsequenceNoLonger(a, b[1..]);
      }
    }
  }

  /** `s.filter(keep)`: exactly the elements `keep` accepts, each as often as in `s`, in order. */
  function Filter<T(==,!new)>(s: seq<T>, keep: T -> bool): (r: seq<T>)
    ensures IsSubsequence(r, s)
    ensures forall x :: multiset(r)[x] == if keep(x) then multiset(s)[x] else 0
    decreases |s|
  {
    if s == [] then []
    else
      var rest := Filter(s[1..], keep);
      assert s == [s[0]] + s[1..];
      if keep(s[0]) then
        var r := [s[0]] + rest;
        assert r[1..] == rest;
        r
      else
        assert rest != [] ==> rest[0] in multiset(rest) && keep(rest[0]);
        rest
  }

  /** `t.is_completed === true`. */
  predicate IsCompleted(t: Task) {
    t.isCompleted == Some(true)
  }

  /** `t.is_completed === false`. */
  predicate IsIncomplete(t: Task) {
    t.isCompleted == Some(false)
  }

  /** The `completedTasks` getter. */
  function Completed(ts: seq<Task>): seq<Task> {
    Filter(ts, IsCompleted)
  }

  /** The `incompleteTasks` getter. */
  function Incomplete(ts: seq<Task>): seq<Task> {
    Filter(ts, IsIncomplete)
  }

  /** Whether the `filteredTasks` getter keeps `t` under `filter`. */
  predicate Shown(filter: string, t: Task) {
    (filter == "completed" ==> IsCompleted(t)) && (filter == "incomplete" ==> IsIncomplete(t))
  }

  /** The `filteredTasks` getter. */
  function Filtered(filter: string, ts: seq<Task>): (r: seq<Task>)
    ensures IsSubsequence(r, ts)
    ensures forall t :: multiset(r)[t] == if Shown(filter, t) then multiset(ts)[t] else 0
    ensures filter != "completed" && filter != "incomplete" ==> r == ts
  {
    if filter == "completed" then Completed(ts)
    else if filter == "incomplete" then Incomplete(ts)
    else SubsequenceOfItself(ts); ts
  }

  /** Filtering by a condition and by its negation splits a sequence in two. */
  lemma {:induction false} FilterComplement<T(!new)>(s: seq<T>, keep: T -> bool, drop: T -> bool)
    requires forall x :: x in s ==> (keep(x) <==> !drop(x))
    ensures |Filter(s, keep)| + |Filter(s, drop)| == |s|
    decreases |s|
  {
    if s != [] {
      FilterComplement(s[1..], keep, drop);
    }
  }

  /** When every `is_completed` is a boolean, the two getters split the list between them. */
  lemma CompletedAndIncompletePartition(ts: seq<Task>)
    requires forall t :: t in ts ==> t.isCompleted.Some?
    ensures |Completed(ts)| + |Incomplete(ts)| == |ts|
    ensures multiset(Completed(ts)) + multiset(Incomplete(ts)) == multiset(ts)
  {
    forall t | t in ts
      ensures IsCompleted(t) <==> !IsIncomplete(t)
    {
      if t.isCompleted.value {
        assert IsCompleted(t);
      } else {
        assert IsIncomplete(t);
      }
    }
    FilterComplement(ts, IsCompleted, IsIncomplete);
    assert forall t :: (multiset(Completed(ts)) + multiset(Incomplete(ts)))[t] == multiset(ts)[t];
  }

  /** `findIndex` on `entity_id`: the first matching position, or -1. */
  function FindIndex(ts: seq<Task>, id: string): (r: int)
    ensures -1 <= r < |ts|
    ensures r == -1 <==> forall i :: 0 <= i < |ts| ==> ts[i].entityId != id
    ensures r >= 0 ==> ts[r].entityId == id && forall i :: 0 <= i < r ==> ts[i].entityId != id
    decreases |ts|
  {
    if ts == [] then -1
    else if ts[0].entityId == id then 0
    else
      var k := FindIndex(ts[1..], id);
      if k == -1 then -1 else k + 1
  }

  /** The list after the first task with `entity_id == id` is replaced by `t`. */
  function ReplaceFirst(ts: seq<Task>, id: string, t: Task): (r: seq<Task>)
    ensures |r| == |ts|
    ensures (forall i :: 0 <= i < |ts| ==> ts[i].entityId != id) ==> r == ts
    ensures forall i :: 0 <= i < |ts| && i != FindIndex(ts, id) ==> r[i] == ts[i]
    ensures FindIndex(ts, id) >= 0 ==> r[FindIndex(ts, id)] == t
  {
    var index := FindIndex(ts, id);
    if index == -1 then ts else ts[index := t]
  }

  /** The list after every task with `entity_id == id` is removed. */
  function WithoutId(ts: seq<Task>, id: string): (r: seq<Task>)
    ensures IsSubsequence(r, ts)
    ensures forall t: Task :: multiset(r)[t] == if t.entityId == id then 0 else multiset(ts)[t]
  {
    Filter(ts, (t: Task) => t.entityId != id)
  }

  /** After a delete, a task is in the list exactly when it was before and does not carry the id. */
  lemma WithoutIdMembers(ts: seq<Task>, id: string, t: Task)
    ensures t in WithoutId(ts, id) <==> t in ts && t.entityId != id
    ensures |WithoutId(ts, id)| <= |ts|
  {
    var r := WithoutId(ts, id);
    assert t in r <==> multiset(r)[t] > 0;
    assert t in ts <==> multiset(ts)[t] > 0;
    SubsequenceNoLonger(r, ts);
  }

  datatype Verb = Get | Post | Put | Patch | Delete

  datatype Body = NoBody | TaskData(data: map<string, string>) | CompletedFlag(isCompleted: bool)

  /** An HTTP request issued through the client. */
  datatype Request = Request(verb: Verb, path: string, body: Body)

  const STATUS_QUERY := "/task/?status="

  /** The list path `fetchTasks` requests for a filter. */
  function FetchPath(filter: string): (path: string)
    ensures path == "/task/" <==> filter == "all"
    ensures filter != "all" ==> path == STATUS_QUERY + filter && path[|STATUS_QUERY|..] == filter
  {
    var statusParam := if filter == "all" then "" else "?status=" + filter;
    var path := "/task/" + statusParam;
    assert filter != "all" ==> path == STATUS_QUERY + filter && |path| > |"/task/"|;
    path
  }

  function TaskPath(id: string): string {
    "/task/" + id
  }

  /** The request `markComplete` issues: PATCH .../complete to complete, PUT of the flag to reopen. */
  function CompletionRequest(id: string, isCompleted: bool): (r: Request)
    ensures r.verb == (if isCompleted then Patch else Put)
    ensures isCompleted ==> r.path == TaskPath(id) + "/complete" && r.body == NoBody
    ensures !isCompleted ==> r.path == TaskPath(id) && r.body == CompletedFlag(false)
  {
    if isCompleted then Request(Patch, TaskPath(id) + "/complete", NoBody)
    else Request(Put, TaskPath(id), CompletedFlag(false))
  }

  /**
    The server's reply to an action's request: a response whose envelope says
    `success` or not, or a rejection from the client with the response's
    `data.message` and the error's own `message`.
  */
  datatype Reply<P> =
    | Ok(success: bool, payload: P, message: Option<string>)
    | Err(responseMessage: Option<string>, errorMessage: Option<string>)

  predicate Succeeded<P>(reply: Reply<P>) {
    reply.Ok? && reply.success
  }

  /**
    The error text an action shows: an unsuccessful envelope is thrown as an
    Error whose message is the envelope's message or `thrown`; the catch block
    then shows the response's message, else the error's, else `fallback`.
  */
  function FailureText<P>(reply: Reply<P>, thrown: string, fallback: string): (text: string)
    requires !Succeeded(reply)
    ensures thrown != "" && fallback != "" ==> text != ""
    ensures reply.Ok? && thrown != "" ==> text == Or(reply.message, thrown)
    ensures reply.Err? && Truthy(reply.responseMessage) ==> text == reply.responseMessage.value
    ensures reply.Err? && !Truthy(reply.responseMessage) ==> text == Or(reply.errorMessage, fallback)
  {
    var caught: Reply<P> := if reply.Ok? then Err(None, Some(Or(reply.message, thrown))) else reply;
    Or(caught.responseMessage, Or(caught.errorMessage, fallback))
  }

  /** A notification: its text and whether it is shown as a success. */
  datatype Note = Note(message: string, positive: bool)

  class Store {
    var tasks: seq<Task>
    var loading: bool
    var currentFilter: string
    var loadingCreate: bool
    var loadingUpdate: bool
    var loadingDelete: bool
    var loadingComplete: bool
    var notes: seq<Note>

    constructor ()
      ensures tasks == [] && currentFilter == "all" && notes == []
      ensures !loading && !loadingCreate && !loadingUpdate && !loadingDelete && !loadingComplete
    {
      tasks := [];
      loading := false;
      currentFilter := "all";
      loadingCreate := false;
      loadingUpdate := false;
      loadingDelete := false;
      loadingComplete := false;
      notes := [];
    }

    method SetFilter(filter: string)
      modifies this`currentFilter
      ensures currentFilter == filter
    {
      currentFilter := filter;
    }

    method FetchTasks(filter: string, reply: Reply<Option<seq<Task>>>) returns (call: Request)
      modifies this`loading, this`currentFilter, this`tasks, this`notes
      ensures call == Request(Get, FetchPath(filter), NoBody)
      ensures currentFilter == filter && !loading
      ensures Succeeded(reply) ==>
                tasks == (if reply.payload.Some? then reply.payload.value else []) && notes == old(notes)
      ensures !Succeeded(reply) ==>
                tasks == [] &&
                notes == old(notes) + [Note(FailureText(reply, "Failed to fetch tasks", "Failed to load tasks"), false)]
    {
      loading := true;
      currentFilter := filter;
      call := Request(Get, FetchPath(filter), NoBody);
      if Succeeded(reply) {
        tasks := if reply.payload.Some? then reply.payload.value else [];
      } else {
        notes := notes + [Note(FailureText(reply, "Failed to fetch tasks", "Failed to load tasks"), false)];
        tasks := [];
      }
      loading := false;
    }

    method CreateTask(taskData: map<string, string>, reply: Reply<Task>) returns (ok: bool, call: Request)
      modifies this`loadingCreate, this`tasks, this`notes
      ensures call == Request(Post, "/task/", TaskData(taskData))
      ensures ok == Succeeded(reply) && !loadingCreate
      ensures tasks == if ok then [reply.payload] + old(tasks) else old(tasks)
      ensures notes == old(notes) + [if ok then Note("Task created successfully!", true)
                                     else Note(FailureText(reply, "Failed to create task", "Failed to create task"), false)]
    {
      loadingCreate := true;
      call := Request(Post, "/task/", TaskData(taskData));
      if Succeeded(reply) {
        tasks := [reply.payload] + tasks;
        notes := notes + [Note("Task created successfully!", true)];
        ok := true;
      } else {
        notes := notes + [Note(FailureText(reply, "Failed to create task", "Failed to create task"), false)];
        ok := false;
      }
      loadingCreate := false;
    }

    method UpdateTask(taskId: string, taskData: map<string, string>, reply: Reply<Task>) returns (ok: bool, call: Request)
      modifies this`loadingUpdate, this`tasks, this`notes
      ensures call == Request(Put, TaskPath(taskId), TaskData(taskData))
      ensures ok == Succeeded(reply) && !loadingUpdate
      ensures tasks == if ok then ReplaceFirst(old(tasks), taskId, reply.payload) else old(tasks)
      ensures notes == old(notes) + [if ok then Note("Task updated successfully!", true)
                                     else Note(FailureText(reply, "Failed to update task", "Failed to update task"), false)]
    {
      loadingUpdate := true;
      call := Request(Put, TaskPath(taskId), TaskData(taskData));
      if Succeeded(reply) {
        var index := FindIndex(tasks, taskId);
        if index != -1 {
          tasks := tasks[index := reply.payload];
        }
        notes := notes + [Note("Task updated successfully!", true)];
        ok := true;
      } else {
        notes := notes + [Note(FailureText(reply, "Failed to update task", "Failed to update task"), false)];
        ok := false;
      }
      loadingUpdate := false;
    }

    method DeleteTask(taskId: string, reply: Reply<()>) returns (ok: bool, call: Request)
      modifies this`loadingDelete, this`tasks, this`notes
      ensures call == Request(Delete, TaskPath(taskId), NoBody)
      ensures ok == Succeeded(reply) && !loadingDelete
      ensures tasks == if ok then WithoutId(old(tasks), taskId) else old(tasks)
      ensures notes == old(notes) + [if ok then Note("Task deleted successfully!", true)
                                     else Note(FailureText(reply, "Failed to delete task", "Failed to delete task"), false)]
    {
      loadingDelete := true;
      call := Request(Delete, TaskPath(taskId), NoBody);
      if Succeeded(reply) {
        tasks := Filter(tasks, (t: Task) => t.entityId != taskId);
        notes := notes + [Note("Task deleted successfully!", true)];
        ok := true;
      } else {
        notes := notes + [Note(FailureText(reply, "Failed to delete task", "Failed to delete task"), false)];
        ok := false;
      }
      loadingDelete := false;
    }

    method MarkComplete(taskId: string, isCompleted: bool, reply: Reply<Task>) returns (ok: bool, call: Request)
      modifies this`loadingComplete, this`tasks, this`notes
      ensures call == CompletionRequest(taskId, isCompleted)
      ensures ok == Succeeded(reply) && !loadingComplete
      ensures tasks == if ok then ReplaceFirst(old(tasks), taskId, reply.payload) else old(tasks)
      ensures notes == old(notes) +
                [if !ok then Note(FailureText(reply, "Failed to update task status", "Failed to update task status"), false)
                 else if isCompleted then Note("Task marked as complete!", true)
                 else Note("Task marked as incomplete!", true)]
    {
      loadingComplete := true;
      if isCompleted {
        call := Request(Patch, TaskPath(taskId) + "/complete", NoBody);
      } else {
        call := Request(Put, TaskPath(taskId), CompletedFlag(false));
      }
      if Succeeded(reply) {
        var index := FindIndex(tasks, taskId);
        if index != -1 {
          tasks := tasks[index := reply.payload];
        }
        notes := notes + [Note(if isCompleted then "Task marked as complete!" else "Task marked as incomplete!", true)];
        ok := true;
      } else {
        notes := notes + [Note(FailureText(reply, "Failed to update task status", "Failed to update task status"), false)];
        ok := false;
      }
      loadingComplete := false;
    }
  }
}
