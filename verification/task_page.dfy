/** The task list of one project: the loaded tasks, the view derived from
    them by the search box or by the status drop-down, and the create, edit,
    delete and assign handlers. */
module TaskPage {
  import opened Common
  import opened Text
  import opened Seqs

  /** The denormalised user object the API attaches to a task; its `name`
      may be missing. */
  datatype Person = Person(name: Option<string>)

  /** A task as the API returns it; `user` is the assignee, absent when the
      task is unassigned. */
  datatype Task = Task(
    id: int,
    projectId: int,
    title: string,
    status: string,
    assignedTo: int,
    createdBy: int,
    createdAt: string,
    updatedAt: string,
    userCreate: Option<Person>,
    user: Option<Person>)

  /** The object an update returns, key by key: `None` is a key the reply
      does not carry. */
  datatype TaskPatch = TaskPatch(
    id: Option<int>,
    projectId: Option<int>,
    title: Option<string>,
    status: Option<string>,
    assignedTo: Option<int>,
    createdBy: Option<int>,
    createdAt: Option<string>,
    updatedAt: Option<string>,
    userCreate: Option<Option<Person>>,
    user: Option<Option<Person>>)

  const EmptyPatch := TaskPatch(None, None, None, None, None, None, None, None, None, None)

  /** A reply carrying every key of `u`. */
  function FullPatch(u: Task): TaskPatch
  {
    TaskPatch(Some(u.id), Some(u.projectId), Some(u.title), Some(u.status), Some(u.assignedTo),
              Some(u.createdBy), Some(u.createdAt), Some(u.updatedAt), Some(u.userCreate), Some(u.user))
  }

  function Pick<T>(key: Option<T>, current: T): T
  {
    if key.Some? then key.value else current
  }

  /** `{ ...t, ...patch }`: keys the reply carries win, the others stay. */
  function Overlay(t: Task, patch: TaskPatch): (r: Task)
    ensures forall u :: patch == FullPatch(u) ==> r == u
    ensures patch == EmptyPatch ==> r == t
    ensures patch.id.None? ==> r.id == t.id
  {
    Task(Pick(patch.id, t.id), Pick(patch.projectId, t.projectId), Pick(patch.title, t.title),
         Pick(patch.status, t.status), Pick(patch.assignedTo, t.assignedTo),
         Pick(patch.createdBy, t.createdBy), Pick(patch.createdAt, t.createdAt),
         Pick(patch.updatedAt, t.updatedAt), Pick(patch.userCreate, t.userCreate),
         Pick(patch.user, t.user))
  }

  /** Merging the same reply twice is merging it once. */
  lemma OverlayIdempotent(t: Task, patch: TaskPatch)
    ensures Overlay(Overlay(t, patch), patch) == Overlay(t, patch)
  {
  }

  /** `prev.map((t) => t.id === id ? { ...t, ...patch } : t)`. */
  function MergeById(tasks: seq<Task>, id: int, patch: TaskPatch): (r: seq<Task>)
    ensures |r| == |tasks|
    ensures forall i :: 0 <= i < |tasks| && tasks[i].id == id ==> r[i] == Overlay(tasks[i], patch)
    ensures forall i :: 0 <= i < |tasks| && tasks[i].id != id ==> r[i] == tasks[i]
  {
    Map(tasks, (t: Task) => if t.id == id then Overlay(t, patch) else t)
  }

  /** With a complete reply the merge is the dashboard's wholesale replace:
      every matching task becomes the reply. */
  lemma MergeCompleteReplyReplaces(tasks: seq<Task>, id: int, u: Task)
    ensures forall i :: 0 <= i < |tasks| && tasks[i].id == id ==> MergeById(tasks, id, FullPatch(u))[i] == u
  {
    forall i | 0 <= i < |tasks| && tasks[i].id == id
      ensures MergeById(tasks, id, FullPatch(u))[i] == u
    {
      assert MergeById(tasks, id, FullPatch(u))[i] == Overlay(tasks[i], FullPatch(u));
    }
  }

  /** Merging into an id no task has leaves the list as it was. */
  lemma MergeAbsentIdUnchanged(tasks: seq<Task>, id: int, patch: TaskPatch)
    requires forall t :: t in tasks ==> t.id != id
    ensures MergeById(tasks, id, patch) == tasks
  {
  }

  /** `prev.filter((p) => p.id !== id)`. */
  function RemoveById(tasks: seq<Task>, id: int): (r: seq<Task>)
    ensures forall t :: t in r ==> t in tasks && t.id != id
    ensures forall i :: 0 <= i < |tasks| && tasks[i].id != id ==> tasks[i] in r
    ensures IsSubsequence(r, tasks)
    ensures forall t :: multiset(r)[t] == if t.id != id then multiset(tasks)[t] else 0
  {
    FilterIsSubsequence(tasks, (t: Task) => t.id != id);
    FilterCount(tasks, (t: Task) => t.id != id);
    Filter(tasks, (t: Task) => t.id != id)
  }

  /** The assignee's name takes part in the search only when the task has a
      user object whose name is non-empty. */
  predicate AssigneeMatches(t: Task, lowerQuery: string)
  {
    t.user.Some? && t.user.value.name.Some? && t.user.value.name.value != ""
    && Contains(Lower(t.user.value.name.value), lowerQuery)
  }

  predicate TaskMatches(t: Task, lowerQuery: string)
  {
    Contains(Lower(t.title), lowerQuery) || Contains(Lower(t.status), lowerQuery)
    || AssigneeMatches(t, lowerQuery)
  }

  /** The search effect: the tasks whose title, status or assignee name
      contains the query, ignoring ASCII case, in list order. */
  function SearchTasks(tasks: seq<Task>, query: string): (r: seq<Task>)
    ensures forall t :: t in r ==> t in tasks && TaskMatches(t, Lower(query))
    ensures forall i :: 0 <= i < |tasks| && TaskMatches(tasks[i], Lower(query)) ==> tasks[i] in r
    ensures IsSubsequence(r, tasks)
    ensures forall t :: multiset(r)[t] == if TaskMatches(t, Lower(query)) then multiset(tasks)[t] else 0
  {
    FilterIsSubsequence(tasks, (t: Task) => TaskMatches(t, Lower(query)));
    FilterCount(tasks, (t: Task) => TaskMatches(t, Lower(query)));
    Filter(tasks, (t: Task) => TaskMatches(t, Lower(query)))
  }

  /** An empty search box shows every task. */
  lemma SearchEmptyKeepsAll(tasks: seq<Task>)
    ensures SearchTasks(tasks, "") == tasks
  {
    forall t | t in tasks ensures TaskMatches(t, Lower("")) {
      assert Contains(Lower(t.title), Lower(""));
    }
    FilterKeepsAll(tasks, (t: Task) => TaskMatches(t, Lower("")));
  }

  /** Searching the search result again with the same query changes nothing. */
  lemma SearchIdempotent(tasks: seq<Task>, query: string)
    ensures SearchTasks(SearchTasks(tasks, query), query) == SearchTasks(tasks, query)
  {
    FilterIdempotent(tasks, (t: Task) => TaskMatches(t, Lower(query)));
  }

  /** The status drop-down's `onFilter`: no selection shows every task,
      otherwise the tasks whose status is one of the selected labels,
      compared exactly. */
  function StatusFiltered(tasks: seq<Task>, selected: seq<string>): (r: seq<Task>)
    ensures selected == [] ==> r == tasks
    ensures forall t :: t in r ==> t in tasks && (selected == [] || t.status in selected)
    ensures forall i :: 0 <= i < |tasks| && (selected == [] || tasks[i].status in selected) ==> tasks[i] in r
    ensures IsSubsequence(r, tasks)
    ensures forall t :: multiset(r)[t] == if selected == [] || t.status in selected then multiset(tasks)[t] else 0
  {
    if selected == [] then
      IsSubsequenceReflexive(tasks);
      tasks
    else
      FilterIsSubsequence(tasks, (t: Task) => t.status in selected);
      FilterCount(tasks, (t: Task) => t.status in selected);
      Filter(tasks, (t: Task) => t.status in selected)
  }

  /** Selecting "Done" over tasks whose statuses are Todo, Done, Done shows
      the two done tasks. */
  lemma StatusFilterDoneScenario(a: Task, b: Task, c: Task)
    requires a.status == "Todo" && b.status == "Done" && c.status == "Done"
    ensures StatusFiltered([a, b, c], ["Done"]) == [b, c]
  {
    var keep := (t: Task) => t.status in ["Done"];
    assert !keep(a) && keep(b) && keep(c);
    FilterDropsOnlyTheFirst(a, b, c, keep);
    assert StatusFiltered([a, b, c], ["Done"]) == Filter([a, b, c], keep);
  }

  /** Filtering three tasks of which only the first is rejected. */
  lemma FilterDropsOnlyTheFirst(a: Task, b: Task, c: Task, keep: Task -> bool)
    requires !keep(a) && keep(b) && keep(c)
    ensures Filter([a, b, c], keep) == [b, c]
  {
    assert [a, b, c][1..] == [b, c] && [b, c][1..] == [c] && [c][1..] == [];
    assert Filter([c], keep) == [c];
    assert Filter([b, c], keep) == [b, c];
  }

  /** The task page component's state. `routeId` is the `:id` route
      parameter. */
  class TaskListPage {
    const routeId: Option<string>
    var tasks: seq<Task>
    var search: string
    var filteredTasks: seq<Task>
    var openAdd: bool
    var openEditId: Option<int>
    var loading: bool
    var selectedTask: Option<int>
    var openAssign: bool

    /** The mounted page, after its search effect ran on the empty list. */
    constructor (routeId: Option<string>)
      ensures this.routeId == routeId
      ensures tasks == [] && search == "" && filteredTasks == []
      ensures !openAdd && openEditId == None && !loading
      ensures selectedTask == None && !openAssign
    {
      this.routeId := routeId;
      tasks, search, filteredTasks := [], "", [];
      openAdd, openEditId, loading := false, None, false;
      selectedTask, openAssign := None, false;
    }

    /** The effect on `[search, tasks]`: it recomputes the view from the
        full list, discarding any status filtering. */
    method SearchEffect()
      modifies this`filteredTasks
      ensures filteredTasks == SearchTasks(tasks, search)
    {
      filteredTasks := SearchTasks(tasks, search);
    }

    method SetSearch(query: string)
      modifies this`search, this`filteredTasks
      ensures search == query
      ensures filteredTasks == SearchTasks(tasks, query)
    {
      search := query;
      SearchEffect();
    }

    /** `onFilter`: recomputes the view from the full list, discarding any
        search filtering. */
    method OnStatusFilter(selected: seq<string>)
      modifies this`filteredTasks
      ensures filteredTasks == StatusFiltered(tasks, selected)
    {
      filteredTasks := StatusFiltered(tasks, selected);
    }

    /** The load effect: runs only when the route has an id. */
    method Load(reply: Outcome<seq<Task>>) returns (notice: Option<Notice>)
      modifies this`tasks, this`filteredTasks, this`loading
      ensures !Truthy(routeId) ==> tasks == old(tasks) && filteredTasks == old(filteredTasks)
      ensures !Truthy(routeId) ==> loading == old(loading) && notice == None
      ensures Truthy(routeId) ==> !loading
      ensures Truthy(routeId) && reply.Ok? ==> tasks == reply.value && notice == None
      ensures Truthy(routeId) && reply.Ok? ==> filteredTasks == SearchTasks(reply.value, search)
      ensures Truthy(routeId) && reply.Err? ==> tasks == old(tasks) && filteredTasks == old(filteredTasks)
      ensures Truthy(routeId) && reply.Err? ==> notice == Some(Failure("Failed load task"))
    {
      notice := None;
      if Truthy(routeId) {
        loading := true;
        match reply {
          case Ok(data) =>
            tasks := data;
            SearchEffect();
          case Err(_) =>
            notice := Some(Failure("Failed load task"));
        }
        loading := false;
      }
    }

    /** `handleAddTask`: the created task is not appended; on success the
        whole list is fetched again. Any failure leaves the list and the
        dialog as they were. `refetch` is not consulted when the create fails. */
    method AddTask(created: Outcome<Task>, refetch: Outcome<seq<Task>>) returns (notice: Notice)
      modifies this`tasks, this`filteredTasks, this`openAdd
      ensures created.Ok? && refetch.Ok? ==> tasks == refetch.value && !openAdd
      ensures created.Ok? && refetch.Ok? ==> filteredTasks == SearchTasks(tasks, search)
      ensures created.Ok? && refetch.Ok? ==> notice == Success("Task Created Successfully!")
      ensures created.Err? || refetch.Err? ==> tasks == old(tasks) && filteredTasks == old(filteredTasks)
      ensures created.Err? || refetch.Err? ==> openAdd == old(openAdd) && notice == Failure("Failed to create task")
    {
      if created.Ok? && refetch.Ok? {
        tasks := refetch.value;
        SearchEffect();
        openAdd := false;
        notice := Success("Task Created Successfully!");
      } else {
        notice := Failure("Failed to create task");
      }
    }

    /** `handleEditTask`: the reply is merged onto every task with the id;
        the dialog closes on both paths and the failure shows the server's
        message or "Gagal update task". */
    method EditTask(id: int, reply: Outcome<TaskPatch>) returns (notice: Notice)
      modifies this`tasks, this`filteredTasks, this`openEditId, this`loading
      ensures openEditId == None && !loading
      ensures reply.Ok? ==> tasks == MergeById(old(tasks), id, reply.value)
      ensures reply.Ok? ==> filteredTasks == SearchTasks(tasks, search)
      ensures reply.Ok? ==> notice == Success("Task updated successfully!")
      ensures reply.Err? ==> tasks == old(tasks) && filteredTasks == old(filteredTasks)
      ensures reply.Err? ==> notice == Failure(OrElse(reply.message, "Gagal update task"))
    {
      loading := true;
      match reply {
        case Ok(patch) =>
          tasks := MergeById(tasks, id, patch);
          openEditId := None;
          SearchEffect();
          notice := Success("Task updated successfully!");
        case Err(m) =>
          openEditId := None;
          notice := Failure(OrElse(m, "Gagal update task"));
      }
      loading := false;
    }

    /** `handleDeleteTask`: nothing happens unless the dialog is confirmed;
        then the tasks with the id go only if the request succeeds. */
    method DeleteTask(id: int, confirmed: bool, reply: Outcome<()>) returns (notice: Option<Notice>)
      modifies this`tasks, this`filteredTasks
      ensures !confirmed ==> tasks == old(tasks) && filteredTasks == old(filteredTasks) && notice == None
      ensures confirmed && reply.Ok? ==> tasks == RemoveById(old(tasks), id)
      ensures confirmed && reply.Ok? ==> filteredTasks == SearchTasks(tasks, search)
      ensures confirmed && reply.Ok? ==> notice == Some(Success("Task deleted successfully!"))
      ensures confirmed && reply.Err? ==> tasks == old(tasks) && filteredTasks == old(filteredTasks)
      ensures confirmed && reply.Err? ==> notice == Some(Failure("Failed to delete task"))
    {
      notice := None;
      if confirmed {
        if reply.Ok? {
          tasks := RemoveById(tasks, id);
          SearchEffect();
          notice := Some(Success("Task deleted successfully!"));
        } else {
          notice := Some(Failure("Failed to delete task"));
        }
      }
    }

    /** The "Assign User" menu item. */
    method OpenAssignDialog(taskId: int)
      modifies this`selectedTask, this`openAssign
      ensures selectedTask == Some(taskId) && openAssign
    {
      selectedTask := Some(taskId);
      openAssign := true;
    }

    /** The assign dialog's `onClose`. */
    method CloseAssignDialog()
      modifies this`openAssign
      ensures !openAssign
    {
      openAssign := false;
    }

    /** The assign dialog's `onSubmit`: assign, then fetch the project's
        tasks again; the list becomes the fetched one, whatever task and user
        were involved. A failure is not caught, so nothing changes. */
    method AssignUser(taskId: int, userId: Option<int>, assignReply: Outcome<()>, refetch: Outcome<seq<Task>>)
      modifies this`tasks, this`filteredTasks
      ensures assignReply.Ok? && refetch.Ok? ==> tasks == refetch.value
      ensures assignReply.Ok? && refetch.Ok? ==> filteredTasks == SearchTasks(tasks, search)
      ensures assignReply.Err? || refetch.Err? ==> tasks == old(tasks) && filteredTasks == old(filteredTasks)
    {
      if assignReply.Ok? && refetch.Ok? {
        tasks := refetch.value;
        SearchEffect();
      }
    }
  }
}
