/** The task and property lists of the client's component state and the
    helpers that derive new lists from them (App.tsx, "Task CRUD operations",
    the task filter, the dashboard counters and `deleteProperty`). */
module TaskStore {
  import opened Wrappers
  import opened Domain
  import Text

  /** `Omit<Task, "id" | "createdAt">`: what the task form submits. */
  datatype TaskInput = TaskInput(
    title: string,
    description: Option<string>,
    property: string,
    priority: Priority,
    dueDate: DueDate,
    status: Status,
    category: string,
    estimatedTime: Option<int>,
    assignee: Option<string>,
    notes: Option<string>,
    completedAt: Option<int>)

  /** `Partial<Task>`: the fields an update overwrites. */
  datatype TaskPatch = TaskPatch(
    title: Option<string>,
    description: Option<string>,
    property: Option<string>,
    priority: Option<Priority>,
    dueDate: Option<DueDate>,
    status: Option<Status>,
    category: Option<string>,
    estimatedTime: Option<int>,
    assignee: Option<string>,
    notes: Option<string>,
    completedAt: Option<int>)

  const NoChanges := TaskPatch(None, None, None, None, None, None, None, None, None, None, None)

  function MaxTaskId(tasks: seq<Task>): (m: int)
    requires tasks != []
    ensures forall i :: 0 <= i < |tasks| ==> tasks[i].id <= m
    ensures exists i :: 0 <= i < |tasks| && tasks[i].id == m
  {
    if |tasks| == 1 then tasks[0].id
    else
      var rest := MaxTaskId(tasks[1..]);
      if tasks[0].id > rest then tasks[0].id else rest
  }

  /** `Math.max(...tasks.map(t => t.id)) + 1`. With no tasks `Math.max()` is
      -Infinity and no integer id exists, hence `None`. */
  function NextTaskId(tasks: seq<Task>): (r: Option<int>)
    ensures r.None? <==> tasks == []
    ensures r.Some? ==> forall i :: 0 <= i < |tasks| ==> tasks[i].id < r.value
  {
    if tasks == [] then None else Some(MaxTaskId(tasks) + 1)
  }

  /** The form data a stored task was made from: the task without its id and
      creation time. */
  function InputOf(t: Task): TaskInput {
    TaskInput(t.title, t.description, t.property, t.priority, t.dueDate, t.status, t.category,
              t.estimatedTime, t.assignee, t.notes, t.completedAt)
  }

  /** `createTask`: appends the submitted task with a fresh id and the creation time. */
  function CreateTask(tasks: seq<Task>, input: TaskInput, now: int): (r: Option<seq<Task>>)
    ensures r.None? <==> tasks == []
    ensures r.Some? ==> |r.value| == |tasks| + 1 && r.value[..|tasks|] == tasks
    ensures r.Some? ==> forall i :: 0 <= i < |tasks| ==> tasks[i].id < r.value[|tasks|].id
    ensures r.Some? ==> r.value[|tasks|].id == NextTaskId(tasks).value && r.value[|tasks|].createdAt == now
    ensures r.Some? ==> InputOf(r.value[|tasks|]) == input
  {
    match NextTaskId(tasks)
    case None => None
    case Some(id) =>
      Some(tasks + [Task(id, input.title, input.description, input.property, input.priority,
                         input.dueDate, input.status, input.category, input.estimatedTime,
                         input.assignee, input.notes, now, input.completedAt)])
  }

  /** An optional field after the spread: the update's value when it has the
      key, the old value otherwise. */
  function Overwrite<T>(update: Option<T>, current: Option<T>): (r: Option<T>)
  {
    if update.Some? then update else current
  }

  /** `{ ...task, ...updates }`. */
  function ApplyPatch(t: Task, p: TaskPatch): (r: Task)
    ensures r.id == t.id && r.createdAt == t.createdAt
    ensures p.title.Some? ==> r.title == p.title.value
    ensures p.title.None? ==> r.title == t.title
    ensures p.description.Some? ==> r.description == p.description
    ensures p.description.None? ==> r.description == t.description
    ensures p.property.Some? ==> r.property == p.property.value
    ensures p.property.None? ==> r.property == t.property
    ensures p.priority.Some? ==> r.priority == p.priority.value
    ensures p.priority.None? ==> r.priority == t.priority
    ensures p.dueDate.Some? ==> r.dueDate == p.dueDate.value
    ensures p.dueDate.None? ==> r.dueDate == t.dueDate
    ensures p.category.Some? ==> r.category == p.category.value
    ensures p.category.None? ==> r.category == t.category
    ensures p.estimatedTime.Some? ==> r.estimatedTime == p.estimatedTime
    ensures p.estimatedTime.None? ==> r.estimatedTime == t.estimatedTime
    ensures p.assignee.Some? ==> r.assignee == p.assignee
    ensures p.assignee.None? ==> r.assignee == t.assignee
    ensures p.notes.Some? ==> r.notes == p.notes
    ensures p.notes.None? ==> r.notes == t.notes
    ensures p.status.Some? ==> r.status == p.status.value
    ensures p.status.None? ==> r.status == t.status
    ensures p.completedAt.Some? ==> r.completedAt == p.completedAt
    ensures p.completedAt.None? ==> r.completedAt == t.completedAt
    ensures p == NoChanges ==> r == t
  {
    Task(t.id, p.title.GetOr(t.title), Overwrite(p.description, t.description),
         p.property.GetOr(t.property), p.priority.GetOr(t.priority), p.dueDate.GetOr(t.dueDate),
         p.status.GetOr(t.status), p.category.GetOr(t.category), Overwrite(p.estimatedTime, t.estimatedTime),
         Overwrite(p.assignee, t.assignee), Overwrite(p.notes, t.notes), t.createdAt,
         Overwrite(p.completedAt, t.completedAt))
  }

  /** `updateTask`: every task carrying `id` receives the patch. */
  function UpdateTask(tasks: seq<Task>, id: int, p: TaskPatch): (r: seq<Task>)
    ensures |r| == |tasks|
    ensures forall i :: 0 <= i < |tasks| ==>
      r[i] == if tasks[i].id == id then ApplyPatch(tasks[i], p) else tasks[i]
  {
    if tasks == [] then []
    else [if tasks[0].id == id then ApplyPatch(tasks[0], p) else tasks[0]] + UpdateTask(tasks[1..], id, p)
  }

  /** `deleteTask`. */
  function DeleteTask(tasks: seq<Task>, id: int): (r: seq<Task>)
    ensures |r| <= |tasks|
    ensures forall t :: t in r <==> t in tasks && t.id != id
  {
    if tasks == [] then []
    else if tasks[0].id == id then DeleteTask(tasks[1..], id)
    else [tasks[0]] + DeleteTask(tasks[1..], id)
  }

  /** `filter` keeps order: deleting from a concatenation deletes from each
      part, and a single task survives iff its id differs. */
  lemma {:induction false} DeleteTaskAppend(a: seq<Task>, b: seq<Task>, id: int)
    ensures DeleteTask(a + b, id) == DeleteTask(a, id) + DeleteTask(b, id)
    ensures forall t :: DeleteTask([t], id) == if t.id == id then [] else [t]
  {
    if a != [] {
      assert (a + b)[1..] == a[1..] + b by {}
      DeleteTaskAppend(a[1..], b, id);
    } else {
      assert a + b == b by {}
    }
    forall t ensures DeleteTask([t], id) == if t.id == id then [] else [t] {
    }
  }


  /** `tasks.find(t => t.id === id)`. */
  function FindTask(tasks: seq<Task>, id: int): (r: Option<Task>)
    ensures r.Some? ==>
      && r.value.id == id
      && exists k :: 0 <= k < |tasks| && tasks[k] == r.value && forall j :: 0 <= j < k ==> tasks[j].id != id
    ensures r.None? ==> forall i :: 0 <= i < |tasks| ==> tasks[i].id != id
  {
    if tasks == [] then None
    else if tasks[0].id == id then Some(tasks[0])
    else FindTask(tasks[1..], id)
  }

  function ToggledStatus(s: Status): Status {
    if s == Completed then Pending else Completed
  }

  /** `toggleTaskStatus`: looks up the first task with `id`; completed becomes
      pending, anything else becomes completed and is stamped with `now`.
      Going back to pending leaves `completedAt` as it was, because the patch
      then holds no `completedAt` key at all. */
  function ToggleTaskStatus(tasks: seq<Task>, id: int, now: int): (r: seq<Task>)
    ensures |r| == |tasks|
    ensures forall i :: 0 <= i < |tasks| && tasks[i].id != id ==> r[i] == tasks[i]
    ensures forall i :: 0 <= i < |tasks| && tasks[i].id == id ==>
      && r[i].status == ToggledStatus(FindTask(tasks, id).value.status)
      && r[i] == tasks[i].(status := r[i].status, completedAt := r[i].completedAt)
      && (r[i].status == Completed ==> r[i].completedAt == Some(now))
      && (r[i].status == Pending ==> r[i].completedAt == tasks[i].completedAt)
  {
    match FindTask(tasks, id)
    case None => tasks
    case Some(t) =>
      var s := ToggledStatus(t.status);
      UpdateTask(tasks, id, NoChanges.(status := Some(s),
                                       completedAt := if s == Completed then Some(now) else None))
  }

  lemma ToggleUnknownIdIsNoOp(tasks: seq<Task>, id: int, now: int)
    requires forall i :: 0 <= i < |tasks| ==> tasks[i].id != id
    ensures ToggleTaskStatus(tasks, id, now) == tasks
  {
  }

  /** What toggling does to each task, for a list whose ids are distinct. */
  lemma ToggleEffect(tasks: seq<Task>, id: int, now: int, k: nat)
    requires forall i, j :: 0 <= i < j < |tasks| ==> tasks[i].id != tasks[j].id
    requires k < |tasks|
    ensures |ToggleTaskStatus(tasks, id, now)| == |tasks|
    ensures tasks[k].id != id ==> ToggleTaskStatus(tasks, id, now)[k] == tasks[k]
    ensures tasks[k].id == id ==>
      var r := ToggleTaskStatus(tasks, id, now)[k];
      && r.status == ToggledStatus(tasks[k].status)
      && (r.status == Completed ==> r.completedAt == Some(now))
      && (r.status == Pending ==> r.completedAt == tasks[k].completedAt)
      && r == tasks[k].(status := r.status, completedAt := r.completedAt)
  {
    var f := FindTask(tasks, id);
    if tasks[k].id == id {
      assert f.Some?;
      var w :| 0 <= w < |tasks| && tasks[w] == f.value;
      assert w == k;
    }
  }

  /** Two toggles restore the status exactly for pending and completed tasks. */
  lemma ToggleTwice(tasks: seq<Task>, id: int, now1: int, now2: int, k: nat)
    requires forall i, j :: 0 <= i < j < |tasks| ==> tasks[i].id != tasks[j].id
    requires k < |tasks| && tasks[k].id == id
    ensures |ToggleTaskStatus(ToggleTaskStatus(tasks, id, now1), id, now2)| == |tasks|
    ensures ToggleTaskStatus(ToggleTaskStatus(tasks, id, now1), id, now2)[k].status == tasks[k].status
            <==> tasks[k].status in {Pending, Completed}
  {
    var once := ToggleTaskStatus(tasks, id, now1);
    ToggleEffect(tasks, id, now1, k);
    assert forall i :: 0 <= i < |once| ==> once[i].id == tasks[i].id by {
      forall i | 0 <= i < |once| ensures once[i].id == tasks[i].id {
        ToggleEffect(tasks, id, now1, i);
      }
    }
    ToggleEffect(once, id, now2, k);
  }

  /** `deleteProperty`: drops the property and, when it existed, every task
      whose `property` names it. */
  function DeleteProperty(properties: seq<Property>, tasks: seq<Task>, id: int): (r: (seq<Property>, seq<Task>))
    ensures forall p :: p in r.0 <==> p in properties && p.id != id
    ensures forall t :: t in r.1 ==> t in tasks
    ensures FindProperty(properties, id).Some? ==>
      forall t :: t in r.1 <==> t in tasks && t.property != FindProperty(properties, id).value.name
    ensures (forall p :: p in properties ==> p.id != id) ==> r.1 == tasks
  {
    (RemoveProperty(properties, id),
     match FindProperty(properties, id)
     case None => tasks
     case Some(p) => TasksNotAt(tasks, p.name))
  }

  function RemoveProperty(properties: seq<Property>, id: int): (r: seq<Property>)
    ensures forall p :: p in r <==> p in properties && p.id != id
  {
    if properties == [] then []
    else if properties[0].id == id then RemoveProperty(properties[1..], id)
    else [properties[0]] + RemoveProperty(properties[1..], id)
  }

  /** Removing a property keeps the order of the others. */
  lemma {:induction false} RemovePropertyAppend(a: seq<Property>, b: seq<Property>, id: int)
    ensures RemoveProperty(a + b, id) == RemoveProperty(a, id) + RemoveProperty(b, id)
    ensures forall p :: RemoveProperty([p], id) == if p.id == id then [] else [p]
  {
    if a != [] {
      assert (a + b)[1..] == a[1..] + b by {}
      RemovePropertyAppend(a[1..], b, id);
    } else {
      assert a + b == b by {}
    }
    forall p ensures RemoveProperty([p], id) == if p.id == id then [] else [p] {
    }
  }


  function FindProperty(properties: seq<Property>, id: int): (r: Option<Property>)
    ensures r.Some? ==>
      && r.value.id == id
      && exists k :: 0 <= k < |properties| && properties[k] == r.value && forall j :: 0 <= j < k ==> properties[j].id != id
    ensures r.None? ==> forall p :: p in properties ==> p.id != id
  {
    if properties == [] then None
    else if properties[0].id == id then Some(properties[0])
    else FindProperty(properties[1..], id)
  }

  function TasksNotAt(tasks: seq<Task>, name: string): (r: seq<Task>)
    ensures forall t :: t in r <==> t in tasks && t.property != name
  {
    if tasks == [] then []
    else if tasks[0].property == name then TasksNotAt(tasks[1..], name)
    else [tasks[0]] + TasksNotAt(tasks[1..], name)
  }

  /** The cascade keeps the order of the surviving tasks. */
  lemma {:induction false} TasksNotAtAppend(a: seq<Task>, b: seq<Task>, name: string)
    ensures TasksNotAt(a + b, name) == TasksNotAt(a, name) + TasksNotAt(b, name)
    ensures forall t :: TasksNotAt([t], name) == if t.property == name then [] else [t]
  {
    if a != [] {
      assert (a + b)[1..] == a[1..] + b by {}
      TasksNotAtAppend(a[1..], b, name);
    } else {
      assert a + b == b by {}
    }
    forall t ensures TasksNotAt([t], name) == if t.property == name then [] else [t] {
    }
  }


  /** The cascade: no remaining task refers to the deleted property's name,
      every task elsewhere survives, in its order (the kept list is
      `TasksNotAt`, whose order `TasksNotAtAppend` pins); an unknown id
      changes neither list. */
  lemma DeletePropertyCascade(properties: seq<Property>, tasks: seq<Task>, id: int)
    ensures forall p :: p in DeleteProperty(properties, tasks, id).0 <==> p in properties && p.id != id
    ensures forall p :: p in properties && p.id == id ==>
      forall t :: t in DeleteProperty(properties, tasks, id).1 ==> t.property != FindProperty(properties, id).value.name
    ensures forall p :: p in properties && p.id == id ==>
      forall t :: t in tasks && t.property != FindProperty(properties, id).value.name ==>
        t in DeleteProperty(properties, tasks, id).1
    ensures FindProperty(properties, id).Some? ==>
      DeleteProperty(properties, tasks, id).1 == TasksNotAt(tasks, FindProperty(properties, id).value.name)
    ensures forall t :: t in DeleteProperty(properties, tasks, id).1 ==> t in tasks
    ensures (forall p :: p in properties ==> p.id != id) ==> DeleteProperty(properties, tasks, id) == (properties, tasks)
  {
    if forall p :: p in properties ==> p.id != id {
      NoPropertyRemoved(properties, id);
    }
  }

  lemma {:induction false} NoPropertyRemoved(properties: seq<Property>, id: int)
    requires forall p :: p in properties ==> p.id != id
    ensures RemoveProperty(properties, id) == properties
  {
    if properties != [] {
      assert properties[0] in properties;
      assert forall p :: p in properties[1..] ==> p in properties;
      NoPropertyRemoved(properties[1..], id);
      assert properties == [properties[0]] + properties[1..];
    }
  }

  /** The task view's filter: a status filter ("all" or a status name) and a
      case-insensitive search over title and property. */
  predicate MatchesFilter(t: Task, statusFilter: string, search: string) {
    && (statusFilter == "all" || StatusName(t.status) == statusFilter)
    && (Text.Contains(Text.Lower(t.title), Text.Lower(search))
        || Text.Contains(Text.Lower(t.property), Text.Lower(search)))
  }

  function FilteredTasks(tasks: seq<Task>, statusFilter: string, search: string): (r: seq<Task>)
    ensures |r| <= |tasks|
    ensures forall t :: t in r <==> t in tasks && MatchesFilter(t, statusFilter, search)
  {
    if tasks == [] then []
    else if MatchesFilter(tasks[0], statusFilter, search) then [tasks[0]] + FilteredTasks(tasks[1..], statusFilter, search)
    else FilteredTasks(tasks[1..], statusFilter, search)
  }

  /** The view lists the matching tasks in their stored order. */
  lemma {:induction false} FilteredTasksAppend(a: seq<Task>, b: seq<Task>, statusFilter: string, search: string)
    ensures FilteredTasks(a + b, statusFilter, search)
            == FilteredTasks(a, statusFilter, search) + FilteredTasks(b, statusFilter, search)
    ensures forall t :: FilteredTasks([t], statusFilter, search)
                        == if MatchesFilter(t, statusFilter, search) then [t] else []
  {
    if a == [] {
      assert a + b == b;
    } else {
      assert (a + b)[1..] == a[1..] + b;
      FilteredTasksAppend(a[1..], b, statusFilter, search);
    }
  }



  /** The default view ("all", empty search) shows every task, in order. */
  lemma {:induction false} UnfilteredShowsAll(tasks: seq<Task>)
    ensures FilteredTasks(tasks, "all", "") == tasks
  {
    if tasks != [] {
      Text.EmptyIsContained(Text.Lower(tasks[0].title));
      assert Text.Lower("") == "";
      UnfilteredShowsAll(tasks[1..]);
      assert tasks == [tasks[0]] + tasks[1..];
    }
  }

  datatype DashboardStats = DashboardStats(totalTasks: nat, completedTasks: nat, upcomingTasks: nat, overdueTask: nat)

  function CountStatus(tasks: seq<Task>, s: set<Status>): nat {
    if tasks == [] then 0 else (if tasks[0].status in s then 1 else 0) + CountStatus(tasks[1..], s)
  }

  /** The status column of the task list. */
  function Statuses(tasks: seq<Task>): (r: seq<Status>)
    ensures |r| == |tasks|
  {
    seq(|tasks|, i requires 0 <= i < |tasks| => tasks[i].status)
  }

  /** Counting the tasks whose status lies in a one-element set gives how many
      times that status occurs in the status column. */
  lemma {:induction false} CountStatusIsMultiplicity(tasks: seq<Task>, s: Status)
    ensures CountStatus(tasks, {s}) == multiset(Statuses(tasks))[s]
  {
    if tasks != [] {
      CountStatusIsMultiplicity(tasks[1..], s);
      assert Statuses(tasks) == [tasks[0].status] + Statuses(tasks[1..]);
    }
  }

  /** `dashboardStats`: each counter is the number of tasks in its status. */
  function Stats(tasks: seq<Task>): (r: DashboardStats)
    ensures r.totalTasks == |tasks|
    ensures r.completedTasks == multiset(Statuses(tasks))[Completed]
    ensures r.upcomingTasks == multiset(Statuses(tasks))[Pending] + multiset(Statuses(tasks))[InProgress]
    ensures r.overdueTask == multiset(Statuses(tasks))[Overdue]
  {
    CountStatusIsMultiplicity(tasks, Completed);
    CountStatusIsMultiplicity(tasks, Pending);
    CountStatusIsMultiplicity(tasks, InProgress);
    CountStatusIsMultiplicity(tasks, Overdue);
    CountStatusSplit(tasks, {Pending}, {InProgress});
    assert {Pending} + {InProgress} == {Pending, InProgress};
    DashboardStats(|tasks|, CountStatus(tasks, {Completed}), CountStatus(tasks, {Pending, InProgress}),
                   CountStatus(tasks, {Overdue}))
  }

  lemma {:induction false} CountStatusSplit(tasks: seq<Task>, a: set<Status>, b: set<Status>)
    requires a !! b
    ensures CountStatus(tasks, a + b) == CountStatus(tasks, a) + CountStatus(tasks, b)
  {
    if tasks != [] {
      CountStatusSplit(tasks[1..], a, b);
    }
  }

  lemma {:induction false} CountAllStatuses(tasks: seq<Task>)
    ensures CountStatus(tasks, {Pending, InProgress, Completed, Overdue}) == |tasks|
  {
    if tasks != [] {
      CountAllStatuses(tasks[1..]);
      assert tasks[0].status in {Pending, InProgress, Completed, Overdue} by {
        match tasks[0].status
        case Pending =>
        case InProgress =>
        case Completed =>
        case Overdue =>
      }
    }
  }

  /** The four dashboard counters partition the task list. */
  lemma StatsPartition(tasks: seq<Task>)
    ensures Stats(tasks).completedTasks + Stats(tasks).upcomingTasks + Stats(tasks).overdueTask
            == Stats(tasks).totalTasks
  {
    CountStatusSplit(tasks, {Completed}, {Pending, InProgress});
    CountStatusSplit(tasks, {Completed, Pending, InProgress}, {Overdue});
    assert {Completed} + {Pending, InProgress} == {Completed, Pending, InProgress};
    assert {Completed, Pending, InProgress} + {Overdue} == {Pending, InProgress, Completed, Overdue};
    CountAllStatuses(tasks);
  }
}
