/** The reminder evaluator `checkTaskReminders` (App.tsx): one pass over the
    task list that emits task reminders and overdue alerts into the
    notification list and marks overdue tasks, and the interval that runs it.

    The pass reads the tasks, the notification list and the settings of its
    closure, so the duplicate check never sees notifications created earlier
    in the same pass, and every notification created in the pass is given the
    same id, one above the largest id of the closure's list. Each created
    notification is put in front of the component's current list, so the last
    one created ends up first. The interval keeps the closure of the first
    render (`ReminderScheduler`). */
module Reminders {
  import opened Wrappers
  import opened Domain
  import NS = NotificationStore

  /** The UTC midnight that `new Date(task.dueDate)` denotes. */
  function DueMs(d: DueDate): int
    requires d.Day?
  {
    d.day * DayMs
  }

  /** The UTC calendar day of the clock reading `now`, as
      `toISOString().split('T')[0]` names it. */
  function UtcDay(now: int): int {
    now / DayMs
  }

  predicate IsOpen(t: Task) {
    t.status == Pending || t.status == InProgress
  }

  /** `now >= reminderTime && now < dueDate` with `reminderTime = dueDate - reminderAdvance days`. */
  predicate InReminderWindow(now: int, t: Task, settings: NotificationSettings) {
    t.dueDate.Day? && DueMs(t.dueDate) - settings.reminderAdvance * DayMs <= now < DueMs(t.dueDate)
  }

  /** A `task_reminder` for the task created within the last 24 hours. */
  predicate RecentReminder(snapshot: seq<Notification>, taskId: int, now: int) {
    exists i :: 0 <= i < |snapshot| && snapshot[i].taskId == Some(taskId) &&
                snapshot[i].kind == TaskReminder && snapshot[i].createdAt > now - DayMs
  }

  predicate RemindsNow(now: int, t: Task, settings: NotificationSettings, snapshot: seq<Notification>) {
    IsOpen(t) && settings.taskReminders && InReminderWindow(now, t, settings) &&
    !RecentReminder(snapshot, t.id, now)
  }

  predicate GoesOverdue(now: int, t: Task, settings: NotificationSettings) {
    t.dueDate.Day? && now > DueMs(t.dueDate) && t.status != Overdue && t.status != Completed &&
    settings.maintenanceAlerts
  }

  /** The reminder text, built from the clock reading `msgNow` taken when the
      message is formatted (the source reads the clock afresh there). */
  function ReminderText(t: Task, msgNow: int): string
    requires t.dueDate.Day?
  {
    t.title + " is due " + (if t.dueDate.day == UtcDay(msgNow) then "today" else "soon")
  }

  /** The reminder of a pass; one clock reading `now` stands for the window
      test and the message's own reading. */
  function ReminderDraft(now: int, t: Task, settings: NotificationSettings): (d: Draft)
    requires t.dueDate.Day?
  {
    Draft("Task Reminder",
          ReminderText(t, now),
          TaskReminder, t.priority, false, Some(t.id), None,
          Some(DueMs(t.dueDate) - settings.reminderAdvance * DayMs), None)
  }

  function OverdueDraft(t: Task): (d: Draft) {
    Draft("Overdue Task", t.title + " is now overdue", Alert, High, false, Some(t.id), None, None, None)
  }

  /** What one task contributes to a pass, in creation order. */
  function TaskDrafts(now: int, t: Task, settings: NotificationSettings, snapshot: seq<Notification>): seq<Draft>
  {
    (if RemindsNow(now, t, settings, snapshot) then [ReminderDraft(now, t, settings)] else []) +
    (if GoesOverdue(now, t, settings) then [OverdueDraft(t)] else [])
  }

  /** Everything a pass over `tasks` creates, in creation order. */
  function PassDrafts(now: int, tasks: seq<Task>, settings: NotificationSettings, snapshot: seq<Notification>): seq<Draft>
  {
    if tasks == [] then []
    else PassDrafts(now, tasks[..|tasks| - 1], settings, snapshot) +
         TaskDrafts(now, tasks[|tasks| - 1], settings, snapshot)
  }

  /** The ids a pass over `tasks` marks overdue. */
  function OverdueIds(now: int, tasks: seq<Task>, settings: NotificationSettings): set<int>
  {
    if tasks == [] then {}
    else OverdueIds(now, tasks[..|tasks| - 1], settings) +
         (if GoesOverdue(now, tasks[|tasks| - 1], settings) then {tasks[|tasks| - 1].id} else {})
  }

  /** `setTasks(prev => prev.map(t => t.id === id ? { ...t, status: 'overdue' } : t))`. */
  function MarkOverdueId(tasks: seq<Task>, id: int): (r: seq<Task>)
    ensures |r| == |tasks|
  {
    if tasks == [] then [] else
    [if tasks[0].id == id then tasks[0].(status := Overdue) else tasks[0]] + MarkOverdueId(tasks[1..], id)
  }

  /** The task list after a pass has marked the ids in `ids`. */
  function MarkOverdue(tasks: seq<Task>, ids: set<int>): (r: seq<Task>)
    ensures |r| == |tasks|
  {
    if tasks == [] then [] else
    [if tasks[0].id in ids then tasks[0].(status := Overdue) else tasks[0]] + MarkOverdue(tasks[1..], ids)
  }

  /** The drafts of a pass, stamped with the pass's single id, newest first. */
  function NewestFirst(drafts: seq<Draft>, id: int, now: int): (r: seq<Notification>)
    ensures |r| == |drafts|
  {
    if drafts == [] then []
    else [NS.Stamp(drafts[|drafts| - 1], id, now)] + NewestFirst(drafts[..|drafts| - 1], id, now)
  }

  /** The notification list after a pass whose closure holds `tasks`,
      `settings` and `snapshot`, applied to the component's current list
      `live`: the drafts are computed from the closure, stamped with the id
      computed from `snapshot`, and put in front of `live`. */
  function TickNotifications(now: int, tasks: seq<Task>, settings: NotificationSettings,
                             snapshot: seq<Notification>, live: seq<Notification>): (r: seq<Notification>)
    ensures |r| == |PassDrafts(now, tasks, settings, snapshot)| + |live|
  {
    NewestFirst(PassDrafts(now, tasks, settings, snapshot), NS.NextId(snapshot), now) + live
  }

  /** The notification list after a pass whose closure holds the current state. */
  function PassNotifications(now: int, tasks: seq<Task>, settings: NotificationSettings,
                             snapshot: seq<Notification>): seq<Notification>
  {
    TickNotifications(now, tasks, settings, snapshot, snapshot)
  }

  lemma {:induction false} NewestFirstAppend(a: seq<Draft>, b: seq<Draft>, id: int, now: int)
    ensures NewestFirst(a + b, id, now) == NewestFirst(b, id, now) + NewestFirst(a, id, now)
    decreases |b|
  {
    if b == [] {
      assert a + b == a;
    } else {
      assert (a + b)[..|a + b| - 1] == a + b[..|b| - 1];
      NewestFirstAppend(a, b[..|b| - 1], id, now);
    }
  }

  /** `MarkOverdueId` changes the status of exactly the tasks carrying `id`. */
  lemma {:induction false} MarkOverdueIdAt(tasks: seq<Task>, id: int, k: int)
    requires 0 <= k < |tasks|
    ensures MarkOverdueId(tasks, id)[k] ==
      if tasks[k].id == id then tasks[k].(status := Overdue) else tasks[k]
  {
    if k > 0 {
      MarkOverdueIdAt(tasks[1..], id, k - 1);
    }
  }

  /** `MarkOverdue` changes the status of exactly the tasks whose id is in `ids`. */
  lemma {:induction false} MarkOverdueAt(tasks: seq<Task>, ids: set<int>, k: int)
    requires 0 <= k < |tasks|
    ensures MarkOverdue(tasks, ids)[k] ==
      if tasks[k].id in ids then tasks[k].(status := Overdue) else tasks[k]
  {
    if k > 0 {
      MarkOverdueAt(tasks[1..], ids, k - 1);
    }
  }

  lemma MarkOverdueAdd(tasks: seq<Task>, ids: set<int>, id: int)
    ensures MarkOverdueId(MarkOverdue(tasks, ids), id) == MarkOverdue(tasks, ids + {id})
  {
    var l := MarkOverdueId(MarkOverdue(tasks, ids), id);
    var r := MarkOverdue(tasks, ids + {id});
    forall k | 0 <= k < |l| ensures l[k] == r[k] {
      MarkOverdueAt(tasks, ids, k);
      MarkOverdueIdAt(MarkOverdue(tasks, ids), id, k);
      MarkOverdueAt(tasks, ids + {id}, k);
    }
  }

  /** The task list after the callback for `t` has run on `cur`. */
  function VisitedTasks(now: int, t: Task, settings: NotificationSettings, cur: seq<Task>): seq<Task>
  {
    if GoesOverdue(now, t, settings) then MarkOverdueId(cur, t.id) else cur
  }

  /** The notification list after the callback for `t` has run on `cur`: the
      reminder (if any) goes in front, then the overdue alert (if any) in front
      of that, both stamped with the id computed from the snapshot. */
  function VisitedNotifications(now: int, t: Task, settings: NotificationSettings,
                                snapshot: seq<Notification>, cur: seq<Notification>): seq<Notification>
  {
    var afterReminder :=
      if RemindsNow(now, t, settings, snapshot)
      then [NS.Stamp(ReminderDraft(now, t, settings), NS.NextId(snapshot), now)] + cur
      else cur;
    if GoesOverdue(now, t, settings)
    then [NS.Stamp(OverdueDraft(t), NS.NextId(snapshot), now)] + afterReminder
    else afterReminder
  }

  lemma {:induction false} MarkOverdueNone(tasks: seq<Task>)
    ensures MarkOverdue(tasks, {}) == tasks
  {
    if tasks != [] {
      MarkOverdueNone(tasks[1..]);
      assert tasks == [tasks[0]] + tasks[1..];
    }
  }

  /** One step of the pass on the task list. */
  lemma TasksStep(now: int, tasks: seq<Task>, i: nat, settings: NotificationSettings, live: seq<Task>, cur: seq<Task>)
    requires i < |tasks|
    requires cur == MarkOverdue(live, OverdueIds(now, tasks[..i], settings))
    ensures VisitedTasks(now, tasks[i], settings, cur) == MarkOverdue(live, OverdueIds(now, tasks[..i + 1], settings))
  {
    PassStep(now, tasks, i, settings, []);
    var before := OverdueIds(now, tasks[..i], settings);
    if GoesOverdue(now, tasks[i], settings) {
      assert OverdueIds(now, tasks[..i + 1], settings) == before + {tasks[i].id};
      MarkOverdueAdd(live, before, tasks[i].id);
    } else {
      assert OverdueIds(now, tasks[..i + 1], settings) == before;
    }
  }

  /** One step of the pass on the notification list: the reminder (if any) is
      put in front, then the overdue alert (if any) in front of that. */
  lemma NotificationsStep(now: int, tasks: seq<Task>, i: nat, settings: NotificationSettings,
                          snapshot: seq<Notification>, live: seq<Notification>, cur: seq<Notification>)
    requires i < |tasks|
    requires cur == NewestFirst(PassDrafts(now, tasks[..i], settings, snapshot), NS.NextId(snapshot), now) + live
    ensures VisitedNotifications(now, tasks[i], settings, snapshot, cur) ==
      NewestFirst(PassDrafts(now, tasks[..i + 1], settings, snapshot), NS.NextId(snapshot), now) + live
  {
    var id := NS.NextId(snapshot);
    PassStep(now, tasks, i, settings, snapshot);
    TaskDraftsNewestFirst(now, tasks[i], settings, snapshot, id);
    var o: seq<Notification> :=
      if GoesOverdue(now, tasks[i], settings) then [NS.Stamp(OverdueDraft(tasks[i]), id, now)] else [];
    var r: seq<Notification> :=
      if RemindsNow(now, tasks[i], settings, snapshot) then [NS.Stamp(ReminderDraft(now, tasks[i], settings), id, now)] else [];
    var prev := NewestFirst(PassDrafts(now, tasks[..i], settings, snapshot), id, now);
    assert NewestFirst(PassDrafts(now, tasks[..i + 1], settings, snapshot), id, now) == (o + r) + prev;
    ConcatAssoc(o, r, prev, live);
    assert [] + cur == cur;
    assert [] + (r + cur) == r + cur;
  }

  lemma ConcatAssoc(a: seq<Notification>, b: seq<Notification>, c: seq<Notification>, d: seq<Notification>)
    ensures ((a + b) + c) + d == a + (b + (c + d))
  {
  }

  lemma PassStep(now: int, tasks: seq<Task>, i: nat, settings: NotificationSettings,
                 snapshot: seq<Notification>)
    requires i < |tasks|
    ensures PassDrafts(now, tasks[..i + 1], settings, snapshot) ==
            PassDrafts(now, tasks[..i], settings, snapshot) + TaskDrafts(now, tasks[i], settings, snapshot)
    ensures OverdueIds(now, tasks[..i + 1], settings) ==
            OverdueIds(now, tasks[..i], settings) + (if GoesOverdue(now, tasks[i], settings) then {tasks[i].id} else {})
    ensures NewestFirst(PassDrafts(now, tasks[..i + 1], settings, snapshot), NS.NextId(snapshot), now) ==
            NewestFirst(TaskDrafts(now, tasks[i], settings, snapshot), NS.NextId(snapshot), now) +
            NewestFirst(PassDrafts(now, tasks[..i], settings, snapshot), NS.NextId(snapshot), now)
  {
    assert tasks[..i + 1][..i] == tasks[..i];
    NewestFirstAppend(PassDrafts(now, tasks[..i], settings, snapshot),
                      TaskDrafts(now, tasks[i], settings, snapshot), NS.NextId(snapshot), now);
  }

  lemma TaskDraftsNewestFirst(now: int, t: Task, settings: NotificationSettings,
                              snapshot: seq<Notification>, id: int)
    ensures NewestFirst(TaskDrafts(now, t, settings, snapshot), id, now) ==
      (if GoesOverdue(now, t, settings) then [NS.Stamp(OverdueDraft(t), id, now)] else []) +
      (if RemindsNow(now, t, settings, snapshot) then [NS.Stamp(ReminderDraft(now, t, settings), id, now)] else [])
  {
    var r: seq<Draft> := if RemindsNow(now, t, settings, snapshot) then [ReminderDraft(now, t, settings)] else [];
    var o: seq<Draft> := if GoesOverdue(now, t, settings) then [OverdueDraft(t)] else [];
    NewestFirstAppend(r, o, id, now);
    if o != [] {
      assert o[..0] == [];
    }
    if r != [] {
      assert r[..0] == [];
    }
  }

  /** The `forEach` callback for one task: a reminder when the task is open,
      reminders are on, `now` lies in the window before the due date and the
      snapshot holds no reminder for it from the last 24 hours; then an alert
      and the overdue mark when the due date has passed. */
  method VisitTask(now: int, task: Task, settings: NotificationSettings, notifications: seq<Notification>,
                   tasksIn: seq<Task>, notificationsIn: seq<Notification>)
    returns (tasksOut: seq<Task>, notificationsOut: seq<Notification>)
    ensures tasksOut == VisitedTasks(now, task, settings, tasksIn)
    ensures notificationsOut == VisitedNotifications(now, task, settings, notifications, notificationsIn)
  {
    tasksOut, notificationsOut := tasksIn, notificationsIn;
    var reminderAdvanceMs := settings.reminderAdvance * DayMs;
    if (task.status == Pending || task.status == InProgress) && settings.taskReminders {
      if task.dueDate.Day? {
        var dueDate := task.dueDate.day * DayMs;
        var reminderTime := dueDate - reminderAdvanceMs;
        if now >= reminderTime && now < dueDate {
          var existing := RecentReminder(notifications, task.id, now);
          if !existing {
            notificationsOut := [NS.Stamp(ReminderDraft(now, task, settings), NS.NextId(notifications), now)]
                                + notificationsOut;
          }
        }
      }
    }
    if task.dueDate.Day? && now > task.dueDate.day * DayMs && task.status != Overdue &&
       task.status != Completed && settings.maintenanceAlerts {
      tasksOut := MarkOverdueId(tasksOut, task.id);
      notificationsOut := [NS.Stamp(OverdueDraft(task), NS.NextId(notifications), now)] + notificationsOut;
    }
  }

  /** `checkTaskReminders`: the `forEach` over the tasks of the closure
      (`tasks`, `settings`, `notifications`), with `createNotification` and
      the functional `setTasks` applied as the loop goes to the component's
      current lists `liveTasks` and `liveNotifications`. */
  method CheckTaskReminders(now: int, tasks: seq<Task>, settings: NotificationSettings,
                            notifications: seq<Notification>,
                            liveTasks: seq<Task>, liveNotifications: seq<Notification>)
    returns (newTasks: seq<Task>, newNotifications: seq<Notification>)
    ensures newTasks == MarkOverdue(liveTasks, OverdueIds(now, tasks, settings))
    ensures newNotifications == TickNotifications(now, tasks, settings, notifications, liveNotifications)
  {
    newTasks, newNotifications := liveTasks, liveNotifications;
    MarkOverdueNone(liveTasks);
    assert tasks[..0] == [];
    var i := 0;
    while i < |tasks|
      invariant 0 <= i <= |tasks|
      invariant newTasks == MarkOverdue(liveTasks, OverdueIds(now, tasks[..i], settings))
      invariant newNotifications ==
        NewestFirst(PassDrafts(now, tasks[..i], settings, notifications), NS.NextId(notifications), now) + liveNotifications
    {
      TasksStep(now, tasks, i, settings, liveTasks, newTasks);
      NotificationsStep(now, tasks, i, settings, notifications, liveNotifications, newNotifications);
      newTasks, newNotifications := VisitTask(now, tasks[i], settings, notifications, newTasks, newNotifications);
      i := i + 1;
    }
    assert tasks[..|tasks|] == tasks;
  }

  // Properties of one pass

  /** A task gets at most one notification per pass: the reminder needs `now`
      before the due date and the alert needs it after. Completed and overdue
      tasks get none. */
  lemma AtMostOneDraftPerTask(now: int, t: Task, settings: NotificationSettings, snapshot: seq<Notification>)
    ensures |TaskDrafts(now, t, settings, snapshot)| <= 1
    ensures t.status == Completed || t.status == Overdue ==> TaskDrafts(now, t, settings, snapshot) == []
    ensures forall j :: 0 <= j < |TaskDrafts(now, t, settings, snapshot)| ==>
      TaskDrafts(now, t, settings, snapshot)[j].taskId == Some(t.id)
  {
    if RemindsNow(now, t, settings, snapshot) {
      assert !GoesOverdue(now, t, settings);
    }
  }

  /** `now < day * DayMs` puts `now` on an earlier UTC day than `day`. */
  lemma {:induction false} BeforeMidnightIsEarlierDay(now: int, day: int)
    requires now < day * DayMs
    ensures now / DayMs < day
  {
    var q := now / DayMs;
    assert q * DayMs <= now;
    assert (day - q) * DayMs == day * DayMs - q * DayMs;
  }

  /** With one clock reading per pass the reminder message never says
      "today": the reminder needs `now` before the UTC midnight that starts
      the due day, so the UTC date of `now` is always an earlier day than the
      due date. */
  lemma ReminderNeverSaysToday(now: int, t: Task, settings: NotificationSettings)
    requires InReminderWindow(now, t, settings)
    ensures ReminderDraft(now, t, settings).message == t.title + " is due soon"
  {
    BeforeMidnightIsEarlierDay(now, t.dueDate.day);
  }

  /** `now` before the end of UTC day `day` lies on that day or an earlier one. */
  lemma {:induction false} WithinDayIsThatDayOrEarlier(now: int, day: int)
    requires now < day * DayMs + DayMs
    ensures now / DayMs <= day
  {
    BeforeMidnightIsEarlierDay(now, day + 1);
    assert (day + 1) * DayMs == day * DayMs + DayMs;
  }

  /** With the message's own clock reading `msgNow`, taken no earlier than the
      window test's `now`, the text says "today" exactly when that reading has
      crossed the UTC midnight that starts the due day; since `now` lies
      before that midnight, this is the case of a pass straddling it. */
  lemma {:induction false} ReminderTodayOnlyAcrossMidnight(now: int, msgNow: int, t: Task,
                                                           settings: NotificationSettings)
    requires InReminderWindow(now, t, settings) && now <= msgNow < DueMs(t.dueDate) + DayMs
    ensures ReminderText(t, msgNow) == t.title + " is due today" <==> msgNow >= DueMs(t.dueDate)
    ensures ReminderText(t, msgNow) == t.title + " is due soon" <==> msgNow < DueMs(t.dueDate)
  {
    var day := t.dueDate.day;
    WithinDayIsThatDayOrEarlier(msgNow, day);
    if msgNow >= DueMs(t.dueDate) {
      assert day * DayMs <= msgNow;
      assert UtcDay(msgNow) == day;
      assert ReminderText(t, msgNow) == t.title + " is due today";
      assert (t.title + " is due today")[|t.title| + 8] == 't';
      assert (t.title + " is due soon")[|t.title| + 8] == 's';
    } else {
      BeforeMidnightIsEarlierDay(msgNow, day);
      assert ReminderText(t, msgNow) == t.title + " is due soon";
      assert (t.title + " is due today")[|t.title| + 8] == 't';
      assert (t.title + " is due soon")[|t.title| + 8] == 's';
    }
  }

  /** The number of drafts in `ds` about task `id` of the given type. */
  function DraftCount(ds: seq<Draft>, id: int, kind: NotificationType): nat
  {
    if ds == [] then 0
    else DraftCount(ds[..|ds| - 1], id, kind) +
         (if ds[|ds| - 1].taskId == Some(id) && ds[|ds| - 1].kind == kind then 1 else 0)
  }

  lemma {:induction false} DraftCountAppend(a: seq<Draft>, b: seq<Draft>, id: int, kind: NotificationType)
    ensures DraftCount(a + b, id, kind) == DraftCount(a, id, kind) + DraftCount(b, id, kind)
    decreases |b|
  {
    if b == [] {
      assert a + b == a;
    } else {
      assert (a + b)[..|a + b| - 1] == a + b[..|b| - 1];
      DraftCountAppend(a, b[..|b| - 1], id, kind);
    }
  }

  predicate DistinctTaskIds(tasks: seq<Task>) {
    forall j, k :: 0 <= j < k < |tasks| ==> tasks[j].id != tasks[k].id
  }

  lemma {:induction false} PassDraftCount(now: int, tasks: seq<Task>, settings: NotificationSettings,
                                          snapshot: seq<Notification>, id: int, kind: NotificationType)
    ensures DraftCount(PassDrafts(now, tasks, settings, snapshot), id, kind) ==
      if tasks == [] then 0
      else DraftCount(PassDrafts(now, tasks[..|tasks| - 1], settings, snapshot), id, kind) +
           DraftCount(TaskDrafts(now, tasks[|tasks| - 1], settings, snapshot), id, kind)
  {
    if tasks != [] {
      DraftCountAppend(PassDrafts(now, tasks[..|tasks| - 1], settings, snapshot),
                       TaskDrafts(now, tasks[|tasks| - 1], settings, snapshot), id, kind);
    }
  }

  /** With distinct task ids, what a pass creates about a task is what the
      task itself contributes. */
  lemma {:induction false} PassDraftCountOf(now: int, tasks: seq<Task>, settings: NotificationSettings,
                                            snapshot: seq<Notification>, k: int, kind: NotificationType)
    requires DistinctTaskIds(tasks)
    requires 0 <= k < |tasks|
    ensures DraftCount(PassDrafts(now, tasks, settings, snapshot), tasks[k].id, kind) ==
            DraftCount(TaskDrafts(now, tasks[k], settings, snapshot), tasks[k].id, kind)
    decreases |tasks|
  {
    var n := |tasks| - 1;
    var id := tasks[k].id;
    PassDraftCount(now, tasks, settings, snapshot, id, kind);
    if k == n {
      NoDraftsForAbsentId(now, tasks[..n], settings, snapshot, id, kind);
    } else {
      assert DistinctTaskIds(tasks[..n]);
      assert tasks[..n][k] == tasks[k];
      PassDraftCountOf(now, tasks[..n], settings, snapshot, k, kind);
      assert tasks[n].id != id;
      NoDraftsForOtherTask(now, tasks[n], settings, snapshot, id, kind);
    }
  }

  lemma NoDraftsForOtherTask(now: int, t: Task, settings: NotificationSettings,
                             snapshot: seq<Notification>, id: int, kind: NotificationType)
    requires t.id != id
    ensures DraftCount(TaskDrafts(now, t, settings, snapshot), id, kind) == 0
  {
    var ds := TaskDrafts(now, t, settings, snapshot);
    AtMostOneDraftPerTask(now, t, settings, snapshot);
    if ds != [] {
      assert ds[..0] == [];
    }
  }

  /** With distinct task ids, a pass creates exactly one reminder for each
      task that is due for one, and exactly one overdue alert for each task
      that has just gone overdue; none for any other task. */
  lemma PassCounts(now: int, tasks: seq<Task>, settings: NotificationSettings,
                   snapshot: seq<Notification>, k: int)
    requires DistinctTaskIds(tasks)
    requires 0 <= k < |tasks|
    ensures DraftCount(PassDrafts(now, tasks, settings, snapshot), tasks[k].id, TaskReminder) ==
      if RemindsNow(now, tasks[k], settings, snapshot) then 1 else 0
    ensures DraftCount(PassDrafts(now, tasks, settings, snapshot), tasks[k].id, Alert) ==
      if GoesOverdue(now, tasks[k], settings) then 1 else 0
  {
    PassDraftCountOf(now, tasks, settings, snapshot, k, TaskReminder);
    PassDraftCountOf(now, tasks, settings, snapshot, k, Alert);
    TaskDraftCounts(now, tasks[k], settings, snapshot);
  }

  /** What one task contributes: one reminder when it is due for one, one
      alert when it has just gone overdue. */
  lemma TaskDraftCounts(now: int, t: Task, settings: NotificationSettings, snapshot: seq<Notification>)
    ensures DraftCount(TaskDrafts(now, t, settings, snapshot), t.id, TaskReminder) ==
      if RemindsNow(now, t, settings, snapshot) then 1 else 0
    ensures DraftCount(TaskDrafts(now, t, settings, snapshot), t.id, Alert) ==
      if GoesOverdue(now, t, settings) then 1 else 0
  {
    var ds := TaskDrafts(now, t, settings, snapshot);
    AtMostOneDraftPerTask(now, t, settings, snapshot);
    if RemindsNow(now, t, settings, snapshot) {
      assert ds == [ReminderDraft(now, t, settings)];
      assert ds[..0] == [];
    } else if GoesOverdue(now, t, settings) {
      assert ds == [OverdueDraft(t)];
      assert ds[..0] == [];
    } else {
      assert ds == [];
    }
  }

  lemma {:induction false} NoDraftsForAbsentId(now: int, tasks: seq<Task>, settings: NotificationSettings,
                                               snapshot: seq<Notification>, id: int, kind: NotificationType)
    requires forall j :: 0 <= j < |tasks| ==> tasks[j].id != id
    ensures DraftCount(PassDrafts(now, tasks, settings, snapshot), id, kind) == 0
    decreases |tasks|
  {
    PassDraftCount(now, tasks, settings, snapshot, id, kind);
    if tasks != [] {
      var n := |tasks| - 1;
      assert forall j :: 0 <= j < n ==> tasks[..n][j] == tasks[j];
      NoDraftsForAbsentId(now, tasks[..n], settings, snapshot, id, kind);
    }
  }

  /** The ids a pass marks are exactly those of the tasks that go overdue. */
  lemma {:induction false} OverdueIdsMembers(now: int, tasks: seq<Task>, settings: NotificationSettings, id: int)
    ensures id in OverdueIds(now, tasks, settings) <==>
      exists k :: 0 <= k < |tasks| && tasks[k].id == id && GoesOverdue(now, tasks[k], settings)
    decreases |tasks|
  {
    if tasks != [] {
      var n := |tasks| - 1;
      OverdueIdsMembers(now, tasks[..n], settings, id);
      if id in OverdueIds(now, tasks[..n], settings) {
        var k :| 0 <= k < n && tasks[..n][k].id == id && GoesOverdue(now, tasks[..n][k], settings);
        assert tasks[k] == tasks[..n][k];
      }
      if exists k :: 0 <= k < |tasks| && tasks[k].id == id && GoesOverdue(now, tasks[k], settings) {
        var k :| 0 <= k < |tasks| && tasks[k].id == id && GoesOverdue(now, tasks[k], settings);
        if k < n {
          assert tasks[..n][k] == tasks[k];
        }
      }
    }
  }

  /** The pass changes only the status of a task, and only to `overdue`. */
  lemma PassChangesOnlyStatus(now: int, tasks: seq<Task>, settings: NotificationSettings, k: int)
    requires 0 <= k < |tasks|
    ensures MarkOverdue(tasks, OverdueIds(now, tasks, settings))[k] ==
      if tasks[k].id in OverdueIds(now, tasks, settings) then tasks[k].(status := Overdue) else tasks[k]
  {
    MarkOverdueAt(tasks, OverdueIds(now, tasks, settings), k);
  }

  /** A task marked by one pass does not go overdue again in a later pass:
      the later pass creates nothing for it. */
  lemma OverdueMarkIsStable(now: int, later: int, tasks: seq<Task>, settings: NotificationSettings,
                            settings2: NotificationSettings, snapshot2: seq<Notification>, k: int)
    requires 0 <= k < |tasks|
    requires GoesOverdue(now, tasks[k], settings)
    ensures MarkOverdue(tasks, OverdueIds(now, tasks, settings))[k] == tasks[k].(status := Overdue)
    ensures TaskDrafts(later, MarkOverdue(tasks, OverdueIds(now, tasks, settings))[k], settings2, snapshot2) == []
  {
    OverdueIdsMembers(now, tasks, settings, tasks[k].id);
    MarkOverdueAt(tasks, OverdueIds(now, tasks, settings), k);
    AtMostOneDraftPerTask(later, tasks[k].(status := Overdue), settings2, snapshot2);
  }

  /** The reminder a pass creates: a `task_reminder` about the task with the
      task's priority, unread, scheduled at the start of the reminder window,
      stamped with the pass's id and time, saying the task is due soon. */
  lemma ReminderCreated(now: int, tasks: seq<Task>, settings: NotificationSettings,
                        snapshot: seq<Notification>, live: seq<Notification>, k: int)
    requires 0 <= k < |tasks|
    requires RemindsNow(now, tasks[k], settings, snapshot)
    ensures exists j :: (0 <= j < |TickNotifications(now, tasks, settings, snapshot, live)| &&
      var n := TickNotifications(now, tasks, settings, snapshot, live)[j];
      n.kind == TaskReminder && n.title == "Task Reminder" && n.message == tasks[k].title + " is due soon" &&
      n.priority == tasks[k].priority && !n.read && n.taskId == Some(tasks[k].id) &&
      n.scheduledFor == Some(DueMs(tasks[k].dueDate) - settings.reminderAdvance * DayMs) &&
      n.id == NS.NextId(snapshot) && n.createdAt == now)
  {
    var d := ReminderDraft(now, tasks[k], settings);
    ReminderNeverSaysToday(now, tasks[k], settings);
    StampInTick(now, tasks, settings, snapshot, live, k, d);
  }

  /** The alert a pass creates for a task that has just gone overdue. */
  lemma AlertCreated(now: int, tasks: seq<Task>, settings: NotificationSettings,
                     snapshot: seq<Notification>, live: seq<Notification>, k: int)
    requires 0 <= k < |tasks|
    requires GoesOverdue(now, tasks[k], settings)
    ensures exists j :: (0 <= j < |TickNotifications(now, tasks, settings, snapshot, live)| &&
      var n := TickNotifications(now, tasks, settings, snapshot, live)[j];
      n.kind == Alert && n.title == "Overdue Task" && n.message == tasks[k].title + " is now overdue" &&
      n.priority == High && !n.read && n.taskId == Some(tasks[k].id) && n.scheduledFor == None &&
      n.id == NS.NextId(snapshot) && n.createdAt == now)
  {
    var d := OverdueDraft(tasks[k]);
    AtMostOneDraftPerTask(now, tasks[k], settings, snapshot);
    assert TaskDrafts(now, tasks[k], settings, snapshot) == [d];
    StampInTick(now, tasks, settings, snapshot, live, k, d);
  }

  lemma StampInTick(now: int, tasks: seq<Task>, settings: NotificationSettings,
                    snapshot: seq<Notification>, live: seq<Notification>, k: int, d: Draft)
    requires 0 <= k < |tasks|
    requires d in TaskDrafts(now, tasks[k], settings, snapshot)
    ensures exists j :: (0 <= j < |TickNotifications(now, tasks, settings, snapshot, live)| &&
      TickNotifications(now, tasks, settings, snapshot, live)[j] == NS.Stamp(d, NS.NextId(snapshot), now))
  {
    var id := NS.NextId(snapshot);
    DraftInPass(now, tasks, settings, snapshot, k, d);
    StampedInNewestFirst(PassDrafts(now, tasks, settings, snapshot), id, now, d);
    var created := NewestFirst(PassDrafts(now, tasks, settings, snapshot), id, now);
    var i :| 0 <= i < |created| && created[i] == NS.Stamp(d, id, now);
    assert TickNotifications(now, tasks, settings, snapshot, live)[i] == created[i];
  }

  lemma {:induction false} DraftInPass(now: int, tasks: seq<Task>, settings: NotificationSettings,
                                       snapshot: seq<Notification>, k: int, d: Draft)
    requires 0 <= k < |tasks|
    requires d in TaskDrafts(now, tasks[k], settings, snapshot)
    ensures d in PassDrafts(now, tasks, settings, snapshot)
    decreases |tasks|
  {
    var n := |tasks| - 1;
    if k < n {
      assert tasks[..n][k] == tasks[k];
      DraftInPass(now, tasks[..n], settings, snapshot, k, d);
    }
  }

  lemma {:induction false} StampedInNewestFirst(drafts: seq<Draft>, id: int, now: int, d: Draft)
    requires d in drafts
    ensures NS.Stamp(d, id, now) in NewestFirst(drafts, id, now)
    decreases |drafts|
  {
    var n := |drafts| - 1;
    if drafts[n] != d {
      assert d in drafts[..n] by {
        var j :| 0 <= j < |drafts| && drafts[j] == d;
        assert drafts[..n][j] == d;
      }
      StampedInNewestFirst(drafts[..n], id, now, d);
    }
  }

  /** A reminder suppresses the next one for 24 hours: when a pass at `now`
      reminds about a task, a pass over the resulting list at any time in the
      following 24 hours finds the recent reminder and creates none. */
  lemma ReminderSuppressedForADay(now: int, later: int, tasks: seq<Task>, settings: NotificationSettings,
                                  settings2: NotificationSettings, snapshot: seq<Notification>, k: int)
    requires 0 <= k < |tasks|
    requires RemindsNow(now, tasks[k], settings, snapshot)
    requires now <= later < now + DayMs
    ensures !RemindsNow(later, tasks[k], settings2, PassNotifications(now, tasks, settings, snapshot))
  {
    ReminderCreated(now, tasks, settings, snapshot, snapshot, k);
  }

  /** Every notification a pass creates carries the same id, one above the
      largest id of the closure's list, and goes in front of the current list,
      which is kept whole behind it: two notifications created in one pass
      collide, and so do those of passes sharing a closure. */
  lemma {:induction false} TickIdsCollide(now: int, tasks: seq<Task>, settings: NotificationSettings,
                                          snapshot: seq<Notification>, live: seq<Notification>)
    ensures var created := |PassDrafts(now, tasks, settings, snapshot)|;
      TickNotifications(now, tasks, settings, snapshot, live)[created..] == live &&
      forall j :: 0 <= j < created ==> TickNotifications(now, tasks, settings, snapshot, live)[j].id == NS.NextId(snapshot)
  {
    NewestFirstIds(PassDrafts(now, tasks, settings, snapshot), NS.NextId(snapshot), now);
  }

  lemma {:induction false} NewestFirstIds(drafts: seq<Draft>, id: int, now: int)
    ensures forall j :: 0 <= j < |drafts| ==> NewestFirst(drafts, id, now)[j].id == id
    decreases |drafts|
  {
    if drafts != [] {
      NewestFirstIds(drafts[..|drafts| - 1], id, now);
    }
  }

  // The scheduler

  /** The `useState` initializer that schedules the evaluator. React runs it
      once, at mount, so the interval keeps calling the `checkTaskReminders`
      of the first render: its closure holds the tasks, notifications and
      settings of that render for good, while `setTasks(prev => ...)` and
      `setNotifications(prev => ...)` act on the component's current state. */
  class ReminderScheduler {
    /** The closure captured at mount. */
    const mountTasks: seq<Task>
    const mountNotifications: seq<Notification>
    const mountSettings: NotificationSettings
    /** The component's current state. */
    var tasks: seq<Task>
    var notifications: seq<Notification>
    var settings: NotificationSettings

    /** Mounting: the immediate check, whose closure is the current state. */
    constructor Mount(now: int, tasks0: seq<Task>, notifications0: seq<Notification>, settings0: NotificationSettings)
      ensures mountTasks == tasks0 && mountNotifications == notifications0 && mountSettings == settings0
      ensures tasks == MarkOverdue(tasks0, OverdueIds(now, tasks0, settings0))
      ensures notifications == PassNotifications(now, tasks0, settings0, notifications0)
      ensures settings == settings0
    {
      var t, n := CheckTaskReminders(now, tasks0, settings0, notifications0, tasks0, notifications0);
      mountTasks, mountNotifications, mountSettings := tasks0, notifications0, settings0;
      tasks, notifications, settings := t, n, settings0;
    }

    /** Any other state update of the component (the task form, the
      notification panel, the settings dialog). */
    method SetState(tasks': seq<Task>, notifications': seq<Notification>, settings': NotificationSettings)
      modifies this
      ensures tasks == tasks' && notifications == notifications' && settings == settings'
    {
      tasks, notifications, settings := tasks', notifications', settings';
    }

    /** One interval tick as written: the pass runs over the mount closure
      and its updates land on the current state. */
    method Tick(now: int)
      modifies this
      ensures tasks == MarkOverdue(old(tasks), OverdueIds(now, mountTasks, mountSettings))
      ensures notifications == TickNotifications(now, mountTasks, mountSettings, mountNotifications, old(notifications))
      ensures settings == old(settings)
    {
      tasks, notifications := CheckTaskReminders(now, mountTasks, mountSettings, mountNotifications, tasks, notifications);
    }

    /** One interval tick as evidently intended: the pass reads the current
      state, as a callback refreshed on every render would. */
    method FreshTick(now: int)
      modifies this
      ensures tasks == MarkOverdue(old(tasks), OverdueIds(now, old(tasks), old(settings)))
      ensures notifications == PassNotifications(now, old(tasks), old(settings), old(notifications))
      ensures settings == old(settings)
    {
      tasks, notifications := CheckTaskReminders(now, tasks, settings, notifications, tasks, notifications);
    }
  }

  /** Under the mount closure the duplicate check never sees the reminders the
      ticks created: once a mount-time task is due for a reminder, every later
      tick inside its reminder window creates another one, whatever the
      current list already holds. */
  lemma ReminderRepeatsEveryTick(first: int, later: int, mountTasks: seq<Task>, settings: NotificationSettings,
                                 mountNotifications: seq<Notification>, live: seq<Notification>, k: int)
    requires 0 <= k < |mountTasks|
    requires RemindsNow(first, mountTasks[k], settings, mountNotifications)
    requires first <= later && InReminderWindow(later, mountTasks[k], settings)
    ensures exists j :: (0 <= j < |TickNotifications(later, mountTasks, settings, mountNotifications, live)| &&
      var n := TickNotifications(later, mountTasks, settings, mountNotifications, live)[j];
      n.kind == TaskReminder && n.taskId == Some(mountTasks[k].id) && n.createdAt == later &&
      n.id == NS.NextId(mountNotifications))
  {
    assert RemindsNow(later, mountTasks[k], settings, mountNotifications);
    ReminderCreated(later, mountTasks, settings, mountNotifications, live, k);
  }

  /** Under the mount closure a task that was open and past due at mount goes
      overdue on every tick: each tick creates another overdue alert, even
      after the current list marked it overdue. */
  lemma AlertRepeatsEveryTick(first: int, later: int, mountTasks: seq<Task>, settings: NotificationSettings,
                              mountNotifications: seq<Notification>, live: seq<Notification>, k: int)
    requires 0 <= k < |mountTasks|
    requires GoesOverdue(first, mountTasks[k], settings)
    requires first <= later
    ensures exists j :: (0 <= j < |TickNotifications(later, mountTasks, settings, mountNotifications, live)| &&
      var n := TickNotifications(later, mountTasks, settings, mountNotifications, live)[j];
      n.kind == Alert && n.taskId == Some(mountTasks[k].id) && n.createdAt == later &&
      n.id == NS.NextId(mountNotifications))
  {
    AlertCreated(later, mountTasks, settings, mountNotifications, live, k);
  }

  /** Under the mount closure a task created after mount is never looked at:
      no tick creates anything about it or marks it overdue. */
  lemma TaskAddedAfterMountNeverChecked(now: int, mountTasks: seq<Task>, settings: NotificationSettings,
                                        mountNotifications: seq<Notification>, live: seq<Task>, k: int,
                                        kind: NotificationType)
    requires 0 <= k < |live|
    requires forall j :: 0 <= j < |mountTasks| ==> mountTasks[j].id != live[k].id
    ensures DraftCount(PassDrafts(now, mountTasks, settings, mountNotifications), live[k].id, kind) == 0
    ensures MarkOverdue(live, OverdueIds(now, mountTasks, settings))[k] == live[k]
  {
    NoDraftsForAbsentId(now, mountTasks, settings, mountNotifications, live[k].id, kind);
    OverdueIdsMembers(now, mountTasks, settings, live[k].id);
    MarkOverdueAt(live, OverdueIds(now, mountTasks, settings), k);
  }
}
