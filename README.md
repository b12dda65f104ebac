# HomeGenie core, modelled in Dafny

HomeGenie is a home-maintenance tracker. A React client keeps tasks, properties
and notifications in component state. It raises reminders and overdue alerts,
and talks to a Go server over REST and a WebSocket. This project models the
decision logic of both sides and proves what that logic guarantees.

**Client (`frontend/src`).**
- The notification store: create, mark read, mark all read, delete, clear and
  the unread badge count.
- The in-place newest-first sort of the notification panel.
- The reminder evaluator `checkTaskReminders`, modelled as a loop over the
  tasks that is proved equal to a pure description of one pass, and the
  interval that runs it every minute with the closure of the first render.
- Task and property helpers: create, update, delete, toggle, cascade on
  property delete, the filter and the dashboard counters.
- The calendar month grid and the per-day task lookup.
- The reconnecting `WebSocketClient`, as a class whose methods are the
  transport events.
- The REST client's error mapping, the retry policy and the `withRetry` loop.
- Query-parameter building and the bearer token of `HttpClient`.
- Configuration validation, endpoint builders, URL helpers and file checks.

**Server (`backend/pkg`).**
- The bearer-token extractor and the `AuthRequired` / `OptionalAuth` gates of
  section 2.1 of RFC 6750.
- The request logger's decisions: body gates, sensitive paths, JSON detection
  and log level.
- The enum validators and `UserPreferences.Scan`.
- The schema migration runner over an abstract database whose failing
  statements are a parameter.

**How time and I/O are modelled.**
- Time is integer milliseconds since the Unix epoch.
- A due date `"YYYY-MM-DD"` is the index of its UTC day.
- Everything the code gets from outside is a parameter of the model. That
  covers the clock, whether a socket opened, whether a frame was delivered,
  token validation, JSON decoding and which SQL statements fail.

Proving the natural contracts exposed three things about the code as written:
- With one clock reading per pass, the reminder text "is due today" can never be
  produced (`Reminders.ReminderNeverSaysToday`). The message reads the clock
  again, so a pass that straddles UTC midnight can still say "today", and only
  then (`Reminders.ReminderTodayOnlyAcrossMidnight`).
- All notifications created in one evaluator pass get the same id, because the
  pass reads a stale list (`Reminders.TickIdsCollide`). Under the interval's
  mount-time closure, every tick reuses that same id.
- A configuration whose numeric variables parse to NaN passes every check
  (`ApiConfig.DefaultsAndNaNsPass`).

The calendar lookup bug and the stale closure of the reminder interval are
recorded under Findings.

## Model

| member | source | states |
|---|---|---|
| NotificationStore.MaxId | frontend/src/App.tsx:2214 | the id base is at least 0 and every existing id is at most it; it is 0 or an existing id |
| NotificationStore.NextId | frontend/src/App.tsx:2214 | the new id is positive and larger than every existing id |
| NotificationStore.Create | frontend/src/App.tsx:2211-2225 | the stamped draft goes to the front, the list grows by one, the old records follow unchanged |
| NotificationStore.CreateKeepsIdsDistinct | frontend/src/App.tsx:2211-2225 | creating a notification keeps ids distinct |
| NotificationStore.MarkRead | frontend/src/App.tsx:2227-2235 | only records with that id become read; all others are unchanged |
| NotificationStore.UnknownIdIsNoOp | frontend/src/App.tsx:2227-2245 | marking or deleting an id no record has leaves the list unchanged |
| NotificationStore.MarkReadIdempotent | frontend/src/App.tsx:2227-2235 | marking the same id twice is marking it once |
| NotificationStore.MarkAllRead | frontend/src/App.tsx:2237-2241 | every record becomes read and nothing else changes |
| NotificationStore.Delete | frontend/src/App.tsx:2243-2245 | exactly the records with other ids remain, and the list never grows |
| NotificationStore.DeleteAppend | frontend/src/App.tsx:2243-2245 | deleting from a concatenation deletes from each part, and a single record survives iff its id differs: the survivors keep their order |
| NotificationStore.DeleteRemovesExactly | frontend/src/App.tsx:2243-2245 | no record with that id remains, and the list shrinks by the number of records that had it |
| NotificationStore.ClearAll | frontend/src/App.tsx:2247-2249 | the list becomes empty |
| NotificationStore.Unread | frontend/src/App.tsx:2363-2365 | exactly the records with `read == false` |
| NotificationStore.UnreadCountBounded | frontend/src/App.tsx:2363-2365 | the badge never exceeds the list length, and equals it iff no record is read |
| NotificationStore.CreateUnreadCount | frontend/src/App.tsx:2211-2225 | creating an unread notification raises the badge by one, a read one leaves it alone |
| NotificationStore.MarkReadUnreadCount | frontend/src/App.tsx:2227-2235 | marking read lowers the badge by the number of unread records with that id |
| NotificationStore.DeleteUnreadCount | frontend/src/App.tsx:2243-2245 | deleting lowers the badge by the number of unread records with that id |
| NotificationStore.UnreadWithUnknownId | frontend/src/App.tsx:2227-2245 | an id no record has counts no unread record, so marking or deleting it leaves the badge alone |
| NotificationStore.MarkAllReadClearsBadge | frontend/src/App.tsx:2237-2241 | after mark-all the badge is 0 |
| NotificationStore.NoUnreadWhenAllRead | frontend/src/App.tsx:2363-2365 | a list whose every record is read has no unread records |
| NotificationStore.ClearAllClearsBadge | frontend/src/App.tsx:2247-2249 | after clear-all the badge is 0 |
| NotificationStore.BrowserOptions | frontend/src/App.tsx:2251-2276 | the tag is "homegenie-" followed by text that parses back to the id; only high-priority notifications stay until the user acts; the others close after 5000 ms |
| NotificationStore.TagsCoalesceIffSameId | frontend/src/App.tsx:2251-2276 | two notifications get the same tag, so the platform replaces one by the other, iff their ids are equal |
| NotificationStore.ShowsNative | frontend/src/App.tsx:2219-2222 | a native notification is shown iff push is on and permission was granted; quiet hours play no part |
| NotificationStore.ShowsNativeIgnoresQuietHours | frontend/src/App.tsx:2219-2222 | two settings that agree on push give the same decision, whatever their quiet hours and other switches |
| NotificationStore.SortNewestFirst | frontend/src/App.tsx:1347-1350 | the panel's in-place sort leaves the array newest first, a permutation of what it held, and stable: the notifications of each creation time keep their relative order |
| NotificationStore.InsertDown | frontend/src/App.tsx:1348-1350 | one insertion step extends the newest-first prefix by one element, permutes the array, keeps the order within every creation time and leaves the elements after the step untouched |
| TaskStore.MaxTaskId | frontend/src/App.tsx:413-420 | the largest id of a non-empty task list |
| TaskStore.NextTaskId | frontend/src/App.tsx:413-420 | a fresh id exists iff the list is non-empty, and it exceeds every id |
| TaskStore.CreateTask | frontend/src/App.tsx:413-420 | the new task carries exactly the submitted form data (estimated time, assignee and notes included), an id above every existing one and the creation time; it is appended and the existing tasks are untouched |
| TaskStore.ApplyPatch | frontend/src/App.tsx:422-426 | every field the update carries, the description, estimated time, assignee and notes included, is overwritten and every field it omits keeps its value; id and creation time never change; an empty update changes nothing |
| TaskStore.UpdateTask | frontend/src/App.tsx:422-426 | tasks with the id get the patch; every other task is unchanged |
| TaskStore.DeleteTask | frontend/src/App.tsx:428-430 | exactly the tasks with other ids remain |
| TaskStore.DeleteTaskAppend | frontend/src/App.tsx:428-430 | deleting from a concatenation deletes from each part, and a single task survives iff its id differs: the survivors keep their order |
| TaskStore.FindTask | frontend/src/App.tsx:433 | the found task has the id and is the first task in the list that has it; none is found only when no task has it |
| TaskStore.ToggleUnknownIdIsNoOp | frontend/src/App.tsx:432-446 | toggling an unknown id changes nothing |
| TaskStore.ToggleEffect | frontend/src/App.tsx:432-446 | completed becomes pending and anything else becomes completed, stamped with the time; going back to pending keeps `completedAt`; other tasks are unchanged |
| TaskStore.ToggleTwice | frontend/src/App.tsx:432-446 | toggling twice restores a pending or completed task's status |
| TaskStore.ToggleTaskStatus | frontend/src/App.tsx:432-446 | the length is kept and tasks with other ids are unchanged; every task with the id gets the toggled status of the first match, is stamped with the time when that is completed and keeps `completedAt` when it is pending, and nothing else of it changes |
| TaskStore.RemoveProperty | frontend/src/App.tsx:1572-1579 | exactly the properties with other ids remain |
| TaskStore.RemovePropertyAppend | frontend/src/App.tsx:1572-1579 | the surviving properties keep their order: removal distributes over concatenation, and a single property survives iff its id differs |
| TaskStore.FindProperty | frontend/src/App.tsx:1575 | the found property has the id and is the first property in the list that has it; none is found only when no property has it |
| TaskStore.TasksNotAt | frontend/src/App.tsx:1572-1579 | exactly the tasks at other properties remain |
| TaskStore.TasksNotAtAppend | frontend/src/App.tsx:1572-1579 | the surviving tasks keep their order: the cascade distributes over concatenation, and a single task survives iff it is at another property |
| TaskStore.DeletePropertyCascade | frontend/src/App.tsx:1572-1579 | the property goes and so does every task at its name; every task at another name survives, in order (the kept list is `TasksNotAt` of the name); no task is invented; an unknown id changes nothing |
| TaskStore.DeleteProperty | frontend/src/App.tsx:1572-1579 | exactly the properties with other ids remain; when the property exists, a task is kept iff it was in the list and names another property; an id no property has leaves the tasks alone |
| TaskStore.NoPropertyRemoved | frontend/src/App.tsx:1572-1579 | filtering out an absent id keeps the property list |
| TaskStore.FilteredTasks | frontend/src/App.tsx:449-454 | a task is shown iff it matches the status filter and the case-insensitive search |
| TaskStore.FilteredTasksAppend | frontend/src/App.tsx:449-454 | the view lists the matching tasks in stored order: the filter distributes over concatenation, and a single task is shown iff it matches |
| TaskStore.UnfilteredShowsAll | frontend/src/App.tsx:449-454 | filter "all" with an empty search shows every task, in order |
| TaskStore.Stats | frontend/src/App.tsx:365-370 | the total is the number of tasks; completed and overdue are how often that status occurs among the tasks, upcoming how often pending and in-progress occur |
| TaskStore.CountStatusIsMultiplicity | frontend/src/App.tsx:365-370 | counting one status by recursion gives its multiplicity in the status column |
| TaskStore.CountStatusSplit | frontend/src/App.tsx:365-370 | counting two disjoint status sets adds up |
| TaskStore.CountAllStatuses | frontend/src/App.tsx:365-370 | every task has one of the four statuses |
| TaskStore.StatsPartition | frontend/src/App.tsx:365-370 | completed, upcoming and overdue counts add up to the total |
| Reminders.MarkOverdueId | frontend/src/App.tsx:2331-2335 | marking keeps the list length |
| Reminders.MarkOverdue | frontend/src/App.tsx:2329-2343 | marking a set of ids keeps the list length |
| Reminders.NewestFirst | frontend/src/App.tsx:2211-2217 | the drafts of a pass are stamped one each |
| Reminders.NewestFirstAppend | frontend/src/App.tsx:2211-2217 | later drafts end up in front of earlier ones |
| Reminders.MarkOverdueAt | frontend/src/App.tsx:2329-2335 | a task's status becomes overdue iff its id is marked; nothing else about it changes |
| Reminders.VisitTask | frontend/src/App.tsx:2297-2344 | one callback of the loop yields the pass's description for that task |
| Reminders.CheckTaskReminders | frontend/src/App.tsx:2296-2345 | the loop over the closure's tasks applied to the current lists is the pure pass: overdue marks on exactly the current tasks whose ids go overdue in the closure, and the pass's notifications prepended newest first to the current list |
| Reminders.AtMostOneDraftPerTask | frontend/src/App.tsx:2297-2344 | a task gets at most one notification per pass, about itself; completed and overdue tasks get none |
| Reminders.ReminderNeverSaysToday | frontend/src/App.tsx:2298-2323 | inside the reminder window, with the window's clock reading also used for the message, the message always says "due soon" |
| Reminders.ReminderTodayOnlyAcrossMidnight | frontend/src/App.tsx:2297-2317 | with the message's own later clock reading, the message says "due today" iff that reading has reached the due day's UTC midnight, and "due soon" otherwise |
| Reminders.PassCounts | frontend/src/App.tsx:2296-2345 | with distinct ids, one reminder for each task due for one and one alert for each task that goes overdue; none otherwise |
| Reminders.TaskDraftCounts | frontend/src/App.tsx:2300-2345 | one task yields one reminder iff it is due for one and one alert iff it has just gone overdue |
| Reminders.OverdueIdsMembers | frontend/src/App.tsx:2329-2343 | the ids marked are exactly those of tasks past due, open, with maintenance alerts on |
| Reminders.PassChangesOnlyStatus | frontend/src/App.tsx:2329-2343 | a pass changes at most a task's status, and only to overdue |
| Reminders.OverdueMarkIsStable | frontend/src/App.tsx:2329-2343 | corrected half: with a closure that sees the marked list, a task marked overdue gets nothing in any later pass |
| Reminders.ReminderCreated | frontend/src/App.tsx:2315-2323 | the reminder, on whatever current list it lands, has type task_reminder, the task's priority, unread, scheduled at the window start, and the pass's id and time |
| Reminders.AlertCreated | frontend/src/App.tsx:2336-2342 | the alert, on whatever current list it lands, has type alert, high priority, unread, says the task is now overdue, and carries the pass's id and time |
| Reminders.ReminderSuppressedForADay | frontend/src/App.tsx:2308-2314 | corrected half: with a closure that sees the previous pass's list, the same task gets no reminder for 24 hours |
| Reminders.TickIdsCollide | frontend/src/App.tsx:2211-2217 | all notifications of one pass share one id, one above the closure list's maximum, and the current list follows them whole |
| Reminders.ReminderScheduler.Mount | frontend/src/App.tsx:2348-2352 | mounting captures the closure and runs the immediate check on the current state |
| Reminders.ReminderScheduler.SetState | frontend/src/App.tsx:2348-2352 | other updates change the current state and never the captured closure |
| Reminders.ReminderScheduler.Tick | frontend/src/App.tsx:2348-2352 | as written: each tick runs the pass over the mount closure and applies its updates to the current state |
| Reminders.ReminderScheduler.FreshTick | frontend/src/App.tsx:2348-2352 | corrected: each tick runs the pass over the current state |
| Reminders.ReminderRepeatsEveryTick | frontend/src/App.tsx:2348-2352 | as written: once a mount-time task is due for a reminder, every later tick in its window creates another, with the same id, whatever the current list holds |
| Reminders.AlertRepeatsEveryTick | frontend/src/App.tsx:2348-2352 | as written: a task past due at mount gets another overdue alert on every tick, with the same id, whatever the current list holds |
| Reminders.TaskAddedAfterMountNeverChecked | frontend/src/App.tsx:2348-2352 | as written: a task whose id is not in the mount closure gets no notification and is never marked overdue |
| Calendar.DaysInMonth | frontend/src/App.tsx:2377-2378 | a month has 28 to 31 days, and 29 exactly for a leap-year February |
| Calendar.Weekday | frontend/src/App.tsx:2379 | a weekday is in 0..6 |
| Calendar.DayNumberStep | frontend/src/App.tsx:2389-2391 | days of a month have consecutive day numbers |
| Calendar.LastDayOfMonth | frontend/src/App.tsx:2377-2378 | day 0 of the next month is the month's last day |
| Calendar.GetDaysInMonth | frontend/src/App.tsx:2373-2394 | the two loops build the month grid |
| Calendar.GridSize | frontend/src/App.tsx:2373-2394 | the grid has the leading blanks plus one cell per day, 28 to 37 cells |
| Calendar.GridColumnsAreWeekdays | frontend/src/App.tsx:2373-2394 | every non-blank cell is a valid date of the month falling on its column's weekday, and blanks only lead |
| Calendar.TasksForDate | frontend/src/App.tsx:2396-2399 | as written: the tasks due on the UTC day of local midnight |
| Calendar.TasksForDateAppend | frontend/src/App.tsx:2396-2399 | the day's list keeps stored order: the lookup distributes over concatenation, and a single task is listed iff due on the looked-up day |
| Calendar.TasksForLocalDate | frontend/src/App.tsx:2396-2399 | corrected: the tasks due on the cell's own calendar day |
| Calendar.TasksForLocalDateAppend | frontend/src/App.tsx:2396-2399 | the corrected day's list keeps stored order in the same way |
| Calendar.WestOfUtcFindsTheDay | frontend/src/App.tsx:2396-2399 | at or west of UTC the written lookup is the intended one |
| Calendar.EastOfUtcFindsThePreviousDay | frontend/src/App.tsx:2396-2399 | east of UTC the written lookup shows the previous day's tasks |
| WebSocket.Connecting | frontend/src/services/websocket.ts:73-90 | a connect attempt sets the connecting flag and clears the last error |
| WebSocket.Opened | frontend/src/services/websocket.ts:92-102 | on open the client is connected, no longer connecting, with the attempt count reset |
| WebSocket.ShouldReconnect | frontend/src/services/websocket.ts:123-126 | reconnect iff the close code is not 1000 and fewer than 10 attempts were made |
| WebSocket.Closed | frontend/src/services/websocket.ts:115-127 | a close clears both flags and counts one more attempt exactly when it reconnects |
| WebSocket.Errored | frontend/src/services/websocket.ts:130-137 | an error clears connecting and records "Connection error" |
| WebSocket.DisconnectedState | frontend/src/services/websocket.ts:148-164 | disconnect clears both flags and resets the attempts |
| WebSocket.TransitionsKeepGoodState | frontend/src/services/websocket.ts:73-164 | no transition makes the client both connected and connecting |
| WebSocket.NormalClosureStaysClosed | frontend/src/services/websocket.ts:115-127 | a normal closure (section 7.4.1 of RFC 6455) never reconnects |
| WebSocket.BackoffDelay | frontend/src/services/websocket.ts:296-302 | every delay lies between 5 s and 30 s |
| WebSocket.BackoffSchedule | frontend/src/services/websocket.ts:296-302 | delays are 5, 10, 20 s, then 30 s, and never decrease |
| WebSocket.RetriesGiveUp | frontend/src/services/websocket.ts:115-127 | a client that keeps failing schedules at most 10 reconnects, each at most 30 s, 245 s in total |
| WebSocket.DelaysFromFour | frontend/src/services/websocket.ts:296-302 | from the fourth attempt on every delay is 30 s |
| WebSocket.SumOfRetryDelays | frontend/src/services/websocket.ts:296-314 | the delays of a failing client sum to at most 245 s |
| WebSocket.Subscribe | frontend/src/services/websocket.ts:190-207 | the listener is registered under the event; other events are unchanged |
| WebSocket.Unsubscribe | frontend/src/services/websocket.ts:210-224 | the listener is gone from the event, whose set is dropped once empty; other events are unchanged |
| WebSocket.DropEvent | frontend/src/services/websocket.ts:210-216 | `off(event)` drops every listener of the event |
| WebSocket.RegistryKeepsSetsNonEmpty | frontend/src/services/websocket.ts:190-224 | the registry never keeps an empty listener set |
| WebSocket.UnsubscribeUndoesSubscribe | frontend/src/services/websocket.ts:190-224 | removing a listener just added restores the registry |
| WebSocket.UnsubscribeUnknownIsNoOp | frontend/src/services/websocket.ts:210-224 | removing an unregistered listener changes nothing |
| WebSocket.EmitLog | frontend/src/services/websocket.ts:227-238 | an emit reaches the event's listeners with the data, or nobody |
| WebSocket.Dispatch | frontend/src/services/websocket.ts:241-274 | ping is answered with pong, pong is swallowed, every other type is emitted under its own name with its data |
| WebSocket.Truthy | frontend/src/services/websocket.ts:84-86 | a token counts iff present and non-empty |
| WebSocket.WebSocketClient.constructor | frontend/src/services/websocket.ts:47-55 | the URL is the given base or the configured default; the client starts idle with no listeners |
| WebSocket.WebSocketClient.IsConnected | frontend/src/services/websocket.ts:327-329 | reports the connected flag |
| WebSocket.WebSocketClient.Connect | frontend/src/services/websocket.ts:73-145 | a no-op while connecting or connected; otherwise opens the socket or records the failure |
| WebSocket.WebSocketClient.Emit | frontend/src/services/websocket.ts:227-238 | appends the emit to the delivery log |
| WebSocket.WebSocketClient.OnOpen | frontend/src/services/websocket.ts:92-102 | enters the opened state, starts pinging and tells the connection listeners |
| WebSocket.WebSocketClient.ScheduleReconnect | frontend/src/services/websocket.ts:296-314 | the attempt count rises by exactly one and the timer holds the backoff delay |
| WebSocket.WebSocketClient.OnClose | frontend/src/services/websocket.ts:115-127 | clears both flags and stops the ping; a reconnect timer is set iff the code is not 1000 and fewer than 10 attempts were made |
| WebSocket.WebSocketClient.OnError | frontend/src/services/websocket.ts:130-137 | enters the errored state and tells the listeners |
| WebSocket.WebSocketClient.Disconnect | frontend/src/services/websocket.ts:148-164 | no timer, no ping, no socket, both flags cleared and attempts reset; an open socket is closed with code 1000 |
| WebSocket.WebSocketClient.Send | frontend/src/services/websocket.ts:167-187 | sends and returns true iff connected with a socket; otherwise nothing is sent |
| WebSocket.WebSocketClient.On | frontend/src/services/websocket.ts:190-207 | registers the listener |
| WebSocket.WebSocketClient.Off | frontend/src/services/websocket.ts:210-224 | removes one listener, or every listener of the event |
| WebSocket.WebSocketClient.OnMessage | frontend/src/services/websocket.ts:105-112 | unparsable data does nothing; parsed messages are dispatched |
| WebSocket.WebSocketClient.PingTick | frontend/src/services/websocket.ts:277-285 | a ping is sent only while connected |
| WebSocket.WebSocketClient.OnReconnectTimer | frontend/src/services/websocket.ts:306-313 | the timer reconnects unless already connected or connecting; when the socket cannot be created the thrown message becomes the last error; the URL, token, timers and logs are untouched |
| WebSocket.WebSocketClient.SetAuthToken | frontend/src/services/websocket.ts:332-339 | stores the token and sends it only when connected and the token is truthy |
| WebSocket.WebSocketClient.OnStorageChange | frontend/src/services/websocket.ts:58-70 | other keys change nothing; a change of the token key stores the new token; a connected client is disconnected (close 1000, timers stopped, attempts reset) and reconnects with it, ending connecting with the new socket or, when the socket cannot be created, disconnected with the thrown message as last error; a client that is not connected keeps its state, socket and timers; url, listeners, sent frames and emitted events never change |
| ApiClient.NewApiError | frontend/src/backend/api.ts:320-326 | the code is the details' code when there is one, otherwise API_ERROR |
| ApiClient.ResponseError | frontend/src/backend/api.ts:236-249 | a failed response carries its status and the server's message, or HTTP_ERROR with a status line |
| ApiClient.TimeoutError | frontend/src/backend/api.ts:259-261 | an aborted request is a 408 "Request timeout" |
| ApiClient.WrappedError | frontend/src/backend/api.ts:263-271 | an ApiError passes through; anything else becomes a 500 with its message or the unknown-error text |
| ApiClient.CodeMessage | frontend/src/backend/api.ts:633-648 | a fixed message exists exactly for the six known codes |
| ApiClient.HandleApiError | frontend/src/backend/api.ts:630-656 | known codes get their message; other ApiErrors and Errors give their own message; anything else gives the generic text |
| ApiClient.CodeMessagesDistinct | frontend/src/backend/api.ts:633-648 | the six messages differ from each other and from the generic text |
| ApiClient.MessageLengths | frontend/src/backend/api.ts:633-648 | each message's length, which tells them apart |
| ApiClient.RetryPolicyOfRequestErrors | frontend/src/backend/api.ts:236-271 | timeouts and 5xx are retried; other 4xx are not; wrapped foreign failures are retried as 500s; raw non-ApiErrors are not |
| ApiClient.IsNetworkError | frontend/src/backend/api.ts:658-665 | an `ApiError` with status 0 or 408 or a message naming "Failed to fetch" or "timeout"; `NetworkErrorsAndRetries` and `RetryPolicyOfRequestErrors` relate it to the retry policy |
| ApiClient.ShouldRetry | frontend/src/backend/api.ts:667-674 | an `ApiError` with status 0, 408 or 500..599, nothing else; `RetryPolicyOfRequestErrors` applies it to every error `makeRequest` raises |
| ApiClient.NetworkErrorsAndRetries | frontend/src/backend/api.ts:658-674 | status 0 and 408 are network errors and retried; a "timeout" message alone makes a network error but not a retry |
| ApiClient.WithRetry | frontend/src/backend/api.ts:679-704 | the loop's outcome, call count and delays are the retry specification's |
| ApiClient.NoAttempts | frontend/src/backend/api.ts:679-704 | with no attempts allowed, the operation is never called |
| ApiClient.RetryCalls | frontend/src/backend/api.ts:679-704 | between 1 and maxAttempts calls, with one wait between consecutive calls |
| ApiClient.RetryDelays | frontend/src/backend/api.ts:690-699 | every call but the last failed retryably, and the wait after attempt k is delayMs·2^(k−1) |
| ApiClient.RetryOutcome | frontend/src/backend/api.ts:685-701 | the run settles with the last call's outcome; a failure is rethrown when it is not retryable or attempts ran out |
| ApiClient.RetryContract | frontend/src/backend/api.ts:679-704 | at most maxAttempts calls, the first success is returned, and the waits double |
| ApiClient.KeptParams | frontend/src/backend/api.ts:275-285 | exactly the params whose value is neither undefined nor null are appended |
| ApiClient.KeptParamsAppend | frontend/src/backend/api.ts:275-285 | params are kept in entry order |
| ApiClient.AppendParams | frontend/src/backend/api.ts:277-283 | the `forEach` appends exactly the kept params |
| ApiClient.Search | frontend/src/backend/api.ts:284 | the query string is empty iff no param is kept |
| ApiClient.GetPathWithoutValues | frontend/src/backend/api.ts:275-285 | with no kept params the path is the bare endpoint |
| ApiClient.HttpClient.constructor | frontend/src/backend/api.ts:187-193 | the client starts with the stored token |
| ApiClient.HttpClient.SetAuthToken | frontend/src/backend/api.ts:195-202 | a truthy token is kept and stored; null or "" removes the stored one |
| ApiClient.HttpClient.AuthorizationHeader | frontend/src/backend/api.ts:218-220 | "Bearer " and the token, sent only for a truthy token |
| ApiClient.HttpClient.OnUnauthorized | frontend/src/backend/api.ts:244-247 | a 401 clears the token |
| ApiConfig.ConfigErrors | frontend/src/config/api.ts:55-94 | at most one error per check |
| ApiConfig.ValidateConfig | frontend/src/config/api.ts:55-94 | throws iff some check failed, with the collected errors; warns about a missing Sentry DSN or tracking id only in production |
| ApiConfig.ErrorMessagesDistinct | frontend/src/config/api.ts:59-78 | the five check messages are distinct |
| ApiConfig.ErrorReported | frontend/src/config/api.ts:59-78 | a check's message is collected iff the check fails |
| ApiConfig.MessageSource | frontend/src/config/api.ts:59-78 | every collected message comes from a failed check |
| ApiConfig.ThrowsIffSomeCheckFails | frontend/src/config/api.ts:55-94 | validation throws iff at least one check fails |
| ApiConfig.RetryAttemptsChecked | frontend/src/config/api.ts:68-70 | the RETRY_ATTEMPTS error appears iff the number is outside 1..10 |
| ApiConfig.PageSizeChecked | frontend/src/config/api.ts:72-74 | the DEFAULT_PAGE_SIZE error appears iff the number is outside 1..MAX_PAGE_SIZE |
| ApiConfig.DefaultsAndNaNsPass | frontend/src/config/api.ts:5-94 | the defaults pass; so does any configuration whose numbers are all NaN |
| ApiConfig.IdPath | frontend/src/config/api.ts:120-146 | prefix, "/", the decimal id, then the suffix |
| ApiConfig.IdPathRoundTrip | frontend/src/config/api.ts:120-146 | the id is read back from the path |
| ApiConfig.IdPathInjective | frontend/src/config/api.ts:120-146 | two ids never share a path |
| ApiConfig.TaskPath | frontend/src/config/api.ts:120-122 | "/tasks/" then the decimal id, which parses back to the id |
| ApiConfig.TaskCompletePath | frontend/src/config/api.ts:123 | "/tasks/", the decimal id, then "/complete"; the id parses back |
| ApiConfig.TaskHistoryPath | frontend/src/config/api.ts:124 | "/tasks/", the decimal id, then "/history"; the id parses back |
| ApiConfig.PropertyPath | frontend/src/config/api.ts:133-135 | "/properties/" then the decimal id, which parses back to the id |
| ApiConfig.PropertyTasksPath | frontend/src/config/api.ts:136 | "/properties/", the decimal id, then "/tasks"; the id parses back |
| ApiConfig.PropertyMaintenancePath | frontend/src/config/api.ts:137-138 | "/properties/", the decimal id, then "/maintenance-history"; the id parses back |
| ApiConfig.NotificationReadPath | frontend/src/config/api.ts:144 | "/notifications/", the decimal id, then "/read"; the id parses back |
| ApiConfig.NotificationPath | frontend/src/config/api.ts:146 | "/notifications/" then the decimal id, which parses back to the id |
| ApiConfig.FilePath | frontend/src/config/api.ts:162 | "/files/" followed by the file name as is |
| ApiConfig.ApiUrl | frontend/src/config/api.ts:261-263 | the base URL followed by the path |
| ApiConfig.WsUrl | frontend/src/config/api.ts:265-267 | the socket base URL followed by the path, which defaults to "" |
| ApiConfig.IsValidFileType | frontend/src/config/api.ts:269-271 | `includes` on the allowed list; `FileChecks` states what listing one more type admits |
| ApiConfig.IsValidFileSize | frontend/src/config/api.ts:273-275 | `<=` against the parsed limit, false for a NaN limit; `FileChecks` proves smaller sizes pass whenever a larger one does |
| ApiConfig.FileChecks | frontend/src/config/api.ts:269-275 | for every configuration: listing one more type admits exactly that type besides the old ones; a size passes iff the limit parsed and the size is at most it, so smaller sizes pass too and a NaN limit rejects all; the defaults admit PDFs and not plain text, up to 10 MiB |
| AuthMiddleware.FirstSpace | backend/pkg/middleware/auth.go:68 | the first space's index, or none when there is no space |
| AuthMiddleware.SplitOnce | backend/pkg/middleware/auth.go:68 | one part without a space, or the parts before and after the first space |
| AuthMiddleware.ExtractToken | backend/pkg/middleware/auth.go:61-74 | a non-empty token comes only from a header starting with "bearer " in any case, and is everything after those seven characters; `ExtractTokenMeaning` gives the converse |
| AuthMiddleware.ExtractTokenMeaning | backend/pkg/middleware/auth.go:61-74 | the token is everything after "bearer " in any case; every other header, the empty one included, gives "" |
| AuthMiddleware.ClientHeaderAccepted | backend/pkg/middleware/auth.go:61-74 | the header the web client builds yields its token unchanged |
| AuthMiddleware.Context.UserId | backend/pkg/middleware/auth.go:77-84 | the stored int id and true, or (0, false) when absent or not an int |
| AuthMiddleware.Context.AuthRequired | backend/pkg/middleware/auth.go:16-45 | no token: 401 and abort without validating; invalid token: 401 and abort; else the user id is stored and the chain continues |
| AuthMiddleware.Context.OptionalAuth | backend/pkg/middleware/auth.go:48-58 | never answers or aborts; stores the user id only for a valid token |
| RequestLogging.IsSensitiveEndpoint | backend/pkg/middleware/logging.go:166-181 | true iff the path is exactly one of the five auth paths |
| RequestLogging.IsJsonResponse | backend/pkg/middleware/logging.go:184-187 | string equality against the two spellings; `JsonMatchIsExact` shows other spellings of the same media type are refused |
| RequestLogging.JsonMatchIsExact | backend/pkg/middleware/logging.go:184-187 | only the two exact JSON spellings are recognised |
| RequestLogging.LevelFor | backend/pkg/middleware/logging.go:152-162 | ERROR iff the status is 500 or more, WARN iff it is in 400..499, INFO iff it is below 400 (the 3xx case logs INFO like 2xx) |
| RequestLogging.LevelsByStatus | backend/pkg/middleware/logging.go:152-162 | the level never falls as the status rises |
| RequestLogging.Logger | backend/pkg/middleware/logging.go:28-114 | the request body is logged iff its declared length is between 0 and 1 MiB exclusive, it is non-empty and the path is not sensitive; the response body iff it has between 1 and 10239 bytes and is JSON; errors copied in order; the body is forwarded intact |
| DbModels.ValidateTaskStatus | backend/pkg/database/models.go:355-363 | a lookup in a constant table that answers false for a missing key; `StatusValidation` proves it accepts exactly the client's four statuses |
| DbModels.ValidateTaskPriority | backend/pkg/database/models.go:366-373 | a lookup in a constant table that answers false for a missing key; `PriorityValidation` proves it accepts exactly the client's three priorities |
| DbModels.ValidatePropertyType | backend/pkg/database/models.go:376-385 | a lookup in a constant table that answers false for a missing key; `PropertyTypeValidation` proves it accepts exactly the five property types |
| DbModels.ValidateRoomType | backend/pkg/database/models.go:388-401 | a lookup in a constant table that answers false for a missing key; `RoomTypeValidation` proves it accepts exactly the nine room types |
| DbModels.ValidateNotificationType | backend/pkg/database/models.go:404-412 | a lookup in a constant table that answers false for a missing key; `NotificationTypeValidation` proves it accepts exactly the client's four notification types |
| DbModels.StatusValidation | backend/pkg/database/models.go:355-363 | a status is accepted iff it is one of the client's four |
| DbModels.PriorityValidation | backend/pkg/database/models.go:366-373 | a priority is accepted iff it is one of the client's three |
| DbModels.PropertyTypeValidation | backend/pkg/database/models.go:376-386 | exactly the five property types are accepted |
| DbModels.RoomTypeValidation | backend/pkg/database/models.go:389-401 | exactly the nine room types are accepted |
| DbModels.NotificationTypeValidation | backend/pkg/database/models.go:404-412 | a notification type is accepted iff it is one of the client's four |
| DbModels.StoreThenScan | backend/pkg/database/models.go:332-350 | scanning what `Value` stored restores it; an empty document changes nothing; scanning twice is scanning once |
| DbModels.UserPreferences.Scan | backend/pkg/database/models.go:337-350 | NULL succeeds and changes nothing; bytes and strings are decoded; any other type is an error |
| DbModels.UserPreferences.Unmarshal | backend/pkg/database/models.go:344-346 | a decoded document overlays the receiver; a decoding error changes nothing |
| Migrations.MigrationsNumberedInOrder | backend/pkg/database/migrations.go:17-244 | the list runs 001 to 010 in order, and versions are distinct |
| Migrations.VersionsDistinct | backend/pkg/database/migrations.go:17-244 | two different migrations have different versions |
| Migrations.ApplyFailure | backend/pkg/database/migrations.go:312-330 | a version is recorded only when begin, Up, insert and commit all succeed; an insert of a recorded version fails |
| Migrations.Ups | backend/pkg/database/migrations.go:312-330 | one Up script per applied version, in order |
| Migrations.Run | backend/pkg/database/migrations.go:247-277 | create the tracking table, read the applied set, then run from the first migration; `RunFromState`, `RunFromError`, `RunSucceedsAppliesAll` and `RunStopsAtFirstFailure` characterise the outcome |
| Migrations.StopAt | backend/pkg/database/migrations.go:262-273 | the run stops at a migration index from its start to the end |
| Migrations.RunFromState | backend/pkg/database/migrations.go:262-273 | the run skips applied versions and records and runs the rest in list order, up to the first failure |
| Migrations.RunFromError | backend/pkg/database/migrations.go:262-276 | an error is reported iff the run stops early; it names an unapplied migration whose application failed |
| Migrations.RunSucceedsAppliesAll | backend/pkg/database/migrations.go:247-277 | a successful run leaves every migration recorded |
| Migrations.RunStopsAtFirstFailure | backend/pkg/database/migrations.go:269-271 | after a failure at a migration, neither it nor any later unapplied one is recorded |
| Migrations.RemoveAll | backend/pkg/database/migrations.go:354-363 | deleting a version removes exactly that version from the recorded set |
| Migrations.Rollback | backend/pkg/database/migrations.go:333-363 | an unknown version is "not found" and changes nothing; any failure changes nothing; the rollback of 010, whose Down (line 242) drops the tracking table, fails at the DELETE; success removes exactly that version |
| Migrations.TrackingTableRollbackFails | backend/pkg/database/migrations.go:333-363 | rolling back 010 never succeeds and always leaves the database as it was |
| Migrations.ApplyThenRollback | backend/pkg/database/migrations.go:312-363 | rolling back a version just applied restores the recorded set |
| Migrations.Database.CreateTable | backend/pkg/database/migrations.go:280-289 | succeeds iff its statement does not fail |
| Migrations.Database.GetAppliedMigrations | backend/pkg/database/migrations.go:292-309 | the query error, or a map whose keys are exactly the recorded versions |
| Migrations.Database.ApplyMigration | backend/pkg/database/migrations.go:312-330 | the failing step, or the migration applied and recorded; a failure changes nothing |
| Migrations.Database.RunMigrations | backend/pkg/database/migrations.go:247-277 | the loop's final state and error are the run specification's |
| Migrations.Database.RollbackMigration | backend/pkg/database/migrations.go:333-363 | the final state and error are the rollback specification's |

## Left out

- Reminders.ReminderNeverSaysToday: one clock reading `now` stands for the window test (App.tsx:2297) and the message's own "today" test (App.tsx:2317); the separate message reading is modelled by `Reminders.ReminderTodayOnlyAcrossMidnight`.
- Reminders.ReminderCreated: one clock reading `now` stands for the window test (App.tsx:2297), the message's "today" test (App.tsx:2317) and the reminder's `createdAt` (App.tsx:2215), each a separate `new Date()` in the source.
- Reminders.AlertCreated: one clock reading `now` stands for the overdue test (App.tsx:2297) and the alert's `createdAt` (App.tsx:2215), a separate `new Date()` in the source.
- Rendering, forms, navigation and all other UI of `App.tsx` are not modelled.
- Real timers are not modelled: the minute scheduler, the 5 s auto-close, the ping interval and the reconnect timeout. Their firings are method calls.
- The browser Notification API, `requestPermission` and `window.focus` are not modelled. Permission is a parameter, and only the tag and interaction choices are modelled.
- Quiet hours are stored but never consulted by the code, so the model has no suppression.
- TaskStore.CreateTask: on an empty task list the source computes the id `-Infinity + 1`. The model returns `None` instead of such a task.
- TaskStore.FilteredTasks: the search lower-cases ASCII letters only; JavaScript's `toLowerCase` also folds other letters.
- Reminders.CheckTaskReminders: React state updates are treated as applied in order within one pass, without batching between passes. The stale closure is modelled as written.
- Reminders.ReminderScheduler: the source never clears the interval, not even on unmount: the cleanup `() => clearInterval(interval)` is returned from a `useState` initializer (App.tsx:2348-2352), so it is kept as state and never called, and the model's ticks accordingly never stop. React's development-mode double call of the initializer is not modelled.
- Due dates are assumed to be canonical `YYYY-MM-DD` strings or unparsable. Other strings `Date` accepts are not modelled.
- Calendar: the local time zone is a fixed offset parameter; daylight-saving changes are not modelled. An invalid `Date` input is excluded by `ValidDate`.
- Locale and floating-point formatting are not modelled: `formatDate`, `formatNotificationTime`, `formatFileSize` and the logger's latency.
- WebSocket: the socket object, the module singleton, the `load`/`storage` window wiring and `generateMessageId` are not modelled. An outgoing frame keeps its `type` and `data` only: the `timestamp` and `id` fields that `send` adds (websocket.ts:174-179) come from the clock and from `generateMessageId` and are left out. Listener calls are a delivery log, so their order within a set and any exceptions they throw are not modelled.
- WebSocket.WebSocketClient.Connect: the promise it returns is not modelled; socket creation and its error text are parameters.
- ApiClient: `fetch`, `AbortController`, `localStorage`, the `window.location` redirect and file upload are I/O and not modelled. The operation's outcomes are a parameter.
- ApiClient.Search: URL percent-encoding is not modelled.
- ApiClient.NewApiError: a `details.code` that is not a string is not modelled.
- ApiClient.WithRetry: a non-integer `maxAttempts` is not modelled. The wait is recorded, not slept.
- ApiConfig.ValidateConfig: the call on module load runs only when `IS_PRODUCTION` holds (config/api.ts:97-99); the model states what `validateConfig` does when called and leaves that gate out, and `DefaultConfig` fixes `isProduction` to true.
- ApiConfig: parsing of environment variables is not modelled; each numeric variable is already parsed to a number or NaN. The API_BASE_URL check cannot fail with the `||` default in place, but it is kept as written.
- AuthMiddleware: token validation is a parameter, and gin's response writing is reduced to a list of error responses.
- RequestLogging: OpenTelemetry spans, timing, JSON encoding of the entry and the response-writer wrapper are not modelled.
- DbModels: `Value`'s JSON marshalling and time formatting are not modelled; stored preferences are a document naming every field. DbModels.UserPreferences.Unmarshal does not model the partial fill `json.Unmarshal` leaves behind on a type error.
- Migrations: SQL text and the driver are abstracted. A statement fails iff it is in the database's failing set. `rows.Scan` and `rows.Err` failures and the driver's error text are not modelled.

## Findings

| source | as written | input that shows it | evidently intended | confidence | as-written member | corrected member |
|---|---|---|---|---|---|---|
| frontend/src/App.tsx:2396-2399 | the calendar cell's local-midnight `Date` is converted with `toISOString`, which gives its UTC date | any cell date in a zone east of UTC, e.g. UTC+2: local midnight of 10 March is 22:00 UTC on 9 March, so the 9 March tasks are shown | the tasks due on the cell's own calendar day | high (not executed) | Calendar.TasksForDate, Calendar.EastOfUtcFindsThePreviousDay | Calendar.TasksForLocalDate, Calendar.WestOfUtcFindsTheDay |
| frontend/src/App.tsx:2348-2352 | the `useState` initializer runs once, so `setInterval` keeps calling the first render's `checkTaskReminders`, whose closure holds the mount-time tasks, notifications and settings | a pending task due tomorrow at mount with a one-day reminder advance: every minute's tick creates another reminder (and a task past due at mount another overdue alert), all with the same id, and tasks added later are never checked | each tick evaluates the current tasks, notifications and settings | high (not executed) | Reminders.ReminderScheduler.Tick, Reminders.ReminderRepeatsEveryTick, Reminders.AlertRepeatsEveryTick | Reminders.ReminderScheduler.FreshTick, Reminders.ReminderSuppressedForADay, Reminders.OverdueMarkIsStable |
