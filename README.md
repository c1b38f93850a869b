# OrganizerPlus reminder notifications, in Dafny

OrganizerPlus is an iOS task organizer. Every task has a reminder. The
`NotificationManager` turns that reminder into a local notification request.
The request uses a time-interval, calendar or geofence trigger and is
submitted to the shared notification centre under the task's identifier.
The manager can withdraw the request again. The `AppDelegate` registers the
app's notification category and its two actions. It shows notifications as
banners while the app is in the foreground. When the user taps "Mark As
Done", it decodes the task carried in the notification and tells the task
store to remove it.

The model has five modules:

- `Wrappers`: `Option`.
- `UserNotifications`: the framework surface the app uses. This covers
  content, the three trigger classes, requests, actions, categories and
  date-component extraction. The `NotificationCenter` class holds the
  pending requests as a map from identifier to request, plus the
  registered categories.
- `Scheduling` (`NotificationManager.swift`): the thread-identifier
  constants and the `Task`/`Reminder` records. A reminder keeps the
  source's shape: a kind tag plus optional fields for every kind, so a
  "time" reminder without an interval can exist. `ResolveTrigger` picks the
  trigger. `ScheduledRequest` is the request that scheduling submits.
  `AfterSchedule` and `AfterRemove` give the pending map after each call.
  The `NotificationManager` class performs both calls on the centre and is
  proved against these functions.
- `PendingTraces`: any sequence of schedule and remove calls. Requests stay
  filed under their own identifier. The last call for a task that changes
  anything decides what is pending for it. Calls for other tasks never
  interfere.
- `Delegate` (`AppDelegate.swift`): the category table, the foreground
  presentation and the action handler. The `AppDelegate` class records
  the remove instructions sent to the task store and the completion-handler
  calls.

The encoder and decoder are parameters: `Task -> Option<Bytes>` and
`Bytes -> Option<Task>`. The location authorization is also a parameter.
It is the service's status value, not a boolean, and only
`AuthorizedWhenInUse` passes the guard: `AuthorizedAlways` does not.

The code differs from a cleaner design in three ways, and the model
follows the code each time:
- the time interval is never checked to be positive;
- the reminder is a tag with optional fields, not a sum type;
- the "mark as done" handler does not cancel the pending request
  itself (`Delegate.AppDelegate.DidReceive` leaves `center.pending`
  unchanged). It only asks the task store to remove the task. Whether the
  task store's `remove(task:)` then cancels the notification is outside
  this model.

Scheduling a task that yields no trigger does not cancel an earlier request
under the same identifier. That request stays pending (see
`Scheduling.RescheduleSupersedes` and `PendingTraces.LastCallDecides`).

## Model

| member | source | states |
|---|---|---|
| `UserNotifications.ComponentsOf` | OrganizerPlus/Managers/NotificationManager.swift:95 | a component is present exactly when its unit was requested, and then equals the date's component |
| `UserNotifications.WithRequest` | OrganizerPlus/Managers/NotificationManager.swift:114-117 | adding a request files it under its identifier, replaces the previous one there, leaves every other entry unchanged and keeps every request under its own key |
| `UserNotifications.WithoutRequests` | OrganizerPlus/Managers/NotificationManager.swift:127-128 | removal drops exactly the listed identifiers and keeps every other entry unchanged |
| `UserNotifications.NotificationCenter.Add` | OrganizerPlus/Managers/NotificationManager.swift:117 | the centre's pending map becomes the old one with the request added, and the categories are unchanged |
| `UserNotifications.NotificationCenter.RemovePendingNotificationRequests` | OrganizerPlus/Managers/NotificationManager.swift:127-128 | the pending map loses exactly the given identifiers, and the categories are unchanged |
| `UserNotifications.NotificationCenter.SetNotificationCategories` | OrganizerPlus/AppDelegate.swift:63 | the registered categories are replaced by the given set, and the pending requests are unchanged |
| `Scheduling.ThreadIdentifiersDistinct` | OrganizerPlus/Managers/NotificationManager.swift:37-41 | the three thread identifiers are pairwise different, so a thread identifier determines the reminder kind |
| `Scheduling.ResolveTrigger` | OrganizerPlus/Managers/NotificationManager.swift:84-110 | a trigger exists exactly when the kind's data is present, and for a location reminder also only with when-in-use authorization, which is checked first. A time trigger carries exactly the interval. A calendar trigger carries exactly day, month, year, hour and minute, with no seconds. A location trigger's region has the given centre and radius and is named after the task. Every trigger's kind matches the tag, and its repeat flag is copied |
| `Scheduling.CalendarTriggerIgnoresSeconds` | OrganizerPlus/Managers/NotificationManager.swift:93-96 | two calendar reminders get the same trigger if and only if their dates agree on everything but the seconds |
| `Scheduling.Payload` | OrganizerPlus/Managers/NotificationManager.swift:78-81 | `userInfo` is `["Task": encoded task]` when encoding succeeds and empty otherwise |
| `Scheduling.ScheduledRequest` | OrganizerPlus/Managers/NotificationManager.swift:70-123 | a request is submitted exactly when a trigger exists. Its identifier is the task id and its title the task name. Its body and category are the fixed ones and its payload is the encoded task. Its thread identifier is the one for its trigger's kind |
| `Scheduling.AfterSchedule` | OrganizerPlus/Managers/NotificationManager.swift:113-122 | scheduling puts the task's request under `task.id`, changes nothing when there is no trigger, and leaves every other identifier unchanged |
| `Scheduling.AfterRemove` | OrganizerPlus/Managers/NotificationManager.swift:126-129 | removal deletes key `task.id` only and leaves every other pending request unchanged |
| `Scheduling.RemoveIdempotent` | OrganizerPlus/Managers/NotificationManager.swift:126-129 | removing a task's request twice leaves the same pending map as removing it once |
| `Scheduling.AtMostOneRequestPerTask` | OrganizerPlus/Managers/NotificationManager.swift:114 | when every request is filed under its own identifier, a task id has at most one pending request, namely the one under that key |
| `Scheduling.RescheduleSupersedes` | OrganizerPlus/Managers/NotificationManager.swift:113-117 | scheduling again under the same id leaves exactly one pending request for it, the second one. If the second call yields no trigger, the first request stays |
| `Scheduling.NotificationManager.ScheduleNotification` | OrganizerPlus/Managers/NotificationManager.swift:70-123 | the content is built field by field and the trigger is chosen per kind, with an early return without authorization. The new pending map is `AfterSchedule` of the old one, and the categories are unchanged |
| `Scheduling.NotificationManager.RemoveScheduledNotification` | OrganizerPlus/Managers/NotificationManager.swift:126-129 | the new pending map is `AfterRemove` of the old one |
| `PendingTraces.ReplayKeepsIssued` | OrganizerPlus/Managers/NotificationManager.swift:70-129 | after any sequence of schedule and remove calls, every pending request is still filed under its own identifier, with the manager's category and thread, and a geofence named after that identifier |
| `PendingTraces.ReplayAppend` | OrganizerPlus/Managers/NotificationManager.swift:70-129 | making two call sequences one after the other is the same as making their concatenation |
| `PendingTraces.ReplayUntouched` | OrganizerPlus/Managers/NotificationManager.swift:114-128 | calls for other tasks leave the entry under an identifier exactly as it was |
| `PendingTraces.LastCallDecides` | OrganizerPlus/Managers/NotificationManager.swift:113-129 | the last call for a task decides what is pending for it. After a removal nothing is pending, and after a schedule that yields a request that request is. After a schedule that yields none, the earlier entry stays |
| `Delegate.RemovalFor` | OrganizerPlus/AppDelegate.swift:72-81 | a remove instruction is issued exactly when the action is "markAsDone", `userInfo["Task"]` is data, and that data decodes. The instruction names the decoded task |
| `Delegate.ScheduledRequestsUseRegisteredCategory` | OrganizerPlus/AppDelegate.swift:58-61 | every submitted request names the registered "OrganizerPlusCategory", and that category offers the "markAsDone" action |
| `Delegate.MarkAsDoneOnScheduledRequest` | OrganizerPlus/AppDelegate.swift:73-79 | for a scheduled request whose payload decodes back to the task, "markAsDone" removes exactly that task. Any other action removes nothing, and nothing is removed when the task could not be encoded |
| `Delegate.AppDelegate.ConfigureUserNotifications` | OrganizerPlus/AppDelegate.swift:55-64 | the centre's categories become exactly the one category with actions "dismiss" and "markAsDone", and the pending requests are unchanged |
| `Delegate.AppDelegate.WillPresent` | OrganizerPlus/AppDelegate.swift:49-52 | the completion handler is called once, always with `.banner` |
| `Delegate.AppDelegate.DidReceive` | OrganizerPlus/AppDelegate.swift:67-83 | the task store gets exactly `RemovalFor`'s instruction, if any. The completion handler is invoked exactly once on every path, and the pending requests are not touched |
| `Delegate.ConfigureThenSchedule` | OrganizerPlus/AppDelegate.swift:55-63 | the delegate and the manager share one centre. After the category is registered and a task is scheduled on it, the centre holds exactly the registered category and `AfterSchedule` of an empty pending map. Every pending request names a registered category that offers "markAsDone" |

## Left out

- `requestAuthorization` and `fetchNotificationSettings` (NotificationManager.swift:47-67): asynchronous callbacks, a main-queue hop and a published settings field. This is concurrency and UI plumbing.
- The error callback of `add`, which only prints (NotificationManager.swift:117-121): the model's centre always accepts a request.
- Scheduling.ResolveTrigger: files a time trigger for any interval. The platform's time-interval trigger initializer (NotificationManager.swift:88) raises an uncaught exception for an interval of zero or less, and for a repeating trigger with an interval under 60 seconds. On those inputs the source stops at line 88 and submits nothing, while the model files the request, because the code itself has no such check.
- The JSON encoder and decoder: they are function parameters, and no round trip is proved. The end-to-end lemma assumes the round trip as a hypothesis.
- The location service's authorization status and the calendar service: the status is a parameter. A date is given already split into components, with no time zones or calendars.
- Floating-point intervals, coordinates and radii are passed through without arithmetic and are modelled as reals.
- App launch and delegate registration (AppDelegate.swift:36-43, 56): lifecycle wiring.
- The task store: `remove(task:)` is only recorded as an instruction. `Task` fields other than `id`, `name` and `reminder` are not modelled. The code reads them only through the encoder, which serializes the whole task.
- Action and category options and intent identifiers: all of them are empty in the source. The model keeps the intent identifiers as an empty list and does not model the options.
- Concurrency: the centre's asynchronous handling, and a removal racing a submission for the same identifier, are not modelled. Calls take effect in the order they are made.
