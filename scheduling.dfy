/**
  The notification manager: it turns a task's reminder into a pending
  request on the notification centre, filed under the task's identifier,
  and removes that request again on demand.
 */
module Scheduling {
  import opened Wrappers
  import opened UserNotifications

  /** Thread identifiers, one per reminder kind; they only group notifications. */
  const TimeBasedThreadId := "TimeBasedNotificationThreadId"
  const CalendarBasedThreadId := "CalendarBasedNotificationThreadId"
  const LocationBasedThreadId := "LocationBasedNotificationThreadId"

  const ReminderBody := "Gentle reminder for your task!"
  const CategoryIdentifier := "OrganizerPlusCategory"
  /** The `userInfo` key under which the encoded task travels. */
  const TaskKey := "Task"
  /** The calendar components a calendar trigger matches on; seconds are not among them. */
  const TriggerUnits: set<CalendarUnit> := {Day, Month, Year, Hour, Minute}

  datatype ReminderType = Time | Calendar | Location

  datatype LocationData = LocationData(latitude: real, longitude: real, radius: real)

  /**
    A reminder is a kind tag plus optional data for every kind; nothing ties
    the tag to the presence of the matching field.
   */
  datatype Reminder = Reminder(
    reminderType: ReminderType,
    timeInterval: Option<real>,
    date: Option<Date>,
    location: Option<LocationData>,
    repeats: bool)

  datatype Task = Task(id: string, name: string, reminder: Reminder)

  /** The app's location authorization as the location service reports it. */
  datatype AuthorizationStatus =
    | NotDetermined
    | Restricted
    | Denied
    | AuthorizedAlways
    | AuthorizedWhenInUse

  function ThreadIdentifier(kind: ReminderType): string
  {
    match kind
    case Time => TimeBasedThreadId
    case Calendar => CalendarBasedThreadId
    case Location => LocationBasedThreadId
  }

  /** Different reminder kinds never share a thread. */
  lemma ThreadIdentifiersDistinct(a: ReminderType, b: ReminderType)
    ensures ThreadIdentifier(a) == ThreadIdentifier(b) <==> a == b
  {
  }

  /** The reminder kind a trigger class serves. */
  function KindOf(trigger: Trigger): ReminderType
  {
    match trigger
    case TimeIntervalTrigger(_, _) => Time
    case CalendarTrigger(_, _) => Calendar
    case LocationTrigger(_, _) => Location
  }

  /**
    The trigger chosen for a task, or None when the reminder lacks the data
    its kind needs or, for a location reminder, the app is not authorized
    "when in use". The interval is passed on unchecked.
   */
  function ResolveTrigger(task: Task, status: AuthorizationStatus): (r: Option<Trigger>)
    ensures r.Some? ==> KindOf(r.value) == task.reminder.reminderType
    ensures r.Some? ==> r.value.repeats == task.reminder.repeats
    // time: exactly the given interval
    ensures task.reminder.reminderType == Time ==>
      (r.Some? <==> task.reminder.timeInterval.Some?)
    ensures task.reminder.reminderType == Time && r.Some? ==>
      r.value.timeInterval == task.reminder.timeInterval.value
    // calendar: day, month, year, hour and minute of the date, no seconds
    ensures task.reminder.reminderType == Calendar ==>
      (r.Some? <==> task.reminder.date.Some?)
    ensures task.reminder.reminderType == Calendar && r.Some? ==>
      var d := task.reminder.date.value;
      r.value.dateMatching ==
        DateComponents(Some(d.year), Some(d.month), Some(d.day), Some(d.hour), Some(d.minute), None)
    // location: permission first, then data; the region is named after the task
    ensures task.reminder.reminderType == Location ==>
      (r.Some? <==> status == AuthorizedWhenInUse && task.reminder.location.Some?)
    ensures task.reminder.reminderType == Location && r.Some? ==>
      var l := task.reminder.location.value;
      r.value.region == CircularRegion(Coordinate(l.latitude, l.longitude), l.radius, task.id)
  {
    var reminder := task.reminder;
    match reminder.reminderType
    case Time =>
      if reminder.timeInterval.Some? then
        Some(TimeIntervalTrigger(reminder.timeInterval.value, reminder.repeats))
      else None
    case Calendar =>
      if reminder.date.Some? then
        Some(CalendarTrigger(ComponentsOf(TriggerUnits, reminder.date.value), reminder.repeats))
      else None
    case Location =>
      if status != AuthorizedWhenInUse then None
      else if reminder.location.Some? then
        var l := reminder.location.value;
        var center := Coordinate(l.latitude, l.longitude);
        Some(LocationTrigger(CircularRegion(center, l.radius, task.id), reminder.repeats))
      else None
  }

  /**
    Two calendar reminders get the same trigger exactly when their dates
    agree on day, month, year, hour and minute: seconds never matter.
   */
  lemma CalendarTriggerIgnoresSeconds(t1: Task, t2: Task, status: AuthorizationStatus)
    requires t1.reminder.reminderType == Calendar && t1.reminder.date.Some?
    requires t2.reminder.reminderType == Calendar && t2.reminder.date.Some?
    requires t1.reminder.repeats == t2.reminder.repeats
    ensures
      var d1, d2 := t1.reminder.date.value, t2.reminder.date.value;
      ResolveTrigger(t1, status) == ResolveTrigger(t2, status) <==>
        d1.(second := 0) == d2.(second := 0)
  {
    var d1, d2 := t1.reminder.date.value, t2.reminder.date.value;
    if ResolveTrigger(t1, status) == ResolveTrigger(t2, status) {
      assert ComponentsOf(TriggerUnits, d1) == ComponentsOf(TriggerUnits, d2);
    }
  }

  /** The `userInfo` of a task's notification: the encoded task, if encoding succeeds. */
  function Payload(task: Task, encode: Task -> Option<Bytes>): (info: map<string, InfoValue>)
    ensures encode(task).Some? ==> info == map[TaskKey := DataValue(encode(task).value)]
    ensures encode(task).None? ==> info == map[]
  {
    match encode(task)
    case Some(data) => map[TaskKey := DataValue(data)]
    case None => map[]
  }

  /**
    The request that scheduling a task submits, or None when no trigger can
    be made: the request is filed under the task's identifier, carries the
    task's name, the fixed body and category, the encoded task when
    encoding succeeds, and the thread of its trigger's kind.
   */
  function ScheduledRequest(task: Task, status: AuthorizationStatus, encode: Task -> Option<Bytes>): (r: Option<Request>)
    ensures r.Some? <==> ResolveTrigger(task, status).Some?
    ensures r.Some? ==> r.value.identifier == task.id && r.value.trigger == ResolveTrigger(task, status).value
    ensures r.Some? ==>
      && r.value.content.title == task.name
      && r.value.content.body == ReminderBody
      && r.value.content.categoryIdentifier == CategoryIdentifier
    ensures r.Some? ==> r.value.content.userInfo == Payload(task, encode)
    ensures r.Some? ==> r.value.content.threadIdentifier == ThreadIdentifier(KindOf(r.value.trigger))
    ensures r.Some? ==> IssuedUnder(r.value, task.id)
  {
    match ResolveTrigger(task, status)
    case None => None
    case Some(trigger) =>
      var content := Content(task.name, ReminderBody, CategoryIdentifier, Payload(task, encode),
                             ThreadIdentifier(task.reminder.reminderType));
      Some(Request(task.id, content, trigger))
  }

  /**
    What every request this manager submits looks like, filed under `id`:
    its identifier is `id`, its category and thread are the manager's, and a
    geofence is named after the same identifier.
   */
  ghost predicate IssuedUnder(request: Request, id: string)
  {
    && request.identifier == id
    && request.content.body == ReminderBody
    && request.content.categoryIdentifier == CategoryIdentifier
    && request.content.threadIdentifier == ThreadIdentifier(KindOf(request.trigger))
    && (request.trigger.LocationTrigger? ==> request.trigger.region.identifier == id)
  }

  /** Every pending request was issued by this manager under its own key. */
  ghost predicate Issued(pending: map<string, Request>)
  {
    forall id :: id in pending ==> IssuedUnder(pending[id], id)
  }

  /**
    The pending requests after scheduling a task: the task's request
    replaces the one under its identifier, and without a trigger nothing
    at all changes.
   */
  function AfterSchedule(pending: map<string, Request>, task: Task, status: AuthorizationStatus,
                         encode: Task -> Option<Bytes>): (r: map<string, Request>)
    ensures ScheduledRequest(task, status, encode).Some? ==>
      task.id in r && r[task.id] == ScheduledRequest(task, status, encode).value
    ensures ScheduledRequest(task, status, encode).None? ==> r == pending
    ensures forall id :: id != task.id ==> (id in r <==> id in pending)
    ensures forall id :: id != task.id && id in pending ==> r[id] == pending[id]
    ensures Issued(pending) ==> Issued(r)
  {
    match ScheduledRequest(task, status, encode)
    case Some(request) => WithRequest(pending, request)
    case None => pending
  }

  /** The pending requests after removing a task's notification: only its key goes. */
  function AfterRemove(pending: map<string, Request>, task: Task): (r: map<string, Request>)
    ensures r.Keys == pending.Keys - {task.id}
    ensures forall id :: id in r ==> r[id] == pending[id]
    ensures Issued(pending) ==> Issued(r)
  {
    WithoutRequests(pending, [task.id])
  }

  /** Removing twice is removing once. */
  lemma RemoveIdempotent(pending: map<string, Request>, task: Task)
    ensures AfterRemove(AfterRemove(pending, task), task) == AfterRemove(pending, task)
  {
  }

  /** All pending requests carrying a given identifier. */
  ghost function RequestsFor(pending: map<string, Request>, id: string): set<Request>
  {
    set key | key in pending && pending[key].identifier == id :: pending[key]
  }

  /** Because requests are filed under their identifier, a task has at most one pending request. */
  lemma AtMostOneRequestPerTask(pending: map<string, Request>, id: string)
    requires Keyed(pending)
    ensures RequestsFor(pending, id) == if id in pending then {pending[id]} else {}
    ensures |RequestsFor(pending, id)| <= 1
  {
    var s := RequestsFor(pending, id);
    forall r | r in s ensures id in pending && r == pending[id] {
      var key :| key in pending && pending[key].identifier == id && r == pending[key];
    }
    if id in pending {
      assert pending[id] in s;
    }
  }

  /**
    Scheduling a second task under the same identifier leaves exactly one
    pending request for it, the second one; if the second task cannot be
    scheduled, the first request stays pending untouched.
   */
  lemma RescheduleSupersedes(pending: map<string, Request>, t1: Task, s1: AuthorizationStatus,
                             t2: Task, s2: AuthorizationStatus, encode: Task -> Option<Bytes>)
    requires Issued(pending)
    requires t1.id == t2.id
    ensures var after := AfterSchedule(AfterSchedule(pending, t1, s1, encode), t2, s2, encode);
      ScheduledRequest(t2, s2, encode).Some? ==>
        RequestsFor(after, t2.id) == {ScheduledRequest(t2, s2, encode).value}
    ensures var after := AfterSchedule(AfterSchedule(pending, t1, s1, encode), t2, s2, encode);
      ScheduledRequest(t2, s2, encode).None? ==>
        RequestsFor(after, t2.id) == RequestsFor(AfterSchedule(pending, t1, s1, encode), t1.id)
  {
    var after := AfterSchedule(AfterSchedule(pending, t1, s1, encode), t2, s2, encode);
    AtMostOneRequestPerTask(after, t2.id);
  }

  /** The notification manager, holding the shared notification centre. */
  class NotificationManager {
    const center: NotificationCenter

    ghost predicate Valid()
      reads this, center
    {
      center.Valid() && Issued(center.pending)
    }

    constructor (center: NotificationCenter)
      requires center.Valid() && Issued(center.pending)
      ensures this.center == center && Valid()
    {
      this.center := center;
    }

    /**
      Builds the content step by step, picks the trigger for the reminder's
      kind and submits the request under the task's identifier only when a
      trigger was made. `status` is the location service's authorization and
      `encode` the task serializer.
     */
    method ScheduleNotification(task: Task, status: AuthorizationStatus, encode: Task -> Option<Bytes>)
      requires Valid()
      modifies center
      ensures Valid()
      ensures center.pending == AfterSchedule(old(center.pending), task, status, encode)
      ensures center.categories == old(center.categories)
    {
      var content := EmptyContent;
      content := content.(title := task.name);
      content := content.(body := ReminderBody);
      content := content.(categoryIdentifier := CategoryIdentifier);
      var taskData := encode(task);
      if taskData.Some? {
        content := content.(userInfo := map[TaskKey := DataValue(taskData.value)]);
      }

      var trigger: Option<Trigger> := None;
      match task.reminder.reminderType {
        case Time =>
          if task.reminder.timeInterval.Some? {
            trigger := Some(TimeIntervalTrigger(task.reminder.timeInterval.value, task.reminder.repeats));
          }
          content := content.(threadIdentifier := TimeBasedThreadId);
        case Calendar =>
          if task.reminder.date.Some? {
            var components := ComponentsOf(TriggerUnits, task.reminder.date.value);
            trigger := Some(CalendarTrigger(components, task.reminder.repeats));
          }
          content := content.(threadIdentifier := CalendarBasedThreadId);
        case Location =>
          if status != AuthorizedWhenInUse {
            return;
          }
          if task.reminder.location.Some? {
            var location := task.reminder.location.value;
            var center := Coordinate(location.latitude, location.longitude);
            var region := CircularRegion(center, location.radius, task.id);
            trigger := Some(LocationTrigger(region, task.reminder.repeats));
          }
          content := content.(threadIdentifier := LocationBasedThreadId);
      }

      if trigger.Some? {
        var request := Request(task.id, content, trigger.value);
        assert Some(request) == ScheduledRequest(task, status, encode);
        center.Add(request);
      }
    }

    /** Withdraws the pending request filed under the task's identifier. */
    method RemoveScheduledNotification(task: Task)
      requires Valid()
      modifies center
      ensures Valid()
      ensures center.pending == AfterRemove(old(center.pending), task)
      ensures center.categories == old(center.categories)
    {
      center.RemovePendingNotificationRequests([task.id]);
    }
  }
}
