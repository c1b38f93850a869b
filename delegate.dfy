/**
  The app delegate's side of notifications: the category and actions it
  registers, how it presents a notification while the app is in the
  foreground, and what it does when the user acts on a delivered
  notification.
 */
module Delegate {
  import opened Wrappers
  import opened UserNotifications
  import Scheduling

  const DismissActionId := "dismiss"
  const MarkAsDoneActionId := "markAsDone"

  /** The one category the app registers, with its two actions in order. */
  const OrganizerPlusCategory := Category(
    "OrganizerPlusCategory",
    [Action(DismissActionId, "Dismiss"), Action(MarkAsDoneActionId, "Mark As Done")],
    [])

  /** A user's answer to a delivered notification: the action taken and the request delivered. */
  datatype Response = Response(actionIdentifier: string, request: Request)

  /**
    The task the task store is told to remove in answer to a response, if
    any: only for "markAsDone", only when `userInfo["Task"]` holds data, and
    only when that data decodes.
   */
  function RemovalFor(response: Response, decode: Bytes -> Option<Scheduling.Task>): (r: Option<Scheduling.Task>)
    ensures var info := response.request.content.userInfo;
      r.Some? <==>
        && response.actionIdentifier == MarkAsDoneActionId
        && Scheduling.TaskKey in info
        && info[Scheduling.TaskKey].DataValue?
        && decode(info[Scheduling.TaskKey].bytes).Some?
    ensures r.Some? ==>
      r == decode(response.request.content.userInfo[Scheduling.TaskKey].bytes)
  {
    if response.actionIdentifier == MarkAsDoneActionId then
      var info := response.request.content.userInfo;
      if Scheduling.TaskKey in info && info[Scheduling.TaskKey].DataValue? then
        decode(info[Scheduling.TaskKey].bytes)
      else None
    else None
  }

  /**
    Every request the notification manager submits names the registered
    category, and that category offers the action that removes the task.
   */
  lemma ScheduledRequestsUseRegisteredCategory(task: Scheduling.Task, status: Scheduling.AuthorizationStatus,
                                               encode: Scheduling.Task -> Option<Bytes>)
    requires Scheduling.ScheduledRequest(task, status, encode).Some?
    ensures Scheduling.ScheduledRequest(task, status, encode).value.content.categoryIdentifier
            == OrganizerPlusCategory.identifier
    ensures exists action :: action in OrganizerPlusCategory.actions && action.identifier == MarkAsDoneActionId
  {
    assert OrganizerPlusCategory.actions[1].identifier == MarkAsDoneActionId;
  }

  /**
    Marking a scheduled notification done removes exactly the scheduled
    task, provided the decoder reads back what the encoder wrote; if the
    task could not be encoded, no action on its notification removes
    anything.
   */
  lemma MarkAsDoneOnScheduledRequest(task: Scheduling.Task, status: Scheduling.AuthorizationStatus,
                                     encode: Scheduling.Task -> Option<Bytes>,
                                     decode: Bytes -> Option<Scheduling.Task>, actionId: string)
    requires Scheduling.ScheduledRequest(task, status, encode).Some?
    ensures var request := Scheduling.ScheduledRequest(task, status, encode).value;
      encode(task).Some? && decode(encode(task).value) == Some(task) && actionId == MarkAsDoneActionId ==>
        RemovalFor(Response(actionId, request), decode) == Some(task)
    ensures var request := Scheduling.ScheduledRequest(task, status, encode).value;
      encode(task).None? ==> RemovalFor(Response(actionId, request), decode) == None
    ensures var request := Scheduling.ScheduledRequest(task, status, encode).value;
      actionId != MarkAsDoneActionId ==> RemovalFor(Response(actionId, request), decode) == None
  {
    var request := Scheduling.ScheduledRequest(task, status, encode).value;
    if encode(task).Some? {
      assert request.content.userInfo[Scheduling.TaskKey] == DataValue(encode(task).value);
    } else {
      assert Scheduling.TaskKey !in request.content.userInfo;
    }
  }

  /** The app delegate, with what its handlers have passed on so far. */
  class AppDelegate {
    const center: NotificationCenter
    /** Tasks handed to the task store's `remove(task:)`, in order. */
    var removals: seq<Scheduling.Task>
    /** How many times `didReceive`'s completion handler has been invoked. */
    var completions: nat
    /** The options passed to `willPresent`'s completion handler, in order. */
    var presentations: seq<set<PresentationOption>>

    constructor (center: NotificationCenter)
      ensures this.center == center
      ensures removals == [] && completions == 0 && presentations == []
    {
      this.center := center;
      removals := [];
      completions := 0;
      presentations := [];
    }

    /** Registers the app's single category as the centre's only one. */
    method ConfigureUserNotifications()
      requires center.Valid()
      modifies center
      ensures center.Valid()
      ensures center.categories == {OrganizerPlusCategory}
      ensures center.pending == old(center.pending)
    {
      var dismissAction := Action(DismissActionId, "Dismiss");
      var markAsDone := Action(MarkAsDoneActionId, "Mark As Done");
      var category := Category("OrganizerPlusCategory", [dismissAction, markAsDone], []);
      center.SetNotificationCategories({category});
    }

    /** A notification arriving in the foreground is always shown as a banner. */
    method WillPresent(notification: Request)
      modifies this
      ensures presentations == old(presentations) + [{Banner}]
      ensures removals == old(removals) && completions == old(completions)
    {
      presentations := presentations + [{Banner}];
    }

    /**
      Answers a user's action: on "markAsDone" with a decodable task
      payload, tells the task store to remove that task; in every case
      calls the completion handler exactly once. Pending requests are not
      touched.
     */
    method DidReceive(response: Response, decode: Bytes -> Option<Scheduling.Task>)
      modifies this
      ensures removals == old(removals) + (match RemovalFor(response, decode)
                                           case Some(task) => [task]
                                           case None => [])
      ensures completions == old(completions) + 1
      ensures presentations == old(presentations)
      ensures center.pending == old(center.pending)
    {
      if response.actionIdentifier == MarkAsDoneActionId {
        var userInfo := response.request.content.userInfo;
        if Scheduling.TaskKey in userInfo && userInfo[Scheduling.TaskKey].DataValue? {
          var taskData := userInfo[Scheduling.TaskKey].bytes;
          var task := decode(taskData);
          if task.Some? {
            removals := removals + [task.value];
          }
        }
      }
      completions := completions + 1;
    }
  }

  /** Some registered category has this identifier and offers "markAsDone". */
  ghost predicate OffersMarkAsDone(categories: set<Category>, identifier: string)
  {
    exists category :: category in categories && category.identifier == identifier
                       && Action(MarkAsDoneActionId, "Mark As Done") in category.actions
  }

  /**
    The delegate and the notification manager share one notification centre.
    Once the delegate has registered its category, every request the manager
    leaves pending on that centre names a registered category, and that
    category offers "markAsDone".
   */
  method ConfigureThenSchedule(task: Scheduling.Task, status: Scheduling.AuthorizationStatus,
                               encode: Scheduling.Task -> Option<Bytes>)
    returns (center: NotificationCenter)
    ensures fresh(center) && center.Valid()
    ensures center.categories == {OrganizerPlusCategory}
    ensures center.pending == Scheduling.AfterSchedule(map[], task, status, encode)
    ensures forall id :: id in center.pending ==>
      OffersMarkAsDone(center.categories, center.pending[id].content.categoryIdentifier)
  {
    center := new NotificationCenter();
    var appDelegate := new AppDelegate(center);
    appDelegate.ConfigureUserNotifications();
    var manager := new Scheduling.NotificationManager(center);
    manager.ScheduleNotification(task, status, encode);
    forall id | id in center.pending
      ensures OffersMarkAsDone(center.categories, center.pending[id].content.categoryIdentifier)
    {
      assert Scheduling.IssuedUnder(center.pending[id], id);
      assert OrganizerPlusCategory.actions[1] == Action(MarkAsDoneActionId, "Mark As Done");
      assert OrganizerPlusCategory in center.categories;
    }
  }
}
