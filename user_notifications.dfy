/**
  The slice of the platform's notification framework (and of the calendar
  service) that the reminder scheduler talks to. The notification centre is
  modelled as an identifier-to-request map; everything the platform does
  with a pending request afterwards (delivery, presentation) is outside
  this model.
 */
module UserNotifications {
  import opened Wrappers

  type Bytes = seq<bv8>

  /** A value stored in a notification's `userInfo` dictionary. */
  datatype InfoValue =
    | DataValue(bytes: Bytes)
    | StringValue(text: string)
    | NumberValue(number: int)

  /** The fields of a notification's content that the scheduler sets. */
  datatype Content = Content(
    title: string,
    body: string,
    categoryIdentifier: string,
    userInfo: map<string, InfoValue>,
    threadIdentifier: string)

  /** A freshly created mutable content: every field holds its default. */
  const EmptyContent := Content("", "", "", map[], "")

  /** A point in time, already broken into calendar components (no time zones). */
  datatype Date = Date(year: int, month: int, day: int, hour: int, minute: int, second: int)

  datatype CalendarUnit = Year | Month | Day | Hour | Minute | Second

  /** Date components: a component is present only when it was asked for. */
  datatype DateComponents = DateComponents(
    year: Option<int>,
    month: Option<int>,
    day: Option<int>,
    hour: Option<int>,
    minute: Option<int>,
    second: Option<int>)

  /** Extracts the requested components of a date; the others stay absent. */
  function ComponentsOf(units: set<CalendarUnit>, date: Date): (c: DateComponents)
    ensures c.year.Some? <==> Year in units
    ensures c.month.Some? <==> Month in units
    ensures c.day.Some? <==> Day in units
    ensures c.hour.Some? <==> Hour in units
    ensures c.minute.Some? <==> Minute in units
    ensures c.second.Some? <==> Second in units
    ensures c.year.Some? ==> c.year.value == date.year
    ensures c.month.Some? ==> c.month.value == date.month
    ensures c.day.Some? ==> c.day.value == date.day
    ensures c.hour.Some? ==> c.hour.value == date.hour
    ensures c.minute.Some? ==> c.minute.value == date.minute
    ensures c.second.Some? ==> c.second.value == date.second
  {
    DateComponents(
      if Year in units then Some(date.year) else None,
      if Month in units then Some(date.month) else None,
      if Day in units then Some(date.day) else None,
      if Hour in units then Some(date.hour) else None,
      if Minute in units then Some(date.minute) else None,
      if Second in units then Some(date.second) else None)
  }

  datatype Coordinate = Coordinate(latitude: real, longitude: real)

  /** A geofence: centre, radius in metres and the region's own identifier. */
  datatype CircularRegion = CircularRegion(center: Coordinate, radius: real, identifier: string)

  /** The three trigger classes the scheduler can create. */
  datatype Trigger =
    | TimeIntervalTrigger(timeInterval: real, repeats: bool)
    | CalendarTrigger(dateMatching: DateComponents, repeats: bool)
    | LocationTrigger(region: CircularRegion, repeats: bool)

  datatype Request = Request(identifier: string, content: Content, trigger: Trigger)

  datatype Action = Action(identifier: string, title: string)

  datatype Category = Category(identifier: string, actions: seq<Action>, intentIdentifiers: seq<string>)

  datatype PresentationOption = Badge | Banner | List | Sound

  /** Every pending request is filed under its own identifier. */
  ghost predicate Keyed(pending: map<string, Request>)
  {
    forall id :: id in pending ==> pending[id].identifier == id
  }

  /**
    Adding a request files it under its identifier, replacing whatever was
    pending under that identifier and leaving every other entry alone.
   */
  function WithRequest(pending: map<string, Request>, request: Request): (r: map<string, Request>)
    ensures request.identifier in r && r[request.identifier] == request
    ensures forall id :: id != request.identifier ==> (id in r <==> id in pending)
    ensures forall id :: id in pending && id != request.identifier ==> r[id] == pending[id]
    ensures Keyed(pending) ==> Keyed(r)
  {
    pending[request.identifier := request]
  }

  /** Removing pending requests drops exactly the listed identifiers. */
  function WithoutRequests(pending: map<string, Request>, identifiers: seq<string>): (r: map<string, Request>)
    ensures forall id :: id in r <==> id in pending && id !in identifiers
    ensures forall id :: id in r ==> r[id] == pending[id]
    ensures Keyed(pending) ==> Keyed(r)
  {
    pending - set id <- identifiers
  }

  /** The shared notification centre: its pending requests and registered categories. */
  class NotificationCenter {
    var pending: map<string, Request>
    var categories: set<Category>

    ghost predicate Valid()
      reads this
    {
      Keyed(pending)
    }

    constructor ()
      ensures Valid()
      ensures pending == map[] && categories == {}
    {
      pending := map[];
      categories := {};
    }

    /** Submits a request; one with the same identifier is superseded. */
    method Add(request: Request)
      requires Valid()
      modifies this
      ensures Valid()
      ensures pending == WithRequest(old(pending), request)
      ensures categories == old(categories)
    {
      pending := pending[request.identifier := request];
    }

    method RemovePendingNotificationRequests(identifiers: seq<string>)
      requires Valid()
      modifies this
      ensures Valid()
      ensures pending == WithoutRequests(old(pending), identifiers)
      ensures categories == old(categories)
    {
      pending := pending - set id <- identifiers;
    }

    /** Registers the given categories, replacing the ones registered before. */
    method SetNotificationCategories(newCategories: set<Category>)
      requires Valid()
      modifies this
      ensures Valid()
      ensures categories == newCategories
      ensures pending == old(pending)
    {
      categories := newCategories;
    }
  }
}
