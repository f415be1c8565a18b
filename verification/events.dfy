/** The objects the provider actions dispatch to the store, the calls they
    make on the remote API, and the shapes both carry. Action types are a
    tagged union instead of string constants. */
module Events {
  import opened Wrappers
  import opened Catalog

  const SuccessVariant := "success"
  const FetchFailedTitle := "Fetching data failed, try refresh page"

  /** The `options` object handed to the list reducers: absent, or an
      object with an optional `loaded` flag (`{}` is `Given(None)`). */
  datatype LoadOptions = Unset | Given(loaded: Option<bool>)

  /** A failure reported by an API collaborator. */
  datatype ApiError = ApiError(detail: Option<string>, data: Option<string>)

  /** The error carried by `LOAD_ENTITIES_REJECTED`. */
  datatype LoadError = LoadError(detail: Option<string>, title: string)

  /** A notification enqueued with `ADD_NOTIFICATION`. */
  datatype Notification = Notification(
    title: string,
    variant: string,
    description: Option<string>,
    dismissable: bool,
    customId: Option<string>)

  /** A notification the promise middleware shows when an action settles. */
  datatype NotificationDescriptor = Descriptor(variant: string, title: string, dismissable: bool)

  datatype NotificationsMeta = NotificationsMeta(
    pending: Option<NotificationDescriptor>,
    fulfilled: Option<NotificationDescriptor>,
    rejected: Option<NotificationDescriptor>)

  datatype RemoveApplicationMeta = RemoveApplicationMeta(appId: string, sourceId: string, notifications: NotificationsMeta)

  /** The deferred call a `REMOVE_APPLICATION` action carries for the
      middleware to invoke. */
  datatype DeferredCall = DeleteApplicationLater(appId: string, errorTitle: string)

  /** Dispatched objects. */
  datatype Event =
    | LoadEntitiesPending(options: LoadOptions)
    | SetCount(count: nat)
    | LoadEntitiesFulfilled(payload: seq<Source>, options: LoadOptions)
    | LoadEntitiesRejected(error: LoadError)
    | SortEntities(column: string, direction: string)
    | PageAndSize(page: int, size: int)
    | AddNotification(notification: Notification)
    | FoobarRejected(failure: ApiError)
    | RemoveSourcePending(sourceId: string)
    | RemoveSourceFulfilled(sourceId: string)
    | RemoveSourceRejected(sourceId: string)
    | RemoveApplication(deferred: DeferredCall, meta: RemoveApplicationMeta)

  /** The list parameters an action reads from the store. */
  datatype ProvidersState = ProvidersState(
    pageSize: int,
    pageNumber: int,
    sortBy: string,
    sortDirection: string,
    filterValue: string)

  /** Calls made on the remote API. The page request carries the list
      parameters it was issued with. */
  datatype Call =
    | FetchPage(params: ProvidersState)
    | FetchCount(filterValue: string)
    | DeleteSource(sourceId: string)
    | PatchSource(source: Source)

  /** What an action does, in order: the objects it dispatches and the
      calls it makes. */
  datatype Run = Run(events: seq<Event>, calls: seq<Call>)

  /** The notifications enqueued in `events`, in order. */
  function Notifications(events: seq<Event>): (ns: seq<Notification>)
    ensures |ns| <= |events|
    ensures (|ns| == 0) <==> forall i :: 0 <= i < |events| ==> !events[i].AddNotification?
  {
    if |events| == 0 then []
    else (if events[0].AddNotification? then [events[0].notification] else []) + Notifications(events[1..])
  }

  /** Notifications distribute over concatenated traces. */
  lemma {:induction false} NotificationsConcat(a: seq<Event>, b: seq<Event>)
    ensures Notifications(a + b) == Notifications(a) + Notifications(b)
    decreases |a|
  {
    if |a| > 0 {
      assert (a + b)[0] == a[0];
      assert (a + b)[1..] == a[1..] + b;
      NotificationsConcat(a[1..], b);
    } else {
      assert a + b == b;
    }
  }

  /** How many list loads `events` starts. */
  function LoadStarts(events: seq<Event>): (n: nat)
    ensures n <= |events|
    ensures (n == 0) <==> forall i :: 0 <= i < |events| ==> !events[i].LoadEntitiesPending?
  {
    if |events| == 0 then 0
    else (if events[0].LoadEntitiesPending? then 1 else 0) + LoadStarts(events[1..])
  }

  lemma {:induction false} LoadStartsConcat(a: seq<Event>, b: seq<Event>)
    ensures LoadStarts(a + b) == LoadStarts(a) + LoadStarts(b)
    decreases |a|
  {
    if |a| > 0 {
      assert (a + b)[0] == a[0];
      assert (a + b)[1..] == a[1..] + b;
      LoadStartsConcat(a[1..], b);
    } else {
      assert a + b == b;
    }
  }
}
