/** The provider actions. Each asynchronous action is a function from the
    outcomes of the API calls it makes to what it does: the objects it
    dispatches, in order, and the calls it issues. The store's reducers are
    not part of this model; where an action reads the store after its own
    dispatches, the reducer is a parameter. */
module Providers {
  import opened Wrappers
  import opened Js
  import opened Catalog
  import opened Events
  import opened Lifecycle

  /** Which of the two requests joined by a list load settles first. It
      matters only when the page request fails: it decides whether a
      successful count lands before the rejection, and which error the join
      reports when both fail. */
  datatype Settle = PageFirst | CountFirst

  /** The rejection error of a list load: the collaborator's `detail` when
      truthy, its `data` otherwise, under a fixed title. */
  function NormalizeError(e: ApiError): (r: LoadError)
    ensures r.title == FetchFailedTitle
    ensures Truthy(e.detail) ==> r.detail == e.detail
    ensures !Truthy(e.detail) ==> r.detail == e.data
    ensures Truthy(e.detail) || Truthy(e.data) ==> Truthy(r.detail)
  {
    LoadError(Or(e.detail, e.data), FetchFailedTitle)
  }

  /** The error the joined list requests reject with: the only failure, or
      the first to settle when both fail. */
  function JoinError(page: Result<seq<Source>, ApiError>, count: Result<nat, ApiError>, settle: Settle): (e: ApiError)
    requires page.Failure? || count.Failure?
    ensures page.Failure? && count.Success? ==> e == page.error
    ensures page.Success? && count.Failure? ==> e == count.error
    ensures page.Failure? && count.Failure? ==> e == (if settle == CountFirst then count.error else page.error)
  {
    match (page, count)
    case (Failure(pe), Success(_)) => pe
    case (Success(_), Failure(ce)) => ce
    case (Failure(pe), Failure(ce)) => if settle == CountFirst then ce else pe
  }

  /** `loadEntities(options, optionsPending)` issued when the store holds
      `state`. It dispatches PENDING first, requests the page and the count,
      dispatches SET_COUNT when the count arrives and FULFILLED once both
      arrived; any failure dispatches REJECTED instead of FULFILLED and no
      notification. A count that arrives after a page failure has already
      rejected the load lands outside this trace. */
  function LoadEntities(options: LoadOptions, optionsPending: LoadOptions, state: ProvidersState,
                        page: Result<seq<Source>, ApiError>, count: Result<nat, ApiError>, settle: Settle): (r: Run)
    ensures 2 <= |r.events| <= 3 && r.events[0] == LoadEntitiesPending(optionsPending)
    ensures r.calls == [FetchPage(state), FetchCount(state.filterValue)]
    ensures forall i :: 0 <= i < |r.events| ==> IsListEvent(r.events[i])
    ensures page.Success? && count.Success? ==>
      r.events[1] == SetCount(count.value) && r.events[|r.events| - 1] == LoadEntitiesFulfilled(page.value, options)
    ensures page.Failure? || count.Failure? ==>
      r.events[|r.events| - 1] == LoadEntitiesRejected(NormalizeError(JoinError(page, count, settle)))
    ensures count.Failure? ==> forall i :: 0 <= i < |r.events| ==> !r.events[i].SetCount?
    ensures count.Success? ==> forall i :: 0 <= i < |r.events| && r.events[i].SetCount? ==> r.events[i] == SetCount(count.value)
    ensures page.Failure? && count.Success? ==> (|r.events| == 3 <==> settle == CountFirst)
  {
    var start := LoadEntitiesPending(optionsPending);
    var calls := [FetchPage(state), FetchCount(state.filterValue)];
    if page.Success? && count.Success? then
      Run([start, SetCount(count.value), LoadEntitiesFulfilled(page.value, options)], calls)
    else
      var rejected := LoadEntitiesRejected(NormalizeError(JoinError(page, count, settle)));
      if count.Success? && settle == CountFirst then
        Run([start, SetCount(count.value), rejected], calls)
      else
        Run([start, rejected], calls)
  }

  /** The events a list load dispatches. */
  predicate IsListEvent(e: Event)
  {
    e.LoadEntitiesPending? || e.SetCount? || e.LoadEntitiesFulfilled? || e.LoadEntitiesRejected?
  }

  /** A list load goes through exactly one lifecycle, ending FULFILLED
      exactly when both requests succeed; it starts one load and enqueues no
      notification whatever the outcome. */
  lemma LoadEntitiesLifecycle(options: LoadOptions, optionsPending: LoadOptions, state: ProvidersState,
                              page: Result<seq<Source>, ApiError>, count: Result<nat, ApiError>, settle: Settle)
    ensures var events := LoadEntities(options, optionsPending, state, page, count, settle).events;
      && Replay(LoadEntitiesAction, Idle, events) == Some(if page.Success? && count.Success? then Fulfilled else Rejected)
      && LoadStarts(events) == 1
      && Notifications(events) == []
  {
    var events := LoadEntities(options, optionsPending, state, page, count, settle).events;
    var last := if page.Success? && count.Success? then Fulfilled else Rejected;
    if |events| == 3 {
      assert events[1].SetCount? && Marker(LoadEntitiesAction, events[2]) == Some(last);
      assert events[1..][1..] == [events[2]];
      assert events[1..][1..][1..] == [];
      assert Replay(LoadEntitiesAction, last, events[1..][1..][1..]) == Some(last);
      assert Replay(LoadEntitiesAction, Pending, events[1..][1..]) == Some(last);
      assert Replay(LoadEntitiesAction, Pending, events[1..]) == Some(last);
    } else {
      assert !(page.Success? && count.Success?);
      assert events[1].LoadEntitiesRejected?;
      assert events[1..] == [events[1]];
      assert events[1..][1..] == [];
      assert Replay(LoadEntitiesAction, Rejected, events[1..][1..]) == Some(Rejected);
      assert Replay(LoadEntitiesAction, Pending, events[1..]) == Some(Rejected);
    }
  }

  /** `sortEntities(column, direction)`: the sort update, then one list load
      with no options that reads the store as the update left it. */
  function SortEntitiesAction(column: string, direction: string, state: ProvidersState,
                              reduce: (ProvidersState, Event) -> ProvidersState,
                              page: Result<seq<Source>, ApiError>, count: Result<nat, ApiError>, settle: Settle): (r: Run)
    ensures |r.events| >= 3 && |r.calls| == 2
    ensures r.events[0] == SortEntities(column, direction)
    ensures r.events[1] == LoadEntitiesPending(Unset)
    ensures r.calls[0] == FetchPage(reduce(state, SortEntities(column, direction)))
    ensures r.calls[1] == FetchCount(reduce(state, SortEntities(column, direction)).filterValue)
    ensures page.Success? && count.Success? ==> r.events[|r.events| - 1] == LoadEntitiesFulfilled(page.value, Unset)
    ensures var load := LoadEntities(Unset, Unset, reduce(state, SortEntities(column, direction)), page, count, settle);
      r.events == [SortEntities(column, direction)] + load.events && r.calls == load.calls
  {
    var update := SortEntities(column, direction);
    var load := LoadEntities(Unset, Unset, reduce(state, update), page, count, settle);
    Run([update] + load.events, load.calls)
  }

  /** `pageAndSize(page, size)`: the paging update, then one list load with
      no options that reads the store as the update left it. */
  function PageAndSizeAction(pageNumber: int, size: int, state: ProvidersState,
                             reduce: (ProvidersState, Event) -> ProvidersState,
                             page: Result<seq<Source>, ApiError>, count: Result<nat, ApiError>, settle: Settle): (r: Run)
    ensures |r.events| >= 3 && |r.calls| == 2
    ensures r.events[0] == PageAndSize(pageNumber, size)
    ensures r.events[1] == LoadEntitiesPending(Unset)
    ensures r.calls[0] == FetchPage(reduce(state, PageAndSize(pageNumber, size)))
    ensures r.calls[1] == FetchCount(reduce(state, PageAndSize(pageNumber, size)).filterValue)
    ensures page.Success? && count.Success? ==> r.events[|r.events| - 1] == LoadEntitiesFulfilled(page.value, Unset)
    ensures var load := LoadEntities(Unset, Unset, reduce(state, PageAndSize(pageNumber, size)), page, count, settle);
      r.events == [PageAndSize(pageNumber, size)] + load.events && r.calls == load.calls
  {
    var update := PageAndSize(pageNumber, size);
    var load := LoadEntities(Unset, Unset, reduce(state, update), page, count, settle);
    Run([update] + load.events, load.calls)
  }

  /** After its update, a sort or paging action runs exactly one complete
      list load and enqueues no notification. */
  lemma ListUpdateReloadsOnce(column: string, direction: string, pageNumber: int, size: int, state: ProvidersState,
                              reduce: (ProvidersState, Event) -> ProvidersState,
                              page: Result<seq<Source>, ApiError>, count: Result<nat, ApiError>, settle: Settle)
    ensures var sorted := SortEntitiesAction(column, direction, state, reduce, page, count, settle).events;
      LoadStarts(sorted) == 1 && Settled(LoadEntitiesAction, sorted) && Notifications(sorted) == []
    ensures var paged := PageAndSizeAction(pageNumber, size, state, reduce, page, count, settle).events;
      LoadStarts(paged) == 1 && Settled(LoadEntitiesAction, paged) && Notifications(paged) == []
  {
    var update1 := SortEntities(column, direction);
    UpdateThenLoad(update1, LoadEntities(Unset, Unset, reduce(state, update1), page, count, settle).events,
                   reduce(state, update1), page, count, settle);
    var update2 := PageAndSize(pageNumber, size);
    UpdateThenLoad(update2, LoadEntities(Unset, Unset, reduce(state, update2), page, count, settle).events,
                   reduce(state, update2), page, count, settle);
  }

  /** A store update that is not a list event, followed by a list load with
      no options: one load start, a settled load and no notification. */
  lemma UpdateThenLoad(update: Event, load: seq<Event>, loadState: ProvidersState,
                       page: Result<seq<Source>, ApiError>, count: Result<nat, ApiError>, settle: Settle)
    requires update.SortEntities? || update.PageAndSize?
    requires load == LoadEntities(Unset, Unset, loadState, page, count, settle).events
    ensures LoadStarts([update] + load) == 1
    ensures Settled(LoadEntitiesAction, [update] + load)
    ensures Notifications([update] + load) == []
  {
    LoadEntitiesLifecycle(Unset, Unset, loadState, page, count, settle);
    LoadStartsConcat([update], load);
    NotificationsConcat([update], load);
    ReplayConcat(LoadEntitiesAction, Idle, [update], load);
  }

  /** `addMessage(title, variant, description, customId)`: enqueues one
      notification, always dismissable. */
  function AddMessage(title: string, variant: string, description: Option<string>, customId: Option<string>): (r: Run)
    ensures Notifications(r.events) == [Notification(title, variant, description, true, customId)]
    ensures |r.events| == 1 && r.calls == []
  {
    Run([AddNotification(Notification(title, variant, description, true, customId))], [])
  }

  /** `updateSource(source, formData, title, description, errorTitles)`:
      patches the source; success enqueues one dismissable success
      notification, failure dispatches the error alone under the
      `FOOBAR_REJECTED` type and enqueues nothing. */
  function UpdateSource(source: Source, title: string, description: Option<string>, outcome: Result<(), ApiError>): (r: Run)
    ensures r.calls == [PatchSource(source)]
    ensures |r.events| == 1
    ensures outcome.Success? ==> Notifications(r.events) == [Notification(title, SuccessVariant, description, true, None)]
    ensures outcome.Failure? ==> Notifications(r.events) == [] && r.events[0] == FoobarRejected(outcome.error)
  {
    match outcome
    case Success(_) => Run(AddMessage(title, SuccessVariant, description, None).events, [PatchSource(source)])
    case Failure(e) => Run([FoobarRejected(e)], [PatchSource(source)])
  }

  /** `removeSource(sourceId, title)` issued when the store holds `state`.
      PENDING first; a failed deletion dispatches REJECTED and nothing else.
      A successful one reloads the list (reading the store after PENDING),
      then dispatches FULFILLED and a success notification; the reload
      cannot make the removal fail because the load catches its own
      errors. */
  function RemoveSource(sourceId: string, title: string, state: ProvidersState,
                        reduce: (ProvidersState, Event) -> ProvidersState,
                        removal: Result<(), ApiError>,
                        page: Result<seq<Source>, ApiError>, count: Result<nat, ApiError>, settle: Settle): (r: Run)
    ensures |r.events| >= 2 && |r.calls| >= 1
    ensures r.events[0] == RemoveSourcePending(sourceId)
    ensures r.calls[0] == DeleteSource(sourceId)
    ensures removal.Failure? ==>
      r.events == [RemoveSourcePending(sourceId), RemoveSourceRejected(sourceId)] && r.calls == [DeleteSource(sourceId)]
    ensures removal.Success? ==>
      && |r.events| >= 5 && |r.calls| == 3
      && r.events[1] == LoadEntitiesPending(Given(Some(true)))
      && r.calls[1] == FetchPage(reduce(state, RemoveSourcePending(sourceId)))
      && r.events[|r.events| - 2] == RemoveSourceFulfilled(sourceId)
    ensures var reload := LoadEntities(Given(None), Given(Some(true)), reduce(state, RemoveSourcePending(sourceId)), page, count, settle);
      removal.Success? ==>
        && r.events == [RemoveSourcePending(sourceId)] + reload.events + SuccessTail(sourceId, title)
        && r.calls == [DeleteSource(sourceId)] + reload.calls
  {
    var start := RemoveSourcePending(sourceId);
    if removal.Failure? then
      Run([start, RemoveSourceRejected(sourceId)], [DeleteSource(sourceId)])
    else
      var reload := LoadEntities(Given(None), Given(Some(true)), reduce(state, start), page, count, settle);
      Run([start] + reload.events + [RemoveSourceFulfilled(sourceId)] + AddMessage(title, SuccessVariant, None, None).events,
          [DeleteSource(sourceId)] + reload.calls)
  }

  /** The events after a successful removal's reload: FULFILLED, then the
      success notification. */
  function SuccessTail(sourceId: string, title: string): seq<Event>
  {
    [RemoveSourceFulfilled(sourceId), AddNotification(Notification(title, SuccessVariant, None, true, None))]
  }

  /** The removal's lifecycle ends FULFILLED exactly when the deletion
      succeeded, even when the reload is rejected; on success the reload
      completes its own lifecycle before the removal is fulfilled. */
  lemma RemoveSourceLifecycle(sourceId: string, title: string, state: ProvidersState,
                              reduce: (ProvidersState, Event) -> ProvidersState,
                              removal: Result<(), ApiError>,
                              page: Result<seq<Source>, ApiError>, count: Result<nat, ApiError>, settle: Settle)
    ensures var events := RemoveSource(sourceId, title, state, reduce, removal, page, count, settle).events;
      && Replay(RemoveSourceAction(sourceId), Idle, events) == Some(if removal.Success? then Fulfilled else Rejected)
      && (removal.Success? ==> Settled(LoadEntitiesAction, events[..|events| - 2]))
  {
    if removal.Success? {
      RemoveSourceSucceededLifecycle(sourceId, title, state, reduce, page, count, settle);
      RemoveSourceReloadSettles(sourceId, title, state, reduce, page, count, settle);
    } else {
      var events := RemoveSource(sourceId, title, state, reduce, removal, page, count, settle).events;
      var a := RemoveSourceAction(sourceId);
      assert events[1..] == [RemoveSourceRejected(sourceId)] && events[1..][1..] == [];
      assert Replay(a, Rejected, events[1..][1..]) == Some(Rejected);
      assert Replay(a, Pending, events[1..]) == Some(Rejected);
    }
  }

  /** On success the removal goes PENDING, then FULFILLED after the
      reload, whose events carry no marker of the removal. */
  lemma RemoveSourceSucceededLifecycle(sourceId: string, title: string, state: ProvidersState,
                                       reduce: (ProvidersState, Event) -> ProvidersState,
                                       page: Result<seq<Source>, ApiError>, count: Result<nat, ApiError>, settle: Settle)
    ensures Replay(RemoveSourceAction(sourceId), Idle,
                   RemoveSource(sourceId, title, state, reduce, Success(()), page, count, settle).events) == Some(Fulfilled)
  {
    var start := RemoveSourcePending(sourceId);
    var reload := LoadEntities(Given(None), Given(Some(true)), reduce(state, start), page, count, settle);
    SuccessTailFulfills(sourceId, title);
    ReplayBracketed(RemoveSourceAction(sourceId), start, reload.events, SuccessTail(sourceId, title), Fulfilled);
  }

  /** FULFILLED then the notification take the removal from PENDING to
      FULFILLED. */
  lemma SuccessTailFulfills(sourceId: string, title: string)
    ensures Replay(RemoveSourceAction(sourceId), Pending, SuccessTail(sourceId, title)) == Some(Fulfilled)
  {
    var a := RemoveSourceAction(sourceId);
    var tail := SuccessTail(sourceId, title);
    assert tail[1..] == [tail[1]] && tail[1..][1..] == [];
    assert Replay(a, Fulfilled, tail[1..][1..]) == Some(Fulfilled);
    assert Replay(a, Fulfilled, tail[1..]) == Some(Fulfilled);
  }

  /** On success the reload completes its own lifecycle before the removal
      is fulfilled. */
  lemma RemoveSourceReloadSettles(sourceId: string, title: string, state: ProvidersState,
                                  reduce: (ProvidersState, Event) -> ProvidersState,
                                  page: Result<seq<Source>, ApiError>, count: Result<nat, ApiError>, settle: Settle)
    ensures var events := RemoveSource(sourceId, title, state, reduce, Success(()), page, count, settle).events;
      Settled(LoadEntitiesAction, events[..|events| - 2])
  {
    var start := RemoveSourcePending(sourceId);
    var events := RemoveSource(sourceId, title, state, reduce, Success(()), page, count, settle).events;
    var reload := LoadEntities(Given(None), Given(Some(true)), reduce(state, start), page, count, settle);
    LoadEntitiesLifecycle(Given(None), Given(Some(true)), reduce(state, start), page, count, settle);
    assert events[..|events| - 2] == [start] + reload.events;
    ReplayConcat(LoadEntitiesAction, Idle, [start], reload.events);
  }

  /** A removal enqueues exactly one success notification, with its title,
      when the deletion succeeds, and none when it fails. */
  lemma RemoveSourceNotifies(sourceId: string, title: string, state: ProvidersState,
                             reduce: (ProvidersState, Event) -> ProvidersState,
                             removal: Result<(), ApiError>,
                             page: Result<seq<Source>, ApiError>, count: Result<nat, ApiError>, settle: Settle)
    ensures Notifications(RemoveSource(sourceId, title, state, reduce, removal, page, count, settle).events)
         == (if removal.Success? then [Notification(title, SuccessVariant, None, true, None)] else [])
  {
    if removal.Success? {
      var start := RemoveSourcePending(sourceId);
      var reload := LoadEntities(Given(None), Given(Some(true)), reduce(state, start), page, count, settle);
      LoadEntitiesLifecycle(Given(None), Given(Some(true)), reduce(state, start), page, count, settle);
      NotificationsConcat([start] + reload.events, SuccessTail(sourceId, title));
      NotificationsConcat([start], reload.events);
    }
  }

  /** A removal reloads the list exactly once when the deletion succeeds,
      and not at all when it fails. */
  lemma RemoveSourceReloadsOnce(sourceId: string, title: string, state: ProvidersState,
                                reduce: (ProvidersState, Event) -> ProvidersState,
                                removal: Result<(), ApiError>,
                                page: Result<seq<Source>, ApiError>, count: Result<nat, ApiError>, settle: Settle)
    ensures LoadStarts(RemoveSource(sourceId, title, state, reduce, removal, page, count, settle).events)
         == (if removal.Success? then 1 else 0)
  {
  }

  /** `removeApplication(appId, sourceId, successTitle, errorTitle)`: one
      dispatch carrying the deferred deletion and the metadata the promise
      middleware reads; it names a notification for fulfilment only, so a
      failed deletion shows none. Nothing is called or enqueued directly. */
  function RemoveApplicationAction(appId: string, sourceId: string, successTitle: string, errorTitle: string): (r: Run)
    ensures |r.events| == 1 && r.calls == [] && Notifications(r.events) == []
    ensures r.events[0].RemoveApplication?
    ensures r.events[0].deferred == DeleteApplicationLater(appId, errorTitle)
    ensures r.events[0].meta.appId == appId && r.events[0].meta.sourceId == sourceId
    ensures r.events[0].meta.notifications == NotificationsMeta(None, Some(Descriptor(SuccessVariant, successTitle, true)), None)
  {
    var notifications := NotificationsMeta(None, Some(Descriptor(SuccessVariant, successTitle, true)), None);
    Run([RemoveApplication(DeleteApplicationLater(appId, errorTitle), RemoveApplicationMeta(appId, sourceId, notifications))], [])
  }
}
