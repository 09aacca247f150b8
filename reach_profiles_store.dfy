/**
 * The reach-profiles list store: it keeps the list filters (page size and
 * index), runs one profile-list query at a time, and publishes a
 * `{loading, errorMessage}` state and an `{items, totalCount}` data cell.
 *
 * The reactive subjects become plain fields; the in-flight query
 * subscription is the request it was made for; browser local storage is a
 * map from keys to numbers.
 */
module ReachProfiles {
  import opened Wrappers
  import opened Paging

  datatype ReachProfilesFilters = ReachProfilesFilters(pageSize: int, pageIndex: int)

  /** A vendor credit account; its `credit` is -9999 for an unlimited account. */
  datatype VendorCredit = VendorCredit(credit: real)
  datatype ReachProfile = ReachProfile(id: int, name: string, credit: VendorCredit, usedCredit: real)

  /** A profile as the list shows it: every field of the profile plus what credit remains. */
  datatype ProfileWithCredit = ProfileWithCredit(profile: ReachProfile, remaining: real)

  datatype ProfileListResponse = ProfileListResponse(objects: seq<ReachProfile>, totalCount: int)

  datatype ProfileOrderBy = CreatedAtDesc
  datatype ProfileListRequest = ProfileListRequest(orderBy: ProfileOrderBy, pager: Option<FilterPager>)

  datatype QueryState = QueryState(loading: bool, errorMessage: Option<string>)
  datatype ProfilesData = ProfilesData(items: seq<ProfileWithCredit>, totalCount: int)

  /** What a failed request may deliver: an error object, a bare string, or anything else (`null` included). */
  datatype QueryError = ErrorObject(message: Option<string>) | ErrorString(text: string) | OtherError

  const UnlimitedCredit: real := -9999.0
  const PageSizeKey: string := "reach.profiles.list.pageSize"

  /** The fields of a partial filter update; an `undefined` field is `None`. */
  class FilterUpdates {
    var pageSize: Option<int>
    var pageIndex: Option<int>

    constructor (pageSize: Option<int>, pageIndex: Option<int>)
      ensures this.pageSize == pageSize && this.pageIndex == pageIndex
    {
      this.pageSize := pageSize;
      this.pageIndex := pageIndex;
    }
  }

  /** The remaining credit of one profile, given the two-decimal rounding as `roundToCents`. */
  ghost predicate RemainingOf(p: ReachProfile, remaining: real, roundToCents: real -> real)
  {
    if p.credit.credit != UnlimitedCredit then remaining == roundToCents(p.credit.credit - p.usedCredit)
    else remaining == UnlimitedCredit
  }

  /** `objects` is `profiles`, one to one and in order, each with its remaining credit. */
  ghost predicate IsCreditView(objects: seq<ProfileWithCredit>, profiles: seq<ReachProfile>, roundToCents: real -> real)
  {
    && |objects| == |profiles|
    && forall i :: 0 <= i < |profiles| ==>
         objects[i].profile == profiles[i] && RemainingOf(profiles[i], objects[i].remaining, roundToCents)
  }

  /** The response mapping of `_buildQueryRequest`: a `forEach` that pushes each profile with its credit. */
  method MapProfiles(profiles: seq<ReachProfile>, roundToCents: real -> real) returns (objects: seq<ProfileWithCredit>)
    ensures IsCreditView(objects, profiles, roundToCents)
    ensures forall i :: 0 <= i < |profiles| && profiles[i].credit.credit == UnlimitedCredit ==>
              objects[i].remaining == UnlimitedCredit
  {
    objects := [];
    var i := 0;
    while i < |profiles|
      invariant 0 <= i <= |profiles|
      invariant IsCreditView(objects, profiles[..i], roundToCents)
    {
      var profile := profiles[i];
      var remaining := if profile.credit.credit != UnlimitedCredit
                       then roundToCents(profile.credit.credit - profile.usedCredit)
                       else UnlimitedCredit;
      objects := objects + [ProfileWithCredit(profile, remaining)];
      i := i + 1;
    }
    assert profiles[..i] == profiles;
  }

  /**
   * The published error message: the error's own non-empty message, else
   * the error itself when it is a string, else "invalid error".
   */
  function ErrorMessageOf(e: QueryError): (m: string)
    ensures e.ErrorObject? && e.message.Some? && e.message.value != "" ==> m == e.message.value
    ensures e.ErrorString? ==> m == e.text
    ensures (e.ErrorObject? && (e.message.None? || e.message.value == "")) || e.OtherError? ==> m == "invalid error"
  {
    if e.ErrorObject? && e.message.Some? && e.message.value != "" then e.message.value
    else if e.ErrorString? then e.text
    else "invalid error"
  }

  /** Only an empty string error yields an empty message. */
  lemma ErrorMessageNonEmpty(e: QueryError)
    ensures ErrorMessageOf(e) == "" <==> e == ErrorString("")
  {
  }

  /** `_buildQueryRequest`'s request: newest first, with the one-based pager of the filters. */
  function QueryRequestFor(f: ReachProfilesFilters): (r: ProfileListRequest)
    ensures r.orderBy == CreatedAtDesc
    ensures r.pager.None? <==> f.pageIndex == 0 && f.pageSize == 0
    ensures r.pager.Some? ==> r.pager.value == FilterPager(f.pageSize, f.pageIndex + 1)
  {
    ProfileListRequest(CreatedAtDesc, PagerFor(f.pageIndex, f.pageSize))
  }

  function Lookup(storage: map<string, int>, key: string): Option<int>
  {
    if key in storage then Some(storage[key]) else None
  }

  /**
   * `_createDefaultFiltersValue`: the stored page size when it is truthy
   * (present and non-zero), else the global default; always the first page.
   */
  function DefaultFiltersValue(stored: Option<int>, globalDefaultPageSize: int): (r: ReachProfilesFilters)
    ensures r.pageIndex == 0
    ensures stored.Some? && stored.value != 0 ==> r.pageSize == stored.value
    ensures stored.None? || stored.value == 0 ==> r.pageSize == globalDefaultPageSize
  {
    ReachProfilesFilters(if stored.Some? && stored.value != 0 then stored.value else globalDefaultPageSize, 0)
  }

  /** Local storage after a query: the page size is written only when it is truthy. */
  function PersistPageSize(storage: map<string, int>, pageSize: int): (s: map<string, int>)
    ensures pageSize != 0 ==> Lookup(s, PageSizeKey) == Some(pageSize)
    ensures pageSize == 0 ==> s == storage
    ensures forall k :: k != PageSizeKey ==> Lookup(s, k) == Lookup(storage, k)
  {
    if pageSize != 0 then storage[PageSizeKey := pageSize] else storage
  }

  /**
   * The page size a query saves is the default a new store starts from; a
   * zero page size saves nothing and the old default stays.
   */
  lemma PageSizeSurvivesReload(storage: map<string, int>, pageSize: int, globalDefaultPageSize: int)
    ensures DefaultFiltersValue(Lookup(PersistPageSize(storage, pageSize), PageSizeKey), globalDefaultPageSize)
            == if pageSize != 0 then ReachProfilesFilters(pageSize, 0)
               else DefaultFiltersValue(Lookup(storage, PageSizeKey), globalDefaultPageSize)
  {
  }

  class ReachProfilesStore {
    var isReady: bool
    /** Whether the filter-change listener is registered. */
    var listening: bool
    /** The request of the query whose subscription is open, if any. */
    var inFlight: Option<ProfileListRequest>
    /** How many open query subscriptions were dropped by a newer query. */
    var cancelledQueries: nat
    var state: QueryState
    var data: ProfilesData
    var filters: ReachProfilesFilters
    var storage: map<string, int>

    /** A query is open exactly while loading; only a prepared store loads. */
    ghost predicate Valid()
      reads this
    {
      && (inFlight.Some? <==> state.loading)
      && (listening <==> isReady)
      && (state.loading ==> isReady && state.errorMessage.None?)
    }

    /** What starting a query leaves behind, relative to the state before it. */
    twostate predicate StartedQuery()
      reads this
    {
      && state == QueryState(true, None)
      && inFlight == Some(QueryRequestFor(old(filters)))
      && cancelledQueries == old(cancelledQueries) + (if old(inFlight).Some? then 1 else 0)
      && storage == PersistPageSize(old(storage), old(filters.pageSize))
      && data == old(data) && filters == old(filters)
    }

    /**
     * A new store: empty data, not loading, not ready, and the filters
     * defaulted from local storage.
     */
    constructor (storage: map<string, int>, globalDefaultPageSize: int)
      ensures Valid()
      ensures !isReady && !listening && inFlight.None? && cancelledQueries == 0
      ensures state == QueryState(false, None) && data == ProfilesData([], 0)
      ensures filters == DefaultFiltersValue(Lookup(storage, PageSizeKey), globalDefaultPageSize)
      ensures this.storage == storage
    {
      isReady, listening := false, false;
      inFlight, cancelledQueries := None, 0;
      state := QueryState(false, None);
      data := ProfilesData([], 0);
      filters := DefaultFiltersValue(Lookup(storage, PageSizeKey), globalDefaultPageSize);
      this.storage := storage;
    }

    /**
     * `_executeQuery`: drop the open query, save a truthy page size, publish
     * the loading state and open a query for the current filters.
     */
    method ExecuteQuery()
      requires Valid() && isReady
      modifies this
      ensures Valid() && StartedQuery()
      ensures isReady == old(isReady) && listening == old(listening)
    {
      if inFlight.Some? {
        cancelledQueries := cancelledQueries + 1;
        inFlight := None;
      }
      var pageSize := filters.pageSize;
      if pageSize != 0 {
        storage := storage[PageSizeKey := pageSize];
      }
      state := QueryState(true, None);
      inFlight := Some(QueryRequestFor(filters));
    }

    /** The success callback of the open query: stop loading and replace the data. */
    method OnSuccess(response: ProfileListResponse, roundToCents: real -> real)
      requires Valid() && inFlight.Some?
      modifies this
      ensures Valid()
      ensures inFlight.None? && state == QueryState(false, None)
      ensures IsCreditView(data.items, response.objects, roundToCents)
      ensures data.totalCount == response.totalCount
      ensures isReady == old(isReady) && listening == old(listening) && filters == old(filters)
      ensures storage == old(storage) && cancelledQueries == old(cancelledQueries)
    {
      var objects := MapProfiles(response.objects, roundToCents);
      inFlight := None;
      state := QueryState(false, None);
      data := ProfilesData(objects, response.totalCount);
    }

    /** The error callback of the open query: stop loading and publish the message; data stays. */
    method OnError(error: QueryError)
      requires Valid() && inFlight.Some?
      modifies this
      ensures Valid()
      ensures inFlight.None? && state == QueryState(false, Some(ErrorMessageOf(error)))
      ensures data == old(data)
      ensures isReady == old(isReady) && listening == old(listening) && filters == old(filters)
      ensures storage == old(storage) && cancelledQueries == old(cancelledQueries)
    {
      inFlight := None;
      var errorMessage := ErrorMessageOf(error);
      state := QueryState(false, Some(errorMessage));
    }

    /** `_prepare`: the first call marks the store ready, registers the listener and runs a query. */
    method Prepare()
      requires Valid()
      modifies this
      ensures Valid()
      ensures old(isReady) ==> unchanged(this)
      ensures !old(isReady) ==> isReady && listening && StartedQuery()
    {
      if !isReady {
        isReady := true;
        listening := true;
        ExecuteQuery();
      }
    }

    /** `reload`: nothing while loading; otherwise a query, preparing the store first if needed. */
    method Reload()
      requires Valid()
      modifies this
      ensures Valid()
      ensures old(state.loading) ==> unchanged(this)
      ensures !old(state.loading) ==> isReady && listening && StartedQuery()
      ensures !old(state.loading) ==> cancelledQueries == old(cancelledQueries)
    {
      if state.loading {
        return;
      }
      if isReady {
        ExecuteQuery();
      } else {
        Prepare();
      }
    }

    /**
     * A change of the filters: they are replaced, and the listener that
     * `Prepare` registered starts a query, dropping any open one.
     */
    method OnFiltersChanged(newFilters: ReachProfilesFilters)
      requires Valid()
      modifies this
      ensures Valid()
      ensures filters == newFilters && isReady == old(isReady) && listening == old(listening)
      ensures listening ==> (state == QueryState(true, None) && inFlight == Some(QueryRequestFor(newFilters))
                             && cancelledQueries == old(cancelledQueries) + (if old(inFlight).Some? then 1 else 0)
                             && storage == PersistPageSize(old(storage), newFilters.pageSize)
                             && data == old(data))
      ensures !listening ==> (state == old(state) && inFlight == old(inFlight) && cancelledQueries == old(cancelledQueries)
                              && storage == old(storage) && data == old(data))
    {
      filters := newFilters;
      if listening {
        ExecuteQuery();
      }
    }

    /** `_preFilter`: an update that omits the page index is sent back to the first page. */
    method PreFilter(updates: FilterUpdates) returns (r: FilterUpdates)
      modifies updates
      ensures r == updates
      ensures updates.pageIndex == if old(updates.pageIndex).None? then Some(0) else old(updates.pageIndex)
      ensures updates.pageSize == old(updates.pageSize)
    {
      if updates.pageIndex.None? {
        updates.pageIndex := Some(0);
      }
      r := updates;
    }
  }
}
