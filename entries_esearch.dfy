/**
 * The entries list's translation of its filter record into a request for the
 * platform's elastic search ("eSearch") API: a list of search items combined
 * under one AND operator, then defaults for media types, object statuses and
 * sort order, and a one-based page request.
 *
 * Foreign parts are parameters (see `Environment`): the wall clock, the two
 * date conversions of the shared utilities library and the live-stream
 * permission.
 */
module EntriesEsearch {
  import opened Wrappers
  import opened Joins
  import opened Paging

  // ---------------------------------------------------------------- filters

  /** A date picked in the UI, by its millisecond timestamp. */
  datatype Date = Date(timestamp: int)

  /** A from/to pair of optional dates (`null` is `None`). */
  datatype DateRange = DateRange(fromDate: Option<Date>, toDate: Option<Date>)

  datatype SortDirection = Asc | Desc

  /** Whether selecting a category also selects its descendants. */
  datatype CategoriesMode = Self | SelfAndChildren

  /**
   * The entries list's filter record. Lists that the source may get as
   * `null` are empty sequences here, since every use reads them as `list || []`.
   */
  datatype EntriesFilters = EntriesFilters(
    freetext: string,
    pageSize: int,
    pageIndex: int,
    sortBy: string,
    sortDirection: SortDirection,
    createdAt: Option<DateRange>,
    scheduledAt: Option<DateRange>,
    mediaTypes: seq<string>,
    timeScheduling: seq<string>,
    ingestionStatuses: seq<string>,
    durations: seq<string>,
    originalClippedEntries: seq<string>,
    moderationStatuses: seq<string>,
    replacementStatuses: seq<string>,
    accessControlProfiles: seq<string>,
    flavors: seq<string>,
    distributions: seq<string>,
    categories: seq<string>,
    categoriesMode: CategoriesMode,
    customMetadata: map<string, seq<string>>,
    limits: int)

  // -------------------------------------------------------- search request

  datatype FieldName =
    | Name | CreatedAt | MediaType | LengthInMsecs | ModerationStatus
    | AccessControlId | StartDate | EndDate

  datatype ItemType = Partial | ExactMatch

  /** A numeric range; an absent bound is `undefined` in the source. */
  datatype Range = Range(greaterThanOrEqual: Option<int>, lessThanOrEqual: Option<int>)

  datatype SearchItem = SearchItem(
    fieldName: FieldName,
    searchTerm: Option<string>,
    itemType: Option<ItemType>,
    range: Option<Range>)

  datatype OperatorType = AndOp
  datatype SearchOperator = SearchOperator(operator: OperatorType, searchItems: seq<SearchItem>)

  datatype SortField = CreatedAtSort
  datatype SortOrder = OrderByAsc | OrderByDesc
  datatype OrderItem = OrderItem(sortField: SortField, sortOrder: SortOrder)
  datatype OrderBy = OrderBy(orderItems: seq<OrderItem>)

  datatype SearchParams = SearchParams(
    searchOperator: SearchOperator,
    objectStatuses: string,
    orderBy: Option<OrderBy>)

  /** The category item the source builds; it is never added to the request. */
  datatype CategoryField = AncestorId | CategoryId
  datatype CategoryEntryItem = CategoryEntryItem(searchTerm: string, fieldName: CategoryField)

  /** The request sent to the search action: the search parameters and the pager. */
  datatype SearchRequest = SearchRequest(searchParams: SearchParams, pager: Option<FilterPager>)

  /**
   * What the mapping reads from outside: one reading of the clock for the
   * whole call, the live-stream permission, and the library conversions of a
   * (possibly `null`) date to the start or the end of its day.
   */
  datatype Environment = Environment(
    now: int,
    liveStreamPermission: bool,
    startDateValue: Option<Date> -> int,
    endDateValue: Option<Date> -> int)

  const DefaultMediaTypes: string := "1,2,5,6"
  const LiveStreamMediaType: string := ",201"
  const DefaultObjectStatuses: string := "-1,-2,0,1,2,7,4"

  // ------------------------------------------------- specification functions

  /** The item a joined multi-select list contributes. */
  function JoinedListItem(list: seq<string>, fieldName: FieldName): SearchItem
  {
    SearchItem(fieldName, Some(Join(list)), None, None)
  }

  /** What `_updateSearchParamsWithJoinedList` pushes: one item when the join is non-empty, else nothing. */
  function JoinedItems(list: seq<string>, fieldName: FieldName): seq<SearchItem>
  {
    if Join(list) != "" then [JoinedListItem(list, fieldName)] else []
  }

  function FreetextItems(data: EntriesFilters): seq<SearchItem>
  {
    if data.freetext != "" then [SearchItem(Name, Some(data.freetext), Some(Partial), None)] else []
  }

  /** The createdAt range item: present when either date is, with only those bounds. */
  function CreatedAtItems(data: EntriesFilters, env: Environment): seq<SearchItem>
  {
    if data.createdAt.Some? && (data.createdAt.value.fromDate.Some? || data.createdAt.value.toDate.Some?) then
      var c := data.createdAt.value;
      [SearchItem(CreatedAt, None, None, Some(Range(
        if c.fromDate.Some? then Some(env.startDateValue(c.fromDate)) else None,
        if c.toDate.Some? then Some(env.endDateValue(c.toDate)) else None)))]
    else []
  }

  /** The items pushed before the time-scheduling loop, in push order. */
  function BaseItems(data: EntriesFilters, env: Environment): seq<SearchItem>
  {
    FreetextItems(data) + CreatedAtItems(data, env)
    + JoinedItems(data.durations, LengthInMsecs)
    + JoinedItems(data.moderationStatuses, ModerationStatus)
    + JoinedItems(data.accessControlProfiles, AccessControlId)
  }

  /** The predicate of one `searchItems.find(...)` call of the scheduling loop. */
  datatype Probe =
    | UpperBelow(field: FieldName, bound: int)   // fieldName === field && range.lessThanOrEqual < bound
    | LowerAbove(field: FieldName, bound: int)   // fieldName === field && range.greaterThanOrEqual > bound

  /** An `undefined` bound compares false with any number, so it never matches. */
  predicate Matches(item: SearchItem, p: Probe)
  {
    match p
    case UpperBelow(f, b) =>
      item.fieldName == f && item.range.Some? && item.range.value.lessThanOrEqual.Some?
      && item.range.value.lessThanOrEqual.value < b
    case LowerAbove(f, b) =>
      item.fieldName == f && item.range.Some? && item.range.value.greaterThanOrEqual.Some?
      && item.range.value.greaterThanOrEqual.value > b
  }

  /** `Array.prototype.find`: the first matching item, if any. */
  function Find(items: seq<SearchItem>, p: Probe): (r: Option<SearchItem>)
    ensures r.Some? <==> exists i :: 0 <= i < |items| && Matches(items[i], p)
    ensures r.Some? ==> exists i :: 0 <= i < |items| && items[i] == r.value && Matches(items[i], p)
                                      && forall j :: 0 <= j < i ==> !Matches(items[j], p)
  {
    if items == [] then None
    else if Matches(items[0], p) then Some(items[0])
    else
      var r := Find(items[1..], p);
      assert forall i :: 1 <= i < |items| ==> items[i] == items[1..][i - 1];
      r
  }

  function UpperItem(field: FieldName, bound: int): SearchItem
  {
    SearchItem(field, None, None, Some(Range(None, Some(bound))))
  }

  function LowerItem(field: FieldName, bound: int): SearchItem
  {
    SearchItem(field, None, None, Some(Range(Some(bound), None)))
  }

  /** The find-then-push pattern: push `item` unless some item matches `p`. */
  function PushUnlessFound(items: seq<SearchItem>, p: Probe, item: SearchItem): seq<SearchItem>
  {
    if Find(items, p).None? then items + [item] else items
  }

  /**
   * The `'scheduled'` case. As written, its `toDate` branch looks for an
   * endDate item but pushes a startDate item, and both its bounds are
   * computed from `fromDate`.
   */
  function ScheduledItems(items: seq<SearchItem>, sched: DateRange, env: Environment): seq<SearchItem>
  {
    var items :=
      if sched.fromDate.Some? then
        var from := env.startDateValue(sched.fromDate);
        PushUnlessFound(items, LowerAbove(StartDate, from), LowerItem(StartDate, from))
      else items;
    if sched.toDate.Some? then
      var to := env.endDateValue(sched.fromDate);
      PushUnlessFound(items, UpperBelow(EndDate, to), UpperItem(StartDate, to))
    else items
  }

  /** `'scheduled'` dereferences `scheduledAt`, so it must be present whenever that value is selected. */
  predicate SchedulingReadable(ts: seq<string>, scheduledAt: Option<DateRange>)
  {
    "scheduled" in ts ==> scheduledAt.Some?
  }

  /** One iteration of the `timeScheduling.forEach` switch. */
  function ScheduleStep(items: seq<SearchItem>, value: string, scheduledAt: Option<DateRange>, env: Environment): seq<SearchItem>
    requires value == "scheduled" ==> scheduledAt.Some?
  {
    if value == "past" then PushUnlessFound(items, UpperBelow(EndDate, env.now), UpperItem(EndDate, env.now))
    else if value == "live" then PushUnlessFound(items, UpperBelow(StartDate, env.now), UpperItem(StartDate, env.now))
    else if value == "future" then PushUnlessFound(items, LowerAbove(StartDate, env.now), LowerItem(StartDate, env.now))
    else if value == "scheduled" then ScheduledItems(items, scheduledAt.value, env)
    else items
  }

  /** The whole scheduling loop: the steps applied in list order. */
  function Schedule(items: seq<SearchItem>, ts: seq<string>, scheduledAt: Option<DateRange>, env: Environment): seq<SearchItem>
    requires SchedulingReadable(ts, scheduledAt)
    decreases |ts|
  {
    if ts == [] then items
    else
      assert ts[0] in ts && forall x :: x in ts[1..] ==> x in ts;
      Schedule(ScheduleStep(items, ts[0], scheduledAt, env), ts[1..], scheduledAt, env)
  }

  /** The media-type item: the user's joined list, or the exact-match default. */
  function MediaTypeItem(data: EntriesFilters, env: Environment): SearchItem
  {
    var mediaTypes := Join(data.mediaTypes);
    if mediaTypes != "" then SearchItem(MediaType, Some(mediaTypes), None, None)
    else DefaultMediaTypeItem(env)
  }

  function DefaultMediaTypeItem(env: Environment): SearchItem
  {
    var mediaTypeIn := if env.liveStreamPermission then DefaultMediaTypes + LiveStreamMediaType else DefaultMediaTypes;
    SearchItem(MediaType, Some(mediaTypeIn), Some(ExactMatch), None)
  }

  function ObjectStatusesOf(data: EntriesFilters): string
  {
    var statuses := Join(data.ingestionStatuses);
    if statuses != "" then statuses else DefaultObjectStatuses
  }

  function OrderByOf(data: EntriesFilters): Option<OrderBy>
  {
    if data.sortBy != "" then
      Some(OrderBy([OrderItem(CreatedAtSort, if data.sortDirection == Desc then OrderByDesc else OrderByAsc)]))
    else None
  }

  /** The search parameters `getServerFilter` emits for `data`. */
  function ServerFilter(data: EntriesFilters, env: Environment): SearchParams
    requires SchedulingReadable(data.timeScheduling, data.scheduledAt)
  {
    SearchParams(
      SearchOperator(AndOp, Schedule(BaseItems(data, env), data.timeScheduling, data.scheduledAt, env)
                            + [MediaTypeItem(data, env)]),
      ObjectStatusesOf(data),
      OrderByOf(data))
  }

  // -------------------------------------------------------------- operations

  /**
   * `_updateSearchParamsWithJoinedList`: push one item carrying the joined
   * list and the field when the join is non-empty, else leave the list alone.
   */
  method UpdateWithJoinedList(list: seq<string>, searchItems: seq<SearchItem>, fieldName: FieldName)
    returns (r: seq<SearchItem>)
    ensures Join(list) != "" ==> r == searchItems + [SearchItem(fieldName, Some(Join(list)), None, None)]
    ensures Join(list) == "" ==> r == searchItems
  {
    var value := Join(list);
    r := searchItems;
    if value != "" {
      r := r + [SearchItem(fieldName, Some(value), None, None)];
    }
  }

  /** The createdAt part of `getServerFilter`: one range item holding a bound for each date that is set. */
  method PushCreatedAt(data: EntriesFilters, env: Environment, searchItems: seq<SearchItem>) returns (r: seq<SearchItem>)
    ensures r == searchItems + CreatedAtItems(data, env)
  {
    r := searchItems;
    if data.createdAt.Some? && (data.createdAt.value.fromDate.Some? || data.createdAt.value.toDate.Some?) {
      var createdAt := data.createdAt.value;
      var range := Range(None, None);
      if createdAt.fromDate.Some? {
        range := range.(greaterThanOrEqual := Some(env.startDateValue(createdAt.fromDate)));
      }
      if createdAt.toDate.Some? {
        range := range.(lessThanOrEqual := Some(env.endDateValue(createdAt.toDate)));
      }
      r := r + [SearchItem(CreatedAt, None, None, Some(range))];
    }
  }

  /** The pushes of `getServerFilter` that come before the time-scheduling loop. */
  method PushFilterItems(data: EntriesFilters, env: Environment) returns (searchItems: seq<SearchItem>)
    ensures searchItems == BaseItems(data, env)
  {
    searchItems := [];
    if data.freetext != "" {
      searchItems := searchItems + [SearchItem(Name, Some(data.freetext), Some(Partial), None)];
    }
    assert searchItems == FreetextItems(data);

    searchItems := PushCreatedAt(data, env, searchItems);
    assert searchItems == FreetextItems(data) + CreatedAtItems(data, env);

    ghost var base := FreetextItems(data) + CreatedAtItems(data, env);
    searchItems := UpdateWithJoinedList(data.durations, searchItems, LengthInMsecs);
    assert searchItems == base + JoinedItems(data.durations, LengthInMsecs);
    searchItems := UpdateWithJoinedList(data.moderationStatuses, searchItems, ModerationStatus);
    assert searchItems == base + JoinedItems(data.durations, LengthInMsecs)
                          + JoinedItems(data.moderationStatuses, ModerationStatus);
    searchItems := UpdateWithJoinedList(data.accessControlProfiles, searchItems, AccessControlId);

    assert searchItems == BaseItems(data, env);
  }

  /** One iteration of the `timeScheduling.forEach`: a find-then-push per recognised value. */
  method ApplyTimeScheduling(searchItems: seq<SearchItem>, item: string, scheduledAt: Option<DateRange>, env: Environment)
    returns (r: seq<SearchItem>)
    requires item == "scheduled" ==> scheduledAt.Some?
    ensures r == ScheduleStep(searchItems, item, scheduledAt, env)
  {
    r := searchItems;
    if item == "past" {
      var found := Find(r, UpperBelow(EndDate, env.now));
      if found.None? {
        r := r + [SearchItem(EndDate, None, None, Some(Range(None, Some(env.now))))];
      }
    } else if item == "live" {
      var found := Find(r, UpperBelow(StartDate, env.now));
      if found.None? {
        r := r + [SearchItem(StartDate, None, None, Some(Range(None, Some(env.now))))];
      }
    } else if item == "future" {
      var found := Find(r, LowerAbove(StartDate, env.now));
      if found.None? {
        r := r + [SearchItem(StartDate, None, None, Some(Range(Some(env.now), None)))];
      }
    } else if item == "scheduled" {
      var sched := scheduledAt.value;
      if sched.fromDate.Some? {
        var from := env.startDateValue(sched.fromDate);
        var found := Find(r, LowerAbove(StartDate, from));
        if found.None? {
          r := r + [SearchItem(StartDate, None, None, Some(Range(Some(from), None)))];
        }
      }
      if sched.toDate.Some? {
        var to := env.endDateValue(sched.fromDate);
        var found := Find(r, UpperBelow(EndDate, to));
        if found.None? {
          r := r + [SearchItem(StartDate, None, None, Some(Range(None, Some(to))))];
        }
      }
    }
  }

  /** The `timeScheduling.forEach` loop: each value's find-then-push, in list order. */
  method ApplyAllTimeScheduling(items: seq<SearchItem>, ts: seq<string>, scheduledAt: Option<DateRange>, env: Environment)
    returns (r: seq<SearchItem>)
    requires SchedulingReadable(ts, scheduledAt)
    ensures r == Schedule(items, ts, scheduledAt, env)
  {
    r := items;
    var i := 0;
    assert ts[i..] == ts;
    while i < |ts|
      invariant 0 <= i <= |ts|
      invariant SchedulingReadable(ts[i..], scheduledAt)
      invariant Schedule(r, ts[i..], scheduledAt, env)
                == Schedule(items, ts, scheduledAt, env)
    {
      assert ts[i..][0] == ts[i];
      r := ApplyTimeScheduling(r, ts[i], scheduledAt, env);
      assert ts[i..][1..] == ts[i + 1..];
      i := i + 1;
    }
    assert ts[i..] == [];
  }

  /** `getServerFilter`'s mapping: builds the items by pushing, then fills in the defaults. */
  method GetServerFilter(data: EntriesFilters, env: Environment) returns (searchParams: SearchParams)
    requires SchedulingReadable(data.timeScheduling, data.scheduledAt)
    ensures searchParams == ServerFilter(data, env)
  {
    var searchItems: seq<SearchItem>;
    var mediaTypeSearchItem: Option<SearchItem> := None;
    var objectStatuses: Option<string> := None;

    var mediaTypes := Join(data.mediaTypes);
    if mediaTypes != "" {
      mediaTypeSearchItem := Some(SearchItem(MediaType, Some(mediaTypes), None, None));
    }
    var statuses := Join(data.ingestionStatuses);
    if statuses != "" {
      objectStatuses := Some(statuses);
    }
    searchItems := PushFilterItems(data, env);
    searchItems := ApplyAllTimeScheduling(searchItems, data.timeScheduling, data.scheduledAt, env);

    if |data.categories| > 0 {
      // Built exactly as the source builds it, and, as there, never pushed.
      var categoriesSearchItem := CategoryEntryItem(Join(data.categories),
        if data.categoriesMode == SelfAndChildren then AncestorId else CategoryId);
    }

    if mediaTypeSearchItem.None? {
      var mediaTypeIn := DefaultMediaTypes;
      if env.liveStreamPermission {
        mediaTypeIn := mediaTypeIn + LiveStreamMediaType;
      }
      mediaTypeSearchItem := Some(SearchItem(MediaType, Some(mediaTypeIn), Some(ExactMatch), None));
    }
    assert mediaTypeSearchItem.value == MediaTypeItem(data, env);
    searchItems := searchItems + [mediaTypeSearchItem.value];

    if objectStatuses.None? {
      objectStatuses := Some(DefaultObjectStatuses);
    }

    var orderBy: Option<OrderBy> := None;
    if data.sortBy != "" {
      orderBy := Some(OrderBy([OrderItem(CreatedAtSort,
        if data.sortDirection == Desc then OrderByDesc else OrderByAsc)]));
    }

    assert objectStatuses.value == ObjectStatusesOf(data);
    assert orderBy == OrderByOf(data);
    searchParams := SearchParams(SearchOperator(AndOp, searchItems), objectStatuses.value, orderBy);
  }

  /** `executeQuery`'s request: the server filter together with the one-based pager. */
  method ExecuteQuery(data: EntriesFilters, env: Environment) returns (request: SearchRequest)
    requires SchedulingReadable(data.timeScheduling, data.scheduledAt)
    ensures request.searchParams == ServerFilter(data, env)
    ensures request.pager == PagerFor(data.pageIndex, data.pageSize)
  {
    var pager: Option<FilterPager> := None;
    if data.pageIndex != 0 || data.pageSize != 0 {
      pager := Some(FilterPager(data.pageSize, data.pageIndex + 1));
    }
    var searchParams := GetServerFilter(data, env);
    request := SearchRequest(searchParams, pager);
  }

  /**
   * `getDefaultFilterValues`: the saved categories mode when it is a number
   * (`None` stands for any non-number), else SelfAndChildren; first page,
   * newest first, 200 as the limit, every list empty.
   */
  function DefaultFilterValues(savedAutoSelectChildren: Option<CategoriesMode>, pageSize: int): (r: EntriesFilters)
    ensures r.categoriesMode == savedAutoSelectChildren.GetOr(SelfAndChildren)
    ensures r.pageSize == pageSize && r.pageIndex == 0 && r.limits == 200
    ensures r.sortBy == "createdAt" && r.sortDirection == Desc && r.freetext == ""
    ensures r.createdAt == Some(DateRange(None, None)) && r.scheduledAt == Some(DateRange(None, None))
    ensures r.mediaTypes == r.timeScheduling == r.ingestionStatuses == r.durations == []
    ensures r.originalClippedEntries == r.moderationStatuses == r.replacementStatuses == []
    ensures r.accessControlProfiles == r.flavors == r.distributions == r.categories == []
    ensures r.customMetadata == map[]
  {
    var categoriesMode := if savedAutoSelectChildren.Some? then savedAutoSelectChildren.value else SelfAndChildren;
    EntriesFilters(
      freetext := "",
      pageSize := pageSize,
      pageIndex := 0,
      sortBy := "createdAt",
      sortDirection := Desc,
      createdAt := Some(DateRange(None, None)),
      scheduledAt := Some(DateRange(None, None)),
      mediaTypes := [],
      timeScheduling := [],
      ingestionStatuses := [],
      durations := [],
      originalClippedEntries := [],
      moderationStatuses := [],
      replacementStatuses := [],
      accessControlProfiles := [],
      flavors := [],
      distributions := [],
      categories := [],
      categoriesMode := categoriesMode,
      customMetadata := map[],
      limits := 200)
  }
}
