# kmc-ng: entries eSearch mapping, reach-profiles store, media-types filter

A Dafny model of three parts of the Kaltura management console (kmc-ng), an
Angular admin application:

- **Entries eSearch data provider** (`EntriesEsearch`, `EntriesEsearchProperties`).
  `getServerFilter` turns the entries list's filter record into elastic-search
  parameters. It builds a list of search items under one AND operator:
  free text, a createdAt range, the joined multi-select lists, then the
  find-then-push loop over the time-scheduling values. It appends the
  media-type item last, and falls back to default media types (with the live
  type only when the user has the live-stream permission), to default object
  statuses and to order by createdAt. `executeQuery` adds the one-based pager.
  `getDefaultFilterValues` builds the initial filter record. The mapping is
  written as methods that push step by step, as the source does. Each method
  is proved equal to the specification function `ServerFilter`. The lemmas
  about the request are stated over `ServerFilter`.
- **Reach profiles store** (`ReachProfiles`). A class holding the list
  filters, the published `{loading, errorMessage}` state, the
  `{items, totalCount}` data, the open query and browser local storage.
  Its methods cover `_executeQuery` and its two callbacks, `_prepare`,
  `reload`, the filter-change listener and `_preFilter`. It also has the
  request built by `_buildQueryRequest`, its response mapping (a loop
  computing each profile's remaining credit) and `_createDefaultFiltersValue`.
  The invariant `Valid()` ties "a query is open" to "loading" and "loading"
  to "ready". Every method keeps it.
- **Media-types filter** (`MediaTypesFilter`). The reducer that folds the
  selected values into `mediaTypeIn`. It is proved to equal the comma-join of
  the values after the leading empty ones.

Shared pieces: `Wrappers.Option`, `Joins.Join` (the array join with a comma),
and `Paging.PagerFor` (the pager rule both list stores use).

Values from outside are parameters. On the eSearch side, `Environment` holds
the clock reading, the live-stream permission and the two date conversions of
the shared utilities library. On the reach side, the two-decimal rounding of
the remaining credit is the function `roundToCents`.

## Model

| member | source | states |
|---|---|---|
| `Joins.JoinEmptyIff` | src/shared/content-shared/entries/entries-store/entries-store-esearch-data-provider.service.ts:49-51 | a joined list is empty (falsy) iff the list is empty or is one empty string |
| `Paging.PagerFor` | src/shared/content-shared/entries/entries-store/entries-store-esearch-data-provider.service.ts:375-385 | no pager iff both page index and page size are 0; otherwise the page size is kept and the page index becomes one-based |
| `EntriesEsearch.Find` | src/shared/content-shared/entries/entries-store/entries-store-esearch-data-provider.service.ts:195-199 | finds something iff some item matches the probe, and what it finds is the first matching item |
| `EntriesEsearch.UpdateWithJoinedList` | src/shared/content-shared/entries/entries-store/entries-store-esearch-data-provider.service.ts:46-58 | appends exactly one item, holding the joined list and the field, when the join is non-empty; otherwise the list is unchanged |
| `EntriesEsearch.PushCreatedAt` | src/shared/content-shared/entries/entries-store/entries-store-esearch-data-provider.service.ts:101-117 | appends the createdAt range item exactly when either date is set, with a bound for each date that is present |
| `EntriesEsearch.PushFilterItems` | src/shared/content-shared/entries/entries-store/entries-store-esearch-data-provider.service.ts:90-134 | the items pushed before the scheduling loop are free text, createdAt, durations, moderation statuses and access-control profiles, in that order |
| `EntriesEsearch.ApplyTimeScheduling` | src/shared/content-shared/entries/entries-store/entries-store-esearch-data-provider.service.ts:191-266 | one pass of the scheduling switch, with each find-then-push, equals the step function `ScheduleStep` |
| `EntriesEsearch.ApplyAllTimeScheduling` | src/shared/content-shared/entries/entries-store/entries-store-esearch-data-provider.service.ts:190-268 | the scheduling loop applies the steps in list order (`Schedule`) |
| `EntriesEsearch.GetServerFilter` | src/shared/content-shared/entries/entries-store/entries-store-esearch-data-provider.service.ts:76-367 | the step-by-step mapping yields exactly `ServerFilter(data, env)`, about which the lemmas below are proved |
| `EntriesEsearch.ExecuteQuery` | src/shared/content-shared/entries/entries-store/entries-store-esearch-data-provider.service.ts:370-398 | the request carries the server filter and the one-based pager of the filters |
| `EntriesEsearch.DefaultFilterValues` | src/shared/content-shared/entries/entries-store/entries-store-esearch-data-provider.service.ts:400-427 | the saved categories mode when there is one, else SelfAndChildren; first page, createdAt descending, limit 200, both date ranges empty, every list empty |
| `EntriesEsearchProperties.StepAppendsDateItems` | src/shared/content-shared/entries/entries-store/entries-store-esearch-data-provider.service.ts:193-266 | a scheduling step keeps every earlier item in place and appends at most two items, all on startDate or endDate |
| `EntriesEsearchProperties.ScheduleOnlyAppendsDateItems` | src/shared/content-shared/entries/entries-store/entries-store-esearch-data-provider.service.ts:190-268 | the whole loop keeps the earlier items as a prefix and adds at most two startDate/endDate items per value |
| `EntriesEsearchProperties.ScheduleKeepsOtherFields` | src/shared/content-shared/entries/entries-store/entries-store-esearch-data-provider.service.ts:191-267 | on every field other than startDate and endDate, the loop leaves the items exactly as they were |
| `EntriesEsearchProperties.OnlyOfRequestParts` | src/shared/content-shared/entries/entries-store/entries-store-esearch-data-provider.service.ts:86-340 | on each non-date field the request holds exactly that field's own contribution (free text, createdAt, a joined list or the media-type item) |
| `EntriesEsearchProperties.FreetextItemIff` | src/shared/content-shared/entries/entries-store/entries-store-esearch-data-provider.service.ts:91-99 | a name item exists iff the free text is non-empty; it is then the only one, a partial match on that text |
| `EntriesEsearchProperties.CreatedAtItemIff` | src/shared/content-shared/entries/entries-store/entries-store-esearch-data-provider.service.ts:102-116 | at most one createdAt item; it exists iff either date is set, and it has a start-of-day or end-of-day bound exactly for the dates present |
| `EntriesEsearchProperties.CategoriesNeverAddItem` | src/shared/content-shared/entries/entries-store/entries-store-esearch-data-provider.service.ts:308-319 | the categories item is built but never added: changing categories or their mode leaves the request unchanged |
| `EntriesEsearchProperties.MediaTypeItemIsLast` | src/shared/content-shared/entries/entries-store/entries-store-esearch-data-provider.service.ts:340 | the request is never empty; its last item is the media-type item, and that is its only media-type item |
| `EntriesEsearchProperties.MediaTypeItemTerm` | src/shared/content-shared/entries/entries-store/entries-store-esearch-data-provider.service.ts:326-338 | the media-type item is the joined selection when that is non-empty; otherwise an exact match on "1,2,5,6", with ",201" added iff the live-stream permission is held |
| `EntriesEsearchProperties.ObjectStatusesNeverEmpty` | src/shared/content-shared/entries/entries-store/entries-store-esearch-data-provider.service.ts:342-345 | object statuses are the joined ingestion statuses when non-empty, else "-1,-2,0,1,2,7,4"; never empty |
| `EntriesEsearchProperties.OrderByFollowsSortBy` | src/shared/content-shared/entries/entries-store/entries-store-esearch-data-provider.service.ts:347-360 | an order-by exists iff a sort field is set; it is one createdAt item, descending iff the direction is Desc |
| `EntriesEsearchProperties.RelativeSchedulingPushesUnlessFound` | src/shared/content-shared/entries/entries-store/entries-store-esearch-data-provider.service.ts:194-232 | 'past', 'live' and 'future' each append their item bounded by now exactly when no existing item matches their find test |
| `EntriesEsearchProperties.UnrecognisedSchedulingIgnored` | src/shared/content-shared/entries/entries-store/entries-store-esearch-data-provider.service.ts:264-265 | values the switch does not recognise leave the items as they are |
| `EntriesEsearchProperties.ScheduledToDatePushesStartDate` | src/shared/content-shared/entries/entries-store/entries-store-esearch-data-provider.service.ts:249-262 | the 'scheduled' toDate branch only ever adds a startDate item, bounded above by the end-of-day value of fromDate, and adds it unless an endDate item ends before that value |
| `EntriesEsearchProperties.RepeatedPastWithOneClockReading` | src/shared/content-shared/entries/entries-store/entries-store-esearch-data-provider.service.ts:194-206 | with one clock reading, 'past' listed twice pushes two identical endDate items, because the strict find test does not match the first one |
| `EntriesEsearchProperties.DefaultsGiveDefaultSearch` | src/shared/content-shared/entries/entries-store/entries-store-esearch-data-provider.service.ts:400-427 | the default filter record maps to the default media-type item alone, the default statuses and createdAt descending, with a first-page pager iff the page size is non-zero |
| `MediaTypesFilter.ApplyMediaTypesFilter` | src/shared/kmc-content-ui/entries-store/filters/media-types-filter.ts:14-20 | only `mediaTypeIn` changes, and it becomes the comma-join of the values after the leading empty ones |
| `MediaTypesFilter.FoldFromNonEmpty` | src/shared/kmc-content-ui/entries-store/filters/media-types-filter.ts:16-19 | once the accumulator is non-empty, each further value is added after exactly one comma |
| `MediaTypesFilter.MediaTypeInIsJoin` | src/shared/kmc-content-ui/entries-store/filters/media-types-filter.ts:16-19 | the reduction from '' equals the join of the values with the leading empty ones dropped |
| `MediaTypesFilter.EmptyItemsGiveEmpty` | src/shared/kmc-content-ui/entries-store/filters/media-types-filter.ts:16-19 | no selected values give the empty string |
| `MediaTypesFilter.NonEmptyValuesJoin` | src/shared/kmc-content-ui/entries-store/filters/media-types-filter.ts:16-19 | when every value is non-empty, the result is exactly the values joined by single commas |
| `MediaTypesFilter.NeverStartsWithComma` | src/shared/kmc-content-ui/entries-store/filters/media-types-filter.ts:18 | the result never starts with a comma unless a selected value does |
| `ReachProfiles.MapProfiles` | src/applications/settings-reach-app/reach-profiles/reach-profiles-store/reach-profiles-store.service.ts:129-137 | one output per profile, in order, each with every profile field and its remaining credit: the rounded credit minus used credit, or -9999 for an unlimited account |
| `ReachProfiles.ErrorMessageOf` | src/applications/settings-reach-app/reach-profiles/reach-profiles-store/reach-profiles-store.service.ts:93 | the error's non-empty message, else the error when it is a string, else "invalid error" |
| `ReachProfiles.ErrorMessageNonEmpty` | src/applications/settings-reach-app/reach-profiles/reach-profiles-store/reach-profiles-store.service.ts:93 | the published message is empty iff the error is the empty string |
| `ReachProfiles.QueryRequestFor` | src/applications/settings-reach-app/reach-profiles/reach-profiles-store/reach-profiles-store.service.ts:99-117 | newest first; no pager iff page index and page size are both 0, else the one-based pager |
| `ReachProfiles.DefaultFiltersValue` | src/applications/settings-reach-app/reach-profiles/reach-profiles-store/reach-profiles-store.service.ts:152-158 | page index 0; the stored page size when present and non-zero, else the global default |
| `ReachProfiles.PersistPageSize` | src/applications/settings-reach-app/reach-profiles/reach-profiles-store/reach-profiles-store.service.ts:70-73 | a non-zero page size is stored under the page-size key; zero stores nothing; no other key changes |
| `ReachProfiles.PageSizeSurvivesReload` | src/applications/settings-reach-app/reach-profiles/reach-profiles-store/reach-profiles-store.service.ts:152-153 | the page size a query saves is the one a new store's default filters start from; after a zero page size the old default stays |
| `ReachProfiles.ReachProfilesStore.constructor` | src/applications/settings-reach-app/reach-profiles/reach-profiles-store/reach-profiles-store.service.ts:31-57 | empty data, not loading, not ready, no open query, filters defaulted from local storage |
| `ReachProfiles.ReachProfilesStore.ExecuteQuery` | src/applications/settings-reach-app/reach-profiles/reach-profiles-store/reach-profiles-store.service.ts:64-79 | drops and counts an open query, saves a non-zero page size, publishes loading with no error, and opens a query for the current filters; data and filters unchanged |
| `ReachProfiles.ReachProfilesStore.OnSuccess` | src/applications/settings-reach-app/reach-profiles/reach-profiles-store/reach-profiles-store.service.ts:80-90 | closes the query, stops loading with no error, and publishes the mapped profiles and the total count |
| `ReachProfiles.ReachProfilesStore.OnError` | src/applications/settings-reach-app/reach-profiles/reach-profiles-store/reach-profiles-store.service.ts:91-96 | closes the query, stops loading with the derived message, and leaves the data as it was |
| `ReachProfiles.ReachProfilesStore.Prepare` | src/applications/settings-reach-app/reach-profiles/reach-profiles-store/reach-profiles-store.service.ts:175-186 | the first call makes the store ready, registers the listener and starts a query; later calls change nothing |
| `ReachProfiles.ReachProfilesStore.Reload` | src/applications/settings-reach-app/reach-profiles/reach-profiles-store/reach-profiles-store.service.ts:189-201 | nothing while loading; otherwise the store ends ready and a query for the current filters is open |
| `ReachProfiles.ReachProfilesStore.OnFiltersChanged` | src/applications/settings-reach-app/reach-profiles/reach-profiles-store/reach-profiles-store.service.ts:167-173 | the new filters are kept; once the listener is registered they start a query, replacing any open one |
| `ReachProfiles.ReachProfilesStore.PreFilter` | src/applications/settings-reach-app/reach-profiles/reach-profiles-store/reach-profiles-store.service.ts:143-150 | an update with no page index gets page index 0; anything else is returned unchanged |

## Left out

- The RxJS plumbing is not modelled: observables, `map`/`switchMap`, `cancelOnDestroy`, `ngOnDestroy` and the subjects' completion. Results are values, and a store's published cells are fields.
- The network calls (`ESearchSearchEntryAction`, `ReachProfileListAction`) and their response profiles and accepted types are not modelled. `executeQuery` is modelled up to the request it sends; its response mapping only passes `objects` and `totalCount` through.
- `_getMetadataProfiles` is not modelled: its result is unused, because the custom-metadata block that would read it is commented out. The other commented-out blocks (distributions, original clipped entries, replacement statuses, flavors, advanced search) are not modelled either.
- `EntriesEsearch.GetServerFilter` reads the clock once for the whole call (`env.now`). The source reads `new Date()` separately at each find and each push, so two readings that differ by a millisecond are not modelled.
- `EntriesEsearch.GetServerFilter` requires `scheduledAt` to be present when 'scheduled' is selected. In the source, a missing `scheduledAt` there throws a TypeError out of the `map` callback, and that error path is not modelled.
- The utilities library's `getStartDateValue` and `getEndDateValue` are parameters, `hasPermission` is a boolean, and the browser's local storage is a map from keys to numbers. A NaN coming out of the date conversions is not modelled.
- Numbers are unbounded integers, so only 0 is falsy. NaN, `undefined` page values and fractional page numbers are not modelled.
- `ReachProfiles.MapProfiles`: `parseFloat(x.toFixed(2))` is the parameter `roundToCents`, because binary floating point is not modelled. Credits are reals.
- `ReachProfiles.ReachProfilesStore.constructor` does not schedule `_prepare`. In the source, it runs later through `setTimeout` when the reach view is available; here the caller invokes `Prepare`.
- `ReachProfiles.ReachProfilesStore.OnSuccess` and `OnError` require an open query. A subscription that completes synchronously, before `_querySubscription` is assigned, is not modelled.
- The filter store base class is not modelled: filter merging, type adapters (`_getTypeAdaptersMapping`) and `cloneFilter`. `OnFiltersChanged` takes the merged filters; `PreFilter` does not tell `null` from `undefined`.
- The logger calls are not modelled, because they have no effect on state.
