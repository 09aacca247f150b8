/**
 * What the eSearch mapping promises: which filter fields emit which search
 * items, where the media-type item goes, the defaults, and how the
 * time-scheduling loop grows the item list.
 */
module EntriesEsearchProperties {
  import opened Wrappers
  import opened Joins
  import opened Paging
  import opened EntriesEsearch

  /** The items of `items` on field `f`, in order. */
  function Only(items: seq<SearchItem>, f: FieldName): seq<SearchItem>
  {
    if items == [] then []
    else (if items[0].fieldName == f then [items[0]] else []) + Only(items[1..], f)
  }

  /** `Only` keeps exactly the items on the field. */
  lemma {:induction false} OnlyMembers(items: seq<SearchItem>, f: FieldName)
    ensures forall x :: x in Only(items, f) <==> x in items && x.fieldName == f
  {
    if items != [] {
      OnlyMembers(items[1..], f);
      assert items == [items[0]] + items[1..];
    }
  }

  lemma {:induction false} OnlyAppend(a: seq<SearchItem>, b: seq<SearchItem>, f: FieldName)
    ensures Only(a + b, f) == Only(a, f) + Only(b, f)
  {
    if a != [] {
      assert (a + b)[1..] == a[1..] + b;
      OnlyAppend(a[1..], b, f);
    } else {
      assert a + b == b;
    }
  }

  predicate IsDateField(f: FieldName)
  {
    f == StartDate || f == EndDate
  }

  /** Every scheduling step keeps the items it was given and appends at most two date items. */
  lemma StepAppendsDateItems(items: seq<SearchItem>, v: string, sched: Option<DateRange>, env: Environment)
    requires v == "scheduled" ==> sched.Some?
    ensures var r := ScheduleStep(items, v, sched, env);
            |items| <= |r| <= |items| + 2 && r[..|items|] == items
            && forall k :: |items| <= k < |r| ==> IsDateField(r[k].fieldName)
  {
  }

  /**
   * The scheduling loop only appends: it keeps every earlier item in place
   * and adds at most two startDate or endDate items per value.
   */
  lemma {:induction false} ScheduleOnlyAppendsDateItems(items: seq<SearchItem>, ts: seq<string>,
                                                      sched: Option<DateRange>, env: Environment)
    requires SchedulingReadable(ts, sched)
    ensures var r := Schedule(items, ts, sched, env);
            |items| <= |r| <= |items| + 2 * |ts| && r[..|items|] == items
            && forall k :: |items| <= k < |r| ==> IsDateField(r[k].fieldName)
    decreases |ts|
  {
    if ts != [] {
      assert ts[0] in ts && forall x :: x in ts[1..] ==> x in ts;
      var mid := ScheduleStep(items, ts[0], sched, env);
      StepAppendsDateItems(items, ts[0], sched, env);
      ScheduleOnlyAppendsDateItems(mid, ts[1..], sched, env);
      var r := Schedule(mid, ts[1..], sched, env);
      assert r == Schedule(items, ts, sched, env);
      assert r[..|items|] == r[..|mid|][..|items|];
      forall k | |items| <= k < |r| ensures IsDateField(r[k].fieldName) {
        if k < |mid| {
          assert r[k] == r[..|mid|][k] == mid[k];
        }
      }
    }
  }

  lemma {:induction false} OnlyOtherFields(xs: seq<SearchItem>, f: FieldName)
    requires forall k :: 0 <= k < |xs| ==> xs[k].fieldName != f
    ensures Only(xs, f) == []
  {
    if xs != [] {
      OnlyOtherFields(xs[1..], f);
    }
  }

  /** A list whose items all sit on field `g` is kept whole by `Only(_, g)` and dropped by any other field. */
  lemma {:induction false} OnlyOfSingleField(xs: seq<SearchItem>, f: FieldName, g: FieldName)
    requires forall k :: 0 <= k < |xs| ==> xs[k].fieldName == g
    ensures Only(xs, f) == if f == g then xs else []
  {
    if xs != [] {
      OnlyOfSingleField(xs[1..], f, g);
      assert xs == [xs[0]] + xs[1..];
    }
  }

  /** The items a filter field other than the scheduling ones contributes to the request. */
  function Contribution(data: EntriesFilters, env: Environment, f: FieldName): seq<SearchItem>
  {
    match f
    case Name => FreetextItems(data)
    case CreatedAt => CreatedAtItems(data, env)
    case LengthInMsecs => JoinedItems(data.durations, LengthInMsecs)
    case ModerationStatus => JoinedItems(data.moderationStatuses, ModerationStatus)
    case AccessControlId => JoinedItems(data.accessControlProfiles, AccessControlId)
    case MediaType => [MediaTypeItem(data, env)]
    case _ => []
  }

  /** Six lists of which at most the one belonging to `f` is non-empty: their concatenation is that one. */
  lemma PickPart(a: seq<SearchItem>, b: seq<SearchItem>, c: seq<SearchItem>, d: seq<SearchItem>,
                 e: seq<SearchItem>, g: seq<SearchItem>,
                 fre: seq<SearchItem>, cre: seq<SearchItem>, dur: seq<SearchItem>, mod: seq<SearchItem>,
                 acl: seq<SearchItem>, mt: seq<SearchItem>, f: FieldName)
    requires a == if f == Name then fre else []
    requires b == if f == CreatedAt then cre else []
    requires c == if f == LengthInMsecs then dur else []
    requires d == if f == ModerationStatus then mod else []
    requires e == if f == AccessControlId then acl else []
    requires g == if f == MediaType then mt else []
    ensures a + b + c + d + e + g
            == match f
               case Name => fre
               case CreatedAt => cre
               case LengthInMsecs => dur
               case ModerationStatus => mod
               case AccessControlId => acl
               case MediaType => mt
               case _ => []
  {
    match f
    case Name => assert fre + [] + [] + [] + [] + [] == fre;
    case CreatedAt => assert [] + cre + [] + [] + [] + [] == cre;
    case LengthInMsecs => assert [] + [] + dur + [] + [] + [] == dur;
    case ModerationStatus => assert [] + [] + [] + mod + [] + [] == mod;
    case AccessControlId => assert [] + [] + [] + [] + acl + [] == acl;
    case MediaType => assert [] + [] + [] + [] + [] + mt == mt;
    case _ =>
  }

  /** Each part of the request keeps its items on its own field and has none on any other. */
  lemma OnlyOfParts(data: EntriesFilters, env: Environment, f: FieldName)
    ensures Only(FreetextItems(data), f) == if f == Name then FreetextItems(data) else []
    ensures Only(CreatedAtItems(data, env), f) == if f == CreatedAt then CreatedAtItems(data, env) else []
    ensures var dur := JoinedItems(data.durations, LengthInMsecs);
            Only(dur, f) == if f == LengthInMsecs then dur else []
    ensures var mod := JoinedItems(data.moderationStatuses, ModerationStatus);
            Only(mod, f) == if f == ModerationStatus then mod else []
    ensures var acl := JoinedItems(data.accessControlProfiles, AccessControlId);
            Only(acl, f) == if f == AccessControlId then acl else []
    ensures Only([MediaTypeItem(data, env)], f) == if f == MediaType then [MediaTypeItem(data, env)] else []
  {
    OnlyOfOwnItems(data, env, f);
    OnlyOfJoinedItems(data.durations, LengthInMsecs, f);
    OnlyOfJoinedItems(data.moderationStatuses, ModerationStatus, f);
    OnlyOfJoinedItems(data.accessControlProfiles, AccessControlId, f);
  }

  lemma OnlyOfOwnItems(data: EntriesFilters, env: Environment, f: FieldName)
    ensures Only(FreetextItems(data), f) == if f == Name then FreetextItems(data) else []
    ensures Only(CreatedAtItems(data, env), f) == if f == CreatedAt then CreatedAtItems(data, env) else []
    ensures Only([MediaTypeItem(data, env)], f) == if f == MediaType then [MediaTypeItem(data, env)] else []
  {
    OnlyOfSingleField(FreetextItems(data), f, Name);
    OnlyOfSingleField(CreatedAtItems(data, env), f, CreatedAt);
    OnlyOfSingleField([MediaTypeItem(data, env)], f, MediaType);
  }

  lemma OnlyOfJoinedItems(list: seq<string>, g: FieldName, f: FieldName)
    ensures Only(JoinedItems(list, g), f) == if f == g then JoinedItems(list, g) else []
  {
    OnlyOfSingleField(JoinedItems(list, g), f, g);
  }

  /** On every field no scheduling value writes, the request holds exactly that field's contribution. */
  lemma OnlyOfRequestParts(data: EntriesFilters, env: Environment, f: FieldName)
    requires SchedulingReadable(data.timeScheduling, data.scheduledAt) && !IsDateField(f)
    ensures Only(ServerFilter(data, env).searchOperator.searchItems, f) == Contribution(data, env, f)
  {
    var fre := FreetextItems(data);
    var cre := CreatedAtItems(data, env);
    var dur := JoinedItems(data.durations, LengthInMsecs);
    var mod := JoinedItems(data.moderationStatuses, ModerationStatus);
    var acl := JoinedItems(data.accessControlProfiles, AccessControlId);
    var mt := [MediaTypeItem(data, env)];
    OnlyOfRequest(data, env, f);
    OnlyOfParts(data, env, f);
    PickPart(Only(fre, f), Only(cre, f), Only(dur, f), Only(mod, f), Only(acl, f), Only(mt, f),
             fre, cre, dur, mod, acl, mt, f);
  }

  /** Items on a field other than startDate and endDate are untouched by the scheduling loop. */
  lemma ScheduleKeepsOtherFields(items: seq<SearchItem>, ts: seq<string>, sched: Option<DateRange>,
                                 env: Environment, f: FieldName)
    requires SchedulingReadable(ts, sched) && !IsDateField(f)
    ensures Only(Schedule(items, ts, sched, env), f) == Only(items, f)
  {
    var r := Schedule(items, ts, sched, env);
    ScheduleOnlyAppendsDateItems(items, ts, sched, env);
    var extra := r[|items|..];
    assert r == items + extra;
    OnlyAppend(items, extra, f);
    assert forall k :: 0 <= k < |extra| ==> extra[k] == r[|items| + k];
    OnlyOtherFields(extra, f);
  }

  /**
   * On every field but startDate and endDate, the request holds what the
   * filters pushed before the scheduling loop, then the media-type item.
   */
  lemma OnlyOfRequest(data: EntriesFilters, env: Environment, f: FieldName)
    requires SchedulingReadable(data.timeScheduling, data.scheduledAt) && !IsDateField(f)
    ensures Only(ServerFilter(data, env).searchOperator.searchItems, f)
            == Only(FreetextItems(data), f) + Only(CreatedAtItems(data, env), f)
               + Only(JoinedItems(data.durations, LengthInMsecs), f)
               + Only(JoinedItems(data.moderationStatuses, ModerationStatus), f)
               + Only(JoinedItems(data.accessControlProfiles, AccessControlId), f)
               + Only([MediaTypeItem(data, env)], f)
  {
    var fre := FreetextItems(data);
    var cre := CreatedAtItems(data, env);
    var dur := JoinedItems(data.durations, LengthInMsecs);
    var mod := JoinedItems(data.moderationStatuses, ModerationStatus);
    var acl := JoinedItems(data.accessControlProfiles, AccessControlId);
    var base := BaseItems(data, env);
    var scheduled := Schedule(base, data.timeScheduling, data.scheduledAt, env);
    var mt := [MediaTypeItem(data, env)];
    OnlyAppend(scheduled, mt, f);
    ScheduleKeepsOtherFields(base, data.timeScheduling, data.scheduledAt, env, f);
    OnlyAppend(fre + cre + dur + mod, acl, f);
    OnlyAppend(fre + cre + dur, mod, f);
    OnlyAppend(fre + cre, dur, f);
    OnlyAppend(fre, cre, f);
  }

  /** A partial-match item on the name field exists iff the free text is non-empty, and carries that text. */
  lemma FreetextItemIff(data: EntriesFilters, env: Environment)
    requires SchedulingReadable(data.timeScheduling, data.scheduledAt)
    ensures var items := ServerFilter(data, env).searchOperator.searchItems;
            && ((exists i :: 0 <= i < |items| && items[i].fieldName == Name) <==> data.freetext != "")
            && (data.freetext != "" ==>
                  Only(items, Name) == [SearchItem(Name, Some(data.freetext), Some(Partial), None)])
  {
    OnlyOfRequestParts(data, env, Name);
    var items := ServerFilter(data, env).searchOperator.searchItems;
    assert Only(items, Name) == FreetextItems(data);
    OnlyMembers(items, Name);
    if data.freetext != "" {
      var x := Only(items, Name)[0];
      assert x in Only(items, Name);
    }
  }

  /**
   * A createdAt range item exists iff either date is set; there is at most
   * one, and it has a bound exactly for each date that is present.
   */
  lemma CreatedAtItemIff(data: EntriesFilters, env: Environment)
    requires SchedulingReadable(data.timeScheduling, data.scheduledAt)
    ensures var created := Only(ServerFilter(data, env).searchOperator.searchItems, CreatedAt);
            && |created| <= 1
            && (created != [] <==>
                  data.createdAt.Some? && (data.createdAt.value.fromDate.Some? || data.createdAt.value.toDate.Some?))
            && (created != [] ==>
                  var c := data.createdAt.value;
                  && created[0].range.Some?
                  && var rg := created[0].range.value;
                  && (rg.greaterThanOrEqual.Some? <==> c.fromDate.Some?)
                  && (rg.lessThanOrEqual.Some? <==> c.toDate.Some?)
                  && (c.fromDate.Some? ==> rg.greaterThanOrEqual.value == env.startDateValue(c.fromDate))
                  && (c.toDate.Some? ==> rg.lessThanOrEqual.value == env.endDateValue(c.toDate)))
  {
    OnlyOfRequestParts(data, env, CreatedAt);
  }

  /** Categories never reach the request: changing them changes nothing. */
  lemma CategoriesNeverAddItem(data: EntriesFilters, env: Environment, categories: seq<string>, mode: CategoriesMode)
    requires SchedulingReadable(data.timeScheduling, data.scheduledAt)
    ensures ServerFilter(data.(categories := categories, categoriesMode := mode), env) == ServerFilter(data, env)
  {
  }

  /** There is exactly one mediaType item, and it is the last item of the request. */
  lemma MediaTypeItemIsLast(data: EntriesFilters, env: Environment)
    requires SchedulingReadable(data.timeScheduling, data.scheduledAt)
    ensures var items := ServerFilter(data, env).searchOperator.searchItems;
            && |items| >= 1
            && items[|items| - 1] == MediaTypeItem(data, env)
            && Only(items, MediaType) == [MediaTypeItem(data, env)]
  {
    OnlyOfRequestParts(data, env, MediaType);
  }

  /**
   * The mediaType item is the joined user selection when that is non-empty,
   * else the exact-match default, with the live type appended iff the
   * permission is held.
   */
  lemma MediaTypeItemTerm(data: EntriesFilters, env: Environment)
    ensures var item := MediaTypeItem(data, env);
            && item.fieldName == MediaType
            && (Join(data.mediaTypes) != "" ==> item == SearchItem(MediaType, Some(Join(data.mediaTypes)), None, None))
            && (Join(data.mediaTypes) == "" ==>
                  && item.itemType == Some(ExactMatch)
                  && item.searchTerm == Some(if env.liveStreamPermission then "1,2,5,6,201" else "1,2,5,6"))
  {
    assert DefaultMediaTypes + LiveStreamMediaType == "1,2,5,6,201";
  }

  /** `objectStatuses` is the joined ingestion statuses, or the fixed default; never empty. */
  lemma ObjectStatusesNeverEmpty(data: EntriesFilters, env: Environment)
    requires SchedulingReadable(data.timeScheduling, data.scheduledAt)
    ensures var s := ServerFilter(data, env).objectStatuses;
            && s != ""
            && (Join(data.ingestionStatuses) != "" ==> s == Join(data.ingestionStatuses))
            && (Join(data.ingestionStatuses) == "" ==> s == "-1,-2,0,1,2,7,4")
  {
  }

  /** An order-by clause exists iff a sort field is set; it sorts on createdAt, descending iff Desc. */
  lemma OrderByFollowsSortBy(data: EntriesFilters, env: Environment)
    requires SchedulingReadable(data.timeScheduling, data.scheduledAt)
    ensures var o := ServerFilter(data, env).orderBy;
            && (o.Some? <==> data.sortBy != "")
            && (o.Some? ==>
                  && |o.value.orderItems| == 1
                  && o.value.orderItems[0].sortField == CreatedAtSort
                  && (o.value.orderItems[0].sortOrder == OrderByDesc <==> data.sortDirection == Desc))
  {
  }

  /** `'past'`, `'live'` and `'future'` each push one item bounded by now, unless a matching item exists. */
  lemma RelativeSchedulingPushesUnlessFound(items: seq<SearchItem>, sched: Option<DateRange>, env: Environment)
    ensures ScheduleStep(items, "past", sched, env)
            == if exists i :: 0 <= i < |items| && Matches(items[i], UpperBelow(EndDate, env.now))
               then items else items + [SearchItem(EndDate, None, None, Some(Range(None, Some(env.now))))]
    ensures ScheduleStep(items, "live", sched, env)
            == if exists i :: 0 <= i < |items| && Matches(items[i], UpperBelow(StartDate, env.now))
               then items else items + [SearchItem(StartDate, None, None, Some(Range(None, Some(env.now))))]
    ensures ScheduleStep(items, "future", sched, env)
            == if exists i :: 0 <= i < |items| && Matches(items[i], LowerAbove(StartDate, env.now))
               then items else items + [SearchItem(StartDate, None, None, Some(Range(Some(env.now), None)))]
  {
  }

  /** Values the switch does not recognise leave the item list as it is. */
  lemma {:induction false} UnrecognisedSchedulingIgnored(items: seq<SearchItem>, ts: seq<string>,
                                                       sched: Option<DateRange>, env: Environment)
    requires forall k :: 0 <= k < |ts| ==> ts[k] != "past" && ts[k] != "live" && ts[k] != "future" && ts[k] != "scheduled"
    ensures SchedulingReadable(ts, sched) && Schedule(items, ts, sched, env) == items
    decreases |ts|
  {
    if ts != [] {
      UnrecognisedSchedulingIgnored(items, ts[1..], sched, env);
    }
  }

  /**
   * In `'scheduled'`, the `toDate` branch never adds an endDate item: what it
   * pushes is a startDate item whose upper bound is the end-of-day value of
   * `fromDate`, and it is pushed unless an endDate item already ends before
   * that value.
   */
  lemma ScheduledToDatePushesStartDate(items: seq<SearchItem>, sched: DateRange, env: Environment)
    requires sched.toDate.Some?
    ensures var r := ScheduleStep(items, "scheduled", Some(sched), env);
            && (forall k :: |items| <= k < |r| ==> r[k].fieldName == StartDate)
            && var to := env.endDateValue(sched.fromDate);
            && var mid := ScheduledItems(items, sched.(toDate := None), env);
            && r == if exists i :: 0 <= i < |mid| && Matches(mid[i], UpperBelow(EndDate, to))
                    then mid else mid + [SearchItem(StartDate, None, None, Some(Range(None, Some(to))))]
  {
  }

  /**
   * With one clock reading, repeating `'past'` pushes a second identical
   * item: the find test `lessThanOrEqual < now` does not match an item
   * bounded by the same `now`.
   */
  lemma RepeatedPastWithOneClockReading(env: Environment)
    ensures Schedule([], ["past", "past"], None, env)
            == [SearchItem(EndDate, None, None, Some(Range(None, Some(env.now)))),
                SearchItem(EndDate, None, None, Some(Range(None, Some(env.now))))]
  {
    var item := SearchItem(EndDate, None, None, Some(Range(None, Some(env.now))));
    assert !Matches(item, UpperBelow(EndDate, env.now));
    assert ["past", "past"][1..] == ["past"];
  }

  /**
   * The default filter record asks for the default media types and object
   * statuses, newest first, and for no pager unless a page size is given.
   */
  lemma DefaultsGiveDefaultSearch(saved: Option<CategoriesMode>, pageSize: int, env: Environment)
    ensures var d := DefaultFilterValues(saved, pageSize);
            && SchedulingReadable(d.timeScheduling, d.scheduledAt)
            && ServerFilter(d, env)
               == SearchParams(SearchOperator(AndOp, [DefaultMediaTypeItem(env)]), DefaultObjectStatuses,
                               Some(OrderBy([OrderItem(CreatedAtSort, OrderByDesc)])))
            && PagerFor(d.pageIndex, d.pageSize) == if pageSize != 0 then Some(FilterPager(pageSize, 1)) else None
  {
    var d := DefaultFilterValues(saved, pageSize);
    assert BaseItems(d, env) == [];
  }
}
