/**
 * The media-types filter of the entries list: it folds the selected filter
 * values into the request's `mediaTypeIn` string, adding a comma before a
 * value only when something has already been accumulated.
 */
module MediaTypesFilter {
  import opened Wrappers
  import opened Joins

  /** A selectable filter value with its display label, `caption` (only `value` is sent). */
  datatype ValueFilter = ValueFilter(value: string, caption: string)

  /** The part of the list request this filter touches; `others` stands for every other filter field. */
  datatype EntryFilter = EntryFilter(mediaTypeIn: Option<string>, others: map<string, string>)
  datatype ListRequest = ListRequest(filter: EntryFilter, pageIndex: int, pageSize: int)

  /** One reducer step: `${acc}${acc ? ',' : ''}${value}`. */
  function Step(acc: string, value: string): string
  {
    acc + (if acc != "" then "," else "") + value
  }

  /** `R.reduce(step, acc, items)`: a left fold over the values in list order. */
  function Fold(acc: string, items: seq<ValueFilter>): string
    decreases |items|
  {
    if items == [] then acc else Fold(Step(acc, items[0].value), items[1..])
  }

  function Values(items: seq<ValueFilter>): (vs: seq<string>)
    ensures |vs| == |items| && forall i :: 0 <= i < |items| ==> vs[i] == items[i].value
  {
    seq(|items|, i requires 0 <= i < |items| => items[i].value)
  }

  /** The values left after every leading empty value is removed. */
  function DropLeadingEmpty(vs: seq<string>): (r: seq<string>)
    ensures r == [] || r[0] != ""
  {
    if vs == [] then [] else if vs[0] == "" then DropLeadingEmpty(vs[1..]) else vs
  }

  /**
   * The handler registered for the media-types filter: it assigns the folded
   * string to `request.filter.mediaTypeIn` and leaves the rest of the request
   * as it was.
   */
  function ApplyMediaTypesFilter(items: seq<ValueFilter>, request: ListRequest): (r: ListRequest)
    ensures r.filter.mediaTypeIn == Some(Join(DropLeadingEmpty(Values(items))))
    ensures r.filter.others == request.filter.others
    ensures r.pageIndex == request.pageIndex && r.pageSize == request.pageSize
  {
    MediaTypeInIsJoin(items);
    request.(filter := request.filter.(mediaTypeIn := Some(Fold("", items))))
  }

  /** Once the accumulator is non-empty, every further value comes after one comma. */
  lemma {:induction false} FoldFromNonEmpty(acc: string, items: seq<ValueFilter>)
    requires acc != ""
    ensures Fold(acc, items) == if items == [] then acc else acc + "," + Join(Values(items))
    decreases |items|
  {
    if items != [] {
      var acc' := Step(acc, items[0].value);
      assert acc' == acc + "," + items[0].value;
      FoldFromNonEmpty(acc', items[1..]);
      assert Values(items[1..]) == Values(items)[1..];
      if items[1..] != [] {
        assert Join(Values(items)) == items[0].value + "," + Join(Values(items[1..]));
      }
    }
  }

  /**
   * The fold is the comma-join of the values that follow the leading empty
   * ones: leading empty values contribute nothing, later empty values still
   * contribute their comma.
   */
  lemma {:induction false} MediaTypeInIsJoin(items: seq<ValueFilter>)
    ensures Fold("", items) == Join(DropLeadingEmpty(Values(items)))
    decreases |items|
  {
    if items != [] {
      assert Values(items[1..]) == Values(items)[1..];
      if items[0].value == "" {
        assert Step("", items[0].value) == "";
        MediaTypeInIsJoin(items[1..]);
      } else {
        assert Step("", items[0].value) == items[0].value;
        FoldFromNonEmpty(items[0].value, items[1..]);
        assert DropLeadingEmpty(Values(items)) == Values(items);
      }
    }
  }

  /** No selected values give the empty string. */
  lemma EmptyItemsGiveEmpty(request: ListRequest)
    ensures ApplyMediaTypesFilter([], request).filter.mediaTypeIn == Some("")
  {
  }

  /** When every value is non-empty the result is exactly the values joined by single commas. */
  lemma {:induction false} NonEmptyValuesJoin(items: seq<ValueFilter>, request: ListRequest)
    requires forall i :: 0 <= i < |items| ==> items[i].value != ""
    ensures ApplyMediaTypesFilter(items, request).filter.mediaTypeIn == Some(Join(Values(items)))
  {
    if items != [] {
      assert Values(items)[0] == items[0].value;
    }
  }

  /** The result begins with the first non-empty value, so the reducer never puts a comma first. */
  lemma {:induction false} StartsWithFirstNonEmpty(vs: seq<string>)
    requires DropLeadingEmpty(vs) != []
    ensures var v := DropLeadingEmpty(vs)[0];
            v != "" && v in vs && Join(DropLeadingEmpty(vs))[..|v|] == v
  {
    if vs[0] == "" {
      StartsWithFirstNonEmpty(vs[1..]);
    }
  }

  /** Unless a value itself starts with a comma, `mediaTypeIn` never does. */
  lemma NeverStartsWithComma(items: seq<ValueFilter>, request: ListRequest)
    requires forall i :: 0 <= i < |items| ==> items[i].value == "" || items[i].value[0] != ','
    ensures var s := ApplyMediaTypesFilter(items, request).filter.mediaTypeIn.value;
            s == "" || s[0] != ','
  {
    var vs := Values(items);
    if DropLeadingEmpty(vs) != [] {
      StartsWithFirstNonEmpty(vs);
      var v := DropLeadingEmpty(vs)[0];
      var k :| 0 <= k < |vs| && vs[k] == v;
      assert items[k].value == v;
    }
  }
}
