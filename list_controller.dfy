/** The hook itself: the reactive state of one list screen as the fields of
    an object, and the handlers as methods that update them in place. The
    resource-specific parts are the default sort column and the export file
    name. Every method leaves the object in the state that the matching
    function of `ListSpec` gives for the old state. */
module ListHook {
  import opened ListTypes
  import TimeRangeView
  import ListSpec

  class ListController {
    const defaultProp: string
    const exportFileName: string

    // searchFormParams.beginTime / endTime
    var beginTime: Option<string>
    var endTime: Option<string>
    // sortState
    var sort: Sort
    // pagination
    var currentPage: int
    var pageSize: int
    var total: int
    // result and selection refs
    var pageLoading: bool
    var dataList: seq<Row>
    var multipleSelection: seq<int>
    // the calls made to the APIs, the notice channel and the widgets
    var trace: seq<Event>

    /** The object's fields as a value of the specification's state. */
    function Model(): ListSpec.State
      reads this
    {
      ListSpec.State(defaultProp, exportFileName, beginTime, endTime, sort,
                     currentPage, pageSize, total, pageLoading, dataList, multipleSelection, trace)
    }

    constructor (defaultProp: string, exportFileName: string)
      ensures Model() == ListSpec.Init(defaultProp, exportFileName)
    {
      this.defaultProp := defaultProp;
      this.exportFileName := exportFileName;
      beginTime, endTime := None, None;
      sort := Sort(defaultProp, Ascending);
      currentPage, pageSize, total := 1, 10, 0;
      pageLoading := true;
      dataList, multipleSelection := [], [];
      trace := [];
    }

    /** The `timeRange` getter: never a half-filled pair. */
    function TimeRange(): (r: Option<(string, string)>)
      reads this
      ensures r.Some? <==> TimeRangeView.Truthy(beginTime) && TimeRangeView.Truthy(endTime)
      ensures r.Some? ==> Some(r.value.0) == beginTime && Some(r.value.1) == endTime
    {
      TimeRangeView.Get(beginTime, endTime)
    }

    /** The `timeRange` setter. */
    method SetTimeRange(v: Option<seq<string>>)
      modifies this
      ensures Model() == ListSpec.SetTimeRange(old(Model()), v)
      ensures (v.Some? && |v.value| == 2) ==> beginTime == Some(v.value[0]) && endTime == Some(v.value[1])
      ensures !(v.Some? && |v.value| == 2) ==> beginTime == None && endTime == None
    {
      if v.Some? && |v.value| == 2 {
        beginTime := Some(v.value[0]);
        endTime := Some(v.value[1]);
      } else {
        beginTime := None;
        endTime := None;
      }
    }

    /** The view writing the `multipleSelection` ref it was given. */
    method SetSelection(ids: seq<int>)
      modifies this
      ensures Model() == ListSpec.SelectionChanged(old(Model()), ids)
    {
      multipleSelection := ids;
    }

    /** The view writing the `pagination` object it was given. */
    method SetPagination(page: int, size: int)
      modifies this
      ensures Model() == ListSpec.PaginationChanged(old(Model()), page, size)
      ensures sort == old(sort) && beginTime == old(beginTime) && endTime == old(endTime)
    {
      currentPage := page;
      pageSize := size;
    }

    /** The list refresh up to the `await`: raise loading, issue the request. */
    method BeginList()
      modifies this
      ensures Model() == ListSpec.BeginList(old(Model()))
      ensures pageLoading && trace == old(trace) + [ListRequested(ListSpec.QueryOf(old(Model())))]
    {
      pageLoading := true;
      trace := trace + [ListRequested(ListSpec.QueryOf(Model()))];
    }

    /** The list refresh after the call settles with `out`. */
    method FinishList(out: ListOutcome)
      modifies this
      ensures Model() == ListSpec.FinishList(old(Model()), out)
      ensures !pageLoading
    {
      pageLoading := false;
      if out.Listed? {
        dataList := out.page.rows;
        total := out.page.total;
      }
    }

    /** `getCategoryList` / `getPostList`. */
    method GetList(out: ListOutcome)
      modifies this
      ensures Model() == ListSpec.GetList(old(Model()), out)
      ensures !pageLoading
    {
      BeginList();
      FinishList(out);
    }

    method OnSortChanged(s: Sort, out: ListOutcome)
      modifies this
      ensures Model() == ListSpec.OnSortChanged(old(Model()), s, out)
      ensures sort == s && currentPage == 1 && pageSize == old(pageSize)
    {
      sort := s;
      currentPage := 1;
      GetList(out);
    }

    method OnSearch()
      modifies this
      ensures Model() == ListSpec.OnSearch(old(Model()))
    {
      trace := trace + [TableSortRequested(Sort(defaultProp, Ascending))];
    }

    method ResetForm(formPresent: bool)
      modifies this
      ensures Model() == ListSpec.ResetForm(old(Model()), formPresent)
    {
      if !formPresent {
        return;
      }
      trace := trace + [FormFieldsReset];
      beginTime := None;
      endTime := None;
      OnSearch();
    }

    method ExportAllExcel()
      modifies this
      ensures Model() == ListSpec.ExportAll(old(Model()))
    {
      trace := trace + [ExportRequested(ListSpec.QueryOf(Model()), TimeRange(), exportFileName)];
    }

    method HandleDelete(row: Row, deleted: bool, out: ListOutcome)
      modifies this
      ensures Model() == ListSpec.HandleDelete(old(Model()), row, deleted, out)
    {
      trace := trace + [DeleteRequested([row.id])];
      if deleted {
        trace := trace + [Notified(Success)];
        GetList(out);
      }
    }

    method HandleBulkDelete(confirmed: bool, deleted: bool, out: ListOutcome)
      modifies this
      ensures Model() == ListSpec.HandleBulkDelete(old(Model()), confirmed, deleted, out)
      ensures multipleSelection == old(multipleSelection)
    {
      if |multipleSelection| == 0 {
        trace := trace + [Notified(Warning)];
        return;
      }
      trace := trace + [ConfirmRequested(multipleSelection)];
      if confirmed {
        trace := trace + [DeleteRequested(multipleSelection)];
        if deleted {
          trace := trace + [Notified(Success)];
          GetList(out);
          return;
        }
      }
      trace := trace + [Notified(Info), TableSelectionCleared];
    }
  }
}
