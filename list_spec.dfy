/** The state of one list screen and, for every handler of the hook, the
    state it leaves behind. Outside calls (list API, delete API, confirm
    dialog) are parameters that say how the call settled; every call the
    handler makes is appended to the log `trace`. */
module ListSpec {
  import opened ListTypes
  import TimeRangeView

  datatype State = State(
    defaultProp: string,                  // the resource's default sort column
    exportFileName: string,               // the file name passed to the export API
    beginTime: Option<string>,            // searchFormParams.beginTime
    endTime: Option<string>,              // searchFormParams.endTime
    sort: Sort,                           // sortState
    currentPage: int,                     // pagination.currentPage
    pageSize: int,                        // pagination.pageSize
    total: int,                           // pagination.total
    pageLoading: bool,
    dataList: seq<Row>,
    multipleSelection: seq<int>,
    trace: seq<Event>)

  /** The request inputs taken from the state when a list or export call is built. */
  function QueryOf(s: State): Query
  {
    Query(s.sort, s.currentPage, s.pageSize, s.beginTime, s.endTime)
  }

  /** The sort the hook asks the table for on search and reset. */
  function DefaultSort(s: State): Sort
  {
    Sort(s.defaultProp, Ascending)
  }

  /** The state right after the hook is called, before mount. */
  function Init(defaultProp: string, exportFileName: string): (s: State)
    ensures s.currentPage == 1 && s.pageSize == 10 && s.total == 0
    ensures s.pageLoading
    ensures s.sort == Sort(defaultProp, Ascending) && s.sort == DefaultSort(s)
    ensures s.dataList == [] && s.multipleSelection == [] && s.trace == []
    ensures s.defaultProp == defaultProp && s.exportFileName == exportFileName
    ensures s.beginTime == None && s.endTime == None
    ensures TimeRangeView.Get(s.beginTime, s.endTime) == None
  {
    State(defaultProp, exportFileName, None, None, Sort(defaultProp, Ascending), 1, 10, 0, true, [], [], [])
  }

  /** Writing the `timeRange` property. */
  function SetTimeRange(s: State, v: Option<seq<string>>): (t: State)
    ensures (t.beginTime, t.endTime) == TimeRangeView.Set(v)
    ensures t.(beginTime := s.beginTime, endTime := s.endTime) == s
  {
    var (b, e) := TimeRangeView.Set(v);
    s.(beginTime := b, endTime := e)
  }

  /** The view writing the selection it holds in `multipleSelection`. */
  function SelectionChanged(s: State, ids: seq<int>): (t: State)
    ensures t.multipleSelection == ids
    ensures t.(multipleSelection := s.multipleSelection) == s
  {
    s.(multipleSelection := ids)
  }

  /** The view writing the `pagination` object it was given (the pagination
      widget's current page and page size). */
  function PaginationChanged(s: State, page: int, size: int): (t: State)
    ensures t.currentPage == page && t.pageSize == size
    ensures t.sort == s.sort && t.beginTime == s.beginTime && t.endTime == s.endTime
    ensures t.(currentPage := s.currentPage, pageSize := s.pageSize) == s
  {
    s.(currentPage := page, pageSize := size)
  }

  /** The list refresh up to its suspension point: loading is raised and the
      request is issued with the current sort, pagination and time filter. */
  function BeginList(s: State): (t: State)
    ensures t.pageLoading
    ensures t.trace == s.trace + [ListRequested(QueryOf(s))]
    ensures t.(pageLoading := s.pageLoading, trace := s.trace) == s
  {
    s.(pageLoading := true, trace := s.trace + [ListRequested(QueryOf(s))])
  }

  /** The list refresh once the call settles: the `finally` clears loading;
      only a successful response replaces the rows and the total. */
  function FinishList(s: State, out: ListOutcome): (t: State)
    ensures !t.pageLoading
    ensures out.Listed? ==> t.dataList == out.page.rows && t.total == out.page.total
    ensures out.ListFailed? ==> t.dataList == s.dataList && t.total == s.total
    ensures t.(pageLoading := s.pageLoading, dataList := s.dataList, total := s.total) == s
  {
    match out
    case Listed(page) => s.(pageLoading := false, dataList := page.rows, total := page.total)
    case ListFailed => s.(pageLoading := false)
  }

  /** `getCategoryList` / `getPostList`, including the initial call on mount. */
  function GetList(s: State, out: ListOutcome): (t: State)
    ensures !t.pageLoading
    ensures out.Listed? ==> t.dataList == out.page.rows && t.total == out.page.total
    ensures out.ListFailed? ==> t.dataList == s.dataList && t.total == s.total
    ensures t.trace == s.trace + [ListRequested(QueryOf(s))]
    ensures t.(pageLoading := s.pageLoading, dataList := s.dataList, total := s.total, trace := s.trace) == s
  {
    FinishList(BeginList(s), out)
  }

  /** `onSortChanged`: store the sort, go back to the first page, refresh once. */
  function OnSortChanged(s: State, sort: Sort, out: ListOutcome): (t: State)
    ensures t.sort == sort && t.currentPage == 1 && t.pageSize == s.pageSize
    ensures t.trace == s.trace + [ListRequested(Query(sort, 1, s.pageSize, s.beginTime, s.endTime))]
    ensures !t.pageLoading
    ensures out.Listed? ==> t.dataList == out.page.rows && t.total == out.page.total
    ensures out.ListFailed? ==> t.dataList == s.dataList && t.total == s.total
    ensures t.multipleSelection == s.multipleSelection
    ensures t.beginTime == s.beginTime && t.endTime == s.endTime
    ensures t.(sort := s.sort, currentPage := s.currentPage, pageLoading := s.pageLoading,
               dataList := s.dataList, total := s.total, trace := s.trace) == s
  {
    GetList(s.(sort := sort, currentPage := 1), out)
  }

  /** `onSearch`: ask the table widget to sort by the default column, ascending. */
  function OnSearch(s: State): (t: State)
    ensures t.trace == s.trace + [TableSortRequested(Sort(s.defaultProp, Ascending))]
    ensures t.(trace := s.trace) == s
  {
    s.(trace := s.trace + [TableSortRequested(DefaultSort(s))])
  }

  /** `resetForm`: nothing without a form; otherwise reset the form's fields,
      clear the time filter and search again with the default sort. */
  function ResetForm(s: State, formPresent: bool): (t: State)
    ensures !formPresent ==> t == s
    ensures formPresent ==> t.beginTime == None && t.endTime == None
    ensures formPresent ==> TimeRangeView.Get(t.beginTime, t.endTime) == None
    ensures formPresent ==>
      t.trace == s.trace + [FormFieldsReset, TableSortRequested(Sort(s.defaultProp, Ascending))]
    ensures t.(beginTime := s.beginTime, endTime := s.endTime, trace := s.trace) == s
  {
    if !formPresent then s
    else OnSearch(s.(trace := s.trace + [FormFieldsReset], beginTime := None, endTime := None))
  }

  /** `exportAllExcel`: one export call built from the sort, the pagination
      snapshot and the time range; nothing else changes, on the understanding
      that the time-range helper leaves `beginTime` and `endTime` alone. */
  function ExportAll(s: State): (t: State)
    ensures t.trace
         == s.trace + [ExportRequested(QueryOf(s), TimeRangeView.Get(s.beginTime, s.endTime), s.exportFileName)]
    ensures t.(trace := s.trace) == s
  {
    s.(trace := s.trace + [ExportRequested(QueryOf(s), TimeRangeView.Get(s.beginTime, s.endTime), s.exportFileName)])
  }

  /** `handleDelete`: delete the one row; on success notify and refresh.
      A rejected delete changes nothing but the log. */
  function HandleDelete(s: State, row: Row, deleted: bool, out: ListOutcome): (t: State)
    ensures deleted ==>
      t.trace == s.trace + [DeleteRequested([row.id]), Notified(Success), ListRequested(QueryOf(s))]
    ensures deleted ==> !t.pageLoading
    ensures deleted && out.Listed? ==> t.dataList == out.page.rows && t.total == out.page.total
    ensures deleted && out.ListFailed? ==> t.dataList == s.dataList && t.total == s.total
    ensures deleted ==>
      t.(pageLoading := s.pageLoading, dataList := s.dataList, total := s.total, trace := s.trace) == s
    ensures !deleted ==> t == s.(trace := s.trace + [DeleteRequested([row.id])])
    ensures t.multipleSelection == s.multipleSelection && t.sort == s.sort
    ensures t.currentPage == s.currentPage && t.pageSize == s.pageSize
  {
    var s1 := s.(trace := s.trace + [DeleteRequested([row.id])]);
    if deleted then GetList(s1.(trace := s1.trace + [Notified(Success)]), out) else s1
  }

  /** `handleBulkDelete`. An empty selection only warns. Otherwise the confirm
      dialog is shown; when it is confirmed the whole selection is deleted,
      and a successful delete is followed by a notice and one refresh. A
      cancel and a rejected delete end in the same `catch`: an info notice
      and clearing the widget's selection, with no refresh. */
  function HandleBulkDelete(s: State, confirmed: bool, deleted: bool, out: ListOutcome): (t: State)
    ensures s.multipleSelection == [] ==> t == s.(trace := s.trace + [Notified(Warning)])
    ensures s.multipleSelection != [] && confirmed && deleted ==>
      t.trace == s.trace + [ConfirmRequested(s.multipleSelection), DeleteRequested(s.multipleSelection),
                            Notified(Success), ListRequested(QueryOf(s))]
      && !t.pageLoading
      && (out.Listed? ==> t.dataList == out.page.rows && t.total == out.page.total)
      && (out.ListFailed? ==> t.dataList == s.dataList && t.total == s.total)
      && t.(pageLoading := s.pageLoading, dataList := s.dataList, total := s.total, trace := s.trace) == s
    ensures s.multipleSelection != [] && !confirmed ==>
      t == s.(trace := s.trace + [ConfirmRequested(s.multipleSelection), Notified(Info), TableSelectionCleared])
    ensures s.multipleSelection != [] && confirmed && !deleted ==>
      t == s.(trace := s.trace + [ConfirmRequested(s.multipleSelection), DeleteRequested(s.multipleSelection),
                                  Notified(Info), TableSelectionCleared])
    ensures t.multipleSelection == s.multipleSelection
    ensures t.sort == s.sort && t.currentPage == s.currentPage && t.pageSize == s.pageSize
  {
    var sel := s.multipleSelection;
    if sel == [] then s.(trace := s.trace + [Notified(Warning)])
    else
      var asked := s.trace + [ConfirmRequested(sel)];
      if confirmed && deleted then
        GetList(s.(trace := asked + [DeleteRequested(sel), Notified(Success)]), out)
      else
        var attempted := if confirmed then asked + [DeleteRequested(sel)] else asked;
        s.(trace := attempted + [Notified(Info), TableSelectionCleared])
  }

  /** One thing that can happen to the screen: a handler of the hook, or the
      view writing the state the hook exposes to it. */
  datatype Action =
    | Refresh(out: ListOutcome)
    | SortChanged(sort: Sort, out: ListOutcome)
    | Search
    | Reset(formPresent: bool)
    | RangeChanged(v: Option<seq<string>>)
    | Select(ids: seq<int>)
    | PageChanged(page: int, size: int)
    | Export
    | Delete(row: Row, deleted: bool, out: ListOutcome)
    | BulkDelete(confirmed: bool, deleted: bool, out: ListOutcome)

  function Step(s: State, a: Action): State
  {
    match a
    case Refresh(out) => GetList(s, out)
    case SortChanged(sort, out) => OnSortChanged(s, sort, out)
    case Search => OnSearch(s)
    case Reset(formPresent) => ResetForm(s, formPresent)
    case RangeChanged(v) => SetTimeRange(s, v)
    case Select(ids) => SelectionChanged(s, ids)
    case PageChanged(page, size) => PaginationChanged(s, page, size)
    case Export => ExportAll(s)
    case Delete(row, deleted, out) => HandleDelete(s, row, deleted, out)
    case BulkDelete(confirmed, deleted, out) => HandleBulkDelete(s, confirmed, deleted, out)
  }

  /** The state after the actions, one after the other. */
  function Run(s: State, acts: seq<Action>): State
    decreases |acts|
  {
    if acts == [] then s else Run(Step(s, acts[0]), acts[1..])
  }
}
