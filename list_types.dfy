/** Values shared by the list-screen controller: sort and query records, the
    outcomes of the outside calls, and the log of calls the controller makes. */
module ListTypes {

  datatype Option<+T> = None | Some(value: T)

  /** The table widget's sort direction; `Unsorted` is the widget's `null`. */
  datatype Order = Ascending | Descending | Unsorted

  datatype Sort = Sort(prop: string, order: Order)

  /** A table row; only its primary key matters to the controller. */
  datatype Row = Row(id: int)

  /** The body of a successful list response. */
  datatype Page = Page(rows: seq<Row>, total: int)

  /** How a call to the list API settles. */
  datatype ListOutcome = Listed(page: Page) | ListFailed

  /** The three kinds of notice the controller raises. */
  datatype Notice = Warning | Success | Info

  /** What a list or export request is built from: the sort, the pagination
      snapshot and the time filter held in the search form parameters. */
  datatype Query = Query(
    sort: Sort,
    currentPage: int,
    pageSize: int,
    beginTime: Option<string>,
    endTime: Option<string>)

  /** One call from the controller to something outside it. */
  datatype Event =
    | ListRequested(query: Query)
    | DeleteRequested(ids: seq<int>)
    | ExportRequested(query: Query, range: Option<(string, string)>, fileName: string)
    | Notified(notice: Notice)
    | ConfirmRequested(selection: seq<int>)
    | FormFieldsReset
    | TableSortRequested(sort: Sort)
    | TableSelectionCleared
}
