# List-screen controller of the AgileBoot admin console

The admin console builds each resource screen (workflow categories, posts)
from a hook that holds the screen's state and handlers: the search form's
time filter (`beginTime`, `endTime`) with the `timeRange` pair view over it,
the table sort, pagination, the loading flag, the rows shown, and the
selection. Its handlers change that state: `onSortChanged`, `onSearch`,
`resetForm`, the list refresh, `exportAllExcel`, `handleDelete` and
`handleBulkDelete`. `useCategoryHook` and `usePostHook` are the same hook
over different API functions (`getCategoryListApi`, `deleteCategoryApi`,
`exportCategoryExcelApi` against the post ones), different search-form
fields (`categoryCode`, `categoryName`, `createTime` against `postCode`,
`postName`) and a different row key (`row.categoryId` against `row.postId`).
For the state modelled here they differ only in the default sort column and
the export file name.

This project models that hook once, as the class
`ListHook.ListController`, parameterised by the default sort column and the
export file name. `CategoryHook` and `PostHook` instantiate it.

- `ListTypes`: sort, rows, list responses, notice kinds, and the `Event` log.
  The log records every outside call: list, delete and export requests,
  notices, the confirm dialog, and calls on the form and table widgets.
- `TimeRangeView`: the `timeRange` getter and setter as functions of the two
  fields, with their round trips.
- `ListSpec`: the screen state as a value. It has one function per handler,
  giving the state the handler leaves behind. Outside calls are parameters
  that say how they settled:
  - the list API resolves with a page or rejects;
  - the delete API resolves or rejects;
  - the confirm dialog is confirmed or cancelled.
  `Step` and `Run` apply any sequence of handlers.
- `ListProperties`: facts that hold for every run of handlers, proved by
  induction over the run.
- `ListHook`: the class. Each method updates the fields in place and
  ensures the new state equals the `ListSpec` function applied to the old
  state.

The list refresh is split at its `await`. `BeginList` raises `pageLoading`
and issues the request. `FinishList` is the `finally` plus the code after
the `await`. So the contracts show that loading is true while the call is
out and false once it settles.

Three facts about the code that the model keeps as they are:
- `exportAllExcel` also calls `fillPaginationParams`
  (src/views/workflow/category/utils/hook.tsx:153,
  src/views/system/post/utils/hook.tsx:152), so the export request carries
  the current page and page size.
- Refreshes are not sequenced. Nothing makes the last response win.
- A rejected bulk delete ends in the same `catch` as a cancelled
  confirmation: an info notice, then `clearSelection()` on the table widget.
  It does not show an error, and it does not change `multipleSelection`.

## Model

| member | source | states |
|---|---|---|
| TimeRangeView.Get | src/views/workflow/category/utils/hook.tsx:31-37 | the getter returns a pair iff both ends are present and non-empty; the pair is exactly (beginTime, endTime), so it is never half filled |
| TimeRangeView.Set | src/views/workflow/category/utils/hook.tsx:38-46 | a two-element value writes both ends; null, undefined or any other length clears both; both ends are always present together or absent together |
| TimeRangeView.SetThenGet | src/views/workflow/category/utils/hook.tsx:30-46 | setting [a, b] with a and b non-empty and reading back gives [a, b] |
| TimeRangeView.SetOtherThenGet | src/views/workflow/category/utils/hook.tsx:42-45 | setting a value that is not of length two leaves both fields undefined and reads back as null |
| TimeRangeView.GetThenSet | src/views/system/post/utils/hook.tsx:30-46 | writing back the pair the getter returned leaves both fields unchanged |
| TimeRangeView.SetWithEmptyEndReadsNull | src/views/system/post/utils/hook.tsx:31-41 | a two-element value with an empty end is stored as it is, yet the getter reads null |
| ListSpec.Init | src/views/system/post/utils/hook.tsx:18-58 | initial state: the given default column and export file name, page 1, page size 10, total 0, loading, default sort ascending, no rows, no selection, both time ends unset (range reads null), no calls made |
| ListSpec.SetTimeRange | src/views/workflow/category/utils/hook.tsx:38-46 | the setter changes exactly beginTime and endTime, to what `TimeRangeView.Set` gives |
| ListSpec.SelectionChanged | src/views/workflow/category/utils/hook.tsx:58 | the view's write to the exposed selection ref changes the selection and nothing else |
| ListSpec.PaginationChanged | src/views/workflow/category/utils/hook.tsx:23-28 | the view's write to the exposed pagination object changes the current page and page size and nothing else; sort and time filter are kept |
| ListSpec.BeginList | src/views/workflow/category/utils/hook.tsx:135-140 | before the list call settles, loading is true and one list request was issued with the current sort, page, page size and time filter; nothing else changes |
| ListSpec.FinishList | src/views/workflow/category/utils/hook.tsx:140-146 | once the call settles, loading is false either way; a success replaces rows and total with the response's, a failure keeps both |
| ListSpec.GetList | src/views/workflow/category/utils/hook.tsx:135-147 | a refresh issues exactly one list request, always ends with loading false, and changes rows and total only on success |
| ListSpec.OnSortChanged | src/views/workflow/category/utils/hook.tsx:117-121 | stores the sort, sets page 1, keeps the page size, and issues exactly one list request carrying the new sort and page 1; selection, time filter, default column and file name are kept |
| ListSpec.OnSearch | src/views/workflow/category/utils/hook.tsx:123-125 | asks the table widget to sort by the default column ascending; no state changes |
| ListSpec.ResetForm | src/views/workflow/category/utils/hook.tsx:127-133 | without a form nothing happens; with one, the form fields are reset, both time ends are cleared (range reads null) and the default sort is re-requested; nothing else changes |
| ListSpec.ExportAll | src/views/system/post/utils/hook.tsx:148-156 | one export request built from the sort, the current page and size, the time range and the file name; loading, rows, sort, pagination and selection are unchanged |
| ListSpec.HandleDelete | src/views/system/post/utils/hook.tsx:158-165 | deletes the one-element id list [row id]; on success a success notice and one refresh follow; a rejected delete changes nothing but recording the call |
| ListSpec.HandleBulkDelete | src/views/workflow/category/utils/hook.tsx:168-202 | empty selection: only a warning, no delete, no refresh. Otherwise a confirm, then: confirmed and deleted gives one delete of the whole selection, a success notice, then one refresh. Cancelled or rejected gives an info notice and a widget clearSelection, with no refresh and no state change. The selection is never modified |
| ListProperties.LoadingSettles | src/views/workflow/category/utils/hook.tsx:140-144 | once loading is false it stays false after any sequence of handlers, whatever the calls return |
| ListProperties.MountedNeverStuckLoading | src/views/workflow/category/utils/hook.tsx:204 | the screen starts loading; after the refresh on mount and any later handlers it is not loading |
| ListProperties.PageSizeKept | src/views/workflow/category/utils/hook.tsx:117-121 | without a page change from the view, no handler of the hook changes the page size |
| ListProperties.PageResetOnlyBySort | src/views/system/post/utils/hook.tsx:116-120 | the sort changes only through onSortChanged, page changes included; the current page changes only through onSortChanged and the view's page changes; after a sort change the page stays 1 until the view changes it |
| ListProperties.PageChangeKeepsQuery | src/views/system/post/utils/hook.tsx:134-139 | a page change followed by a refresh requests the new page and size with the sort and time filter unchanged |
| ListProperties.StepKeepsDeletesNonEmpty | src/views/workflow/category/utils/hook.tsx:168-194 | no single handler adds a delete call with an empty id list: single delete sends [row id], bulk delete sends the selection only when it is non-empty |
| ListProperties.DeleteCallsNeverEmpty | src/views/workflow/category/utils/hook.tsx:169-172 | every delete call ever made names at least one id |
| ListProperties.StepResults | src/views/system/post/utils/hook.tsx:139-146 | one handler keeps rows and total, or replaces them with the page of a list call it actually made (a refresh, a sort change, a successful delete, a confirmed and successful bulk delete of a non-empty selection) |
| ListProperties.ResultsComeFromServer | src/views/system/post/utils/hook.tsx:139-146 | after any run, rows and total are the initial ones or exactly the page of some list call that the screen actually made, in the state reached at that point, and that succeeded; a rejected delete or a cancelled bulk delete is never the source |
| ListProperties.SelectionOnlyFromView | src/views/system/post/utils/hook.tsx:167-199 | without a write from the view, no handler (bulk delete included) changes multipleSelection |
| ListProperties.TimeFilterKept | src/views/system/post/utils/hook.tsx:126-132 | only the timeRange setter and resetForm with a form change beginTime and endTime (export keeps them under the assumption listed under Left out) |
| ListHook.ListController.constructor | src/views/workflow/category/utils/hook.tsx:18-59 | the new controller is in the initial state of `ListSpec.Init` |
| ListHook.ListController.TimeRange | src/views/system/post/utils/hook.tsx:31-37 | the getter over the fields: a pair iff both ends are truthy, and then equal to them |
| ListHook.ListController.SetTimeRange | src/views/system/post/utils/hook.tsx:38-46 | in place: a length-two value writes both ends, anything else clears both |
| ListHook.ListController.SetSelection | src/views/system/post/utils/hook.tsx:57 | in place: the selection becomes the ids the view holds |
| ListHook.ListController.SetPagination | src/views/system/post/utils/hook.tsx:23-28 | in place: the view's page change sets current page and page size, keeping sort and time filter |
| ListHook.ListController.BeginList | src/views/system/post/utils/hook.tsx:134-139 | in place: loading raised and the list request recorded, as `ListSpec.BeginList` |
| ListHook.ListController.FinishList | src/views/system/post/utils/hook.tsx:139-146 | in place: loading cleared either way, rows and total replaced only on success |
| ListHook.ListController.GetList | src/views/system/post/utils/hook.tsx:134-146 | in place, as `ListSpec.GetList`; loading is false afterwards |
| ListHook.ListController.OnSortChanged | src/views/system/post/utils/hook.tsx:116-120 | in place: sort stored, page 1, page size kept, one refresh |
| ListHook.ListController.OnSearch | src/views/system/post/utils/hook.tsx:122-124 | in place, as `ListSpec.OnSearch` |
| ListHook.ListController.ResetForm | src/views/system/post/utils/hook.tsx:126-132 | in place, as `ListSpec.ResetForm` |
| ListHook.ListController.ExportAllExcel | src/views/workflow/category/utils/hook.tsx:149-157 | in place, as `ListSpec.ExportAll`: only the export call is recorded |
| ListHook.ListController.HandleDelete | src/views/workflow/category/utils/hook.tsx:159-166 | in place, as `ListSpec.HandleDelete` |
| ListHook.ListController.HandleBulkDelete | src/views/system/post/utils/hook.tsx:167-199 | in place, as `ListSpec.HandleBulkDelete`; the selection is unchanged |
| CategoryHook.UseCategoryHook | src/views/workflow/category/utils/hook.tsx:17-59 | a fresh controller sorted by categorySort ascending, page 1 of 10, total 0, loading, no rows, no selection |
| CategoryHook.SearchRoundTrip | src/views/workflow/category/utils/hook.tsx:117-125 | onSearch requests the categorySort ascending sort. When the table reports that sort back through onSortChanged, the screen is on page 1 of the default order after one list request |
| PostHook.UsePostHook | src/views/system/post/utils/hook.tsx:17-58 | a fresh controller sorted by postSort ascending, page 1 of 10, total 0, loading, no rows, no selection |
| PostHook.MountRequest | src/views/system/post/utils/hook.tsx:201 | the refresh on mount requests page 1 of 10 rows sorted by postSort ascending with no time filter |
| PostHook.BulkDeleteConfirmed | src/views/system/post/utils/hook.tsx:184-191 | bulk delete of [3, 7] that is confirmed and accepted: confirm, one delete of [3, 7], a success notice, then one list request |
| PostHook.BulkDeleteCancelled | src/views/system/post/utils/hook.tsx:193-198 | bulk delete of [3, 7] that is cancelled: no delete and no list call, an info notice and the widget's selection cleared; rows, loading and selection unchanged |

## Left out

- Table column definitions, the `cellRenderer` JSX, `dayjs` date formatting and the `statusMap` dictionary lookup. These are rendering only.
- Message and dialog presentation, including the HTML text naming the ids. Notices are kept only as their kind: warning, success or info. The confirm dialog is kept as the selection it shows and a confirmed/cancelled outcome.
- `CommonUtils.fillSortParams`, `fillPaginationParams` and `fillTimeRangeParams` are not part of this model. A logged request records its inputs (sort, page, page size, time filter, and for export the time range and file name), not the request object. So the model leaves out: request key names, how the direction is mapped to request values, the keys these helpers leave behind in the shared parameters object, and the `sortState.value != null` guard, which is always true here.
- ListSpec.ExportAll and ListProperties.TimeFilterKept: `exportAllExcel` hands `fillTimeRangeParams` the same object that holds `beginTime` and `endTime` (src/views/workflow/category/utils/hook.tsx:154, src/views/system/post/utils/hook.tsx:153). That helper's body is not part of this model. The model assumes it leaves those two fields as they are. A helper that rewrote or cleared them from `timeRange.value` would break both contracts: it could turn `(Some(""), Some("x"))`, which reads as null, into `(None, None)`.
- The filter fields bound to the form (code, name, status, create time). `formEl.resetFields()` is recorded as a call on the form widget. Its effect on those fields belongs to the form component.
- The API wrappers in src/api are not modelled: the `ids` comma-joining and the add and update calls. A list call is a `ListOutcome` and a delete call is a boolean outcome.
- Vue reactivity, `toRaw` and the `onMounted` registration. Mount is one call of `GetList`, which is how `MountedNeverStuckLoading` and `PostHook.MountRequest` state it.
- Asynchrony. Each handler runs to completion before the next starts. Overlapping refreshes are not modelled, and neither is their completion order.
- A rejection that escapes a handler's promise (a failed list call, a failed single delete) is kept only as its effect on the state and the log. Error display by the HTTP layer is outside the hook.
- The table widget's `sort()` and `clearSelection()` internals. They are recorded as calls. The widget reporting a sort back through `onSortChanged` is written as an explicit second call, as in `CategoryHook.SearchRoundTrip`.
- Page and page-size changes come from the pagination widget through the `pagination` object the hook returns. The model has them as a write of both fields (`PaginationChanged`). The view's wiring of a page change to a refresh is not in the hook; a run writes it as a separate `Refresh`, as in `PageChangeKeepsQuery`.
- Number widths. Pages, sizes, totals and ids are unbounded integers. Rows carry only their id.
