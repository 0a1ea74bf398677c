/** `useCategoryHook`: the list controller for workflow categories. */
module CategoryHook {
  import opened ListTypes
  import ListSpec
  import ListHook

  const CategorySort := "categorySort"
  const CategoryExportFile := "流程分类列表(全部).xlsx"

  /** Calling the hook: a fresh controller in its initial state. */
  method UseCategoryHook() returns (h: ListHook.ListController)
    ensures fresh(h)
    ensures h.Model() == ListSpec.Init(CategorySort, CategoryExportFile)
    ensures h.sort == Sort("categorySort", Ascending) && h.currentPage == 1 && h.pageSize == 10
    ensures h.total == 0 && h.pageLoading && h.dataList == [] && h.multipleSelection == []
  {
    h := new ListHook.ListController(CategorySort, CategoryExportFile);
  }

  /** Search and reset ask the table for `categorySort` ascending; the widget
      reporting that sort back through `onSortChanged` lands on page 1 of the
      default order, with one list call. */
  lemma SearchRoundTrip(s: ListSpec.State, out: ListOutcome)
    requires s.defaultProp == CategorySort
    ensures var s1 := ListSpec.OnSearch(s);
      s1.trace[|s1.trace| - 1] == TableSortRequested(Sort("categorySort", Ascending))
      && var t := ListSpec.OnSortChanged(s1, s1.trace[|s1.trace| - 1].sort, out);
         t.sort == ListSpec.DefaultSort(s) && t.currentPage == 1
         && t.trace == s1.trace + [ListRequested(Query(Sort("categorySort", Ascending), 1, s.pageSize, s.beginTime, s.endTime))]
  {
  }
}
