/** `usePostHook`: the list controller for posts. */
module PostHook {
  import opened ListTypes
  import ListSpec
  import ListHook

  const PostSort := "postSort"
  const PostExportFile := "岗位列表(全部).xlsx"

  /** Calling the hook: a fresh controller in its initial state. */
  method UsePostHook() returns (h: ListHook.ListController)
    ensures fresh(h)
    ensures h.Model() == ListSpec.Init(PostSort, PostExportFile)
    ensures h.sort == Sort("postSort", Ascending) && h.currentPage == 1 && h.pageSize == 10
    ensures h.total == 0 && h.pageLoading && h.dataList == [] && h.multipleSelection == []
  {
    h := new ListHook.ListController(PostSort, PostExportFile);
  }

  /** The first refresh on mount asks for page 1 of 10 rows sorted by
      `postSort` ascending, with no time filter. */
  lemma MountRequest(out: ListOutcome)
    ensures ListSpec.GetList(ListSpec.Init(PostSort, PostExportFile), out).trace
         == [ListRequested(Query(Sort("postSort", Ascending), 1, 10, None, None))]
  {
  }

  /** Bulk delete of posts 3 and 7, confirmed and accepted: the delete API is
      called once with both ids, then the list is refreshed once. */
  lemma BulkDeleteConfirmed(s: ListSpec.State, out: ListOutcome)
    requires s.multipleSelection == [3, 7]
    ensures var t := ListSpec.HandleBulkDelete(s, true, true, out);
      t.trace[|s.trace|..] == [ConfirmRequested([3, 7]), DeleteRequested([3, 7]), Notified(Success),
                               ListRequested(ListSpec.QueryOf(s))]
  {
  }

  /** Bulk delete of posts 3 and 7, cancelled: no delete and no list call,
      an info notice and the widget's selection cleared; the rows, the
      loading flag and the selection stay as they were. */
  lemma BulkDeleteCancelled(s: ListSpec.State, out: ListOutcome)
    requires s.multipleSelection == [3, 7]
    ensures var t := ListSpec.HandleBulkDelete(s, false, false, out);
      t.trace[|s.trace|..] == [ConfirmRequested([3, 7]), Notified(Info), TableSelectionCleared]
      && t.dataList == s.dataList && t.pageLoading == s.pageLoading && t.multipleSelection == [3, 7]
  {
  }
}
