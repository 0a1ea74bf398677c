/** Properties of every run of the list screen: whatever handlers fire, in
    whatever order, and however the outside calls settle. */
module ListProperties {
  import opened ListTypes
  import opened ListSpec
  import TimeRangeView

  /** The actions whose outcome parameter for the list call is a page. */
  predicate Responds(a: Action)
  {
    (a.Refresh? || a.SortChanged? || a.Delete? || a.BulkDelete?) && a.out.Listed?
  }

  /** Fired in state `s`, the action actually calls the list API and the call
      comes back with a page: a delete must have succeeded, and a bulk delete
      must also have had a selection and been confirmed. */
  predicate Issued(s: State, a: Action)
  {
    Responds(a)
    && (a.Delete? ==> a.deleted)
    && (a.BulkDelete? ==> a.confirmed && a.deleted && s.multipleSelection != [])
  }

  /** No call to the delete API in the log carries an empty id list. */
  predicate DeletesNonEmpty(tr: seq<Event>)
  {
    forall e :: e in tr && e.DeleteRequested? ==> e.ids != []
  }

  /** Once the first refresh has settled, no later handler leaves the screen
      loading: every raise of `pageLoading` is undone by the `finally`. */
  lemma {:induction false} LoadingSettles(s: State, acts: seq<Action>)
    requires !s.pageLoading
    ensures !Run(s, acts).pageLoading
    decreases |acts|
  {
    if acts != [] {
      LoadingSettles(Step(s, acts[0]), acts[1..]);
    }
  }

  /** A freshly mounted screen (mount refreshes once) is never left loading,
      whatever happens afterwards. */
  lemma MountedNeverStuckLoading(defaultProp: string, fileName: string, out: ListOutcome, acts: seq<Action>)
    ensures Init(defaultProp, fileName).pageLoading
    ensures !Run(Init(defaultProp, fileName), [Refresh(out)] + acts).pageLoading
  {
    var s0 := Init(defaultProp, fileName);
    assert ([Refresh(out)] + acts)[1..] == acts;
    LoadingSettles(Step(s0, Refresh(out)), acts);
  }

  /** The actions after position `i` do not touch the pagination. */
  predicate NoPageChangeAfter(acts: seq<Action>, i: int)
  {
    forall j :: 0 <= j < |acts| && i < j ==> !acts[j].PageChanged?
  }

  /** Only the view writes the page size: no handler of the hook changes it. */
  lemma {:induction false} PageSizeKept(s: State, acts: seq<Action>)
    requires forall i :: 0 <= i < |acts| ==> !acts[i].PageChanged?
    ensures Run(s, acts).pageSize == s.pageSize
    decreases |acts|
  {
    if acts != [] {
      PageSizeKept(Step(s, acts[0]), acts[1..]);
    }
  }

  /** The sort changes only through `onSortChanged`, page changes included;
      the current page changes only through `onSortChanged` and the view's
      page changes; and after a sort change the screen stays on page 1 until
      the view changes the page. */
  lemma {:induction false} PageResetOnlyBySort(s: State, acts: seq<Action>)
    ensures (forall i :: 0 <= i < |acts| ==> !acts[i].SortChanged?) ==> Run(s, acts).sort == s.sort
    ensures (forall i :: 0 <= i < |acts| ==> !acts[i].SortChanged? && !acts[i].PageChanged?) ==>
              Run(s, acts).currentPage == s.currentPage
    ensures (exists i :: 0 <= i < |acts| && acts[i].SortChanged? && NoPageChangeAfter(acts, i)) ==>
              Run(s, acts).currentPage == 1
    decreases |acts|
  {
    if acts != [] {
      var s1, rest := Step(s, acts[0]), acts[1..];
      PageResetOnlyBySort(s1, rest);
      assert forall k :: 0 <= k < |rest| ==> rest[k] == acts[k + 1];
      if exists i :: 0 <= i < |acts| && acts[i].SortChanged? && NoPageChangeAfter(acts, i) {
        var i :| 0 <= i < |acts| && acts[i].SortChanged? && NoPageChangeAfter(acts, i);
        if i > 0 {
          assert rest[i - 1].SortChanged? && NoPageChangeAfter(rest, i - 1);
        } else {
          assert s1.currentPage == 1;
          assert forall k :: 0 <= k < |rest| ==> !rest[k].PageChanged?;
          if exists k :: 0 <= k < |rest| && rest[k].SortChanged? {
            var k :| 0 <= k < |rest| && rest[k].SortChanged?;
            assert NoPageChangeAfter(rest, k);
          }
        }
      }
    }
  }

  /** Changing the page, followed by the refresh the view makes, requests the
      new page with the sort and the time filter unchanged. */
  lemma PageChangeKeepsQuery(s: State, page: int, size: int, out: ListOutcome)
    ensures var t := Run(s, [PageChanged(page, size), Refresh(out)]);
      t.sort == s.sort && t.beginTime == s.beginTime && t.endTime == s.endTime
      && t.trace == s.trace + [ListRequested(Query(s.sort, page, size, s.beginTime, s.endTime))]
  {
    var acts := [PageChanged(page, size), Refresh(out)];
    var s1 := PaginationChanged(s, page, size);
    assert acts[1..] == [Refresh(out)] && acts[1..][1..] == [];
    assert Run(s, acts) == Run(s1, [Refresh(out)]) == GetList(s1, out);
  }

  /** Appending calls that name rows keeps every delete call non-empty. */
  lemma AppendKeepsDeletesNonEmpty(tr: seq<Event>, added: seq<Event>)
    requires DeletesNonEmpty(tr) && DeletesNonEmpty(added)
    ensures DeletesNonEmpty(tr + added)
  {
    forall e | e in tr + added && e.DeleteRequested? ensures e.ids != [] {
      assert e in tr || e in added;
    }
  }

  /** One handler adds no delete call with an empty id list. */
  lemma StepKeepsDeletesNonEmpty(s: State, a: Action)
    requires DeletesNonEmpty(s.trace)
    ensures DeletesNonEmpty(Step(s, a).trace)
  {
    var t := Step(s, a);
    match a
    case Delete(row, deleted, out) =>
      var added := if deleted then [DeleteRequested([row.id]), Notified(Success), ListRequested(QueryOf(s))]
                   else [DeleteRequested([row.id])];
      assert t.trace == s.trace + added;
      AppendKeepsDeletesNonEmpty(s.trace, added);
    case BulkDelete(confirmed, deleted, out) =>
      var sel := s.multipleSelection;
      var added :=
        if sel == [] then [Notified(Warning)]
        else if confirmed && deleted then
          [ConfirmRequested(sel), DeleteRequested(sel), Notified(Success), ListRequested(QueryOf(s))]
        else if confirmed then [ConfirmRequested(sel), DeleteRequested(sel), Notified(Info), TableSelectionCleared]
        else [ConfirmRequested(sel), Notified(Info), TableSelectionCleared];
      assert t.trace == s.trace + added;
      AppendKeepsDeletesNonEmpty(s.trace, added);
    case Refresh(out) =>
      AppendKeepsDeletesNonEmpty(s.trace, [ListRequested(QueryOf(s))]);
    case SortChanged(sort, out) =>
      AppendKeepsDeletesNonEmpty(s.trace, [ListRequested(Query(sort, 1, s.pageSize, s.beginTime, s.endTime))]);
    case Search =>
      AppendKeepsDeletesNonEmpty(s.trace, [TableSortRequested(DefaultSort(s))]);
    case Reset(formPresent) =>
      var added := if formPresent then [FormFieldsReset, TableSortRequested(DefaultSort(s))] else [];
      assert t.trace == s.trace + added;
      AppendKeepsDeletesNonEmpty(s.trace, added);
    case RangeChanged(v) =>
      assert t.trace == s.trace;
    case Select(ids) =>
      assert t.trace == s.trace;
    case PageChanged(page, size) =>
      assert t.trace == s.trace;
    case Export =>
      AppendKeepsDeletesNonEmpty(s.trace, [ExportRequested(QueryOf(s), TimeRangeView.Get(s.beginTime, s.endTime), s.exportFileName)]);
  }

  /** Every call to the delete API that the screen ever makes names at least
      one row: the empty-selection guard keeps bulk delete from calling it. */
  lemma {:induction false} DeleteCallsNeverEmpty(s: State, acts: seq<Action>)
    requires DeletesNonEmpty(s.trace)
    ensures DeletesNonEmpty(Run(s, acts).trace)
    decreases |acts|
  {
    if acts != [] {
      StepKeepsDeletesNonEmpty(s, acts[0]);
      DeleteCallsNeverEmpty(Step(s, acts[0]), acts[1..]);
    }
  }

  /** One handler either keeps the rows and the total or replaces them with
      the page of the list call it issued. */
  lemma StepResults(s: State, a: Action)
    ensures var t := Step(s, a);
      (t.dataList == s.dataList && t.total == s.total)
      || (Issued(s, a) && a.out.page == Page(t.dataList, t.total))
  {
  }

  /** Running a prefix one action longer is one step, then the shorter prefix
      of the rest. */
  lemma RunPrefix(s: State, acts: seq<Action>, j: nat)
    requires j < |acts|
    ensures Run(s, acts[..j + 1]) == Run(Step(s, acts[0]), acts[1..][..j])
  {
    assert acts[..j + 1][0] == acts[0];
    assert acts[..j + 1][1..] == acts[1..][..j];
  }

  /** The rows and the total shown are either the ones the screen started with
      or exactly those of some list call that the screen made and that
      succeeded: a failed list call, a rejected delete and a cancelled bulk
      delete never touch them. */
  lemma {:induction false} ResultsComeFromServer(s: State, acts: seq<Action>)
    ensures var t := Run(s, acts);
      (t.dataList == s.dataList && t.total == s.total)
      || (exists i :: 0 <= i < |acts| && Issued(Run(s, acts[..i]), acts[i])
                      && acts[i].out.page == Page(t.dataList, t.total))
    decreases |acts|
  {
    if acts != [] {
      var s1, rest := Step(s, acts[0]), acts[1..];
      var t := Run(s1, rest);
      ResultsComeFromServer(s1, rest);
      StepResults(s, acts[0]);
      if t.dataList == s1.dataList && t.total == s1.total {
        if !(s1.dataList == s.dataList && s1.total == s.total) {
          assert acts[..0] == [];
          assert Issued(Run(s, acts[..0]), acts[0]) && acts[0].out.page == Page(t.dataList, t.total);
        }
      } else {
        var j :| 0 <= j < |rest| && Issued(Run(s1, rest[..j]), rest[j])
                 && rest[j].out.page == Page(t.dataList, t.total);
        RunPrefix(s, acts, j);
        assert acts[j + 1] == rest[j];
        assert Issued(Run(s, acts[..j + 1]), acts[j + 1]);
      }
    }
  }

  /** Only the view writes the selection: no handler of the hook, bulk delete
      included, changes `multipleSelection`. */
  lemma {:induction false} SelectionOnlyFromView(s: State, acts: seq<Action>)
    requires forall i :: 0 <= i < |acts| ==> !acts[i].Select?
    ensures Run(s, acts).multipleSelection == s.multipleSelection
    decreases |acts|
  {
    if acts != [] {
      SelectionOnlyFromView(Step(s, acts[0]), acts[1..]);
    }
  }

  /** Of the handlers modelled, only the `timeRange` setter and `resetForm`
      with a form write the time filter. Exporting counts as keeping it
      because `ExportAll` takes the time-range helper it calls to leave
      `beginTime` and `endTime` as they are; that helper is outside the model. */
  lemma {:induction false} TimeFilterKept(s: State, acts: seq<Action>)
    requires forall i :: 0 <= i < |acts| ==> !acts[i].RangeChanged? && acts[i] != Reset(true)
    ensures Run(s, acts).beginTime == s.beginTime && Run(s, acts).endTime == s.endTime
    decreases |acts|
  {
    if acts != [] {
      TimeFilterKept(Step(s, acts[0]), acts[1..]);
    }
  }
}
