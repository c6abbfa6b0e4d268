/**
 * The actions of the older client's window: the label menu, the refresh
 * button and timer, the first fetch on appearance and the error banner.
 * This client has no quick-filter buttons and no sinks on its selections.
 */
module LegacyContentScreen {
  import opened Wrappers
  import opened Seqs
  import opened LegacyTasks
  import opened LegacyStore
  import ContentScreen

  /** A tap on a label in the label menu: that id's membership flips, nothing else changes. */
  method TapLabel(vm: LegacyTaskListViewModel, labelId: string)
    modifies vm`selectedLabelIDs
    ensures vm.selectedLabelIDs == ContentScreen.ToggledMembership(old(vm.selectedLabelIDs), labelId)
  {
    if labelId in vm.selectedLabelIDs {
      vm.selectedLabelIDs := vm.selectedLabelIDs - {labelId};
    } else {
      vm.selectedLabelIDs := vm.selectedLabelIDs + {labelId};
    }
  }

  /**
   * After a label is ticked, every task carrying it passes the label
   * filter; after the last label is unticked, the filter keeps every task.
   */
  lemma TickedLabelShowsItsTasks(tasks: seq<LegacyTask>, selected: set<string>, labelId: string)
    ensures labelId !in selected ==>
      forall t :: t in tasks && labelId in t.labels ==>
        t in FilterTasksByLabels(tasks, ContentScreen.ToggledMembership(selected, labelId))
    ensures selected == {labelId} ==> FilterTasksByLabels(tasks, ContentScreen.ToggledMembership(selected, labelId)) == tasks
  {
    if labelId !in selected {
      var after := ContentScreen.ToggledMembership(selected, labelId);
      var kept := FilterTasksByLabels(tasks, after);
      forall t | t in tasks && labelId in t.labels ensures t in kept {
        assert LabelMatches(t, after);
        assert multiset(tasks)[t] > 0;
        assert multiset(kept)[t] > 0;
      }
    } else if selected == {labelId} {
      assert ContentScreen.ToggledMembership(selected, labelId) == {};
    }
  }

  /** The refresh button is enabled only while no fetch is running. */
  predicate RefreshEnabled(vm: LegacyTaskListViewModel)
    reads vm
  {
    !vm.isLoading
  }

  /** A tap on the (enabled) refresh button starts a fetch. */
  method TapRefresh(vm: LegacyTaskListViewModel) returns (started: bool)
    requires RefreshEnabled(vm)
    modifies vm`isLoading, vm`errorMessage
    ensures started && vm.isLoading && vm.errorMessage == None
  {
    started := vm.BeginFetch();
  }

  /** The five-minute timer: fetch only with no error banner and no fetch running. */
  method PeriodicRefresh(vm: LegacyTaskListViewModel) returns (started: bool)
    modifies vm`isLoading, vm`errorMessage
    ensures started <==> old(vm.errorMessage).None? && !old(vm.isLoading)
    ensures started ==> vm.isLoading && vm.errorMessage == None
    ensures !started ==> vm.isLoading == old(vm.isLoading) && vm.errorMessage == old(vm.errorMessage)
  {
    if vm.errorMessage == None && !vm.isLoading {
      started := vm.BeginFetch();
    } else {
      started := false;
    }
  }

  /** `onAppear`: fetch when the cache is empty (and nothing is loading). */
  method OnAppear(vm: LegacyTaskListViewModel) returns (started: bool)
    modifies vm`isLoading, vm`errorMessage
    ensures started <==> old(vm.allTasks) == [] && !old(vm.isLoading)
    ensures old(vm.allTasks) != [] ==> vm.isLoading == old(vm.isLoading) && vm.errorMessage == old(vm.errorMessage)
  {
    if vm.allTasks == [] {
      started := vm.BeginFetch();
    } else {
      started := false;
    }
  }

  /** The error banner's dismiss action. */
  method DismissBanner(vm: LegacyTaskListViewModel)
    modifies vm`errorMessage
    ensures vm.errorMessage == None
  {
    vm.DismissError();
  }
}
