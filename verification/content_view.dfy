/**
 * The actions of the menubar window (`ContentView` and its `FilterButton`):
 * the quick-filter buttons, the label menu, the refresh button and timer,
 * the first fetch on appearance, the disabled pickers and the error banner.
 * Each action calls the view-model the way the view's closures do; the
 * view-model's `@Published` sinks (persist, reset the page) are part of the
 * setters it calls.
 */
module ContentScreen {
  import opened Wrappers
  import opened Tasks
  import opened TaskView
  import opened TaskStore
  import Settings

  /** The category after tapping `button`: a selected button falls back to All. */
  function TappedCategory(current: FilterCategory, button: FilterCategory): FilterCategory
  {
    if current == button then All else button
  }

  /**
   * Tapping a quick-filter button selects it, tapping it again returns to
   * All, and a third tap selects it again.
   */
  lemma TapTwice(current: FilterCategory, button: FilterCategory)
    requires button != All
    ensures current != button ==> TappedCategory(current, button) == button
    ensures TappedCategory(TappedCategory(current, button), button) == if current == button then button else All
    ensures TappedCategory(TappedCategory(TappedCategory(current, button), button), button) == TappedCategory(current, button)
  {
  }

  /** `FilterButton`'s action. */
  method TapFilterButton(vm: TaskListViewModel, button: FilterCategory, settings: Settings.SettingsService)
    modifies vm`filterCategory, vm`currentPage, settings
    ensures vm.filterCategory == TappedCategory(old(vm.filterCategory), button)
    ensures vm.currentPage == 0
    ensures settings.FilterCategory() == vm.filterCategory
  {
    if vm.filterCategory == button {
      vm.SetFilterCategory(All, settings);
    } else {
      vm.SetFilterCategory(button, settings);
    }
  }

  /** The label menu's action on one id: remove it if present, insert it otherwise. */
  function ToggledMembership(ids: set<string>, id: string): (r: set<string>)
    ensures id in r <==> id !in ids
    ensures forall other :: other != id ==> (other in r <==> other in ids)
  {
    if id in ids then ids - {id} else ids + {id}
  }

  /** Toggling the same label twice restores the selection. */
  lemma ToggleTwice(ids: set<string>, id: string)
    ensures ToggledMembership(ToggledMembership(ids, id), id) == ids
  {
  }

  /** A tap on a label in the label menu. */
  method TapLabel(vm: TaskListViewModel, labelId: string)
    modifies vm`selectedLabelIDs, vm`currentPage
    ensures vm.selectedLabelIDs == ToggledMembership(old(vm.selectedLabelIDs), labelId)
    ensures vm.currentPage == 0
  {
    if labelId in vm.selectedLabelIDs {
      vm.SetSelectedLabelIDs(vm.selectedLabelIDs - {labelId});
    } else {
      vm.SetSelectedLabelIDs(vm.selectedLabelIDs + {labelId});
    }
  }

  /** The project picker is disabled in Inbox. */
  predicate ProjectPickerDisabled(c: FilterCategory)
  {
    c == Inbox
  }

  /** The label menu is disabled in Completed. */
  predicate LabelMenuDisabled(c: FilterCategory)
  {
    c == Completed
  }

  /**
   * A control is disabled exactly where its filter is skipped: with the
   * picker disabled the project selection has no effect, and with it
   * enabled a selection drops a task of another project; likewise for the
   * label menu.
   */
  lemma DisabledControlsMatchSkippedFilters(tasks: seq<TodoTask>, c: FilterCategory, projects: set<string>, labels: set<string>, t: TodoTask, p: string)
    ensures ProjectPickerDisabled(c) ==> ProjectStep(tasks, c, projects) == tasks
    ensures LabelMenuDisabled(c) ==> LabelStep(tasks, c, labels) == tasks
    ensures !ProjectPickerDisabled(c) && t.projectId != Some(p) ==> ProjectStep([t], c, {p}) == []
    ensures !LabelMenuDisabled(c) && p !in t.labels ==> LabelStep([t], c, {p}) == []
  {
  }

  /** The refresh button is enabled only while no fetch is running. */
  predicate RefreshEnabled(vm: TaskListViewModel)
    reads vm
  {
    !vm.isLoading
  }

  /** A tap on the (enabled) refresh button starts a fetch. */
  method TapRefresh(vm: TaskListViewModel) returns (started: bool)
    requires RefreshEnabled(vm)
    modifies vm`isLoading, vm`errorMessage
    ensures started && vm.isLoading && vm.errorMessage == None
  {
    started := vm.BeginFetch();
  }

  /** The five-minute timer: fetch only with no error banner and no fetch running. */
  method PeriodicRefresh(vm: TaskListViewModel) returns (started: bool)
    modifies vm`isLoading, vm`errorMessage
    ensures started <==> old(vm.errorMessage).None? && !old(vm.isLoading)
    ensures started ==> vm.isLoading && vm.errorMessage == None
    ensures !started ==> vm.isLoading == old(vm.isLoading) && vm.errorMessage == old(vm.errorMessage)
  {
    if vm.errorMessage == None && !vm.isLoading {
      started := vm.BeginFetch();
    } else {
      started := false;
    }
  }

  /** `onAppear`: fetch when the cache is empty (and, through `fetchData`'s guard, nothing is loading). */
  method OnAppear(vm: TaskListViewModel) returns (started: bool)
    modifies vm`isLoading, vm`errorMessage
    ensures started <==> old(vm.allTasks) == [] && !old(vm.isLoading)
    ensures old(vm.allTasks) != [] ==> vm.isLoading == old(vm.isLoading) && vm.errorMessage == old(vm.errorMessage)
  {
    if vm.allTasks == [] {
      started := vm.BeginFetch();
    } else {
      started := false;
    }
  }

  /** The error banner's dismiss action. */
  method DismissBanner(vm: TaskListViewModel)
    modifies vm`errorMessage
    ensures vm.errorMessage == None
  {
    vm.DismissError();
  }
}
