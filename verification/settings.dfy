/**
 * The persisted view settings (`SettingsService`): sort option, filter
 * category and the selected project and label ids, kept in a key-value
 * store. Unknown or missing values read back as defaults; UUIDs are stored
 * as their upper-case strings and parsed back, dropping strings that are
 * not UUIDs.
 */
module Settings {
  import opened Wrappers
  import opened Tasks
  import opened Uuids

  const SortOptionKey: string := "settings.sortOption"
  const FilterCategoryKey: string := "settings.filterCategory"
  const SelectedProjectIDsKey: string := "settings.selectedProjectIDs"
  const SelectedLabelIDsKey: string := "settings.selectedLabelIDs"

  /** A value in the defaults store, as far as these settings can tell it apart. */
  datatype Stored = Str(s: string) | StrList(items: seq<string>) | OtherValue

  /** The getter's parse: `Set(uuidStrings.compactMap { UUID(uuidString: $0) })`. */
  function UuidsOf(strings: seq<string>): (r: set<Uuid>)
    ensures forall s :: s in strings && ParseUuid(s).Some? ==> ParseUuid(s).value in r
    ensures forall u :: u in r ==> exists s :: s in strings && ParseUuid(s) == Some(u)
  {
    set s | s in strings && ParseUuid(s).Some? :: ParseUuid(s).value
  }

  class SettingsService {
    var store: map<string, Stored>

    constructor(store: map<string, Stored>)
      ensures this.store == store
    {
      this.store := store;
    }

    /** `sortOption` get: `.dueDate` when the key is missing, not a string, or not a raw value. */
    function SortOption(): (r: Tasks.SortOption)
      reads this
      ensures (SortOptionKey in store && store[SortOptionKey].Str? && ParseSortOption(store[SortOptionKey].s).Some?)
              || r == DueDate
      ensures SortOptionKey in store && store[SortOptionKey].Str? && ParseSortOption(store[SortOptionKey].s).Some? ==>
              r == ParseSortOption(store[SortOptionKey].s).value
    {
      if SortOptionKey in store && store[SortOptionKey].Str? then
        ParseSortOption(store[SortOptionKey].s).GetOr(DueDate)
      else DueDate
    }

    /** `filterCategory` get: `.all` when missing or unknown. */
    function FilterCategory(): (r: Tasks.FilterCategory)
      reads this
      ensures (FilterCategoryKey in store && store[FilterCategoryKey].Str? && ParseFilterCategory(store[FilterCategoryKey].s).Some?)
              || r == All
      ensures FilterCategoryKey in store && store[FilterCategoryKey].Str? && ParseFilterCategory(store[FilterCategoryKey].s).Some? ==>
              r == ParseFilterCategory(store[FilterCategoryKey].s).value
    {
      if FilterCategoryKey in store && store[FilterCategoryKey].Str? then
        ParseFilterCategory(store[FilterCategoryKey].s).GetOr(All)
      else All
    }

    function IdsUnder(key: string): (r: set<Uuid>)
      reads this
      ensures !(key in store && store[key].StrList?) ==> r == {}
    {
      if key in store && store[key].StrList? then UuidsOf(store[key].items) else {}
    }

    function SelectedProjectIDs(): set<Uuid>
      reads this
    {
      IdsUnder(SelectedProjectIDsKey)
    }

    function SelectedLabelIDs(): set<Uuid>
      reads this
    {
      IdsUnder(SelectedLabelIDsKey)
    }

    /** `sortOption` set: stores the raw value, which reads back as the same option. */
    method SetSortOption(o: Tasks.SortOption)
      modifies this
      ensures store == old(store)[SortOptionKey := Str(SortOptionRaw(o))]
      ensures SortOption() == o
    {
      store := store[SortOptionKey := Str(SortOptionRaw(o))];
      RawValuesRoundTrip(o, All);
    }

    method SetFilterCategory(c: Tasks.FilterCategory)
      modifies this
      ensures store == old(store)[FilterCategoryKey := Str(FilterCategoryRaw(c))]
      ensures FilterCategory() == c
    {
      store := store[FilterCategoryKey := Str(FilterCategoryRaw(c))];
      RawValuesRoundTrip(DueDate, c);
    }

    /**
     * Writes `ids.map { $0.uuidString }` under `key`. Only `key` changes, and
     * reading it back gives the same set.
     */
    method SetIds(key: string, ids: set<Uuid>)
      modifies this
      ensures key in store && store[key].StrList?
      ensures store.Keys == old(store).Keys + {key}
      ensures forall k :: k in old(store) && k != key ==> store[k] == old(store)[k]
      ensures IdsUnder(key) == ids
    {
      var strings := UuidStrings(ids);
      store := store[key := StrList(strings)];
    }

    method SetSelectedProjectIDs(ids: set<Uuid>)
      modifies this
      ensures SelectedProjectIDs() == ids
      ensures forall k :: k in old(store) && k != SelectedProjectIDsKey ==> k in store && store[k] == old(store)[k]
    {
      SetIds(SelectedProjectIDsKey, ids);
    }

    method SetSelectedLabelIDs(ids: set<Uuid>)
      modifies this
      ensures SelectedLabelIDs() == ids
      ensures forall k :: k in old(store) && k != SelectedLabelIDsKey ==> k in store && store[k] == old(store)[k]
    {
      SetIds(SelectedLabelIDsKey, ids);
    }
  }

  lemma UuidsOfSnoc(strings: seq<string>, u: Uuid)
    ensures UuidsOf(strings + [UuidString(u)]) == UuidsOf(strings) + {u}
  {
    ParseUuidString(u);
    forall v | v in UuidsOf(strings + [UuidString(u)]) ensures v in UuidsOf(strings) + {u} {
      var s :| s in strings + [UuidString(u)] && ParseUuid(s) == Some(v);
      if s !in strings {
        assert s == UuidString(u);
      }
    }
  }

  /** `ids.map { $0.uuidString }`, in some order; the strings parse back to exactly `ids`. */
  method UuidStrings(ids: set<Uuid>) returns (strings: seq<string>)
    ensures UuidsOf(strings) == ids
    ensures |strings| == |ids|
  {
    var remaining := ids;
    strings := [];
    while remaining != {}
      invariant remaining <= ids
      invariant UuidsOf(strings) == ids - remaining
      invariant |strings| + |remaining| == |ids|
      decreases |remaining|
    {
      var u :| u in remaining;
      UuidsOfSnoc(strings, u);
      strings := strings + [UuidString(u)];
      remaining := remaining - {u};
    }
  }

  /** Each setting has its own key, so writing one leaves the others as they read. */
  lemma KeysDistinct()
    ensures |{SortOptionKey, FilterCategoryKey, SelectedProjectIDsKey, SelectedLabelIDsKey}| == 4
  {
  }

  /** A missing key reads as the default of each setting. */
  lemma EmptyStoreDefaults(s: SettingsService)
    requires s.store == map[]
    ensures s.SortOption() == DueDate && s.FilterCategory() == All
    ensures s.SelectedProjectIDs() == {} && s.SelectedLabelIDs() == {}
  {
  }

  /** A string that is no UUID is dropped on reading. */
  lemma UnparseableDropped(strings: seq<string>, bad: string)
    requires ParseUuid(bad).None?
    ensures UuidsOf(strings + [bad]) == UuidsOf(strings)
  {
    forall u | u in UuidsOf(strings + [bad]) ensures u in UuidsOf(strings) {
      var s :| s in strings + [bad] && ParseUuid(s) == Some(u);
      assert s in strings;
    }
  }
}
