/**
 * The multi-select picker used for projects and labels: a "Select All" /
 * "Deselect All" button and one checkmark toggle per item, all editing a
 * bound set of ids. The picker only looks at the items' ids, so the items
 * are given by their ids in display order.
 */
module MultiSelect {
  import opened Keyed

  function Id(s: string): string
  {
    s
  }

  /** `Set(items.map { $0.id })`. */
  function IdSet(itemIds: seq<string>): (r: set<string>)
    ensures forall id :: id in r <==> id in itemIds
  {
    set i | i in itemIds
  }

  /** The bulk button's test, as written: the selection has as many ids as there are items. */
  predicate LooksAllSelected(selections: set<string>, itemIds: seq<string>)
  {
    |selections| == |itemIds|
  }

  /** The selection after the bulk button, as written. */
  function BulkToggled(selections: set<string>, itemIds: seq<string>): set<string>
  {
    if LooksAllSelected(selections, itemIds) then {} else IdSet(itemIds)
  }

  /** The button's caption, which names what a press does. */
  function BulkCaption(selections: set<string>, itemIds: seq<string>): (r: string)
    ensures r == "Deselect All" || r == "Select All"
    ensures r == "Deselect All" ==> BulkToggled(selections, itemIds) == {}
    ensures r == "Select All" ==> BulkToggled(selections, itemIds) == IdSet(itemIds)
  {
    if LooksAllSelected(selections, itemIds) then "Deselect All" else "Select All"
  }

  /**
   * With distinct item ids, a press either clears the selection (when it
   * looks full) or selects exactly every item, and then the next press
   * clears it.
   */
  lemma BulkToggleTwice(selections: set<string>, itemIds: seq<string>)
    requires UniqueKeys(itemIds, Id)
    ensures !LooksAllSelected(selections, itemIds) ==> BulkToggled(selections, itemIds) == IdSet(itemIds)
    ensures BulkToggled(BulkToggled(selections, itemIds), itemIds) == if LooksAllSelected(selections, itemIds) then IdSet(itemIds) else {}
  {
    DistinctIdCount(itemIds);
    if |itemIds| != 0 {
      var some := itemIds[0];
      assert some in IdSet(itemIds);
    }
  }

  lemma DistinctIdCount(itemIds: seq<string>)
    requires UniqueKeys(itemIds, Id)
    ensures |IdSet(itemIds)| == |itemIds|
  {
    UniqueKeysCount(itemIds, Id);
    assert IdSet(itemIds) == KeysOf(itemIds, Id) by {
      forall id | id in IdSet(itemIds) ensures id in KeysOf(itemIds, Id) {
        var i :| 0 <= i < |itemIds| && itemIds[i] == id;
        assert Id(itemIds[i]) == id;
      }
    }
  }

  /**
   * The cardinality test misreads a selection that still holds an id no
   * longer among the items (a stale saved id): with items p1 and p2 and the
   * selection {p1, stale}, the caption says "Deselect All" and a press
   * clears the selection although p2 was never selected.
   */
  lemma StaleIdClearsSelection()
    ensures "p2" !in {"p1", "stale"}
    ensures BulkCaption({"p1", "stale"}, ["p1", "p2"]) == "Deselect All"
    ensures BulkToggled({"p1", "stale"}, ["p1", "p2"]) == {}
  {
    assert |{"p1", "stale"}| == 2;
  }

  /** Every item is selected. */
  predicate AllSelected(selections: set<string>, itemIds: seq<string>)
  {
    IdSet(itemIds) <= selections
  }

  /** The bulk button as evidently intended: deselect only when every item is selected. */
  function BulkToggledIntended(selections: set<string>, itemIds: seq<string>): set<string>
  {
    if AllSelected(selections, itemIds) then {} else IdSet(itemIds)
  }

  /**
   * The intended button never clears while an item is unselected, and
   * selects every item in that case; when the selection holds only item
   * ids and the ids are distinct, it agrees with the code as written.
   */
  lemma IntendedBulkToggle(selections: set<string>, itemIds: seq<string>)
    ensures (exists id :: id in itemIds && id !in selections) ==>
              BulkToggledIntended(selections, itemIds) == IdSet(itemIds) != {}
    ensures AllSelected(selections, itemIds) ==> BulkToggledIntended(selections, itemIds) == {}
    ensures AllSelected(BulkToggledIntended(selections, itemIds), itemIds) == !AllSelected(selections, itemIds) || itemIds == []
    ensures UniqueKeys(itemIds, Id) && selections <= IdSet(itemIds) ==>
              BulkToggledIntended(selections, itemIds) == BulkToggled(selections, itemIds)
  {
    if exists id :: id in itemIds && id !in selections {
      var id :| id in itemIds && id !in selections;
      assert id in IdSet(itemIds);
    }
    if itemIds != [] {
      assert itemIds[0] in IdSet(itemIds);
    }
    if UniqueKeys(itemIds, Id) && selections <= IdSet(itemIds) {
      DistinctIdCount(itemIds);
      var all := IdSet(itemIds);
      assert all == selections + (all - selections);
      assert |all| == |selections| + |all - selections|;
      if |selections| == |itemIds| {
        assert all - selections == {};
        assert all == selections;
      } else {
        assert selections != all;
      }
    }
  }

  /** The picker's state: the items' ids and the bound selection. */
  class MultiSelectPicker {
    const itemIds: seq<string>
    var selections: set<string>

    constructor(itemIds: seq<string>, selections: set<string>)
      ensures this.itemIds == itemIds && this.selections == selections
    {
      this.itemIds := itemIds;
      this.selections := selections;
    }

    /** The `get` of an item's toggle binding. */
    predicate IsOn(id: string)
      reads this
    {
      id in selections
    }

    /** The bulk button's action. */
    method TapBulk()
      modifies this
      ensures selections == BulkToggled(old(selections), itemIds)
    {
      if |selections| == |itemIds| {
        selections := {};
      } else {
        selections := set i | i in itemIds;
      }
    }

    /** The `set` of an item's toggle binding: insert or remove that id only. */
    method SetOn(id: string, on: bool)
      modifies this
      ensures selections == if on then old(selections) + {id} else old(selections) - {id}
      ensures IsOn(id) == on
      ensures forall other :: other != id ==> IsOn(other) == old(IsOn(other))
    {
      if on {
        selections := selections + {id};
      } else {
        selections := selections - {id};
      }
    }
  }
}
