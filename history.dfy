/**
 * The persisted summary history (the `useSummaryHistory` hook): an ordered
 * list of items, newest first, hydrated once from the browser's key-value
 * storage and written back in full after every change once hydration is done.
 */
module History {
  import opened Types

  /** The single storage key the whole history lives under. */
  const StorageKey: string := "pdf-summarizer-history"

  /**
   * What the storage holds under a key, seen through JSON parsing: a history
   * that parses, or text that does not (including the empty string, which the
   * load treats as nothing stored).
   */
  datatype Stored = History(items: seq<SummaryItem>) | Unparsable

  /** The browser's durable key-value storage (`localStorage`). */
  class LocalStorage {
    var entries: map<string, Stored>

    constructor (initial: map<string, Stored>)
      ensures entries == initial
    {
      entries := initial;
    }

    method GetItem(key: string) returns (r: Option<Stored>)
      ensures key in entries ==> r == Some(entries[key])
      ensures key !in entries ==> r == None
    {
      r := if key in entries then Some(entries[key]) else None;
    }

    method SetItem(key: string, value: Stored)
      modifies this
      ensures entries == old(entries)[key := value]
    {
      entries := entries[key := value];
    }
  }

  /**
   * The items of `items` whose id differs from `id`, in their old order
   * (the `filter` of removeSummary).
   */
  function WithoutId(items: seq<SummaryItem>, id: string): (r: seq<SummaryItem>)
    ensures |r| <= |items|
    ensures forall x :: x in r <==> x in items && x.id != id
    ensures id !in IdSet(r)
  {
    if items == [] then []
    else if items[0].id == id then WithoutId(items[1..], id)
    else [items[0]] + WithoutId(items[1..], id)
  }

  /** Filtering distributes over concatenation: the relative order of the kept items is the old one. */
  lemma {:induction false} WithoutIdDistributes(a: seq<SummaryItem>, b: seq<SummaryItem>, id: string)
    ensures WithoutId(a + b, id) == WithoutId(a, id) + WithoutId(b, id)
  {
    if a == [] {
      assert a + b == b;
    } else {
      assert (a + b)[0] == a[0];
      assert (a + b)[1..] == a[1..] + b;
      WithoutIdDistributes(a[1..], b, id);
    }
  }

  /** Removing an id that no item carries leaves the list as it was. */
  lemma {:induction false} WithoutAbsentId(items: seq<SummaryItem>, id: string)
    requires id !in IdSet(items)
    ensures WithoutId(items, id) == items
  {
    if items != [] {
      assert items[0] in items;
      assert IdSet(items[1..]) <= IdSet(items) by {
        forall x | x in IdSet(items[1..]) ensures x in IdSet(items) {
          var it :| it in items[1..] && it.id == x;
          assert it in items;
        }
      }
      WithoutAbsentId(items[1..], id);
    }
  }

  /**
   * When no other item carries the id of the item at `k`, removing that id
   * drops exactly that item and keeps the others in order: the list shrinks
   * by one. Other ids may repeat (a loaded history need not be distinct).
   */
  lemma WithoutUniqueId(items: seq<SummaryItem>, k: nat)
    requires k < |items|
    requires forall i :: 0 <= i < |items| && i != k ==> items[i].id != items[k].id
    ensures WithoutId(items, items[k].id) == items[..k] + items[k + 1..]
    ensures |WithoutId(items, items[k].id)| == |items| - 1
  {
    var id := items[k].id;
    var before, after := items[..k], items[k + 1..];
    OtherIdsAbsent(items, k, 0, k);
    OtherIdsAbsent(items, k, k + 1, |items|);
    assert items == before + [items[k]] + after;
    WithoutOnlyMiddle(before, items[k], after);
  }

  /** An item whose id occurs nowhere else in the list is the only one its id's removal drops. */
  lemma WithoutOnlyMiddle(before: seq<SummaryItem>, x: SummaryItem, after: seq<SummaryItem>)
    requires x.id !in IdSet(before) && x.id !in IdSet(after)
    ensures WithoutId(before + [x] + after, x.id) == before + after
  {
    WithoutLastOnly(before, x);
    WithoutIdDistributes(before + [x], after, x.id);
    WithoutAbsentId(after, x.id);
  }

  /** Removing the id of an appended item that only it carries gives back the list before it. */
  lemma WithoutLastOnly(before: seq<SummaryItem>, x: SummaryItem)
    requires x.id !in IdSet(before)
    ensures WithoutId(before + [x], x.id) == before
  {
    WithoutIdDistributes(before, [x], x.id);
    WithoutAbsentId(before, x.id);
    assert WithoutId([x], x.id) == [] by {
      assert [x][1..] == [];
    }
    assert before + [] == before;
  }

  /** When only position `k` carries its id, a slice that skips `k` does not carry it. */
  lemma OtherIdsAbsent(items: seq<SummaryItem>, k: nat, lo: nat, hi: nat)
    requires k < |items| && lo <= hi <= |items|
    requires forall i :: 0 <= i < |items| && i != k ==> items[i].id != items[k].id
    requires k < lo || hi <= k
    ensures items[k].id !in IdSet(items[lo..hi])
  {
  }

  /** Removal keeps the ids pairwise distinct. */
  lemma {:induction false} WithoutIdKeepsDistinct(items: seq<SummaryItem>, id: string)
    requires DistinctIds(items)
    ensures DistinctIds(WithoutId(items, id))
  {
    if items != [] {
      var tail := items[1..];
      assert DistinctIds(tail) by {
        forall i, j | 0 <= i < j < |tail| ensures tail[i].id != tail[j].id {
          assert tail[i] == items[i + 1] && tail[j] == items[j + 1];
        }
      }
      WithoutIdKeepsDistinct(tail, id);
      if items[0].id != id {
        assert items[0].id !in IdSet(WithoutId(tail, id)) by {
          forall x | x in WithoutId(tail, id) ensures x.id != items[0].id {
            var i :| 0 <= i < |tail| && tail[i] == x;
            assert items[i + 1] == x;
          }
        }
        PrependKeepsDistinct(items[0], WithoutId(tail, id));
      }
    }
  }

  /**
   * The hook's state: the in-memory history, the flag that hydration has
   * finished, and the storage it hydrates from and saves to.
   */
  class SummaryHistoryStore {
    var items: seq<SummaryItem>
    var isLoaded: bool
    const storage: LocalStorage

    /**
     * Once hydration is done, the storage holds the in-memory history under
     * the history key.
     */
    ghost predicate Synced()
      reads this, storage
    {
      isLoaded ==> StorageKey in storage.entries && storage.entries[StorageKey] == History(items)
    }

    /** The hook's initial render: an empty history, not yet loaded, nothing written. */
    constructor (storage: LocalStorage)
      ensures this.storage == storage
      ensures items == [] && !isLoaded
      ensures Synced()
    {
      this.storage := storage;
      items := [];
      isLoaded := false;
    }

    /**
     * The save effect: writes the whole history under the key, but only once
     * hydration has finished.
     */
    method Save()
      modifies storage
      ensures isLoaded ==> storage.entries == old(storage.entries)[StorageKey := History(items)]
      ensures !isLoaded ==> storage.entries == old(storage.entries)
      ensures Synced()
    {
      if isLoaded {
        storage.SetItem(StorageKey, History(items));
      }
    }

    /**
     * The mount effect: adopts the stored history when there is one that
     * parses, keeps the in-memory history otherwise, marks the store loaded
     * on every path, and then the save effect writes the result back.
     */
    method Load()
      requires !isLoaded
      modifies this, storage
      ensures isLoaded
      ensures (StorageKey in old(storage.entries) && old(storage.entries)[StorageKey].History?) ==>
                items == old(storage.entries)[StorageKey].items
      ensures (StorageKey !in old(storage.entries) || old(storage.entries)[StorageKey].Unparsable?) ==>
                items == old(items)
      ensures storage.entries == old(storage.entries)[StorageKey := History(items)]
      ensures Synced()
    {
      var stored := storage.GetItem(StorageKey);
      if stored.Some? && stored.value.History? {
        items := stored.value.items;
      }
      isLoaded := true;
      Save();
    }

    /**
     * Builds an item from the file and the summary text, puts it in front of
     * the history and returns it. The id, the clock reading and the blob URL
     * are supplied by the caller.
     */
    method Add(file: PdfFile, text: string, id: string, now: int, url: string) returns (item: SummaryItem)
      modifies this, storage
      ensures item == SummaryItem(id, file.name, file.size, text, now, Some(url))
      ensures items == [item] + old(items)
      ensures isLoaded == old(isLoaded)
      ensures isLoaded ==> storage.entries == old(storage.entries)[StorageKey := History(items)]
      ensures !isLoaded ==> storage.entries == old(storage.entries)
      ensures Synced()
      ensures old(DistinctIds(items)) && id !in old(IdSet(items)) ==> DistinctIds(items)
    {
      item := SummaryItem(id, file.name, file.size, text, now, Some(url));
      if DistinctIds(items) && id !in IdSet(items) {
        PrependKeepsDistinct(item, items);
      }
      items := [item] + items;
      Save();
    }

    /** Drops every item with the given id; a missing id is a no-op on the list. */
    method Remove(id: string)
      modifies this, storage
      ensures items == WithoutId(old(items), id)
      ensures id !in IdSet(old(items)) ==> items == old(items)
      ensures isLoaded == old(isLoaded)
      ensures isLoaded ==> storage.entries == old(storage.entries)[StorageKey := History(items)]
      ensures !isLoaded ==> storage.entries == old(storage.entries)
      ensures Synced()
      ensures old(DistinctIds(items)) ==> DistinctIds(items)
    {
      if id !in IdSet(items) {
        WithoutAbsentId(items, id);
      }
      if DistinctIds(items) {
        WithoutIdKeepsDistinct(items, id);
      }
      items := WithoutId(items, id);
      Save();
    }

    /** Empties the history, whatever it held. */
    method Clear()
      modifies this, storage
      ensures items == []
      ensures isLoaded == old(isLoaded)
      ensures isLoaded ==> storage.entries == old(storage.entries)[StorageKey := History([])]
      ensures !isLoaded ==> storage.entries == old(storage.entries)
      ensures Synced()
    {
      items := [];
      Save();
    }
  }
}
