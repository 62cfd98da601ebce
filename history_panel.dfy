/**
 * The history panel (the `SummaryHistory` component): which cards are
 * expanded, the per-card and the all-cards toggles, the toggle-all button's
 * label, the unit a file size is shown in, and what the panel renders.
 */
module HistoryPanel {
  import opened Types

  const CollapseAllLabel: string := "Collapse All"
  const ExpandAllLabel: string := "Expand All"

  /** Every id of `items` mapped to `v` and nothing else, built left to right like the source's `reduce`. */
  function AllSetTo(items: seq<SummaryItem>, v: bool): (m: map<string, bool>)
    ensures m.Keys == IdSet(items)
    ensures forall id :: id in m ==> m[id] == v
  {
    if items == [] then map[]
    else
      var init := items[..|items| - 1];
      IdSetSnoc(init, items[|items| - 1]);
      AllSetTo(init, v)[items[|items| - 1].id := v]
  }

  lemma IdSetSnoc(init: seq<SummaryItem>, last: SummaryItem)
    ensures IdSet(init + [last]) == IdSet(init) + {last.id}
  {
  }

  /** A card shows its summary only when its entry is present and true; a missing entry reads as collapsed. */
  predicate ShowsExpanded(m: map<string, bool>, id: string) {
    id in m && m[id]
  }

  /** Every entry of the map, stale ones of removed items included, is true. */
  predicate AllExpanded(m: map<string, bool>)
    ensures AllExpanded(m) <==> forall id :: id in m ==> ShowsExpanded(m, id)
    ensures m == map[] ==> AllExpanded(m)
  {
    forall id :: id in m ==> m[id]
  }

  /** The toggle-all button's label. */
  function ToggleAllLabel(m: map<string, bool>): (caption: string)
    ensures caption == CollapseAllLabel <==> AllExpanded(m)
    ensures caption == ExpandAllLabel <==> !AllExpanded(m)
  {
    if AllExpanded(m) then CollapseAllLabel else ExpandAllLabel
  }

  /** One card's toggle: the entry is negated, a missing entry counts as false and so becomes true. */
  function Toggled(m: map<string, bool>, id: string): (r: map<string, bool>)
    ensures r.Keys == m.Keys + {id}
    ensures ShowsExpanded(r, id) <==> !ShowsExpanded(m, id)
    ensures forall k :: k in m && k != id ==> r[k] == m[k]
  {
    m[id := !ShowsExpanded(m, id)]
  }

  /** The toggle-all button: every current item set to the negation of "all entries are true". */
  function ToggledAll(m: map<string, bool>, items: seq<SummaryItem>): (r: map<string, bool>)
    ensures r.Keys == IdSet(items)
    ensures forall id :: id in r ==> r[id] == !AllExpanded(m)
  {
    AllSetTo(items, !AllExpanded(m))
  }

  /** Toggling one card twice restores an entry that was there, and leaves a collapsed one where there was none. */
  lemma ToggleTwice(m: map<string, bool>, id: string)
    ensures id in m ==> Toggled(Toggled(m, id), id) == m
    ensures id !in m ==> Toggled(Toggled(m, id), id) == m[id := false]
  {
  }

  /** With at least one item, toggle-all turns the label over. */
  lemma LabelFlipsOnToggleAll(m: map<string, bool>, items: seq<SummaryItem>)
    requires items != []
    ensures ToggleAllLabel(ToggledAll(m, items)) != ToggleAllLabel(m)
  {
    var r := ToggledAll(m, items);
    assert items[0] in items;
    assert items[0].id in r;
  }

  /** With at least one item, pressing toggle-all twice leaves every item set to whether all entries were true before. */
  lemma ToggleAllTwice(m: map<string, bool>, items: seq<SummaryItem>)
    requires items != []
    ensures ToggledAll(ToggledAll(m, items), items) == AllSetTo(items, AllExpanded(m))
  {
  }

  /**
   * The label reads every entry of the map, including those of items that
   * were removed while the panel was open: one collapsed entry for an id
   * outside the current items makes the label offer "Expand All" although
   * every current card is expanded.
   */
  lemma LabelCountsRemovedItems(m: map<string, bool>, stale: string, items: seq<SummaryItem>)
    requires stale in m && !m[stale]
    requires stale !in IdSet(items)
    requires forall it :: it in items ==> ShowsExpanded(m, it.id)
    ensures ToggleAllLabel(m) == ExpandAllLabel
    ensures Render(items, m).Listing? ==> forall i :: 0 <= i < |items| ==> Render(items, m).cards[i].expanded
  {
    assert !ShowsExpanded(m, stale);
    forall i | 0 <= i < |items| ensures ShowsExpanded(m, items[i].id) {
      assert items[i] in items;
    }
  }

  datatype SizeUnit = Bytes | KB | MB

  /** The unit `formatFileSize` picks for a byte count. */
  function UnitFor(bytes: int): (u: SizeUnit)
    ensures u == Bytes <==> bytes < 1024
    ensures u == KB <==> 1024 <= bytes < 1048576
    ensures u == MB <==> 1048576 <= bytes
  {
    if bytes < 1024 then Bytes
    else if bytes < 1048576 then KB
    else MB
  }

  function Divisor(u: SizeUnit): (d: nat)
    ensures d > 0
  {
    match u
    case Bytes => 1
    case KB => 1024
    case MB => 1048576
  }

  function Rank(u: SizeUnit): nat {
    match u
    case Bytes => 0
    case KB => 1
    case MB => 2
  }

  /**
   * The chosen unit is the largest one in which a non-negative size is at
   * least one whole unit, and below MB the whole-unit (floor) value stays
   * under 1024. The displayed value is rounded to one decimal instead, so
   * sizes just under 1 MB read as "1024.0 KB".
   */
  lemma UnitScalesIntoRange(bytes: nat)
    ensures UnitFor(bytes) != Bytes ==> bytes / Divisor(UnitFor(bytes)) >= 1
    ensures UnitFor(bytes) != MB ==> bytes / Divisor(UnitFor(bytes)) < 1024
    ensures UnitFor(bytes) == Bytes ==> bytes / Divisor(UnitFor(bytes)) == bytes
  {
  }

  /** A larger file never gets a smaller unit. */
  lemma UnitMonotonic(a: int, b: int)
    requires a <= b
    ensures Rank(UnitFor(a)) <= Rank(UnitFor(b))
  {
  }

  /**
   * What a card shows: its item's id and name, size unit, whether it is
   * expanded, and whether it offers the PDF links. The links sit inside the
   * expanded body, so a collapsed card offers none.
   */
  datatype Card = Card(id: string, pdfName: string, unit: SizeUnit, expanded: bool, offersPdf: bool)

  /** The panel: the empty-history notice alone, or the header with the toggle-all label and one card per item. */
  datatype Panel = NoHistoryYet | Listing(toggleLabel: string, cards: seq<Card>)

  function CardFor(item: SummaryItem, m: map<string, bool>): Card {
    Card(item.id, item.pdfName, UnitFor(item.pdfSize), ShowsExpanded(m, item.id),
         ShowsExpanded(m, item.id) && HasPdfUrl(item))
  }

  /** What the panel renders for the current items and expansion map. */
  function Render(items: seq<SummaryItem>, m: map<string, bool>): (p: Panel)
    ensures p.NoHistoryYet? <==> items == []
    ensures p.Listing? ==> p.toggleLabel == ToggleAllLabel(m) && |p.cards| == |items|
    ensures p.Listing? ==> forall i :: 0 <= i < |items| ==>
              p.cards[i].id == items[i].id && p.cards[i].pdfName == items[i].pdfName
              && p.cards[i].expanded == ShowsExpanded(m, items[i].id)
              && p.cards[i].unit == UnitFor(items[i].pdfSize)
              && (p.cards[i].offersPdf <==> ShowsExpanded(m, items[i].id) && HasPdfUrl(items[i]))
  {
    if items == [] then NoHistoryYet
    else Listing(ToggleAllLabel(m), seq(|items|, i requires 0 <= i < |items| => CardFor(items[i], m)))
  }

  /** The component's own state: the items it was last rendered with and the expansion map. */
  class SummaryHistoryPanel {
    var items: seq<SummaryItem>
    var expandedItems: map<string, bool>

    /** First render: every item's card starts expanded, and the label offers "Collapse All". */
    constructor (items: seq<SummaryItem>)
      ensures this.items == items
      ensures expandedItems.Keys == IdSet(items)
      ensures forall it :: it in items ==> ShowsExpanded(expandedItems, it.id)
      ensures ToggleAllLabel(expandedItems) == CollapseAllLabel
    {
      this.items := items;
      expandedItems := AllSetTo(items, true);
    }

    /** A card's show/hide button. */
    method ToggleSummary(id: string)
      modifies this
      ensures expandedItems == Toggled(old(expandedItems), id)
      ensures items == old(items)
    {
      expandedItems := Toggled(expandedItems, id);
    }

    /** The toggle-all button: the map is rebuilt over the current items only. */
    method ToggleAll()
      modifies this
      ensures expandedItems == ToggledAll(old(expandedItems), items)
      ensures items != [] ==> ToggleAllLabel(expandedItems) != ToggleAllLabel(old(expandedItems))
      ensures items == old(items)
    {
      var allExpanded := AllExpanded(expandedItems);
      if items != [] {
        LabelFlipsOnToggleAll(expandedItems, items);
      }
      expandedItems := AllSetTo(items, !allExpanded);
    }

    /** A re-render with new items (after a removal, say): the expansion state is kept as it is. */
    method ReceiveItems(newItems: seq<SummaryItem>)
      modifies this
      ensures items == newItems && expandedItems == old(expandedItems)
    {
      items := newItems;
    }
  }
}
