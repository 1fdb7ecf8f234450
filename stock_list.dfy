/**
 * The stock levels screen (src/components/inventory/StockList.tsx): a fixed list of
 * stock items, each classified as out, low, high or normal; a search on name or SKU
 * with a status filter; four counters; and an adjustment dialog whose Confirm only
 * closes it. The list itself has no setter and never changes.
 */
module StockList {
  import opened Wrappers
  import opened Seqs
  import opened Text

  datatype StockItem = StockItem(id: string, sku: string, name: string, category: string,
                                 currentStock: int, minStock: int, maxStock: int,
                                 unit: string, lastRestocked: string, warehouse: string)

  const MockStock: seq<StockItem> := [
    StockItem("1", "SKU-001", "Wireless Mouse", "Electronics", 5, 10, 100, "pcs", "2024-01-10", "Main Warehouse"),
    StockItem("2", "SKU-002", "USB-C Cable", "Accessories", 150, 50, 500, "pcs", "2024-01-12", "Main Warehouse"),
    StockItem("3", "SKU-003", "Laptop Stand", "Accessories", 8, 15, 80, "pcs", "2024-01-08", "Secondary"),
    StockItem("4", "SKU-004", "Mechanical Keyboard", "Electronics", 0, 5, 50, "pcs", "2024-01-05", "Main Warehouse"),
    StockItem("5", "SKU-005", "Monitor 27\"", "Electronics", 25, 10, 60, "pcs", "2024-01-15", "Main Warehouse")
  ]

  datatype StockStatus = Out | Low | High | Normal

  /** `getStockStatus`: the first of out, low, high that applies, otherwise normal. */
  function Status(item: StockItem): StockStatus
  {
    if item.currentStock == 0 then Out
    else if item.currentStock <= item.minStock then Low
    else if item.currentStock as real >= item.maxStock as real * 0.8 then High
    else Normal
  }

  /**
   * Each status in closed form: out exactly at stock 0; low exactly for a nonzero
   * stock at or below the minimum (a negative stock included); high exactly for a
   * nonzero stock above the minimum reaching 80% of the maximum; normal otherwise.
   */
  lemma StatusCharacterisation(item: StockItem)
    ensures Status(item) == Out <==> item.currentStock == 0
    ensures Status(item) == Low <==> item.currentStock != 0 && item.currentStock <= item.minStock
    ensures Status(item) == High <==>
              item.currentStock != 0 && item.currentStock > item.minStock
              && item.currentStock as real >= item.maxStock as real * 0.8
    ensures Status(item) == Normal <==>
              item.currentStock != 0 && item.currentStock > item.minStock
              && item.currentStock as real < item.maxStock as real * 0.8
  {
  }

  predicate MatchesSearch(query: string, item: StockItem)
  {
    Contains(Lower(item.name), Lower(query)) || Contains(Lower(item.sku), Lower(query))
  }

  /** The status filter; a value other than the four of the selector lets nothing through. */
  predicate MatchesFilter(filterStatus: string, status: StockStatus)
  {
    || filterStatus == "all"
    || (filterStatus == "low" && (status == Low || status == Out))
    || (filterStatus == "out" && status == Out)
    || (filterStatus == "normal" && status == Normal)
  }

  function Shown(query: string, filterStatus: string): StockItem -> bool
  {
    (item: StockItem) => MatchesSearch(query, item) && MatchesFilter(filterStatus, Status(item))
  }

  /** `filteredStock`. */
  function FilteredStock(stock: seq<StockItem>, query: string, filterStatus: string): seq<StockItem>
  {
    Filter(stock, Shown(query, filterStatus))
  }

  /**
   * An item is listed exactly when it matches the search and the filter, the list
   * keeps the stock's order, "low" lists low and out items, "out" only out items,
   * "normal" only normal items, and a high item is listed only under "all".
   */
  lemma FilteredStockSpec(stock: seq<StockItem>, query: string, filterStatus: string)
    ensures IsSubsequence(FilteredStock(stock, query, filterStatus), stock)
    ensures forall k :: 0 <= k < |stock| ==>
              (stock[k] in FilteredStock(stock, query, filterStatus) <==>
               MatchesSearch(query, stock[k]) && MatchesFilter(filterStatus, Status(stock[k])))
    ensures forall k :: 0 <= k < |FilteredStock(stock, query, filterStatus)| ==>
              var item := FilteredStock(stock, query, filterStatus)[k];
              && (filterStatus == "low" ==> Status(item) == Low || Status(item) == Out)
              && (filterStatus == "out" ==> Status(item) == Out)
              && (filterStatus == "normal" ==> Status(item) == Normal)
              && (Status(item) == High ==> filterStatus == "all")
  {
    var r := FilteredStock(stock, query, filterStatus);
    FilterIsSubsequence(stock, Shown(query, filterStatus));
    forall k | 0 <= k < |stock| && stock[k] in r
      ensures Shown(query, filterStatus)(stock[k])
    {
      var j :| 0 <= j < |r| && r[j] == stock[k];
    }
  }

  /** "All Items" with an empty search lists every item. */
  lemma AllWithEmptySearch(stock: seq<StockItem>)
    ensures FilteredStock(stock, "", "all") == stock
  {
    forall k | 0 <= k < |stock|
      ensures Shown("", "all")(stock[k])
    {
      EmptyIsContained(Lower(stock[k].name));
    }
    FilterAll(stock, Shown("", "all"));
  }

  function HasStatus(status: StockStatus): StockItem -> bool
  {
    (item: StockItem) => Status(item) == status
  }

  /** The Low Stock counter: items whose status is low, out items not included. */
  function LowCount(stock: seq<StockItem>): nat
  {
    Count(stock, HasStatus(Low))
  }

  /** The Out of Stock counter. */
  function OutCount(stock: seq<StockItem>): nat
  {
    Count(stock, HasStatus(Out))
  }

  function CurrentStock(item: StockItem): int
  {
    item.currentStock
  }

  /** The Total Units counter: the sum of the current stock of every item. */
  function TotalUnits(stock: seq<StockItem>): int
  {
    SumInt(stock, CurrentStock)
  }

  /**
   * The two counters never overlap and neither exceeds the item count; together
   * they count exactly what the "low" filter lists for an empty search.
   */
  lemma CountersMatchLowFilter(stock: seq<StockItem>)
    ensures LowCount(stock) + OutCount(stock) == |FilteredStock(stock, "", "low")|
    ensures LowCount(stock) + OutCount(stock) <= |stock|
  {
    forall k | 0 <= k < |stock|
      ensures Shown("", "low")(stock[k]) == (HasStatus(Low)(stock[k]) || HasStatus(Out)(stock[k]))
    {
      EmptyIsContained(Lower(stock[k].name));
    }
    CountExclusiveUnion(stock, HasStatus(Low), HasStatus(Out), Shown("", "low"));
  }

  /** Total units of a list with one more item grows by that item's stock. */
  lemma TotalUnitsAppend(stock: seq<StockItem>, item: StockItem)
    ensures TotalUnits([]) == 0
    ensures TotalUnits(stock + [item]) == TotalUnits(stock) + item.currentStock
  {
    SumIntAppend(stock, [item], CurrentStock);
  }

  /** The sample list: two low items, one out, 188 units. */
  lemma MockCounters()
    ensures |MockStock| == 5
    ensures LowCount(MockStock) == 2 && OutCount(MockStock) == 1
    ensures TotalUnits(MockStock) == 188
  {
    MockStatuses();
    MockLowCount();
    MockOutCount();
  }

  lemma MockStatuses()
    ensures Status(MockStock[0]) == Low && Status(MockStock[1]) == Normal && Status(MockStock[2]) == Low
    ensures Status(MockStock[3]) == Out && Status(MockStock[4]) == Normal
  {
  }

  lemma MockLowCount()
    requires Status(MockStock[0]) == Low && Status(MockStock[1]) == Normal && Status(MockStock[2]) == Low
    requires Status(MockStock[3]) == Out && Status(MockStock[4]) == Normal
    ensures LowCount(MockStock) == 2
  {
  }

  lemma MockOutCount()
    requires Status(MockStock[0]) == Low && Status(MockStock[1]) == Normal && Status(MockStock[2]) == Low
    requires Status(MockStock[3]) == Out && Status(MockStock[4]) == Normal
    ensures OutCount(MockStock) == 1
  {
  }

  datatype BadgeVariant = Destructive | Warning | Secondary

  /** One table row: the tinted background and the status badge. */
  datatype Row = Row(item: StockItem, background: string, badge: string, badgeVariant: BadgeVariant)

  /** High and normal items both show "In Stock"; only out and low rows are tinted. */
  function RowFor(item: StockItem): (r: Row)
    ensures r.item == item
    ensures r.badge == "Out of Stock" <==> Status(item) == Out
    ensures r.badge == "Low Stock" <==> Status(item) == Low
    ensures r.badge == "In Stock" <==> Status(item) == High || Status(item) == Normal
    ensures r.background == "" <==> Status(item) == High || Status(item) == Normal
  {
    match Status(item)
    case Out => Row(item, "bg-destructive/5", "Out of Stock", Destructive)
    case Low => Row(item, "bg-warning/5", "Low Stock", Warning)
    case _ => Row(item, "", "In Stock", Secondary)
  }

  function Rows(stock: seq<StockItem>, query: string, filterStatus: string): (r: seq<Row>)
    ensures |r| == |FilteredStock(stock, query, filterStatus)|
    ensures forall k :: 0 <= k < |r| ==> r[k] == RowFor(FilteredStock(stock, query, filterStatus)[k])
  {
    Map(FilteredStock(stock, query, filterStatus), RowFor)
  }

  datatype AdjustmentType = Add | Remove

  /** The screen's state; `stock` has no setter. */
  class StockListScreen {
    const stock: seq<StockItem>
    var searchQuery: string
    var filterStatus: string
    var adjustDialogOpen: bool
    var selectedItem: Option<StockItem>
    var adjustmentQty: string
    var adjustmentType: AdjustmentType

    constructor ()
      ensures stock == MockStock
      ensures searchQuery == "" && filterStatus == "all"
      ensures !adjustDialogOpen && selectedItem == None && adjustmentQty == "" && adjustmentType == Add
    {
      stock := MockStock;
      searchQuery, filterStatus := "", "all";
      adjustDialogOpen, selectedItem, adjustmentQty, adjustmentType := false, None, "", Add;
    }

    method Search(q: string)
      modifies this
      ensures searchQuery == q && filterStatus == old(filterStatus)
      ensures adjustDialogOpen == old(adjustDialogOpen) && selectedItem == old(selectedItem)
      ensures adjustmentQty == old(adjustmentQty) && adjustmentType == old(adjustmentType)
    {
      searchQuery := q;
    }

    method SetFilter(f: string)
      modifies this
      ensures filterStatus == f && searchQuery == old(searchQuery)
      ensures adjustDialogOpen == old(adjustDialogOpen) && selectedItem == old(selectedItem)
      ensures adjustmentQty == old(adjustmentQty) && adjustmentType == old(adjustmentType)
    {
      filterStatus := f;
    }

    /** The item's Adjust button: selects it, clears the quantity and opens the dialog. */
    method AdjustStock(item: StockItem)
      modifies this
      ensures selectedItem == Some(item) && adjustmentQty == "" && adjustDialogOpen
      ensures adjustmentType == old(adjustmentType)
      ensures searchQuery == old(searchQuery) && filterStatus == old(filterStatus)
    {
      selectedItem := Some(item);
      adjustmentQty := "";
      adjustDialogOpen := true;
    }

    /** The Add Stock and Remove Stock buttons. */
    method SetAdjustmentType(t: AdjustmentType)
      modifies this
      ensures adjustmentType == t
      ensures adjustDialogOpen == old(adjustDialogOpen) && selectedItem == old(selectedItem)
      ensures adjustmentQty == old(adjustmentQty)
      ensures searchQuery == old(searchQuery) && filterStatus == old(filterStatus)
    {
      adjustmentType := t;
    }

    method EnterAdjustmentQty(text: string)
      modifies this
      ensures adjustmentQty == text
      ensures adjustDialogOpen == old(adjustDialogOpen) && selectedItem == old(selectedItem)
      ensures adjustmentType == old(adjustmentType)
      ensures searchQuery == old(searchQuery) && filterStatus == old(filterStatus)
    {
      adjustmentQty := text;
    }

    /** Confirm Adjustment closes the dialog and nothing else: no stock figure changes. */
    method ConfirmAdjustment()
      modifies this
      ensures !adjustDialogOpen
      ensures selectedItem == old(selectedItem) && adjustmentQty == old(adjustmentQty)
      ensures adjustmentType == old(adjustmentType)
      ensures searchQuery == old(searchQuery) && filterStatus == old(filterStatus)
    {
      adjustDialogOpen := false;
    }

    /** The dialog's own open/close requests. */
    method SetDialogOpen(open: bool)
      modifies this
      ensures adjustDialogOpen == open
      ensures selectedItem == old(selectedItem) && adjustmentQty == old(adjustmentQty)
      ensures adjustmentType == old(adjustmentType)
      ensures searchQuery == old(searchQuery) && filterStatus == old(filterStatus)
    {
      adjustDialogOpen := open;
    }
  }
}
