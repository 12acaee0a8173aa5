/** The inventory page: the product table filter (search, category, stock
    status), the stock-level label, the badge variant of a status, and the
    summary cards (low-stock and critical counts, inventory value). */
module Inventory {
  import opened Text
  import opened Listing

  datatype InventoryItem = InventoryItem(
    id: string, code: string, name: string, category: string,
    stock: int, minStock: int, price: real, cost: real,
    presentation: string, status: string)

  /** The three filter controls; `'Todas'` and `'all'` switch their filter off. */
  datatype InventoryQuery = InventoryQuery(search: string, category: string, status: string)

  const AllCategories: string := "Todas"
  const AllStatuses: string := "all"

  predicate ItemMatches(item: InventoryItem, q: InventoryQuery)
  {
    && (FoldContains(item.name, q.search) || FoldContains(item.code, q.search))
    && Selects(q.category, AllCategories, item.category)
    && Selects(q.status, AllStatuses, item.status)
  }

  /** `filteredInventory`. */
  function FilterInventory(items: seq<InventoryItem>, q: InventoryQuery): (r: seq<InventoryItem>)
    ensures forall x :: x in r <==>
              && x in items
              && (FoldContains(x.name, q.search) || FoldContains(x.code, q.search))
              && (q.category == AllCategories || x.category == q.category)
              && (q.status == AllStatuses || x.status == q.status)
    ensures IsSubseq(r, items)
    ensures (forall x :: x in items ==> ItemMatches(x, q)) ==> r == items
    ensures |r| == Count(items, (x: InventoryItem) => ItemMatches(x, q))
  {
    Filter(items, (x: InventoryItem) => ItemMatches(x, q))
  }

  /** With an empty search and both selects on their "everything" value the
      whole inventory is listed, in order. */
  lemma NoCriteriaListsEverything(items: seq<InventoryItem>)
    ensures FilterInventory(items, InventoryQuery("", AllCategories, AllStatuses)) == items
  {
    forall x | x in items
      ensures ItemMatches(x, InventoryQuery("", AllCategories, AllStatuses))
    {
      FoldContainsEmpty(x.name);
    }
  }

  /** The label `getStockStatus` shows. */
  datatype StockLevel = OutOfStock | Critical | Low | Normal
  {
    function Label(): string
    {
      match this
      case OutOfStock => "Sin Stock"
      case Critical => "Crítico"
      case Low => "Bajo"
      case Normal => "Normal"
    }

    /** How urgent the level is: 0 for normal up to 3 for out of stock. */
    function Urgency(): nat
    {
      match this
      case OutOfStock => 3
      case Critical => 2
      case Low => 1
      case Normal => 0
    }
  }

  /** `getStockStatus(stock, minStock)`: `stock <= minStock * 0.5` is exact on
      integers as `2 * stock <= minStock`. */
  function StockLevelOf(stock: int, minStock: int): (r: StockLevel)
    ensures r == OutOfStock <==> stock == 0
    ensures r == Critical <==> stock != 0 && 2 * stock <= minStock
    ensures r == Low <==> stock != 0 && minStock < 2 * stock && stock <= minStock
    ensures r == Normal <==> stock != 0 && minStock < 2 * stock && minStock < stock
    ensures stock > 0 ==> (r == Normal <==> stock > minStock)
  {
    if stock == 0 then OutOfStock
    else if 2 * stock <= minStock then Critical
    else if stock <= minStock then Low
    else Normal
  }

  /** With the minimum fixed, more stock never makes the label more urgent
      (among non-zero stocks). */
  lemma StockLevelMonotone(s1: int, s2: int, minStock: int)
    requires 0 < s1 <= s2
    ensures StockLevelOf(s2, minStock).Urgency() <= StockLevelOf(s1, minStock).Urgency()
  {
  }

  /** Every item has exactly one label, and the labels are distinct texts. */
  lemma StockLabelsDistinct(a: StockLevel, b: StockLevel)
    ensures a.Label() == b.Label() <==> a == b
  {
  }

  datatype BadgeVariant = Destructive | Secondary | Default

  /** `getStockBadgeVariant(status)`. */
  function StockBadgeVariant(status: string): (v: BadgeVariant)
    ensures v == Destructive <==> status == "critical"
    ensures v == Secondary <==> status == "low_stock"
    ensures v == Default <==> status != "critical" && status != "low_stock"
  {
    if status == "critical" then Destructive
    else if status == "low_stock" then Secondary
    else Default
  }

  function StockValue(item: InventoryItem): real { item.stock as real * item.cost }

  /** The "Valor Inventario" card: Σ stock × cost. */
  function InventoryValue(items: seq<InventoryItem>): real
  {
    SumOf(items, StockValue)
  }

  /** Non-negative stock at non-negative cost gives a non-negative value. */
  lemma InventoryValueNonNegative(items: seq<InventoryItem>)
    requires forall x :: x in items ==> x.stock >= 0 && x.cost >= 0.0
    ensures InventoryValue(items) >= 0.0
  {
    forall x | x in items
      ensures StockValue(x) >= 0.0
    {
    }
    SumOfNonNegative(items, StockValue);
  }

  /** The value of two stocks taken together is the sum of their values. */
  lemma InventoryValueAdditive(a: seq<InventoryItem>, b: seq<InventoryItem>)
    ensures InventoryValue(a + b) == InventoryValue(a) + InventoryValue(b)
  {
    SumOfAppend(a, b, StockValue);
  }

  function LowStockCount(items: seq<InventoryItem>): nat
  {
    Count(items, (x: InventoryItem) => x.status == "low_stock")
  }

  function CriticalCount(items: seq<InventoryItem>): nat
  {
    Count(items, (x: InventoryItem) => x.status == "critical")
  }

  /** The "Stock Bajo" and "Stock Crítico" cards never add up to more than
      the "Total Productos" card. */
  lemma StatusCountsBounded(items: seq<InventoryItem>)
    ensures LowStockCount(items) + CriticalCount(items) <= |items|
  {
    CountDisjoint(items, (x: InventoryItem) => x.status == "low_stock", (x: InventoryItem) => x.status == "critical");
  }

  /** Over the whole inventory, the red badges are the items the "Stock
      Crítico" card counts and the grey ones those of the "Stock Bajo" card.
      The table shows the whole inventory only with no criteria set; see
      `TableBadgesWithinCards`. */
  lemma BadgesMatchCards(items: seq<InventoryItem>)
    ensures Count(items, (x: InventoryItem) => StockBadgeVariant(x.status) == Destructive) == CriticalCount(items)
    ensures Count(items, (x: InventoryItem) => StockBadgeVariant(x.status) == Secondary) == LowStockCount(items)
  {
    CountCongruent(items, (x: InventoryItem) => StockBadgeVariant(x.status) == Destructive,
                   (x: InventoryItem) => x.status == "critical");
    CountCongruent(items, (x: InventoryItem) => StockBadgeVariant(x.status) == Secondary,
                   (x: InventoryItem) => x.status == "low_stock");
  }

  /** The table renders the filtered rows while the cards count every item,
      so the table never shows more red or grey badges than the cards
      count, and exactly as many once no criterion is set. */
  lemma TableBadgesWithinCards(items: seq<InventoryItem>, q: InventoryQuery)
    ensures Count(FilterInventory(items, q), (x: InventoryItem) => StockBadgeVariant(x.status) == Destructive) <= CriticalCount(items)
    ensures Count(FilterInventory(items, q), (x: InventoryItem) => StockBadgeVariant(x.status) == Secondary) <= LowStockCount(items)
    ensures q == InventoryQuery("", AllCategories, AllStatuses) ==>
              && Count(FilterInventory(items, q), (x: InventoryItem) => StockBadgeVariant(x.status) == Destructive) == CriticalCount(items)
              && Count(FilterInventory(items, q), (x: InventoryItem) => StockBadgeVariant(x.status) == Secondary) == LowStockCount(items)
  {
    BadgesMatchCards(items);
    CountOfFilter(items, (x: InventoryItem) => ItemMatches(x, q), (x: InventoryItem) => StockBadgeVariant(x.status) == Destructive);
    CountOfFilter(items, (x: InventoryItem) => ItemMatches(x, q), (x: InventoryItem) => StockBadgeVariant(x.status) == Secondary);
    if q == InventoryQuery("", AllCategories, AllStatuses) {
      NoCriteriaListsEverything(items);
    }
  }
}
