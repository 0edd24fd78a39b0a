/**
 * The pantry rules of `src/lib/pantry.ts`: the expiry window, the expiry
 * label and the multi-store deal calculator.
 *
 * Calendar dates are whole day numbers; prices are integer cents.
 */
module PantryRules {
  import opened Wrappers
  import opened Text
  import opened Seqs

  /** Where a pantry item is kept. */
  datatype Storage = Pantry | Fridge | Spices

  /** The category text the page shows and compares tab names with. */
  function StorageName(c: Storage): string
  {
    match c
    case Pantry => "Pantry"
    case Fridge => "Fridge"
    case Spices => "Spices"
  }

  /** A food item; `consumed` is kept for history instead of deleting the item. */
  datatype PantryItem = PantryItem(
    id: string,
    name: string,
    expiryDate: int,
    qty: string,
    image: string,
    category: Storage,
    consumed: bool)

  /** An entry of the shopping list. */
  datatype ShoppingItem = ShoppingItem(
    id: string,
    name: string,
    qty: string,
    category: string,
    addedDate: int,
    bought: bool)

  // ---------------------------------------------------------------------------
  // The expiry window
  // ---------------------------------------------------------------------------

  /** Not consumed, and expiring today, tomorrow or the day after. */
  predicate InExpiryWindow(item: PantryItem, today: int)
  {
    !item.consumed && item.expiryDate <= today + 2 && item.expiryDate >= today
  }

  /** The window test as a value, for `filter`. */
  function ExpiringOn(today: int): PantryItem -> bool
  {
    item => InExpiryWindow(item, today)
  }

  /**
   * `getExpiringSoonItems`: the items in the three-day window, in list order.
   * `today` is the day of the clock the source reads (its UTC date).
   */
  function ExpiringSoonItems(items: seq<PantryItem>, today: int): (r: seq<PantryItem>)
    ensures Subsequence(r, items)
    ensures forall x :: multiset(r)[x] == if InExpiryWindow(x, today) then multiset(items)[x] else 0
    ensures forall x :: x in r ==> !x.consumed && today <= x.expiryDate <= today + 2
  {
    FilterSpec(items, ExpiringOn(today));
    Filter(items, ExpiringOn(today))
  }

  /** Applying the window twice is the same as applying it once. */
  lemma ExpiringSoonIdempotent(items: seq<PantryItem>, today: int)
    ensures ExpiringSoonItems(ExpiringSoonItems(items, today), today) == ExpiringSoonItems(items, today)
  {
    FilterIdempotent(items, ExpiringOn(today));
  }

  // ---------------------------------------------------------------------------
  // The expiry label
  // ---------------------------------------------------------------------------

  /** How urgently an item must be used. */
  datatype Urgency = Overdue | Today | Soon | Normal

  /** The position of an urgency on the scale from overdue to normal. */
  function UrgencyRank(u: Urgency): nat
  {
    match u
    case Overdue => 0
    case Today => 1
    case Soon => 2
    case Normal => 3
  }

  datatype ExpiryInfo = ExpiryInfo(text: string, urgency: Urgency)

  /**
   * `getExpiryLabel`: the case split on the whole-day difference between the
   * expiry date and `today` (the day of the local clock, at midnight).
   */
  function ExpiryLabel(expiryDate: int, today: int): (r: ExpiryInfo)
    ensures r.urgency == Overdue <==> expiryDate < today
    ensures r.urgency == Today <==> expiryDate == today
    ensures r.urgency == Soon <==> today + 1 <= expiryDate <= today + 3
    ensures r.urgency == Normal <==> today + 3 < expiryDate
  {
    var diffDays := expiryDate - today;
    if diffDays == 0 then ExpiryInfo("Expires Today", Today)
    else if diffDays == 1 then ExpiryInfo("Expires Tomorrow", Soon)
    else if diffDays < 0 then ExpiryInfo("Expired", Overdue)
    else ExpiryInfo("Expires in " + NatToString(diffDays) + " days", if diffDays <= 3 then Soon else Normal)
  }

  /** The texts of the individual cases, as the page shows them. */
  lemma ExpiryLabelTexts(expiryDate: int, today: int)
    ensures expiryDate == today ==> ExpiryLabel(expiryDate, today).text == "Expires Today"
    ensures expiryDate == today + 1 ==> ExpiryLabel(expiryDate, today).text == "Expires Tomorrow"
    ensures expiryDate < today ==> ExpiryLabel(expiryDate, today).text == "Expired"
    ensures expiryDate >= today + 2 ==>
      ExpiryLabel(expiryDate, today).text == "Expires in " + NatToString(expiryDate - today) + " days"
  {
  }

  /** A later expiry date is never more urgent. */
  lemma UrgencyMonotone(e1: int, e2: int, today: int)
    requires e1 <= e2
    ensures UrgencyRank(ExpiryLabel(e1, today).urgency) <= UrgencyRank(ExpiryLabel(e2, today).urgency)
  {
  }

  /** Cancels a common prefix and suffix of two equal concatenations. */
  lemma CancelAround(p: string, a: string, b: string, q: string)
    requires p + a + q == p + b + q
    ensures a == b
  {
    var s, t := p + a + q, p + b + q;
    assert |a| == |b|;
    assert a == s[|p|..|p| + |a|];
    assert b == t[|p|..|p| + |b|];
  }

  /** On any date from today on, the label names the date: different days get different labels. */
  lemma ExpiryLabelDistinguishesDays(e1: int, e2: int, today: int)
    requires e1 >= today && e2 >= today
    requires ExpiryLabel(e1, today).text == ExpiryLabel(e2, today).text
    ensures e1 == e2
  {
    if e1 - today >= 2 && e2 - today >= 2 {
      CancelAround("Expires in ", NatToString(e1 - today), NatToString(e2 - today), " days");
      NatToStringInjective(e1 - today, e2 - today);
    }
  }

  /** The window holds exactly the active items whose label is urgent and at most two days away. */
  lemma WindowMatchesUrgency(items: seq<PantryItem>, today: int, x: PantryItem)
    ensures x in ExpiringSoonItems(items, today) <==>
      x in items && !x.consumed && x.expiryDate <= today + 2 &&
      ExpiryLabel(x.expiryDate, today).urgency in {Today, Soon}
  {
    assert multiset(ExpiringSoonItems(items, today))[x] == if InExpiryWindow(x, today) then multiset(items)[x] else 0;
  }

  // ---------------------------------------------------------------------------
  // The multi-store deal calculator
  // ---------------------------------------------------------------------------

  /** One product key of a store's price table and its price in cents. */
  datatype PriceEntry = PriceEntry(key: string, cents: nat)

  /** A store and its price table, keys in `Object.keys` order (integer-like keys first, ascending, then the rest in insertion order). */
  datatype StorePrices = StorePrices(store: string, prices: seq<PriceEntry>)

  /** The `STORE_PRICES` table of the application. */
  const StorePriceTable: seq<StorePrices> := [
    StorePrices("FreshMart Central", [
      PriceEntry("Whole Milk", 320),
      PriceEntry("Whole Wheat Bread", 250),
      PriceEntry("Coffee Beans", 1400),
      PriceEntry("Organic Spinach", 280),
      PriceEntry("Eggs", 450)]),
    StorePrices("Discount Depot", [
      PriceEntry("Whole Milk", 290),
      PriceEntry("Whole Wheat Bread", 220),
      PriceEntry("Coffee Beans", 1200),
      PriceEntry("Organic Spinach", 310),
      PriceEntry("Eggs", 380)])
  ]

  /** A shopping-list item that a store prices: the list item's name and the store's price. */
  datatype DealLine = DealLine(name: string, cents: nat)

  /** One store's offer for the whole list. */
  datatype StoreDeal = StoreDeal(name: string, total: int, items: seq<DealLine>, color: string)

  /** The key lowercases to the lowercased item name. */
  function IsExactKey(nameLower: string): PriceEntry -> bool
  {
    (e: PriceEntry) => Lower(e.key) == nameLower
  }

  /** Either lowercased text includes the other. */
  function IsOverlapKey(nameLower: string): PriceEntry -> bool
  {
    (e: PriceEntry) => Contains(nameLower, Lower(e.key)) || Contains(Lower(e.key), nameLower)
  }

  /** A found key that JavaScript treats as found: present and not the empty string. */
  predicate UsableKey(prices: seq<PriceEntry>, k: Option<nat>)
  {
    k.Some? && k.value < |prices| && prices[k.value].key != ""
  }

  /** Position `i` holds the first key that matches the lowercased name exactly. */
  predicate FirstExact(nameLower: string, prices: seq<PriceEntry>, i: int)
  {
    && 0 <= i < |prices|
    && Lower(prices[i].key) == nameLower
    && forall j :: 0 <= j < i ==> Lower(prices[j].key) != nameLower
  }

  /** Position `i` holds the first key that includes, or is included in, the lowercased name. */
  predicate FirstOverlap(nameLower: string, prices: seq<PriceEntry>, i: int)
  {
    && 0 <= i < |prices|
    && IsOverlapKey(nameLower)(prices[i])
    && forall j :: 0 <= j < i ==> !IsOverlapKey(nameLower)(prices[j])
  }

  /**
   * The key a store uses for an item: the first exact key if there is one,
   * otherwise the first key that includes or is included in the name (the
   * empty key counts as not found, as it does in JavaScript). Its meaning is
   * stated by the lemmas `MatchKeyFound`, `MatchKeyExact`, `MatchKeyOverlap`
   * and `MatchKeyNone` below.
   */
  function MatchKey(nameLower: string, prices: seq<PriceEntry>): (r: Option<nat>)
    ensures r.Some? ==> r.value < |prices|
  {
    var exact := FindFirst(prices, IsExactKey(nameLower));
    var chosen := if UsableKey(prices, exact) then exact else FindFirst(prices, IsOverlapKey(nameLower));
    if UsableKey(prices, chosen) then chosen else None
  }

  /** A key found is never the empty key, and it matches the name exactly or by inclusion. */
  lemma MatchKeyFound(nameLower: string, prices: seq<PriceEntry>)
    ensures var r := MatchKey(nameLower, prices);
      r.Some? ==>
        prices[r.value].key != "" &&
        (IsExactKey(nameLower)(prices[r.value]) || IsOverlapKey(nameLower)(prices[r.value]))
  {
  }

  /** A non-empty name matched exactly takes the first exact key, whatever else matches. */
  lemma MatchKeyExact(nameLower: string, prices: seq<PriceEntry>, i: int)
    requires nameLower != "" && FirstExact(nameLower, prices, i)
    ensures MatchKey(nameLower, prices) == Some(i)
  {
  }

  /** Without an exact key the first inclusion match decides; an empty key there counts as no match. */
  lemma MatchKeyOverlap(nameLower: string, prices: seq<PriceEntry>, i: int)
    requires forall j :: 0 <= j < |prices| ==> Lower(prices[j].key) != nameLower
    requires FirstOverlap(nameLower, prices, i)
    ensures MatchKey(nameLower, prices) == if prices[i].key != "" then Some(i) else None
  {
  }

  /** Nothing is found when no key matches either way. */
  lemma MatchKeyNone(nameLower: string, prices: seq<PriceEntry>)
    requires forall j :: 0 <= j < |prices| ==> !IsOverlapKey(nameLower)(prices[j])
    ensures MatchKey(nameLower, prices).None?
  {
    ContainsSelf(nameLower);
  }

  /** An empty item name is included in every key, so it takes the first key of the table. */
  lemma EmptyNameTakesFirstKey(prices: seq<PriceEntry>)
    ensures MatchKey("", prices) == if |prices| > 0 && prices[0].key != "" then Some(0) else None
  {
    if |prices| > 0 {
      assert At(Lower(prices[0].key), "", 0);
      var exact := FindFirst(prices, IsExactKey(""));
      assert UsableKey(prices, exact) ==> exact == Some(0);
    }
  }

  /** The line a store contributes for one shopping item, if it prices it. */
  function PriceLine(item: ShoppingItem, prices: seq<PriceEntry>): Option<DealLine>
  {
    match MatchKey(Lower(item.name), prices)
    case None => None
    case Some(k) => Some(DealLine(item.name, prices[k].cents))
  }

  /** The lines of an option: none or one. */
  function LineList(l: Option<DealLine>): seq<DealLine>
  {
    match l
    case None => []
    case Some(line) => [line]
  }

  /** The priced lines for a shopping list, in list order; unmatched items are dropped. */
  function Lines(list: seq<ShoppingItem>, prices: seq<PriceEntry>): seq<DealLine>
  {
    if list == [] then [] else LineList(PriceLine(list[0], prices)) + Lines(list[1..], prices)
  }

  /** The sum of the prices of some lines. */
  function Sum(lines: seq<DealLine>): int
  {
    if lines == [] then 0 else lines[0].cents + Sum(lines[1..])
  }

  /** The colour badge of a store. */
  function ColorFor(store: string): string
  {
    if store == "FreshMart Central" then "bg-blue-500" else "bg-red-500"
  }

  /** One store's offer for a shopping list. */
  function DealFor(table: StorePrices, list: seq<ShoppingItem>): StoreDeal
  {
    var lines := Lines(list, table.prices);
    StoreDeal(table.store, Sum(lines), lines, ColorFor(table.store))
  }

  /** Pricing a concatenated list prices each part. */
  lemma {:induction false} LinesAppend(a: seq<ShoppingItem>, b: seq<ShoppingItem>, prices: seq<PriceEntry>)
    ensures Lines(a + b, prices) == Lines(a, prices) + Lines(b, prices)
  {
    if a == [] {
      assert a + b == b;
    } else {
      assert (a + b)[1..] == a[1..] + b;
      LinesAppend(a[1..], b, prices);
    }
  }

  /** The sum of concatenated lines adds up. */
  lemma {:induction false} SumAppend(a: seq<DealLine>, b: seq<DealLine>)
    ensures Sum(a + b) == Sum(a) + Sum(b)
  {
    if a == [] {
      assert a + b == b;
    } else {
      assert (a + b)[1..] == a[1..] + b;
      SumAppend(a[1..], b);
    }
  }

  /** The names of some deal lines. */
  function LineNames(lines: seq<DealLine>): seq<string>
  {
    if lines == [] then [] else [lines[0].name] + LineNames(lines[1..])
  }

  /** The names of some shopping items. */
  function ItemNames(list: seq<ShoppingItem>): seq<string>
  {
    if list == [] then [] else [list[0].name] + ItemNames(list[1..])
  }

  /**
   * The lines of a store keep the shopping items' names in list order, so a
   * store never lists more items than the shopping list has.
   */
  lemma {:induction false} LinesKeepNamesInOrder(list: seq<ShoppingItem>, prices: seq<PriceEntry>)
    ensures Subsequence(LineNames(Lines(list, prices)), ItemNames(list))
    ensures |Lines(list, prices)| <= |list|
  {
    if list != [] {
      LinesKeepNamesInOrder(list[1..], prices);
      var rest := Lines(list[1..], prices);
      var line := PriceLine(list[0], prices);
      if line.Some? {
        assert Lines(list, prices) == [line.value] + rest;
        assert LineNames([line.value] + rest)[1..] == LineNames(rest);
      } else {
        assert Lines(list, prices) == rest;
      }
    }
  }

  /** One more item of the list adds the matched key's price under the item's own name, or nothing. */
  lemma LinesStep(list: seq<ShoppingItem>, i: nat, prices: seq<PriceEntry>, k: Option<nat>)
    requires i < |list| && k == MatchKey(Lower(list[i].name), prices)
    ensures Lines(list[..i + 1], prices) ==
      Lines(list[..i], prices) + if k.Some? then [DealLine(list[i].name, prices[k.value].cents)] else []
  {
    LinesAppend(list[..i], [list[i]], prices);
    assert list[..i + 1] == list[..i] + [list[i]];
    LinesSingleton(list[i], prices);
  }

  /** A one-item list is priced by that item's line alone. */
  lemma LinesSingleton(x: ShoppingItem, prices: seq<PriceEntry>)
    ensures Lines([x], prices) == LineList(PriceLine(x, prices))
  {
    assert [x][0] == x && [x][1..] == [];
  }

  /** An item no key matches is dropped: it neither appears nor costs anything. */
  lemma UnmatchedDropped(table: StorePrices, a: seq<ShoppingItem>, x: ShoppingItem, b: seq<ShoppingItem>)
    requires PriceLine(x, table.prices).None?
    ensures DealFor(table, a + [x] + b) == DealFor(table, a + b)
  {
    LinesAppend(a + [x], b, table.prices);
    LinesAppend(a, [x], table.prices);
    LinesAppend(a, b, table.prices);
    LinesSingleton(x, table.prices);
    assert Lines(a, table.prices) + [] == Lines(a, table.prices);
  }

  /** A matched item contributes its line at its place in the list and its price to the total. */
  lemma MatchedKept(table: StorePrices, a: seq<ShoppingItem>, x: ShoppingItem, b: seq<ShoppingItem>)
    requires PriceLine(x, table.prices).Some?
    ensures DealFor(table, a + [x] + b).items ==
      Lines(a, table.prices) + [PriceLine(x, table.prices).value] + Lines(b, table.prices)
    ensures DealFor(table, a + [x] + b).total ==
      Sum(Lines(a, table.prices)) + PriceLine(x, table.prices).value.cents + Sum(Lines(b, table.prices))
  {
    var l := PriceLine(x, table.prices).value;
    LinesAppend(a + [x], b, table.prices);
    LinesAppend(a, [x], table.prices);
    LinesSingleton(x, table.prices);
    SumAppend(Lines(a, table.prices) + [l], Lines(b, table.prices));
    SumAppend(Lines(a, table.prices), [l]);
  }

  /** An empty shopping list costs nothing anywhere. */
  lemma EmptyListDeal(table: StorePrices)
    ensures DealFor(table, []).total == 0 && DealFor(table, []).items == []
    ensures DealFor(table, []).name == table.store
  {
  }

  /**
   * The per-store loop of `calculateBestDeals`: runs down the shopping list,
   * adding each matched price to a running total.
   */
  method PriceStore(table: StorePrices, list: seq<ShoppingItem>) returns (deal: StoreDeal)
    ensures deal == DealFor(table, list)
    ensures deal.total == Sum(deal.items)
  {
    var total := 0;
    var availableItems: seq<DealLine> := [];
    for i := 0 to |list|
      invariant availableItems == Lines(list[..i], table.prices)
      invariant total == Sum(availableItems)
    {
      var matchKey := MatchKey(Lower(list[i].name), table.prices);
      LinesStep(list, i, table.prices, matchKey);
      if matchKey.Some? {
        var price := table.prices[matchKey.value].cents;
        var line := DealLine(list[i].name, price);
        SumAppend(availableItems, [line]);
        total := total + price;
        availableItems := availableItems + [line];
      }
    }
    assert list[..|list|] == list;
    deal := StoreDeal(table.store, total, availableItems, ColorFor(table.store));
  }

  /** Every store's offer, in table order. */
  function AllDeals(list: seq<ShoppingItem>, tables: seq<StorePrices>): (r: seq<StoreDeal>)
  {
    seq(|tables|, i requires 0 <= i < |tables| => DealFor(tables[i], list))
  }

  /** The comparator `(a, b) => a.total - b.total`, as "not after". */
  function TotalLe(): (StoreDeal, StoreDeal) -> bool
  {
    (a: StoreDeal, b: StoreDeal) => a.total <= b.total
  }

  lemma TotalLePreorder()
    ensures TotalPreorder(TotalLe())
  {
  }

  /**
   * `calculateBestDeals`: one offer per store, cheapest first (ties keep
   * table order).
   */
  method CalculateBestDeals(list: seq<ShoppingItem>, tables: seq<StorePrices>) returns (deals: seq<StoreDeal>)
    ensures deals == SortBy(AllDeals(list, tables), TotalLe())
    ensures |deals| == |tables|
    ensures multiset(deals) == multiset(AllDeals(list, tables))
    ensures forall i :: 0 <= i < |tables| ==> DealFor(tables[i], list) in deals
    ensures forall d :: d in deals ==> exists i :: 0 <= i < |tables| && d == DealFor(tables[i], list)
    ensures forall i, j :: 0 <= i < j < |deals| ==> deals[i].total <= deals[j].total
  {
    var unsorted: seq<StoreDeal> := [];
    for s := 0 to |tables|
      invariant |unsorted| == s
      invariant forall i :: 0 <= i < s ==> unsorted[i] == DealFor(tables[i], list)
    {
      var deal := PriceStore(tables[s], list);
      unsorted := unsorted + [deal];
    }
    assert unsorted == AllDeals(list, tables);
    deals := SortBy(unsorted, TotalLe());
    TotalLePreorder();
    SortBySorted(unsorted, TotalLe());
    forall i | 0 <= i < |tables| ensures DealFor(tables[i], list) in deals {
      assert unsorted[i] in multiset(deals);
    }
    forall d | d in deals ensures exists i :: 0 <= i < |tables| && d == DealFor(tables[i], list) {
      assert d in multiset(unsorted);
      var i :| 0 <= i < |unsorted| && unsorted[i] == d;
    }
  }

  /** The shopping list of the worked example: whole milk and coffee beans. */
  const MilkAndCoffee: seq<ShoppingItem> := [
    ShoppingItem("a", "Whole Milk", "1", "Fridge", 0, false),
    ShoppingItem("b", "Coffee Beans", "1", "Pantry", 0, false)]

  /** The price tables of both stores start with these three keys. */
  predicate StartsLikeStoreTable(prices: seq<PriceEntry>)
  {
    |prices| >= 3 &&
    prices[0].key == "Whole Milk" && prices[1].key == "Whole Wheat Bread" && prices[2].key == "Coffee Beans"
  }

  /** "Whole Milk" matches the first key exactly. */
  lemma MilkMatchesFirst(prices: seq<PriceEntry>)
    requires StartsLikeStoreTable(prices)
    ensures MatchKey(Lower("Whole Milk"), prices) == Some(0)
  {
    assert FirstExact(Lower("Whole Milk"), prices, 0);
    MatchKeyExact(Lower("Whole Milk"), prices, 0);
  }

  /** "Coffee Beans" skips the two other keys and matches the third exactly. */
  lemma CoffeeMatchesThird(prices: seq<PriceEntry>)
    requires StartsLikeStoreTable(prices)
    ensures MatchKey(Lower("Coffee Beans"), prices) == Some(2)
  {
    var coffee := Lower("Coffee Beans");
    assert |Lower(prices[0].key)| == 10 && |Lower(prices[1].key)| == 17;
    assert FirstExact(coffee, prices, 2);
    MatchKeyExact(coffee, prices, 2);
  }

  /** Milk matches the first key and coffee the third in any table that starts like the stores' tables. */
  lemma MilkAndCoffeeLines(prices: seq<PriceEntry>)
    requires StartsLikeStoreTable(prices)
    ensures Lines(MilkAndCoffee, prices) ==
      [DealLine("Whole Milk", prices[0].cents), DealLine("Coffee Beans", prices[2].cents)]
  {
    MilkMatchesFirst(prices);
    CoffeeMatchesThird(prices);
    LinesStep(MilkAndCoffee, 0, prices, MatchKey(Lower("Whole Milk"), prices));
    LinesStep(MilkAndCoffee, 1, prices, MatchKey(Lower("Coffee Beans"), prices));
    assert MilkAndCoffee[..2] == MilkAndCoffee;
  }

  /** The two stores' offers for the example list. */
  lemma ExampleTotals()
    ensures |StorePriceTable| == 2
    ensures DealFor(StorePriceTable[0], MilkAndCoffee).name == "FreshMart Central"
    ensures DealFor(StorePriceTable[0], MilkAndCoffee).total == 1720
    ensures DealFor(StorePriceTable[1], MilkAndCoffee).name == "Discount Depot"
    ensures DealFor(StorePriceTable[1], MilkAndCoffee).total == 1490
  {
    MilkAndCoffeeLines(StorePriceTable[0].prices);
    MilkAndCoffeeLines(StorePriceTable[1].prices);
  }

  /** With two stores, the dearer first, sorting puts the cheaper first. */
  lemma CheaperOfTwoFirst(list: seq<ShoppingItem>, tables: seq<StorePrices>)
    requires |tables| == 2 && DealFor(tables[1], list).total < DealFor(tables[0], list).total
    ensures SortBy(AllDeals(list, tables), TotalLe()) == [DealFor(tables[1], list), DealFor(tables[0], list)]
  {
    assert AllDeals(list, tables) == [DealFor(tables[0], list), DealFor(tables[1], list)];
    SortPair(DealFor(tables[0], list), DealFor(tables[1], list), TotalLe());
  }

  /** Whole Milk and Coffee Beans cost 17.20 at FreshMart Central and 14.90 at Discount Depot, which ranks first. */
  lemma ExampleMilkAndCoffee()
    ensures var deals := SortBy(AllDeals(MilkAndCoffee, StorePriceTable), TotalLe());
            |deals| == 2 &&
            deals[0].name == "Discount Depot" && deals[0].total == 1490 &&
            deals[1].name == "FreshMart Central" && deals[1].total == 1720
  {
    ExampleTotals();
    CheaperOfTwoFirst(MilkAndCoffee, StorePriceTable);
  }
}
