/**
 * The state rules of the pantry page (`src/app/pantry/page.tsx`): the
 * inventory and shopping-list updates held in React state, the active-item
 * and tab filters, and the nutrition categories of the health-balance card.
 *
 * `reduceItemQuantity` and the nutrition profile table are not part of this
 * model: their results arrive as parameters. Random ids and today's date are
 * parameters too.
 */
module PantryPage {
  import opened Wrappers
  import opened Text
  import opened Seqs
  import opened PantryRules

  // ---------------------------------------------------------------------------
  // Inventory updates
  // ---------------------------------------------------------------------------

  /** One item after `handleConsume`: consumed if it has the id. */
  function ConsumeItem(item: PantryItem, id: string): PantryItem
  {
    if item.id == id then item.(consumed := true) else item
  }

  /** `prev.map(i => i.id === id ? { ...i, consumed: true } : i)`. */
  function ConsumeById(items: seq<PantryItem>, id: string): (r: seq<PantryItem>)
    ensures |r| == |items|
    ensures forall i :: 0 <= i < |r| ==> r[i] == ConsumeItem(items[i], id)
  {
    if items == [] then [] else [ConsumeItem(items[0], id)] + ConsumeById(items[1..], id)
  }

  /** Not consumed. */
  function IsActive(): PantryItem -> bool
  {
    (item: PantryItem) => !item.consumed
  }

  /** `filteredItems`: the items not consumed, in order. */
  function ActiveItems(items: seq<PantryItem>): (r: seq<PantryItem>)
    ensures Subsequence(r, items)
    ensures forall x :: x in r <==> x in items && !x.consumed
    ensures forall x :: multiset(r)[x] == if x.consumed then 0 else multiset(items)[x]
  {
    FilterSpec(items, IsActive());
    Filter(items, IsActive())
  }

  /** Has an id other than `id`. */
  function OtherId(id: string): PantryItem -> bool
  {
    (item: PantryItem) => item.id != id
  }

  /**
   * Consuming by id takes exactly the items with that id off the active list
   * and keeps the other active items in order.
   */
  lemma {:induction false} ConsumeLeavesActive(items: seq<PantryItem>, id: string)
    ensures ActiveItems(ConsumeById(items, id)) == Filter(ActiveItems(items), OtherId(id))
  {
    if items != [] {
      ConsumeLeavesActive(items[1..], id);
      var c := ConsumeById(items, id);
      assert c[1..] == ConsumeById(items[1..], id);
      assert ActiveItems(c) == Filter(c, IsActive());
    }
  }

  /** After consuming, no active item has the consumed id. */
  lemma ConsumedNotListed(items: seq<PantryItem>, id: string)
    ensures forall x :: x in ActiveItems(ConsumeById(items, id)) ==> x.id != id
  {
    ConsumeLeavesActive(items, id);
    FilterSpec(ActiveItems(items), OtherId(id));
  }

  /**
   * The abstract result of `reduceItemQuantity`: a partial item, where
   * `None` marks a field the update leaves out.
   */
  datatype ItemUpdate = ItemUpdate(
    id: Option<string>,
    name: Option<string>,
    expiryDate: Option<int>,
    qty: Option<string>,
    image: Option<string>,
    category: Option<Storage>,
    consumed: Option<bool>)

  /** A field of the update where present, the item's own otherwise. */
  function Or<T>(o: Option<T>, d: T): T
  {
    if o.Some? then o.value else d
  }

  /** `{ ...item, ...update }`. */
  function Merge(item: PantryItem, u: ItemUpdate): PantryItem
  {
    PantryItem(Or(u.id, item.id), Or(u.name, item.name), Or(u.expiryDate, item.expiryDate),
               Or(u.qty, item.qty), Or(u.image, item.image), Or(u.category, item.category),
               Or(u.consumed, item.consumed))
  }

  /** The fields the update names take its values; the others keep the item's. */
  lemma MergeFields(item: PantryItem, u: ItemUpdate)
    ensures u.qty.Some? ==> Merge(item, u).qty == u.qty.value
    ensures u.qty.None? ==> Merge(item, u).qty == item.qty
    ensures u.consumed.Some? ==> Merge(item, u).consumed == u.consumed.value
    ensures u.consumed.None? ==> Merge(item, u).consumed == item.consumed
    ensures u.id.Some? ==> Merge(item, u).id == u.id.value
    ensures u.id.None? ==> Merge(item, u).id == item.id
    ensures u.name.Some? ==> Merge(item, u).name == u.name.value
    ensures u.name.None? ==> Merge(item, u).name == item.name
    ensures u.expiryDate.Some? ==> Merge(item, u).expiryDate == u.expiryDate.value
    ensures u.expiryDate.None? ==> Merge(item, u).expiryDate == item.expiryDate
    ensures u.image.Some? ==> Merge(item, u).image == u.image.value
    ensures u.image.None? ==> Merge(item, u).image == item.image
    ensures u.category.Some? ==> Merge(item, u).category == u.category.value
    ensures u.category.None? ==> Merge(item, u).category == item.category
    ensures u == ItemUpdate(None, None, None, None, None, None, None) ==> Merge(item, u) == item
  {
  }

  /** `prev.map(i => i.id === id ? { ...i, ...update } : i)`. */
  function ApplyUpdate(items: seq<PantryItem>, id: string, u: ItemUpdate): (r: seq<PantryItem>)
    ensures |r| == |items|
    ensures forall i :: 0 <= i < |r| ==> r[i] == if items[i].id == id then Merge(items[i], u) else items[i]
  {
    if items == [] then []
    else [if items[0].id == id then Merge(items[0], u) else items[0]] + ApplyUpdate(items[1..], id, u)
  }

  /** An update that only sets `consumed` to true is a consume. */
  lemma ConsumingUpdateIsConsume(items: seq<PantryItem>, id: string)
    ensures ApplyUpdate(items, id, ItemUpdate(None, None, None, None, None, None, Some(true))) == ConsumeById(items, id)
  {
    var u := ItemUpdate(None, None, None, None, None, None, Some(true));
    var a, c := ApplyUpdate(items, id, u), ConsumeById(items, id);
    forall i | 0 <= i < |items| ensures a[i] == c[i] {
    }
  }

  // ---------------------------------------------------------------------------
  // Tabs
  // ---------------------------------------------------------------------------

  /** `activeTab === "Pantry" || i.category === activeTab`. */
  function OnTab(tab: string): PantryItem -> bool
  {
    (item: PantryItem) => tab == "Pantry" || StorageName(item.category) == tab
  }

  /** The item list shown under a tab. */
  function TabItems(items: seq<PantryItem>, tab: string): (r: seq<PantryItem>)
    ensures forall x :: x in r <==> x in items && !x.consumed && (tab == "Pantry" || StorageName(x.category) == tab)
    ensures Subsequence(r, ActiveItems(items))
    ensures forall x :: multiset(r)[x] ==
                        if !x.consumed && (tab == "Pantry" || StorageName(x.category) == tab) then multiset(items)[x] else 0
  {
    FilterSpec(ActiveItems(items), OnTab(tab));
    Filter(ActiveItems(items), OnTab(tab))
  }

  /** The "Pantry" tab lists every active item, whatever its storage place. */
  lemma PantryTabListsAll(items: seq<PantryItem>)
    ensures TabItems(items, "Pantry") == ActiveItems(items)
  {
    FilterAll(ActiveItems(items), OnTab("Pantry"));
  }

  /** The "Inventory" tab names no storage place, so it lists no item. */
  lemma InventoryTabEmpty(items: seq<PantryItem>)
    ensures TabItems(items, "Inventory") == []
  {
    var r := TabItems(items, "Inventory");
    if r != [] {
      assert false;
    }
  }

  // ---------------------------------------------------------------------------
  // Shopping list
  // ---------------------------------------------------------------------------

  /** What `addToShoppingList` copies from its argument. */
  datatype ListEntry = ListEntry(name: string, qty: string, category: string)

  /** A pantry item passed to `addToShoppingList`: its storage place becomes the category. */
  function EntryOf(item: PantryItem): ListEntry
  {
    ListEntry(item.name, item.qty, StorageName(item.category))
  }

  /** Has an id other than `id`. */
  function OtherListId(id: string): ShoppingItem -> bool
  {
    (item: ShoppingItem) => item.id != id
  }

  /** `prev.filter(i => i.id !== id)`. */
  function RemoveById(list: seq<ShoppingItem>, id: string): (r: seq<ShoppingItem>)
    ensures Subsequence(r, list)
    ensures forall x :: x in r <==> x in list && x.id != id
    ensures forall x: ShoppingItem :: x.id != id ==> multiset(r)[x] == multiset(list)[x]
  {
    FilterSpec(list, OtherListId(id));
    Filter(list, OtherListId(id))
  }

  /** Removing an id twice is the same as removing it once. */
  lemma RemoveIdempotent(list: seq<ShoppingItem>, id: string)
    ensures RemoveById(RemoveById(list, id), id) == RemoveById(list, id)
  {
    FilterIdempotent(list, OtherListId(id));
  }

  // ---------------------------------------------------------------------------
  // The page state
  // ---------------------------------------------------------------------------

  /** The pantry page's state: inventory, shopping list, restock prompt and tab. */
  class PantryPageState {
    var items: seq<PantryItem>
    var shoppingList: seq<ShoppingItem>
    var restockSuggestion: Option<PantryItem>
    var activeTab: string

    /** The first render: the initial inventory, an empty list, no prompt, the "Pantry" tab. */
    constructor(initialItems: seq<PantryItem>)
      ensures items == initialItems && shoppingList == []
      ensures restockSuggestion == None && activeTab == "Pantry"
    {
      items := initialItems;
      shoppingList := [];
      restockSuggestion := None;
      activeTab := "Pantry";
    }

    /** `handleConsume`: marks the item's id consumed and offers to restock it. */
    method Consume(item: PantryItem)
      modifies this
      ensures items == ConsumeById(old(items), item.id)
      ensures restockSuggestion == Some(item)
      ensures shoppingList == old(shoppingList) && activeTab == old(activeTab)
    {
      items := ConsumeById(items, item.id);
      restockSuggestion := Some(item);
    }

    /**
     * `handleReduce`: merges the update produced for the item into the
     * entries with its id; only an update with `consumed: true` offers a
     * restock.
     */
    method Reduce(item: PantryItem, update: ItemUpdate)
      modifies this
      ensures items == ApplyUpdate(old(items), item.id, update)
      ensures restockSuggestion == if update.consumed == Some(true) then Some(item) else old(restockSuggestion)
      ensures shoppingList == old(shoppingList) && activeTab == old(activeTab)
    {
      items := ApplyUpdate(items, item.id, update);
      if update.consumed == Some(true) {
        restockSuggestion := Some(item);
      }
    }

    /**
     * `addToShoppingList`: nothing for `null`; otherwise a new entry with
     * the given id and date goes to the front and the prompt closes.
     */
    method AddToShoppingList(entry: Option<ListEntry>, newId: string, today: int)
      modifies this
      ensures entry.None? ==>
        shoppingList == old(shoppingList) && restockSuggestion == old(restockSuggestion)
      ensures entry.Some? ==>
        shoppingList == [ShoppingItem(newId, entry.value.name, entry.value.qty, entry.value.category, today, false)]
                        + old(shoppingList)
      ensures entry.Some? ==> restockSuggestion == None
      ensures items == old(items) && activeTab == old(activeTab)
    {
      if entry.None? {
        return;
      }
      var e := entry.value;
      var newItem := ShoppingItem(newId, e.name, e.qty, e.category, today, false);
      shoppingList := [newItem] + shoppingList;
      restockSuggestion := None;
    }

    /** The prompt's "Add to list" button: `addToShoppingList(restockSuggestion)`. */
    method AddRestockToShoppingList(newId: string, today: int)
      modifies this
      ensures old(restockSuggestion).None? ==>
        shoppingList == old(shoppingList) && restockSuggestion == None
      ensures old(restockSuggestion).Some? ==>
        shoppingList == [ShoppingItem(newId, old(restockSuggestion).value.name, old(restockSuggestion).value.qty,
                                      StorageName(old(restockSuggestion).value.category), today, false)]
                        + old(shoppingList)
      ensures restockSuggestion == None
      ensures items == old(items) && activeTab == old(activeTab)
    {
      var entry := if restockSuggestion.Some? then Some(EntryOf(restockSuggestion.value)) else None;
      AddToShoppingList(entry, newId, today);
    }

    /** The trash button of a shopping entry. */
    method RemoveShoppingItem(id: string)
      modifies this
      ensures shoppingList == RemoveById(old(shoppingList), id)
      ensures items == old(items) && restockSuggestion == old(restockSuggestion) && activeTab == old(activeTab)
    {
      shoppingList := RemoveById(shoppingList, id);
    }

    /** The restock prompt's timer running out (or its dismiss button). */
    method DismissRestock()
      modifies this
      ensures restockSuggestion == None
      ensures items == old(items) && shoppingList == old(shoppingList) && activeTab == old(activeTab)
    {
      restockSuggestion := None;
    }

    /** A tab button. */
    method SelectTab(tab: string)
      modifies this
      ensures activeTab == tab
      ensures VisibleItems() == TabItems(old(items), tab)
      ensures items == old(items) && shoppingList == old(shoppingList) && restockSuggestion == old(restockSuggestion)
    {
      activeTab := tab;
    }

    /** The items listed on the current tab. */
    function VisibleItems(): seq<PantryItem>
      reads this
    {
      TabItems(items, activeTab)
    }
  }

  // ---------------------------------------------------------------------------
  // Health balance
  // ---------------------------------------------------------------------------

  /** One entry of the nutrition profile table: a name fragment and the categories it supplies. */
  datatype NutritionProfile = NutritionProfile(key: string, categories: seq<string>)

  /** The item's lowercased name includes the profile key (the key itself is not lowercased). */
  predicate Supplies(item: PantryItem, p: NutritionProfile)
  {
    Contains(Lower(item.name), p.key)
  }

  /** The categories supplied by some active item through some profile entry. */
  function PresentSet(items: seq<PantryItem>, profiles: seq<NutritionProfile>): set<string>
  {
    set x, p, c | x in items && !x.consumed && p in profiles && c in p.categories && Supplies(x, p) :: c
  }

  /**
   * The nested `forEach` of `HealthBalance`: over the active items, over the
   * profile entries, adding the categories of every entry whose key the
   * item's name includes.
   */
  method PresentCategories(items: seq<PantryItem>, profiles: seq<NutritionProfile>) returns (present: set<string>)
    ensures present == PresentSet(items, profiles)
    ensures forall c :: c in present <==>
      exists x, p :: x in items && !x.consumed && p in profiles && c in p.categories && Supplies(x, p)
  {
    var active := Filter(items, IsActive());
    present := {};
    for a := 0 to |active|
      invariant forall c :: c in present <==>
        exists i, k :: 0 <= i < a && 0 <= k < |profiles| && c in profiles[k].categories && Supplies(active[i], profiles[k])
    {
      var item := active[a];
      for k := 0 to |profiles|
        invariant forall c :: c in present <==>
          (exists i, k' :: 0 <= i < a && 0 <= k' < |profiles| && c in profiles[k'].categories && Supplies(active[i], profiles[k']))
          || (exists k' :: 0 <= k' < k && c in profiles[k'].categories && Supplies(item, profiles[k']))
      {
        if Contains(Lower(item.name), profiles[k].key) {
          present := present + set c | c in profiles[k].categories;
        }
      }
    }
    PresentSetByIndex(items, profiles, active);
  }

  /** The present categories, read off by positions in the active items and in the profile table. */
  lemma PresentSetByIndex(items: seq<PantryItem>, profiles: seq<NutritionProfile>, active: seq<PantryItem>)
    requires active == Filter(items, IsActive())
    ensures forall c :: c in PresentSet(items, profiles) <==>
      exists i, k :: 0 <= i < |active| && 0 <= k < |profiles| && c in profiles[k].categories && Supplies(active[i], profiles[k])
  {
    FilterSpec(items, IsActive());
    forall c | c in PresentSet(items, profiles)
      ensures exists i, k :: 0 <= i < |active| && 0 <= k < |profiles| && c in profiles[k].categories && Supplies(active[i], profiles[k])
    {
      var x, p :| x in items && !x.consumed && p in profiles && c in p.categories && Supplies(x, p);
      assert x in active;
      var i :| 0 <= i < |active| && active[i] == x;
      var k :| 0 <= k < |profiles| && profiles[k] == p;
    }
    forall c | exists i, k :: 0 <= i < |active| && 0 <= k < |profiles| && c in profiles[k].categories && Supplies(active[i], profiles[k])
      ensures c in PresentSet(items, profiles)
    {
      var i, k :| 0 <= i < |active| && 0 <= k < |profiles| && c in profiles[k].categories && Supplies(active[i], profiles[k]);
      assert active[i] in active && profiles[k] in profiles;
    }
  }

  /** A consumed item adds no category. */
  lemma ConsumedSuppliesNothing(items: seq<PantryItem>, x: PantryItem, profiles: seq<NutritionProfile>)
    requires x.consumed
    ensures PresentSet(items + [x], profiles) == PresentSet(items, profiles)
  {
  }

  /** A key with an ASCII capital letter never matches, since only the name is lowercased. */
  lemma CapitalKeyNeverMatches(item: PantryItem, p: NutritionProfile, j: int)
    requires 0 <= j < |p.key| && 'A' <= p.key[j] <= 'Z'
    ensures !Supplies(item, p)
  {
    var s := Lower(item.name);
    forall i | 0 <= i <= |s| - |p.key|
      ensures !At(s, p.key, i)
    {
      assert s[i..i + |p.key|][j] == s[i + j] == LowerChar(item.name[i + j]);
    }
  }

  /** The categories the card reports, in display order. */
  const EssentialCategories: seq<string> := ["Protein", "Fiber", "Vitamins", "Carbs", "Fats"]

  /** The card: each essential category with whether it is present. */
  function BalanceReport(present: set<string>): (r: seq<(string, bool)>)
    ensures |r| == 5
    ensures forall i :: 0 <= i < 5 ==> r[i].0 == EssentialCategories[i] && (r[i].1 <==> EssentialCategories[i] in present)
  {
    seq(5, i requires 0 <= i < 5 => (EssentialCategories[i], EssentialCategories[i] in present))
  }

  /** Categories outside the essential five never show on the card. */
  lemma ReportOnlyEssentials(present: set<string>, c: string)
    requires c !in EssentialCategories
    ensures forall i :: 0 <= i < |BalanceReport(present)| ==> BalanceReport(present)[i].0 != c
  {
  }
}
