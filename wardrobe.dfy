/**
 * The wardrobe rules of `src/lib/wardrobe.ts`: the three-day outfit
 * generator, the batch "mark as worn" update, the two analytics filters and
 * the simulated mirror scan.
 *
 * Every `Math.random()` draw is an injected value: a natural number reduced
 * modulo the length of the list it picks from, and a boolean for the 30%
 * outerwear chance. Instants are whole numbers (milliseconds); the caller
 * supplies "now" and the cut-offs.
 */
module WardrobeRules {
  import opened Wrappers
  import opened Text
  import opened Seqs
  import opened WeatherDecoding

  datatype Category = Tops | Bottoms | Outerwear | Shoes | Accessories

  datatype Warmth = Light | Medium | Heavy

  datatype Formality = Casual | BusinessCasual | Formal | Lounge

  /** A garment; `lastWorn` is `None` for an item never worn (or with no usable date). */
  datatype WardrobeItem = WardrobeItem(
    id: string,
    name: string,
    category: Category,
    image: string,
    color: string,
    warmthLevel: Warmth,
    formality: Formality,
    lastWorn: Option<int>,
    wornCount: int,
    liked: bool)

  datatype OutfitSuggestion = OutfitSuggestion(
    id: string,
    title: string,
    description: string,
    items: seq<WardrobeItem>,
    mockImage: string)

  // ---------------------------------------------------------------------------
  // Analytics
  // ---------------------------------------------------------------------------

  /** Worn at an instant strictly after the cut-off. */
  function WornAfter(cutoff: int): WardrobeItem -> bool
  {
    (item: WardrobeItem) => item.lastWorn.Some? && item.lastWorn.value > cutoff
  }

  /**
   * `getItemsWornLastWeek`: how many items were worn after `oneWeekAgo`
   * (the clock's instant seven days back).
   */
  function ItemsWornLastWeek(items: seq<WardrobeItem>, oneWeekAgo: int): (r: nat)
    ensures r == |set i | 0 <= i < |items| && items[i].lastWorn.Some? && items[i].lastWorn.value > oneWeekAgo|
    ensures r <= |items|
  {
    FilterLength(items, WornAfter(oneWeekAgo));
    assert Positions(items, WornAfter(oneWeekAgo)) ==
      set i | 0 <= i < |items| && items[i].lastWorn.Some? && items[i].lastWorn.value > oneWeekAgo;
    |Filter(items, WornAfter(oneWeekAgo))|
  }

  /** An item never worn contributes nothing to the weekly count. */
  lemma NeverWornNotCounted(items: seq<WardrobeItem>, x: WardrobeItem, oneWeekAgo: int)
    requires x.lastWorn.None?
    ensures ItemsWornLastWeek(items + [x], oneWeekAgo) == ItemsWornLastWeek(items, oneWeekAgo)
  {
    var s := items + [x];
    assert (set i | 0 <= i < |s| && s[i].lastWorn.Some? && s[i].lastWorn.value > oneWeekAgo) ==
      (set i | 0 <= i < |items| && items[i].lastWorn.Some? && items[i].lastWorn.value > oneWeekAgo);
  }

  /** Never worn, or last worn strictly before the cut-off. */
  function UnwornSince(cutoff: int): WardrobeItem -> bool
  {
    (item: WardrobeItem) => item.lastWorn.None? || item.lastWorn.value < cutoff
  }

  /**
   * The sort comparator of `getUnwornAlternatives` as "not after": a never
   * worn item goes before any item, then earlier wear goes first.
   */
  function LastWornLe(): (WardrobeItem, WardrobeItem) -> bool
  {
    (a: WardrobeItem, b: WardrobeItem) =>
      a.lastWorn.None? || (b.lastWorn.Some? && a.lastWorn.value <= b.lastWorn.value)
  }

  lemma LastWornLePreorder()
    ensures TotalPreorder(LastWornLe())
  {
    var le := LastWornLe();
    forall a: WardrobeItem, b: WardrobeItem ensures le(a, b) || le(b, a) {
      if a.lastWorn.Some? && b.lastWorn.Some? {
        assert a.lastWorn.value <= b.lastWorn.value || b.lastWorn.value <= a.lastWorn.value;
      }
    }
    forall a, b, c | le(a, b) && le(b, c) ensures le(a, c) {
    }
  }

  /** The comparator of `getUnwornAlternatives` as written, returning a negative number for "a first". */
  function UnwornCompare(a: WardrobeItem, b: WardrobeItem): int
  {
    if a.lastWorn.None? then -1
    else if b.lastWorn.None? then 1
    else a.lastWorn.value - b.lastWorn.value
  }

  /**
   * As written the comparator puts each of two never-worn items before the
   * other, so it is not a consistent comparator and the order of never-worn
   * items is left to the sort implementation.
   */
  lemma UnwornCompareInconsistent(a: WardrobeItem, b: WardrobeItem)
    requires a.lastWorn.None? && b.lastWorn.None?
    ensures UnwornCompare(a, b) < 0 && UnwornCompare(b, a) < 0
  {
  }

  /** Apart from that pair, the comparator and the preorder the model sorts by agree. */
  lemma UnwornCompareAgrees(a: WardrobeItem, b: WardrobeItem)
    requires a.lastWorn.Some? || b.lastWorn.Some?
    ensures UnwornCompare(a, b) <= 0 <==> LastWornLe()(a, b)
  {
  }

  /**
   * `getUnwornAlternatives`: the items unworn since `oneMonthAgo`, least
   * recently worn first.
   */
  function UnwornAlternatives(items: seq<WardrobeItem>, oneMonthAgo: int): (r: seq<WardrobeItem>)
    ensures forall x :: multiset(r)[x] == (if x.lastWorn.None? || x.lastWorn.value < oneMonthAgo then multiset(items)[x] else 0)
    ensures forall i, j :: 0 <= i < j < |r| && r[j].lastWorn.None? ==> r[i].lastWorn.None?
    ensures forall i, j :: 0 <= i < j < |r| && r[i].lastWorn.Some? && r[j].lastWorn.Some? ==>
      r[i].lastWorn.value <= r[j].lastWorn.value
  {
    var unworn := Filter(items, UnwornSince(oneMonthAgo));
    FilterSpec(items, UnwornSince(oneMonthAgo));
    LastWornLePreorder();
    SortBySorted(unworn, LastWornLe());
    SortBy(unworn, LastWornLe())
  }

  /** An item worn recently is never offered as an alternative. */
  lemma RecentlyWornExcluded(items: seq<WardrobeItem>, oneMonthAgo: int, x: WardrobeItem)
    requires x.lastWorn.Some? && x.lastWorn.value >= oneMonthAgo
    ensures x !in UnwornAlternatives(items, oneMonthAgo)
  {
    assert multiset(UnwornAlternatives(items, oneMonthAgo))[x] == 0;
  }

  // ---------------------------------------------------------------------------
  // The outfit generator
  // ---------------------------------------------------------------------------

  /** The `Math.random()` draws for one outfit. */
  datatype Roll = Roll(top: nat, bottom: nat, shoe: nat, extraLayer: bool, outer: nat)

  /** The inventory filter `inventory.filter(i => i.category === c)`. */
  function InCategory(c: Category): WardrobeItem -> bool
  {
    (item: WardrobeItem) => item.category == c
  }

  /** The items of one category, in inventory order. */
  function OfCategory(inventory: seq<WardrobeItem>, c: Category): seq<WardrobeItem>
  {
    Filter(inventory, InCategory(c))
  }

  /** Some element of `s` has category `c`. */
  predicate Has(s: seq<WardrobeItem>, c: Category)
  {
    exists i :: 0 <= i < |s| && s[i].category == c
  }

  /** The category filter keeps exactly the inventory's items of that category. */
  lemma OfCategorySpec(inventory: seq<WardrobeItem>, c: Category)
    ensures forall x :: x in OfCategory(inventory, c) <==> x in inventory && x.category == c
    ensures |OfCategory(inventory, c)| > 0 <==> Has(inventory, c)
  {
    FilterSpec(inventory, InCategory(c));
    if Has(inventory, c) {
      var i :| 0 <= i < |inventory| && inventory[i].category == c;
      assert inventory[i] in OfCategory(inventory, c);
    }
    if |OfCategory(inventory, c)| > 0 {
      var x := OfCategory(inventory, c)[0];
      assert x in OfCategory(inventory, c);
      var i :| 0 <= i < |inventory| && inventory[i] == x;
    }
  }

  /** `getRandom(arr)` for an injected draw. */
  function Pick(arr: seq<WardrobeItem>, draw: nat): WardrobeItem
    requires |arr| > 0
  {
    arr[draw % |arr|]
  }

  /** A pick pushed only when the list is non-empty and the condition holds. */
  function PickIf(arr: seq<WardrobeItem>, draw: nat, cond: bool): seq<WardrobeItem>
  {
    if cond && |arr| > 0 then [Pick(arr, draw)] else []
  }

  /** Cold (below 15°C) or raining: outerwear is then always added when there is some. */
  predicate NeedsOuterwear(day: DailyForecast)
  {
    day.tempMax < 15 || MentionsRain(day.condition)
  }

  /** The outfit assembled for one day: top, bottom, shoes, then possibly outerwear. */
  function OutfitFor(inventory: seq<WardrobeItem>, day: DailyForecast, roll: Roll): seq<WardrobeItem>
  {
    PickIf(OfCategory(inventory, Tops), roll.top, true)
    + PickIf(OfCategory(inventory, Bottoms), roll.bottom, true)
    + PickIf(OfCategory(inventory, Shoes), roll.shoe, true)
    + PickIf(OfCategory(inventory, Outerwear), roll.outer, NeedsOuterwear(day) || roll.extraLayer)
  }

  /** The slot of a category in an outfit. */
  function Slot(c: Category): nat
  {
    match c
    case Tops => 0
    case Bottoms => 1
    case Shoes => 2
    case Outerwear => 3
    case Accessories => 4
  }

  /** At most one item, taken from the inventory and of category `c`. */
  predicate SlotPick(p: seq<WardrobeItem>, inventory: seq<WardrobeItem>, c: Category)
  {
    |p| <= 1 && forall x :: x in p ==> x in inventory && x.category == c
  }

  /** A pick from a category list is an inventory item of that category. */
  lemma PickIfSpec(inventory: seq<WardrobeItem>, c: Category, draw: nat, cond: bool)
    ensures SlotPick(PickIf(OfCategory(inventory, c), draw, cond), inventory, c)
    ensures |PickIf(OfCategory(inventory, c), draw, cond)| == 1 <==> cond && Has(inventory, c)
  {
    OfCategorySpec(inventory, c);
    var arr := OfCategory(inventory, c);
    if cond && |arr| > 0 {
      assert Pick(arr, draw) in arr;
    }
  }

  /** A category occurs in a concatenation iff it occurs in one of the parts. */
  lemma HasAppend(a: seq<WardrobeItem>, b: seq<WardrobeItem>, c: Category)
    ensures Has(a + b, c) <==> Has(a, c) || Has(b, c)
  {
    if Has(a + b, c) {
      var i :| 0 <= i < |a + b| && (a + b)[i].category == c;
      if i >= |a| {
        assert b[i - |a|] == (a + b)[i];
      }
    }
    if Has(b, c) {
      var i :| 0 <= i < |b| && b[i].category == c;
      assert (a + b)[|a| + i] == b[i];
    }
    if Has(a, c) {
      var i :| 0 <= i < |a| && a[i].category == c;
      assert (a + b)[i] == a[i];
    }
  }

  /** A slot pick holds category `d` exactly when it is the non-empty pick of that category. */
  lemma HasPick(p: seq<WardrobeItem>, inventory: seq<WardrobeItem>, c: Category, d: Category)
    requires SlotPick(p, inventory, c)
    ensures Has(p, d) <==> |p| == 1 && d == c
  {
    if |p| == 1 {
      assert p[0] in p;
    }
  }

  /** Items in strictly increasing slot order. */
  predicate InSlotOrder(r: seq<WardrobeItem>)
  {
    forall i, j :: 0 <= i < j < |r| ==> Slot(r[i].category) < Slot(r[j].category)
  }

  /** Two lists in slot order whose slots do not interleave concatenate in slot order. */
  lemma SlotOrderAppend(a: seq<WardrobeItem>, b: seq<WardrobeItem>)
    requires InSlotOrder(a) && InSlotOrder(b)
    requires forall x, y :: x in a && y in b ==> Slot(x.category) < Slot(y.category)
    ensures InSlotOrder(a + b)
  {
    var r := a + b;
    forall i, j | 0 <= i < j < |r| ensures Slot(r[i].category) < Slot(r[j].category) {
      if j < |a| {
        assert r[i] == a[i] && r[j] == a[j];
      } else if i >= |a| {
        assert r[i] == b[i - |a|] && r[j] == b[j - |a|];
      } else {
        assert r[i] == a[i] && r[j] == b[j - |a|];
        assert a[i] in a && b[j - |a|] in b;
      }
    }
  }

  /** Top, bottom, shoe and outer picks concatenate to an outfit in slot order. */
  lemma FourPicksInOrder(inventory: seq<WardrobeItem>, t: seq<WardrobeItem>, b: seq<WardrobeItem>,
                         s: seq<WardrobeItem>, o: seq<WardrobeItem>)
    requires SlotPick(t, inventory, Tops) && SlotPick(b, inventory, Bottoms)
    requires SlotPick(s, inventory, Shoes) && SlotPick(o, inventory, Outerwear)
    ensures InSlotOrder(t + b + s + o)
    ensures forall x :: x in t + b + s + o ==> x in inventory && x.category != Accessories
  {
    SlotOrderAppend(t, b);
    SlotOrderAppend(t + b, s);
    SlotOrderAppend(t + b + s, o);
  }

  /**
   * What every generated outfit satisfies: at most four items, all from the
   * inventory and none an accessory, in the order top, bottom, shoes,
   * outerwear with at most one of each; a top, bottom and shoes exactly when
   * the inventory has them; outerwear exactly when the inventory has some and
   * the day is cold or rainy or the 30% draw came up.
   */
  lemma OutfitShape(inventory: seq<WardrobeItem>, day: DailyForecast, roll: Roll)
    ensures var r := OutfitFor(inventory, day, roll);
      && |r| <= 4
      && (forall i :: 0 <= i < |r| ==> r[i] in inventory && r[i].category != Accessories)
      && InSlotOrder(r)
      && (Has(r, Tops) <==> Has(inventory, Tops))
      && (Has(r, Bottoms) <==> Has(inventory, Bottoms))
      && (Has(r, Shoes) <==> Has(inventory, Shoes))
      && (Has(r, Outerwear) <==> Has(inventory, Outerwear) && (NeedsOuterwear(day) || roll.extraLayer))
      && (Has(inventory, Tops) && Has(inventory, Bottoms) && Has(inventory, Shoes) ==> |r| >= 3)
  {
    OutfitMembers(inventory, day, roll);
    OutfitCategories(inventory, day, roll);
  }

  /** The items of an outfit: at most four, from the inventory, no accessory, in slot order. */
  lemma OutfitMembers(inventory: seq<WardrobeItem>, day: DailyForecast, roll: Roll)
    ensures var r := OutfitFor(inventory, day, roll);
      && |r| <= 4
      && (forall i :: 0 <= i < |r| ==> r[i] in inventory && r[i].category != Accessories)
      && InSlotOrder(r)
  {
    var cond := NeedsOuterwear(day) || roll.extraLayer;
    var t := PickIf(OfCategory(inventory, Tops), roll.top, true);
    var b := PickIf(OfCategory(inventory, Bottoms), roll.bottom, true);
    var s := PickIf(OfCategory(inventory, Shoes), roll.shoe, true);
    var o := PickIf(OfCategory(inventory, Outerwear), roll.outer, cond);
    PickIfSpec(inventory, Tops, roll.top, true);
    PickIfSpec(inventory, Bottoms, roll.bottom, true);
    PickIfSpec(inventory, Shoes, roll.shoe, true);
    PickIfSpec(inventory, Outerwear, roll.outer, cond);
    var r := OutfitFor(inventory, day, roll);
    assert r == t + b + s + o;
    FourPicksInOrder(inventory, t, b, s, o);
    forall i | 0 <= i < |r| ensures r[i] in inventory && r[i].category != Accessories {
      assert r[i] in r;
    }
  }

  /** The categories of an outfit: one of each present category, outerwear only when needed or drawn. */
  lemma OutfitCategories(inventory: seq<WardrobeItem>, day: DailyForecast, roll: Roll)
    ensures var r := OutfitFor(inventory, day, roll);
      && (Has(r, Tops) <==> Has(inventory, Tops))
      && (Has(r, Bottoms) <==> Has(inventory, Bottoms))
      && (Has(r, Shoes) <==> Has(inventory, Shoes))
      && (Has(r, Outerwear) <==> Has(inventory, Outerwear) && (NeedsOuterwear(day) || roll.extraLayer))
      && (Has(inventory, Tops) && Has(inventory, Bottoms) && Has(inventory, Shoes) ==> |r| >= 3)
  {
    var cond := NeedsOuterwear(day) || roll.extraLayer;
    var t := PickIf(OfCategory(inventory, Tops), roll.top, true);
    var b := PickIf(OfCategory(inventory, Bottoms), roll.bottom, true);
    var s := PickIf(OfCategory(inventory, Shoes), roll.shoe, true);
    var o := PickIf(OfCategory(inventory, Outerwear), roll.outer, cond);
    PickIfSpec(inventory, Tops, roll.top, true);
    PickIfSpec(inventory, Bottoms, roll.bottom, true);
    PickIfSpec(inventory, Shoes, roll.shoe, true);
    PickIfSpec(inventory, Outerwear, roll.outer, cond);
    var r := OutfitFor(inventory, day, roll);
    assert r == t + b + s + o;
    forall d | true
      ensures Has(r, d) <==> Has(t, d) || Has(b, d) || Has(s, d) || Has(o, d)
    {
      HasAppend(t + b + s, o, d);
      HasAppend(t + b, s, d);
      HasAppend(t, b, d);
    }
    forall d | true
      ensures Has(t, d) <==> |t| == 1 && d == Tops
      ensures Has(b, d) <==> |b| == 1 && d == Bottoms
      ensures Has(s, d) <==> |s| == 1 && d == Shoes
      ensures Has(o, d) <==> |o| == 1 && d == Outerwear
    {
      HasPick(t, inventory, Tops, d);
      HasPick(b, inventory, Bottoms, d);
      HasPick(s, inventory, Shoes, d);
      HasPick(o, inventory, Outerwear, d);
    }
  }

  /** The default forecast used when fewer than three days are given. */
  const DefaultForecast: seq<DailyForecast> := [
    DailyForecast("Today", 15, 0, "Sunny"),
    DailyForecast("Tomorrow", 12, 3, "Cloudy"),
    DailyForecast("Day 3", 10, 61, "Rain")
  ]

  /** The three days an outfit is generated for. */
  function ActiveForecast(forecast: seq<DailyForecast>): (r: seq<DailyForecast>)
    ensures |r| == 3
    ensures |forecast| >= 3 ==> r == forecast[..3]
    ensures |forecast| < 3 ==> r == DefaultForecast
  {
    if |forecast| >= 3 then forecast[..3] else DefaultForecast
  }

  /** The id and picture of each of the three suggestions. */
  datatype Vibe = Vibe(id: string, mockImage: string)

  const Vibes: seq<Vibe> := [
    Vibe("o1", "https://images.unsplash.com/photo-1515886657613-9f3515b0c78f?w=600&h=800&fit=crop"),
    Vibe("o2", "https://images.unsplash.com/photo-1434389678369-bd410f538431?w=600&h=800&fit=crop"),
    Vibe("o3", "https://images.unsplash.com/photo-1495385794356-15371f348c31?w=600&h=800&fit=crop")
  ]

  /** The title: the placeholder names pass through, anything else goes to the date formatter. */
  function DateLabel(date: string, formatDate: string -> string): string
  {
    if date != "Today" && date != "Tomorrow" && date != "Day 3" then formatDate(date) else date
  }

  /** The template literal `${tempMax}°C, ${condition}`. */
  function Description(day: DailyForecast): string
  {
    IntToString(day.tempMax) + "°C, " + day.condition
  }

  /** Suggestion `index` for a day and its outfit. */
  function Suggestion(day: DailyForecast, index: nat, items: seq<WardrobeItem>, formatDate: string -> string): OutfitSuggestion
  {
    var vibe := if index < |Vibes| then Vibes[index] else Vibes[0];
    OutfitSuggestion(vibe.id, DateLabel(day.date, formatDate), Description(day), items, vibe.mockImage)
  }

  /**
   * `generateOutfits`: one suggestion per active day. Each outfit is built by
   * successive pushes; `roll(i)` are the draws for day `i`, and `formatDate`
   * stands for `toLocaleDateString`.
   */
  method GenerateOutfits(inventory: seq<WardrobeItem>, forecast: seq<DailyForecast>,
                         roll: nat -> Roll, formatDate: string -> string)
    returns (suggestions: seq<OutfitSuggestion>)
    ensures |suggestions| == 3
    ensures forall i :: 0 <= i < 3 ==>
      suggestions[i] == Suggestion(ActiveForecast(forecast)[i], i, OutfitFor(inventory, ActiveForecast(forecast)[i], roll(i)), formatDate)
    ensures forall i :: 0 <= i < 3 ==> suggestions[i].id == Vibes[i].id && suggestions[i].mockImage == Vibes[i].mockImage
  {
    var tops := Filter(inventory, InCategory(Tops));
    var bottoms := Filter(inventory, InCategory(Bottoms));
    var shoes := Filter(inventory, InCategory(Shoes));
    var outerwear := Filter(inventory, InCategory(Outerwear));
    var activeForecast := ActiveForecast(forecast);
    ghost var expected := seq(3, i requires 0 <= i < 3 =>
      Suggestion(activeForecast[i], i, OutfitFor(inventory, activeForecast[i], roll(i)), formatDate));
    suggestions := [];
    for index := 0 to 3
      invariant suggestions == expected[..index]
    {
      var day := activeForecast[index];
      var r := roll(index);
      var isCold := day.tempMax < 15;
      var isRaining := MentionsRain(day.condition);
      var outfit: seq<WardrobeItem> := [];
      if |tops| > 0 {
        outfit := outfit + [Pick(tops, r.top)];
      }
      assert outfit == PickIf(tops, r.top, true);
      if |bottoms| > 0 {
        outfit := outfit + [Pick(bottoms, r.bottom)];
      }
      assert outfit == PickIf(tops, r.top, true) + PickIf(bottoms, r.bottom, true);
      if |shoes| > 0 {
        outfit := outfit + [Pick(shoes, r.shoe)];
      }
      var firstThree := PickIf(tops, r.top, true) + PickIf(bottoms, r.bottom, true) + PickIf(shoes, r.shoe, true);
      assert outfit == firstThree;
      if (isCold || isRaining || r.extraLayer) && |outerwear| > 0 {
        outfit := outfit + [Pick(outerwear, r.outer)];
      }
      assert outfit == firstThree + PickIf(outerwear, r.outer, NeedsOuterwear(day) || r.extraLayer);
      assert outfit == OutfitFor(inventory, day, r);
      assert expected[..index + 1] == expected[..index] + [expected[index]];
      suggestions := suggestions + [Suggestion(day, index, outfit, formatDate)];
    }
    assert expected[..3] == expected;
  }

  /** Titles of the placeholder days pass through the formatter untouched. */
  lemma PlaceholderTitles(date: string, formatDate: string -> string)
    requires date in {"Today", "Tomorrow", "Day 3"}
    ensures DateLabel(date, formatDate) == date
  {
  }

  /** With fewer than three forecast days the suggestions are titled Today, Tomorrow and Day 3. */
  lemma DefaultTitles(inventory: seq<WardrobeItem>, forecast: seq<DailyForecast>,
                      roll: nat -> Roll, formatDate: string -> string)
    requires |forecast| < 3
    ensures forall i :: 0 <= i < 3 ==>
      Suggestion(ActiveForecast(forecast)[i], i, OutfitFor(inventory, ActiveForecast(forecast)[i], roll(i)), formatDate).title
      == ["Today", "Tomorrow", "Day 3"][i]
  {
    var f := ActiveForecast(forecast);
    assert f == DefaultForecast;
  }

  /** The default days are described as 15°C sunny, 12°C cloudy and 10°C rain. */
  lemma DefaultDescriptions()
    ensures Description(DefaultForecast[0]) == "15°C, Sunny"
    ensures Description(DefaultForecast[1]) == "12°C, Cloudy"
    ensures Description(DefaultForecast[2]) == "10°C, Rain"
  {
    TwoDigitString(15);
    TwoDigitString(12);
    TwoDigitString(10);
    assert IntToString(15) == "15" && IntToString(12) == "12" && IntToString(10) == "10";
  }

  /** The third default day is cold, so its outfit includes outerwear whenever the inventory has some. */
  lemma DefaultThirdDayLayered(inventory: seq<WardrobeItem>, roll: Roll)
    requires Has(inventory, Outerwear)
    ensures Has(OutfitFor(inventory, DefaultForecast[2], roll), Outerwear)
  {
    OutfitShape(inventory, DefaultForecast[2], roll);
  }

  // ---------------------------------------------------------------------------
  // Marking items as worn
  // ---------------------------------------------------------------------------

  /** The ids of a batch of items. */
  function Ids(items: seq<WardrobeItem>): set<string>
  {
    set x | x in items :: x.id
  }

  /** One inventory item after the batch update. */
  function MarkItem(item: WardrobeItem, ids: set<string>, now: int): WardrobeItem
  {
    if item.id in ids then item.(lastWorn := Some(now), wornCount := item.wornCount + 1) else item
  }

  /** `markAsWorn`: every inventory item whose id is in the batch is stamped with `now` and counted once more. */
  function MarkAsWorn(toMark: seq<WardrobeItem>, inventory: seq<WardrobeItem>, now: int): (r: seq<WardrobeItem>)
    ensures |r| == |inventory|
    ensures forall i :: 0 <= i < |r| ==> r[i].id == inventory[i].id
    ensures forall i :: 0 <= i < |r| && inventory[i].id in Ids(toMark) ==>
      r[i] == inventory[i].(lastWorn := Some(now), wornCount := inventory[i].wornCount + 1)
    ensures forall i :: 0 <= i < |r| && inventory[i].id !in Ids(toMark) ==> r[i] == inventory[i]
  {
    MarkFrom(Ids(toMark), inventory, now)
  }

  /** The `map` over the inventory. */
  function MarkFrom(ids: set<string>, inventory: seq<WardrobeItem>, now: int): (r: seq<WardrobeItem>)
    ensures |r| == |inventory|
    ensures forall i :: 0 <= i < |r| ==> r[i] == MarkItem(inventory[i], ids, now)
  {
    if inventory == [] then [] else [MarkItem(inventory[0], ids, now)] + MarkFrom(ids, inventory[1..], now)
  }

  /** Only the ids of the batch matter, so an item listed twice is counted once. */
  lemma MarkDuplicateOnce(toMark: seq<WardrobeItem>, x: WardrobeItem, inventory: seq<WardrobeItem>, now: int)
    requires x in toMark
    ensures MarkAsWorn(toMark + [x], inventory, now) == MarkAsWorn(toMark, inventory, now)
  {
    assert Ids(toMark + [x]) == Ids(toMark);
  }

  /** A batch item whose id is not in the inventory changes nothing. */
  lemma MarkAbsentNoEffect(toMark: seq<WardrobeItem>, x: WardrobeItem, inventory: seq<WardrobeItem>, now: int)
    requires forall i :: 0 <= i < |inventory| ==> inventory[i].id != x.id
    ensures MarkAsWorn(toMark + [x], inventory, now) == MarkAsWorn(toMark, inventory, now)
  {
    var a, b := MarkAsWorn(toMark + [x], inventory, now), MarkAsWorn(toMark, inventory, now);
    assert Ids(toMark + [x]) == Ids(toMark) + {x.id};
    forall i | 0 <= i < |inventory| ensures a[i] == b[i] {
    }
  }

  /** Marking an empty batch leaves the inventory as it is. */
  lemma MarkNothing(inventory: seq<WardrobeItem>, now: int)
    ensures MarkAsWorn([], inventory, now) == inventory
  {
    assert Ids([]) == {};
  }

  // ---------------------------------------------------------------------------
  // The mirror scan
  // ---------------------------------------------------------------------------

  /** `simulateMirrorScan` without its delay: one top and one bottom, each when there is one. */
  function MirrorScan(inventory: seq<WardrobeItem>, topDraw: nat, bottomDraw: nat): (r: seq<WardrobeItem>)
    ensures |r| <= 2
    ensures forall x :: x in r ==> x in inventory && x.category in {Tops, Bottoms}
    ensures |r| == (if Has(inventory, Tops) then 1 else 0) + (if Has(inventory, Bottoms) then 1 else 0)
    ensures |r| == 2 ==> r[0].category == Tops && r[1].category == Bottoms
  {
    PickIfSpec(inventory, Tops, topDraw, true);
    PickIfSpec(inventory, Bottoms, bottomDraw, true);
    var t := PickIf(OfCategory(inventory, Tops), topDraw, true);
    var b := PickIf(OfCategory(inventory, Bottoms), bottomDraw, true);
    assert |t| == 1 ==> t[0] in t;
    assert |b| == 1 ==> b[0] in b;
    t + b
  }
}
