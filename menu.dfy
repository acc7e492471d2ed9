/**
 * The menu catalog of retell-agent/src/menu.ts: the fixed list of items,
 * the case-insensitive three-way substring lookup `findMenuItem`, and
 * `formatMenuForDisplay`, which groups the items by category in first-seen
 * order (a loop filling an insertion-ordered map) and renders the groups.
 */
module Menu {
  import opened Wrappers
  import opened Text

  /** A sellable item. `price` is in euro cents; `category` is free text. */
  datatype MenuItem = MenuItem(id: string, name: string, description: string, price: nat, category: string)

  /** The live menu, in catalog order. */
  const Catalog: seq<MenuItem> := [
    MenuItem("meal-1", "12\" Pizza Meal", "12\" Pizza with 4 Toppings, Chips and Can", 1800, "meal-deal"),
    MenuItem("meal-2", "9\" Pizza Meal", "9\" Pizza with 4 Toppings, Chips and Can", 1500, "meal-deal"),
    MenuItem("meal-3", "14\" Pizza Meal", "14\" Pizza with 4 Toppings, Chips and Can", 2000, "meal-deal"),
    MenuItem("meal-4", "Doner Kebab Meal", "Meal Comes With Chips & Can", 1350, "meal-deal"),
    MenuItem("meal-5", "Shawarma Kebab Meal", "Meal Comes With Chips & Can", 1400, "meal-deal"),
    MenuItem("meal-6", "Mix Kebab Meal", "Meal Comes With Chips & Can", 1450, "meal-deal"),
    MenuItem("meal-7", "Doner Wrap Meal", "Meal Comes With Chips & Can of Drink", 1100, "meal-deal"),
    MenuItem("meal-8", "Mix Wrap Meal", "Meal Comes With Chips & Can", 1200, "meal-deal"),
    MenuItem("meal-9", "Chicken Wrap Meal", "Meal Comes With Chips & Can of Drink", 1100, "meal-deal"),
    MenuItem("meal-10", "5 Pcs Chicken Tender Meal", "Meal Comes With Chips & Can", 950, "meal-deal"),
    MenuItem("meal-11", "8 Pcs Chicken Nuggets Meal", "8 x Nuggets with Chips & Can", 950, "meal-deal")
  ]

  // ---------------------------------------------------------------------
  // Lookup
  // ---------------------------------------------------------------------

  /**
   * The predicate handed to `menu.find`, applied to an already lower-cased
   * query: the query lies inside the item's name, the name lies inside the
   * query, or the query lies inside the item's description.
   */
  predicate Matches(item: MenuItem, normalizedName: string)
  {
    var itemName := Lower(item.name);
    var itemDescription := Lower(item.description);
    Includes(itemName, normalizedName) || Includes(normalizedName, itemName) || Includes(itemDescription, normalizedName)
  }

  /** `items.find(...)`: the position of the first item that matches, if any. */
  function FindFirst(items: seq<MenuItem>, normalizedName: string): (r: Option<nat>)
    ensures r.Some? ==> r.value < |items| && Matches(items[r.value], normalizedName)
    ensures r.Some? ==> forall j :: 0 <= j < r.value ==> !Matches(items[j], normalizedName)
    ensures r.None? <==> forall j :: 0 <= j < |items| ==> !Matches(items[j], normalizedName)
  {
    if |items| == 0 then None
    else if Matches(items[0], normalizedName) then Some(0)
    else
      match FindFirst(items[1..], normalizedName)
      case None => None
      case Some(k) => Some(k + 1)
  }

  /** `findMenuItem(name)`: the first catalog item matching the lower-cased query. */
  function FindMenuItem(name: string): Option<MenuItem>
  {
    match FindFirst(Catalog, Lower(name))
    case None => None
    case Some(k) => Some(Catalog[k])
  }

  /**
   * The lookup returns an item only if it matches, and then the first
   * matching one in catalog order; it returns nothing exactly when no
   * catalog item matches.
   */
  lemma FindMenuItemIsFirstMatch(name: string)
    ensures FindMenuItem(name).Some? ==>
              exists k :: 0 <= k < |Catalog| && Catalog[k] == FindMenuItem(name).value
                          && Matches(Catalog[k], Lower(name))
                          && forall j :: 0 <= j < k ==> !Matches(Catalog[j], Lower(name))
    ensures FindMenuItem(name).None? <==> forall j :: 0 <= j < |Catalog| ==> !Matches(Catalog[j], Lower(name))
  {
    var r := FindFirst(Catalog, Lower(name));
    if r.Some? {
      assert Catalog[r.value] == FindMenuItem(name).value;
    }
  }

  /** Only the lower-cased query is consulted, so lower-casing it first changes nothing. */
  lemma LookupIsCaseInsensitive(name: string)
    ensures FindMenuItem(Lower(name)) == FindMenuItem(name)
  {
    LowerIdempotent(name);
  }

  /**
   * A query that contains an item's full name (ignoring case) always finds
   * an item: that one, or one earlier in the catalog.
   */
  lemma QueryContainingNameFindsItem(name: string, k: nat)
    requires k < |Catalog| && Includes(Lower(name), Lower(Catalog[k].name))
    ensures FindFirst(Catalog, Lower(name)).Some? && FindFirst(Catalog, Lower(name)).value <= k
    ensures FindMenuItem(name) == Some(Catalog[FindFirst(Catalog, Lower(name)).value])
  {
    assert Matches(Catalog[k], Lower(name));
  }

  // ---------------------------------------------------------------------
  // Grouping by category
  // ---------------------------------------------------------------------

  /** The distinct categories of `items`, in the order they are first seen. */
  function CategoriesOf(items: seq<MenuItem>): seq<string>
  {
    if |items| == 0 then []
    else
      var earlier := CategoriesOf(items[..|items| - 1]);
      var c := items[|items| - 1].category;
      if c in earlier then earlier else earlier + [c]
  }

  /** A category is listed exactly when some item carries it. */
  lemma {:induction false} CategoryListedIffUsed(items: seq<MenuItem>, c: string)
    ensures c in CategoriesOf(items) <==> exists i :: 0 <= i < |items| && items[i].category == c
  {
    if |items| > 0 {
      var a := items[..|items| - 1];
      CategoryListedIffUsed(a, c);
      if exists i :: 0 <= i < |a| && a[i].category == c {
        var i :| 0 <= i < |a| && a[i].category == c;
        assert items[i] == a[i];
      }
      if exists i :: 0 <= i < |items| && items[i].category == c {
        var i :| 0 <= i < |items| && items[i].category == c;
        if i < |a| { assert a[i] == items[i]; }
      }
    }
  }

  /** Each category is listed once. */
  lemma {:induction false} CategoriesDistinct(items: seq<MenuItem>)
    ensures forall i, j :: 0 <= i < j < |CategoriesOf(items)| ==> CategoriesOf(items)[i] != CategoriesOf(items)[j]
  {
    if |items| > 0 {
      CategoriesDistinct(items[..|items| - 1]);
    }
  }

  /** The items of one category, in catalog order. */
  function InCategory(items: seq<MenuItem>, category: string): seq<MenuItem>
  {
    if |items| == 0 then []
    else
      var last := items[|items| - 1];
      InCategory(items[..|items| - 1], category) + (if last.category == category then [last] else [])
  }

  /** A group holds exactly the items of its category. */
  lemma {:induction false} InCategoryMembers(items: seq<MenuItem>, category: string, x: MenuItem)
    ensures x in InCategory(items, category) <==> x in items && x.category == category
  {
    if |items| > 0 {
      var a := items[..|items| - 1];
      assert items == a + [items[|items| - 1]];
      InCategoryMembers(a, category, x);
    }
  }

  /** The map the grouping loop has built after seeing `items`. */
  function GroupMap(items: seq<MenuItem>): map<string, seq<MenuItem>>
  {
    if |items| == 0 then map[]
    else
      var m := GroupMap(items[..|items| - 1]);
      var x := items[|items| - 1];
      m[x.category := (if x.category in m then m[x.category] else []) + [x]]
  }

  /** The map holds one list per category seen, and that list is the category's items in order. */
  lemma {:induction false} GroupMapIsGrouping(items: seq<MenuItem>)
    ensures forall c :: c in GroupMap(items) <==> c in CategoriesOf(items)
    ensures forall c :: c in GroupMap(items) ==> GroupMap(items)[c] == InCategory(items, c)
    ensures forall c :: c !in GroupMap(items) ==> InCategory(items, c) == []
  {
    if |items| > 0 {
      GroupMapIsGrouping(items[..|items| - 1]);
    }
  }

  /**
   * The first half of `formatMenuForDisplay`: one pass over the items that
   * appends each to its category's list, creating the list (and so the
   * category's place in the insertion order) on first sight.
   */
  method GroupByCategory(items: seq<MenuItem>) returns (order: seq<string>, grouped: map<string, seq<MenuItem>>)
    ensures order == CategoriesOf(items)
    ensures forall c :: c in grouped <==> c in order
    ensures forall c :: c in grouped ==> grouped[c] == InCategory(items, c)
  {
    order, grouped := [], map[];
    for i := 0 to |items|
      invariant order == CategoriesOf(items[..i])
      invariant grouped == GroupMap(items[..i])
      invariant forall c :: c in grouped <==> c in order
    {
      var item := items[i];
      assert items[..i + 1][..i] == items[..i];
      var bucket := if item.category in grouped then grouped[item.category] else [];
      if item.category !in grouped {
        order := order + [item.category];
      }
      grouped := grouped[item.category := bucket + [item]];
    }
    assert items[..|items|] == items;
    GroupMapIsGrouping(items);
  }

  // ---------------------------------------------------------------------
  // Rendering
  // ---------------------------------------------------------------------

  /** `- <name>: €<price> - <description>` */
  function ItemLine(item: MenuItem): string
  {
    "- " + item.name + ": €" + CentsToFixed2(item.price) + " - " + item.description
  }

  function ItemLines(items: seq<MenuItem>): (lines: seq<string>)
    ensures |lines| == |items|
    ensures forall i :: 0 <= i < |items| ==> lines[i] == ItemLine(items[i])
  {
    seq(|items|, i requires 0 <= i < |items| => ItemLine(items[i]))
  }

  /** `<category>:` on its own line, then the category's item lines. */
  function Block(category: string, items: seq<MenuItem>): string
  {
    category + ":\n" + Join("\n", ItemLines(items))
  }

  function Blocks(cats: seq<string>, items: seq<MenuItem>): (blocks: seq<string>)
    ensures |blocks| == |cats|
    ensures forall i :: 0 <= i < |cats| ==> blocks[i] == Block(cats[i], InCategory(items, cats[i]))
  {
    seq(|cats|, i requires 0 <= i < |cats| => Block(cats[i], InCategory(items, cats[i])))
  }

  /** The display text of a list of items: one block per category, separated by a blank line. */
  function MenuText(items: seq<MenuItem>): string
  {
    Join("\n\n", Blocks(CategoriesOf(items), items))
  }

  /** `formatMenuForDisplay()`: group the catalog, then render each group. */
  method FormatMenuForDisplay() returns (text: string)
    ensures text == MenuText(Catalog)
  {
    var order, grouped := GroupByCategory(Catalog);
    RenderedGroupsAreBlocks(Catalog, order, grouped);
    text := Join("\n\n", RenderGroups(order, grouped));
  }

  /** The second half of `formatMenuForDisplay`: one block per grouped category, in insertion order. */
  function RenderGroups(order: seq<string>, grouped: map<string, seq<MenuItem>>): (blocks: seq<string>)
    requires forall c :: c in order ==> c in grouped
    ensures |blocks| == |order|
  {
    seq(|order|, i requires 0 <= i < |order| => Block(order[i], grouped[order[i]]))
  }

  /** Rendering the groups the loop built gives the blocks of the display text. */
  lemma RenderedGroupsAreBlocks(items: seq<MenuItem>, order: seq<string>, grouped: map<string, seq<MenuItem>>)
    requires order == CategoriesOf(items)
    requires forall c :: c in grouped <==> c in order
    requires forall c :: c in grouped ==> grouped[c] == InCategory(items, c)
    ensures RenderGroups(order, grouped) == Blocks(CategoriesOf(items), items)
  {
  }

  // ---------------------------------------------------------------------
  // Properties of the display text
  // ---------------------------------------------------------------------

  /** Seeing more items never reorders or drops a category already seen. */
  lemma {:induction false} CategoriesOfGrowsByAppending(a: seq<MenuItem>, b: seq<MenuItem>)
    ensures CategoriesOf(a) <= CategoriesOf(a + b)
  {
    if |b| > 0 {
      var b' := b[..|b| - 1];
      CategoriesOfGrowsByAppending(a, b');
      assert (a + b)[..|a + b| - 1] == a + b';
    } else {
      assert a + b == a;
    }
  }

  /** Grouping keeps catalog order: the group of a concatenation is the concatenation of the groups. */
  lemma {:induction false} InCategoryOfConcat(a: seq<MenuItem>, b: seq<MenuItem>, category: string)
    ensures InCategory(a + b, category) == InCategory(a, category) + InCategory(b, category)
  {
    if |b| == 0 {
      assert a + b == a;
    } else {
      var b' := b[..|b| - 1];
      InCategoryOfConcat(a, b', category);
      assert (a + b)[..|a + b| - 1] == a + b';
    }
  }

  /** Total number of items listed over the groups of `cats`. */
  function GroupSizes(items: seq<MenuItem>, cats: seq<string>): nat
  {
    if |cats| == 0 then 0
    else GroupSizes(items, cats[..|cats| - 1]) + |InCategory(items, cats[|cats| - 1])|
  }

  lemma {:induction false} GroupSizesAfterAppend(a: seq<MenuItem>, x: MenuItem, cats: seq<string>)
    requires forall i, j :: 0 <= i < j < |cats| ==> cats[i] != cats[j]
    ensures GroupSizes(a + [x], cats) == GroupSizes(a, cats) + (if x.category in cats then 1 else 0)
  {
    if |cats| > 0 {
      var cats' := cats[..|cats| - 1];
      GroupSizesAfterAppend(a, x, cats');
      assert (a + [x])[..|a + [x]| - 1] == a;
      assert x.category in cats <==> x.category in cats' || x.category == cats[|cats| - 1];
    }
  }

  /** A category no item carries has an empty group. */
  lemma AbsentCategoryIsEmpty(items: seq<MenuItem>, c: string)
    requires c !in CategoriesOf(items)
    ensures InCategory(items, c) == []
  {
    if InCategory(items, c) != [] {
      var y := InCategory(items, c)[0];
      InCategoryMembers(items, c, y);
      var i :| 0 <= i < |items| && items[i] == y;
      CategoryListedIffUsed(items, c);
      assert false;
    }
  }

  /** Every item yields exactly one line: the groups together list all items. */
  lemma {:induction false} EveryItemListedOnce(items: seq<MenuItem>)
    ensures GroupSizes(items, CategoriesOf(items)) == |items|
  {
    if |items| > 0 {
      var a := items[..|items| - 1];
      var x := items[|items| - 1];
      var cats := CategoriesOf(a);
      assert items == a + [x];
      EveryItemListedOnce(a);
      CategoriesDistinct(a);
      GroupSizesAfterAppend(a, x, cats);
      if x.category in cats {
        assert CategoriesOf(items) == cats;
      } else {
        var cats' := cats + [x.category];
        assert CategoriesOf(items) == cats';
        assert GroupSizes(items, cats') == GroupSizes(items, cats) + |InCategory(items, x.category)| by {
          assert cats'[..|cats'| - 1] == cats;
        }
        assert InCategory(items, x.category) == [x] by {
          AbsentCategoryIsEmpty(a, x.category);
        }
      }
    }
  }

  lemma LineInBlock(category: string, group: seq<MenuItem>, q: nat)
    requires q < |group|
    ensures Includes(Block(category, group), ItemLine(group[q]))
  {
    var lines := Join("\n", ItemLines(group));
    JoinIncludesPart("\n", ItemLines(group), q);
    IncludesEnds(category, ":\n", lines);
    IncludesTransitive(Block(category, group), lines, ItemLine(group[q]));
  }

  lemma NameAndPriceInLine(x: MenuItem)
    ensures Includes(ItemLine(x), x.name)
    ensures Includes(ItemLine(x), CentsToFixed2(x.price))
  {
    IncludesEvenPieces("- ", x.name, ": €", CentsToFixed2(x.price), " - ", x.description);
  }

  /** Every item's display line, and so its name and price, appears verbatim in the menu text. */
  lemma ItemLineInMenuText(items: seq<MenuItem>, k: nat)
    requires k < |items|
    ensures Includes(MenuText(items), ItemLine(items[k]))
    ensures Includes(MenuText(items), items[k].name)
    ensures Includes(MenuText(items), CentsToFixed2(items[k].price))
  {
    var x := items[k];
    var cats := CategoriesOf(items);
    CategoryListedIffUsed(items, x.category);
    var p :| 0 <= p < |cats| && cats[p] == x.category;
    var group := InCategory(items, x.category);
    InCategoryMembers(items, x.category, x);
    var q :| 0 <= q < |group| && group[q] == x;
    LineInBlock(x.category, group, q);
    JoinIncludesPart("\n\n", Blocks(cats, items), p);
    IncludesTransitive(MenuText(items), Block(x.category, group), ItemLine(x));
    NameAndPriceInLine(x);
    IncludesTransitive(MenuText(items), ItemLine(x), x.name);
    IncludesTransitive(MenuText(items), ItemLine(x), CentsToFixed2(x.price));
  }

}
