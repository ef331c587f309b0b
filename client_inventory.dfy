/**
 * The inventory screen's list logic: the rarity filter, the grouping of
 * items by type, and the remembered filter. Rendering is outside the model.
 */
module ClientInventory {
  import opened Wrappers
  import opened Text
  import opened Collections
  import opened ClientLabels

  /** An inventory item as the screen reads it; `itemType` is `type`. */
  datatype InventoryItem = InventoryItem(name: string, rarity: Option<int>, itemType: Option<string>, quantity: int)

  /** `rarityMap[filter]`: the five lower-case names map to their codes, anything else is undefined. */
  function FilterRarity(filter: string): (code: Option<int>)
    ensures code.Some? ==> Common <= code.value <= Legendary
  {
    if filter == "common" then Some(1)
    else if filter == "uncommon" then Some(2)
    else if filter == "rare" then Some(3)
    else if filter == "epic" then Some(4)
    else if filter == "legendary" then Some(5)
    else None
  }

  function RarityOf(item: InventoryItem): Option<int> {
    item.rarity
  }

  /** `filterItems`: everything for `all`, otherwise the items whose rarity is the filter's code. */
  function FilterItems(items: seq<InventoryItem>, filter: string): seq<InventoryItem> {
    if filter == "all" then items else WithKey(items, RarityOf, FilterRarity(filter))
  }

  /**
   * `all` keeps the list as it is. Any other filter keeps exactly the items
   * whose rarity equals the filter's code, in their order (filtering two
   * lists joined is joining the filtered lists); an unknown filter name has
   * no code, so it keeps exactly the items without a rarity.
   */
  lemma FilterItemsSpec(items: seq<InventoryItem>, more: seq<InventoryItem>, filter: string)
    ensures filter == "all" ==> FilterItems(items, filter) == items
    ensures filter != "all" ==>
      && (forall x :: x in FilterItems(items, filter) <==> x in items && x.rarity == FilterRarity(filter))
      && FilterItems(items + more, filter) == FilterItems(items, filter) + FilterItems(more, filter)
    ensures filter != "all" && FilterRarity(filter).None? ==>
      forall x :: x in FilterItems(items, filter) <==> x in items && x.rarity.None?
  {
    if filter != "all" {
      WithKeyAppend(items, more, RarityOf, FilterRarity(filter));
    }
  }

  /** `s.charAt(0).toUpperCase() + s.slice(1)`. */
  function Capitalize(s: string): (r: string) {
    if s == [] then [] else [UpperChar(s[0])] + s[1..]
  }

  /** Only the first character changes, the length stays, and capitalising twice is capitalising once. */
  lemma CapitalizeShape(s: string)
    ensures |Capitalize(s)| == |s|
    ensures s != [] ==> Capitalize(s)[0] == UpperChar(s[0]) && Capitalize(s)[1..] == s[1..]
    ensures Capitalize(Capitalize(s)) == Capitalize(s)
  {
  }

  /**
   * The items a rarity filter keeps are labelled with the filter's own name
   * capitalised: the filter `epic` shows exactly the `Epic` items.
   */
  lemma FilterMatchesLabel(items: seq<InventoryItem>, filter: string)
    requires FilterRarity(filter).Some?
    ensures forall x :: x in FilterItems(items, filter) ==> RarityName(x.rarity.value) == Capitalize(filter)
  {
    var r := FilterRarity(filter).value;
    assert RarityName(r) == Capitalize(filter) by {
      if filter == "common" {
        assert Capitalize(filter) == "Common";
      } else if filter == "uncommon" {
        assert Capitalize(filter) == "Uncommon";
      } else if filter == "rare" {
        assert Capitalize(filter) == "Rare";
      } else if filter == "epic" {
        assert Capitalize(filter) == "Epic";
      } else {
        assert Capitalize(filter) == "Legendary";
      }
    }
  }

  /** `item.type || 'resource'`. */
  function ItemType(item: InventoryItem): string {
    if item.itemType.None? || item.itemType.value == "" then "resource" else item.itemType.value
  }

  /** `groupItemsByType`. */
  function GroupItemsByType(items: seq<InventoryItem>): map<string, seq<InventoryItem>> {
    GroupBy(items, ItemType)
  }

  /**
   * Grouping partitions the items: each group holds exactly the items of
   * its type in their order, every item sits in the group of its own type
   * (untyped items under `resource`), and the group sizes add up to the
   * number of items.
   */
  lemma GroupItemsByTypeSpec(items: seq<InventoryItem>)
    ensures forall k :: k in GroupItemsByType(items) ==> GroupItemsByType(items)[k] == WithKey(items, ItemType, k)
    ensures forall x :: x in items ==> ItemType(x) in GroupItemsByType(items) && x in GroupItemsByType(items)[ItemType(x)]
    ensures GroupSizes(GroupItemsByType(items), KeysInOrder(items, ItemType)) == |items|
  {
    GroupByPartitions(items, ItemType);
    GroupSizesSum(items, ItemType);
  }

  /** The inventory screen's state. */
  class InventoryView {
    var currentFilter: string
    var inventoryItems: seq<InventoryItem>

    constructor (items: seq<InventoryItem>)
      ensures currentFilter == "all" && inventoryItems == items
    {
      currentFilter := "all";
      inventoryItems := items;
    }

    /** The items the screen lists under the current filter. */
    function Shown(): seq<InventoryItem>
      reads this
    {
      FilterItems(inventoryItems, currentFilter)
    }

    /** `filterInventory`: the filter is remembered before the list is drawn again. */
    method FilterInventory(filter: string)
      modifies this
      ensures currentFilter == filter && inventoryItems == old(inventoryItems)
      ensures Shown() == FilterItems(old(inventoryItems), filter)
    {
      currentFilter := filter;
    }
  }
}
