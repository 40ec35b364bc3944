/**
 * The native grocery screen (app/grocery.tsx): the shopping list and its
 * add/edit form, the category catalogue with its fallback, the grouping of
 * the list by category, the per-category badge and the progress figure.
 */
module AppGrocery {
  import opened Basics
  import opened Text
  import opened ListOps
  import opened Records
  import opened Params
  import opened Stats

  // ---------------------------------------------------------------------------
  // The category catalogue

  datatype CategoryInfo = CategoryInfo(name: string, emoji: string, color: string, lightColor: string)

  function CategoryName(c: CategoryInfo): string { c.name }

  /** The ten categories, in display order; the first one is also the fallback. */
  const GroceryCategories: seq<CategoryInfo> := [
    CategoryInfo("Fruits & Vegetables", "🥬", "#34C759", "#E8F8EA"),
    CategoryInfo("Meat & Seafood", "🥩", "#FF3B30", "#FFE8E7"),
    CategoryInfo("Dairy & Eggs", "🥛", "#007AFF", "#E3F2FF"),
    CategoryInfo("Bakery", "🍞", "#FF9500", "#FFF2E0"),
    CategoryInfo("Pantry & Canned", "🥫", "#5856D6", "#EFEEFD"),
    CategoryInfo("Frozen", "🧊", "#32D74B", "#E8F8EA"),
    CategoryInfo("Beverages", "🥤", "#FF2D92", "#FFE3F1"),
    CategoryInfo("Snacks", "🍿", "#AF52DE", "#F3E8FF"),
    CategoryInfo("Health & Beauty", "🧴", "#00C7BE", "#E0FAF9"),
    CategoryInfo("Household", "🧽", "#8E8E93", "#F2F2F7")
  ]

  /** The category the form starts with and returns to. */
  const DefaultCategory := "Fruits & Vegetables"

  /**
   * `getCategoryInfo`: the catalogue entry of that name, or the first entry for a
   * name the catalogue does not know. It never fails.
   */
  function GetCategoryInfo(categoryName: string): (info: CategoryInfo)
    ensures (exists i | 0 <= i < |GroceryCategories| :: GroceryCategories[i].name == categoryName) ==>
      info in GroceryCategories && info.name == categoryName
    ensures (forall i | 0 <= i < |GroceryCategories| :: GroceryCategories[i].name != categoryName) ==> info == GroceryCategories[0]
  {
    match FindKey(GroceryCategories, CategoryName, categoryName)
    case Some(c) => c
    case None => GroceryCategories[0]
  }

  /** The fallback entry is the default category's own entry. */
  lemma DefaultCategoryIsFallback()
    ensures GroceryCategories[0].name == DefaultCategory
    ensures GetCategoryInfo(DefaultCategory) == GroceryCategories[0]
  {
  }

  /** A name the catalogue does not know is drawn as the default category. */
  lemma UnknownCategoryIsDefault(categoryName: string)
    requires forall i | 0 <= i < |GroceryCategories| :: GroceryCategories[i].name != categoryName
    ensures GetCategoryInfo(categoryName) == GetCategoryInfo(DefaultCategory)
  {
    DefaultCategoryIsFallback();
  }

  // ---------------------------------------------------------------------------
  // Grouping and the per-category badge

  /** The grouping key of `groupedItems`. */
  function Category(g: GroceryItem): string { g.category }

  /**
   * The grouping is a partition of the list: every item lies in the group of its own
   * category and in no other, each group keeps list order, and each group is exactly
   * as long as the number of items of its category.
   */
  lemma GroupingIsPartition(list: seq<GroceryItem>, k: string)
    ensures forall g | g in list :: g in KeepKey(list, Category, g.category)
    ensures forall g | g in KeepKey(list, Category, k) :: g in list && g.category == k
    ensures IsSubsequence(KeepKey(list, Category, k), list)
    ensures |KeepKey(list, Category, k)| == CountKey(list, Category, k)
  {
    KeepKeyMembers(list, Category, k);
    forall g | g in list
      ensures g in KeepKey(list, Category, g.category)
    {
      KeepKeyMembers(list, Category, g.category);
    }
    KeepKeyIsSubsequence(list, Category, k);
  }

  /** The group sizes add up: a category absent from the list has an empty group. */
  lemma AbsentCategoryHasNoGroup(list: seq<GroceryItem>, k: string)
    requires k !in FirstKeys(list, Category)
    ensures KeepKey(list, Category, k) == []
    ensures forall g | g in list :: g.category != k
  {
    KeepKeyOfAbsent(list, Category, k);
    FirstKeysMembers(list, Category);
    assert forall i | 0 <= i < |list| :: Category(list[i]) in FirstKeys(list, Category);
  }

  /** The badge of a category section: `${checkedInCategory}/${items.length}`. */
  function CategoryBadge(items: seq<GroceryItem>): string
  {
    NatToString(Count(items, IsChecked)) + "/" + NatToString(|items|)
  }

  /**
   * The badge reads as two numbers around one slash: the checked count first, the group
   * size second, and the first never exceeds the second.
   */
  lemma CategoryBadgeReadsBack(items: seq<GroceryItem>)
    ensures var parts := Split(CategoryBadge(items), '/');
      && |parts| == 2
      && ParseInt(parts[0]) == Some(Count(items, IsChecked))
      && ParseInt(parts[1]) == Some(|items|)
      && Count(items, IsChecked) <= |items|
  {
    var c, n := NatToString(Count(items, IsChecked)), NatToString(|items|);
    DigitsAreNotSpace(c);
    DigitsAreNotSpace(n);
    assert CategoryBadge(items) == c + ['/'] + n;
    SplitTwo(c, n, '/');
    ParseIntOfPad2(Count(items, IsChecked));
    ParseIntOfPad2(|items|);
  }

  // ---------------------------------------------------------------------------
  // The screen

  /** The screen's state hooks, one field each. */
  class GroceryScreen {
    var itemName: string
    var groceryList: seq<GroceryItem>
    var selectedQuantity: string
    var selectedCategory: string
    var selectedPriority: GroceryPriority
    var showAddModal: bool
    var itemNotes: string

    constructor ()
      ensures itemName == "" && groceryList == [] && selectedQuantity == "1"
      ensures selectedCategory == DefaultCategory && selectedPriority == Normal
      ensures !showAddModal && itemNotes == ""
    {
      itemName, groceryList, selectedQuantity := "", [], "1";
      selectedCategory, selectedPriority := DefaultCategory, Normal;
      showAddModal, itemNotes := false, "";
    }

    /** `checkedCount`. */
    function CheckedCount(): (n: nat)
      reads this
      ensures n <= |groceryList|
    {
      Count(groceryList, IsChecked)
    }

    /** `progressPercentage`: 0 for an empty list, otherwise the checked share in percent. */
    function ProgressPercentage(): (p: real)
      reads this
      ensures 0.0 <= p <= 100.0
      ensures groceryList == [] ==> p == 0.0
      ensures groceryList != [] ==> p == (CheckedCount() as real) / (|groceryList| as real) * 100.0
    {
      Progress(CheckedCount(), |groceryList|)
    }

    /** The figure in `${Math.round(progressPercentage)}% collected`. */
    function CollectedPercent(): (n: int)
      reads this
      ensures 0 <= n <= 100
      ensures n as real - 0.5 <= ProgressPercentage() < n as real + 0.5
      ensures groceryList != [] && CheckedCount() == |groceryList| ==> n == 100
      ensures CheckedCount() == 0 ==> n == 0
    {
      var n := Round(ProgressPercentage());
      RoundedPercentBounds(CheckedCount(), |groceryList|);
      n
    }

    /** `resetForm`: the form's defaults again, and the modal closed. */
    method ResetForm()
      modifies this
      ensures itemName == "" && selectedQuantity == "1" && selectedCategory == DefaultCategory
      ensures selectedPriority == Normal && itemNotes == "" && !showAddModal
      ensures groceryList == old(groceryList)
    {
      itemName, selectedQuantity, selectedCategory := "", "1", DefaultCategory;
      selectedPriority, itemNotes, showAddModal := Normal, "", false;
    }

    /**
     * `addGroceryItem`: does nothing on a blank name; otherwise appends the item under
     * `newId` (the clock's reading) and resets the form.
     */
    method AddGroceryItem(newId: string)
      modifies this
      ensures groceryList == AddGrocery(old(groceryList), old(itemName), newId, old(selectedQuantity),
                                        old(selectedCategory), old(selectedPriority), old(itemNotes))
      ensures IsBlank(old(itemName)) ==>
        && itemName == old(itemName) && selectedQuantity == old(selectedQuantity)
        && selectedCategory == old(selectedCategory) && selectedPriority == old(selectedPriority)
        && itemNotes == old(itemNotes) && showAddModal == old(showAddModal)
      ensures !IsBlank(old(itemName)) ==>
        && itemName == "" && selectedQuantity == "1" && selectedCategory == DefaultCategory
        && selectedPriority == Normal && itemNotes == "" && !showAddModal
    {
      if !IsBlank(itemName) {
        groceryList := AddGrocery(groceryList, itemName, newId, selectedQuantity, selectedCategory, selectedPriority, itemNotes);
        ResetForm();
      }
    }

    /** `editGroceryItem`: loads the item into the form, drops it from the list, opens the modal. */
    method EditGroceryItem(item: GroceryItem)
      modifies this
      ensures itemName == item.name && selectedQuantity == item.quantity && selectedCategory == item.category
      ensures selectedPriority == item.priority && itemNotes == item.notes.GetOr("")
      ensures groceryList == RemoveGrocery(old(groceryList), item.id) && showAddModal
    {
      itemName, selectedQuantity, selectedCategory := item.name, item.quantity, item.category;
      selectedPriority, itemNotes := item.priority, item.notes.GetOr("");
      groceryList := RemoveGrocery(groceryList, item.id);
      showAddModal := true;
    }

    /** `duplicateGroceryItem`: appends the copy under `newId`; the original stays. */
    method DuplicateGroceryItem(item: GroceryItem, newId: string)
      modifies this`groceryList
      ensures groceryList == old(groceryList) + [DuplicateGrocery(item, newId)]
    {
      groceryList := groceryList + [DuplicateGrocery(item, newId)];
    }

    /** `deleteGroceryItem`. */
    method DeleteGroceryItem(id: string)
      modifies this`groceryList
      ensures groceryList == RemoveGrocery(old(groceryList), id)
    {
      groceryList := RemoveGrocery(groceryList, id);
    }

    /** `toggleItemCompletion`. */
    method ToggleItemCompletion(id: string)
      modifies this`groceryList
      ensures groceryList == ToggleGrocery(old(groceryList), id)
    {
      groceryList := ToggleGrocery(groceryList, id);
    }

    /** `navigateToPreview`: the preview route's `groceryList` parameter is the list's JSON text. */
    method NavigateToPreview(stringify: seq<GroceryItem> -> string) returns (param: RouteParam)
      ensures param == Single(stringify(groceryList))
    {
      param := Single(stringify(groceryList));
    }

    /**
     * `groupedItems`: the list's items bucketed by category, one bucket per category in
     * order of first appearance, each bucket in list order.
     */
    method GroupedItems() returns (order: seq<string>, groups: map<string, seq<GroceryItem>>)
      ensures order == FirstKeys(groceryList, Category)
      ensures forall k :: k in groups <==> k in order
      ensures forall k | k in groups :: groups[k] == KeepKey(groceryList, Category, k)
    {
      order, groups := GroupBy(groceryList, Category);
    }
  }
}
