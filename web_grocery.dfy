/**
 * The web grocery screen (pages/grocery.tsx): web grocery records with a
 * `completed` flag and the task priorities, its own ten categories with
 * `Fruits` as default and fallback, the grouping by category, and the
 * navigation to the web preview.
 */
module WebGrocery {
  import opened Basics
  import opened Text
  import opened ListOps
  import opened Records
  import opened Stats
  import WebTodo

  // ---------------------------------------------------------------------------
  // The category catalogue

  datatype CategoryInfo = CategoryInfo(name: string, emoji: string, color: string, lightColor: string)

  function CategoryName(c: CategoryInfo): string { c.name }

  /** The ten web categories, emoji as the file stores them; the first one is the fallback. */
  const GroceryCategories: seq<CategoryInfo> := [
    CategoryInfo("Fruits", "\U{F8FF}\U{FC}\U{E7}\U{E9}", "#FF6B6B", "#FFE8E8"),
    CategoryInfo("Vegetables", "\U{F8FF}\U{FC}\U{2022}\U{EF}", "#4ECDC4", "#E8FFFE"),
    CategoryInfo("Dairy", "\U{F8FF}\U{FC}\U{2022}\U{F5}", "#45B7D1", "#E8F4FD"),
    CategoryInfo("Meat", "\U{F8FF}\U{FC}\U{2022}\U{A9}", "#96CEB4", "#F0F9F4"),
    CategoryInfo("Bakery", "\U{F8FF}\U{FC}\U{E7}\U{FB}", "#FFEAA7", "#FFFEF0"),
    CategoryInfo("Snacks", "\U{F8FF}\U{FC}\U{E7}\U{F8}", "#DDA0DD", "#F8F0F8"),
    CategoryInfo("Beverages", "\U{F8FF}\U{FC}\U{2022}\U{A7}", "#98D8C8", "#F0FAF7"),
    CategoryInfo("Frozen", "\U{F8FF}\U{FC}\U{DF}\U{E4}", "#74B9FF", "#EBF4FF"),
    CategoryInfo("Household", "\U{F8FF}\U{FC}\U{DF}\U{3A9}", "#A29BFE", "#F0EFFF"),
    CategoryInfo("Personal Care", "\U{F8FF}\U{FC}\U{DF}\U{A5}", "#FD79A8", "#FEF0F5")
  ]

  /** The category the form starts with and returns to. */
  const DefaultCategory := "Fruits"

  /** `getCategoryInfo`: the entry of that name, or the first entry (`Fruits`) for an unknown name. */
  function GetCategoryInfo(categoryName: string): (info: CategoryInfo)
    ensures (exists i | 0 <= i < |GroceryCategories| :: GroceryCategories[i].name == categoryName) ==>
      info in GroceryCategories && info.name == categoryName
    ensures (forall i | 0 <= i < |GroceryCategories| :: GroceryCategories[i].name != categoryName) ==> info == GroceryCategories[0]
  {
    match FindKey(GroceryCategories, CategoryName, categoryName)
    case Some(c) => c
    case None => GroceryCategories[0]
  }

  /** The default category is the fallback's own entry, so the form's default is always drawn as itself. */
  lemma DefaultCategoryIsFallback()
    ensures GroceryCategories[0].name == DefaultCategory
    ensures GetCategoryInfo(DefaultCategory) == GroceryCategories[0]
  {
  }

  /** The chip colours of an item: `getPriorityColor(priority) + '20'` behind `getPriorityColor(priority)`. */
  function PriorityChip(g: WebGroceryItem): (colors: (string, string))
    ensures colors.1 == WebTodo.GetPriorityColor(LevelName(g.priority)) && colors.0 == colors.1 + "20"
    ensures colors.1 == WebTodo.AppTodo.GetPriorityInfo(LevelName(g.priority)).color
  {
    WebTodo.PriorityColorOfLevel(g.priority);
    var c := WebTodo.GetPriorityColor(LevelName(g.priority));
    (c + "20", c)
  }

  /** The grouping key of `groupedGroceries`. */
  function Category(g: WebGroceryItem): string { g.category }

  // ---------------------------------------------------------------------------
  // The screen

  /** The screen's state hooks, one field each. */
  class WebGroceryScreen {
    var groceryName: string
    var groceryList: seq<WebGroceryItem>
    var selectedQuantity: string
    var selectedCategory: string
    var selectedPriority: TaskPriority
    var showAddModal: bool
    var selectedEmoji: string

    constructor ()
      ensures groceryName == "" && groceryList == [] && selectedQuantity == "1"
      ensures selectedCategory == DefaultCategory && selectedPriority == Medium
      ensures !showAddModal && selectedEmoji == ""
    {
      groceryName, groceryList, selectedQuantity := "", [], "1";
      selectedCategory, selectedPriority := DefaultCategory, Medium;
      showAddModal, selectedEmoji := false, "";
    }

    /** `completedCount`. */
    function CompletedCount(): (n: nat)
      reads this
      ensures n <= |groceryList|
    {
      Count(groceryList, IsWebCompleted)
    }

    /** `progressPercentage`: 0 for an empty list, otherwise the completed share in percent. */
    function ProgressPercentage(): (p: real)
      reads this
      ensures 0.0 <= p <= 100.0
      ensures groceryList == [] ==> p == 0.0
      ensures groceryList != [] ==> p == (CompletedCount() as real) / (|groceryList| as real) * 100.0
    {
      Progress(CompletedCount(), |groceryList|)
    }

    /** `resetForm`: the form's defaults again, and the modal closed. */
    method ResetForm()
      modifies this
      ensures groceryName == "" && selectedQuantity == "1" && selectedCategory == DefaultCategory
      ensures selectedPriority == Medium && selectedEmoji == "" && !showAddModal
      ensures groceryList == old(groceryList)
    {
      groceryName, selectedQuantity, selectedCategory := "", "1", DefaultCategory;
      selectedPriority, selectedEmoji, showAddModal := Medium, "", false;
    }

    /**
     * `addGroceryItem`: does nothing on a blank name; otherwise appends the item under
     * `newId` (the clock's reading) and resets the form.
     */
    method AddGroceryItem(newId: string)
      modifies this
      ensures groceryList == AddWebGrocery(old(groceryList), old(groceryName), newId, old(selectedQuantity),
                                           old(selectedCategory), old(selectedPriority), old(selectedEmoji))
      ensures IsBlank(old(groceryName)) ==>
        && groceryName == old(groceryName) && selectedQuantity == old(selectedQuantity)
        && selectedCategory == old(selectedCategory) && selectedPriority == old(selectedPriority)
        && selectedEmoji == old(selectedEmoji) && showAddModal == old(showAddModal)
      ensures !IsBlank(old(groceryName)) ==>
        && groceryName == "" && selectedQuantity == "1" && selectedCategory == DefaultCategory
        && selectedPriority == Medium && selectedEmoji == "" && !showAddModal
    {
      if !IsBlank(groceryName) {
        groceryList := AddWebGrocery(groceryList, groceryName, newId, selectedQuantity, selectedCategory, selectedPriority, selectedEmoji);
        ResetForm();
      }
    }

    /** `toggleGroceryCompletion`. */
    method ToggleGroceryCompletion(id: string)
      modifies this`groceryList
      ensures groceryList == ToggleWebGrocery(old(groceryList), id)
    {
      groceryList := ToggleWebGrocery(groceryList, id);
    }

    /** `removeGroceryItem`. */
    method RemoveGroceryItem(id: string)
      modifies this`groceryList
      ensures groceryList == RemoveWebGrocery(old(groceryList), id)
    {
      groceryList := RemoveWebGrocery(groceryList, id);
    }

    /**
     * `navigateToPreview`: the preview's `groceryList` query value is the URI-encoded JSON
     * text of the list.
     */
    method NavigateToPreview(stringify: seq<WebGroceryItem> -> string, encode: string -> string) returns (url: string)
      ensures url == "/preview?groceryList=" + encode(stringify(groceryList))
    {
      url := "/preview?groceryList=" + encode(stringify(groceryList));
    }

    /**
     * `groupedGroceries`: the items bucketed by category, one bucket per category in order
     * of first appearance, each bucket in list order and holding exactly that category's items.
     */
    method GroupedGroceries() returns (order: seq<string>, groups: map<string, seq<WebGroceryItem>>)
      ensures order == FirstKeys(groceryList, Category)
      ensures forall k :: k in groups <==> k in order
      ensures forall k | k in groups :: groups[k] == KeepKey(groceryList, Category, k)
      ensures forall k | k in groups :: forall g | g in groups[k] :: g in groceryList && g.category == k
      ensures forall g | g in groceryList :: g.category in groups && g in groups[g.category]
    {
      order, groups := GroupBy(groceryList, Category);
      forall k | k in groups
        ensures forall g | g in groups[k] :: g in groceryList && g.category == k
      {
        KeepKeyMembers(groceryList, Category, k);
      }
      forall g | g in groceryList
        ensures g.category in groups && g in groups[g.category]
      {
        FirstKeysMembers(groceryList, Category);
        KeepKeyMembers(groceryList, Category, g.category);
      }
    }
  }
}
