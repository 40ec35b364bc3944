/**
 * The native shopping preview (app/grocery-preview.tsx): reading the grocery
 * list from the route, the shopping stats, the rounded "% collected" figure,
 * the widget's first four items, the category lookup, and the save button.
 */
module AppGroceryPreview {
  import opened Basics
  import opened Text
  import opened ListOps
  import opened Records
  import opened Params
  import opened Stats
  import opened SaveFlow

  /** `WALLPAPER_FILENAME`. */
  const WallpaperFileName := "wallify-grocery.png"

  /** How many items the widget shows. */
  const WidgetSize: nat := 4

  // ---------------------------------------------------------------------------
  // The category catalogue of this screen: names and colours as on the grocery
  // screen, the emoji as the file stores them, and no light colour.

  datatype CategoryEntry = CategoryEntry(name: string, emoji: string, color: string)

  function CategoryName(c: CategoryEntry): string { c.name }

  const GroceryCategories: seq<CategoryEntry> := [
    CategoryEntry("Fruits & Vegetables", "\U{F8FF}\U{FC}\U{2022}\U{A8}", "#34C759"),
    CategoryEntry("Meat & Seafood", "\U{F8FF}\U{FC}\U{2022}\U{A9}", "#FF3B30"),
    CategoryEntry("Dairy & Eggs", "\U{F8FF}\U{FC}\U{2022}\U{F5}", "#007AFF"),
    CategoryEntry("Bakery", "\U{F8FF}\U{FC}\U{E7}\U{FB}", "#FF9500"),
    CategoryEntry("Pantry & Canned", "\U{F8FF}\U{FC}\U{2022}\U{B4}", "#5856D6"),
    CategoryEntry("Frozen", "\U{F8FF}\U{FC}\U{DF}\U{E4}", "#32D74B"),
    CategoryEntry("Beverages", "\U{F8FF}\U{FC}\U{2022}\U{A7}", "#FF2D92"),
    CategoryEntry("Snacks", "\U{F8FF}\U{FC}\U{E7}\U{F8}", "#AF52DE"),
    CategoryEntry("Health & Beauty", "\U{F8FF}\U{FC}\U{DF}\U{A5}", "#00C7BE"),
    CategoryEntry("Household", "\U{F8FF}\U{FC}\U{DF}\U{3A9}", "#8E8E93")
  ]

  /** `getCategoryInfo`: the entry of that name, or the first entry for an unknown name. */
  function GetCategoryInfo(categoryName: string): (info: CategoryEntry)
    ensures (exists i | 0 <= i < |GroceryCategories| :: GroceryCategories[i].name == categoryName) ==>
      info in GroceryCategories && info.name == categoryName
    ensures (forall i | 0 <= i < |GroceryCategories| :: GroceryCategories[i].name != categoryName) ==> info == GroceryCategories[0]
  {
    match FindKey(GroceryCategories, CategoryName, categoryName)
    case Some(c) => c
    case None => GroceryCategories[0]
  }

  // ---------------------------------------------------------------------------
  // Reading the route parameter

  /**
   * The effect as written: a missing or empty parameter and text that is no JSON
   * leave the slot as it was; any parsed value is stored, an array or not.
   */
  function LoadAsWritten(slot: Stored<GroceryItem>, p: RouteParam, parse: string -> Parsed<GroceryItem>): (r: Stored<GroceryItem>)
    ensures ParamText(p).None? ==> r == slot
    ensures ParamText(p).Some? ==> match parse(p.value)
      case Malformed => r == slot
      case NotArray => r == NotAList
      case Records(items) => r == Items(items)
  {
    match ParamText(p)
    case None => slot
    case Some(text) =>
      match parse(text)
      case Malformed => slot
      case NotArray => NotAList
      case Records(items) => Items(items)
  }

  /**
   * The parameter `{}` is valid JSON but no array: as written it replaces the list with
   * a value that is no list, and the stats read from it (`groceryList.filter`) fail.
   */
  lemma ObjectPayloadBreaksList(list: seq<GroceryItem>)
    ensures LoadAsWritten(Items(list), Single("{}"), _ => NotArray) == NotAList
  {
  }

  /**
   * With the array check the grocery preview is evidently meant to share with the task
   * preview: the list becomes the parsed array, or stays as it was.
   */
  function LoadGroceryParam(list: seq<GroceryItem>, p: RouteParam, parse: string -> Parsed<GroceryItem>): (r: seq<GroceryItem>)
    ensures ReadList(p, parse).Some? ==> r == ReadList(p, parse).value
    ensures ReadList(p, parse).None? ==> r == list
  {
    match ReadList(p, parse)
    case Some(items) => items
    case None => list
  }

  /**
   * The corrected reading agrees with the code as written on every payload but a non-array
   * one, and on that one it keeps the list instead of breaking it.
   */
  lemma CorrectedLoadAgrees(list: seq<GroceryItem>, p: RouteParam, parse: string -> Parsed<GroceryItem>)
    ensures ParamText(p).None? || !parse(p.value).NotArray? ==>
      LoadAsWritten(Items(list), p, parse) == Items(LoadGroceryParam(list, p, parse))
    ensures ParamText(p).Some? && parse(p.value).NotArray? ==>
      LoadAsWritten(Items(list), p, parse) == NotAList && LoadGroceryParam(list, p, parse) == list
  {
  }

  // ---------------------------------------------------------------------------
  // The shopping stats

  /** The urgent marker `item.priority === 'urgent' && !item.checked`. */
  predicate ShowsUrgent(g: GroceryItem) { g.priority == Urgent && !g.checked }

  /** `urgentItems`. */
  function UrgentItems(list: seq<GroceryItem>): nat { Count(list, ShowsUrgent) }

  /** `checkedItems`. */
  function CheckedItems(list: seq<GroceryItem>): nat { Count(list, IsChecked) }

  /**
   * An urgent item is one still to collect: the urgent count never exceeds the items left,
   * is 0 once everything is checked, and is positive exactly when some item shows the marker.
   */
  lemma ShoppingStats(list: seq<GroceryItem>)
    ensures UrgentItems(list) <= |list| - CheckedItems(list)
    ensures CheckedItems(list) == |list| ==> UrgentItems(list) == 0
    ensures UrgentItems(list) > 0 <==> exists g | g in list :: ShowsUrgent(g)
  {
    CountDisjoint(list, ShowsUrgent, IsChecked);
    CountPositive(list, ShowsUrgent);
  }

  /** The figure before `% collected`. */
  function CollectedPercent(list: seq<GroceryItem>): (pct: nat)
    ensures pct <= 100
    ensures pct == RoundedPercent(CheckedItems(list), |list|)
  {
    RoundedPercentBounds(CheckedItems(list), |list|);
    RoundedPercent(CheckedItems(list), |list|)
  }

  /**
   * The percentage is 0 for an empty list or one with nothing checked, 100 when all is
   * checked, and within half a point of the exact share otherwise.
   */
  lemma CollectedPercentSpec(list: seq<GroceryItem>)
    ensures list == [] || CheckedItems(list) == 0 ==> CollectedPercent(list) == 0
    ensures list != [] && CheckedItems(list) == |list| ==> CollectedPercent(list) == 100
    ensures list != [] ==>
      var exact := Progress(CheckedItems(list), |list|);
      CollectedPercent(list) as real - 0.5 <= exact < CollectedPercent(list) as real + 0.5
  {
    RoundedPercentBounds(CheckedItems(list), |list|);
  }

  /** The bullet as the file stores it. */
  const Bullet := "\U{201A}\U{C4}\U{A2}"

  /** The footer's words: `${pct}% collected`, then ` • ${urgent} urgent` when some item is urgent. */
  function FooterWords(list: seq<GroceryItem>): seq<string>
  {
    var pct, u := CollectedPercent(list), UrgentItems(list);
    if u > 0 then [NatToString(pct) + "%", "collected", Bullet, NatToString(u), "urgent"]
    else [NatToString(pct) + "%", "collected"]
  }

  /** The footer line as rendered. */
  function Footer(list: seq<GroceryItem>): string
  {
    Join(FooterWords(list), ' ')
  }

  /**
   * The footer opens with the rounded percentage; the urgent part appears exactly when
   * some item is urgent and then shows the urgent count.
   */
  lemma FooterReadsBack(list: seq<GroceryItem>)
    ensures var words := Split(Footer(list), ' ');
      && |words| >= 2
      && ParseInt(words[0]) == Some(CollectedPercent(list))
      && words[1] == "collected"
      && (|words| > 2 <==> UrgentItems(list) > 0)
      && (|words| > 2 ==> |words| == 5 && ParseInt(words[3]) == Some(UrgentItems(list)))
  {
    FooterWordsFacts(list);
    SplitJoin(FooterWords(list), ' ');
    ParseIntLeadingCount(CollectedPercent(list), "%");
    ParseIntOfPad2(UrgentItems(list));
  }

  /** The footer's words one by one; none of them holds a space. */
  lemma FooterWordsFacts(list: seq<GroceryItem>)
    ensures var words, pct, u := FooterWords(list), CollectedPercent(list), UrgentItems(list);
      && |words| == (if u > 0 then 5 else 2)
      && words[0] == NatToString(pct) + "%"
      && words[1] == "collected"
      && (u > 0 ==> words[3] == NatToString(u))
      && (forall i | 0 <= i < |words| :: ' ' !in words[i])
  {
    DigitsAreNotSpace(NatToString(CollectedPercent(list)));
    DigitsAreNotSpace(NatToString(UrgentItems(list)));
    assert ' ' !in "%" && ' ' !in "collected" && ' ' !in "urgent";
    assert ' ' !in Bullet;
  }

  // ---------------------------------------------------------------------------
  // The widget

  /** `groceryList.length > 4 && "+" + (groceryList.length - 4) + " more items"`. */
  function MoreItems(list: seq<GroceryItem>): (shown: Option<string>)
    ensures shown.Some? <==> |list| > WidgetSize
    ensures shown.Some? ==> ParseInt(shown.value) == Some(|list| - WidgetSize)
  {
    var shown := MoreIndicator(|list|, WidgetSize, "items");
    if shown.Some? then
      MoreIndicatorCount(|list|, WidgetSize, "items");
      shown
    else shown
  }

  /**
   * The widget shows a prefix of the list of at most four items; with the "+k more" count
   * it accounts for every item; the urgent markers it shows are at most the urgent stat.
   */
  lemma WidgetCoversList(list: seq<GroceryItem>)
    ensures var shown := Take(list, WidgetSize);
      && |shown| <= WidgetSize
      && shown == list[..|shown|]
      && |shown| + (if MoreItems(list).Some? then |list| - WidgetSize else 0) == |list|
      && UrgentItems(shown) <= UrgentItems(list)
  {
    var shown := Take(list, WidgetSize);
    assert list == shown + list[|shown|..];
    CountAppend(shown, list[|shown|..], ShowsUrgent);
  }

  /** `shouldEnableScroll`: the scrolling layout is used for more than two items. */
  function ShouldEnableScroll(list: seq<GroceryItem>): (scroll: bool)
    ensures scroll <==> |list| > 2
  {
    |list| > 2
  }

  // ---------------------------------------------------------------------------
  // The screen

  class GroceryPreviewScreen {
    var groceryList: seq<GroceryItem>
    var imageSaved: bool

    constructor ()
      ensures groceryList == [] && !imageSaved
    {
      groceryList, imageSaved := [], false;
    }

    /**
     * The effect on `params.groceryList`, with the array check: a list read from the
     * parameter replaces the current one; anything else leaves it.
     */
    method LoadParam(p: RouteParam, parse: string -> Parsed<GroceryItem>)
      modifies this`groceryList
      ensures groceryList == LoadGroceryParam(old(groceryList), p, parse)
    {
      var read := ReadList(p, parse);
      if read.Some? {
        groceryList := read.value;
      }
    }

    /** `saveAndApplyWallpaper`: the flow runs; `imageSaved` is set only when it went through. */
    method SaveAndApplyWallpaper(platform: SavePlatform) returns (out: SaveOutcome)
      modifies this`imageSaved
      ensures out == Save(platform, WallpaperFileName)
      ensures imageSaved == (old(imageSaved) || out.saved)
    {
      out := SaveFlow.SaveAndApplyWallpaper(platform, WallpaperFileName);
      if out.saved {
        imageSaved := true;
      }
    }
  }
}
