/**
 * The web preview (pages/preview.tsx): reading the task or grocery list from
 * the query, choosing which one is shown, its counts, the first eight entries
 * with the "+k more items" line, and the download button around the
 * wallpaper generation.
 */
module WebPreview {
  import opened Basics
  import opened Text
  import opened ListOps
  import opened Records
  import opened Params
  import opened Stats

  /** How many entries the wallpaper shows. */
  const WallpaperSize: nat := 8

  /** `listType`. */
  datatype ListType = TodoList | GroceryList

  /** The name of a list type as written into the download's file name. */
  function ListTypeName(t: ListType): string
  {
    match t
    case TodoList => "todo"
    case GroceryList => "grocery"
  }

  // ---------------------------------------------------------------------------
  // Reading the query
  //
  // The router hands `router.query` values over already percent-decoded: a URL whose
  // value is `encode(json)` arrives as `Single(json)`. The code as written then applies
  // `decodeURIComponent` (`decode`) a second time before `JSON.parse`.

  /** `%` at position `i` does not open an escape of two hexadecimal digits. */
  predicate BadEscapeAt(s: string, i: nat)
    requires i < |s|
  {
    s[i] == '%' && (i + 2 >= |s| || !IsRadixDigit(s[i + 1], 16) || !IsRadixDigit(s[i + 2], 16))
  }

  /** What `decodeURIComponent` rejects with a `URIError` (section 19.2.6.1 of ECMA-262). */
  ghost predicate RejectsBadEscapes(decode: string -> Option<string>)
  {
    forall s: string, i: nat | i < |s| && BadEscapeAt(s, i) :: decode(s).None?
  }

  /** `decodeURIComponent` leaves a text without `%` as it is. */
  ghost predicate KeepsPlainText(decode: string -> Option<string>)
  {
    forall s: string | '%' !in s :: decode(s) == Some(s)
  }

  /**
   * `JSON.parse(decodeURIComponent(param))` as the code stores it: a missing or empty
   * parameter, a text `decode` rejects and a text that is no JSON change nothing (`None`);
   * any parsed value is stored, an array or not.
   */
  function StoreAsWritten<T>(p: RouteParam, decode: string -> Option<string>, parse: string -> Parsed<T>): (r: Option<Stored<T>>)
    ensures r.None? <==> ParamText(p).None? || decode(p.value).None? || parse(decode(p.value).value).Malformed?
    ensures r.Some? ==> match parse(decode(p.value).value)
      case NotArray => r.value == NotAList
      case Records(items) => r.value == Items(items)
      case Malformed => false
  {
    match ParamText(p)
    case None => None
    case Some(text) =>
      match decode(text)
      case None => None
      case Some(json) =>
        match parse(json)
        case Malformed => None
        case NotArray => Some(NotAList)
        case Records(items) => Some(Items(items))
  }

  /**
   * The list the code as written shows after the effect: every stored value switches
   * `listType`, a list or not, and the grocery parameter, read second, wins.
   */
  function ShownAsWritten<A, B>(todoParam: RouteParam, groceryParam: RouteParam, decode: string -> Option<string>,
                                parseTodos: string -> Parsed<A>, parseGroceries: string -> Parsed<B>, shown: ListType): (t: ListType)
    ensures StoreAsWritten(groceryParam, decode, parseGroceries).Some? ==> t == GroceryList
    ensures StoreAsWritten(groceryParam, decode, parseGroceries).None? && StoreAsWritten(todoParam, decode, parseTodos).Some? ==> t == TodoList
    ensures StoreAsWritten(groceryParam, decode, parseGroceries).None? && StoreAsWritten(todoParam, decode, parseTodos).None? ==> t == shown
  {
    if StoreAsWritten(groceryParam, decode, parseGroceries).Some? then GroceryList
    else if StoreAsWritten(todoParam, decode, parseTodos).Some? then TodoList
    else shown
  }

  /**
   * The query `?todoList=%7B%7D` arrives as `{}`, valid JSON but no array: as written it
   * replaces the task list with a value that is no list and shows it, so `currentList.filter`
   * fails.
   */
  lemma ObjectQueryBreaksList(decode: string -> Option<string>)
    requires KeepsPlainText(decode)
    ensures StoreAsWritten<TodoItem>(Single("{}"), decode, _ => NotArray) == Some(NotAList)
    ensures ShownAsWritten<TodoItem, WebGroceryItem>(Single("{}"), Missing, decode, _ => NotArray, _ => NotArray, GroceryList) == TodoList
  {
    assert '%' !in "{}";
  }

  /**
   * With the array check but still decoding a second time: the decoded, parsed array, or
   * `None` (the list and `listType` stay as they were).
   */
  function ReadQueryList<T>(p: RouteParam, decode: string -> Option<string>, parse: string -> Parsed<T>): (r: Option<seq<T>>)
    ensures r.Some? <==> ParamText(p).Some? && decode(p.value).Some? && parse(decode(p.value).value).Records?
    ensures r.Some? ==> r.value == parse(decode(p.value).value).items
  {
    match ParamText(p)
    case None => None
    case Some(text) =>
      match decode(text)
      case None => None
      case Some(json) =>
        match parse(json)
        case Records(items) => Some(items)
        case _ => None
  }

  /**
   * The array check stores what the code as written stores whenever that is a list, and
   * leaves the state alone exactly where the code as written would store a non-list.
   */
  lemma CorrectedQueryAgrees<T>(p: RouteParam, decode: string -> Option<string>, parse: string -> Parsed<T>)
    ensures StoreAsWritten(p, decode, parse).Some? && StoreAsWritten(p, decode, parse).value.Items? ==>
      ReadQueryList(p, decode, parse) == Some(StoreAsWritten(p, decode, parse).value.items)
    ensures StoreAsWritten(p, decode, parse) == Some(NotAList) ==> ReadQueryList(p, decode, parse).None?
    ensures StoreAsWritten(p, decode, parse).None? ==> ReadQueryList(p, decode, parse).None?
  {
  }

  /**
   * The second decode loses a list whose JSON text holds a `%` that opens no escape, such
   * as a task `50% off`: `decodeURIComponent` throws, the error is caught, nothing is read.
   */
  lemma PercentTextIsLost<T>(json: string, i: nat, decode: string -> Option<string>, parse: string -> Parsed<T>)
    requires RejectsBadEscapes(decode)
    requires i < |json| && BadEscapeAt(json, i)
    ensures ReadQueryList(Single(json), decode, parse).None?
  {
  }

  /** The JSON text of a list holding the task `50% off`, as the router hands it over, is not read. */
  lemma FiftyPercentOffIsLost(decode: string -> Option<string>, parse: string -> Parsed<TodoItem>)
    requires RejectsBadEscapes(decode)
    ensures ReadQueryList(Single("[{\"text\":\"50% off\"}]"), decode, parse).None?
  {
    var json := "[{\"text\":\"50% off\"}]";
    assert json[12] == '%' && json[13] == ' ';
    PercentTextIsLost(json, 12, decode, parse);
  }

  /**
   * The evidently intended reading takes the router's value as the JSON text, which is
   * `Params.ReadList`; it agrees with the double decode on every text without `%`.
   */
  lemma SingleDecodeAgrees<T>(p: RouteParam, decode: string -> Option<string>, parse: string -> Parsed<T>)
    requires KeepsPlainText(decode)
    requires p.Single? ==> '%' !in p.value
    ensures ReadQueryList(p, decode, parse) == ReadList(p, parse)
  {
  }

  /**
   * The navigation round trip: the value `encode(json)` a list screen puts into the URL reaches
   * the preview, after the router's decoding, as the JSON text, which parses back to the list.
   */
  lemma QueryRoundTrip<T>(list: seq<T>, stringify: seq<T> -> string, encode: string -> string,
                          routerDecode: string -> string, parse: string -> Parsed<T>)
    requires routerDecode(encode(stringify(list))) == stringify(list)
    requires stringify(list) != ""
    requires parse(stringify(list)) == Records(list)
    ensures ReadList(Single(routerDecode(encode(stringify(list)))), parse) == Some(list)
  {
    ReadListOfStringified(list, stringify, parse);
  }

  // ---------------------------------------------------------------------------
  // Texts derived from the shown list

  /** The title's count line `${completedCount}/${currentList.length} completed`. */
  function CountLine(done: nat, total: nat): string
  {
    NatToString(done) + "/" + NatToString(total) + " completed"
  }

  /** The count line reads back as the completed count, a slash, and the list length. */
  lemma CountLineReadsBack(done: nat, total: nat)
    ensures var parts := Split(CountLine(done, total), '/');
      && |parts| == 2
      && ParseInt(parts[0]) == Some(done)
      && ParseInt(parts[1]) == Some(total)
  {
    var d, rest := NatToString(done), NatToString(total) + " completed";
    DigitsAreNotSpace(d);
    DigitsAreNotSpace(NatToString(total));
    assert '/' !in " completed";
    assert '/' !in rest;
    assert CountLine(done, total) == d + ['/'] + rest;
    SplitTwo(d, rest, '/');
    ParseIntOfPad2(done);
    ParseIntLeadingCount(total, " completed");
  }

  /** `currentList.length > 8 && "+" + (currentList.length - 8) + " more items"`. */
  function MoreItems(n: nat): (shown: Option<string>)
    ensures shown.Some? <==> n > WallpaperSize
    ensures shown.Some? ==> ParseInt(shown.value) == Some(n - WallpaperSize)
  {
    var shown := MoreIndicator(n, WallpaperSize, "items");
    if shown.Some? then
      MoreIndicatorCount(n, WallpaperSize, "items");
      shown
    else shown
  }

  // ---------------------------------------------------------------------------
  // The screen

  class WebPreviewScreen {
    var todoList: seq<TodoItem>
    var groceryList: seq<WebGroceryItem>
    var listType: ListType
    var isGenerating: bool

    constructor ()
      ensures todoList == [] && groceryList == [] && listType == TodoList && !isGenerating
    {
      todoList, groceryList, listType, isGenerating := [], [], TodoList, false;
    }

    /**
     * The query effect, with the array check and without the second decode: a task list
     * read from `todoList` replaces the task list and shows it; then a grocery list read
     * from `groceryList` replaces the grocery list and shows it, so with both the grocery
     * list is shown. A parameter that is not read changes nothing.
     */
    method LoadQuery(todoParam: RouteParam, groceryParam: RouteParam,
                     parseTodos: string -> Parsed<TodoItem>, parseGroceries: string -> Parsed<WebGroceryItem>)
      modifies this`todoList, this`groceryList, this`listType
      ensures var todos := ReadList(todoParam, parseTodos);
        todoList == if todos.Some? then todos.value else old(todoList)
      ensures var groceries := ReadList(groceryParam, parseGroceries);
        groceryList == if groceries.Some? then groceries.value else old(groceryList)
      ensures listType ==
        if ReadList(groceryParam, parseGroceries).Some? then GroceryList
        else if ReadList(todoParam, parseTodos).Some? then TodoList
        else old(listType)
    {
      var todos := ReadList(todoParam, parseTodos);
      if todos.Some? {
        todoList := todos.value;
        listType := TodoList;
      }
      var groceries := ReadList(groceryParam, parseGroceries);
      if groceries.Some? {
        groceryList := groceries.value;
        listType := GroceryList;
      }
    }

    /** `currentList.length`. */
    function CurrentLength(): nat
      reads this
    {
      if listType == TodoList then |todoList| else |groceryList|
    }

    /** `completedCount`, over the shown list. */
    function CompletedCount(): (n: nat)
      reads this
      ensures n <= CurrentLength()
      ensures listType == TodoList ==> n == Count(todoList, IsCompleted)
      ensures listType == GroceryList ==> n == Count(groceryList, IsWebCompleted)
    {
      if listType == TodoList then Count(todoList, IsCompleted) else Count(groceryList, IsWebCompleted)
    }

    /** `progressPercentage`, over the shown list: 0 when it is empty. */
    function ProgressPercentage(): (p: real)
      reads this
      ensures 0.0 <= p <= 100.0
      ensures CurrentLength() == 0 ==> p == 0.0
      ensures CurrentLength() > 0 && CompletedCount() == CurrentLength() ==> p == 100.0
      ensures CurrentLength() > 0 ==> p == (CompletedCount() as real) / (CurrentLength() as real) * 100.0
    {
      Progress(CompletedCount(), CurrentLength())
    }

    /** The download button's `disabled`. */
    predicate ButtonDisabled()
      reads this
    {
      isGenerating || CurrentLength() == 0
    }

    /**
     * `generateWallpaper`. Without a rendered preview element it returns at once. Otherwise
     * the button is busy while `html2canvas` renders (`rendered` says whether it succeeded),
     * a success downloads `wallify-<listType>-<now>.png`, a failure alerts, and either way
     * the busy flag is cleared.
     */
    method GenerateWallpaper(hasElement: bool, rendered: bool, now: string)
      returns (download: Option<string>, alerted: bool, busyWhileRendering: bool)
      modifies this`isGenerating
      ensures !hasElement ==> download.None? && !alerted && !busyWhileRendering && isGenerating == old(isGenerating)
      ensures hasElement ==> !isGenerating && busyWhileRendering
      ensures hasElement && rendered ==> download == Some("wallify-" + ListTypeName(listType) + "-" + now + ".png") && !alerted
      ensures hasElement && !rendered ==> download.None? && alerted
    {
      download, alerted, busyWhileRendering := None, false, false;
      if !hasElement {
        return;
      }
      isGenerating := true;
      busyWhileRendering := ButtonDisabled();
      if rendered {
        download := Some("wallify-" + ListTypeName(listType) + "-" + now + ".png");
      } else {
        alerted := true;
      }
      isGenerating := false;
    }
  }
}
