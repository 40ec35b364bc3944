/**
 * The native task preview (app/preview.tsx): reading the task list from the
 * route, converting the legacy list of plain texts, the widget's first four
 * tasks with the "+k more tasks" line, the footer, and the save button.
 */
module AppPreview {
  import opened Basics
  import opened Text
  import opened ListOps
  import opened Records
  import opened Params
  import opened Stats
  import opened SaveFlow

  /** `WALLPAPER_FILENAME`. */
  const WallpaperFileName := "wallify-todo.png"

  /** How many tasks the widget shows. */
  const WidgetSize: nat := 4

  // ---------------------------------------------------------------------------
  // Reading the route parameter

  /**
   * What `JSON.parse` makes of the `todoList` parameter, as far as the screen tells
   * apart: no JSON, no array, an array of strings (the legacy shape) or an array of
   * task records.
   */
  datatype TodoPayload = Malformed | NotArray | Texts(texts: seq<string>) | Tasks(items: seq<TodoItem>)

  /** The task a legacy text at position `i` becomes. */
  function LegacyTodo(i: nat, text: string): TodoItem
  {
    TodoItem(NatToString(i), text, Pad2(8 + i) + ":00", [], false, Medium, None)
  }

  /** `parsedTodos.map((text, index) => ({ ... }))`. */
  function ConvertLegacy(texts: seq<string>): (r: seq<TodoItem>)
    ensures |r| == |texts|
    ensures forall i | 0 <= i < |texts| :: r[i] == LegacyTodo(i, texts[i])
  {
    if texts == [] then []
    else
      var init := ConvertLegacy(texts[..|texts| - 1]);
      init + [LegacyTodo(|texts| - 1, texts[|texts| - 1])]
  }

  /**
   * The legacy conversion keeps every text in its place; task `i` reads back as id `i`,
   * is open, untagged, of medium priority and without emoji, and the ids are distinct.
   */
  lemma ConvertLegacySpec(texts: seq<string>)
    ensures var r := ConvertLegacy(texts);
      && |r| == |texts|
      && (forall i | 0 <= i < |r| :: r[i].text == texts[i] && !r[i].completed && r[i].tags == []
                                   && r[i].priority == Medium && r[i].emoji.None?)
      && (forall i | 0 <= i < |r| :: ParseInt(r[i].id) == Some(i))
      && (forall i, j | 0 <= i < j < |r| :: r[i].id != r[j].id)
  {
    var r := ConvertLegacy(texts);
    forall i | 0 <= i < |r| ensures ParseInt(r[i].id) == Some(i) {
      ParseIntOfPad2(i);
    }
    forall i, j | 0 <= i < j < |r| ensures r[i].id != r[j].id {
      ParseIntOfPad2(i);
      ParseIntOfPad2(j);
    }
  }

  /**
   * Task `i` of a legacy list is due at hour `8 + i`, on the hour: the hour is not wrapped,
   * so the seventeenth task (index 16) reads `24`.
   */
  lemma LegacyTimeHours(texts: seq<string>, i: nat)
    requires i < |texts|
    ensures var parts := Split(ConvertLegacy(texts)[i].time, ':');
      |parts| == 2 && ParseInt(parts[0]) == Some(8 + i) && parts[1] == "00"
  {
    var hh := Pad2(8 + i);
    DigitsAreNotSpace(hh);
    assert ':' !in "00";
    assert hh + ":00" == hh + [':'] + "00";
    SplitTwo(hh, "00", ':');
    ParseIntOfPad2(8 + i);
  }

  /**
   * The list the screen takes from its parameter: `None` (the list stays as it was) when
   * the parameter is missing or empty, is no JSON or no array; a non-empty array of texts
   * is converted; any other array, an empty one included, is taken as it is.
   */
  function DecodeTodoParam(p: RouteParam, parse: string -> TodoPayload): (r: Option<seq<TodoItem>>)
    ensures r.Some? <==> ParamText(p).Some? && (parse(p.value).Texts? || parse(p.value).Tasks?)
    ensures r.Some? && parse(p.value).Tasks? ==> r.value == parse(p.value).items
    ensures r.Some? && parse(p.value).Texts? ==> r.value == ConvertLegacy(parse(p.value).texts)
  {
    match ParamText(p)
    case None => None
    case Some(text) =>
      match parse(text)
      case Texts(texts) => if |texts| > 0 then Some(ConvertLegacy(texts)) else Some([])
      case Tasks(items) => Some(items)
      case _ => None
  }

  /**
   * The task list a list screen sends, `JSON.stringify(todoList)`, comes back as that
   * list whenever the parser reads its own output back as tasks.
   */
  lemma TaskParamRoundTrip(list: seq<TodoItem>, stringify: seq<TodoItem> -> string, parse: string -> TodoPayload)
    requires stringify(list) != ""
    requires parse(stringify(list)) == Tasks(list)
    ensures DecodeTodoParam(Single(stringify(list)), parse) == Some(list)
  {
  }

  // ---------------------------------------------------------------------------
  // The widget

  /** `todoList.length > 4 && "+" + (todoList.length - 4) + " more tasks"`. */
  function MoreTasks(list: seq<TodoItem>): (shown: Option<string>)
    ensures shown.Some? <==> |list| > WidgetSize
    ensures shown.Some? ==> ParseInt(shown.value) == Some(|list| - WidgetSize)
  {
    var shown := MoreIndicator(|list|, WidgetSize, "tasks");
    if shown.Some? then
      MoreIndicatorCount(|list|, WidgetSize, "tasks");
      shown
    else shown
  }

  /** The shown tasks and the "+k more" count together account for the whole list. */
  lemma WidgetCoversList(list: seq<TodoItem>)
    ensures var shown := Take(list, WidgetSize);
      && shown == list[..|shown|]
      && |shown| + (if MoreTasks(list).Some? then |list| - WidgetSize else 0) == |list|
  {
  }

  /** The footer's words: `${n} ${n === 1 ? 'task' : 'tasks'} today`, then ` • ${c} completed` when c > 0. */
  function FooterWords(list: seq<TodoItem>): seq<string>
  {
    var n, c := |list|, Count(list, IsCompleted);
    var noun := if n == 1 then "task" else "tasks";
    if c > 0 then [NatToString(n), noun, "today", "•", NatToString(c), "completed"]
    else [NatToString(n), noun, "today"]
  }

  /** The footer line as rendered. */
  function Footer(list: seq<TodoItem>): string
  {
    Join(FooterWords(list), ' ')
  }

  /**
   * The footer starts with the number of tasks and says `task` exactly for one task; the
   * completed part appears exactly when some task is done and then shows their number.
   */
  lemma FooterReadsBack(list: seq<TodoItem>)
    ensures var words := Split(Footer(list), ' ');
      && |words| >= 3
      && ParseInt(words[0]) == Some(|list|)
      && (words[1] == "task" <==> |list| == 1)
      && words[2] == "today"
      && (|words| > 3 <==> Count(list, IsCompleted) > 0)
      && (|words| > 3 ==> |words| == 6 && ParseInt(words[4]) == Some(Count(list, IsCompleted)))
  {
    FooterWordsFacts(list);
    SplitJoin(FooterWords(list), ' ');
    ParseIntOfPad2(|list|);
    ParseIntOfPad2(Count(list, IsCompleted));
  }

  /** The footer's words one by one; none of them holds a space. */
  lemma FooterWordsFacts(list: seq<TodoItem>)
    ensures var words, n, c := FooterWords(list), |list|, Count(list, IsCompleted);
      && |words| == (if c > 0 then 6 else 3)
      && words[0] == NatToString(n)
      && words[1] == (if n == 1 then "task" else "tasks")
      && words[2] == "today"
      && (c > 0 ==> words[4] == NatToString(c))
      && (forall i | 0 <= i < |words| :: ' ' !in words[i])
  {
    var n, c := |list|, Count(list, IsCompleted);
    DigitsAreNotSpace(NatToString(n));
    DigitsAreNotSpace(NatToString(c));
    assert ' ' !in "task" && ' ' !in "tasks" && ' ' !in "today";
    assert ' ' !in "•" && ' ' !in "completed";
  }

  // ---------------------------------------------------------------------------
  // The screen

  class PreviewScreen {
    var todoList: seq<TodoItem>
    var imageSaved: bool

    constructor ()
      ensures todoList == [] && !imageSaved
    {
      todoList, imageSaved := [], false;
    }

    /** The effect on `params.todoList`: a list read from the parameter replaces the current one. */
    method LoadParam(p: RouteParam, parse: string -> TodoPayload)
      modifies this`todoList
      ensures DecodeTodoParam(p, parse).Some? ==> todoList == DecodeTodoParam(p, parse).value
      ensures DecodeTodoParam(p, parse).None? ==> todoList == old(todoList)
    {
      var decoded := DecodeTodoParam(p, parse);
      if decoded.Some? {
        todoList := decoded.value;
      }
    }

    /** The save button is disabled once the image has been saved. */
    function SaveDisabled(): bool
      reads this
    {
      imageSaved
    }

    /** `saveAndApplyWallpaper`: the flow runs; `imageSaved` is set only when it went through. */
    method SaveAndApplyWallpaper(platform: SavePlatform) returns (out: SaveOutcome)
      modifies this`imageSaved
      ensures out == Save(platform, WallpaperFileName)
      ensures imageSaved == (old(imageSaved) || out.saved)
    {
      out := SaveFlow.SaveAndApplyWallpaper(platform, WallpaperFileName);
      if out.saved {
        imageSaved := true;
      }
    }
  }
}
