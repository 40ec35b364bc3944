/**
 * The web task screen (pages/todo.tsx): the same task records and list updates
 * as the native screen, a form without time picker, a priority colour lookup
 * with a grey fallback, tag chips with no fallback at all, and the navigation
 * that hands the list to the web preview.
 */
module WebTodo {
  import opened Basics
  import opened Text
  import opened ListOps
  import opened Records
  import opened Stats
  import AppTodo

  // ---------------------------------------------------------------------------
  // Catalogues: the web file carries the same tag and priority tables as the
  // native one (`AppTodo.PredefinedTags`, `AppTodo.PriorityLevels`).

  /** The colour `getPriorityColor` falls back to. */
  const FallbackColor := "#8E8E93"

  /**
   * `getPriorityColor`: the colour of the level of that name, or grey when no level has
   * that name (pages/grocery.tsx defines the same function).
   */
  function GetPriorityColor(priority: string): (color: string)
    ensures (exists i | 0 <= i < |AppTodo.PriorityLevels| :: AppTodo.PriorityLevels[i].level == priority) ==>
      exists i | 0 <= i < |AppTodo.PriorityLevels| :: AppTodo.PriorityLevels[i].level == priority && color == AppTodo.PriorityLevels[i].color
    ensures (forall i | 0 <= i < |AppTodo.PriorityLevels| :: AppTodo.PriorityLevels[i].level != priority) ==> color == FallbackColor
  {
    match Find(AppTodo.PriorityLevels, (p: AppTodo.PriorityInfo) => p.level == priority)
    case Some(p) => p.color
    case None => FallbackColor
  }

  /** Every level a task can hold finds its own entry's colour. */
  lemma PriorityColorOfLevel(p: TaskPriority)
    ensures GetPriorityColor(LevelName(p)) == AppTodo.GetPriorityInfo(LevelName(p)).color
  {
    AppTodo.PriorityInfoOfLevel(p);
  }

  /** The grey fallback is the `low` level's own colour: an unknown level is drawn like a low one. */
  lemma UnknownPriorityColor(other: string)
    requires forall i | 0 <= i < |AppTodo.PriorityLevels| :: AppTodo.PriorityLevels[i].level != other
    ensures GetPriorityColor(other) == AppTodo.PriorityLevels[0].color
    ensures AppTodo.PriorityLevels[0].level == LevelName(Low)
  {
  }

  /**
   * A tag chip as rendered: background `tag?.color + '20'`, text colour `tag?.color`, label
   * `{tag?.emoji} {tagName}`. A missing value prints as `undefined` when concatenated and as
   * nothing in the caption.
   */
  datatype TagChip = TagChip(background: string, color: Option<string>, caption: string)

  /** The chip of a tag name, looked up with no fallback. */
  function TagChipOf(tagName: string): (chip: TagChip)
    ensures chip.color.Some? <==> exists i | 0 <= i < |AppTodo.PredefinedTags| :: AppTodo.PredefinedTags[i].name == tagName
    ensures chip.color.Some? ==> exists t | t in AppTodo.PredefinedTags ::
      t.name == tagName && chip == TagChip(t.color + "20", Some(t.color), t.emoji + " " + tagName)
    ensures chip.color.None? ==> chip == TagChip("undefined20", None, " " + tagName)
  {
    match Find(AppTodo.PredefinedTags, (t: AppTodo.TagInfo) => t.name == tagName)
    case Some(t) => TagChip(t.color + "20", Some(t.color), t.emoji + " " + tagName)
    case None => TagChip("undefined20", None, " " + tagName)
  }

  /**
   * Unlike the native screen, which draws an unknown tag on a grey chip, the web screen
   * draws it with no colour at all; a known tag looks the same on both.
   */
  lemma TagChipAgreesWithNative(tagName: string)
    ensures TagChipOf(tagName).color.Some? ==> TagChipOf(tagName).color == Some(AppTodo.GetTagInfo(tagName).color)
    ensures TagChipOf(tagName).color.None? ==> AppTodo.GetTagInfo(tagName) == AppTodo.FallbackTag(tagName)
  {
    var info := AppTodo.GetTagInfo(tagName);
    if TagChipOf(tagName).color.Some? {
      var t :| t in AppTodo.PredefinedTags && t.name == tagName && TagChipOf(tagName).color == Some(t.color);
      TagNamesUnique(t, info);
    }
  }

  /** The predefined tags carry distinct names. */
  lemma TagNamesUnique(a: AppTodo.TagInfo, b: AppTodo.TagInfo)
    requires a in AppTodo.PredefinedTags && b in AppTodo.PredefinedTags && a.name == b.name
    ensures a == b
  {
  }

  // ---------------------------------------------------------------------------
  // The screen

  /** The screen's state hooks, one field each. */
  class WebTodoScreen {
    var todoText: string
    var todoList: seq<TodoItem>
    var selectedTime: string
    var selectedTags: seq<string>
    var selectedPriority: TaskPriority
    var showAddModal: bool
    var selectedEmoji: string

    constructor ()
      ensures todoText == "" && todoList == [] && selectedTime == "09:00" && selectedTags == []
      ensures selectedPriority == Medium && !showAddModal && selectedEmoji == ""
    {
      todoText, todoList, selectedTime, selectedTags := "", [], "09:00", [];
      selectedPriority, showAddModal, selectedEmoji := Medium, false, "";
    }

    /** `completedCount`. */
    function CompletedCount(): (n: nat)
      reads this
      ensures n <= |todoList|
    {
      Count(todoList, IsCompleted)
    }

    /** `progressPercentage`: 0 for an empty list, otherwise the completed share in percent. */
    function ProgressPercentage(): (p: real)
      reads this
      ensures 0.0 <= p <= 100.0
      ensures todoList == [] ==> p == 0.0
      ensures todoList != [] ==> p == (CompletedCount() as real) / (|todoList| as real) * 100.0
    {
      Progress(CompletedCount(), |todoList|)
    }

    /** `resetForm`: clears text, tags and emoji, priority back to medium, modal closed; the time is kept. */
    method ResetForm()
      modifies this
      ensures todoText == "" && selectedTags == [] && selectedPriority == Medium && selectedEmoji == ""
      ensures !showAddModal
      ensures todoList == old(todoList) && selectedTime == old(selectedTime)
    {
      todoText, selectedTags, selectedPriority, selectedEmoji, showAddModal := "", [], Medium, "", false;
    }

    /**
     * `addTodoItem`: does nothing on blank text; otherwise appends the new task under
     * `newId` (the clock's reading) and resets the form.
     */
    method AddTodoItem(newId: string)
      modifies this
      ensures todoList == AddTodo(old(todoList), old(todoText), newId, old(selectedTime), old(selectedTags), old(selectedPriority), old(selectedEmoji))
      ensures selectedTime == old(selectedTime)
      ensures IsBlank(old(todoText)) ==>
        && todoText == old(todoText) && selectedTags == old(selectedTags) && selectedPriority == old(selectedPriority)
        && selectedEmoji == old(selectedEmoji) && showAddModal == old(showAddModal)
      ensures !IsBlank(old(todoText)) ==>
        && todoText == "" && selectedTags == [] && selectedPriority == Medium && selectedEmoji == "" && !showAddModal
    {
      if !IsBlank(todoText) {
        todoList := AddTodo(todoList, todoText, newId, selectedTime, selectedTags, selectedPriority, selectedEmoji);
        ResetForm();
      }
    }

    /** `toggleTodoCompletion`. */
    method ToggleTodoCompletion(id: string)
      modifies this`todoList
      ensures todoList == ToggleTodo(old(todoList), id)
    {
      todoList := ToggleTodo(todoList, id);
    }

    /** `removeTodoItem`. */
    method RemoveTodoItem(id: string)
      modifies this`todoList
      ensures todoList == RemoveTodo(old(todoList), id)
    {
      todoList := RemoveTodo(todoList, id);
    }

    /** `toggleTag`. */
    method ToggleTag(tagName: string)
      modifies this`selectedTags
      ensures selectedTags == ToggleMember(old(selectedTags), tagName)
    {
      selectedTags := ToggleMember(selectedTags, tagName);
    }

    /**
     * `navigateToPreview`: the preview's `todoList` query value is the URI-encoded JSON
     * text of the list.
     */
    method NavigateToPreview(stringify: seq<TodoItem> -> string, encode: string -> string) returns (url: string)
      ensures url == "/preview?todoList=" + encode(stringify(todoList))
    {
      url := "/preview?todoList=" + encode(stringify(todoList));
    }
  }
}
