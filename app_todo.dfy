/**
 * The native task screen (app/todo.tsx): the list of tasks and the add/edit
 * form, the tag and priority catalogues with their lookup fallbacks, and the
 * time picker's `HH:MM` codec.
 */
module AppTodo {
  import opened Basics
  import opened Text
  import opened ListOps
  import opened Records
  import opened Params
  import opened Stats

  // ---------------------------------------------------------------------------
  // Catalogues

  datatype TagInfo = TagInfo(name: string, color: string, emoji: string, lightColor: string)

  /** The six predefined tags, in display order. */
  const PredefinedTags: seq<TagInfo> := [
    TagInfo("Work", "#007AFF", "💼", "#E3F2FF"),
    TagInfo("Personal", "#34C759", "🏠", "#E8F8EA"),
    TagInfo("Health", "#FF3B30", "❤️", "#FFE8E7"),
    TagInfo("Learning", "#FF9500", "📚", "#FFF2E0"),
    TagInfo("Shopping", "#5856D6", "🛒", "#EFEEFD"),
    TagInfo("Travel", "#32D74B", "✈️", "#E8F8EA")
  ]

  /** What an unknown tag is drawn with: its own name on a grey chip. */
  function FallbackTag(tagName: string): TagInfo
  {
    TagInfo(tagName, "#8E8E93", "🏷️", "#F2F2F7")
  }

  datatype PriorityInfo = PriorityInfo(level: string, color: string, emoji: string, name: string)

  /** The three priority levels; the middle one, `medium`, is the fallback. */
  const PriorityLevels: seq<PriorityInfo> := [
    PriorityInfo("low", "#8E8E93", "🔵", "Low"),
    PriorityInfo("medium", "#FF9500", "🟡", "Medium"),
    PriorityInfo("high", "#FF3B30", "🔴", "High")
  ]

  /** The quick-pick times offered in the form. */
  const QuickTimes: seq<string> := ["09:00", "12:00", "15:00", "18:00", "20:00"]

  /**
   * `getTagInfo`: the predefined tag of that name, or a grey fallback chip that still
   * carries the name. It never fails.
   */
  function GetTagInfo(tagName: string): (info: TagInfo)
    ensures info.name == tagName
    ensures (exists i | 0 <= i < |PredefinedTags| :: PredefinedTags[i].name == tagName) <==> info in PredefinedTags
    ensures info !in PredefinedTags ==> info == FallbackTag(tagName)
  {
    match Find(PredefinedTags, (t: TagInfo) => t.name == tagName)
    case Some(t) => t
    case None => FallbackTag(tagName)
  }

  /** `getPriorityInfo`: the level's entry, and the `medium` entry for anything else. */
  function GetPriorityInfo(priority: string): (info: PriorityInfo)
    ensures info in PriorityLevels
    ensures priority in ["low", "medium", "high"] ==> info.level == priority
    ensures priority !in ["low", "medium", "high"] ==> info == PriorityLevels[1]
  {
    match Find(PriorityLevels, (p: PriorityInfo) => p.level == priority)
    case Some(p) => p
    case None => PriorityLevels[1]
  }

  /** Every priority a task can hold finds its own entry, named after it. */
  lemma PriorityInfoOfLevel(p: TaskPriority)
    ensures GetPriorityInfo(LevelName(p)).level == LevelName(p)
    ensures GetPriorityInfo(LevelName(p)) == PriorityLevels[match p case Low => 0 case Medium => 1 case High => 2]
  {
  }

  // ---------------------------------------------------------------------------
  // The time picker's codec

  /** A time of day in minutes after midnight. */
  type MinuteOfDay = m: int | 0 <= m < 1440

  /** The picker's `Date` as far as the screen reads it: a time of day, or an invalid date. */
  datatype PickerTime = At(minute: MinuteOfDay) | InvalidDate

  /**
   * `${getHours() padded}:${getMinutes() padded}`, the text `handleTimeChange` stores;
   * an invalid date reads `NaN` in both places.
   */
  function FormatTime(t: PickerTime): (s: string)
    ensures t.At? ==> |s| == 5 && s[2] == ':'
  {
    match t
    case At(m) =>
      var h, mi := m / 60, m % 60;
      assert h < 24 && mi < 60;
      Pad2(h) + ":" + Pad2(mi)
    case InvalidDate => NaNText + ":" + NaNText
  }

  /** How `toString` and `padStart` render the `NaN` an invalid date reports. */
  const NaNText := "NaN"

  /**
   * `openTimePicker`'s reading of the stored text: split at `:`, `parseInt` both halves
   * (a missing half reads `NaN`), and `setHours(h, m, 0, 0)`, which carries overflowing
   * minutes into hours and hours into other days.
   */
  function ParseTime(s: string): PickerTime
  {
    var parts := Split(s, ':');
    SetHours(ParseInt(parts[0]), if |parts| >= 2 then ParseInt(parts[1]) else None)
  }

  /** `setHours(h, m, 0, 0)` on a date: invalid once either argument is `NaN`, else carried into one day. */
  function SetHours(h: Option<int>, m: Option<int>): PickerTime
  {
    if h.None? || m.None? then InvalidDate
    else At((h.value * 60 + m.value) % 1440)
  }

  /** Formatting covers every time of day as `HH:MM`, hours below 24 and minutes below 60. */
  lemma FormatTimeDigits(h: nat, m: nat)
    requires h < 24 && m < 60
    ensures FormatTime(At(h * 60 + m)) == Pad2(h) + ":" + Pad2(m)
  {
    var t := h * 60 + m;
    assert t / 60 == h && t % 60 == m;
  }

  /** Two colon-free halves are read as hours and minutes, carried over into one day. */
  lemma ParseTimeOfParts(a: string, b: string)
    requires ':' !in a && ':' !in b
    ensures ParseTime(a + ":" + b) == SetHours(ParseInt(a), ParseInt(b))
  {
    assert a + ":" + b == a + [':'] + b;
    SplitTwo(a, b, ':');
  }

  /** Both halves read as numbers: the time of day `setHours` makes of them. */
  lemma ParseTimeOfNumbers(a: string, b: string, h: int, m: int)
    requires ':' !in a && ':' !in b
    requires ParseInt(a) == Some(h) && ParseInt(b) == Some(m)
    ensures ParseTime(a + ":" + b) == SetHours(Some(h), Some(m))
  {
    ParseTimeOfParts(a, b);
  }

  /** Hours and minutes of a time of day put back together give that time of day. */
  lemma MinuteOfDayParts(m: MinuteOfDay)
    ensures (m / 60 * 60 + m % 60) % 1440 == m
  {
  }

  /** The text `NaN` is not a number. */
  lemma ParseIntNaN()
    ensures ParseInt("NaN") == None
  {
    assert TrimStart("NaN") == "NaN";
    assert DigitPrefix("NaN", 10) == [];
  }

  /** Two padded numbers joined by `:` read back as those hours and minutes. */
  lemma ParsePaddedTime(h: nat, mi: nat)
    ensures ParseTime(Pad2(h) + ":" + Pad2(mi)) == SetHours(Some(h), Some(mi))
  {
    DigitsAreNotSpace(Pad2(h));
    DigitsAreNotSpace(Pad2(mi));
    ParseIntOfPad2(h);
    ParseIntOfPad2(mi);
    ParseTimeOfNumbers(Pad2(h), Pad2(mi), h, mi);
  }

  lemma ParseFormatValid(m: MinuteOfDay)
    ensures ParseTime(FormatTime(At(m))) == At(m)
  {
    var h, mi := m / 60, m % 60;
    calc {
      ParseTime(FormatTime(At(m)));
      ParseTime(Pad2(h) + ":" + Pad2(mi));
      { ParsePaddedTime(h, mi); }
      SetHours(Some(h), Some(mi));
      At((h * 60 + mi) % 1440);
      { MinuteOfDayParts(m); }
      At(m);
    }
  }

  lemma ParseFormatInvalid()
    ensures ParseTime(FormatTime(InvalidDate)) == InvalidDate
  {
    ParseIntNaN();
    ParseTimeOfParts(NaNText, NaNText);
  }

  /** Opening the picker reads back exactly the date the picker last stored, valid or not. */
  lemma ParseFormatTime(t: PickerTime)
    ensures ParseTime(FormatTime(t)) == t
  {
    match t
    case At(m) => ParseFormatValid(m);
    case InvalidDate => ParseFormatInvalid();
  }

  /** An `HH:MM` text with hours below 24 and minutes below 60 survives the round trip. */
  lemma FormatParseTime(h: nat, m: nat)
    requires h < 24 && m < 60
    ensures FormatTime(ParseTime(Pad2(h) + ":" + Pad2(m))) == Pad2(h) + ":" + Pad2(m)
  {
    FormatTimeDigits(h, m);
    ParseFormatTime(At(h * 60 + m));
  }

  // ---------------------------------------------------------------------------
  // The screen

  /** The screen's state hooks, one field each. */
  class TodoScreen {
    var todoText: string
    var todoList: seq<TodoItem>
    var selectedTime: string
    var selectedTags: seq<string>
    var selectedPriority: TaskPriority
    var showAddModal: bool
    var selectedEmoji: string
    var showTimePicker: bool
    var timePickerDate: PickerTime

    /** The initial state; `now` is the clock's reading for the picker's first date. */
    constructor (now: PickerTime)
      ensures todoText == "" && todoList == [] && selectedTime == "09:00" && selectedTags == []
      ensures selectedPriority == Medium && !showAddModal && selectedEmoji == ""
      ensures !showTimePicker && timePickerDate == now
    {
      todoText, todoList, selectedTime, selectedTags := "", [], "09:00", [];
      selectedPriority, showAddModal, selectedEmoji := Medium, false, "";
      showTimePicker, timePickerDate := false, now;
    }

    /** `completedCount`. */
    function CompletedCount(): (n: nat)
      reads this
      ensures n <= |todoList|
    {
      Count(todoList, IsCompleted)
    }

    /** `progressPercentage`: 0 for an empty list, otherwise the completed share in percent. */
    function ProgressPercentage(): (p: real)
      reads this
      ensures 0.0 <= p <= 100.0
      ensures todoList == [] ==> p == 0.0
      ensures todoList != [] ==> p == (CompletedCount() as real) / (|todoList| as real) * 100.0
    {
      Progress(CompletedCount(), |todoList|)
    }

    /** `resetForm`: clears the form and closes the modal and the picker; the time is kept. */
    method ResetForm()
      modifies this
      ensures todoText == "" && selectedTags == [] && selectedPriority == Medium && selectedEmoji == ""
      ensures !showAddModal && !showTimePicker
      ensures todoList == old(todoList) && selectedTime == old(selectedTime)
      ensures timePickerDate == old(timePickerDate)
    {
      todoText, selectedTags, selectedPriority, selectedEmoji := "", [], Medium, "";
      showAddModal, showTimePicker := false, false;
    }

    /**
     * `addTodoItem`: does nothing on blank text; otherwise appends the new task under
     * `newId` (the clock's reading) and resets the form.
     */
    method AddTodoItem(newId: string)
      modifies this
      ensures todoList == AddTodo(old(todoList), old(todoText), newId, old(selectedTime), old(selectedTags), old(selectedPriority), old(selectedEmoji))
      ensures selectedTime == old(selectedTime) && timePickerDate == old(timePickerDate)
      ensures IsBlank(old(todoText)) ==>
        && todoText == old(todoText) && selectedTags == old(selectedTags) && selectedPriority == old(selectedPriority)
        && selectedEmoji == old(selectedEmoji) && showAddModal == old(showAddModal) && showTimePicker == old(showTimePicker)
      ensures !IsBlank(old(todoText)) ==>
        && todoText == "" && selectedTags == [] && selectedPriority == Medium && selectedEmoji == ""
        && !showAddModal && !showTimePicker
    {
      if !IsBlank(todoText) {
        todoList := AddTodo(todoList, todoText, newId, selectedTime, selectedTags, selectedPriority, selectedEmoji);
        ResetForm();
      }
    }

    /** `editTodoItem`: loads the task into the form, drops it from the list, opens the modal. */
    method EditTodoItem(item: TodoItem)
      modifies this
      ensures todoText == item.text && selectedTime == item.time && selectedTags == item.tags
      ensures selectedPriority == item.priority && selectedEmoji == item.emoji.GetOr("")
      ensures todoList == RemoveTodo(old(todoList), item.id) && showAddModal
      ensures showTimePicker == old(showTimePicker) && timePickerDate == old(timePickerDate)
    {
      todoText, selectedTime, selectedTags := item.text, item.time, item.tags;
      selectedPriority, selectedEmoji := item.priority, item.emoji.GetOr("");
      todoList := RemoveTodo(todoList, item.id);
      showAddModal := true;
    }

    /** `duplicateTodoItem`: appends the copy under `newId`; the original stays. */
    method DuplicateTodoItem(item: TodoItem, newId: string)
      modifies this`todoList
      ensures todoList == old(todoList) + [DuplicateTodo(item, newId)]
    {
      todoList := todoList + [DuplicateTodo(item, newId)];
    }

    /** `deleteTodoItem`. */
    method DeleteTodoItem(id: string)
      modifies this`todoList
      ensures todoList == RemoveTodo(old(todoList), id)
    {
      todoList := RemoveTodo(todoList, id);
    }

    /** `toggleTodoCompletion`. */
    method ToggleTodoCompletion(id: string)
      modifies this`todoList
      ensures todoList == ToggleTodo(old(todoList), id)
    {
      todoList := ToggleTodo(todoList, id);
    }

    /**
     * `handleTimeChange`: on Android the picker closes on every event; a delivered date
     * becomes the picker's date and, formatted, the selected time.
     */
    method HandleTimeChange(isAndroid: bool, selectedDate: Option<PickerTime>)
      modifies this`showTimePicker, this`timePickerDate, this`selectedTime
      ensures showTimePicker == (if isAndroid then false else old(showTimePicker))
      ensures selectedDate.Some? ==> timePickerDate == selectedDate.value && selectedTime == FormatTime(selectedDate.value)
      ensures selectedDate.None? ==> timePickerDate == old(timePickerDate) && selectedTime == old(selectedTime)
    {
      if isAndroid {
        showTimePicker := false;
      }
      if selectedDate.Some? {
        timePickerDate := selectedDate.value;
        selectedTime := FormatTime(selectedDate.value);
      }
    }

    /** `openTimePicker`: the picker starts from the selected time and opens. */
    method OpenTimePicker()
      modifies this`showTimePicker, this`timePickerDate
      ensures timePickerDate == ParseTime(selectedTime) && showTimePicker
    {
      timePickerDate := ParseTime(selectedTime);
      showTimePicker := true;
    }

    /** `toggleTag`. */
    method ToggleTag(tagName: string)
      modifies this`selectedTags
      ensures selectedTags == ToggleMember(old(selectedTags), tagName)
    {
      selectedTags := ToggleMember(selectedTags, tagName);
    }

    /** `navigateToPreview`: the preview route's `todoList` parameter is the list's JSON text. */
    method NavigateToPreview(stringify: seq<TodoItem> -> string) returns (param: RouteParam)
      ensures param == Single(stringify(todoList))
    {
      param := Single(stringify(todoList));
    }
  }
}
