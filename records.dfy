/**
 * The records the screens keep in their lists, and the whole-list updates
 * on them that more than one screen performs identically.
 */
module Records {
  import opened Basics
  import opened Text
  import opened ListOps

  /** The task priority `'low' | 'medium' | 'high'` (also the web grocery item's priority). */
  datatype TaskPriority = Low | Medium | High

  /** The string the source stores and compares for a task priority. */
  function LevelName(p: TaskPriority): (name: string)
    ensures name in ["low", "medium", "high"]
  {
    match p
    case Low => "low"
    case Medium => "medium"
    case High => "high"
  }

  lemma LevelNameInjective(p: TaskPriority, q: TaskPriority)
    ensures LevelName(p) == LevelName(q) <==> p == q
  {
  }

  /** A task, the same interface in app/todo.tsx, app/preview.tsx and pages/todo.tsx. */
  datatype TodoItem = TodoItem(
    id: string,
    text: string,
    time: string,
    tags: seq<string>,
    completed: bool,
    priority: TaskPriority,
    emoji: Option<string>)

  /** The native grocery item's priority `'normal' | 'urgent'`. */
  datatype GroceryPriority = Normal | Urgent

  /** A native grocery item (app/grocery.tsx, app/grocery-preview.tsx): its flag is `checked`. */
  datatype GroceryItem = GroceryItem(
    id: string,
    name: string,
    quantity: string,
    category: string,
    checked: bool,
    priority: GroceryPriority,
    notes: Option<string>)

  /** A web grocery item (pages/grocery.tsx, pages/preview.tsx): its flag is `completed`. */
  datatype WebGroceryItem = WebGroceryItem(
    id: string,
    name: string,
    quantity: string,
    category: string,
    completed: bool,
    priority: TaskPriority,
    emoji: Option<string>)

  function TodoId(t: TodoItem): string { t.id }
  function GroceryId(g: GroceryItem): string { g.id }
  function WebGroceryId(g: WebGroceryItem): string { g.id }

  predicate IsCompleted(t: TodoItem) { t.completed }
  predicate IsChecked(g: GroceryItem) { g.checked }
  predicate IsWebCompleted(g: WebGroceryItem) { g.completed }

  function FlipCompleted(t: TodoItem): TodoItem { t.(completed := !t.completed) }
  function FlipChecked(g: GroceryItem): GroceryItem { g.(checked := !g.checked) }
  function FlipWebCompleted(g: WebGroceryItem): WebGroceryItem { g.(completed := !g.completed) }

  /** The copy marker the duplicate handlers append. */
  const CopySuffix := " (Copy)"

  // ---------------------------------------------------------------------------
  // Tasks: toggle, remove and duplicate (app/todo.tsx, pages/todo.tsx)

  /** `todoList.map(t => t.id === id ? { ...t, completed: !t.completed } : t)`. */
  function ToggleTodo(list: seq<TodoItem>, id: string): (r: seq<TodoItem>)
  {
    UpdateKey(list, TodoId, id, FlipCompleted)
  }

  /** Toggling flips `completed` on exactly the tasks with that id and changes nothing else. */
  lemma ToggleTodoSpec(list: seq<TodoItem>, id: string)
    ensures var r := ToggleTodo(list, id);
      && |r| == |list|
      && (forall i | 0 <= i < |list| && list[i].id == id ::
            r[i].completed == !list[i].completed && r[i] == list[i].(completed := r[i].completed))
      && (forall i | 0 <= i < |list| && list[i].id != id :: r[i] == list[i])
  {
  }

  /** Toggling the same id twice restores the list. */
  lemma ToggleTodoTwice(list: seq<TodoItem>, id: string)
    ensures ToggleTodo(ToggleTodo(list, id), id) == list
  {
    var r := ToggleTodo(ToggleTodo(list, id), id);
    assert |r| == |list|;
    forall i | 0 <= i < |list| ensures r[i] == list[i] {
    }
  }

  /** `todoList.filter(t => t.id !== id)`. */
  function RemoveTodo(list: seq<TodoItem>, id: string): (r: seq<TodoItem>)
  {
    RemoveKey(list, TodoId, id)
  }

  /**
   * Removing by id drops exactly the tasks with that id; the others stay, in order.
   * With unique ids, one task goes and the length drops by one.
   */
  lemma RemoveTodoSpec(list: seq<TodoItem>, id: string)
    ensures var r := RemoveTodo(list, id);
      && (forall t | t in r :: t in list && t.id != id)
      && (forall t | t in list && t.id != id :: t in r)
      && IsSubsequence(r, list)
      && |r| == |list| - CountKey(list, TodoId, id)
  {
    RemoveKeyIsSubsequence(list, TodoId, id);
  }

  /** A task that appears once is the only one removed. */
  lemma RemoveUniqueTodo(pre: seq<TodoItem>, t: TodoItem, post: seq<TodoItem>)
    requires forall u | u in pre :: u.id != t.id
    requires forall u | u in post :: u.id != t.id
    ensures RemoveTodo(pre + [t] + post, t.id) == pre + post
  {
    RemoveUniqueKey(pre, t, post, TodoId);
  }

  /** The spread copy `{ ...item, id: newId, text: `${item.text} (Copy)` }`. */
  function DuplicateTodo(item: TodoItem, newId: string): (copy: TodoItem)
    ensures copy.id == newId && copy.text == item.text + CopySuffix
    ensures copy.(id := item.id, text := item.text) == item
  {
    item.(id := newId, text := item.text + CopySuffix)
  }

  /**
   * The add handler's list update: nothing on blank text, otherwise one new task at the
   * end carrying the trimmed text, not completed, with the form's time, tags, priority
   * and emoji.
   */
  function AddTodo(list: seq<TodoItem>, text: string, id: string, time: string, tags: seq<string>,
                   priority: TaskPriority, emoji: string): (r: seq<TodoItem>)
    ensures IsBlank(text) ==> r == list
    ensures !IsBlank(text) ==> |r| == |list| + 1 && r[..|list|] == list
    ensures !IsBlank(text) ==> r[|list|] == TodoItem(id, Trim(text), time, tags, false, priority, Some(emoji))
  {
    TrimEmptyIffBlank(text);
    if Trim(text) == [] then list
    else list + [TodoItem(id, Trim(text), time, tags, false, priority, Some(emoji))]
  }

  /** A task the add handler appends carries text that is non-empty and trimmed already. */
  lemma AddTodoTextTrimmed(list: seq<TodoItem>, text: string, id: string, time: string, tags: seq<string>,
                           priority: TaskPriority, emoji: string)
    requires !IsBlank(text)
    ensures var r := AddTodo(list, text, id, time, tags, priority, emoji);
      r[|list|].text != [] && Trim(r[|list|].text) == r[|list|].text
  {
    TrimEmptyIffBlank(text);
    TrimIdempotent(text);
  }

  /** Deleting the only task with an id from the end of a list gives back the rest. */
  lemma RemoveLastTodo(list: seq<TodoItem>, t: TodoItem)
    requires forall u | u in list :: u.id != t.id
    ensures RemoveTodo(list + [t], t.id) == list
  {
    assert list + [t] == list + [t] + [];
    RemoveUniqueTodo(list, t, []);
  }

  /** With an id no task has yet, deleting the task just added gives back the list. */
  lemma AddTodoThenRemove(list: seq<TodoItem>, text: string, id: string, time: string, tags: seq<string>,
                          priority: TaskPriority, emoji: string)
    requires forall t | t in list :: t.id != id
    ensures RemoveTodo(AddTodo(list, text, id, time, tags, priority, emoji), id) == list
  {
    var r := AddTodo(list, text, id, time, tags, priority, emoji);
    if IsBlank(text) {
      RemoveAbsentKey(list, TodoId, id);
    } else {
      assert r == list + [r[|list|]] by {
        assert r == r[..|list|] + [r[|list|]];
      }
      RemoveLastTodo(list, r[|list|]);
    }
  }

  /**
   * Editing loads a task into the form and drops it from the list; saving the form
   * unchanged re-appends it at the end under the new id, not completed, and with its
   * emoji made explicit (`item.emoji || ''`). The other tasks keep their order.
   */
  lemma EditThenSaveTodo(pre: seq<TodoItem>, t: TodoItem, post: seq<TodoItem>, newId: string)
    requires forall u | u in pre :: u.id != t.id
    requires forall u | u in post :: u.id != t.id
    requires t.text != [] && Trim(t.text) == t.text
    ensures AddTodo(RemoveTodo(pre + [t] + post, t.id), t.text, newId, t.time, t.tags, t.priority, t.emoji.GetOr(""))
         == pre + post + [t.(id := newId, completed := false, emoji := Some(t.emoji.GetOr("")))]
  {
    RemoveUniqueTodo(pre, t, post);
    TrimEmptyIffBlank(t.text);
  }

  /** With a unique id, a toggle moves the completed count by exactly one. */
  lemma ToggleTodoCount(pre: seq<TodoItem>, t: TodoItem, post: seq<TodoItem>)
    requires forall u | u in pre :: u.id != t.id
    requires forall u | u in post :: u.id != t.id
    ensures var done := Count(pre + [t] + post, IsCompleted);
      Count(ToggleTodo(pre + [t] + post, t.id), IsCompleted) == if t.completed then done - 1 else done + 1
  {
    var s := pre + [t] + post;
    var r := ToggleTodo(s, t.id);
    assert r == pre + [FlipCompleted(t)] + post by {
      forall i | 0 <= i < |s| ensures r[i] == (pre + [FlipCompleted(t)] + post)[i] {
        if i < |pre| {
          assert s[i] == pre[i];
        } else if i > |pre| {
          assert s[i] == post[i - |pre| - 1];
        }
      }
    }
    CountAppend(pre + [t], post, IsCompleted);
    CountAppend(pre, [t], IsCompleted);
    CountAppend(pre + [FlipCompleted(t)], post, IsCompleted);
    CountAppend(pre, [FlipCompleted(t)], IsCompleted);
  }

  // ---------------------------------------------------------------------------
  // Native grocery items (app/grocery.tsx)

  /** `groceryList.map(i => i.id === id ? { ...i, checked: !i.checked } : i)`. */
  function ToggleGrocery(list: seq<GroceryItem>, id: string): (r: seq<GroceryItem>)
  {
    UpdateKey(list, GroceryId, id, FlipChecked)
  }

  lemma ToggleGrocerySpec(list: seq<GroceryItem>, id: string)
    ensures var r := ToggleGrocery(list, id);
      && |r| == |list|
      && (forall i | 0 <= i < |list| && list[i].id == id ::
            r[i].checked == !list[i].checked && r[i] == list[i].(checked := r[i].checked))
      && (forall i | 0 <= i < |list| && list[i].id != id :: r[i] == list[i])
  {
  }

  lemma ToggleGroceryTwice(list: seq<GroceryItem>, id: string)
    ensures ToggleGrocery(ToggleGrocery(list, id), id) == list
  {
    var r := ToggleGrocery(ToggleGrocery(list, id), id);
    assert |r| == |list|;
    forall i | 0 <= i < |list| ensures r[i] == list[i] {
    }
  }

  /** `groceryList.filter(i => i.id !== id)`. */
  function RemoveGrocery(list: seq<GroceryItem>, id: string): (r: seq<GroceryItem>)
  {
    RemoveKey(list, GroceryId, id)
  }

  lemma RemoveGrocerySpec(list: seq<GroceryItem>, id: string)
    ensures var r := RemoveGrocery(list, id);
      && (forall g | g in r :: g in list && g.id != id)
      && (forall g | g in list && g.id != id :: g in r)
      && IsSubsequence(r, list)
  {
    RemoveKeyIsSubsequence(list, GroceryId, id);
  }

  /** `{ ...item, id: newId, name: `${item.name} (Copy)` }`. */
  function DuplicateGrocery(item: GroceryItem, newId: string): (copy: GroceryItem)
    ensures copy.id == newId && copy.name == item.name + CopySuffix
    ensures copy.(id := item.id, name := item.name) == item
  {
    item.(id := newId, name := item.name + CopySuffix)
  }

  /**
   * The native add handler's list update: nothing on a blank name, otherwise one unchecked
   * item at the end with the trimmed name and the form's quantity, category and priority;
   * notes are kept trimmed, or left absent (`itemNotes.trim() || undefined`) when blank.
   */
  function AddGrocery(list: seq<GroceryItem>, name: string, id: string, quantity: string, category: string,
                      priority: GroceryPriority, notes: string): (r: seq<GroceryItem>)
    ensures IsBlank(name) ==> r == list
    ensures !IsBlank(name) ==> |r| == |list| + 1 && r[..|list|] == list
    ensures !IsBlank(name) ==> var g := r[|list|];
      && g.id == id && g.name == Trim(name) && g.name != [] && g.quantity == quantity
      && g.category == category && !g.checked && g.priority == priority
    ensures !IsBlank(name) ==> (r[|list|].notes.None? <==> IsBlank(notes))
    ensures !IsBlank(name) && !IsBlank(notes) ==> r[|list|].notes == Some(Trim(notes))
  {
    TrimEmptyIffBlank(name);
    TrimEmptyIffBlank(notes);
    if Trim(name) == [] then list
    else
      var n := Trim(notes);
      list + [GroceryItem(id, Trim(name), quantity, category, false, priority, if n == [] then None else Some(n))]
  }

  /**
   * Editing an item and saving it unchanged drops it from its place and re-appends it at
   * the end under the new id, unchecked; notes survive the `notes || ''` round trip.
   */
  lemma EditThenSaveGrocery(pre: seq<GroceryItem>, g: GroceryItem, post: seq<GroceryItem>, newId: string)
    requires forall u | u in pre :: u.id != g.id
    requires forall u | u in post :: u.id != g.id
    requires g.name != [] && Trim(g.name) == g.name
    requires g.notes.Some? ==> g.notes.value != [] && Trim(g.notes.value) == g.notes.value
    ensures AddGrocery(RemoveGrocery(pre + [g] + post, g.id), g.name, newId, g.quantity, g.category, g.priority, g.notes.GetOr(""))
         == pre + post + [g.(id := newId, checked := false)]
  {
    RemoveUniqueKey(pre, g, post, GroceryId);
    TrimEmptyIffBlank(g.name);
    if g.notes.Some? {
      TrimEmptyIffBlank(g.notes.value);
    }
  }

  // ---------------------------------------------------------------------------
  // Web grocery items (pages/grocery.tsx)

  /** `groceryList.map(i => i.id === id ? { ...i, completed: !i.completed } : i)`. */
  function ToggleWebGrocery(list: seq<WebGroceryItem>, id: string): (r: seq<WebGroceryItem>)
  {
    UpdateKey(list, WebGroceryId, id, FlipWebCompleted)
  }

  lemma ToggleWebGrocerySpec(list: seq<WebGroceryItem>, id: string)
    ensures var r := ToggleWebGrocery(list, id);
      && |r| == |list|
      && (forall i | 0 <= i < |list| && list[i].id == id ::
            r[i].completed == !list[i].completed && r[i] == list[i].(completed := r[i].completed))
      && (forall i | 0 <= i < |list| && list[i].id != id :: r[i] == list[i])
  {
  }

  /** `groceryList.filter(i => i.id !== id)`. */
  function RemoveWebGrocery(list: seq<WebGroceryItem>, id: string): (r: seq<WebGroceryItem>)
  {
    RemoveKey(list, WebGroceryId, id)
  }

  lemma RemoveWebGrocerySpec(list: seq<WebGroceryItem>, id: string)
    ensures var r := RemoveWebGrocery(list, id);
      && (forall g | g in r :: g in list && g.id != id)
      && (forall g | g in list && g.id != id :: g in r)
      && IsSubsequence(r, list)
  {
    RemoveKeyIsSubsequence(list, WebGroceryId, id);
  }

  /**
   * The web add handler's list update: nothing on a blank name, otherwise one item at the
   * end with the trimmed name, not completed, and the form's quantity, category, priority
   * and emoji.
   */
  function AddWebGrocery(list: seq<WebGroceryItem>, name: string, id: string, quantity: string, category: string,
                         priority: TaskPriority, emoji: string): (r: seq<WebGroceryItem>)
    ensures IsBlank(name) ==> r == list
    ensures !IsBlank(name) ==> |r| == |list| + 1 && r[..|list|] == list
    ensures !IsBlank(name) ==> r[|list|] == WebGroceryItem(id, Trim(name), quantity, category, false, priority, Some(emoji))
    ensures !IsBlank(name) ==> r[|list|].name != []
  {
    TrimEmptyIffBlank(name);
    if Trim(name) == [] then list
    else list + [WebGroceryItem(id, Trim(name), quantity, category, false, priority, Some(emoji))]
  }
}
