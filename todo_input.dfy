/**
 * The first-generation input screen (screens/TodoInputScreen.js): a list of
 * plain task texts, an add that trims, a remove by position that splices a
 * copy of the list, and the button that hands the texts on.
 */
module TodoInput {
  import opened Basics
  import opened Text
  import AppPreview

  /** A text as the add handler stores it: not empty and trimmed already. */
  predicate IsStoredText(t: string)
  {
    t != [] && Trim(t) == t
  }

  /** `[...todoList, todoItem.trim()]` when the input is not blank, else the list as it is. */
  function AddText(list: seq<string>, input: string): (r: seq<string>)
    ensures IsBlank(input) ==> r == list
    ensures !IsBlank(input) ==> r == list + [Trim(input)]
  {
    TrimEmptyIffBlank(input);
    if Trim(input) == [] then list else list + [Trim(input)]
  }

  /** A text the add handler appends is a stored text. */
  lemma AddTextStores(list: seq<string>, input: string)
    requires forall i | 0 <= i < |list| :: IsStoredText(list[i])
    ensures var r := AddText(list, input);
      forall i | 0 <= i < |r| :: IsStoredText(r[i])
  {
    if !IsBlank(input) {
      TrimmedIsStored(input);
      AppendStored(list, Trim(input));
    }
  }

  /** The trim of a non-blank input is a stored text. */
  lemma TrimmedIsStored(input: string)
    requires !IsBlank(input)
    ensures IsStoredText(Trim(input))
  {
    TrimEmptyIffBlank(input);
    TrimIdempotent(input);
  }

  /** Appending a stored text to stored texts gives stored texts. */
  lemma AppendStored(list: seq<string>, t: string)
    requires forall i | 0 <= i < |list| :: IsStoredText(list[i])
    requires IsStoredText(t)
    ensures forall i | 0 <= i < |list + [t]| :: IsStoredText((list + [t])[i])
  {
    assert forall i | 0 <= i < |list| :: (list + [t])[i] == list[i];
  }

  /**
   * Where `splice(index, 1)` starts on a list of length `len`: a negative index counts
   * from the end (and stops at 0), an index past the end is clamped to the length.
   */
  function SpliceStart(len: nat, index: int): (start: nat)
    ensures start <= len
    ensures 0 <= index <= len ==> start == index
    ensures index > len ==> start == len
    ensures index < 0 ==> start == if len + index < 0 then 0 else len + index
  {
    if index < 0 then (if len + index < 0 then 0 else len + index)
    else if index > len then len
    else index
  }

  /** The list after `splice(index, 1)`: the element at the start position is gone, if there is one. */
  function SpliceOne(list: seq<string>, index: int): (r: seq<string>)
  {
    var k := SpliceStart(|list|, index);
    if k < |list| then list[..k] + list[k + 1..] else list
  }

  /**
   * For a position inside the list exactly that element goes: the list is one shorter,
   * the elements before it stay in place and those after it move up by one. A position
   * past the end removes nothing.
   */
  lemma SpliceOneSpec(list: seq<string>, index: int)
    ensures 0 <= index < |list| ==>
      && |SpliceOne(list, index)| == |list| - 1
      && (forall j | 0 <= j < index :: SpliceOne(list, index)[j] == list[j])
      && (forall j | index <= j < |list| - 1 :: SpliceOne(list, index)[j] == list[j + 1])
    ensures index >= |list| ==> SpliceOne(list, index) == list
    ensures -|list| <= index < 0 ==> SpliceOne(list, index) == SpliceOne(list, |list| + index)
  {
  }

  /** Removing keeps every remaining text a stored text. */
  lemma SpliceKeepsStored(list: seq<string>, index: int)
    requires forall i | 0 <= i < |list| :: IsStoredText(list[i])
    ensures forall i | 0 <= i < |SpliceOne(list, index)| :: IsStoredText(SpliceOne(list, index)[i])
  {
    var k := SpliceStart(|list|, index);
    if k < |list| {
      var r := SpliceOne(list, index);
      forall i | 0 <= i < |r| ensures IsStoredText(r[i]) {
        if i < k {
          assert r[i] == list[i];
        } else {
          assert r[i] == list[i + 1];
        }
      }
    }
  }

  /**
   * The texts the screen hands on have the legacy shape of a list of plain texts, the
   * shape `AppPreview.ConvertLegacy` turns into tasks: each becomes a task with that same
   * text, which is not empty and trimmed as the task screen's own add would have left it.
   */
  lemma HandedOnTextsConvert(list: seq<string>)
    requires forall i | 0 <= i < |list| :: IsStoredText(list[i])
    ensures var tasks := AppPreview.ConvertLegacy(list);
      && |tasks| == |list|
      && forall i | 0 <= i < |tasks| :: tasks[i].text == list[i] && IsStoredText(tasks[i].text)
  {
  }

  /**
   * `[...todoList]` followed by `splice(k, 1)`: copies the list into a fresh array and
   * closes the gap at `k` by moving every later element up one place.
   */
  method SpliceCopy(list: seq<string>, k: nat) returns (r: seq<string>)
    requires k < |list|
    ensures r == list[..k] + list[k + 1..]
  {
    var n := |list|;
    var copy := new string[n];
    forall i | 0 <= i < n {
      copy[i] := list[i];
    }
    var j := k;
    while j < n - 1
      invariant k <= j <= n - 1
      invariant forall i | 0 <= i < k :: copy[i] == list[i]
      invariant forall i | k <= i < j :: copy[i] == list[i + 1]
      invariant forall i | j <= i < n :: copy[i] == list[i]
    {
      copy[j] := copy[j + 1];
      j := j + 1;
    }
    r := copy[..n - 1];
    assert r == list[..k] + list[k + 1..];
  }

  class TodoInputScreen {
    var todoItem: string
    var todoList: seq<string>

    /** Every stored text is non-empty and trimmed. */
    predicate Valid()
      reads this
    {
      forall i | 0 <= i < |todoList| :: IsStoredText(todoList[i])
    }

    constructor ()
      ensures todoItem == "" && todoList == [] && Valid()
    {
      todoItem, todoList := "", [];
    }

    /** `addTodoItem`: on non-blank input the trimmed text is appended and the input cleared. */
    method AddTodoItem()
      requires Valid()
      modifies this
      ensures Valid()
      ensures todoList == AddText(old(todoList), old(todoItem))
      ensures todoItem == if IsBlank(old(todoItem)) then old(todoItem) else ""
    {
      var blank := IsBlank(todoItem);
      var r := AddText(todoList, todoItem);
      AddTextStores(todoList, todoItem);
      if !blank {
        todoList, todoItem := r, "";
      }
    }

    /**
     * `removeTodoItem(index)`: the list with the element at the splice position taken out,
     * built on a copy; the list it started from is never written.
     */
    method RemoveTodoItem(index: int)
      requires Valid()
      modifies this`todoList
      ensures Valid()
      ensures todoList == SpliceOne(old(todoList), index)
    {
      SpliceKeepsStored(todoList, index);
      var k := SpliceStart(|todoList|, index);
      if k < |todoList| {
        todoList := SpliceCopy(todoList, k);
      }
    }

    /** The generate button: shown only for a non-empty list, and it passes the texts themselves. */
    function GenerateParam(): (param: Option<seq<string>>)
      reads this
      ensures param.Some? <==> todoList != []
      ensures param.Some? ==> param.value == todoList
    {
      if |todoList| > 0 then Some(todoList) else None
    }
  }
}
