# Wallify list and wallpaper logic, in Dafny

Wallify turns a to-do list or a shopping list into a phone wallpaper. It has two shells.
The native app (`app/`, React Native) has a task screen, a grocery screen and two preview
screens that capture a widget and save it to a `Wallify` photo album. The web app
(`pages/`, Next.js) has a task screen, a grocery screen and a preview that renders a PNG
download. There is also a first-generation input screen (`screens/TodoInputScreen.js`)
that keeps plain texts.

This project models the logic of these screens:

- the list records and the whole-list updates of every handler: add, toggle, delete or
  remove, duplicate, edit, and the tag toggle;
- the form resets;
- the catalogue lookups with their fallbacks;
- the grouping of grocery items by category;
- the counts, progress figures, widget truncation and footer texts;
- the decoding of the list parameter, including the legacy conversion of a list of texts;
- the time picker's `HH:MM` codec;
- the native save flow: permission, capture, copy, asset, album, and pruning the album to
  its five newest assets.

Each screen is a `class` with one field per React state slot. Its handlers are methods, and
they are specified by pure functions over sequences. The JavaScript built-ins the handlers
rely on are written out in module `Text`: `trim`, `toString`, `padStart`, `parseInt` and
`split`/`join`. Platform services are parameters: the media library, the file system, the
view capture, `html2canvas`, the router, JSON and URI codecs, and the clock.

The native and web shells are kept apart wherever they differ:

- `checked` against `completed`;
- `normal`/`urgent` against `low`/`medium`/`high`;
- `Fruits & Vegetables` against `Fruits` as the default category;
- a grey fallback tag against no tag fallback at all.

Files, one module each:

- `basics.dfy`: `Option`;
- `text.dfy`: the string built-ins;
- `list_ops.dfy`: filter, map, find, slice, the tag toggle and grouping over a key function;
- `records.dfy`: the records and the shared list updates;
- `params.dfy`: route parameters and parse outcomes;
- `stats.dfy`: progress, `Math.round` and the "+k more" line;
- `save_flow.dfy`: the native save flow;
- `app_todo.dfy`, `app_grocery.dfy`, `app_preview.dfy`, `app_grocery_preview.dfy`,
  `web_todo.dfy`, `web_grocery.dfy`, `web_preview.dfy` and `todo_input.dfy`: one per screen.

## Model

| member | source | states |
|---|---|---|
| Text.TrimStart | app/todo.tsx:91 | the result is a suffix of the input, what it drops is all white space, and it does not start with white space |
| Text.Trim | app/todo.tsx:91-94 | the trimmed text neither starts nor ends with ECMAScript white space |
| Text.TrimIsInfix | screens/TodoInputScreen.js:17-18 | the trimmed text is a contiguous piece of the input with only white space before and after it |
| Text.TrimEmptyIffBlank | screens/TodoInputScreen.js:17 | the guard `x.trim()` is falsy exactly when the input is all white space |
| Text.TrimIdempotent | screens/TodoInputScreen.js:18 | trimming a trimmed text changes nothing |
| Text.DigitValue | app/todo.tsx:195 | every character has a digit value of at most 36, where 36 marks a non-digit |
| Text.NatToString | app/todo.tsx:185-186 | `toString` of a non-negative integer gives decimal digits without leading zeros whose value is the number; one digit below 10, two below 100 |
| Text.Pad2 | app/todo.tsx:185-186 | `padStart(2, '0')` gives two decimal digits for numbers below 100, with the number's value |
| Text.DigitPrefix | app/todo.tsx:195 | the digit run `parseInt` reads is the longest prefix of digits of the radix |
| Text.ParseMagnitudeOfRun | app/todo.tsx:195 | a decimal run followed by a non-digit reads as the run's value |
| Text.ParseIntUnsigned | app/todo.tsx:195 | behind no white space and no sign `parseInt` reads the magnitude |
| Text.ParseIntPlus | app/todo.tsx:195 | a leading `+` is skipped |
| Text.ParseIntOfRun | app/todo.tsx:195 | a decimal run followed by a non-digit reads as its value, with or without a `+` |
| Text.ParseIntOfPad2 | app/todo.tsx:185-195 | `parseInt` inverts `toString` and `padStart(2, '0')` |
| Text.ParseIntLeadingCount | app/preview.tsx:274 | the count at the start of a label such as `+3 more` is read back exactly |
| Text.Split | app/todo.tsx:193 | `split` always yields at least one piece |
| Text.JoinSplit | app/todo.tsx:193 | joining the pieces of a split with the separator gives back the input |
| Text.SplitWithoutSeparator | app/todo.tsx:193 | a text without the separator splits into itself alone |
| Text.SplitCons | app/todo.tsx:193 | a separator-free head followed by the separator splits off as the first piece |
| Text.SplitTwo | app/todo.tsx:193 | two separator-free halves around one separator split into exactly those two |
| Text.SplitJoin | app/todo.tsx:193 | separator-free words joined by the separator split back into those words |
| Text.DigitsAreNotSpace | app/grocery.tsx:278 | decimal digits are neither space, `:`, `/` nor `%` |
| Text.DigitPrefixStops | app/todo.tsx:195 | the digit run of digits followed by a non-digit is exactly those digits |
| ListOps.Count | app/todo.tsx:86 | `filter(p).length` is at most the length |
| ListOps.CountAppend | app/grocery-preview.tsx:110-111 | counting distributes over concatenation |
| ListOps.CountMonotone | app/grocery-preview.tsx:110-111 | a weaker predicate counts at least as many elements |
| ListOps.CountDisjoint | app/grocery-preview.tsx:110-111 | two exclusive predicates count at most the length together |
| ListOps.CountAll | app/grocery.tsx:76-78 | the count equals the length exactly when every element satisfies the predicate |
| ListOps.CountPositive | app/grocery-preview.tsx:269 | the count is positive exactly when some element satisfies the predicate |
| ListOps.CountKey | app/todo.tsx:167 | the number of elements with a key is at most the length |
| ListOps.RemoveKey | app/todo.tsx:167 | `filter(x => key(x) !== id)` keeps exactly the elements with another key, and the length drops by the number with that key |
| ListOps.RemoveKeyAppend | app/todo.tsx:167 | filtering distributes over concatenation |
| ListOps.RemoveKeyIsSubsequence | app/todo.tsx:167 | the kept elements stay in their original order |
| ListOps.RemoveAbsentKey | app/todo.tsx:167 | removing a key no element has changes nothing |
| ListOps.RemoveUniqueKey | app/todo.tsx:167 | an element whose key no other has is the only one removed |
| ListOps.UpdateKey | app/todo.tsx:172-174 | the map keeps the length and applies the update exactly at the elements with the key |
| ListOps.Take | app/preview.tsx:231 | `slice(0, k)` is the prefix of length `min(k, n)` |
| ListOps.ToggleMember | app/todo.tsx:201-207 | the tag's membership flips, every other value keeps its membership, an absent tag is appended and a present one is filtered out |
| ListOps.Find | app/todo.tsx:219 | `find` gives nothing exactly when no element matches, else the first matching element |
| ListOps.FindKey | app/grocery.tsx:178 | the lookup by name fails exactly when no entry has the name, else yields a matching entry, and the head when the head matches |
| ListOps.KeepKey | app/grocery.tsx:182-189 | a group is as long as the number of items with its key |
| ListOps.KeepKeyMembers | app/grocery.tsx:182-189 | a group holds exactly the items of its key |
| ListOps.KeepKeyAppend | app/grocery.tsx:182-189 | grouping distributes over concatenation |
| ListOps.KeepKeyIsSubsequence | app/grocery.tsx:187 | a group keeps list order |
| ListOps.FirstKeysMembers | app/grocery.tsx:184-186 | every key of the list gets a group, every group key occurs in the list, and no key is listed twice |
| ListOps.FirstKeysOrder | app/grocery.tsx:184-186 | the groups are created in order of first appearance |
| ListOps.GroupBy | app/grocery.tsx:182-189 | the in-place accumulation yields the keys in first-appearance order and, for each key, exactly its items in list order |
| Records.LevelName | app/todo.tsx:77 | a task priority is stored as `low`, `medium` or `high` |
| Records.LevelNameInjective | app/todo.tsx:224-226 | distinct priorities have distinct names |
| Records.ToggleTodoSpec | app/todo.tsx:171-175 | a toggle flips `completed` exactly on the tasks with the id and keeps everything else, length and order included |
| Records.ToggleTodoTwice | app/todo.tsx:171-175 | toggling the same id twice restores the list |
| Records.RemoveTodoSpec | app/todo.tsx:166-168 | deleting by id drops exactly the tasks with that id and keeps the rest in order; with a unique id the length drops by one |
| Records.RemoveUniqueTodo | app/todo.tsx:166-168 | a task whose id appears once is the only one deleted |
| Records.DuplicateTodo | app/todo.tsx:157-164 | the copy is the original with a new id and ` (Copy)` appended to its text |
| Records.AddTodo | app/todo.tsx:90-105 | blank text leaves the list alone; otherwise exactly one open task with the trimmed text and the form's time, tags, priority and emoji is appended |
| Records.AddTodoTextTrimmed | app/todo.tsx:94 | the appended text is not empty and is already trimmed |
| Records.RemoveLastTodo | app/todo.tsx:166-168 | deleting a just-appended task with a fresh id gives back the list |
| Records.AddTodoThenRemove | app/todo.tsx:90-105 | with a fresh id, an add followed by a delete of that id is the identity |
| Records.EditThenSaveTodo | app/todo.tsx:147-155 | edit then save re-appends the task at the end under the new id, open, with its emoji made explicit; the other tasks keep their order |
| Records.ToggleTodoCount | app/todo.tsx:86 | with a unique id a toggle moves the completed count by exactly one |
| Records.ToggleGrocerySpec | app/grocery.tsx:162-166 | a toggle flips `checked` exactly on the items with the id and keeps everything else |
| Records.ToggleGroceryTwice | app/grocery.tsx:162-166 | toggling twice restores the list |
| Records.RemoveGrocerySpec | app/grocery.tsx:157-159 | deleting by id drops exactly the items with that id and keeps the rest in order |
| Records.DuplicateGrocery | app/grocery.tsx:148-155 | the copy is the original with a new id and ` (Copy)` appended to its name |
| Records.AddGrocery | app/grocery.tsx:81-96 | a blank name leaves the list alone; otherwise one unchecked item with the trimmed name is appended, its notes trimmed or absent when blank |
| Records.EditThenSaveGrocery | app/grocery.tsx:138-146 | edit then save re-appends the item at the end under the new id, unchecked, with its notes intact |
| Records.ToggleWebGrocerySpec | pages/grocery.tsx:92-96 | a toggle flips `completed` exactly on the items with the id and keeps everything else |
| Records.RemoveWebGrocerySpec | pages/grocery.tsx:101-103 | removing by id drops exactly the items with that id and keeps the rest in order |
| Records.AddWebGrocery | pages/grocery.tsx:60-75 | a blank name leaves the list alone; otherwise one open item with the trimmed, non-empty name and the form's quantity, category, priority and emoji is appended |
| Params.ParamText | app/preview.tsx:67 | only a non-empty single string parameter is read |
| Params.ReadList | app/preview.tsx:67-71 | a list is taken exactly when the parameter is read and parses to an array, and it is that array |
| Params.ReadListOfStringified | app/grocery-preview.tsx:81-90 | the parameter holding the JSON text of the list app/grocery.tsx:172 sends is read back as that list |
| Stats.Progress | app/todo.tsx:87 | the progress is 0 for an empty or untouched list, 100 when everything is done, and in 0..100 |
| Stats.Round | app/grocery.tsx:334 | `Math.round` gives the integer within half a point below and less than half above |
| Stats.AtLeastOne | app/grocery-preview.tsx:348 | `Math.max(total, 1)` is at least 1 and equals a positive total |
| Stats.RoundOfInteger | app/grocery.tsx:334 | rounding an integer gives that integer |
| Stats.RoundedPercentBounds | app/grocery-preview.tsx:348 | the rounded percentage is in 0..100, 0 for an empty or untouched list, 100 when everything is checked, and within half a point of the exact share |
| Stats.RoundedPercentExamples | app/grocery-preview.tsx:348 | two of six shows 33, one of eight shows 13, and an empty list shows 0 |
| Stats.MoreIndicator | app/preview.tsx:271-277 | the "+k more" line appears exactly when the list is longer than the widget |
| Stats.MoreIndicatorCount | app/preview.tsx:274 | the number in the line is exactly the count of entries left off |
| SaveFlow.InsertByTimeContents | app/preview.tsx:157-160 | inserting into the listing adds exactly that asset |
| SaveFlow.InsertByTimeNewestFirst | app/preview.tsx:157-160 | inserting keeps the listing newest first |
| SaveFlow.ListingSpec | app/preview.tsx:157-160 | the listing holds exactly the album's assets, sorted newest first |
| SaveFlow.Doomed | app/preview.tsx:162-163 | nothing is doomed while the listing has at most five assets; otherwise the doomed assets are everything after the first five |
| SaveFlow.DeleteCalls | app/preview.tsx:165-167 | one deletion call per doomed asset, in order |
| SaveFlow.FailingDelete | app/preview.tsx:165-167 | the first deletion that throws, if any; all before it go through |
| SaveFlow.SaveAndApplyWallpaper | app/preview.tsx:135-188 | the awaited chain of calls produces the outcome of the specified run |
| SaveFlow.AddAndPrune | app/preview.tsx:154-168 | the album branch adds the asset, lists the album and prunes it as the specified run says |
| SaveFlow.DeleteOneByOne | app/preview.tsx:165-167 | the loop stops at the first deletion that throws, and the album has lost exactly the assets deleted before it |
| SaveFlow.PermissionDenied | app/preview.tsx:177-183 | without access nothing is captured or stored and the permission alert shows |
| SaveFlow.PruneAlerts | app/preview.tsx:154-168 | in the album branch the error alert comes exactly from a call that threw, which is the last call |
| SaveFlow.FailureAlerts | app/preview.tsx:184-187 | a call that throws ends the run with the error alert, without the saved flag, and as the last call |
| SaveFlow.SavedIffNoFailure | app/preview.tsx:171 | `imageSaved` is set exactly when access is granted, the view is mounted and no call throws |
| SaveFlow.SplitAtAsset | app/preview.tsx:166 | an asset of an album with unique ids splits it into parts without that id |
| SaveFlow.UniqueIdsWithout | app/preview.tsx:166 | removing one asset keeps ids unique |
| SaveFlow.RemoveOneAsset | app/preview.tsx:166 | with unique ids, deleting an asset takes out that asset alone |
| SaveFlow.RemoveAllContents | app/preview.tsx:165-167 | deleting assets of the album takes out exactly those assets |
| SaveFlow.PruneLeavesKept | app/preview.tsx:162-167 | deleting the doomed assets leaves exactly the first five of the listing, or all of them |
| SaveFlow.KeptAreNewest | app/preview.tsx:157-163 | every kept asset is at least as new as every deleted one |
| SaveFlow.PruneKeepsNewest | app/preview.tsx:154-171 | with no failure the run is saved and the album ends with the five newest of its assets, the new one counted, or all of them while there are at most five |
| SaveFlow.NewAlbum | app/preview.tsx:151-153 | without an album one is created holding just the new asset, and nothing is deleted |
| AppTodo.GetTagInfo | app/todo.tsx:218-221 | the tag of that name, or a grey fallback carrying the name; it never fails |
| AppTodo.GetPriorityInfo | app/todo.tsx:224-226 | the entry of the level for `low`/`medium`/`high`, and the `medium` entry for anything else |
| AppTodo.PriorityInfoOfLevel | app/todo.tsx:47-51 | every priority a task can hold finds its own entry |
| AppTodo.FormatTime | app/todo.tsx:185-187 | a time of day is formatted as five characters with `:` in the middle |
| AppTodo.FormatTimeDigits | app/todo.tsx:185-187 | for hours below 24 and minutes below 60 the text is `HH:MM`, zero-padded |
| AppTodo.ParseTimeOfParts | app/todo.tsx:193-195 | two colon-free halves are read as hours and minutes by `setHours` |
| AppTodo.ParseTimeOfNumbers | app/todo.tsx:193-195 | two numeric halves give the time `setHours` makes of them |
| AppTodo.MinuteOfDayParts | app/todo.tsx:195 | hours and minutes of a time of day put back together give that time |
| AppTodo.ParseIntNaN | app/todo.tsx:195 | the text `NaN` is read as not a number |
| AppTodo.ParsePaddedTime | app/todo.tsx:193-195 | two padded numbers around `:` read back as those hours and minutes |
| AppTodo.ParseFormatValid | app/todo.tsx:185-195 | reading the stored text of a valid time gives that time back |
| AppTodo.ParseFormatInvalid | app/todo.tsx:185-195 | reading the stored text of an invalid date gives an invalid date |
| AppTodo.ParseFormatTime | app/todo.tsx:185-195 | opening the picker restores exactly the date it last stored |
| AppTodo.FormatParseTime | app/todo.tsx:185-195 | an `HH:MM` text with hours below 24 and minutes below 60 survives parse and format |
| AppTodo.TodoScreen.constructor | app/todo.tsx:73-81 | the initial state slots |
| AppTodo.TodoScreen.CompletedCount | app/todo.tsx:86 | the completed count is at most the length |
| AppTodo.TodoScreen.ProgressPercentage | app/todo.tsx:87 | 0 for an empty list, else the completed share in percent, in 0..100 |
| AppTodo.TodoScreen.ResetForm | app/todo.tsx:107-114 | text, tags, priority and emoji are reset and modal and picker close; the list and the time stay |
| AppTodo.TodoScreen.AddTodoItem | app/todo.tsx:90-105 | the list is updated by the add, and the form is reset exactly when the text is not blank |
| AppTodo.TodoScreen.EditTodoItem | app/todo.tsx:147-155 | the task is loaded into the form, dropped from the list, and the modal opens |
| AppTodo.TodoScreen.DuplicateTodoItem | app/todo.tsx:157-164 | the copy is appended and the original stays |
| AppTodo.TodoScreen.DeleteTodoItem | app/todo.tsx:166-168 | the list loses the tasks with the id |
| AppTodo.TodoScreen.ToggleTodoCompletion | app/todo.tsx:171-175 | the list is toggled at the id |
| AppTodo.TodoScreen.HandleTimeChange | app/todo.tsx:178-189 | Android closes the picker; a delivered date is stored and its `HH:MM` text selected; no date changes nothing else |
| AppTodo.TodoScreen.OpenTimePicker | app/todo.tsx:191-198 | the picker starts from the parsed selected time and opens |
| AppTodo.TodoScreen.ToggleTag | app/todo.tsx:201-207 | the tag's membership flips |
| AppTodo.TodoScreen.NavigateToPreview | app/todo.tsx:210-215 | the preview parameter is the list's JSON text |
| AppGrocery.GetCategoryInfo | app/grocery.tsx:177-179 | the entry of that name, or the first entry for an unknown name; it never fails |
| AppGrocery.DefaultCategoryIsFallback | app/grocery.tsx:32-43 | the fallback entry is the default category's own entry |
| AppGrocery.UnknownCategoryIsDefault | app/grocery.tsx:177-179 | an unknown category is drawn like `Fruits & Vegetables` |
| AppGrocery.GroupingIsPartition | app/grocery.tsx:182-189 | every item lies in its category's group, a group holds only that category's items in list order, and its size is their number |
| AppGrocery.AbsentCategoryHasNoGroup | app/grocery.tsx:184-186 | a category absent from the list has an empty group |
| AppGrocery.CategoryBadgeReadsBack | app/grocery.tsx:268-278 | the badge reads as checked count, slash, group size, the first at most the second |
| AppGrocery.GroceryScreen.constructor | app/grocery.tsx:65-71 | the initial state slots |
| AppGrocery.GroceryScreen.CheckedCount | app/grocery.tsx:76 | the checked count is at most the length |
| AppGrocery.GroceryScreen.ProgressPercentage | app/grocery.tsx:78 | 0 for an empty list, else the checked share in percent, in 0..100 |
| AppGrocery.GroceryScreen.CollectedPercent | app/grocery.tsx:334 | the shown figure is in 0..100, within half a point of the progress, 100 when all is checked and 0 when nothing is |
| AppGrocery.GroceryScreen.ResetForm | app/grocery.tsx:98-105 | quantity `1`, category `Fruits & Vegetables`, priority `normal`, empty name and notes, modal closed; the list stays |
| AppGrocery.GroceryScreen.AddGroceryItem | app/grocery.tsx:81-96 | the list is updated by the add, and the form is reset exactly when the name is not blank |
| AppGrocery.GroceryScreen.EditGroceryItem | app/grocery.tsx:138-146 | the item is loaded into the form, dropped from the list, and the modal opens |
| AppGrocery.GroceryScreen.DuplicateGroceryItem | app/grocery.tsx:148-155 | the copy is appended and the original stays |
| AppGrocery.GroceryScreen.DeleteGroceryItem | app/grocery.tsx:157-159 | the list loses the items with the id |
| AppGrocery.GroceryScreen.ToggleItemCompletion | app/grocery.tsx:162-166 | the list is toggled at the id |
| AppGrocery.GroceryScreen.NavigateToPreview | app/grocery.tsx:169-174 | the preview parameter is the list's JSON text |
| AppGrocery.GroceryScreen.GroupedItems | app/grocery.tsx:182-189 | the groups by category, in first-appearance order, each in list order |
| AppPreview.ConvertLegacy | app/preview.tsx:74-82 | the conversion keeps the length and converts each text at its own position |
| AppPreview.ConvertLegacySpec | app/preview.tsx:74-82 | task `i` has id `i`, the same text, is open, untagged, medium and without emoji, and the ids are distinct |
| AppPreview.LegacyTimeHours | app/preview.tsx:77 | task `i` is due at hour `8 + i` on the hour, unwrapped |
| AppPreview.DecodeTodoParam | app/preview.tsx:66-93 | a list is taken exactly when the parameter is read and is an array; an array of texts is converted and any other array is used as it is |
| AppPreview.MoreTasks | app/preview.tsx:271-277 | `+(n-4) more tasks` appears exactly when there are more than four tasks and reads back as `n - 4` |
| AppPreview.WidgetCoversList | app/preview.tsx:231-277 | the shown prefix of at most four tasks and the "+k more" count account for every task |
| AppPreview.FooterReadsBack | app/preview.tsx:283-286 | the footer starts with the task count, says `task` exactly for one task, and shows the completed count exactly when it is positive |
| AppPreview.FooterWordsFacts | app/preview.tsx:283-286 | the footer's words one by one, none holding a space |
| AppPreview.PreviewScreen.constructor | app/preview.tsx:41-42 | an empty list, not saved |
| AppPreview.TaskParamRoundTrip | app/preview.tsx:66-93 | the JSON text of the task list app/todo.tsx:213 sends is read back as that list |
| AppPreview.PreviewScreen.LoadParam | app/preview.tsx:66-93 | a decoded list replaces the current one; otherwise the list stays |
| AppPreview.PreviewScreen.SaveAndApplyWallpaper | app/preview.tsx:135-188 | the run's outcome, and `imageSaved` set only when it went through |
| AppGroceryPreview.GetCategoryInfo | app/grocery-preview.tsx:104-106 | the entry of that name, or the first entry for an unknown name |
| AppGroceryPreview.LoadAsWritten | app/grocery-preview.tsx:81-90 | as written, any parsed value is stored, an array or not |
| AppGroceryPreview.ObjectPayloadBreaksList | app/grocery-preview.tsx:84-85 | the parameter `{}` replaces the list with a non-list |
| AppGroceryPreview.LoadGroceryParam | app/grocery-preview.tsx:81-90 | with the array check, the list becomes the parsed array or stays |
| AppGroceryPreview.CorrectedLoadAgrees | app/grocery-preview.tsx:81-90 | the corrected reading agrees with the code on every payload but a non-array one, which it ignores |
| AppGroceryPreview.ShoppingStats | app/grocery-preview.tsx:109-111 | the urgent count is at most the items left, 0 when all is checked, and positive exactly when some item shows the marker |
| AppGroceryPreview.CollectedPercent | app/grocery-preview.tsx:348 | the figure is at most 100 and is the rounded percentage |
| AppGroceryPreview.CollectedPercentSpec | app/grocery-preview.tsx:348 | 0 when empty or nothing checked, 100 when all is checked, within half a point of the exact share |
| AppGroceryPreview.FooterReadsBack | app/grocery-preview.tsx:348-349 | the footer opens with the percentage and shows the urgent count exactly when it is positive |
| AppGroceryPreview.FooterWordsFacts | app/grocery-preview.tsx:348-349 | the footer's words one by one, none holding a space |
| AppGroceryPreview.MoreItems | app/grocery-preview.tsx:336-342 | `+(n-4) more items` appears exactly when there are more than four items and reads back as `n - 4` |
| AppGroceryPreview.WidgetCoversList | app/grocery-preview.tsx:284-342 | the shown prefix and the count cover the list, and the shown urgent markers are at most the urgent stat |
| AppGroceryPreview.ShouldEnableScroll | app/grocery-preview.tsx:198 | scrolling is on exactly for more than two items |
| AppGroceryPreview.GroceryPreviewScreen.constructor | app/grocery-preview.tsx:56-57 | an empty list, not saved |
| AppGroceryPreview.GroceryPreviewScreen.LoadParam | app/grocery-preview.tsx:81-90 | the list after the corrected reading |
| AppGroceryPreview.GroceryPreviewScreen.SaveAndApplyWallpaper | app/grocery-preview.tsx:142-195 | the run's outcome under `wallify-grocery.png`, and `imageSaved` set only when it went through |
| WebTodo.GetPriorityColor | pages/todo.tsx:139-142 | the colour of the level of that name, or `#8E8E93` when there is none |
| WebTodo.PriorityColorOfLevel | pages/todo.tsx:139-142 | every task priority gets its entry's colour, the same as the native lookup |
| WebTodo.UnknownPriorityColor | pages/todo.tsx:139-142 | the grey fallback is the `low` colour |
| WebTodo.TagChipOf | pages/todo.tsx:241-251 | a known tag gets its colour and emoji; an unknown one renders `undefined20`, no colour and no emoji |
| WebTodo.TagChipAgreesWithNative | pages/todo.tsx:241-251 | a known tag looks the same as on the native screen; an unknown tag gets the native grey fallback there and no colour here |
| WebTodo.TagNamesUnique | pages/todo.tsx:16-23 | the predefined tag names are distinct |
| WebTodo.WebTodoScreen.constructor | pages/todo.tsx:56-62 | the initial state slots |
| WebTodo.WebTodoScreen.CompletedCount | pages/todo.tsx:67 | the completed count is at most the length |
| WebTodo.WebTodoScreen.ProgressPercentage | pages/todo.tsx:68 | 0 for an empty list, else the completed share in percent, in 0..100 |
| WebTodo.WebTodoScreen.ResetForm | pages/todo.tsx:93-99 | text, tags and emoji are cleared, priority `medium`, modal closed; list and time stay |
| WebTodo.WebTodoScreen.AddTodoItem | pages/todo.tsx:73-88 | the list is updated by the add, and the form is reset exactly when the text is not blank |
| WebTodo.WebTodoScreen.ToggleTodoCompletion | pages/todo.tsx:104-108 | the list is toggled at the id |
| WebTodo.WebTodoScreen.RemoveTodoItem | pages/todo.tsx:113-115 | the list loses the tasks with the id |
| WebTodo.WebTodoScreen.ToggleTag | pages/todo.tsx:120-126 | the tag's membership flips |
| WebTodo.WebTodoScreen.NavigateToPreview | pages/todo.tsx:131-134 | the URL carries the URI-encoded JSON text of the list as `todoList` |
| WebGrocery.GetCategoryInfo | pages/grocery.tsx:124-126 | the entry of that name, or `Fruits` for an unknown name |
| WebGrocery.DefaultCategoryIsFallback | pages/grocery.tsx:16-27 | the fallback entry is the default category's own entry |
| WebGrocery.PriorityChip | pages/grocery.tsx:242-243 | the chip's text colour is the level's colour and its background that colour with `20` appended |
| WebGrocery.WebGroceryScreen.constructor | pages/grocery.tsx:44-50 | the initial state slots |
| WebGrocery.WebGroceryScreen.CompletedCount | pages/grocery.tsx:54 | the completed count is at most the length |
| WebGrocery.WebGroceryScreen.ProgressPercentage | pages/grocery.tsx:55 | 0 for an empty list, else the completed share in percent, in 0..100 |
| WebGrocery.WebGroceryScreen.ResetForm | pages/grocery.tsx:80-87 | quantity `1`, category `Fruits`, priority `medium`, empty name and emoji, modal closed; the list stays |
| WebGrocery.WebGroceryScreen.AddGroceryItem | pages/grocery.tsx:60-75 | the list is updated by the add, and the form is reset exactly when the name is not blank |
| WebGrocery.WebGroceryScreen.ToggleGroceryCompletion | pages/grocery.tsx:92-96 | the list is toggled at the id |
| WebGrocery.WebGroceryScreen.RemoveGroceryItem | pages/grocery.tsx:101-103 | the list loses the items with the id |
| WebGrocery.WebGroceryScreen.NavigateToPreview | pages/grocery.tsx:108-111 | the URL carries the URI-encoded JSON text of the list as `groceryList` |
| WebGrocery.WebGroceryScreen.GroupedGroceries | pages/grocery.tsx:131-137 | every item in exactly its category's group, groups in list order and holding only their category's items |
| WebPreview.StoreAsWritten | pages/preview.tsx:85-103 | as written, any value that decodes a second time and parses is stored, an array or not |
| WebPreview.ShownAsWritten | pages/preview.tsx:85-103 | as written, every stored value selects its list for display, the grocery one winning |
| WebPreview.ObjectQueryBreaksList | pages/preview.tsx:87-89 | the query `?todoList=%7B%7D`, handed over as `{}`, stores a non-list and selects it for display |
| WebPreview.ReadQueryList | pages/preview.tsx:85-103 | with the array check but the second decode kept, a list exactly when the value is read, decodes again and is an array |
| WebPreview.CorrectedQueryAgrees | pages/preview.tsx:85-103 | the corrected reading agrees with the code wherever the code stores a list, and ignores what it would store as a non-list |
| WebPreview.PercentTextIsLost | pages/preview.tsx:87 | as written, a JSON text holding a `%` that opens no escape is not read at all |
| WebPreview.FiftyPercentOffIsLost | pages/preview.tsx:87 | as written, a task list holding the task `50% off` is not read |
| WebPreview.SingleDecodeAgrees | pages/preview.tsx:85-103 | reading the router's value once agrees with the double decode on every text without `%` |
| WebPreview.QueryRoundTrip | pages/preview.tsx:85-103 | the URI-encoded JSON text pages/todo.tsx:132 puts into the URL, once the router has decoded it, is read back as the list |
| WebPreview.CountLineReadsBack | pages/preview.tsx:241 | the count line reads as the completed count, a slash, and the length |
| WebPreview.MoreItems | pages/preview.tsx:298-304 | `+(n-8) more items` appears exactly when there are more than eight items and reads back as `n - 8` |
| WebPreview.WebPreviewScreen.constructor | pages/preview.tsx:73-76 | empty lists, the task list shown, not generating |
| WebPreview.WebPreviewScreen.LoadQuery | pages/preview.tsx:82-104 | after the corrected reading (array check, no second decode), each list read replaces its list; the grocery list, read second, decides `listType` when both are read; an unread one changes nothing |
| WebPreview.WebPreviewScreen.CompletedCount | pages/preview.tsx:107 | the completed count over the shown list, at most its length |
| WebPreview.WebPreviewScreen.ProgressPercentage | pages/preview.tsx:108 | 0 for an empty shown list, else the completed share in percent, 100 when all is done, in 0..100 |
| WebPreview.WebPreviewScreen.GenerateWallpaper | pages/preview.tsx:113-147 | returns early without the element; otherwise busy while rendering, a download `wallify-<type>-<now>.png` or an alert, and never busy afterwards |
| TodoInput.AddText | screens/TodoInputScreen.js:16-21 | blank input leaves the list; otherwise the trimmed text is appended |
| TodoInput.AddTextStores | screens/TodoInputScreen.js:18 | every stored text is non-empty and trimmed after an add |
| TodoInput.TrimmedIsStored | screens/TodoInputScreen.js:18 | the trim of a non-blank input is non-empty and trimmed |
| TodoInput.AppendStored | screens/TodoInputScreen.js:18 | appending a stored text keeps all texts stored |
| TodoInput.SpliceStart | screens/TodoInputScreen.js:25 | where `splice` starts: the index inside the list, the length past it, counted from the end when negative |
| TodoInput.SpliceOneSpec | screens/TodoInputScreen.js:23-27 | for an index inside the list exactly that element goes and the rest keep their order; past the end nothing goes; a negative index counts from the end |
| TodoInput.SpliceKeepsStored | screens/TodoInputScreen.js:23-27 | removing keeps every text stored |
| TodoInput.HandedOnTextsConvert | app/preview.tsx:72-83 | the texts the input screen hands on have the legacy shape this conversion turns into tasks, one task per text with that text |
| TodoInput.SpliceCopy | screens/TodoInputScreen.js:24-25 | the copy with the element at the position taken out |
| TodoInput.TodoInputScreen.constructor | screens/TodoInputScreen.js:13-14 | empty input and list |
| TodoInput.TodoInputScreen.AddTodoItem | screens/TodoInputScreen.js:16-21 | the list after the add, and the input cleared exactly when it was not blank |
| TodoInput.TodoInputScreen.RemoveTodoItem | screens/TodoInputScreen.js:23-27 | the list after `splice(index, 1)`, built on a copy |
| TodoInput.TodoInputScreen.GenerateParam | screens/TodoInputScreen.js:59-66 | the button exists exactly for a non-empty list and passes those texts |

## Left out

- Rendering, layout, styles, animations, gradients, the backgrounds and the date headers: presentation only.
- The action-sheet dispatchers `showTodoOptions` and `showItemOptions`: they only call the edit, duplicate and delete handlers, which are modelled.
- The media library, file system, view capture, `html2canvas`, `Alert`, `Linking` and the router are not executed. Their answers are the fields of `SaveFlow.SavePlatform`, or parameters of the methods.
- `JSON.parse`, `JSON.stringify`, `encodeURIComponent` and `decodeURIComponent` are function parameters. What a parse yields is reduced to `Params.Parsed` or `AppPreview.TodoPayload`. The round trips are lemmas whose hypotheses are that the parser reads the stringified list back and, on the web, that the router's decoding undoes `encodeURIComponent`. `decodeURIComponent` is constrained only where a lemma needs it: it rejects a `%` that opens no escape and keeps a text without `%`.
- WebPreview.WebPreviewScreen.LoadQuery: follows the corrected reading. The code as written, which decodes the router's value a second time, stores a parsed non-array and selects it for display, is `WebPreview.StoreAsWritten` and `WebPreview.ShownAsWritten`; the screen's state never holds a non-list.
- AppGroceryPreview.GroceryPreviewScreen.LoadParam: follows the corrected reading. The code as written, which stores a parsed non-array, is `AppGroceryPreview.LoadAsWritten`; the screen's state never holds a non-list.
- An array whose first element is a string but whose later elements are records counts as legacy in the source. The model's `TodoPayload` has homogeneous arrays only.
- The ids taken from `Date.now()` and the `now` of the web download name are parameters. Their uniqueness is a hypothesis of the lemmas that need it, because two adds in one millisecond collide.
- `Math.round` and the progress figures are computed on exact rationals. Double rounding at ties can differ.
- `totalCost` and its `toFixed(0)` (app/grocery.tsx:77): mock floating-point arithmetic.
- SaveFlow.Listing: the page size of `getAssetsAsync` is not modelled. The order of assets with equal creation times is the model's own stable order.
- The key order of `Object.keys` for integer-like category names is not modelled. The groups come in order of first appearance.
- AppTodo.SetHours: daylight-saving gaps and other-day carries are not modelled. A date is a minute of the day, or invalid.
- The 500 ms timer before the shortcut, the shortcut URL itself, and concurrent taps before `imageSaved` is set: timing and concurrency.
- screens/ImagePreviewScreen.js is not part of this model. app/welcome.tsx, pages/welcome.tsx, the index pages and the layout files only navigate or show static data.
- Text.TrimStart: `trimEnd` is not modelled on its own. `Trim` is defined over both ends directly.

## Findings

| source | as written | input that shows it | evidently intended | confidence | as-written member | corrected member |
|---|---|---|---|---|---|---|
| app/grocery-preview.tsx:81-90 | any value `JSON.parse` returns is stored as the grocery list, with no `Array.isArray` check, unlike app/preview.tsx:71 | the route parameter `{}`; the stats then call `filter` on an object | store only arrays; leave the list as it was otherwise | not executed | AppGroceryPreview.LoadAsWritten, AppGroceryPreview.ObjectPayloadBreaksList | AppGroceryPreview.LoadGroceryParam, AppGroceryPreview.CorrectedLoadAgrees |
| pages/preview.tsx:85-103 | any decoded and parsed query value is stored as the task or grocery list and selects it for display | the query `?todoList=%7B%7D`; `currentList.filter` then fails | store and show only arrays | not executed | WebPreview.StoreAsWritten, WebPreview.ShownAsWritten, WebPreview.ObjectQueryBreaksList | WebPreview.ReadQueryList, WebPreview.CorrectedQueryAgrees |
| pages/preview.tsx:87 | `decodeURIComponent` is applied to a `router.query` value the router has already decoded (also at line 97) | a task `50% off`: the query value arrives as JSON text holding `% o`, the second decode throws and the list is not read | take the router's value as the JSON text | not executed | WebPreview.ReadQueryList, WebPreview.PercentTextIsLost, WebPreview.FiftyPercentOffIsLost | Params.ReadList, WebPreview.QueryRoundTrip, WebPreview.SingleDecodeAgrees |
