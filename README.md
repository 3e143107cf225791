# Smart Habit Tracker: a verified model of the habit list and its data file

The Smart Habit Tracker is a desktop application. Each habit is a card with a name, a circular
progress indicator in [0, 1], and its own increment step. The application keeps an ordered list
of cards and a default increment (10% at start). It writes the whole state to `habits.json`
after each change and reads it back at start-up.

This project models that core without the widgets:

- `wrappers.dfy` (`Wrappers`): `Option`, used for absent JSON fields and cancelled dialogs.
- `progress.dfy` (`Progress`): the clamp on the indicator (`CircularProgress.__init__`,
  `set_progress`), one press of the increment button, and Python's `int()` truncation used
  for the shown percentage.
- `text.dfy` (`Text`): Python's `str.strip()`, with the full set of characters
  `str.isspace()` accepts, and `str()` of an integer.
- `card.dfy` (`Card`): a `HabitCard` as a record `Habit(name, progress, increment, alive)`.
  `alive` says whether the card's widget still exists. The module holds the record after each
  card operation and the card's label text.
- `persistence.dfy` (`Persistence`): the data file as a value. `DataFile` is `Missing`,
  `Unreadable` (the file does not parse) or `Stored(doc)`. The module gives the document
  `save_habits` writes, the decoding `load_habits` applies, and the round trip between them.
- `tracker.dfy` (`Tracker`): `HabitTrackerApp` as the class `HabitTracker`. Its fields are
  `habitCards: seq<Habit>`, `progressIncrement` and `file`. Each operation is a method.
  A card operation takes the card's position in the list. Dialog answers (`input`,
  `confirm`, `resetOnError`) and the save time (`now`) are parameters.

`HabitTracker.Valid()` says that between operations every listed card has a live widget and a
progress in [0, 1]. Every method keeps it.

Behaviour of the code that the model keeps as it is:

- The program has no categories.
- `update_increment` does not clamp the new default, and gives it to every card
  (app.py:321-334).
- A whitespace-only rename is accepted and leaves an empty name (app.py:163-164).
- When there is no data file, the code APPENDS the three starter habits to the current list; it
  does not replace the list. The only caller is start-up, where the list is empty. So
  `LoadHabits` states the append, and the constructor states that exactly three habits result.
- A JSON boolean in `meta.progress_increment` counts as a number, because a Python `bool` is
  an `int`. `true` therefore sets the default to 1.0.

## Model

| member | source | states |
|---|---|---|
| `Progress.Clamp` | app.py:63-64 | the result is in [0, 1]; a value already in range is kept; below 0 gives 0, above 1 gives 1 |
| `Progress.Advanced` | app.py:150-152 | one press gives a progress in [0, 1]; full exactly when p + inc reaches 1; p + inc itself when that is in range; 0 when below; never lower than p for a non-negative step |
| `Progress.AdvancedTimesSum` | app.py:150-152 | with a non-negative step, repeated presses add the step once per press until the indicator is full, and a full indicator stays full |
| `Progress.AdvancedTimesClosedForm` | app.py:150-152 | with a non-negative step, n presses from p give min(1, p + n·inc) |
| `Progress.Truncate` | app.py:148 | Python `int()` truncation toward zero: the result is within 1 of x, on the zero side |
| `Progress.Percent` | app.py:148 | for progress in [0, 1], the shown percentage is floor(progress·100), lies in [0, 100], is 100 only when full, and is 0 only below 1% |
| `Text.Strip` | app.py:313 | `strip()` gives the infix that starts after the leading whitespace and is followed only by whitespace; it neither starts nor ends with whitespace, and it is empty exactly when the input is all whitespace |
| `Text.IsSpace` | app.py:313 | no contract: its body is the set of characters Python's `str.isspace()` accepts, which `strip()` removes (tab to carriage return, U+001C to space, U+0085, U+00A0, U+1680, U+2000 to U+200A, U+2028, U+2029, U+202F, U+205F, U+3000) |
| `Text.NatToString` | app.py:148 | `str()` of a natural number is a non-empty run of decimal digits with no leading zero except for 0 itself |
| `Text.IntToString` | app.py:148 | the rendered integer reads back, digit by digit, as the integer, with a minus sign when negative; the digits are non-empty and have no leading zero except for 0 itself |
| `Text.DecimalRoundTrip` | app.py:148 | reading back the digits of a natural number gives that number |
| `Card.NewCard` | app.py:110-118 | a new card keeps its name and increment, is alive, and has its starting progress clamped into [0, 1] |
| `Card.Increased` | app.py:150-152 | pressing the increment button moves only the progress, by the card's own step, capped at 1 and floored at 0 |
| `Card.Reset` | app.py:156-157 | resetting sets the progress to exactly 0 and changes nothing else |
| `Card.EditedName` | app.py:161-164 | a cancelled or empty answer keeps the name; any other answer becomes its stripped form, so a whitespace-only answer gives an empty name |
| `Card.PromptedName` | app.py:308-315 | nothing is added exactly when the answer is cancelled, empty or whitespace-only; otherwise the name is the stripped answer, which is non-empty and not padded |
| `Card.LabelText` | app.py:147-148 | the label reads back as the name, the caption "\nProgress: ", and the digits of the card's whole percentage (non-empty, no leading zero), followed by "%" |
| `Persistence.Live` | app.py:358-365 | the kept cards all have live widgets and are no more than the input |
| `Persistence.LiveCounts` | app.py:358-365 | pruning keeps every live card as often as it occurs and drops every dead one |
| `Persistence.LiveConcat` | app.py:358-365 | pruning preserves order: pruning a + b gives pruned a followed by pruned b |
| `Persistence.LiveSubset` | app.py:358-365 | every kept card was in the list |
| `Persistence.LiveAllAlive` | app.py:358-365 | a list whose widgets all exist is unchanged by pruning |
| `Persistence.ToDict` | app.py:182-187 | a card's record carries its name, progress and increment; a progress in [0, 1] is written as a value in [0, 1]; and decoding it with any default gives back the card whenever it is alive with progress in [0, 1] |
| `Persistence.Entries` | app.py:358-361 | one record per card, in list order, each the card's `to_dict()` |
| `Persistence.SavedDocument` | app.py:348-361 | the saved document carries the time and the default increment, which any loader reads back, and one record per live card in order |
| `Persistence.LoadedIncrement` | app.py:398-401 | a numeric (or boolean) `meta.progress_increment` replaces the default; a missing `meta`, a missing field or any other value keeps it |
| `Persistence.DecodeEntry` | app.py:415-423 | a loaded record gives a live card with progress in [0, 1]; a missing name is "Untitled", a missing progress 0, a missing increment the current default; a present progress is clamped |
| `Persistence.DecodeEntries` | app.py:415-423 | the loaded list has one card per record, in the records' order |
| `Persistence.EntryRoundTrip` | app.py:182-187 | decoding a card's `to_dict()` record gives back the card, whenever it is alive with progress in [0, 1] |
| `Persistence.SaveLoadRoundTrip` | app.py:346-365 | loading a saved document restores the default increment and exactly the live cards, in order, with their names, progress and increments |
| `Tracker.StarterHabits` | app.py:375-379 | the seed list is "Drink Water", "Exercise" and "Read", each alive at progress 0 with the given increment |
| `Tracker.HabitTracker.constructor` | app.py:199-219 | start-up with default 10%: with no file, or with an unreadable file the user agrees to discard, the list is exactly the three starter habits and is written out; if the user declines, the list is empty; a readable document is decoded |
| `Tracker.HabitTracker.Save` | app.py:346-365 | the file holds the default increment and one record per live card in order; the list becomes exactly the live cards in the same order |
| `Tracker.HabitTracker.SetIncrement` | app.py:178-180 | only that card's increment changes; nothing is saved |
| `Tracker.HabitTracker.AddHabitCard` | app.py:294-306 | appends exactly one new card at the end, with the default increment when none is given; saves only when asked |
| `Tracker.HabitTracker.AddHabitPrompt` | app.py:308-317 | a cancelled, empty or whitespace-only answer changes nothing; otherwise one card with the stripped name, progress 0 and the default increment is appended and saved |
| `Tracker.HabitTracker.IncreaseProgress` | app.py:150-154 | only that card's progress advances, then the file is rewritten |
| `Tracker.HabitTracker.ResetProgress` | app.py:156-159 | only that card's progress becomes 0, then the file is rewritten |
| `Tracker.HabitTracker.EditName` | app.py:161-166 | only that card's name changes, as `EditedName` says; the file is rewritten only when the answer was non-empty |
| `Tracker.HabitTracker.DeleteSelf` | app.py:168-176 | a confirmed delete removes exactly that card from the list and from the file, keeping the order of the rest; a declined one changes nothing |
| `Tracker.HabitTracker.UpdateIncrement` | app.py:321-334 | the default becomes value/100; every card takes it as its increment with name and progress unchanged; the file is rewritten |
| `Tracker.HabitTracker.ResetAllHabits` | app.py:336-343 | every card, in order, has progress 0 with name and increment unchanged; the file is rewritten |
| `Tracker.HabitTracker.OnClose` | app.py:430-432 | closing writes the current state to the file and changes nothing else |
| `Tracker.HabitTracker.LoadHabits` | app.py:373-423 | no file: the starter habits are appended and saved; unreadable and declined: nothing changes; unreadable and accepted: the file is removed and the no-file path runs; readable: the increment is read, and the list is replaced by the decoded records in order, without a save |
| `Tracker.CloseAndRestart` | app.py:430-432 | closing and starting again on the written file restores the same default increment and the same cards in the same order |

## Left out

- Drawing: the canvas ring, arc and text items of `CircularProgress.draw` / `update_draw`, and all
  layout, pages, sidebar, slider and appearance-mode code. They hold no state the model needs.
- The "+N%" caption of a card's increment button, set in `set_increment`, is not modelled. It is
  display only.
- The clock labels (`DateTimeDisplay` in `date_time.py` and the fallback in `app.py`) are timer
  and display code.
- Dialogs and message boxes: their answers are parameters; the information and error boxes are
  not modelled.
- File I/O: opening, writing, parsing, `os.path.exists` and `os.remove` are replaced by the
  `file` field. A failed write (which the code reports in a message box) is not modelled: every
  save succeeds. A failed `os.remove` is not modelled either; with it, the code would ask again.
- The save time `saved_at` is the parameter `now`, written as an opaque string and ignored on
  load.
- Some documents are not modelled. The loader raises an uncaught exception on each of these:
  a top level that is not an object; a `meta` that is not an object; a `habits` value that is
  `null` or a number; a record that is not an object; a `progress` or `increment` field that
  `float()` cannot convert (`null`, a list, an object, a non-numeric string).
- Record fields that `float()` converts are modelled only when they are JSON numbers. A boolean
  (`true` loads as 1.0) or a numeric string (`"0.5"`, `" 1e-1 "`) loads normally in the code,
  and the model's `Entry` cannot express it.
- A `habits` value that is an object or a string is not modelled. The loader iterates over it:
  `{}` and `""` load no cards, and a non-empty one raises.
- Record names are modelled as strings. A present `"name": null` stays `None` in the code and
  does not become "Untitled"; the model's absent name is a missing key only.
- Floating point: progress and increments are reals. Rounding in `p + inc`, `value / 100.0` and
  `progress * 100` is not modelled. Its visible effect: in the program, ten presses of the default
  +10% from 0 end at 0.9999999999999999, so the label reads "99%" and an eleventh press is needed
  to show "100%"; over the reals `Progress.AdvancedTimesClosedForm` gives 1.0 and
  `Progress.Percent` gives 100 after ten presses.
- The `except` fallback to 0.1 in `update_increment` is not modelled. The slider always passes a
  number.
- Widget identity: a card is identified by its position in the list. Destroying the old cards'
  widgets when a document is loaded has no effect once the list is cleared, so it is not modelled.
- Categories: no code in this program implements them.
