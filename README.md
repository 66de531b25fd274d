# Task Master core, modelled in Dafny

Task Master is a single-page task tracker. The page component (`app/page.tsx`)
owns one piece of state, the task collection: three ordered lists of tasks
keyed `daily`, `weekly` and `yearly`. It offers three transitions on that
collection: `addTodo`, `toggleTodo` and `deleteTodo`. A reminder scan is
meant to raise a toast for each pending task whose reminder has passed. It
runs on a 60-second interval that is cleared and restarted whenever the
collection changes, so the first scan comes a minute after the last change.
As written, the scan throws at the first due task instead (see Findings).
The input form (`app/components/TodoInput.tsx`) keeps eight fields and turns them
into one `addTodo` call when submitted. It also keeps the repeat-day
checkboxes and the type selector.

This project models that core and proves properties of it:

- `types.dfy`: module `TodoTypes`. Tasks, the collection, dates and toast
  events. The source's field `type` is called `kind` here, because `type`
  is a Dafny keyword.
- `seqs.dfy`: module `Seqs`. JavaScript's `Array.prototype.filter` and the
  facts about it that the transitions rely on.
- `page_store.dfy`: module `TodoCollection`.
  - The three transitions as pure functions `Added`, `Toggled` and `Deleted`.
  - The `setTodos` updater callbacks `ToggleNext` and `DeleteNext`, which
    loop over the keys as the source's `forEach` does.
  - The component state as the class `TodoStore`.
  - Lemmas about partitioning, order, involution, counts and id uniqueness.
- `page_reminders.dfy`: module `Reminders`. One scan at a given `now`.
  - The loop `CheckReminders`, proved equal to the selection function `Notifications`.
  - The scan as the source writes it (see Findings).
- `todo_input.dfy`: module `TodoInputForm`.
  - JavaScript `trim`, `split(':')` and `Number`.
  - Combining the reminder date with the time of day.
  - The submit rule `SubmitRequest`.
  - The checkbox rule and the class `TodoForm` with the eight fields and their handlers.
- `app.dfy`: module `TaskMaster`. The page's `<TodoInput onAdd={addTodo} />`
  wiring, and one end-to-end scenario.

Dates are modelled as a day number, the minute of that day, and the
milliseconds within that minute. Timestamps are integers in milliseconds.
The reminder scan's `now` is a parameter. The id that `addTodo` draws at
random is a parameter too.

The model follows the code, including where it departs from what a reader of
the interface might expect:

- Days selected while the type is `daily` are kept after the type changes.
  They are passed with a weekly or yearly task as well. Submission checks
  only that the list is non-empty (`SubmitRequest`, `TodoForm.Submit`).
- The toast style has three levels: very important, important, and
  everything else. It does not split into urgent versus standard.
- The title passed to `onAdd` is the raw title. Only the emptiness check
  trims it.
- In the initial form state the type is `daily` but the repeat-day panel is
  hidden. It appears only after the type selector is used.
- `page.tsx` imports a `TodoList` type that `app/types/index.ts` does not
  export. This is a type-only import with no effect at run time. The shape
  of the collection is taken from its initial value at `app/page.tsx:11-15`.

## Model

| member | source | states |
|---|---|---|
| `TodoTypes.Timestamp` | app/page.tsx:33 | the instant of a date lies within its own day |
| `TodoTypes.TimestampOrder` | app/page.tsx:33 | comparing reminder instants is the lexicographic order on (day, minute, millis), and equal instants mean equal dates |
| `TodoTypes.TodoList.With` | app/page.tsx:71-74 | `{ ...prev, [key]: s }` replaces the list under `key` and leaves the other two lists as they were |
| `Seqs.Filter` | app/page.tsx:99-101 | `filter` keeps exactly the elements that satisfy the predicate: every result element is an accepted input element, every accepted input element is in the result, and the list never grows |
| `Seqs.FilterIsSubsequence` | app/page.tsx:99-101 | filtering keeps the survivors in their original relative order |
| `Seqs.FilterCount` | app/page.tsx:99-101 | filtering keeps every copy of an accepted element and no copy of a rejected one |
| `Seqs.FilterConcat` | app/page.tsx:32 | filtering a concatenation filters each part separately |
| `Seqs.FilterKeepsAll` | app/page.tsx:99-101 | a filter that rejects nothing returns its input unchanged |
| `TodoCollection.Added` | app/page.tsx:60-74 | `addTodo` appends exactly one task at the end of the list its type names. That task has completed = false and the given id, title, due date, reminder, type, priority and repeat days. The other two lists are unchanged |
| `TodoCollection.Flip` | app/page.tsx:88 | a task with the id has `completed` negated; every other field, and every task with another id, is unchanged |
| `TodoCollection.ToggleAll` | app/page.tsx:87-89 | the `map` keeps the length and the order, and maps each task by Flip |
| `TodoCollection.Toggled` | app/page.tsx:84-92 | after `toggleTodo(id)` every list keeps its length and order; position i holds the old task at i, flipped if it carries the id |
| `TodoCollection.ToggleNext` | app/page.tsx:84-92 | the updater's `forEach` over the three keys yields exactly Toggled(prev, id) |
| `TodoCollection.DeleteNext` | app/page.tsx:96-104 | the updater's `forEach` over the three keys yields exactly Deleted(prev, id) |
| `TodoCollection.Flatten` | app/page.tsx:32 | `Object.values(todos).flat()` holds every task of the three lists, each copy once: its length is the sum of theirs and its multiset their union |
| `TodoCollection.KeepOther` | app/page.tsx:100 | the delete filter keeps a task exactly when its id differs from the deleted one |
| `TodoCollection.RemoveId` | app/page.tsx:99-101 | one list after the delete filter: never longer, and it contains a task iff the old list did and the task carries another id |
| `TodoCollection.Deleted` | app/page.tsx:96-104 | after `deleteTodo(id)` no list grows, and each list contains a task iff it did before and the task carries another id |
| `TodoCollection.AddedPartition` | app/page.tsx:60-74 | if every task sits under the key of its own type, that still holds after add |
| `TodoCollection.ToggledPartition` | app/page.tsx:84-92 | if every task sits under the key of its own type, that still holds after toggle |
| `TodoCollection.DeletedPartition` | app/page.tsx:96-104 | if every task sits under the key of its own type, that still holds after delete |
| `TodoCollection.ToggleTwiceRestores` | app/page.tsx:88 | toggling the same id twice restores the original collection |
| `TodoCollection.ToggleAbsentIsNoOp` | app/page.tsx:88 | toggling an id that no task carries leaves the collection unchanged |
| `TodoCollection.DeleteKeepsOthersInOrder` | app/page.tsx:99-101 | after delete, each list holds no task with the id, keeps every copy of every other task, and keeps their relative order |
| `TodoCollection.DeleteAbsentIsNoOp` | app/page.tsx:99-101 | deleting an id that no task carries leaves the collection unchanged |
| `TodoCollection.CountIdConcat` | app/page.tsx:32 | the number of tasks with an id in a concatenation is the sum over the parts |
| `TodoCollection.CountIdZero` | app/page.tsx:99-101 | an id has count zero exactly when no task carries it |
| `TodoCollection.ToggleAllCount` | app/page.tsx:87-89 | mapping by Flip changes no id's count |
| `TodoCollection.RemoveIdCount` | app/page.tsx:99-101 | filtering out an id drops its count to zero and keeps all other counts. The list shrinks by exactly the number of tasks removed |
| `TodoCollection.AddedCounts` | app/page.tsx:60-74 | add raises the count of the new id by one and keeps every other count |
| `TodoCollection.ToggledCounts` | app/page.tsx:84-92 | toggle keeps every id's count |
| `TodoCollection.DeletedCounts` | app/page.tsx:96-104 | delete drops the id's count to zero and keeps the others. The total falls by that id's former count |
| `TodoCollection.DeleteUniqueRemovesOne` | app/page.tsx:96-104 | deleting an id that occurs exactly once lowers the total task count by exactly 1 and leaves no task with that id |
| `TodoCollection.AddedUniqueIds` | app/page.tsx:60-74 | ids stay pairwise distinct across all three lists after add when the added id is fresh |
| `TodoCollection.ToggledUniqueIds` | app/page.tsx:84-92 | toggle keeps ids pairwise distinct |
| `TodoCollection.DeletedUniqueIds` | app/page.tsx:96-104 | delete keeps ids pairwise distinct |
| `TodoCollection.TodoStore.constructor` | app/page.tsx:11-15 | the initial state is three empty lists, which is partitioned and has unique ids |
| `TodoCollection.TodoStore.SetTodos` | app/page.tsx:11 | `setTodos` replaces the whole state |
| `TodoCollection.TodoStore.AddTodo` | app/page.tsx:52-81 | the new state is Added(old state, ...). Partitioning is kept, and so is id uniqueness if the id is fresh. The acknowledgement toast is ("Task Added", title, green style) |
| `TodoCollection.TodoStore.ToggleTodo` | app/page.tsx:83-93 | the new state is Toggled(old state, id); partitioning and id uniqueness are kept |
| `TodoCollection.TodoStore.DeleteTodo` | app/page.tsx:95-105 | the new state is Deleted(old state, id); partitioning and id uniqueness are kept |
| `Reminders.IsDue` | app/page.tsx:33 | a task is due only when it is pending, has a reminder and that reminder's day has begun; a pending task whose reminder day is over is always due |
| `Reminders.ToastFor` | app/page.tsx:34-43 | the description is the task's title. The heading is "🔥 Important Task!" iff the priority is very-important, otherwise "Reminder". The style has three levels: very-important, important, and normal or optional |
| `Reminders.NotificationsOf` | app/page.tsx:32-33 | one toast per due task (reminder set, reminder <= now, not completed), in list order |
| `Reminders.Notifications` | app/page.tsx:32-43 | one scan of the whole collection raises no more toasts than there are tasks, and each toast is the toast of a due task of the collection |
| `Reminders.NotificationsOfConcat` | app/page.tsx:32 | scanning a concatenation scans each part in turn |
| `Reminders.NotificationsOfSnoc` | app/page.tsx:32-44 | scanning one more task appends its toast exactly when it is due |
| `Reminders.CheckReminders` | app/page.tsx:30-46 | the scan loop emits exactly Notifications(todos, now) and changes no state |
| `Reminders.ScanSelectsDue` | app/page.tsx:32-33 | the scan selects exactly the due tasks, every copy of each, in collection order. It raises one toast per selected task |
| `Reminders.ScanOrder` | app/page.tsx:32 | daily tasks' toasts come first, then weekly, then yearly |
| `Reminders.ScanRepeats` | app/page.tsx:30-48 | nothing records a toast as shown: a later scan selects every task an earlier scan selected, every copy of it, and so raises at least as many toasts |
| `Reminders.SingleTaskScan` | app/page.tsx:33 | a pending task whose reminder has passed raises exactly one toast carrying its title; one whose reminder lies ahead raises none |
| `Reminders.ScanAsWritten` | app/page.tsx:32-45 | the scan as written either finishes with no toast or stops with a ReferenceError for `cn`, so it never shows a toast; it finishes exactly when no task is due |
| `Reminders.NothingDue` | app/page.tsx:32-33 | when no task passes the due test, the scan selects no task |
| `Reminders.ScanAsWrittenNeverNotifies` | app/page.tsx:37 | as written, the scan finishes with no toast when nothing is due, and throws whenever a task is due |
| `Reminders.OverdueTaskCounterexample` | app/page.tsx:33-42 | a task overdue by one minute: the intended scan raises one "Reminder" toast, and the scan as written throws |
| `TodoInputForm.TrimStart` | app/components/TodoInput.tsx:45 | the result is a suffix of the input; everything dropped is white space, and the result starts with non-white space or is empty |
| `TodoInputForm.TrimEnd` | app/components/TodoInput.tsx:45 | the result is a prefix of the input; everything dropped is white space, and the result ends with non-white space or is empty |
| `TodoInputForm.Trim` | app/components/TodoInput.tsx:45 | `title.trim()` is the piece of the title that starts where its leading white space ends, is followed only by white space, and neither starts nor ends with white space; a title already in that form is kept as it is |
| `TodoInputForm.TrimEmptyIff` | app/components/TodoInput.tsx:45 | `title.trim()` is empty iff every character of the title is ECMAScript white space or a line terminator |
| `TodoInputForm.Split` | app/components/TodoInput.tsx:47 | `split` gives at least one part, and no part contains the separator |
| `TodoInputForm.SplitJoin` | app/components/TodoInput.tsx:47 | joining the parts of a split with the separator gives back the string |
| `TodoInputForm.DecimalValue` | app/components/TodoInput.tsx:47 | `Number` of a string of n decimal digits is a natural number below 10 to the n |
| `TodoInputForm.SplitNoSeparator` | app/components/TodoInput.tsx:47 | a string without the separator splits into itself |
| `TodoInputForm.SplitAfter` | app/components/TodoInput.tsx:47 | a separator-free piece followed by the separator splits off as the first part |
| `TodoInputForm.SplitTime` | app/components/TodoInput.tsx:47 | an "HH:MM" string splits into exactly its hour digits and its minute digits |
| `TodoInputForm.ParseTime` | app/components/TodoInput.tsx:47 | the parsed hours lie in 0..23 and the minutes in 0..59 |
| `TodoInputForm.TimeRoundTrip` | app/components/TodoInput.tsx:47 | parsing and zero-padded formatting are inverse, in both directions, between "HH:MM" strings and (hours, minutes) pairs |
| `TodoInputForm.TwoDigitsValue` | app/components/TodoInput.tsx:47 | `Number` of a zero-padded two-digit spelling of n is n |
| `TodoInputForm.DigitPair` | app/components/TodoInput.tsx:47 | a two-digit string is the zero-padded spelling of its value |
| `TodoInputForm.CombineReminder` | app/components/TodoInput.tsx:48-49 | the combined reminder keeps the picked date's day, and its seconds and milliseconds. Its hours and minutes are those parsed from the time |
| `TodoInputForm.RepeatDaysArg` | app/components/TodoInput.tsx:50 | repeat days are passed iff the list is non-empty, and then exactly as they are |
| `TodoInputForm.SubmitRequest` | app/components/TodoInput.tsx:45-52 | `onAdd` is called iff the trimmed title is non-empty. It receives the raw title, the due date, type and priority as they are, no reminder iff no reminder date is set (whatever the time field holds), otherwise the combined reminder, and the repeat days iff non-empty, whatever the type |
| `TodoInputForm.SubmitTitle` | app/components/TodoInput.tsx:45 | submission is refused exactly when the title is all white space |
| `TodoInputForm.OtherDay` | app/components/TodoInput.tsx:170 | the uncheck filter keeps a day exactly when it differs from the unchecked one |
| `TodoInputForm.DaysAfterCheck` | app/components/TodoInput.tsx:166-171 | checking a day appends it at the end; unchecking leaves no copy of it |
| `TodoInputForm.UncheckKeepsOthers` | app/components/TodoInput.tsx:170 | unchecking keeps every other day, every copy of it, in its original relative order |
| `TodoInputForm.TodoForm.constructor` | app/components/TodoInput.tsx:34-41 | the initial fields: empty title, no dates, time "12:00", type daily, priority normal, no days, and the repeat-day panel hidden |
| `TodoInputForm.TodoForm.EditTitle` | app/components/TodoInput.tsx:67 | the title becomes the typed value; the form invariant (well-formed time, panel shown only for daily) is kept |
| `TodoInputForm.TodoForm.SelectType` | app/components/TodoInput.tsx:73-76 | the type becomes the selected one and the panel is shown iff it is daily |
| `TodoInputForm.TodoForm.SelectPriority` | app/components/TodoInput.tsx:88 | the priority becomes the selected one; the form invariant (well-formed time, panel shown only for daily) is kept |
| `TodoInputForm.TodoForm.SelectDueDate` | app/components/TodoInput.tsx:117 | the due date becomes the picked one, or none; the form invariant (well-formed time, panel shown only for daily) is kept |
| `TodoInputForm.TodoForm.SelectReminder` | app/components/TodoInput.tsx:141 | the reminder date becomes the picked one, or none; the form invariant (well-formed time, panel shown only for daily) is kept |
| `TodoInputForm.TodoForm.EditReminderTime` | app/components/TodoInput.tsx:151 | the time becomes the entered value |
| `TodoInputForm.TodoForm.CheckDay` | app/components/TodoInput.tsx:166-171 | the repeat days become DaysAfterCheck(old days, day, checked); the form invariant (well-formed time, panel shown only for daily) is kept |
| `TodoInputForm.TodoForm.Submit` | app/components/TodoInput.tsx:43-59 | the call made is SubmitRequest(old fields). On a blank title no field changes. Otherwise title, due date, reminder and repeat days are cleared, while type, priority, time and panel keep their values |
| `TaskMaster.SubmitForm` | app/page.tsx:115 | a submit adds exactly the task the form describes, returns the "Task Added" toast and clears the form's title, dates and days while type, priority, time and panel stay; a refused submit leaves the store and the form unchanged |
| `TaskMaster.BuyMilkScenario` | app/page.tsx:52-92 | submitting "Buy milk" on a fresh page files one daily task, not completed and without dates; ticking it sets completed and changes nothing else; the collection is then that one task in the daily list |

## Left out

- Loading from and saving to `localStorage` (app/page.tsx:18-27): this is I/O. As written, the load has no guard around `JSON.parse`, so malformed stored data throws instead of giving an empty collection. Dates are not re-parsed on load; the scan re-wraps them with `new Date(...)` only when comparing.
- The `setInterval` timer and its cleanup, and React's effect and re-render scheduling (app/page.tsx:29, 48-50): a single scan is modelled, with `now` as a parameter. `setTodos` updaters are applied at once.
- The toast sink and the `cn` class-name helper: toasts are returned as values, and each style is an enum member rather than a class string.
- Id generation with `Math.random().toString(36)` (app/page.tsx:61): the id is a parameter of add. Uniqueness is proved only for fresh ids.
- app/components/TodoList.tsx, all JSX, Tailwind classes and the UI toolkit (popover, calendar, tabs, checkbox): this is presentation, and app/components/TodoList.tsx is not part of this model.
- `e.preventDefault()` (app/components/TodoInput.tsx:44): browser event plumbing.
- TodoInputForm.TodoForm.EditReminderTime: requires a well-formed "HH:MM" value. A cleared time input gives "", which the source would turn into an invalid date; that case is not modelled.
- TodoInputForm.ParseTime: defined only for well-formed "HH:MM"; `Number` on other strings is not modelled.
- TodoTypes.Timestamp: has no time zones or daylight-saving shifts. A day always has 1440 minutes, and `setHours` works on that local day.
- TodoInputForm.TodoForm.CheckDay: takes `checked` as a boolean. The toolkit's third, "indeterminate" state (truthy in the source) is never produced for these controlled checkboxes.

## Findings

| source | as written | input that shows it | evidently intended | confidence | as-written member | corrected member |
|---|---|---|---|---|---|---|
| app/page.tsx:37 | the toast's `className` calls `cn`, which page.tsx neither imports (lines 3-8) nor declares. Building the toast for the first due task throws a ReferenceError before `toast` runs, so the scan ends there and no reminder is ever shown | one pending task whose reminder passed a minute before `now` | one toast per due task, styled by priority in three levels | not executed; high, since no binding named `cn` exists in that file | `Reminders.ScanAsWrittenNeverNotifies` | `Reminders.CheckReminders` |
