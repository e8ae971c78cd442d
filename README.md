# To-do app: add-task form and notification settings, in Dafny

This project models the two pieces of the React Native to-do app that hold
logic of their own rather than calls into Firebase or UI widgets:

- **The add-task form** (`screens/AddTaskScreen.tsx`): the form fields kept in
  React state (name, description, category, due date, reminder date, name
  error, due-date warning), the reminder-date handler that pushes the due date
  forward, the due-date picker confirmation, and `addTask`, which rejects a
  blank name, requires a signed-in user, writes the task record to the `tasks`
  collection and navigates back.
- **The notification settings** (`screens/SettingsScreen.tsx`): the
  per-category subscription map, loaded from local storage on mount (or every
  category off when nothing usable is stored), and `toggleSubscription`, which
  flips one flag, saves the whole map, then asks the push service to subscribe
  to or unsubscribe from that category's topic.

Dates are millisecond timestamps (`int`), which is what `>` compares on two
JavaScript `Date` values. The signed-in user is an `Option` of their e-mail
address. Whether the store accepts the write and whether a topic request
succeeds are boolean parameters. The Firestore write, `goBack`, the storage
write, the topic requests and console output are entries in an effect log.
The category list is a parameter: the screens import it from `App.tsx`, which
does not define it.

Each screen has two layers. Pure functions over values are the specification:
`AddTaskScreen.Form` with `ReminderChanged`, `DueConfirmed` and `Submit`;
`SettingsScreen.Subscriptions` with `Loaded`, `Toggled` and `ToggleEffects`.
A class plays the screen itself: `AddTaskScreen.FormController` and
`SettingsScreen.SettingsController`. Its fields are the screen's state, and
its methods update those fields step by step, as the handlers do. Each method
is proved to produce the state and effects that its specification function
gives. The lemmas state the properties of those functions.

Files: `wrappers.dfy` (Option), `js_string.dfy` (JavaScript's
`String.prototype.trim`), `add_task_screen.dfy` and `settings_screen.dfy`.

## Model

| member | source | states |
|---|---|---|
| JsString.TrimStart | screens/AddTaskScreen.tsx:43 | the result is the longest suffix of the input that does not start with ECMAScript white space; everything cut off is white space |
| JsString.TrimEnd | screens/AddTaskScreen.tsx:43 | the result is the longest prefix of the input that does not end with white space; everything cut off is white space |
| JsString.TrimEmptyIffAllWhitespace | screens/AddTaskScreen.tsx:43 | `name.trim() === ''` holds exactly when every character of the name is white space, the empty name included |
| AddTaskScreen.Opened | screens/AddTaskScreen.tsx:24-32 | the form opens with empty name and description, category 'Work' and no messages; the due date is the first clock reading and the reminder the second, and due ≥ reminder holds initially iff the first reading is not earlier than the second |
| AddTaskScreen.ReminderChanged | screens/AddTaskScreen.tsx:34-40 | the reminder becomes the picked date; the due date becomes the larger of itself and that date, so due ≥ reminder afterwards; it changes exactly when the date is later than the due date, and then the warning 'Due date updated to match reminder date.' is set; otherwise the warning stays as it was (not cleared); no other field changes |
| AddTaskScreen.DueConfirmed | screens/AddTaskScreen.tsx:103-107 | the due date becomes the picked date unconditionally and the warning is cleared; the reminder is unchanged; due ≥ reminder holds afterwards iff the picked date is not before the reminder |
| AddTaskScreen.Submit | screens/AddTaskScreen.tsx:42-68 | a blank name (JS trim) only sets 'Task name cannot be empty.', with no effect and the warning kept; any other name clears both messages even with no user; without a user the only effect is the logged 'No user logged in'; a record is written iff the name is not blank and a user is signed in; without a user, nothing is written and there is no navigation; the one record written is the untrimmed name, description, category and dates with `created_by` the user's e-mail; `goBack` happens iff the write went through, and only right after it; a rejected write is the last effect |
| AddTaskScreen.StepKeepsCovering | screens/AddTaskScreen.tsx:34-48 | every user action other than picking a due date keeps due ≥ reminder |
| AddTaskScreen.RunWithoutDuePicksKeepsCovering | screens/AddTaskScreen.tsx:34-40 | any sequence of actions without a due-date pick, in particular any sequence of reminder changes, keeps due ≥ reminder |
| AddTaskScreen.ReminderPickRestoresCovering | screens/AddTaskScreen.tsx:34-40 | from any form, once a reminder date has been picked and no due date has been picked since, due ≥ reminder |
| AddTaskScreen.FromOpenedWithoutDuePicks | screens/AddTaskScreen.tsx:27-28 | from the opened form with equal clock readings, actions without a due-date pick keep due ≥ reminder |
| AddTaskScreen.DuePickCanBreakCovering | screens/AddTaskScreen.tsx:103-107 | picking a due date before the reminder leaves due < reminder: the rule is not an invariant of the whole form |
| AddTaskScreen.SubmitWritesUncoveredDates | screens/AddTaskScreen.tsx:56-65 | a submit does not check the dates: a form due before its reminder is written as it is |
| AddTaskScreen.FormController.constructor | screens/AddTaskScreen.tsx:24-32 | the screen's fields start as the opened form, with an empty effect log |
| AddTaskScreen.FormController.TypeName | screens/AddTaskScreen.tsx:74 | typing replaces the name and nothing else |
| AddTaskScreen.FormController.TypeDescription | screens/AddTaskScreen.tsx:78 | typing replaces the description and nothing else |
| AddTaskScreen.FormController.PickCategory | screens/AddTaskScreen.tsx:84 | picking replaces the category and nothing else |
| AddTaskScreen.FormController.ChangeReminderDate | screens/AddTaskScreen.tsx:34-40 | the handler's field updates give the state `ReminderChanged` specifies, with no effect |
| AddTaskScreen.FormController.ConfirmDueDate | screens/AddTaskScreen.tsx:103-107 | the confirmation's field updates give the state `DueConfirmed` specifies, with no effect |
| AddTaskScreen.FormController.AddTask | screens/AddTaskScreen.tsx:42-68 | `addTask` leaves the fields as `Submit` specifies and appends exactly the effects `Submit` lists, in order |
| SettingsScreen.AllUnsubscribed | screens/SettingsScreen.tsx:18-19 | the default map has exactly the categories as keys, each off |
| SettingsScreen.Loaded | screens/SettingsScreen.tsx:12-22 | a non-empty stored value is used exactly as it was saved; a missing or empty one gives exactly the categories as keys, all off |
| SettingsScreen.BuildDefaults | screens/SettingsScreen.tsx:18-19 | the `forEach` loop builds exactly the default map |
| SettingsScreen.Toggled | screens/SettingsScreen.tsx:26-28 | the toggled category's displayed value is negated (an absent key counts as off, so it becomes on); the category is now a key; every other key keeps its value |
| SettingsScreen.ToggleEffects | screens/SettingsScreen.tsx:25-43 | the first effect saves the whole updated map under 'subscriptions'; then exactly one topic request follows, for that category only: subscribe iff the new value is on; neither depends on whether the request succeeds, whose outcome is only logged |
| SettingsScreen.ToggleTwice | screens/SettingsScreen.tsx:26-52 | toggling twice restores the displayed value (the flag, with an absent key shown as off), restores the map itself when the key was present (otherwise leaves it off), and requests one subscribe and one unsubscribe, both for that category |
| SettingsScreen.ReloadAfterToggle | screens/SettingsScreen.tsx:13-15 | what a toggle saves is what the next mount loads |
| SettingsScreen.SettingsController.constructor | screens/SettingsScreen.tsx:9 | before the mount effect the map is empty and storage is as given |
| SettingsScreen.SettingsController.Load | screens/SettingsScreen.tsx:12-22 | the mount effect sets the map to `Loaded` of what storage holds, and neither writes storage nor produces an effect |
| SettingsScreen.SettingsController.Toggle | screens/SettingsScreen.tsx:25-43 | the map becomes `Toggled`, storage holds exactly the new map, and the effects `ToggleEffects` lists are appended, whatever the request's outcome (no rollback) |

## Left out

- Task list: `screens/TaskListScreen.tsx` keeps a plain local list. It has no store subscription, no reconciliation and no delete, so there is no task-list logic to model.
- Date check at submit: there is none. The date rule is applied only when a reminder is picked, and a submit does not check the dates. `SubmitWritesUncoveredDates` and `DuePickCanBreakCovering` state this.
- Warning on a reminder that is not later: nothing is cleared. A reminder that is not later than the due date leaves the previous warning in place, as `ReminderChanged` states.
- Login, task details, `App.tsx`, `index.js`, `firebaseMessagingService.ts` and `types.ts`: these are navigation, display and platform wiring with no rule of their own.
- The picker visibility flags (`showDuePicker`, `showReminderPicker`) and the pickers' cancel handlers: these only open and close widgets.
- Firebase, MMKV storage and JSON: these are external. The user is an `Option` of the e-mail. A signed-in user whose `email` is null is not modelled. `JSON.stringify`/`JSON.parse` are taken as inverse identities. Malformed stored text (on which `JSON.parse` throws) and stored values that are not booleans are not modelled, because this screen never writes them.
- Store-side conversion of `Date` into a Firestore timestamp is not modelled. The record carries the millisecond values.
- Strings are sequences of Unicode scalar values, not UTF-16 code units. This matters for `trim` only through which characters count as white space, and that set is modelled.
- Asynchrony and React batching are not modelled. Each handler runs to completion before the next. Two toggles fired before a re-render would both read the same stale map in the app. The model shows them as sequential.
- The `setTasks` route parameter is not modelled. The add-task screen receives it but never uses it.
- Category names are assumed not to be `Object.prototype` property names such as `constructor`, `toString` or `__proto__`. In the app, such a name would read as set before any toggle, and assigning `__proto__` adds no key. The map model does not capture this.
- Logging: console output is modelled as log entries. The error value that `console.error` prints after the toggle failure message is not.
