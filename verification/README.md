# To-do list state, modelled in Dafny

This project models the state of the AiDo to-do page: an ordered list of
tasks `{id, text, completed}` and the draft typed into the input box,
together with the handlers that change them:

- **add** (`addTask`) trims the draft; a blank draft changes nothing;
  otherwise a new open task is appended, its id made from the current time,
  and the draft is cleared;
- **remove** (`removeTask`) keeps the tasks whose id differs from the given one;
- **toggle** (`toggleComplete`) flips `completed` on the tasks with the given id;
- **Enter key** (`handleKeyPress`) submits the draft on Enter when it is not blank;
- **reorder** (drag and drop) replaces the list with the order it is handed.

Files:

- `trim.dfy` (module `Strings`): `String.prototype.trim` as defined by the
  TrimString operation of ECMA-262 (section 22.1.3.32.1), over the
  WhiteSpace and LineTerminator code points of sections 12.2 and 12.3.
  `Trim` is proved to return an infix with whitespace on both sides and none
  at its ends, and `TrimOfPadded` shows that this determines it.
- `time_ids.dfy` (module `TimeIds`): ids are `Date.now().toString()`; the
  time value is a parameter `now: int` (negative before 1970) and
  `TimeString` is its decimal rendering with a '-' for negative values,
  proved injective through a parse round trip.
- `tasks.dfy` (module `Tasks`): the `Task` datatype, which mirrors the
  `Task` type of `app/src/app/components/Components.tsx:6-10` field for
  field, the `filter` (`WithoutId`) and the `map` (`Toggled`) over
  `seq<Task>`, and their lemmas.
- `content.dfy` (module `Content`): the initial list `DefaultTasks`
  (`app/src/app/components/Content.tsx:13-16`), the pure transitions
  `Add` and `KeyPress` over a `State(tasks, draft)` value, and the class
  `Content` whose two fields `tasks` and `newTask` are the page's two state
  cells; its methods assign the results of the pure functions.

Remove and toggle act on every task that carries the given id, not just the
first one. Add does not check that the new id is unused. So distinct ids are
proved only when the new id is not already present
(`AddKeepsIdsDistinct`). Two adds within the same millisecond give two tasks
the same id (`SameTickAddsShareId`), and removing that id then deletes both
(`SameTickRemoveDeletesBoth`).

## Model

| member | source | states |
|---|---|---|
| `Strings.Trim` | app/src/app/components/Content.tsx:24 | the trimmed draft has no whitespace at either end, is empty exactly when the draft is whitespace only, and is the infix of the draft left after its leading and trailing whitespace |
| `Strings.TrimOfPadded` | app/src/app/components/Content.tsx:24 | any string without whitespace at its ends, padded on both sides with whitespace, trims back to itself; with Trim's contract this pins trim down completely |
| `Strings.TrimIdempotent` | app/src/app/components/Content.tsx:24 | trimming an already trimmed draft changes nothing |
| `TimeIds.DecimalString` | app/src/app/components/Content.tsx:29 | the id of a non-negative time value is at least one character long, all decimal digits, one digit exactly for values below 10, and starts with '0' only for 0; `DecimalRoundTrip` reads it back |
| `TimeIds.TimeString` | app/src/app/components/Content.tsx:29 | the id starts with '-' exactly when the time value is negative, followed by at least one digit and no leading zero; a non-negative value gives digits only |
| `TimeIds.TimeRoundTrip` | app/src/app/components/Content.tsx:29 | reading back the id of any time value, negative included, gives that time value |
| `TimeIds.TimeStringInjective` | app/src/app/components/Content.tsx:29 | different time values of either sign give different ids |
| `TimeIds.DecimalRoundTrip` | app/src/app/components/Content.tsx:29 | reading back the decimal id of a time value gives that time value |
| `TimeIds.DecimalStringInjective` | app/src/app/components/Content.tsx:29 | different time values give different ids |
| `Tasks.WithoutId` | app/src/app/components/Content.tsx:39 | no task with the removed id is left, and the list is shorter by exactly the number of tasks that carried it (every matching entry goes, not just one) |
| `Tasks.WithoutIdMembers` | app/src/app/components/Content.tsx:39 | the filtered list holds exactly the tasks of the old list whose id differs from the removed one |
| `Tasks.WithoutIdAppend` | app/src/app/components/Content.tsx:39 | filtering a concatenation filters each part in place, so relative order is kept |
| `Tasks.KeptTaskStaysInPlace` | app/src/app/components/Content.tsx:39 | a task with a different id stays between the kept tasks that were before it and those that were after it |
| `Tasks.WithoutAbsentId` | app/src/app/components/Content.tsx:38-40 | removing an id no task carries leaves the list unchanged |
| `Tasks.CountIdDistinct` | app/src/app/components/Content.tsx:39 | when ids are distinct, a present id is carried by exactly one task |
| `Tasks.RemovePresentIdShrinksByOne` | app/src/app/components/Content.tsx:38-40 | with distinct ids, removing a present id shortens the list by one and the id is gone |
| `Tasks.WithoutIdKeepsDistinct` | app/src/app/components/Content.tsx:39 | removing keeps ids distinct |
| `Tasks.WithoutIdKeepsTexts` | app/src/app/components/Content.tsx:39 | removing keeps every stored text non-empty and trimmed |
| `Tasks.Toggled` | app/src/app/components/Content.tsx:44-46 | the toggled list has the same length, the same id and text at every position, and a different `completed` exactly where the id matches |
| `Tasks.ToggleInvolution` | app/src/app/components/Content.tsx:45 | toggling the same id twice restores the list |
| `Tasks.ToggleAbsentId` | app/src/app/components/Content.tsx:43-47 | toggling an id no task carries leaves the list unchanged |
| `Tasks.ToggleKeepsInvariants` | app/src/app/components/Content.tsx:43-47 | toggling keeps ids distinct and texts trimmed |
| `Content.Add` | app/src/app/components/Content.tsx:22-36 | a blank draft leaves list and draft unchanged; otherwise the list grows by one, earlier tasks keep their positions, the last task has the id from `now`, the trimmed draft as text and `completed = false`, and the draft becomes ""; the stored text is non-empty, trimmed, and the draft's infix after its leading whitespace |
| `Content.KeyPress` | app/src/app/components/Content.tsx:50-54 | the Enter key has exactly the effect of add (a blank draft included); any other key changes nothing |
| `Content.DefaultTasksWellFormed` | app/src/app/components/Content.tsx:13-16 | the initial list has two open tasks with ids "1" and "2", distinct, with non-empty trimmed texts |
| `Content.AddKeepsTextsTrimmed` | app/src/app/components/Content.tsx:24-34 | adding keeps every stored text non-empty and trimmed |
| `Content.AddKeepsIdsDistinct` | app/src/app/components/Content.tsx:28-34 | adding keeps ids distinct when the new id is not already present |
| `Content.AddToDefaultsKeepsIdsDistinct` | app/src/app/components/Content.tsx:13-29 | on the initial list, an add at any time value other than 1 and 2 keeps ids distinct |
| `Content.SameTickAddsShareId` | app/src/app/components/Content.tsx:28-34 | two adds at the same time value append two tasks with the same id, so ids are no longer distinct |
| `Content.SameTickRemoveDeletesBoth` | app/src/app/components/Content.tsx:29-39 | after two adds at the same time value, removing that id deletes both new tasks |
| `Content.SessionExample` | app/src/app/components/Content.tsx:13-47 | from the initial list, add "C" at time 3, toggle "1", remove "2" gives [("1", first default text, done), ("3", "C", open)] |
| `Content.Content.constructor` | app/src/app/components/Content.tsx:19-20 | the page starts with the default list and an empty draft |
| `Content.Content.SetNewTask` | app/src/app/components/Components.tsx:39 | typing sets the draft and leaves the list alone |
| `Content.Content.AddTask` | app/src/app/components/Content.tsx:22-36 | the new state is `Add` of the old one; trimmed texts stay trimmed; distinct ids stay distinct when the new id is fresh |
| `Content.Content.RemoveTask` | app/src/app/components/Content.tsx:38-40 | the list becomes `WithoutId` of the old list, the draft is unchanged, distinct ids and trimmed texts are kept |
| `Content.Content.ToggleComplete` | app/src/app/components/Content.tsx:42-48 | the list becomes `Toggled` of the old list, the draft is unchanged, distinct ids and trimmed texts are kept |
| `Content.Content.HandleKeyPress` | app/src/app/components/Content.tsx:50-54 | the new state is `KeyPress` of the old one |
| `Content.Content.Reorder` | app/src/app/components/Components.tsx:72-76 | the list becomes exactly the order handed over, unchecked; the draft is unchanged |

## Left out

- Rendering and animation (`Header`, the `TaskForm` and `TaskList` markup, `ReachCallToAction`, motion properties, styles) carry no state and are not modelled; `HeroBanner` is not part of this model, and `page.tsx` only wires providers and the page head.
- The clock: `Date.now()` is replaced by the parameter `now`, which may be any integer. Rendering of numbers of magnitude 10^21 and above (exponent notation) is not modelled, since time values never exceed 8.64 * 10^15 in magnitude.
- The permutation produced by drag and drop is computed by the framer-motion `Reorder` component, which is outside this model; `Reorder` is a plain assignment, exactly as the page stores whatever it is given, so no invariant is claimed for it.
- React mechanics: batching of state updates, functional versus captured-value updates (`removeTask` and `toggleComplete` read the `tasks` of the last render), `preventDefault` and the event cast in `handleKeyPress`. Each handler is modelled as running alone on the current state.
- The disabled state of the submit button (`Components.tsx:47`) is not modelled separately; `Add` itself ignores a blank draft, so submitting it would change nothing.
- JavaScript strings are sequences of UTF-16 code units, while Dafny's `char` is a Unicode scalar value; every trimmed code point lies in the Basic Multilingual Plane, so trimming agrees, but lone surrogates cannot be represented.
