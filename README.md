# Task Manager — a Dafny model of its core

The Task Manager is a small web application: an Express REST API keeps tasks
in memory, and a React frontend lists, filters, creates, edits, toggles and
deletes them. This project models the parts of both that carry logic and
proves what they promise:

- **The validation middleware** (`validateTask`, `validateTaskUpdate`).
  Each gate collects at most one message per field, in a fixed field order,
  then either rejects the request with the whole list or passes on the body
  with its strings trimmed.
- **The task store behind the routes.** It holds an ordered list of tasks and
  an id counter. Its handlers create, list, update, delete and toggle tasks,
  with a shared id guard and separate "invalid id" and "not found" outcomes.
- **The error middleware.** It chooses the answer's status, message and
  optional stack trace.
- **The frontend's list logic.**
  - Status filter and search.
  - Tab counts.
  - The updaters that fold a server answer into the local list.
  - The carousel index of the task list.
  - The task form's hints, its change handler, its initialisation and the
    payload it submits.

Module layout, one file each:

- `JsValues`: JavaScript values and truthiness, `trim`, lower-casing and
  `includes`.
- `Sequences`: `filter` and subsequence facts.
- `Validation`: the two gates.
- `TaskStore`: the store, a class whose methods are the route handlers.
- `ErrorHandler`: the error middleware.
- `App`: the root component's pure list logic.
- `TaskList`: the carousel, a class.
- `TaskForm`: the form's state, a class, and its pure record updates.

String lengths are JavaScript's `.length`: UTF-16 code units, so a character
outside the Basic Multilingual Plane counts twice (`JsValues.JsLength`).

A request body is a record of optional fields. `None` means the key is
absent (`undefined`), and `Some(Null)` is a JSON `null`.

The gates return a typed verdict: `Next` with the normalised body, or
`Reject` with the `error` and the optional `details` list of the 400 answer.
The store's handlers return an `Outcome`, one of:

- the gate's rejection;
- `InvalidId`: 400 "Invalid task id";
- `NotFound`: 404 "Task not found";
- `Done` with the task sent as `data`.

The store keeps these facts as an invariant:

- ids are unique and were all issued by the counter;
- every id below the counter has been issued, so ids are never reused;
- every stored title is trimmed, non-empty and at most 100 UTF-16 code units long;
- every stored priority is either falsy or one of `low`, `medium`, `high`.

A priority of `''`, `null`, `0` or `false` passes the create gate and is
stored as sent. So "one of the three levels" is not an invariant, and
`TaskStore.EmptyPriorityIsStored` exhibits a stored `''`.

## Model

| member | source | states |
|---|---|---|
| JsValues.OrElse | frontend/src/components/TaskForm.js:18 | the `or` fallback: the value itself when it is truthy, the fallback otherwise; the result is truthy whenever the fallback is |
| JsValues.Truthy | backend/middleware/validation.js:24 | the falsy values are exactly `''`, `false`, `0` and `null` |
| JsValues.IsSpace | backend/middleware/validation.js:10 | on ASCII, whitespace is exactly space and the control characters 9 to 13 |
| JsValues.TrimStart | backend/middleware/validation.js:10 | the result is a suffix of the input; everything cut off is whitespace; the result does not start with whitespace |
| JsValues.TrimEnd | backend/middleware/validation.js:10 | the result is a prefix of the input; everything cut off is whitespace; the result does not end with whitespace |
| JsValues.Trim | backend/middleware/validation.js:37 | the result is the input with a blank run cut off at its start and a blank run cut off at its end, and it neither starts nor ends with whitespace |
| JsValues.TrimEmptyIffBlank | backend/middleware/validation.js:10 | `s.trim()` is empty exactly when every character of `s` is whitespace |
| JsValues.TrimFixedIff | backend/middleware/validation.js:37 | trimming leaves a string unchanged exactly when it has no whitespace at either end |
| JsValues.TrimIdempotent | backend/middleware/validation.js:37 | trimming twice is trimming once |
| JsValues.JsLength | backend/middleware/validation.js:12 | `.length` counts at least one and at most two code units per character |
| JsValues.JsLengthOfBmp | backend/middleware/validation.js:12 | a string of characters inside the Basic Multilingual Plane has as many code units as characters |
| JsValues.JsLengthOfAstral | backend/middleware/validation.js:12 | a string of characters outside the Basic Multilingual Plane has two code units per character |
| JsValues.JsLengthSlice | backend/middleware/validation.js:12 | a slice has no more code units than the whole string |
| JsValues.TrimJsLength | backend/middleware/validation.js:12 | trimming never adds code units |
| JsValues.LowerChar | frontend/src/App.js:59 | each upper-case ASCII letter maps to its own lower-case letter; every other character is unchanged |
| JsValues.Lower | frontend/src/App.js:59 | `toLowerCase` keeps the length and lowers each character |
| JsValues.LowerIdempotent | frontend/src/App.js:59-60 | lowering twice is lowering once |
| JsValues.Contains | frontend/src/App.js:59-60 | `includes` holds only for a needle no longer than the haystack, and holds whenever the needle is a prefix, the empty needle included |
| Sequences.Filter | frontend/src/App.js:47 | `filter` keeps exactly the elements that pass, in their order: the result is a subsequence of the input, and each element occurs in it as often as in the input when it passes and not at all otherwise |
| Sequences.FilterPartition | frontend/src/App.js:157-161 | a filter and its complement split a list: their lengths add up to its length |
| Validation.TrimmedTitleIsClean | backend/middleware/validation.js:10-14 | a title that passed the title checks is trimmed, non-empty and at most 100 code units once trimmed |
| Validation.CleanTitleIsNotBlank | backend/middleware/validation.js:10 | a clean title is not blank, so it passes the emptiness check again, and trimming it changes nothing |
| Validation.TitleStringErrors | backend/middleware/validation.js:10-14 | for a string title: no message iff it is not blank and its untrimmed length is at most 100 code units; "cannot be empty" iff blank; "less than 100" iff not blank and the untrimmed length exceeds 100 code units |
| Validation.CreateTitleErrors | backend/middleware/validation.js:8-14 | at most one title message; "required and must be a string" exactly when the title is missing, falsy or not a string; none exactly when it is a non-blank string of at most 100 code units |
| Validation.UpdateTitleErrors | backend/middleware/validation.js:61-70 | at most one title message; an absent title gives none; "must be a string" exactly when present and not a string; otherwise the string chain |
| Validation.DescriptionErrors | backend/middleware/validation.js:16-21 | a message exactly when the description is present and not a string; an empty string passes |
| Validation.CompletedErrors | backend/middleware/validation.js:79-82 | a message exactly when `completed` is present and not a boolean |
| Validation.Text | backend/middleware/validation.js:9-25 | each message text opens with the initial of the field it is about |
| Validation.TextsDistinct | backend/middleware/validation.js:9-25 | different messages have different texts |
| Validation.CreatePriorityErrors | backend/middleware/validation.js:23-26 | a message exactly when the priority is truthy and not one of the three levels, so `''` and absence pass |
| Validation.UpdatePriorityErrors | backend/middleware/validation.js:84-87 | a message exactly when the priority is present and not one of the three levels, `''` included |
| Validation.CreateErrors | backend/middleware/validation.js:5-26 | at most three messages; none exactly when the title, description and priority checks all pass |
| Validation.UpdateErrors | backend/middleware/validation.js:61-87 | at most four messages; none exactly when every present field passes its check |
| Validation.CollectCreateErrors | backend/middleware/validation.js:5-26 | the messages pushed step by step are exactly `CreateErrors` of the body |
| Validation.CollectUpdateErrors | backend/middleware/validation.js:61-87 | the messages pushed step by step are exactly `UpdateErrors` of the body |
| Validation.ValidateTask | backend/middleware/validation.js:3-42 | rejects exactly when there are messages, with "Validation failed" and the complete list in field order; otherwise passes on the trimmed, clean title, trims the description only when present, and passes the priority on as sent |
| Validation.ValidateTaskUpdate | backend/middleware/validation.js:44-102 | no field present gives the single "At least one field" error with no details; otherwise rejects exactly when there are messages; on success every field is present iff it was sent, title and description trimmed, `completed` a boolean, priority one of the levels |
| Validation.CreateErrorsInFieldOrder | backend/middleware/validation.js:5-26 | the create gate's messages come at most one per field, in the order title, description, priority |
| Validation.CreateErrorsPerField | backend/middleware/validation.js:5-26 | the "required", description and priority messages each appear exactly when that field fails |
| Validation.UpdateErrorsInFieldOrder | backend/middleware/validation.js:61-87 | the update gate's messages come at most one per field, in the order title, description, completed, priority |
| Validation.UpdateErrorsPerField | backend/middleware/validation.js:61-87 | each field's message of the update gate appears exactly when that field fails; a present priority outside the levels is always reported |
| Validation.AcceptedTitleIsStorable | backend/middleware/validation.js:37 | an accepted title is stored non-empty and at most 100 code units long after trimming |
| Validation.AstralTitleIsTooLong | backend/middleware/validation.js:12-13 | 51 characters outside the Basic Multilingual Plane are 102 code units, so that title gets "less than 100" |
| Validation.EmptyPriorityOnlyPassesCreate | backend/middleware/validation.js:24 | a `''` priority passes the create gate, while the update gate rejects it with exactly the priority message |
| TaskStore.ReplaceKeepsStoredWell | backend/routes/tasks.js:77-80 | replacing a task in place by a well-formed task with the same id keeps ids unique, issued and every task well formed |
| TaskStore.RemoveKeepsStoredWell | backend/routes/tasks.js:114 | splicing one task out keeps the store invariant and leaves no task with that id |
| TaskStore.Merge | backend/routes/tasks.js:74-80 | `id` and `createdAt` survive any update |
| TaskStore.Flip | backend/routes/tasks.js:148 | `completed` changes and every other field stays |
| TaskStore.FlipInvolution | backend/routes/tasks.js:148 | toggling twice gives the task back |
| TaskStore.ToggleMessage | backend/routes/tasks.js:153 | the message says "completed" exactly when the task is now completed |
| TaskStore.IndexOf | backend/routes/tasks.js:66 | -1 exactly when no task has the id; otherwise a position holding it with no earlier match |
| TaskStore.FindIndex | backend/routes/tasks.js:66 | the loop returns the first position with the id, or -1 |
| TaskStore.IndexOfOnlyMatch | backend/routes/tasks.js:66 | with unique ids the search finds the one task carrying the id |
| TaskStore.InvalidIdIsNeverStored | backend/routes/tasks.js:59 | the id guard (`ValidId`: a parsed id of at least 1) turns away only ids that no stored task carries |
| TaskStore.Store.constructor | backend/routes/tasks.js:7-8 | the store starts empty with the counter at 1 |
| TaskStore.Store.List | backend/routes/tasks.js:11-17 | `data` is the list in insertion order and `count` its length |
| TaskStore.Store.ReplaceAt | backend/routes/tasks.js:77-80 | the task at a position is replaced by one with the same id; nothing else changes and the store invariant holds |
| TaskStore.Store.SpliceAt | backend/routes/tasks.js:114 | the task at a position is removed and the rest keep their order; the counter is unchanged and the store invariant holds |
| TaskStore.Store.Create | backend/routes/tasks.js:29-40 | the new id is the counter's value, never issued before and above every stored id; the counter goes up by one; the task is appended with `completed` false; `'medium'` is used only when no priority was sent; the existing tasks are unchanged |
| TaskStore.Store.Post | backend/routes/tasks.js:27-53 | a body the gate rejects leaves the store and counter untouched; an accepted one is appended with its trimmed title and description and its priority as sent |
| TaskStore.Store.Update | backend/routes/tasks.js:57-80 | "Invalid task id" exactly for a missing or non-positive id, "not found" exactly when no task has the id, and no change in either case; otherwise only the matched task is replaced by the merge; the counter is unchanged |
| TaskStore.Store.Put | backend/routes/tasks.js:56 | the update gate answers before any id check; a body that passes is answered "invalid id", "not found" or with the updated task, under the same guard and lookup as the handler; a field sent replaces the stored one, an absent field stays, and `id` and `createdAt` never change |
| TaskStore.Store.Delete | backend/routes/tasks.js:96-114 | the same guard and lookup; on success the matched task is returned and spliced out, the rest keep their order, no task with that id remains, and the counter is unchanged |
| TaskStore.Store.Toggle | backend/routes/tasks.js:130-148 | the same guard and lookup; on success only the matched task's `completed` flips |
| TaskStore.EmptyPatchKeepsTask | backend/routes/tasks.js:77-80 | an update carrying no field leaves the task as it was |
| TaskStore.MergeIdempotent | backend/routes/tasks.js:77-80 | applying the same update twice is applying it once |
| TaskStore.ToggleBack | backend/routes/tasks.js:140-148 | after a toggle the id is found at the same position, and toggling there again gives back the original list |
| TaskStore.ToggleTwice | backend/routes/tasks.js:148 | toggling the same id twice restores the store |
| TaskStore.EmptyPriorityIsStored | backend/routes/tasks.js:29 | creating "Buy milk" with priority `''` stores `''`, which is not one of the three levels, under id 1 |
| ErrorHandler.StatusOf | backend/middleware/errorHandler.js:7 | `statusCode` when truthy, else `status` when truthy, else 500; never 0 |
| ErrorHandler.MessageFor | backend/middleware/errorHandler.js:8-11 | "Server Error" for 500 whatever the error says; otherwise the error's message, or "Request error" when that is falsy; never empty |
| ErrorHandler.HandleError | backend/middleware/errorHandler.js:2-17 | passes the error on exactly when headers were already sent; otherwise answers with the chosen status, `success` false, and a stack only under `NODE_ENV` development |
| ErrorHandler.ServerErrorsLookAlike | backend/middleware/errorHandler.js:8-10 | outside development any two errors that end in 500 get identical answers |
| ErrorHandler.UnstatusedErrorIsHidden | backend/middleware/errorHandler.js:7-10 | an error without a status is answered with 500 and "Server Error" |
| App.PassesStatus | frontend/src/App.js:45-54 | a task passes a tab unless the tab names the other status |
| App.MatchesSearch | frontend/src/App.js:58-61 | with an empty term, exactly the tasks with a non-empty title or description match |
| App.SearchIgnoresTermCase | frontend/src/App.js:59-60 | the search gives the same answer for a term and its lowered form |
| App.StatusFiltered | frontend/src/App.js:45-54 | the status tab keeps exactly the tasks of that status, each as often as in the list and in order; any other filter keeps all |
| App.ApplyFilter | frontend/src/App.js:42-65 | the shown list is a subsequence of the tasks and holds each task passing the status tab and, unless the term is blank, the case-insensitive search in title or description, as often as the list does, and no other task |
| App.TaskCounts | frontend/src/App.js:157-161 | completed and pending add up to all, and each equals the length of its tab's list |
| App.Appended | frontend/src/App.js:71 | the created task comes last and the earlier tasks are unchanged |
| App.ReplacedById | frontend/src/App.js:83-85 | each task with the id is replaced by the server's answer; every other task stays at its position |
| App.RemovedById | frontend/src/App.js:101 | the result is a subsequence with no task of that id, and every other task occurs as often as before |
| App.ReplacedMirrorsStore | frontend/src/App.js:112-114 | with unique ids the local update/toggle updater produces the store's own new list |
| App.RemovedMirrorsStore | frontend/src/App.js:101 | with unique ids the local delete updater produces the store's own new list |
| App.ShowAllIsIdentity | frontend/src/App.js:52-57 | the "all" tab with a blank search term shows the list unchanged |
| TaskList.Clamped | frontend/src/components/TaskList.js:9-18 | the index becomes 0 for an empty list, otherwise a valid position no larger than before, unchanged when already valid |
| TaskList.NextIndex | frontend/src/components/TaskList.js:20-23 | nothing moves with at most one task; otherwise one step forward, wrapping from the last to the first |
| TaskList.PrevIndex | frontend/src/components/TaskList.js:25-28 | nothing moves with at most one task; otherwise one step back, wrapping from the first to the last |
| TaskList.NextThenPrev | frontend/src/components/TaskList.js:20-28 | previous undoes next |
| TaskList.PrevThenNext | frontend/src/components/TaskList.js:20-28 | next undoes previous |
| TaskList.AdvanceAdd | frontend/src/components/TaskList.js:22 | pressing next `a` times then `b` times is pressing it `a + b` times |
| TaskList.AdvanceForward | frontend/src/components/TaskList.js:22 | before the wrap, `n` presses move `n` places |
| TaskList.NoEarlyReturn | frontend/src/components/TaskList.js:22 | fewer presses of next than there are tasks never come back to the starting task |
| TaskList.FullCycleReturns | frontend/src/components/TaskList.js:22 | pressing next once per task returns to the starting task, and no fewer presses do |
| TaskList.SafeIndex | frontend/src/components/TaskList.js:53 | the rendered position is valid for a non-empty list and equals the index when it is in range |
| TaskList.EmptyStateFor | frontend/src/components/TaskList.js:30-40 | the empty-state texts for the completed tab, the pending tab and any other filter |
| TaskList.Carousel.constructor | frontend/src/components/TaskList.js:6 | the index starts at 0 |
| TaskList.Carousel.TasksChanged | frontend/src/components/TaskList.js:9-18 | the effect clamps the index into the new list |
| TaskList.Carousel.HandleNext | frontend/src/components/TaskList.js:20-23 | the index advances as `NextIndex` and stays in range |
| TaskList.Carousel.HandlePrev | frontend/src/components/TaskList.js:25-28 | the index steps back as `PrevIndex` and stays in range |
| TaskList.Carousel.Shown | frontend/src/components/TaskList.js:53-54 | once settled, the rendered position is the current index |
| TaskForm.InitialForm | frontend/src/components/TaskForm.js:13-26 | editing copies the task's title, its description or `''`, and its priority or `'medium'` when falsy; otherwise the defaults |
| TaskForm.HintText | frontend/src/components/TaskForm.js:33-46 | the overlong-title hint, and only that hint, reads exactly like the server's message for the same violation |
| TaskForm.KeyCount | frontend/src/components/TaskForm.js:49 | `Object.keys(errors).length` is at most 3 and is 0 exactly when no input has a hint |
| TaskForm.FormErrors | frontend/src/components/TaskForm.js:30-46 | "required" iff the title is blank; "less than 100" iff it is not blank and longer than 100 code units untrimmed; no title hint otherwise; a description hint iff longer than 500 code units; a priority hint iff not one of the three levels |
| TaskForm.FormErrorsEmptyIff | frontend/src/components/TaskForm.js:48-49 | the form has no hints exactly when all three fields pass |
| TaskForm.WithField | frontend/src/components/TaskForm.js:52-58 | the named input takes the value and the other inputs keep theirs |
| TaskForm.ChangeTouchesOnlyItsHint | frontend/src/components/TaskForm.js:52-58 | editing one input cannot change another input's hint |
| TaskForm.SubmitBody | frontend/src/components/TaskForm.js:68-72 | the submitted title and description are trimmed, the priority is the one selected, and `completed` is not sent |
| TaskForm.SubmissionPassesGates | frontend/src/components/TaskForm.js:60-72 | a payload the form accepts passes both backend gates, and its title is stored exactly as submitted |
| TaskForm.ServerHasNoDescriptionBound | frontend/src/components/TaskForm.js:40-42 | a description of 501 code units gets a hint in the form but passes the create gate |
| TaskForm.StoredTaskOpensCleanly | frontend/src/components/TaskForm.js:13-19 | a task as the store keeps it opens in the edit form with no title or priority hint; a falsy stored priority shows as `'medium'` |
| TaskForm.Form.constructor | frontend/src/components/TaskForm.js:5-10 | the form starts with the defaults and no hints |
| TaskForm.Form.Populate | frontend/src/components/TaskForm.js:13-28 | the effect fills the inputs as `InitialForm` and clears the hints |
| TaskForm.Form.ValidateForm | frontend/src/components/TaskForm.js:30-50 | the hints shown are `FormErrors` of the inputs, and the answer is true exactly when the `errors` object has no key |
| TaskForm.Form.HandleChange | frontend/src/components/TaskForm.js:52-58 | the inputs become `WithField` of the old inputs |
| TaskForm.Form.HandleSubmit | frontend/src/components/TaskForm.js:60-72 | a payload is sent exactly when validation finds no hints; the payload is `SubmitBody` of the inputs and passes both backend gates |

## Left out

- HTTP plumbing is left out: Express `req`/`res`, status codes on the wire, JSON encoding and the route wiring in `backend/server.js`. Handler answers are the `Outcome` and `Reply` datatypes.
- The `catch` blocks that answer 500 with "Failed to …" are left out. The modelled handler bodies cannot throw.
- `frontend/src/services/api.js` (fetch over HTTP), `frontend/src/components/TaskFilter.js` and `frontend/src/components/TaskItem.js` (rendering, locale-dependent dates and priority CSS classes) are left out.
- React state scheduling, effects, rendering, `async`/`await`, `window.confirm` and `console` logging are left out. The App handlers are modelled only through their pure updaters.
- `new Date()` is left out. `createdAt` is an abstract `Timestamp`, passed in by the caller, that the model can only store and compare.
- `parseInt` is left out. The route id arrives already parsed: `None` stands for `NaN`.
- Numbers are integers. `NaN` and fractions are left out.
- `trim` uses a fixed whitespace set: ASCII space, tab, line feed, carriage return, vertical tab, form feed, NBSP, BOM and the two Unicode line separators. `toLowerCase` is ASCII only.
- Body keys other than `title`, `description`, `completed` and `priority` are left out. A JSON object or array sent as a field is the single value `Obj`.
- In the gates, the middleware overwrites `req.body` in place. The model instead returns the normalised body as a new value.
- In the store, the PUT and toggle handlers change the stored task object and send that same object back. The model replaces the task by a new value, so the aliasing between the answer and the stored task is not captured.
- TaskStore.Store.Create: stated only for bodies as the create gate leaves them: a clean title, and a priority that is absent, falsy or one of the levels. It is reached only through that gate (`TaskStore.Store.Post`).
- TaskStore.Store.Update: stated only for patches as the update gate leaves them. It is reached only through that gate (`TaskStore.Store.Put`).
- ErrorHandler.HandleError: `statusCode` and `status` are integers, so a non-numeric status value is not modelled. A stack trace that is a non-string value is not modelled either.
- A route reading a single task by id, and ids chosen as one more than the largest stored id, do not appear in the code. The model follows the code: there is no such route, and ids come from the counter `nextId`.
