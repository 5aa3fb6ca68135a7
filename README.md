# Kanban board client — a verified model

A model of the browser client of a small kanban board (`kanban-app/public/app.js`).
The client fetches tasks from a REST backend and shows them in three status columns:
`todo`, `in-progress` and `done`. Each card has an advance button that moves its task
one step around the cycle `todo → in-progress → done → todo`, and a delete button.
After every successful change the whole board is fetched and rendered again.

The model has five modules:

- `Tasks` (`tasks.dfy`): the task record as the backend sends it, where the status is
  still a raw string. It also holds the `Status` datatype with its wire names, and the
  two lookup tables of the source: `Next` (`statusMap`) and `Label` (`statusLabelMap`).
- `Cards` (`cards.dfy`): `createTaskElement` as a function from a task to a `Card`
  datatype. `Markup` gives the exact `innerHTML` string the source builds, with the id
  written in decimal.
- `Boards` (`board.dfy`): a `Board` class whose three `seq` fields are the three column
  containers. `Render` is `renderTasks` written step by step: clear every container;
  on an empty input, put "No tasks yet" in each and stop; otherwise append each card to
  its container in input order, then put "No tasks" in every container that got nothing.
  `Render` is proved against the function `Rendered`, which says what each column holds
  afterwards.
- `RenderProperties` (`render_properties.dfy`): what `Rendered` guarantees. The columns
  partition the input by status, exhaustively and exclusively. Each column keeps the
  input order. Placeholders appear exactly where a column is empty, and never next to a
  card. Each card appears in its own column only. A render does not depend on what the
  board showed before.
- `Controller` (`controller.dfy`): `loadTasks`, `handleAddTask`, `moveTask` and
  `deleteTask`. The network is replaced by the reply each request gets (`Reply`: the
  request or JSON parse failed, or a parsed body with its `success` flag). The
  confirmation dialog is replaced by the user's answer. The localised date is a
  function parameter `localDate`.

In four places the code behaves differently from what a reader of the page might
expect. The model follows the code:

- Every task is expected to carry one of the three statuses, but the code does not
  check this. For any other status, `lists[task.status]` is a value without
  `appendChild` (undefined, or an inherited member such as `toString`), so the call at
  line 38 throws. `loadTasks` catches the exception at line 15. The board then keeps
  the cards appended so far, with no placeholders. `Render` models this: it returns
  `false`, and `Rendered` describes that partial board. It does not have a
  precondition that rules the case out.
- A mutation reply with `success: false` might be expected to raise an alert. In the
  code only the `catch` blocks alert, which means a failed request or an unparsable
  reply. A reply with `success: false` is silently ignored: no reload and no alert
  (`Controller.UnsuccessfulReplyIsSilent`).
- In the same way, `loadTasks` logs nothing for a reply with `success: false`: lines
  12-17 log only in the `catch` block. `Controller.LoadTasks` reports a log exactly
  for a failed request or a render that throws.
- The button captions carry emoji (`🚀 Start`, `✅ Complete`, `📝 Restart`); the model
  uses the code's strings.

## Model

| member | source | states |
|---|---|---|
| `Tasks.StatusOf` | kanban-app/public/app.js:21-25 | a string is recognised as a status exactly when it is one of the three container keys, and a recognised status has that string as its name |
| `Tasks.NameRoundTrip` | kanban-app/public/app.js:21-25 | every status is recognised under its own key, so keys and statuses correspond one to one |
| `Tasks.Next` | kanban-app/public/app.js:53-57 | the advance target is the next status in the order todo, in-progress, done, wrapping around (rank + 1 mod 3) |
| `Tasks.NextIsThreeCycle` | kanban-app/public/app.js:53-57 | advancing never stays put, not even after two steps, and three steps return to the start |
| `Tasks.LabelsDistinct` | kanban-app/public/app.js:59-63 | the three button captions differ, so the caption shows the current status |
| `Tasks.NamesDiffer` | kanban-app/public/app.js:21-25 | different statuses have different container keys |
| `Cards.DescriptionText` | kanban-app/public/app.js:68 | the text is non-empty exactly when the description is present and non-empty (JavaScript's truthiness of a string), and then it is the description |
| `Cards.CardOf` | kanban-app/public/app.js:48-79 | the card carries the task id as its data id and in both buttons. It carries the title and the given date. It has a description paragraph iff the description is present and non-empty. The advance button targets `Next` of the task's status and is captioned `Label` of it |
| `Cards.Digits` | kanban-app/public/app.js:73-74 | a natural number is written as a non-empty string of decimal digits with no leading zero, except for zero itself |
| `Cards.DigitsRoundTrip` | kanban-app/public/app.js:73-74 | reading the decimal digits written into a button's `onclick` back gives the same id |
| `Cards.DecimalString` | kanban-app/public/app.js:73-74 | an integer id is written as a minus sign exactly when it is negative, followed by a non-empty string of decimal digits with no leading zero (except for zero itself), and the string reads back as the id |
| `Cards.Heading` | kanban-app/public/app.js:70 | the heading is `<h4>`, then the title, then `</h4>`, and the title can be read back from between the tags |
| `Cards.ParagraphMarkup` | kanban-app/public/app.js:71 | no description paragraph gives no markup at all; a paragraph gives `<p>`, its text and `</p>`, and the text can be read back |
| `Cards.MoveArguments` | kanban-app/public/app.js:73 | the arguments of the `moveTask` call are the task id in decimal, a comma, a space and the target key in single quotes, each readable at its place |
| `Cards.MoveTail` | kanban-app/public/app.js:73 | the end of the advance call is followed by the button caption and the closing `</button>`, and the caption can be read back |
| `Cards.MoveButtonMarkup` | kanban-app/public/app.js:73 | the advance button opens the `moveTask(` call, then holds its arguments, then its end and caption, each readable at its place |
| `Cards.DeleteButtonMarkup` | kanban-app/public/app.js:74 | the delete button opens the `deleteTask(` call, then holds the id in decimal, then the call's end and the delete caption, each readable at its place |
| `Cards.ButtonsMarkup` | kanban-app/public/app.js:73-74 | the buttons are the advance button followed by the delete button, each recoverable from the whole |
| `Cards.DateMarkup` | kanban-app/public/app.js:76 | the date block is the `Created:` opening, the formatted date and the closing `</div>`, and the date can be read back |
| `Cards.MarkupHeadingThenParagraph` | kanban-app/public/app.js:70-71 | the card markup begins with the `<h4>` title heading, and a `<p>` follows it exactly when the card has a description paragraph |
| `Cards.MarkupEndsWithDate` | kanban-app/public/app.js:76 | the card markup ends with the `Created:` date block |
| `Boards.KnownPrefix` | kanban-app/public/app.js:36-39 | the number of leading tasks whose status is a column key: every task before it has a known status, and the task at it (if any) has an unknown one |
| `Boards.Filter` | kanban-app/public/app.js:36-39 | the tasks selected for a column all have that column's status and are no more than the input |
| `Boards.CardEntries` | kanban-app/public/app.js:36-38 | one card per task, at the same place, each being `CardOf` of that task |
| `Boards.Rendered` | kanban-app/public/app.js:20-46 | after a completed render no column is left without children, and a column never holds more children than there are tasks, except the one placeholder of an empty list |
| `Boards.Board.FillAll` | kanban-app/public/app.js:27-32 | every container is set to the given children (cleared, or the "No tasks yet" placeholder) |
| `Boards.Board.PlaceCards` | kanban-app/public/app.js:36-39 | starting from empty containers, each column holds the cards of its tasks, in input order, up to the first task with an unknown status |
| `Boards.Board.MarkEmptyColumns` | kanban-app/public/app.js:41-45 | a container without children gets the single "No tasks" placeholder, and the others do not change |
| `Boards.Board.Render` | kanban-app/public/app.js:20-46 | it reports success iff every status is known, and every column ends up as `Rendered` says, whatever the board held before |
| `RenderProperties.FilterCount` | kanban-app/public/app.js:36-39 | a column holds each task of its status exactly as often as the input does, and no task of another status |
| `RenderProperties.FilterPartition` | kanban-app/public/app.js:36-39 | when all statuses are known, the three columns together hold exactly the input tasks, each once (the multiset union is the input) |
| `RenderProperties.FilterKeepsInputOrder` | kanban-app/public/app.js:36-39 | the k-th task of a column is the input task at the k-th of a strictly increasing list of indices, which are exactly the indices of the tasks with that status; the input order is kept and nothing is sorted |
| `RenderProperties.FilterEmptyIff` | kanban-app/public/app.js:36-39 | a column receives no task iff no input task has its status |
| `RenderProperties.RenderEmptyInput` | kanban-app/public/app.js:29-33 | an empty input leaves exactly one "No tasks yet" placeholder and no card in every column |
| `RenderProperties.RenderPlaceholderIff` | kanban-app/public/app.js:41-45 | for a non-empty input with known statuses, a column shows "No tasks" iff no task has its status. A placeholder is always the column's only child; otherwise the column holds just its cards |
| `RenderProperties.CardInItsColumnOnly` | kanban-app/public/app.js:36-39 | each task's card is in the column of its status and in no other column |
| `RenderProperties.RenderThrownNoPlaceholder` | kanban-app/public/app.js:38 | when a task with an unknown status stops the render, every column holds only cards, and fewer than the input has tasks |
| `RenderProperties.RenderForgetsPreviousContents` | kanban-app/public/app.js:27 | two boards with any previous contents, or the same board twice, are identical after rendering the same tasks |
| `RenderProperties.RenderIsIdempotent` | kanban-app/public/app.js:20-46 | rendering tasks onto a board that already shows them changes nothing |
| `Controller.Verb` | kanban-app/public/app.js:89-131 | the HTTP method (lines 90, 110 and 131) tells the three kinds of request apart: POST for a creation, PUT for a status update, DELETE for a removal |
| `Controller.Path` | kanban-app/public/app.js:89-130 | a creation goes to `/api/tasks` and nothing else does; the others go to `ItemPath` of their task id, `/api/tasks/` followed by a string that reads back as the id |
| `Controller.ItemPath` | kanban-app/public/app.js:109 | the path of one task is `/api/tasks/` followed by exactly `DecimalString` of the id: canonical decimal digits with no leading zero, which read back as the id |
| `Controller.Body` | kanban-app/public/app.js:92-112 | a creation sends exactly the keys title, description and status with the request's values; a status update sends exactly the key status; a removal sends no body |
| `Controller.WireDetermines` | kanban-app/public/app.js:89-132 | the method, path and body together determine the request, so two different requests never look the same to the backend |
| `Controller.RequestFor` | kanban-app/public/app.js:84-132 | only a declined deletion sends no request. A form submission POSTs the three field values, keyed title, description and status, to `/api/tasks`. Advancing PUTs `{status: newStatus}` to `/api/tasks/<id>`, and a confirmed deletion DELETEs `/api/tasks/<id>` with no body |
| `Controller.FailureMessage` | kanban-app/public/app.js:101-141 | an alert reads "Failed to ", then the action's verb (add, move or delete, matching the action), then " task" |
| `Controller.FailureMessagesDistinct` | kanban-app/public/app.js:103-141 | the alerts of the three actions differ, so an alert names the action that failed |
| `Controller.Handle` | kanban-app/public/app.js:81-143 | the request matches the action. A reload happens iff a request was sent and its reply has `success`. The form is reset only on a reload after a submission. An alert, with the action's own message, comes iff the request or its parsing failed |
| `Controller.DeclinedDeleteDoesNothing` | kanban-app/public/app.js:127 | a declined deletion has no effect at all, whatever the reply would be |
| `Controller.ReloadAndAlertExclusive` | kanban-app/public/app.js:97-104 | no action both reloads and alerts |
| `Controller.UnsuccessfulReplyIsSilent` | kanban-app/public/app.js:117-123 | a reply with `success` false triggers no reload, no form reset and no alert |
| `Controller.AdvanceAction` | kanban-app/public/app.js:73 | the advance button moves its own task, to a status key that reads back as the button's target |
| `Controller.DeleteAction` | kanban-app/public/app.js:74 | the delete button deletes its own task: confirmed, it sends the removal of the card's task to `/api/tasks/<id>`; declined, it sends nothing |
| `Controller.CardButtonsTargetTheirTask` | kanban-app/public/app.js:73-74 | a card's advance button requests its own task's move to `Next` of its status. Its delete button requests its own task's removal when confirmed, and nothing when declined |
| `Controller.LoadTasks` | kanban-app/public/app.js:7-18 | the board is replaced by the render of the reply's tasks only when `success` is set, and is otherwise unchanged. An error is logged iff the request fails or the render throws |
| `Controller.Perform` | kanban-app/public/app.js:97-99 | an action's effects are `Handle`'s, and the board changes only through the reload a successful reply triggers |

## Left out

- Network and event loop: `fetch`, `response.json()`, `async`/`await`, and the ordering of overlapping requests. Each request's outcome is an input `Reply`. The model does not capture a reload that races a later one.
- `console.error` is out, except that `LoadTasks` reports whether something would be logged. `alert` is modelled as the message in `Effects`. `confirm` is the boolean `confirmed` of `DeleteTask`.
- DOM plumbing (`getElementById`, `innerHTML`, `appendChild`, `dataset`, `preventDefault`, `form.reset()`) and the `DOMContentLoaded`/`submit` wiring are out. The containers are the `Board` fields and a form reset is the `resetForm` flag.
- `new Date(...).toLocaleDateString()` depends on the locale and is a browser call. It is the parameter `localDate`.
- HTML escaping: title and description are opaque strings pasted into the markup unchanged. The model does not reason about how a title containing markup would parse.
- `Cards.CardOf`: requires a known status. For any other status `createTaskElement` would build a card with `undefined` in its button, but `appendChild` throws on the next line (38), so such a card never reaches the board.
- `Cards.DecimalString`: writes every integer as its exact decimal, which is what JavaScript prints only for safe integers (magnitude below 2^53); ids are taken to be safe integers. From 2^53 on, JavaScript prints the shortest digits that read back as the same double, padded with zeros (2^56 is written `72057594037927940`), and exponent notation from 1e21. Non-integer ids are not modelled.
- JSON shapes beyond the model's types are out: `success` as a non-boolean truthy value, `data` missing or not an array, a description that is a falsy non-string.
- `Controller.Perform`: treats the reload as following the reply. In the source the `loadTasks()` call is not awaited, so its completion is not ordered with the handler's end.
