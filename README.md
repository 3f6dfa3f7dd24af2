# Hamro-Palo queue core in Dafny

Hamro-Palo is a React demo of a queue-ticketing system for government offices. This project
models the logic behind five of its files and proves properties of that model:

- **Helpers** (`helpers.dfy`). The utility functions of `src/utils/helpers.js`:
  - token generation: a department prefix plus a two-digit number;
  - the 1-based queue position;
  - the wait estimate and the remaining-time clamp;
  - the status and department colour tables.
- **Operator dashboard** (`operator_dashboard.dfy`). The operator's counter view:
  - the pending queue: the waiting tickets of the selected counter's department;
  - the three handlers `callNext`, `completeService` and `markNoShow`, which rewrite the queue, the counters and the ticket history;
  - a notification list capped at five;
  - the background timer that appends a waiting ticket.

  Each handler is a pure transition on a `Snapshot` of the component's state. The class
  `Dashboard` holds the fields and runs one method per handler, each one stated as that
  transition.
- **Queue status** (`queue_status.dfy`). The public board:
  - a case-insensitive token search with three outcomes: a position in the whole queue, being served, or not found;
  - while auto-refresh is on, a timer moves `current` one item down the queue.
- **Ticket wizard** (`get_ticket.dfy`). A five-step state machine:
  1. pick an office;
  2. pick a department;
  3. pick a service;
  4. generate the ticket;
  5. show it.

  It includes the `departments`/`services` derivation and the ticket that `generateTicket` builds.
- **Feedback** (`feedback.dfy`):
  - rating to text and colour;
  - the star hover preview;
  - the submit guard;
  - the quick-option toggle that edits the free text.

Supporting modules:

- `js_builtins.dfy` models the JavaScript library behaviour the code relies on:
  - `findIndex`, `filter`, `map`;
  - `includes`, `replace` with a string pattern (first occurrence only);
  - `trim` blankness, ASCII `toLowerCase`/`toUpperCase`;
  - `Number.prototype.toString` and `padStart`.
- `fixtures.dfy` gives the shapes of the JSON fixture records.
- `wrappers.dfy` gives `Option`, which stands for `null`/`undefined`.

Inputs that are not deterministic become parameters:

- Every `Math.random()` draw becomes a parameter constrained to its range.
- Every clock reading (`Date.now()`, `new Date()`) becomes an integer `now` in milliseconds.
- The QR code library's result becomes a parameter `qrUrl`.
- Each `async` handler is split at its `await` into the part before and the continuation.

The model follows the code rather than an idealised queue manager:

- `callNext` has no busy-counter check. Called on a busy counter, it overwrites the token, and `SecondCallOverwritesBusyCounter` proves it. Only the rendering (`src/pages/OperatorDashboard.jsx:258`, `:297-298`, `:453`) hides the button when the counter is busy.
- Completing or dismissing a ticket edits the matching history entries in place. Nothing is appended.
- Generated and injected tokens are never checked for uniqueness. `ArrivalTokenMayRepeatIssued` shows that a background arrival can get exactly the token the ticket page issues.
- The status page reports positions in the whole queue, not in the department's queue.

In these four points a description of the intended system would ask for more (busy checks, appended history, unique tokens). The model does what the code does.

## Model

| member | source | states |
|---|---|---|
| JsBuiltins.FindIndex | src/utils/helpers.js:59 | `findIndex`: -1 exactly when no element satisfies the predicate; otherwise the index of the first one that does |
| JsBuiltins.FindIndexAgree | src/pages/QueueStatusPage.jsx:56-58 | two searches that agree position by position return the same index |
| JsBuiltins.Filter | src/pages/OperatorDashboard.jsx:28-30 | `filter`: an element is in the result exactly when it is in the input and passes; the result is never longer |
| JsBuiltins.Map | src/pages/OperatorDashboard.jsx:41-45 | `map`: same length, and each element is the function applied to the input element at the same index |
| JsBuiltins.FilterConcat | src/pages/OperatorDashboard.jsx:28-30 | filtering a concatenation concatenates the filtered parts, so `filter` keeps the order |
| JsBuiltins.FilterAllPass | src/pages/OperatorDashboard.jsx:87 | when every element passes, `filter` returns its input |
| JsBuiltins.FilterHead | src/pages/OperatorDashboard.jsx:33-35 | a filtered sequence is empty exactly when `findIndex` finds nothing; its head is the element `findIndex` finds |
| JsBuiltins.IndexFrom | src/pages/FeedbackPage.jsx:283 | the result is -1 or an occurrence at or after the start index, and no occurrence lies before it |
| JsBuiltins.IncludesWitness | src/pages/FeedbackPage.jsx:283 | an occurrence at index j makes `includes` true, with the first occurrence at or before j |
| JsBuiltins.IncludesLongerPattern | src/pages/FeedbackPage.jsx:283-284 | a text that contains `p + q` contains `p`, and its first `p` comes no later than its first `p + q` |
| JsBuiltins.ReplaceFirst | src/pages/FeedbackPage.jsx:284 | `replace` with a string: without an occurrence the string is returned unchanged; otherwise only the first occurrence is replaced, with the exact length and the slices before and after kept |
| JsBuiltins.ReplaceByEmptyCuts | src/pages/FeedbackPage.jsx:284 | replacing by the empty string cuts out the first occurrence and joins the text before and after it |
| JsBuiltins.CaseFolding | src/pages/QueueStatusPage.jsx:57 | lower-casing is idempotent and forgets an earlier upper-casing; both keep the length |
| JsBuiltins.LowerCaseInjectiveOnUpper | src/pages/QueueStatusPage.jsx:139 | two upper-case strings that lower-case alike are equal |
| JsBuiltins.CaseMappingKeepsBlank | src/pages/QueueStatusPage.jsx:51 | case mapping keeps a string blank or non-blank under `trim` |
| JsBuiltins.NumberToString | src/utils/helpers.js:55 | `toString` of a non-negative integer is a non-empty string of decimal digits |
| JsBuiltins.NumberToStringRoundTrip | src/utils/helpers.js:55 | the decimal rendering reads back as the number |
| JsBuiltins.PadStart | src/utils/helpers.js:55 | `padStart`: length `max(len, \|s\|)`; the input is a suffix of the result and everything before it is the fill character |
| Helpers.CalculateWaitTime | src/utils/helpers.js:36-42 | the remaining time is never negative; it is the estimate minus the whole elapsed minutes, or 0 when that would be negative |
| Helpers.RemainingWithinEstimate | src/utils/helpers.js:39-40 | once the ticket is issued, the remaining time never exceeds the estimate, and for the first minute equals it |
| Helpers.RemainingNonIncreasing | src/utils/helpers.js:39-40 | the remaining time never grows as the clock advances |
| Helpers.EstimateWaitTime | src/utils/helpers.js:63-65 | the wait is 0 at position 0 or with a zero service time, and never negative for non-negative inputs |
| Helpers.EstimateWaitTimeMonotone | src/utils/helpers.js:63-65 | the wait is 0 at position 0 and never decreases with position |
| Helpers.TokenPrefix | src/utils/helpers.js:45-53 | the five department ids map to A, B, C, D, V; every other department gets X |
| Helpers.GenerateTokenNumber | src/utils/helpers.js:44-56 | a token has at least three characters and starts with the department's prefix |
| Helpers.TokenFormat | src/utils/helpers.js:53-55 | every token has three characters: the prefix, then two digits that read back as the draw |
| Helpers.TwoDigitNumber | src/utils/helpers.js:55 | a draw up to 99, padded to two, is two digits that read back as the draw |
| Helpers.TokenDecodes | src/utils/helpers.js:53-55 | two tokens are equal exactly when the draws and the prefixes are equal |
| Helpers.GetQueuePosition | src/utils/helpers.js:58-61 | the result is in 0..\|queue\|; 0 exactly when no item has the token; otherwise item p-1 has it and no earlier item does |
| Helpers.GetStatusColor | src/utils/helpers.js:78-86 | each of the four statuses has its class; exactly the other statuses get the gray default |
| Helpers.GetDepartmentColor | src/utils/helpers.js:67-76 | each of the five department names has its class; exactly the other names get the gray default |
| OperatorDashboard.FindCounter | src/pages/OperatorDashboard.jsx:27 | None exactly when no counter has the id; otherwise a counter of the list with that id |
| OperatorDashboard.FindCounterIsFirst | src/pages/OperatorDashboard.jsx:27 | the counter found is the first one with that id |
| OperatorDashboard.PendingQueue | src/pages/OperatorDashboard.jsx:27-30 | empty without a selected counter; otherwise it holds exactly the waiting items of that counter's department |
| OperatorDashboard.ServingToken | src/pages/OperatorDashboard.jsx:65-67 | a token exactly when the counter is found and its `currentToken` is neither null nor empty; that token is the counter's own |
| OperatorDashboard.MarkCalled | src/pages/OperatorDashboard.jsx:41-45 | same length; items with the token become in-progress and every other item is unchanged |
| OperatorDashboard.AssignToken | src/pages/OperatorDashboard.jsx:46-50 | same length; counters with the selected id get the new `currentToken` and every other counter is unchanged |
| OperatorDashboard.RemoveToken | src/pages/OperatorDashboard.jsx:87 | an item stays exactly when it was in the queue and does not carry the token; the queue never grows |
| OperatorDashboard.CloseCompleted | src/pages/OperatorDashboard.jsx:72-81 | same length; entries with the token become completed with the completion time and their own simulated wait; the others are unchanged |
| OperatorDashboard.CloseNoShow | src/pages/OperatorDashboard.jsx:112-116 | same length; entries with the token become no-show; the others are unchanged |
| OperatorDashboard.PushNotification | src/pages/OperatorDashboard.jsx:147 | the new notification comes first, followed by a prefix of at most four earlier ones; at most five in all |
| OperatorDashboard.PendingHeadIsFirstWaiting | src/pages/OperatorDashboard.jsx:33-35 | the head of the pending queue is the first waiting item of the counter's department (FIFO) |
| OperatorDashboard.PendingQueueKeepsOrder | src/pages/OperatorDashboard.jsx:28-30 | the pending queue of a concatenation is the concatenation of the pending queues |
| OperatorDashboard.ArrivalJoinsPendingAtEnd | src/pages/OperatorDashboard.jsx:164-173 | an appended waiting ticket joins the end of its department's pending queue and no other |
| OperatorDashboard.CalledTicketInProgress | src/pages/OperatorDashboard.jsx:41-45 | after a call, the called ticket is in the queue with status in-progress |
| OperatorDashboard.AssignedCounterFound | src/pages/OperatorDashboard.jsx:46-50 | after an assignment, the counter found under the id is the old one holding the new token |
| OperatorDashboard.AssignedCounterServes | src/pages/OperatorDashboard.jsx:88-92 | after clearing, the counter serves nobody; after assigning a non-empty token, it serves that token |
| OperatorDashboard.RemoveAfterCall | src/pages/OperatorDashboard.jsx:41-93 | removing a token after marking it called removes exactly what removing it from the old queue removes |
| OperatorDashboard.RemoveTokenEffect | src/pages/OperatorDashboard.jsx:87 | a queue in which no item carries the token is returned unchanged |
| OperatorDashboard.HistoryEditedInPlace | src/pages/OperatorDashboard.jsx:72-81 | the history keeps its length and tokens; entries with the token become completed (at `now`, each with a wait in 5..34) or no-show; the others are unchanged |
| OperatorDashboard.ArrivalToken | src/pages/OperatorDashboard.jsx:160 | an arrival token is 'A' followed by decimal digits |
| OperatorDashboard.ArrivalTokenFormat | src/pages/OperatorDashboard.jsx:160 | the digits read back as the draw; the token has three characters up to 99 and four from 100 |
| OperatorDashboard.ArrivalTokenMayRepeatIssued | src/pages/OperatorDashboard.jsx:160 | an arrival draw of 20..99 yields exactly the token the ticket page issues for civil registration |
| OperatorDashboard.CallNextStep | src/pages/OperatorDashboard.jsx:32-61 | nothing changes with an empty pending queue. Otherwise: the called token's items become in-progress and the rest of the queue is unchanged; `current` is the called ticket; every counter with the selected id gets the called token (`AssignToken`), the first of them is the one found, and other counters are unchanged; the history is kept; lastAction is set and the call's notification is pushed onto the list |
| OperatorDashboard.CompleteServiceStep | src/pages/OperatorDashboard.jsx:64-101 | nothing changes on an idle counter. Otherwise: the queue is the old one without the served token's items (no item carries it, all others stay); the selected counter's token is cleared and every other counter and field is unchanged; history entries with the token are completed at `now`, each with its own simulated wait, the others unchanged, length kept; lastAction is set and the completion notification pushed; `current` stays |
| OperatorDashboard.MarkNoShowStep | src/pages/OperatorDashboard.jsx:104-136 | nothing changes on an idle counter. Otherwise: the queue is the old one without the served token's items; the selected counter's token is cleared and every other counter is unchanged; history entries with the token become no-show and the others are unchanged; lastAction is set and the no-show notification pushed |
| OperatorDashboard.ArrivalStep | src/pages/OperatorDashboard.jsx:157-176 | without an arrival nothing changes; otherwise one waiting ticket is appended after the unchanged queue, its notification is pushed onto the list, and nothing else changes |
| OperatorDashboard.CloseSameQueueEffect | src/pages/OperatorDashboard.jsx:85-128 | completing and marking a no-show have the same effect on the queue and the counters |
| OperatorDashboard.CallThenComplete | src/pages/OperatorDashboard.jsx:32-101 | calling then completing removes exactly the called token's items and frees the counter |
| OperatorDashboard.PendingAfterCall | src/pages/OperatorDashboard.jsx:28-45 | after a call, the pending items are the old pending items without the called token |
| OperatorDashboard.PendingAfterCallStep | src/pages/OperatorDashboard.jsx:27-51 | the pending queue after `callNext` is the old one without the called token |
| OperatorDashboard.RemoveHeadToken | src/pages/OperatorDashboard.jsx:35 | when the second item has a different token, removing the head's token puts the second item first |
| OperatorDashboard.SecondCallOverwritesBusyCounter | src/pages/OperatorDashboard.jsx:32-51 | a second call on a busy counter calls the next waiting ticket and overwrites the token, while the first ticket stays in-progress in the queue |
| OperatorDashboard.Dashboard.constructor | src/pages/OperatorDashboard.jsx:21-25 | the fixtures, counter-1 selected, no last action, no notifications |
| OperatorDashboard.Dashboard.SelectCounter | src/pages/OperatorDashboard.jsx:232 | only the selected counter changes |
| OperatorDashboard.Dashboard.AddNotification | src/pages/OperatorDashboard.jsx:139-147 | only the notifications change: the new one is pushed; at most five |
| OperatorDashboard.Dashboard.ExpireNotification | src/pages/OperatorDashboard.jsx:150-152 | only the notifications change: those with the id are removed |
| OperatorDashboard.Dashboard.CallNext | src/pages/OperatorDashboard.jsx:32-61 | the new state is `CallNextStep` of the old one |
| OperatorDashboard.Dashboard.CompleteService | src/pages/OperatorDashboard.jsx:64-101 | the new state is `CompleteServiceStep` of the old one, with one simulated wait per history entry |
| OperatorDashboard.Dashboard.MarkNoShow | src/pages/OperatorDashboard.jsx:104-136 | the new state is `MarkNoShowStep` of the old one |
| OperatorDashboard.Dashboard.SimulateArrival | src/pages/OperatorDashboard.jsx:157-176 | the new state is `ArrivalStep` of the old one |
| QueueStatus.TokenSearch | src/pages/QueueStatusPage.jsx:50-79 | null exactly for a blank input. Otherwise: a matching queue item wins, at its 1-based position in the whole queue with wait 15 × position, and it is the first match; with no queue match, the served ticket (position 0, wait 0, being-served) if it matches, else not found |
| QueueStatus.SearchIsCaseInsensitive | src/pages/QueueStatusPage.jsx:56-58 | upper- or lower-casing the input does not change the result |
| QueueStatus.SearchAgreesWithQueuePosition | src/pages/QueueStatusPage.jsx:56-62 | with upper-case tokens and input, the position is `getQueuePosition` and the wait is `estimateWaitTime` at 15 minutes; position 0 means being served or not found |
| QueueStatus.Advance | src/pages/QueueStatusPage.jsx:35-40 | `current` moves to the item after its first occurrence, unless it is missing or last; the queue is not touched |
| QueueStatus.AdvanceWalksQueue | src/pages/QueueStatusPage.jsx:31-42 | with unique tokens, n opened gates move `current` n items on, stopping at the last item |
| QueueStatus.StatusPage.constructor | src/pages/QueueStatusPage.jsx:19-23 | empty search, no result, auto-refresh on |
| QueueStatus.StatusPage.SetSearchToken | src/pages/QueueStatusPage.jsx:139 | the input is stored upper-cased |
| QueueStatus.StatusPage.HandleTokenSearch | src/pages/QueueStatusPage.jsx:50-79 | the result is `TokenSearch` of the current state |
| QueueStatus.StatusPage.SetAutoRefresh | src/pages/QueueStatusPage.jsx:162 | the checkbox value is stored |
| QueueStatus.StatusPage.Tick | src/pages/QueueStatusPage.jsx:26-45 | with auto-refresh off, nothing; otherwise current advances when the gate opens, and lastUpdated is the clock |
| QueueStatus.StatusPage.RefreshQueue | src/pages/QueueStatusPage.jsx:81-91 | the queue is unchanged and lastUpdated is the clock |
| GetTicket.FindOffice | src/pages/GetTicketPage.jsx:67 | None exactly when no office has the id; otherwise an office of the list with that id |
| GetTicket.FindDepartment | src/pages/GetTicketPage.jsx:66 | the same for departments |
| GetTicket.FindService | src/pages/GetTicketPage.jsx:65 | the same for services |
| GetTicket.OfficeDepartments | src/pages/GetTicketPage.jsx:38 | empty without an office or when its id is unknown; otherwise that office's departments |
| GetTicket.DepartmentServices | src/pages/GetTicketPage.jsx:39 | the same derivation for services from the derived departments |
| GetTicket.IssueTicket | src/pages/GetTicketPage.jsx:65-79 | an issued ticket's token starts with the department's prefix; its issue time is the clock, its position the position draw, and its wait the wait draw times its estimated time |
| GetTicket.IssueSucceedsIffServiceFound | src/pages/GetTicketPage.jsx:65-73 | generating succeeds exactly when the selected service is among the derived services |
| GetTicket.IssuedTicketContents | src/pages/GetTicketPage.jsx:69-77 | the ticket's token is `generateTokenNumber` of the department id; it carries the chosen names, the service's time and the issue time; its position is in 1..5; its wait is k × the service's time for some k in 1..5 |
| GetTicket.ListedChoicesIssue | src/pages/GetTicketPage.jsx:38-77 | choosing a listed office, department and service always issues a ticket with their names |
| GetTicket.GenerateStep | src/pages/GetTicketPage.jsx:91-95 | a built ticket sets the ticket, the QR URL, not generating and step 5; a throw leaves all four unchanged |
| GetTicket.TicketWizard.constructor | src/pages/GetTicketPage.jsx:26-33 | step 1, nothing chosen, no ticket, an empty QR URL, not generating |
| GetTicket.TicketWizard.SelectOffice | src/pages/GetTicketPage.jsx:41-46 | the office is set, department and service are cleared, step 2 |
| GetTicket.TicketWizard.SelectDepartment | src/pages/GetTicketPage.jsx:48-52 | the department is set, the service is cleared, step 3; the office stays |
| GetTicket.TicketWizard.SelectService | src/pages/GetTicketPage.jsx:54-57 | the service is set, step 4; office and department stay |
| GetTicket.TicketWizard.BeginGenerate | src/pages/GetTicketPage.jsx:60 | generating is on |
| GetTicket.TicketWizard.FinishGenerate | src/pages/GetTicketPage.jsx:63-95 | returns `IssueTicket` of the choices and applies `GenerateStep`; the wizard invariant is kept |
| GetTicket.TicketWizard.ResetForm | src/pages/GetTicketPage.jsx:98-104 | step 1 with nothing chosen and no ticket; the QR URL, `hasInsurance` and `isGenerating` stay |
| Feedback.RatingText | src/pages/FeedbackPage.jsx:48-57 | one to five stars give Poor, Fair, Good, Very Good, Excellent; anything else gives the invitation |
| Feedback.RatingColor | src/pages/FeedbackPage.jsx:59-63 | red exactly up to two stars, yellow exactly at three, green exactly from four |
| Feedback.ColorFollowsLabel | src/pages/FeedbackPage.jsx:48-63 | for real ratings: red for Poor and Fair, yellow for Good, green for Very Good and Excellent |
| Feedback.DisplayedRating | src/pages/FeedbackPage.jsx:231-233 | the hovered star when non-zero, the rating otherwise |
| Feedback.FilledCount | src/pages/FeedbackPage.jsx:206-223 | of stars 1..n at most n are filled |
| Feedback.FilledCountIsClamped | src/pages/FeedbackPage.jsx:206-223 | the number of filled stars among 1..n is the displayed rating clamped to 0..n |
| Feedback.FilledStarsArePrefix | src/pages/FeedbackPage.jsx:206-223 | the five stars show as many filled as the displayed rating clamped to 0..5, and the filled ones form a prefix |
| Feedback.DisplayedColor | src/pages/FeedbackPage.jsx:231 | gray while the displayed rating is zero, otherwise its rating colour |
| Feedback.CutBareOption | src/pages/FeedbackPage.jsx:284 | without an `option + ". "` in the text, the two replacements cut out exactly the first occurrence of the option |
| Feedback.CutOptionWithSeparator | src/pages/FeedbackPage.jsx:284 | with an `option + ". "`, its first occurrence is cut out, then the first bare option of what remains if there is one; the text shrinks by at least the option's length |
| Feedback.ToggleOption | src/pages/FeedbackPage.jsx:282-287 | a missing option is added: alone on an empty text, after ". " otherwise, and is then contained. A contained option is cut out: without an `option + ". "` exactly its first occurrence goes; otherwise that slice goes, then the first bare option left, if any; the text shrinks by at least the option's length |
| Feedback.ToggleTwiceFromEmpty | src/pages/FeedbackPage.jsx:283-287 | on an empty text, clicking an option twice gives the empty text back |
| Feedback.ToggleTwiceLeavesSeparator | src/pages/FeedbackPage.jsx:283-287 | adding then removing a second option leaves the separator behind ("Fast service. ") |
| Feedback.FeedbackForm.constructor | src/pages/FeedbackPage.jsx:13-17 | no rating, no hover, empty text, not submitted or submitting |
| Feedback.FeedbackForm.HoverStar | src/pages/FeedbackPage.jsx:213 | the hovered star is set |
| Feedback.FeedbackForm.LeaveStar | src/pages/FeedbackPage.jsx:214 | the hover is cleared |
| Feedback.FeedbackForm.ClickStar | src/pages/FeedbackPage.jsx:215 | the rating is set |
| Feedback.FeedbackForm.EditFeedback | src/pages/FeedbackPage.jsx:247 | the text is replaced |
| Feedback.FeedbackForm.ToggleQuickOption | src/pages/FeedbackPage.jsx:282-288 | the text becomes `ToggleOption` of the old text |
| Feedback.FeedbackForm.BeginSubmit | src/pages/FeedbackPage.jsx:19-23 | it goes on exactly when there is a rating, and only then does submitting begin; whenever the submit button is enabled (it is disabled without a rating or while submitting, line 308) it goes on, and once it goes on the button is disabled |
| Feedback.FeedbackForm.FinishSubmit | src/pages/FeedbackPage.jsx:36-37 | submitted, no longer submitting |
| Feedback.FeedbackForm.ResetForm | src/pages/FeedbackPage.jsx:40-46 | no rating, no hover, empty text, not submitted or submitting |

## Left out

- Random draws are parameters constrained to their ranges. The random-number generator and the probability of each gate are not modelled.
- Timers, intervals and `async`:
  - `setInterval`/`setTimeout` scheduling, the 1.5-second simulated delays and the five-second notification expiry are not modelled; only the state change of each callback is.
  - State changes that interleave with an `await` are not modelled, because each continuation reads the current fields.
  - `debounce` (`src/utils/helpers.js:113-123`).
- Clock readings are integers (milliseconds). In the records, ISO time strings and `Date` objects are these integers too; their formatting is not modelled.
- `formatTime`, `formatDate` and the locale formatting are host-library behaviour (`src/utils/helpers.js:21-34`).
- Foreign calls:
  - QR code generation (`src/utils/helpers.js:4-19`) is a parameter of `FinishGenerate`;
  - Web Audio in `playNotificationSound` (`src/utils/helpers.js:88-111`);
  - `console.log`, `window.print` and `history.back`.
- `user: user.personalInfo` on the issued ticket and the QR payload: the user fixture is not part of this model.
- Lookup tables: the `|| default` fallback is modelled for keys absent from the tables. Keys every JavaScript object inherits (such as `constructor`) would return inherited values in the source; the model treats them as absent.
- Default parameters: `calculateWaitTime`'s `estimatedTime = 15` (`src/utils/helpers.js:36`) and `estimateWaitTime`'s `avgServiceTime = 15` (`src/utils/helpers.js:63`) are explicit arguments, and `DefaultMinutes` is that 15. No page calls these helpers (nor `getQueuePosition`): the status page hard-codes 15 minutes per ticket (`src/pages/QueueStatusPage.jsx:62`, `MinutesPerTicket` here), and `SearchAgreesWithQueuePosition` proves that equals `EstimateWaitTime(p, DefaultMinutes)`.
- Case mapping covers the ASCII letters only; Unicode case mapping and special casing are not modelled.
- The step labels, the per-row "min" counters, the character counter and all other rendering (JSX, Tailwind classes, animations) are not modelled.
- `src/pages/AnalyticsPage.jsx`, the presentational pages and components, and `src/App.jsx` are not part of this model.
- The contents of the JSON fixtures are constructor parameters; only their record shapes are modelled.
- Feedback.FeedbackForm.BeginSubmit: the event's `preventDefault` is not modelled.
- GetTicket.TicketWizard.FinishGenerate: the ticket is built from the fields as they are when the delay ends. The source's closure reads the values of the render that started the handler; the two agree unless the fields change during the delay.
