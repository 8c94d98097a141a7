# A verified model of the companion chat bot's reminder and webhook core

The bot is a small webhook server in `index.js`. It receives events from a
messaging platform. It answers text messages with a completion from a language
model and greets new followers. It also keeps per-user timers: every event
from a user schedules "sweet" push reminders due 2, 4, 8 and 24 hours later
(or at the minute offsets `REMINDER_MINUTES` configures). As proved below,
reminders scheduled by an earlier event are not cancelled by a later one, so
they come due whether or not the user has written since.

The model has two layers:

- Functions on a value `World` (module `Reminders`). A `World` holds:
  - the `users` map;
  - every timer `setTimeout` created (`issued`; a handle is an index into it);
  - the `cancelled` and `fired` handles;
  - the messages sent.

  Its functions:

  - `Cleared` is `clearTimers`;
  - `Scheduled` is `scheduleReminders`;
  - `Touched` is the record update of line 32 followed by `scheduleReminders`;
  - `Fired` is one timer callback;
  - `Step` is one webhook loop body;
  - `Run` is the whole loop.
- A class `Process.Bot` with the same state as mutable fields. Its methods are
  `ClearTimers`, `ScheduleReminders`, `HandleEvent`, `HandleWebhook` and
  `FireTimer`. Each is proved to leave exactly the state the matching
  function gives. Each of these five also keeps the table invariant
  `WellFormed`.

The string rules of the bot use JavaScript's own semantics on UTF-16 code
units (module `JsStrings`):

- `split(',')`;
- `trim()`, with the ECMAScript white space and line terminator set;
- `parseInt(s, 10)`;
- `slice(0, 4000)`;
- the case-insensitive keyword pattern.

The outside world is a parameter `Env`, indexed by the event's position in the
batch:

- the clock;
- the completion API's answer to each request;
- whether each `replyMessage` resolves.

`Math.random` in `pick` is the parameter `nick`, a valid index into the
nicknames.

Central result: the webhook path never cancels a timer. Line 32 stores
`timers: []` before `scheduleReminders` runs, so the `clearTimers` inside it
finds nothing to cancel. Every earlier reminder stays live.
`Reminders.WebhookNeverCancels`, `Reminders.TouchedTwiceKeepsFirst` and
`Reminders.WebhookLiveGrowth` state this. `Reminders.ScheduledTwiceCancelsFirst`
proves that `scheduleReminders` on its own does replace.

Two consequences of the code:

- On the webhook path, a second event from the same user leaves both reminder
  sets pending. Only a direct call of `scheduleReminders` replaces the earlier
  set (`Reminders.TouchedTwiceKeepsFirst`, `Reminders.ScheduledTwiceCancelsFirst`).
- Only missing or blank completion content gets the fallback phrase. Three
  things reject the async handler: a rejected completion call, a rejected
  `replyMessage`, and the TypeError of a message event without a `message`.
  The handler then ends, and the later events of the same batch are not
  processed (`Reminders.WebhookStops`).

## Model

| member | source | states |
|---|---|---|
| Config.MinutesText | index.js:62 | the configured text when it is set and non-empty, otherwise `120,240,480,1440` |
| Config.ReminderMinutes | index.js:62-64 | one entry per comma-separated piece, in order; entry i is `parseInt` of trimmed piece i |
| Config.MinutesRoundTrip | index.js:62-64 | a text of decimal numbers joined by commas reads back as exactly those numbers, in order |
| Config.DefaultMinutes | index.js:62-64 | unset or empty configuration gives the offsets 120, 240, 480 and 1440 |
| JsStrings.Split | index.js:63 | one piece more than there are commas; no piece contains a comma; joining the pieces with commas gives the input back |
| JsStrings.SplitJoin | index.js:63 | splitting comma-free pieces joined by commas gives the pieces back |
| JsStrings.Trim | index.js:64 | the result is the input minus a white prefix and a white suffix, with non-white ends; it is empty exactly when the input is all white |
| JsStrings.TrimUnpadded | index.js:64 | a text with non-white ends is its own trim |
| JsStrings.ParseInt | index.js:64 | NaN (`None`) exactly when, after leading white space and one optional sign, no digit follows |
| JsStrings.ParseDecimal | index.js:64 | the decimal text of n parses to n |
| JsStrings.ParseNegativeDecimal | index.js:64 | a minus sign followed by the decimal text of n parses to -n |
| JsStrings.Prefix | index.js:119 | `slice(0, n)`: the result is a prefix of the input of length min(length, n) |
| Sweet.TemplateIndex | index.js:94 | the template index is below 4 and congruent to the position modulo 4 |
| Sweet.ReminderText | index.js:77-94 | the pushed text is a nickname, the fullwidth tilde U+FF5E, then the template of its position |
| Sweet.ReminderTextDecomposes | index.js:94 | cutting a reminder at its first fullwidth tilde gives back the drawn nickname and the template |
| Reply.IsTech | index.js:102 | true exactly when some keyword occurs in the text at some index, ignoring ASCII case |
| Reply.ToneOf | index.js:102-108 | the technical tone exactly when a keyword occurs |
| Reply.BuildRequest | index.js:103-118 | the request carries the model name and the user's text unchanged; role and style follow the same tone |
| Reply.TechnicalExample | index.js:102 | `Fix this BUG` selects the technical tone |
| Reply.Finish | index.js:119 | the reply is 1 to 4000 code units; the fallback when content is absent or blank; otherwise the first min(length, 4000) units of the trimmed content |
| Reply.FinishKeepsShortContent | index.js:119 | content whose trim fits in 4000 units is sent exactly as trimmed |
| Events.Decide | index.js:28-40 | skip exactly when the user id is absent or empty; otherwise touch that user and reply to a text message with its text, greet on follow, crash on a message event without a message, stay silent otherwise |
| Reminders.DelayMs | index.js:96 | the delay is minutes times 60000 ms, NaN staying NaN |
| Reminders.Plan | index.js:92-97 | one timer per offset, in order; timer j captures the user, offset j times 60000 ms and position j |
| Reminders.Cleared | index.js:81-86 | a known user keeps their last-seen time with an empty timer list; the set of users and the issued timers are unchanged |
| Reminders.ClearedEffect | index.js:81-86 | every stored handle is cancelled and no longer live, the list is emptied, nothing else changes; an unknown user is left alone |
| Reminders.ClearedWellFormed | index.js:81-86 | `clearTimers` keeps the table well formed |
| Reminders.Scheduled | index.js:88-98 | the user has a record with last-seen `now` and one handle per offset; one new timer is issued per offset |
| Reminders.ScheduledRecord | index.js:88-98 | the record holds `now` and one fresh handle per offset; handle j is a timer for this user with delay offset j times 60000 ms and position j |
| Reminders.ScheduledFrame | index.js:88-98 | only the stored handles are cancelled, only the plan's timers are created, other users' records are unchanged, nothing is sent |
| Reminders.ScheduledLive | index.js:88-98 | the user's live reminders become the old ones minus the stored ones plus the new ones |
| Reminders.ScheduledSparesOthers | index.js:88-98 | other users' live reminders are unchanged |
| Reminders.ScheduledWellFormed | index.js:88-98 | scheduling keeps every stored handle pointing at its own user's timer at its own position |
| Reminders.ScheduledTwiceCancelsFirst | index.js:81-89 | a second direct `scheduleReminders` cancels every handle of the first |
| Reminders.Touched | index.js:32-33 | the webhook path cancels nothing, and the user's last-seen time becomes `now` |
| Reminders.TouchedEffect | index.js:32-33 | a touch cancels nothing; the record holds `now` and only the new handles; other users are unchanged |
| Reminders.TouchedLive | index.js:32-33 | a touch keeps every live reminder and adds one per offset; the count grows by the number of offsets; other users are unchanged |
| Reminders.TouchedWellFormed | index.js:32-33 | a touch keeps the table well formed |
| Reminders.TouchedTwiceKeepsFirst | index.js:32-33 | after two touches the first touch's handles are all still live |
| Reminders.Fired | index.js:93-96 | a live timer pushes one reminder text to its user and only that timer is added to the consumed set; a cancelled or consumed one does nothing; the table is unchanged |
| Reminders.FiredOnce | index.js:93-96 | a timer goes off at most once |
| Reminders.FiredSparesOthers | index.js:93-96 | a callback consumes only its own timer: every other timer is exactly as live as before |
| Reminders.FiredWellFormed | index.js:93-96 | a callback keeps the table well formed |
| Reminders.Webhook | index.js:26 | a body without `events` changes nothing |
| Reminders.SendReply | index.js:37-39 | a resolved reply is appended to what was sent; a rejected one ends the handler and records nothing |
| Reminders.Step | index.js:28-40 | an event without a user changes nothing; an event sends at most one reply and never retracts one |
| Reminders.Run | index.js:27-41 | earlier messages stay sent, and a batch sends at most one reply per event |
| Reminders.StepTable | index.js:29-40 | apart from the replies sent, an event changes only what touching its user changes |
| Reminders.StepStops | index.js:35-40 | an event ends the handler exactly when its awaited call rejects or its message is missing; otherwise it sends its own answer |
| Reminders.WebhookStops | index.js:27-41 | a batch stops early exactly when some event's call rejects or its message is missing |
| Reminders.RunStaysStopped | index.js:27-41 | after the handler has stopped, later events change nothing |
| Reminders.WebhookReplies | index.js:27-41 | a batch that runs to its end sends exactly its events' answers, in event order |
| Reminders.SkipChangesNothing | index.js:28-29 | an event without a user id changes nothing and sends nothing |
| Reminders.WebhookIgnoresAnonymous | index.js:27-29 | a batch of events without user ids leaves everything as it was |
| Reminders.WebhookNeverCancels | index.js:27-41 | no batch cancels or consumes a timer, however it ends |
| Reminders.StepLiveGrowth | index.js:32-33 | one event of a user adds one live reminder per offset for that user and removes none |
| Reminders.WebhookLiveGrowth | index.js:27-41 | after a complete batch a user keeps every live reminder and has one more per offset for each of their events |
| Reminders.WebhookUsers | index.js:27-41 | after a complete batch the recorded users are the old ones plus the batch's users with an id |
| Reminders.WebhookWellFormed | index.js:27-41 | any batch keeps the table well formed |
| Process.Bot.constructor | index.js:62-66 | the offsets are read from the configuration and the table starts empty |
| Process.Bot.ClearTimeout | index.js:84 | the handle joins the cancelled set |
| Process.Bot.SetTimeout | index.js:93-96 | a new timer is issued under the next unused handle |
| Process.Bot.ClearTimers | index.js:81-86 | the new state is `Cleared` of the old one; the invariant is kept |
| Process.Bot.ScheduleReminders | index.js:88-98 | the new state is `Scheduled` of the old one; the invariant is kept |
| Process.Bot.ReplyMessage | index.js:37-39 | a resolved reply is recorded; a rejected one stops the handler |
| Process.Bot.HandleEvent | index.js:28-40 | the new state and the stop flag are `Step` of the old state; the invariant is kept |
| Process.Bot.HandleWebhook | index.js:23-42 | the new state and the stop flag are `Webhook` of the old state; the invariant is kept |
| Process.Bot.FireTimer | index.js:93-96 | the new state is `Fired` of the old one; the invariant is kept |

## Left out

- The HTTP server, the GET and health routes, signature checking middleware and the early 200 response (lines 8-24, 44-51) are plumbing around the loop.
- The real platform and completion calls are not modelled. Their outcomes come from `Env`, and what was sent is recorded in `sent`.
- Real time, `Date.now` and timers firing on their own are not modelled. The clock is `Env.clock`; a timer fires only when `Fired` is applied to it.
- `Math.random` is not modelled: the drawn nickname is the parameter `nick`, which is below 8.
- Concurrency between overlapping webhook deliveries and timer callbacks is not modelled: one batch runs as an uninterrupted sequence of steps.
- The model assumes the process keeps running after an unhandled promise rejection. The `pushMessage` in the timer callback (line 95) has no `.catch`, and the async route (lines 23-42) has no error handler. Since Node 15 an unhandled rejection ends the process by default, which would lose the whole `users` table and every pending timer. Whether the web framework catches the route's rejection depends on its version, which the code does not pin.
- A failed `pushMessage` is not observed: the callback is fire-and-forget. `Fired` records the push and consumes the timer either way.
- `dotenv`, `node-cron` and the API keys are configuration with no behaviour in this core.
- `Reminders.Touched`: lines 32 and 91 each read `Date.now()`; the model uses one clock value per event, since the first is overwritten before anything reads it.
- `Reminders.DelayMs`: computes `mins * 60 * 1000` exactly on integers, without IEEE double rounding. `parseInt` results above 2^53 lose precision in JavaScript but not here.
- `setTimeout` clamps NaN, negative and over-2^31-1 delays. The model keeps the delay as given (`None` for NaN), and since time is not modelled, the clamping has no effect.
- `Reply.BuildRequest`: the temperature 0.7 is a floating-point request parameter and is not part of the request value.
- `JsStrings.Js`: maps Dafny literals to code units only for characters in the Basic Multilingual Plane, which covers every literal of the bot; arbitrary user text is a `JsString` directly.
- The `!u?.timers` early return of line 83 is modelled only for an unknown user. A stored record always holds a timer list, so its other case cannot arise.
- A text message whose `text` field is missing is not modelled. The event's message always carries a text value.
