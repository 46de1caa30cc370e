# Meeting-scheduling assistant: a Dafny model of its decision logic

The assistant turns a free-text request into a calendar event. It does four
things around outside libraries, and this project models their logic:

- **Attendee resolution** (`utils/graph.py`). Each attendee display name becomes
  one directory query, filtered by `startswith(givenName, '<name>') eq true`.
  The first user found gives its `mail`, or its `user_principal_name` when
  `mail` is falsy. A miss or an exception gives `None`. The answers are
  gathered in name order and the falsy ones are dropped.
- **Event assembly** (`utils/graph.py`). A fresh event object is filled in field
  by field. Body, location and attendees are set only when present. The
  online-meeting flags are always set. The event is submitted, and five fields
  of the created event are returned.
- **The older event assembly** (`graph.py`). It takes addresses directly,
  appends attendees in a loop and sets no online-meeting flags.
- **The authorization-code handoff** (`autho_code_server.py`, `test.py`). A
  process-wide slot starts empty. The `/callback` route overwrites it whenever
  a non-empty `code` arrives. A waiter polls it every 2 ticks until a code
  appears, or gives up once more than `timeout` ticks have elapsed.

Outside calls are parameters:

- The directory query is a total function `string -> UsersResponse` from the
  filter text to what the query produced: `Raised`, or a response whose
  `value` may be missing.
- Event submission is a function `EventPayload -> CreatedEvent`.
- The waiter's slot reads are a function `nat -> Option<string>`, one value per
  poll. Its clock readings are a function `nat -> int` in integer ticks.

Date-times and time-zone names are opaque strings, passed through verbatim.

Modules, one per file: `Wrappers` (Option and Python truthiness), `Models`
(the meeting intent), `GraphModels` (the client's object shapes and the
mutable `Event` class), `Resolver`, `Scheduler`, `LegacyScheduler`,
`AuthCodeServer` and `AuthWait`.

Two facts about the code shape the model:

- `asyncio.gather` keeps task order, so resolved addresses follow the names.
- Every callback with a non-empty code overwrites the slot (last write wins).

## Model

| member | source | states |
|---|---|---|
| `Wrappers.Or` | utils/graph.py:118 | `a or b` returns `a` when it is truthy and `b` exactly as it is otherwise; the result is truthy iff either operand is |
| `Wrappers.OrEmpty` | utils/graph.py:162 | `attendees or []` is the list itself when it is non-empty, else the empty list (`None` counts as empty) |
| `GraphModels.AttendeesFor` | utils/graph.py:177-179 | one attendee per address, same length, the i-th attendee carries the i-th address |
| `GraphModels.Event.constructor` | utils/graph.py:165 | a new event carries only the given subject; every other field is unset |
| `Resolver.UserFilter` | utils/graph.py:110-112 | the filter is the fixed prefix, then the name verbatim, then the fixed suffix |
| `Resolver.UserFilterInjective` | utils/graph.py:110-112 | distinct names produce distinct filters |
| `Resolver.QuoteFreeNameIsLiteral` | utils/graph.py:111 | for a name without a single quote, the first quoted run of the filter is exactly the name |
| `Resolver.QuotedNameIsCut` | utils/graph.py:111 | no escaping: for `O'Brien` the first quoted run of the filter ends after `O` |
| `Resolver.ResolveEmailByName` | utils/graph.py:108-124 | an exception, a missing `value` or no users gives `None`; otherwise the first user's `mail` if truthy, else its `user_principal_name` |
| `Resolver.KeepTruthy` | utils/graph.py:130 | the kept entries are non-empty, in order (a subsequence), every truthy entry is kept, and their number equals the count of truthy entries |
| `Resolver.ResolveEmailsByNames` | utils/graph.py:127-130 | one address per name that resolves (duplicates kept), none empty, in name order, and every name that resolves contributes its address |
| `Resolver.KeepTruthyAppend` | utils/graph.py:130 | filtering distributes over concatenation |
| `Resolver.ResolveAppend` | utils/graph.py:127-130 | resolving `a + b` gives the answers for `a` followed by those for `b` |
| `Resolver.UnresolvedNameDropped` | utils/graph.py:119-130 | removing a name that does not resolve leaves the result unchanged, and no error is raised |
| `Resolver.NothingResolvedIff` | utils/graph.py:127-130 | the result is empty iff no name resolves |
| `Scheduler.EventFor` | utils/graph.py:165-183 | subject, start and end are copied verbatim; body iff the description is non-empty (type Text); location iff the location is non-empty; attendees iff some address resolved, one per address in order; the three online-meeting fields are always set |
| `Scheduler.ScheduleMeeting` | utils/graph.py:133-194 | the submitted event is `EventFor` of the intent and the resolved addresses of its names (`None` treated as empty); the result is the id, subject, start, end and web-link projection of what the service created |
| `Scheduler.NoAttendeesIffNothingResolved` | utils/graph.py:162-179 | the event has no attendees iff none of the intent's names resolved |
| `Scheduler.InviteesComeFromNames` | utils/graph.py:127-179 | the invited addresses are a subsequence of the per-name answers, in name order |
| `Scheduler.EchoedReport` | utils/graph.py:186-194 | if the service echoes subject, start and end, the report carries the intent's subject, start and end |
| `Scheduler.TutoringWithAlice` | utils/graph.py:162-183 | the tutoring request with `alice -> alice@example.com` in the directory invites exactly that address, online |
| `Scheduler.TutoringWithoutAlice` | utils/graph.py:162-179 | the same request with no match for `alice` produces an event with no attendees |
| `LegacyScheduler.LegacyEventFor` | graph.py:72-107 | subject and start/end set verbatim; body iff the description is truthy; location iff truthy; attendees iff the list is non-empty, one per address in order; no online-meeting or time-proposal field set |
| `LegacyScheduler.LegacyScheduleMeeting` | graph.py:52-119 | the event built field by field, with the attendee loop, is `LegacyEventFor` of the arguments; the result is the five-field projection of the created event |
| `LegacyScheduler.LegacyIsCurrentWithoutFlags` | graph.py:72-107 | given the same addresses, the older payload equals the newer one with the three online-meeting fields unset |
| `AuthCodeServer.AuthCodeHolder.constructor` | autho_code_server.py:19 | the slot starts as `None` |
| `AuthCodeServer.AuthCodeHolder.Callback` | autho_code_server.py:33-41 | a missing or empty code returns "Authorization code not found." and leaves the slot; a non-empty one is stored exactly and the completion message returned |
| `AuthCodeServer.AuthCodeHolder.GetAuthCode` | autho_code_server.py:43-44 | returns the current slot value and changes nothing |
| `AuthCodeServer.LastCode` | autho_code_server.py:40 | the last non-empty code of a callback series is non-empty, and no later callback carries one |
| `AuthCodeServer.SlotAfterAppend` | autho_code_server.py:33-41 | replaying one more callback acts on the slot left by the earlier ones |
| `AuthCodeServer.SlotHoldsLastCode` | autho_code_server.py:40 | after any callback series the slot holds the last non-empty code, or its old value if none came |
| `AuthCodeServer.CodeNeverCleared` | autho_code_server.py:35-40 | once the slot holds a code, no callback empties it |
| `AuthWait.WaitForAuthCode` | test.py:23-34 | returns the first non-empty code polled, never an empty one; earlier polls found none and were within the deadline; times out only when elapsed ticks exceed `timeout` (equal keeps polling); a code seen at the poll where the deadline has passed is still returned; at most `timeout / 2 + 2` polls |

## Left out

- The language-model intent parser, its prompt template and the console UI: the intent record is the model's input.
- OAuth: the authorization URL, opening the browser, and the credential objects built from the code. These are calls into identity libraries.
- The HTTP layer: Flask routing and serving, and the status code of the "not found" reply. `Callback` takes the `code` query parameter as an `Option<string>`.
- Network calls: the directory query and event submission are parameters. `client.me.get`, `requests.get` and the events listing are not modelled.
- Concurrency: `asyncio.gather` is modelled as an order-preserving map. The background server thread is not modelled; the waiter instead sees the slot through its per-poll reads.
- Real time: `time.time()` and `asyncio.sleep(2)` become integer clock readings. `ClockAdvances` requires that each sleep lasts at least the 2-tick interval. The waiter's timeout is an integer number of ticks rather than float seconds.
- The print/log lines on a miss or an error.
- `get_events`, the two `get_user_info` helpers, `me` and `list_users`: network-only or broken (undefined `access_token` and `me`).
- The created event's `start`/`end` are always present in `CreatedEvent`. A response without them would raise in the projection; that upstream failure is not modelled.
- The SDK's body-type enum: the older module writes `BodyType.TEXT` and the newer one `BodyType.Text`. Both are modelled as the single value `Text`. Whether the SDK defines the upper-case member is not part of this model.
- `MeetingIntent.attendees` is `Option<seq<string>>`, although the record declares a plain list. This models the `attendees or []` guard. `description` and `location` are plain strings, where the empty string is falsy.
- How the directory service reads a filter whose name contains a quote, and so breaks the quoted string, is not modelled. The `lookup` parameter gives the answer, which may be `Raised`.
- `ScheduleMeeting`/`LegacyScheduleMeeting`: a failing submission propagates to the caller, whether `client.me.events.post` raises or returns `None` (the attribute access in the projection then fails). The model's `post` always answers.
