# Reminder plugin core: the /remind command, scheduling and the runner flag

This project models the server core of a Mattermost reminder plugin in Dafny:

- **The `/remind` slash-command handler** (`server/command.go`).
  - It looks up the calling user and trims the command.
  - The bare `/remind` opens the interactive scheduling dialog.
  - Otherwise a fixed chain of suffix tests picks the help text, the reminder list, the clear-all summary, the plugin version or the user's locale and location. The help and list words are translated.
  - Anything else is scheduled. The reminder text is the command with every `/remind` cut out and the edge spaces trimmed.
  - A failed scheduling is reported to the user with the generic exception message. Only a failed user lookup returns an error to Mattermost.
- **`ScheduleReminder`** (`server/scheduler.go`).
  - It runs the lookups, the parse, the stamping of the new reminder, the creation of its occurrences, the upsert, the "me" to "you" rewrite and the building of the confirmation post with its delete and view buttons.
  - The first failing step ends the call.
- **`InteractiveSchedule`**: the fixed schema of the scheduling dialog.
- **`Run` and `Stop`**: the plugin's `running` flag, and the check a runner loop makes when its timer fires.

Modules:

- `Wrappers` holds `Option` and `Result`.
- `Text` holds Go's `strings.Trim` (with the cutset `" "`), `HasPrefix`, `HasSuffix`, `Index`, `Count` and `Replace` with an empty replacement, as functions on `string`.
- `Types` holds the records: user, channel, reminder, occurrence, post, dialog and command arguments.
- `Platform` holds what lies outside the core:
  - the Mattermost API, the translation catalog, time formatting, the request parser and the occurrence generator, as a `Host` record of possibly failing functions;
  - `model.NewId`, as the `IdSource` class, whose ids are fresh and never the empty id 0;
  - the reminder store, as the `Store` class, a map from ids to reminders whose writes can be refused.
- `Scheduler` models `server/scheduler.go`.
- `Command` models `server/command.go`.

`ScheduleReminder` updates the request's reminder in place, step by step. `ReminderRequest` is therefore a class, and `ScheduleReminder` is a method whose postcondition gives the state after each way the call can end. The flag of `Run` and `Stop` is a field of the `Runner` class. Routing, payload extraction, the buttons and the dialog are functions.

Where the call sites and the definitions disagree in arity, the definitions are modelled as written:

- `InteractiveSchedule(triggerId, channel, user)` is called with no channel.
- `ScheduleReminder(request, channelId)` is called without the extra user id that `server/command.go:97` passes.

`Run` calls `Stop` before it raises the flag, evidently so that a second runner loop is never started. It does not achieve this:

- `Run` clears the flag and raises it again at once.
- A loop already waiting on its timer therefore finds the flag up and goes on.

The model follows the code. `Scheduler.Runner.Run` launches a new loop on every call. After two `Run` calls, `Scheduler.RunTwiceThenStop` shows that two launches are counted and that every wake-up triggers until `Stop`.

## Model

| member | source | states |
|---|---|---|
| Text.HasPrefixSplits | server/scheduler.go:33 | HasPrefix holds exactly when the string is the prefix followed by some tail |
| Text.HasSuffixSplits | server/command.go:42-80 | HasSuffix holds exactly when the string is some head followed by the suffix |
| Text.TrimLeft | server/command.go:35 | the result is the suffix of the input that starts at its first non-space; everything cut is a space |
| Text.TrimRight | server/command.go:35 | the result is the prefix of the input that ends at its last non-space; everything cut is a space |
| Text.Trim | server/command.go:35 | the trimmed command is no longer than the input and has no leading or trailing space |
| Text.TrimLeftSkipsSpaces | server/command.go:35 | leading spaces of any length do not change what the left trim returns |
| Text.TrimRightSkipsSpaces | server/command.go:35 | trailing spaces of any length do not change what the right trim returns |
| Text.TrimCore | server/command.go:35 | for any run of spaces around a core with no edge spaces, trimming returns exactly that core |
| Text.TrimIdempotent | server/command.go:35-37 | trimming an already trimmed command changes nothing, so the second Trim at line 37 sees the command of line 35 |
| Text.TrimFixedPoint | server/command.go:35-37 | Trim returns its input unchanged if and only if the input has no edge space |
| Text.Index | server/command.go:90 | the result is -1 or a position where the pattern occurs, and the pattern occurs at no earlier position |
| Text.Remove | server/command.go:90 | Replace with an empty replacement never lengthens the command, and returns it unchanged exactly when the pattern does not occur in it |
| Text.RemoveLength | server/command.go:90 | each "/remind" that Replace cuts out shortens the command by exactly the pattern's length |
| Text.RemoveMatchesScan | server/command.go:90 | cutting out occurrences found by Index agrees with a one-character-at-a-time scan that skips every match whole |
| Text.RemoveWithoutMatch | server/command.go:90 | when the pattern occurs nowhere, Replace returns the input unchanged |
| Command.Payload | server/command.go:90 | the reminder text never starts or ends with a space |
| Command.Classify | server/command.go:35-90 | a scheduled command is not the bare trigger, ends with none of the five suffixes, and its payload has no edge spaces |
| Command.DialogExactlyOnBareTrigger | server/command.go:35-40 | the dialog opens if and only if the trimmed command is "/remind", whatever the translated words are |
| Command.FirstSuffixMatchUnrolled | server/command.go:42-88 | searching the table of suffix tests in order gives the same answer as the chain of tests written out |
| Command.ClassifyIsFirstMatch | server/command.go:35-90 | routing is the bare-trigger test followed by a first-match search of the suffix table (help, list, `__clear`, `__version`, `__user`); only a command matching none is scheduled |
| Command.HelpWordWins | server/command.go:37-50 | every command other than the bare trigger that ends in the help word is answered with help and never scheduled |
| Command.HelpWordEndsScheduling | server/command.go:42-50 | "/remind me tomorrow to ask for help" is answered with help and is never scheduled |
| Command.PayloadWithoutTrigger | server/command.go:90 | a command without "/remind" is scheduled with its text only trimmed |
| Command.PayloadMayStillHoldTrigger | server/command.go:90 | because Replace makes one left-to-right pass, "/re/remindmind" leaves a "/remind" in the payload |
| Command.ExecuteCommand | server/command.go:26-112 | an error is returned if and only if the user lookup fails; each route's ephemeral post; the dialog request with a fresh callback id, which is the only id the dialog route adds to the issued ids; no route but scheduling or clearing touches the store, and no route but scheduling or the dialog draws an id; on the scheduling route the state changes exactly as ScheduleSpec says for the built request, and the reply is what Reported makes of that outcome |
| Command.Respond | server/command.go:42-88 | help, list, clear, version and user info each send their post to the user and return no error |
| Command.ScheduleAndReport | server/command.go:90-110 | the request handed to ScheduleReminder carries the command's team, the user's username, the payload and an empty reminder; the store, the issued ids and the request change exactly as ScheduleSpec says, and the reply is what Reported makes of the outcome: a failed step becomes the exception message with no error returned, the empty-occurrence panic propagates, and a success sends the confirmation |
| Command.UnknownUserIsReported | server/command.go:97-106 | when the user named in the request cannot be looked up, the command answers with the exception message, and nothing is stored and no id drawn |
| Scheduler.ReminderRequest.constructor | server/command.go:91-96 | the new request holds the given team, username and payload and an empty reminder |
| Scheduler.Connector | server/scheduler.go:33-39 | the connector is non-empty if and only if the message starts with the "to" word, and it is then a space followed by that word |
| Scheduler.ActionUrlInjective | server/scheduler.go:92-105 | two actions with the same URL are the same action |
| Scheduler.ConfirmationButtons | server/scheduler.go:83-109 | exactly two buttons; both carry the reminder id and the first occurrence's id; each URL names its own action; delete then view |
| Scheduler.FailedStepsPersistNothing | server/scheduler.go:13-54 | every step that fails with an error, the upsert included, leaves the store as it was |
| Scheduler.ConfirmationNamesStoredReminder | server/scheduler.go:41-109 | a changed store differs only in the record under the request's fresh id, stamped with the team, username and empty completion time; a confirmation's buttons name that stored record and its first stored occurrence |
| Scheduler.ScheduleReminder | server/scheduler.go:11-116 | the transition ScheduleSpec gives, from the old ids, store and request reminder to the new: failures abort in order and persist nothing before the upsert; the stamped reminder (fresh id, team, username, empty completion time) is what is stored; "me" becomes "you" only in the request and the post; an empty occurrence list panics; otherwise the post built from the first occurrence, with two fresh button ids; the issued ids grow by exactly the reminder id, plus the two button ids on success |
| Scheduler.NewReminderNeverReplaces | server/scheduler.go:41-54 | if every stored reminder's id was issued before, that stays true afterwards, and a changed store gained a reminder under an id it did not hold: a new reminder never replaces a stored one |
| Scheduler.SnoozeKeysNameShortcuts | server/scheduler.go:134-183 | each option's label key is "button.snooze." followed by the value it labels |
| Scheduler.TimeShortcutsDistinct | server/scheduler.go:134-183 | the 12 time shortcuts are pairwise distinct |
| Scheduler.TimeOptions | server/scheduler.go:134-183 | 12 options in the order tomorrow, nextweek, 10sec, 30min, 1hr, 2hr, 3hr, 4hr, 1day, 2day, 3day, 4day, each labelled with the translation of its key |
| Scheduler.ScheduleDialog | server/scheduler.go:122-192 | the dialog URL, title, callback id and submit label; exactly two elements, a "time" select with the 12 options in order and a "message" textarea with none |
| Scheduler.InteractiveSchedule | server/scheduler.go:118-196 | the dialog request uses a callback id never issued before, and the schema is ScheduleDialog's |
| Scheduler.Runner.constructor | server/plugin.go:43-48 | a new runner, like the zero-valued plugin, is stopped and has launched and triggered nothing |
| Scheduler.Runner.Stop | server/scheduler.go:206-208 | the flag is down afterwards |
| Scheduler.Runner.Run | server/scheduler.go:198-204 | the flag is up afterwards and exactly one runner loop is launched, because Stop has just cleared the flag the guard tests |
| Scheduler.Runner.Wake | server/scheduler.go:212-217 | a loop that wakes with the flag down exits without triggering; with the flag up it triggers once and goes on |
| Platform.IdSource.NewId | server/scheduler.go:41 | each id is non-empty and was never issued before |
| Platform.Store.Upsert | server/scheduler.go:51-54 | a write stores the reminder under its id, or it is refused and leaves the store as it was |

In full, `Scheduler.ScheduleSpec`, the postcondition of `Scheduler.ScheduleReminder`, states the following:

- A failed user lookup, channel lookup or parse returns that error. It persists nothing, leaves the request's reminder as it was and draws no id.
- Otherwise the reminder is stamped with:
  - the parsed target, message and time;
  - a fresh id;
  - the request's team and username;
  - `Completed` set to the empty time.
- A failed occurrence creation returns its error and persists nothing.
- A refused upsert returns its error and leaves the store as it was.
- Otherwise the store holds the stamped reminder with its occurrences, under its id and with the parsed target. Only the request and the confirmation see "me" rewritten to "you".
- An empty occurrence list panics.
- Otherwise the post carries:
  - the rewritten target;
  - the "to" connector;
  - the message;
  - the time of the first occurrence, formatted in the user's location;
  - two buttons with fresh, distinct ids.
- The ids issued afterwards are those issued before plus the reminder's id once it is stamped, plus the two button ids on success.

## Left out

- The goroutine and timer of `runner` (`server/scheduler.go:211-218`) are concurrency. `Scheduler.Runner.Wake` models one timer expiry of one loop. Loops that run at the same time are not modelled, and nothing is claimed about how many are alive.
- The bodies of these functions are not part of this model. Each becomes the following:
  - `ParseRequest` is the field `Platform.Host.parse`, which may fail.
  - `CreateOccurrences` is `Platform.Host.createOccurrences`, which may fail.
  - `UpsertReminder` is `Platform.Store.Upsert`. Its persistence failure is the store's `refuse` function.
  - `formatWhen` is `Platform.Host.formatWhen`, which cannot fail.
  - `translation` is `Platform.Host.translation` and `Platform.Host.localeOf`, neither of which can fail.
  - `location` is `Platform.Host.locationOf`, which cannot fail. The time formatting is `Platform.Host.formatInstant`, which cannot fail.
  - `TriggerReminders` is only counted, by `Scheduler.Runner.triggered`.
  - `ListReminders` is the post `Types.Post.ReminderList(user, channelId)`, naming the user and channel and not its content.
  - `DeleteReminders` is the message body `Types.Body.ClearedSummary(user)`, naming the user and not its text.
- Command.ExecuteCommand: `DeleteReminders` deletes the user's reminders on the `__clear` route. The model leaves that route's effect on the store unstated, and states for every other non-scheduling route that the store is unchanged.
- Mattermost API calls are modelled as follows:
  - `GetUser`, `GetUserByUsername` and `GetChannel` are `Host` functions.
  - `SendEphemeralPost` and `OpenInteractiveDialog` become the `Effect` that `ExecuteCommand` returns. A failure to open the dialog is only logged by the source, so it is not modelled.
  - `LogError` and `RegisterCommand` are left out.
- `model.NewId` is random. `Platform.IdSource` is a counter that hands out ids never issued before. The model relies only on that freshness, not on the format of the 26-character ids.
- Time-zone conversion and RFC 3339 formatting are kept abstract (`Host.formatInstant`), and so is the plugin's empty-time sentinel (`Host.emptyTime`).
- The confirmation text `T("schedule.response", ...)` is kept as its parameters (a `Confirmation` record), not rendered through the catalog. The `Props` maps and action contexts are typed records.
- The time string is empty when a reminder has no occurrences. That string never reaches a user, because the buttons then index the empty occurrence list and the handler panics (`Reply.Panicked`).
- Go's `HasPrefix`, `HasSuffix`, `Index`, `Replace` and `Trim` work on bytes, and the model works on `seq<char>`. For valid UTF-8 the byte-wise and character-wise results agree. Invalid UTF-8 is not modelled.
- `ParseRequest` (`server/scheduler.go:28`) and `CreateOccurrences` (`server/scheduler.go:46`) receive the request by pointer and write into it, and their bodies are not part of this model. Both are modelled as all-or-nothing on the request: on failure the request's reminder is left as it was before the call. What they might write before failing is not captured.
- `server/plugin.go` activation and deactivation (bot provisioning, command registration, router and configuration) are not part of this model.
