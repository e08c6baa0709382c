# Beholder: a Dafny model of the scheduling, context and settings core

Beholder is a SillyTavern extension. It runs a side conversation with an
assistant that comments on the main roleplay chat, through an
OpenAI-compatible endpoint. The user can write to it, ask it to
regenerate, or let a random timer ask it for commentary after each
main-chat message. This project models the core of `index.js` in three
parts.

- **The prompt context builder** (`build_context`) is the pure function
  `Context.BuildContext`. The host chat, the assistant log and the settings
  it reads are parameters. It uses JavaScript's `join`, modelled in `Text`.
  `Text` also models `trim`, which the send and settings handlers use. It
  also models `split`, which the source never calls: it serves only as the
  inverse of `join` in the lines lemmas.
- **The settings** (`Settings`) cover two things. `get_settings` falls back
  to the defaults one key at a time. The numeric change handlers parse,
  default and clamp what the user typed.
- **The single-flight scheduler** is the class `Scheduler.Beholder`. Its
  fields are the module-level state: `isGenerating`, the abort controller,
  the `autoGenTimer` handle, the log `assistantMessages`, the settings, the
  current chat id and the per-chat message store. It has one method per
  event.
  - Each `await generate_response(...)` suspends its caller, so it is split
    in two. `GenerateBegin` runs the guards and starts the call.
    `CompleteGeneration(outcome)` ends the call and resumes whichever
    caller (`awaiting`: user send, regenerate or auto timer) was waiting.
  - Pending browser timers are a map from the ids `setTimeout` hands out to
    what the timer runs and its delay. `autoGenTimer` is the variable that
    holds one such id.
  - Every method that changes the state lists in its `modifies` clause the
    fields it may change. Its `ensures` gives their new values and keeps
    `Valid()`. `Valid()` says that an abort controller exists exactly while
    a call is in flight, that exactly one caller awaits it, that timer ids
    are fresh, and that the store holds the current log under the current
    chat's key whenever it holds anything there.
- **Event sequences** (`Scenarios`) show behaviours of the code as written.
  - Line 761 nulls the handle even when a main-chat message armed a new
    timer during the auto-generation. That timer can then no longer be
    cancelled: unchecking `enabled` leaves it pending.
  - A reply that arrives after a chat switch is appended to the new chat's
    log.
  - A send while a call is in flight is dropped.
  - A user reply cancels the 5-second retry armed in the meantime.
  - Unchecking `enabled` stops the held timer, and checking it again arms
    nothing.

The model follows the code wherever the code is more specific than a
description would be:
- There is no stripping of reasoning blocks.
- A main-chat message does not cancel a call in flight.
- No stale result is suppressed after a chat switch.
- Nothing re-arms after an auto-generation.
- A 2xx reply whose content is all whitespace trims to `""`. That is not
  `null`, but it is falsy, so no caller appends it (`Generation.AppendsIff`).
- `slice(-n)` follows JavaScript exactly, including `n == 0` (which keeps
  the whole list) and negative depths.

## Model

| member | source | states |
|---|---|---|
| Settings.Enabled | index.js:63-68 | `get_settings('enabled')`: the stored value when the object owns the key, the default `true` otherwise; stated by `Settings.ReadsFallBackToDefaults` |
| Settings.AssistantName | index.js:63-68 | `get_settings('assistant_name')`: the stored value when the object owns the key, the default `Beholder` otherwise; stated by `Settings.ReadsFallBackToDefaults` |
| Settings.EndpointUrl | index.js:63-68 | `get_settings('endpoint_url')`: the stored value when the object owns the key, the default `""` otherwise; stated by `Settings.ReadsFallBackToDefaults` |
| Settings.MainChatDepth | index.js:63-68 | `get_settings('main_chat_depth')`: the stored value when the object owns the key, the default 5 otherwise; stated by `Settings.ReadsFallBackToDefaults` |
| Settings.AssistantChatDepth | index.js:63-68 | `get_settings('assistant_chat_depth')`: the stored value when the object owns the key, the default 10 otherwise; stated by `Settings.ReadsFallBackToDefaults` |
| Settings.MinWait | index.js:63-68 | `get_settings('min_wait')`: the stored value when the object owns the key, the default 30 otherwise; stated by `Settings.ReadsFallBackToDefaults` |
| Settings.MaxWait | index.js:63-68 | `get_settings('max_wait')`: the stored value when the object owns the key, the default 120 otherwise; stated by `Settings.ReadsFallBackToDefaults` |
| Settings.ReadsFallBackToDefaults | index.js:33-44 | key by key, even in a partly filled object: a key the object does not own reads its default (enabled, `Beholder`, no endpoint, depths 5 and 10, waits 30 and 120), and a stored value wins over its default |
| Settings.ParsedOr | index.js:837 | `parseInt(text) \|\| d` gives `d` exactly for `NaN`, `0` or `d` itself, and the parsed value otherwise |
| Settings.Clamp | index.js:838 | `Math.max(lo, Math.min(hi, v))` lies in `[lo, hi]`, is `v` inside the range and the nearer bound outside it |
| Settings.MainChatDepthInput | index.js:836-841 | the stored main depth lies in [1, 20]; `NaN` or `0` give the default 5, and any other number is clamped |
| Settings.AssistantChatDepthInput | index.js:843-848 | the stored assistant depth lies in [1, 20]; `NaN` or `0` give the default 10, and any other number is clamped |
| Settings.MinWaitInput | index.js:851-856 | the stored `min_wait` lies in [5, 300]; `NaN` or `0` give the default 30 |
| Settings.MaxWaitInput | index.js:858-865 | the stored `max_wait` is the larger of the clamped input and `min_wait + 10`: at least both, and equal to one of them; it is at most 600 whenever `min_wait <= 590` |
| Settings.HandlersAreIdempotent | index.js:836-865 | writing the stored value back into the field and reading it again stores the same value |
| Settings.WaitBoundsAfterHandlers | index.js:851-865 | after the two timing handlers run, `5 <= min_wait <= 300` and `min_wait + 10 <= max_wait <= 600` |
| Settings.MinWaitCanOvertakeMaxWait | index.js:851-856 | the `min_wait` handler never looks at `max_wait`: raising `min_wait` to 300 over a `max_wait` of 60 breaks the 10-second gap |
| Text.Trim | index.js:690 | JavaScript `trim`: the infix between the first and the last non-whitespace character; its contract is stated by `Text.TrimIsTrimmed`, `Text.TrimIsInfix`, `Text.TrimOfInfix` (which together fix it uniquely), `Text.TrimOfTrimmed`, `Text.TrimIdempotent` and `Text.TrimEmptyIff` |
| Text.FirstKept | index.js:690 | the first non-whitespace index at or after `i`: everything before it is whitespace, and it is the end or a kept character |
| Text.LastKept | index.js:690 | one past the last non-whitespace character before `j`: everything after it is whitespace |
| Text.TrimIsTrimmed | index.js:690 | the result of `trim` has no whitespace at either end |
| Text.TrimIsInfix | index.js:591 | `trim(s)` is an infix of `s` with only whitespace before and after it |
| Text.TrimOfInfix | index.js:591 | conversely, every trimmed infix with only whitespace around it is `trim(s)`, so the cut is unique |
| Text.TrimOfTrimmed | index.js:811 | a string with no whitespace at either end is left unchanged |
| Text.TrimIdempotent | index.js:817 | trimming twice gives the same result as trimming once |
| Text.TrimEmptyIff | index.js:692 | `trim(s)` is empty exactly when `s` is all whitespace |
| Text.OrDefault | index.js:508 | `s \|\| d` on strings is `s` when `s` is non-empty and `d` otherwise, so it is never empty when `d` is not; it gives the shown assistant name (fallback `Beholder`) and the store key of a chat (fallback `default`, index.js:96) |
| Text.Join | index.js:496 | `join` with a separator; `Text.SplitJoin` shows that `split` inverts it when no part holds the separator, and `Text.JoinStartsWithFirst` that it starts with the first part |
| Text.JoinStartsWithFirst | index.js:496 | a join of a non-empty list starts with its first element |
| Text.Split | index.js:496 | the source never calls `split`; this model of it splits the text that the join on this line builds, and it always yields at least one piece |
| Text.SplitWithoutSeparator | index.js:496 | a text without the separator splits into itself |
| Text.SplitAtFirstSeparator | index.js:496 | splitting `a + sep + b` (with no `sep` in `a`) yields `a` followed by the pieces of `b` |
| Text.SplitJoin | index.js:496 | splitting a joined list gives the list back when no element contains the separator |
| Context.Visible | index.js:490 | the filtered chat is no longer than the chat; every entry is a non-system entry of the chat |
| Context.VisibleAppend | index.js:490 | filtering distributes over concatenation, so order is kept |
| Context.VisibleWithoutSystem | index.js:490 | a chat without system entries is kept whole |
| Context.VisibleOfSystemOnly | index.js:490 | a chat of system entries only keeps nothing |
| Context.Last | index.js:491 | `slice(-n)`: for `n >= 1`, the last `min(n, len)` entries; for `n == 0`, all of them; for negative `n`, all but the first `-n` |
| Context.MainChatText | index.js:489-499 | the main chat text: the placeholder exactly when the window is empty (`Context.MainChatTextPlaceholderIff`), otherwise the `name: mes` lines of the window joined by newlines, in order, for any content (`Context.MainChatWindow`), and split back into exactly those lines when no field holds a newline (`Context.MainChatLines`) |
| Context.MainChatTextPlaceholderIff | index.js:494-499 | the main block holds `(No main chat activity yet)` exactly when there is no visible entry to show |
| Context.MainChatWindow | index.js:489-497 | with depth at least 1 and any names and messages, a non-empty main window is the `name: mes` lines of the last `min(depth, v)` of the `v` visible entries, in order, joined by newlines |
| Context.AssistantChatWindow | index.js:502-512 | with depth at least 1 and any content, a non-empty assistant window is the lines of the last `min(depth, len)` log entries, in order, each labelled `User` or the display name, joined by newlines |
| Context.MainChatLines | index.js:489-499 | with single-line fields and depth at least 1, the main block splits into the `name: mes` lines of the last `min(depth, v)` of the `v` visible entries, in order; with none it is the placeholder |
| Context.DisplayName | index.js:508 | `get_settings('assistant_name') \|\| 'Beholder'`; its contract is that of `Text.OrDefault`: the setting when non-empty, `Beholder` otherwise |
| Context.AssistantChatText | index.js:502-512 | the assistant chat text: empty exactly when the log window is empty (`Context.AssistantChatTextEmptyIff`), otherwise the labelled lines of the window joined by newlines, in order, for any content (`Context.AssistantChatWindow`), and split back into exactly those lines when no field holds a newline (`Context.AssistantChatLines`) |
| Context.AssistantChatTextEmptyIff | index.js:502-512 | the assistant text is empty exactly when the log window is empty |
| Context.AssistantChatLines | index.js:502-512 | with a non-empty, single-line log and depth at least 1, the assistant block splits into the lines of the last `min(depth, len)` entries, in order, labelled `User` or the display name |
| Context.Trailer | index.js:521-525 | the closing request: `User's new message: ` plus the text when it is non-empty, the auto-commentary request otherwise; stated by `Context.ContextEnds` |
| Context.BuildContext | index.js:484-528 | `build_context`: its layout is stated by `Context.ContextLayout`, its two ends by `Context.ContextEnds`, the text inside its two blocks by `Context.MainChatWindow` and `Context.AssistantChatWindow` (and, for single-line fields, `Context.MainChatLines` and `Context.AssistantChatLines`) |
| Context.ContextLayout | index.js:515-527 | the context is the main block, then the assistant block only when the log window is non-empty, then a blank line and the trailer |
| Context.ContextEnds | index.js:515-527 | the context starts with the main block and ends with `User's new message: ` plus the text when the text is non-empty, and with the auto-commentary request otherwise |
| Generation.Reply | index.js:579-600 | what `generate_response` returns after its guards; its contract is stated by `Generation.ReplyTrimmedOrBlank`, `Generation.AppendsIff` and `Generation.ReplyIsContentInfix` |
| Generation.ReplyTrimmedOrBlank | index.js:579-600 | a reply never starts or ends with whitespace, and it is the non-null empty string exactly for a 2xx response whose non-empty content is all whitespace |
| Generation.AppendsIff | index.js:700-701 | a reply is appended exactly when the response is 2xx and its content is not all whitespace |
| Generation.ReplyIsContentInfix | index.js:591 | the reply is the content without its edge whitespace |
| Generation.AutoGenDelay | index.js:743-747 | the delay lies in `[min_wait·1000, max(max_wait·1000, min_wait·1000 + 10000))` |
| Generation.EveryDelayIsChosen | index.js:747 | every delay in the range results from some random draw |
| Generation.DelayRanges | index.js:743-747 | the defaults give 30 to 120 s; `min_wait` 300 over `max_wait` 60 gives 300 to 310 s |
| Scheduler.ChatKey | index.js:94-97 | `context.chatId \|\| 'default'`; its contract is that of `Text.OrDefault`: the chat id when non-empty, `default` otherwise |
| Scheduler.RequestEnds | index.js:521-525 | the context of a recorded request ends with `User's new message: ` plus the text when the request has a non-empty user message, and with the auto-commentary request otherwise |
| Scheduler.Cleared | index.js:765-770 | clearing the handle removes exactly the timer it holds, and nothing when it holds none; every other pending timer keeps its job and delay |
| Scheduler.Beholder.constructor | index.js:880-897 | after `init` the settings and the current chat's stored list are loaded, nothing is in flight and no timer is pending |
| Scheduler.Beholder.SetTimeout | index.js:749 | `setTimeout` adds one pending timer under a fresh id |
| Scheduler.Beholder.StopAutoGenTimer | index.js:765-770 | the timer the handle held is cancelled and the handle is null |
| Scheduler.Beholder.StartAutoGenTimer | index.js:737-763 | when disabled or without an endpoint nothing changes; otherwise the held timer is cancelled and exactly one new auto timer is pending, with the drawn delay under the handle |
| Scheduler.Beholder.GenerateBegin | index.js:532-568 | with no endpoint, or with a call in flight, nothing changes and the result is `null`; otherwise a call starts from the current chat, log and settings, the flag and abort controller are set, and the caller is recorded |
| Scheduler.Beholder.AddMessage | index.js:654-661 | one message is appended, the earlier ones are untouched, and the log is stored under the current chat |
| Scheduler.Beholder.EndCall | index.js:601-605 | the `finally` block clears the flag and the abort controller on every outcome |
| Scheduler.Beholder.CompleteGeneration | index.js:570-605 | the flag is released on every outcome; the reply is appended exactly when it is truthy; then a user send stops the auto timer, regenerate touches no timer, and an auto-generation nulls the handle without cancelling anything |
| Scheduler.Beholder.HandleUserSend | index.js:688-706 | blank input or a call in flight changes nothing; otherwise the trimmed text is appended as a user message and the call starts, or, with no endpoint, the auto timer is stopped at once |
| Scheduler.Beholder.Regenerate | index.js:726-732 | ignored while a call is in flight; otherwise an auto-commentary call starts when an endpoint is set; the log and the timers are untouched |
| Scheduler.Beholder.ClearMessages | index.js:718-724 | once confirmed, the log is empty and the empty list is stored for the current chat |
| Scheduler.Beholder.FireTimer | index.js:749-762 | disabled: nothing but the fired timer disappears; a call in flight: only the 5 s retry is armed; otherwise one auto call starts, or with no endpoint the handle is nulled; the retry runs the guarded `start_auto_gen_timer` |
| Scheduler.Beholder.OnMainChatMessage | index.js:772-776 | when enabled, the auto timer is restarted, and a call in flight is never touched |
| Scheduler.Beholder.OnChatChanged | index.js:789-793 | the auto timer is stopped and the log becomes the new chat's stored list, or `[]`; nothing is re-armed |
| Scheduler.Beholder.OnEnabledChanged | index.js:802-807 | the flag is stored; unchecking stops the timer, checking arms nothing |
| Scheduler.Beholder.OnEndpointUrlChanged | index.js:816-818 | the trimmed URL is stored, and `Valid()` is kept |
| Scheduler.Beholder.OnAssistantNameChanged | index.js:810-813 | the trimmed name is stored, or `Beholder` when it is blank, and `Valid()` is kept |
| Scheduler.Beholder.OnMainChatDepthChanged | index.js:836-841 | the clamped main depth is stored, and `Valid()` is kept |
| Scheduler.Beholder.OnAssistantChatDepthChanged | index.js:843-848 | the clamped assistant depth is stored, and `Valid()` is kept |
| Scheduler.Beholder.OnMinWaitChanged | index.js:851-856 | the clamped `min_wait` is stored, and `Valid()` is kept |
| Scheduler.Beholder.OnMaxWaitChanged | index.js:858-865 | the stored `max_wait` is at least `min_wait + 10` right after the change, and `Valid()` is kept |
| Scenarios.OrphanedAutoTimer | index.js:749-776 | a timer armed during an auto-generation survives the null at line 761 with no handle; a later restart and the disable toggle cancel only the newer timer |
| Scenarios.RetryStoppedByUserReply | index.js:705 | a retry armed while a user call is in flight is cancelled when that call ends |
| Scenarios.ReEnableArmsNothing | index.js:802-807 | after a main-chat message, disabling stops the held timer and re-enabling arms nothing: the handle is null, and the pending timers are those from before the message, minus the one the handle held then (an orphan or a retry stays pending) |
| Scenarios.LateReplyAfterChatSwitch | index.js:789-793 | a reply that arrives after a chat switch lands in the new chat's log; the old chat keeps only the user message |
| Scenarios.SendWhileGenerating | index.js:693 | a second send during a call is dropped |
| Scenarios.UserSendThenReply | index.js:688-706 | a user send logs the trimmed text and records a request built from that log with the trimmed text as user message, so (`Scheduler.RequestEnds`) its context ends with that text; then the reply is appended and the flag released |

## Left out

- Popout, drag, lock, resize and tab navigation (index.js:133-396): these are DOM and browser geometry.
- `render_messages`, `escapeHtml`, `scroll_to_bottom`, `show_status` and `set_input_state`: these only render and show status.
- `test_endpoint`, the `fetch` itself, the request body, JSON parsing, and the API key, system prompt and character prompt settings. The network is I/O: each call's result is the abstract `Generation.Outcome`. The 60-second abort timer is folded into the `Aborted` outcome.
- `save_settings`, `save_messages`, `load_settings` and the host's `extensionSettings`: these are host APIs. The store is a map from chat key to message list. The save timestamp and `saveSettingsDebounced` are not modelled.
- `parseInt` on text: each numeric handler takes `parseInt`'s result (`None` for `NaN`). Types the stored settings object could hold other than the modelled ones are not modelled.
- `Math.random` and floating point: the delay is an integer number of milliseconds, `lo + choice % (hi - lo)`, for a draw `choice` the caller picks. `Generation.EveryDelayIsChosen` shows that every integer delay in the range can be drawn. Fractional delays are not modelled.
- Timer firing order and real time: any pending timer may fire at any event boundary. Which one fires first is not modelled.
- `Date.now()`: timestamps are an opaque integer `now` passed to each method.
- `init` beyond loading, `register_events`, `debounce` and the jQuery ready hook: these are wiring.
- Log roles are the datatype `Role` (`User`, `Assistant`). A persisted entry with any other role string is labelled like an assistant entry, so the model folds it into `Assistant`.
- Context.MainChatLines: stated through `split` on `\n`, so it needs names and messages without newlines. Without that condition, `Context.MainChatWindow` still gives the text as the joined lines of the window.
- Context.AssistantChatLines: the same single-line condition, on the content of the log and on the name setting; without it, `Context.AssistantChatWindow` gives the joined lines.
- The host's chat id is a field that changes only when `OnChatChanged` handles CHAT_CHANGED. The source re-reads `context.chatId` on every `save_messages` and `load_messages` (index.js:94-97, 101, 120). If the host's id changed before the event is handled, an `add_message` in that window would store the old chat's log under the new key. That window is not modelled, and `Scenarios.LateReplyAfterChatSwitch` relies on it being absent.
- The array that `load_messages` shares with the store aliases it. The model copies values instead. Under the chat-id assumption above, every write to the log is followed by a `save_messages` that stores it back under the same key, so the two give the same stored state. Without it, two keys could come to share one array, and the model does not capture that.
