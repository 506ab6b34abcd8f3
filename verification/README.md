# Rehan App chat client: synchronisation core in Dafny

Rehan App is a small React chat client. A patient's room receives server-pushed events and the
carer's typing is streamed to the server before it is committed. This project models the client's
synchronisation state machine in `src/App.jsx` and proves properties of it. The rendering is not
modelled.

- `wrappers.dfy`: `Option`, for the JavaScript fields that may be absent or falsy.
- `text.dfy`: ECMAScript whitespace and `String.prototype.trim`. It is the client's only emptiness test (`!text.trim()`).
- `feed.dfy`: the message list, which is kept newest first. It holds the datatypes for list entries, wire messages and stream events. It also holds the pure list updates:
  - the stream effect (`Reconcile`): a `history` snapshot replaces the list; a final `message` event prepends one entry;
  - the `pushMessage` updater (`PushList`).
- `actions.dfy`: the quick-action buttons and the "Call Person" names, and the texts they post.
- `session.dfy`: `class ChatSession`, which holds the React state and refs:
  - `messages` and `draft`;
  - `lastSentDraft` (the `lastSentDraftRef` ref) and `pending` (the `draftSendTimeoutRef` debounce slot, holding the text it will send);
  - `chatId`;
  - `outbox`, a log of the POSTs issued.

  Each handler or effect is one atomic method. Its invariant `Valid()` says that the pending slot always equals `Debounce(draft, lastSentDraft)`. So at most one send is pending, and it is never a stale, blank or repeated draft.
- `scenarios.dfy`: short runs of handlers on a fresh session. Each states what a user would observe.

The clock (`Date.now()`) and the network outcome are parameters:
- each handler takes `now`, and every `Date.now()` read in that handler returns it;
- a sending handler takes `delivered`. It is false when `fetch` rejects.

The 300 ms timer is the `pending` slot together with the `FireTimer` method.

Some behaviours of the code look unintended; the model keeps them as written:
- Without a room, pressing Enter pushes the text twice. `pushMessage` runs once in the key handler (src/App.jsx:410) and once more inside `sendToBackend` (src/App.jsx:155). See `OfflineCommitEchoesTwice`.
- `lastSentDraftRef` is set when the timer fires, whatever happens to the send. That includes the case where there is no room and nothing is sent (src/App.jsx:189-190).
- Entries built from stream events have no `status` (`None`), not a default of `Sent`.
- Keys are not unique. Id-less messages of one history snapshot can get the same `Date.now()` key, whenever their clock reads fall within one millisecond; `HistoryKeysCollide` is a witness.
- Quick-action buttons send their text as a non-final update (src/App.jsx:330-334). Call options send nothing (src/App.jsx:300-305).

## Model

| member | source | states |
|---|---|---|
| `Text.Trim` | src/App.jsx:132-136 | `trim` keeps the slice of the text that starts and ends with a non-space. Everything outside it is whitespace. The result is empty exactly when the text is blank. |
| `Text.TrimIdempotent` | src/App.jsx:136 | Trimming an already trimmed text changes nothing. |
| `Feed.Reverse` | src/App.jsx:61-63 | `slice().reverse()` has the same length, and entry i is the input's entry counted i from the end. |
| `Feed.HistoryList` | src/App.jsx:60-71 | A snapshot becomes the reversed list, newest first. Each entry keeps its wire message's text, gets id `m.id` or the clock, and gets time `timestamp` or "". It is never sent by this client (`isSent` false), its sender is never You, and it has no status. Its sender is System exactly when the message is final, Patient otherwise. |
| `Feed.Reconcile` | src/App.jsx:54-93 | A history event replaces the list with the snapshot. A final `message` event adds exactly one Patient entry (text, timestamp or "", not sent by this client, no status) on top of the unchanged old list. Everything else leaves the list as it was: no event, a non-final message, an unknown type, or a history without an array. |
| `Feed.HistoryDiscardsPrior` | src/App.jsx:60-72 | The list after a snapshot does not depend on the list before it. |
| `Feed.HistoryIdempotent` | src/App.jsx:60-72 | Applying the same snapshot twice yields the list that applying it once yields. |
| `Feed.HistoryClockFree` | src/App.jsx:64-65 | If every snapshot message has an id, the clock reading does not affect the result. |
| `Feed.HistoryKeysCollide` | src/App.jsx:65 | Two id-less messages in one snapshot handled with one clock reading get the same key `Clock(now)`, so keys can collide. |
| `Feed.HistoryWins` | src/App.jsx:54-93 | Whatever events were handled before, the list after a history event is exactly that snapshot. |
| `Feed.FinalMessagesStack` | src/App.jsx:75-89 | After n final `message` events the old list is untouched below n new entries. The newest event's entry is on top. |
| `Feed.PushList` | src/App.jsx:131-145 | A whitespace-only text leaves the list unchanged. Otherwise one entry is prepended above the unchanged old list. It holds the trimmed (non-empty) text, the given status and sent flag, the clock id and "Just now". Its sender is You exactly when sent, Patient otherwise. |
| `Actions.ActionText` | src/App.jsx:322-334 | A posting button's text is "Paani Do" exactly for Water and the label otherwise. It is never blank and is already trimmed. |
| `Actions.CallOptionText` | src/App.jsx:300-302 | The call request is the name followed by " Ko Bulao". It is never blank. |
| `Actions.CallOptionTrimmed` | src/App.jsx:293-302 | For the offered names the request needs no trimming. |
| `Session.ChatSession.constructor` | src/App.jsx:36-43 | The session starts with an empty list, empty draft, nothing sent and nothing pending, for the given room. |
| `Session.ChatSession.ApplyEvent` | src/App.jsx:54-93 | The stream effect changes only the list, to `Reconcile` of the old list. It keeps the invariant. |
| `Session.ChatSession.SetDraft` | src/App.jsx:176-199 | On a real change of the draft the pending send is cancelled. A new one holding the draft is scheduled exactly when the draft is not blank and differs from the last text sent. A draft set to its own value re-runs nothing and keeps what was pending. |
| `Session.ChatSession.PushMessage` | src/App.jsx:131-145 | The list becomes `PushList` of the old list. A blank text changes nothing else. Otherwise the draft is cleared and nothing is left pending. |
| `Session.ChatSession.ClearAll` | src/App.jsx:147-150 | The list and the draft are empty and nothing is pending. The last text sent and the POST log are unchanged. |
| `Session.ChatSession.Send` | src/App.jsx:152-171 | With no room there is no POST, and only a final text is echoed locally (status Sent). With a room there is exactly one POST of `{text, isFinal}`. A failed final send prepends a Failed entry; a failed non-final send changes nothing. |
| `Session.ChatSession.FireTimer` | src/App.jsx:188-191 | A pending timer issues one non-final POST of the text it holds (none without a room). That text, which is the current draft, becomes the last text sent, and nothing is left pending. Without a timer nothing happens. |
| `Session.ChatSession.KeyDown` | src/App.jsx:406-413 | Enter without Shift pushes the draft as Sent and POSTs the untrimmed draft as final. That POST is never suppressed. The last text sent becomes "" and nothing is left pending. The list matches the room and the outcome: two echoes with no room, one with a delivered POST, Sent plus Failed with a failed one. Any other key changes nothing. |
| `Session.ChatSession.PressQuickAction` | src/App.jsx:322-335 | Clear All clears and Call Person changes nothing. Every other button prepends its text as a Sent entry, clears the draft and sends the text as a non-final update when there is a room. |
| `Session.ChatSession.ChooseCallOption` | src/App.jsx:299-306 | Choosing a name prepends "<name> Ko Bulao" as a Sent entry and clears the draft. Nothing is sent. |
| `Scenarios.DebounceSendsLatestOnly` | src/App.jsx:176-191 | The edits x, x, y followed by the timer send exactly one non-final POST, of y. |
| `Scenarios.ClearedDraftSendsNothing` | src/App.jsx:176-184 | Clearing the draft before the timer fires means nothing is sent. |
| `Scenarios.CommitIsNeverSuppressed` | src/App.jsx:406-413 | A text already streamed is still sent as final on Enter, and typing it again schedules a new update. |
| `Scenarios.ShiftEnterDoesNotCommit` | src/App.jsx:407 | Shift+Enter pushes and sends nothing. |
| `Scenarios.FailedCommitIsVisible` | src/App.jsx:165-168 | A failed commit shows a Failed entry above the optimistic Sent entry. |
| `Scenarios.OfflineCommitEchoesTwice` | src/App.jsx:154-156 | With no room a commit sends nothing and shows the text twice. |
| `Scenarios.HistoryShadowsOptimisticEntry` | src/App.jsx:60-72 | A later snapshot replaces the list, so a just-committed entry it lacks disappears. |

## Left out

- The push-stream hook (`useSSE`): connecting, reconnecting, connection status and error text. Its source is not part of this model. Its `latestMessage` is the `ev` argument of `ApplyEvent`.
- Room resolution from the page URL and `history.replaceState` (src/App.jsx:115-129) is browser I/O. `chatId` is a constant given to the constructor, so a room that changes during a session is not modelled. Such a change would re-create `sendToBackend` and re-run the draft effect.
- Rendering, themes, labels, icons, the live preview of the draft and the dropdown's open/closed state, including the click-outside listener (src/App.jsx:95-113, 210-422). These are presentation only.
- Copying the room link to the clipboard (src/App.jsx:201-208) is a foreign browser API.
- `fetch` itself. A POST is an entry in `outbox`, and its outcome is the `delivered` argument. `fetch` rejects only on network failure, so an HTTP error status counts as delivered, as in the source.
- The 300 ms delay. Firing is the explicit `FireTimer` call, and the effect's cleanup on unmount is not modelled.
- React render batching and effect scheduling. Each handler or effect is atomic, and a `setDraft` that changes the draft runs the draft effect at once. The effect on an empty draft never reads the last text sent, so applying it before the handler's later ref update changes nothing.
- Malformed stream payloads. A `null` element in a snapshot makes the mapping throw, and the catch at src/App.jsx:90-92 leaves the list unchanged. Non-string ids (a numeric id, a falsy 0) and a missing `text` are also not modelled: wire ids are strings, and an absent or empty one falls back to the clock.
- A re-delivery of the very same event object (same identity) does not re-run the effect in React; every `ApplyEvent` call is a new delivery.
- Distinct clock readings within one handler are not modelled: every `Date.now()` read in a handler (one per id-less snapshot message, two pushes of an offline commit) returns the handler's `now`, so such keys always coincide in the model, while in the source they coincide only within one millisecond.
- `IsSpace` follows ECMAScript's whitespace set on Unicode scalar values; UTF-16 surrogate handling is not modelled.
- Session.ChatSession.Send: the failure echo happens when `fetch` rejects, later than the call. The model applies it at once with the same clock reading, so typing in between is not modelled. In the source, that later `pushMessage` also clears whatever draft exists by then.
- Session.ChatSession.KeyDown: the Failed echo of a failed commit is applied within the key press (see `Send`). Both pushes of an offline commit share one clock reading.
