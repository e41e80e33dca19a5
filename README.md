# Desktop pet: drag-and-inertia engine, canned replies and chat relay

A Dafny model of the core of a browser companion widget ("mm"): a floating
pet the user drags around the window, which keeps sliding after release and
bounces softly off the window edges; a chat panel that can be dragged too,
ignores blank submissions and answers with canned replies chosen by keyword
category; and a server-side relay that forwards a chat message to an
upstream conversational service and always answers with status 200 once the
request is accepted.

Modules:

- `Wrappers`, `Geometry`: `Option`, 2-D vectors of reals, `Abs`, `Max`.
- `Text`: JavaScript's `trim` (its white-space set), ASCII lower-casing, the
  substring test behind a regular expression of plain alternatives, and the
  decimal rendering of a clock value with its inverse.
- `PositionStore`: the browser's local storage as a class holding a map from
  key to position.
- `Pet`: the `FloatingPet` class (drag start, drag, drag end, one inertia
  frame, the whole coasting run, the boundary check, saving the position),
  proved against pure functions `Bounce`, `Step` and `Settle`.
- `Draw`: the random choice of a table entry, `Floor(u * length)`, shared by the widget and the relay.
- `Replies`: `getSimulatedReply` as `Classify` (first matching category in a
  fixed order) and `SimulatedReply` (a reply from that category's table).
- `Chat`: the `ChatSystem` class (chat-window drag, send guard, delayed
  welcome and reply messages, position restore).
- `Relay`: the `handler` of the relay endpoint as pure functions `Admit`,
  `Complete` and `Handle` over an abstract upstream outcome.

Inputs the program takes from its environment are parameters: pointer
coordinates, `Date.now()` (`now: int`), the element's untransformed box
(`Layout`) and the window size (`Viewport`), `Math.random()` (a draw `u`
with `0 <= u < 1`, turned into an index as `Floor(u * length)`), and the
upstream call's outcome (`Upstream`).

## Model

| member | source | states |
|---|---|---|
| `Text.Trim` | desktop-ai-pet/public/app.js:279-280 | The trimmed text is a stretch of the input with only white space before and after it, none at either of its own ends, and it is empty exactly when the input holds nothing but white space. |
| `Text.TrimUnique` | desktop-ai-pet/public/app.js:279 | Any stretch with only white space around it and none at its ends is the trim, so `trim` removes exactly the white space at both ends. |
| `Text.TrimIdempotent` | desktop-ai-pet/public/app.js:279 | Trimming an already trimmed string changes nothing. |
| `Text.ToLower` | desktop-ai-pet/public/app.js:299 | Lower-casing keeps the length, maps each upper-case ASCII letter to the letter 32 code points above it, and keeps every other character. |
| `Text.ToLowerSpace` | desktop-ai-pet/public/app.js:299 | Lower-casing neither creates nor removes white space at any position. |
| `Text.TrimToLower` | desktop-ai-pet/public/app.js:299 | Lower-casing then trimming gives the same string as trimming then lower-casing. |
| `Text.ContainsAt` | desktop-ai-pet/public/app.js:302 | A keyword that occurs at any position of the message is found by the substring test. |
| `Text.ContainsOccurs` | desktop-ai-pet/public/app.js:302 | Conversely, a keyword the substring test finds occurs at some position of the message; with `ContainsAt` the test holds exactly when such a position exists. |
| `Text.MissingHead` | desktop-ai-pet/public/app.js:302 | A keyword whose first character does not occur in the message is not matched. |
| `Text.ParseDecimalInverts` | desktop-ai-pet/api/chat.js:7 | Reading back the decimal numeral of the clock value gives that value. |
| `Text.DecimalInjective` | desktop-ai-pet/api/chat.js:7 | Different clock values render to different numerals. |
| `PositionStore.Storage.Set` | desktop-ai-pet/public/app.js:114-119 | Writing a position changes only its key, and reading that key back gives the position. |
| `PositionStore.Restore` | desktop-ai-pet/public/app.js:22-29 | A widget starts at its stored position if there is one, else at its default. |
| `Pet.FloatingPet.constructor` | desktop-ai-pet/public/app.js:3-29 | All fields start at zero, then the stored position (or (100, 100)) is displayed; the drag offset stays (0, 0). |
| `Pet.FloatingPet.Restored` | desktop-ai-pet/public/app.js:20-29 | Corrected start-up: the restored position is also taken as the drag offset, so the pet is `Anchored`. |
| `Pet.FloatingPet.DragStart` | desktop-ai-pet/public/app.js:55-65 | The anchor becomes pointer minus offset, the drag starts, the sample is taken, and nothing that moves the pet changes. |
| `Pet.FloatingPet.Drag` | desktop-ai-pet/public/app.js:67-91 | Without a drag nothing changes at all. During a drag, offset and display follow the pointer minus the anchor, the velocity is taken from the last sample only (kept when no time elapsed), and the sample becomes the previous one. |
| `Pet.FloatingPet.TouchDrag` | desktop-ai-pet/public/app.js:67-69 | `drag` called from the `touchmove` listener with a touch point throws exactly when a drag is in progress (a touch point has no `preventDefault`), and changes nothing either way. |
| `Pet.Sampled` | desktop-ai-pet/public/app.js:80-85 | With positive elapsed time, velocity times elapsed time equals the pointer travel; otherwise the velocity is unchanged. |
| `Pet.FloatingPet.SavePosition` | desktop-ai-pet/public/app.js:114-119 | The displayed position is written under the pet's key. |
| `Pet.FloatingPet.DragEnd` | desktop-ai-pet/public/app.js:93-105 | The drag stops, the displayed position is saved, and the motion becomes the bounce of the old one at the displayed rectangle. |
| `Pet.BounceAxis` | desktop-ai-pet/public/app.js:153-168 | Past the low edge the velocity turns non-negative; past the high edge the target is window size minus element size minus 10 and the velocity turns non-positive. A bounce keeps 0.6 of the speed, and an element inside the window keeps offset and velocity. |
| `Pet.Bounce` | desktop-ai-pet/public/app.js:145-175 | The boundary check never increases either velocity component, and it rewrites the display only when the target differs from the old offset. An element inside the window is left unchanged. |
| `Pet.FloatingPet.CheckBoundaries` | desktop-ai-pet/public/app.js:145-175 | The pet's motion becomes `Bounce` of the old one; drag state and samples are untouched. |
| `Pet.Step` | desktop-ai-pet/public/app.js:126-135 | After one coasting frame, each velocity component is at most 0.9 times its old size, with bounces included. |
| `Pet.StepSpendsBudget` | desktop-ai-pet/public/app.js:126-133 | While either component exceeds 0.1, a frame lowers the integer budget Floor(100 · max speed). |
| `Pet.Settle` | desktop-ai-pet/public/app.js:121-143 | The coasting chain ends; at rest both velocity components are at most 0.1 and neither has grown. |
| `Pet.FramesWithinBudget` | desktop-ai-pet/public/app.js:121-143 | Coasting takes at most Floor(100 · starting max speed) frames. |
| `Pet.FloatingPet.InertiaFrame` | desktop-ai-pet/public/app.js:125-140 | While either component exceeds 0.1, a frame takes a `Step` and schedules the next one. Otherwise it only saves the position and schedules nothing. |
| `Pet.FloatingPet.Coast` | desktop-ai-pet/public/app.js:121-143 | The chain of frames brings the motion to `Settle` of the starting one, and the store ends holding the resting position. |
| `Pet.FloatingPet.Release` | desktop-ai-pet/public/app.js:93-143 | A release followed by its frames leaves the pet at rest in `Settle` of the bounced motion, with the resting position stored; the drag anchor and the last pointer sample are kept. |
| `Pet.PressInPlace` | desktop-ai-pet/public/app.js:55-77 | Pressing and moving at one point keeps the drag offset and displays the pet at it; an `Anchored` pet does not move. |
| `Pet.FingerDrag` | desktop-ai-pet/public/app.js:43-69 | As written, a finger press followed by a move throws, and the pet's position, offset and velocity stay as they were. |
| `Pet.FingerDragCorrected` | desktop-ai-pet/public/app.js:43-90 | With the touch move handled like a pointer move, the pet is displayed at its offset moved by the finger's travel, and its velocity times the elapsed time is that travel. |
| `Pet.FirstDragAfterRestore` | desktop-ai-pet/public/app.js:20-29 | As written, a pet restored at (300, 300) and pressed in place at (350, 350) is displayed at (0, 0). |
| `Pet.FirstDragAfterRestoreCorrected` | desktop-ai-pet/public/app.js:20-29 | With the corrected start-up, pressing in place after a restore leaves the pet at the restored position. |
| `Replies.Candidates` | desktop-ai-pet/public/app.js:303-388 | Every category draws from four replies, and the default from eight. |
| `Replies.Classify` | desktop-ai-pet/public/app.js:302-376 | The chosen category matches the message unless it is the default, and no category earlier in the fixed order matches. |
| `Replies.FirstMatchIsUnique` | desktop-ai-pet/public/app.js:302-376 | The first-match characterisation determines the category: any category satisfying it is the one `Classify` returns. |
| `Replies.TrimmedFirst` | desktop-ai-pet/public/app.js:279-299 | The trim in `sendMessage` before the engine's own lower-case-and-trim makes no difference to what the engine matches against. |
| `Draw.Pick` | desktop-ai-pet/public/app.js:309 | Math.floor(random · length) always lands on an entry of the table. |
| `Draw.PickReachesEvery` | desktop-ai-pet/public/app.js:309 | Every entry of a table is drawn for some value of the random source. |
| `Replies.SimulatedReply` | desktop-ai-pet/public/app.js:298-391 | The reply comes from the table of the category the lower-cased, trimmed message falls in. |
| `Replies.HelloIsGreeting` | desktop-ai-pet/public/app.js:302-332 | "你好" also matches the happy keyword "好", yet it is classified as a greeting. |
| `Replies.HelloGetsGreeting` | desktop-ai-pet/public/app.js:302-310 | Whatever the draw, the reply to "你好" is one of the greeting replies. |
| `Replies.UnhappyIsComforted` | desktop-ai-pet/public/app.js:313-324 | "不开心" contains the happy keyword "开心", yet it is classified as sadness. |
| `Replies.SubstringGreeting` | desktop-ai-pet/public/app.js:302 | The alternatives are plain substrings, so "this" (which contains "hi") is a greeting. |
| `Replies.UnmatchedIsDefault` | desktop-ai-pet/public/app.js:378-390 | A message containing no keyword gets one of the eight default replies. |
| `Chat.ChatSystem.constructor` | desktop-ai-pet/public/app.js:179-211 | The panel starts empty with the welcome scheduled and is displayed at the stored position (or (200, 200)); the drag offset stays (0, 0). |
| `Chat.ChatSystem.Restored` | desktop-ai-pet/public/app.js:204-211 | Corrected start-up: the restored position is also taken as the drag offset. |
| `Chat.ChatSystem.WelcomeDue` | desktop-ai-pet/public/app.js:442-453 | The scheduled welcome adds exactly one message from the welcome table, once. |
| `Chat.ChatSystem.SendMessage` | desktop-ai-pet/public/app.js:278-295 | A blank input changes nothing. Otherwise the trimmed text becomes `lastUserMessage`, exactly one user message is added, the input is cleared and one reply is scheduled. |
| `Chat.ChatSystem.ReplyDue` | desktop-ai-pet/public/app.js:290-294 | A scheduled reply leaves the pending list, and the one message it adds is the simulated reply to that pending text. |
| `Chat.ChatSystem.ChatDragStart` | desktop-ai-pet/public/app.js:455-462 | The drag starts with anchor = pointer minus the chat offset; nothing else changes. |
| `Chat.ChatSystem.ChatDrag` | desktop-ai-pet/public/app.js:464-470 | Without a drag nothing changes. During one, the offset and the displayed position follow the pointer minus the anchor. |
| `Chat.ChatSystem.ChatDragEnd` | desktop-ai-pet/public/app.js:472-488 | The drag stops and the chat offset is written under the chat key, whether or not a drag was in progress. |
| `Chat.SendThenBlank` | desktop-ai-pet/public/app.js:278-295 | Sending a message and then a blank line shows and schedules the trimmed message once; the blank send leaves no trace, not even a cleared input box. |
| `Chat.HelloReply` | desktop-ai-pet/public/app.js:290-294 | When "你好" is pending, its reply comes from the greeting table, whatever the draw, and nothing is left pending. |
| `Chat.ReleaseAfterRestore` | desktop-ai-pet/public/app.js:204-211 | As written, a window restored at (500, 300) leaves (0, 0) in the store after one mouse release. |
| `Chat.ReleaseAfterRestoreCorrected` | desktop-ai-pet/public/app.js:204-211 | With the corrected start-up, a stored position survives a release, and the next panel appears there. |
| `Relay.DefaultConversationId` | desktop-ai-pet/api/chat.js:7 | The default id is "conv_" followed by digits that read back as the clock value. |
| `Relay.DefaultConversationIdsDiffer` | desktop-ai-pet/api/chat.js:7 | Requests at different instants get different default ids. |
| `Relay.Admit` | desktop-ai-pet/api/chat.js:2-12 | A non-POST method gets 405 and a missing or blank message gets 400, both without an upstream call. Every other request is forwarded with the message as sent and its own id or the default one. |
| `Relay.FindAssistant` | desktop-ai-pet/api/chat.js:44 | The index found is the first entry whose role is "assistant"; none is found when no entry has that role. |
| `Relay.ExtractReply` | desktop-ai-pet/api/chat.js:40-48 | The reply is non-empty. When the first assistant entry has non-empty content, that content is the reply; anything other than the placeholder is such content. |
| `Relay.Complete` | desktop-ai-pet/api/chat.js:14-80 | A forwarded request always gets 200. Failure gives a fallback reply with the request's id; success gives the extracted reply with the upstream id when truthy, else the request's. |
| `Relay.Handle` | desktop-ai-pet/api/chat.js:2-81 | Status 405 iff the method is not POST and 400 iff POST with a blank message; otherwise 200. Non-200 answers carry an error body. |
| `Relay.RejectionIgnoresUpstream` | desktop-ai-pet/api/chat.js:3-12 | A rejected request's answer does not depend on the upstream outcome. |
| `Relay.FailureFallsBack` | desktop-ai-pet/api/chat.js:62-79 | A non-ok status or an exception on an accepted request gives 200, a fallback reply and the request's id (or the default one). |
| `Relay.FirstAssistantOnly` | desktop-ai-pet/api/chat.js:44-47 | An empty first assistant entry gives the placeholder even when a later assistant entry has content. |

## Findings

| source | as written | input that shows it | evidently intended | confidence | as-written member | corrected member |
|---|---|---|---|---|---|---|
| desktop-ai-pet/public/app.js:20-29 | `init` displays the stored position through `setPosition` but leaves `xOffset`/`yOffset` at 0, and `dragStart` anchors the drag on the offset. | Stored (300, 300); press and move at (350, 350): the pet jumps to (0, 0). | The drag continues from where the pet is shown: the offset starts at the restored position. | high (not executed) | `Pet.FirstDragAfterRestore` | `Pet.FloatingPet.Restored` |
| desktop-ai-pet/public/app.js:44-69 | The `touchmove` listener passes `e.touches[0]`, a touch point, to `drag`, which calls `e.preventDefault()` on it during a drag. A touch point has no such method. | Touch the pet and move the finger: the call throws before any field changes, so the pet does not follow the finger, and the release coasts with the velocity left over from before. | A finger drag moves the pet like a mouse drag. | high (not executed) | `Pet.FingerDrag` | `Pet.FingerDragCorrected` |
| desktop-ai-pet/public/app.js:204-211 | `init` displays the stored chat position but leaves `chatOffsetX`/`chatOffsetY` at 0. `chatDragEnd` runs on every mouse release and saves the offset. | Stored (500, 300); one click anywhere on the page: the store now holds (0, 0), and the next load shows the panel there. | A reload followed by a stray release keeps the stored position. | high (not executed) | `Chat.ReleaseAfterRestore` | `Chat.ChatSystem.Restored` |

## Left out

- Page plumbing: element lookup, style and transform writes, cursor changes, the typing indicator, `addMessage` rendering, scrolling, `toggleChat`, the click that opens the chat, and event wiring. Mouse events and the touch start and end call the same methods with the pointer's coordinates. A touch move is modelled apart (`TouchDrag`), because it ends in an exception during a drag.
- `getBoundingClientRect`: the rectangle is the element's untransformed box (`Layout`) moved by the displayed translation.
- JSON encoding of stored positions: `JSON.parse` throws on a malformed stored value. The store holds only positions, so that case is not represented.
- `Pet.FloatingPet.Coast`, `Pet.FloatingPet.Release`: the `requestAnimationFrame` chain is run to completion with no event in between, so two interleavings are not covered by these two:
  - a second mouse release between frames starts a second chain that overlaps the running one, since nothing guards against it;
  - a drag start between frames lets the running chain keep moving the pet during the drag, because `applyInertiaFrame` never reads `isDragging`. `InertiaFrame` itself can be called in any state, as in the source.
- `setTimeout` delays (800–1500 ms for replies, 1000 ms for the welcome) are not modelled. A scheduled callback is pending work that fires later, in any order (`ReplyDue`, `WelcomeDue`).
- IEEE floating point: positions and velocities are exact reals, so, for example, pressing in place restores the offset exactly.
- `Text.ToLower`: only ASCII letters are lower-cased. Unicode case mapping (`String.toLowerCase`) is not modelled.
- The PWA install prompt and the service-worker registration, and the unused `isOnline`, `retryCount` and `maxRetries` fields.
- The relay's `fetch` details (URL, headers, environment variables, `bot_id`, `user`, `stream`), reading the error text and all logging are out. Only the outcome of the call is kept: ok with data, non-ok status, or an exception.
- Relay inputs of the wrong JSON type are not modelled: a missing body, a non-string `message` (whose `trim` throws outside the `try`), a `null` conversation id, or non-string upstream fields.
- Behaviour kept as the code has it:
  - Error bodies carry only `error`, with no `code` field.
  - The reply is taken only from the `messages` array; no other field of the upstream answer is tried for it. The upstream `conversation_id` is read only for the returned id.
  - The relay has no simulated mode for a missing configuration.
  - The message is forwarded as sent, not trimmed.
  - `dragStart` does not check whether a drag is already in progress.
