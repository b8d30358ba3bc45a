# Clonely session core, modelled in Dafny

Clonely is a desktop overlay assistant. It listens to the microphone and system audio,
captures screen frames, and streams them to a realtime language-model session (Gemini Live)
and to a speech-transcription session. Its decision logic lives in four small stateful
components. This project models those four and proves what they promise:

- **The UI/session state machine** (`lib/state/uiMachine.ts`, modules `UiMachine`,
  `UiMachineTable`, `UiMachineProperties`). This was an XState configuration. Here it is a
  tagged-union state (`activeIdle`, `chat.{idle,loading,error}`, `live.{loading,streaming,error}`),
  a context `{micCooldown, error}` and a total step function from configuration and event to
  the new configuration plus a list of outward effects. The effects are live-audio start/stop,
  `chat:submit(msg)`, `chat:cancel`, and scheduling `CLEAR_COOLDOWN`.
  - `Step` follows XState's own rules. The leaf's handler is tried first, then the parent's
    (`chat`, `live`), then the root's. A failed guard falls through to the parent. A transition
    runs its own actions before the target's entry actions. An event no node handles changes
    nothing.
  - `UiMachineTable.Table` restates the same machine as a flat leaf-by-event table, and
    `StepMatchesTable` proves the two agree on every input.
  - The main invariant: `error` is set exactly in `chat.error` and `live.error`, and is then a
    non-empty string. It is proved for every configuration reachable from the initial one.
- **The legacy main-process machine** (`lib/state/AppStateMachine.ts`, module `AppState`).
  A class holds the four-state `current` field and a ghost log of the `stateChange {prev, next}`
  events it emits. `NextState` is the pure switch. `Dispatch` updates `current` and logs one
  change exactly when the state changes. The class invariant says the log is a chain of
  diagram arrows from the initial state to the current one.
- **The dual-leg live orchestrator** (`lib/features/live-audio/LiveAudioService.ts`, module
  `LiveAudio`). The `active` flag gates every call forwarded to the two legs.
  - The legs (`GeminiLeg`, `TranscribeLeg`) are abstract objects. Each one only records the
    calls it receives in a ghost log.
  - The service also keeps a ghost trace of every call it made to either leg, in order. The
    class invariant ties each leg's log to its part of that trace.
  - Whether each leg starts successfully is a parameter of `Start`.
- **The Gemini live message handler** (`lib/llm/GeminiLiveHelper.ts`, module `GeminiLive`).
  A class holds `session`, `closePending`, `turnJustCompleted`, the response queue and a
  ghost log of the chunks handed to the caller.
  - Server messages are `{text: Option<string>, turnComplete: bool}`.
  - The session is an abstract handle that logs the realtime inputs sent on it and counts its
    `close` calls.
  - The pure function `StreamChunks` gives the chunk stream a message sequence produces. The
    lemmas about it say that no text is lost or reordered and that resets never outnumber
    completed turns.

Modules `Wrappers` (an `Option` type) and `JsText` (JavaScript's `String.prototype.trim` and
`String(x)`) hold the helpers those four use.

Facts about the code that shape the model:

- `LiveAudioService.start` sets `active` only after both legs have started, and nothing is
  rolled back: a leg that did start is not closed when the other fails.
- `sendTextInput` is not gated by `active`. It depends only on the Gemini leg's
  `canAcceptTextInput()`.
- The service has no mute flag. Every audio chunk goes to both legs while the service is active.
- `SUBMIT` in `chat.error` has no `hasInput` guard. A blank value still enters `chat.loading`
  and clears the error, but `sendChat` then sends nothing (`SubmitFromChatError`).
- Entering `live.loading` from `chat.idle` emits live-start twice: once as a transition action
  and once as an entry action (`EnteringLive`).
- ESC from `live.*` returns to `chat.idle`, not to `activeIdle`.

## Model

| member | source | states |
|---|---|---|
| `JsText.TrimStart` | lib/state/uiMachine.ts:41 | removes exactly the leading whitespace: the result is a suffix, everything dropped is whitespace, and it does not start with whitespace |
| `JsText.TrimEnd` | lib/state/uiMachine.ts:41 | removes exactly the trailing whitespace: the result is a prefix, everything dropped is whitespace, and it does not end with whitespace |
| `JsText.Trim` | lib/state/uiMachine.ts:41 | definition: `TrimEnd(TrimStart(s))`; its properties are in `TrimIsInfix` and `TrimEmptyIff` |
| `JsText.TrimIsInfix` | lib/state/uiMachine.ts:74 | `trim` keeps one contiguous part of the input, drops only whitespace around it, and what it keeps neither starts nor ends with whitespace |
| `JsText.TrimEmptyIff` | lib/state/uiMachine.ts:41 | the trimmed value is empty exactly when the input is all whitespace (what `hasInput` decides) |
| `JsText.ToJsString` | lib/state/uiMachine.ts:54 | definition of `String(x)` on an error payload (`"undefined"`, `"null"`, the string itself, or the shown form); used by `ErrorMessage` |
| `UiMachine.HasInput` | lib/state/uiMachine.ts:37-44 | definition of the `hasInput` guard; `SubmitFromChatIdle` states it as "not all whitespace" through `TrimEmptyIff` |
| `UiMachine.CanStartLive` | lib/state/uiMachine.ts:45 | definition of the `canStartLive` guard (cooldown off); its effect is in `MicStartGuard` |
| `UiMachine.ErrorMessage` | lib/state/uiMachine.ts:51-58 | the recorded error is never empty; it is `String(error)` when that is non-empty, and 'An unknown error occurred.' otherwise |
| `UiMachine.Exec` | lib/state/uiMachine.ts:47-81 | definition of each named action: its context update and its effects; its properties are in `EnterChatLoading`, `EnterLiveLoading` and the `UiMachineProperties` lemmas |
| `UiMachine.ExecAll` | lib/state/uiMachine.ts:47-81 | definition: runs an action list left to right; its property is `ExecAllAppend` |
| `UiMachine.LeafHandler` | lib/state/uiMachine.ts:100-205 | definition of the transitions declared on the leaf states, guards included; its properties are in `StepMatchesTable` and `UnhandledIsIgnored` |
| `UiMachine.ParentHandler` | lib/state/uiMachine.ts:167-183 | definition of the transitions declared on `chat` and `live`; its properties are in `StepMatchesTable`, `LeavingLive` and `LiveErrorHandles` |
| `UiMachine.RootHandler` | lib/state/uiMachine.ts:94-98 | definition of the root CLEAR_COOLDOWN transition; its property is `ClearCooldownOnlyResetsCooldown` |
| `UiMachine.Select` | lib/state/uiMachine.ts:94-205 | definition: the deepest handler wins, a failed guard falls through to the parent; its properties are in `StepMatchesTable` and `LiveErrorHandles` |
| `UiMachine.EntryActions` | lib/state/uiMachine.ts:117-186 | definition of the entry actions of `chat.idle`, `chat.loading` and `live.loading`; its properties are `EnterChatLoading` and `EnterLiveLoading` |
| `UiMachine.Initial` | lib/state/uiMachine.ts:89-93 | definition of the initial configuration; its property is `InitialConfiguration` |
| `UiMachine.Step` | lib/state/uiMachine.ts:86-208 | definition of one macrostep; its properties are `StepMatchesTable`, `StepPreservesInv` and the `UiMachineProperties` lemmas |
| `UiMachineTable.ExecAllAppend` | lib/state/uiMachine.ts:126 | an action list runs in order: running `a + b` runs `a`, then `b` on the context `a` left, and the effects come in that order |
| `UiMachineTable.EnterChatLoading` | lib/state/uiMachine.ts:134 | entering `chat.loading` clears `error` and emits `chat:submit` with the trimmed value exactly when that is non-empty |
| `UiMachineTable.EnterLiveLoading` | lib/state/uiMachine.ts:186 | entering `live.loading` sets the cooldown, clears `error`, and emits live-start followed by the scheduled CLEAR_COOLDOWN |
| `UiMachineTable.StepMatchesTable` | lib/state/uiMachine.ts:86-208 | the hierarchical step (child before parent handlers, transition actions before entry actions, unhandled events ignored) equals the flat leaf-by-event table for every configuration and event |
| `UiMachineProperties.InitialConfiguration` | lib/state/uiMachine.ts:89-93 | the machine starts in `activeIdle` with `micCooldown = false` and `error = null`, which satisfies the error invariant |
| `UiMachineProperties.StepPreservesInv` | lib/state/uiMachine.ts:94-205 | every step keeps `error` set exactly in `chat.error`/`live.error` and non-empty there |
| `UiMachineProperties.RunPreservesInv` | lib/state/uiMachine.ts:94-205 | any sequence of events keeps the error invariant |
| `UiMachineProperties.ReachableInv` | lib/state/uiMachine.ts:89-205 | in every configuration reachable from the initial one, `error != null` iff the state is `chat.error` or `live.error`, and the error is then non-empty |
| `UiMachineProperties.SubmitFromChatIdle` | lib/state/uiMachine.ts:119-122 | SUBMIT in `chat.idle` enters `chat.loading` and sends the trimmed message iff the value is not all whitespace; otherwise state, context and effects are unchanged |
| `UiMachineProperties.SubmitFromChatError` | lib/state/uiMachine.ts:150-153 | SUBMIT in `chat.error` always enters `chat.loading` with `error` cleared; it sends the trimmed message only when that is non-empty |
| `UiMachineProperties.EscCancelsChat` | lib/state/uiMachine.ts:143-146 | ESC in `chat.loading` goes to `activeIdle`, emits `chat:cancel`, and leaves the context unchanged |
| `UiMachineProperties.LateResponseIgnored` | lib/state/uiMachine.ts:100-111 | when the event right after the ESC that cancelled a request is its late API_SUCCESS or API_ERROR, that event finds `activeIdle` and changes nothing |
| `UiMachineProperties.ErrorIsRecorded` | lib/state/uiMachine.ts:139-142 | API_ERROR in `chat.loading` and LIVE_ERROR in `live.loading`/`live.streaming` enter the matching error state, record `String(error)` or the fallback text (never empty), and keep the cooldown |
| `UiMachineProperties.MicStartGuard` | lib/state/uiMachine.ts:105-109 | MIC_START from `activeIdle`, `chat.idle` or `chat.error` enters `live.loading` when the cooldown is off; in every other case it changes nothing |
| `UiMachineProperties.EnteringLive` | lib/state/uiMachine.ts:123-127 | every entry into `live.loading` comes from MIC_START with the cooldown off, leaves `micCooldown = true` and `error = null`, and emits live-start and the scheduled CLEAR_COOLDOWN, with live-start twice when coming from `chat.idle` |
| `UiMachineProperties.LeavingLive` | lib/state/uiMachine.ts:174-183 | MIC_STOP or ESC in any `live.*` state goes to `chat.idle`, emits live-stop and clears `error` |
| `UiMachineProperties.LiveReadyStreams` | lib/state/uiMachine.ts:188 | LIVE_READY moves `live.loading` to `live.streaming` and changes nothing else |
| `UiMachineProperties.ClearCooldownOnlyResetsCooldown` | lib/state/uiMachine.ts:94-98 | CLEAR_COOLDOWN, in every state, only resets `micCooldown`: same state, same `error`, no effects |
| `UiMachineProperties.UnhandledIsIgnored` | lib/state/uiMachine.ts:94-205 | an event for which, state by state, no leaf, parent or root transition is declared (or whose `hasInput`/`canStartLive` guard fails) changes neither state nor context and emits nothing |
| `UiMachineProperties.LiveErrorHandles` | lib/state/uiMachine.ts:203-205 | `live.error` handles exactly MIC_STOP, ESC and CLEAR_COOLDOWN |
| `UiMachineProperties.CooldownHeld` | lib/state/uiMachine.ts:45-49 | once `micCooldown` is on it stays on along any sequence of events without CLEAR_COOLDOWN, whatever transitions they take: only CLEAR_COOLDOWN turns it off |
| `UiMachineProperties.MicStartIgnoredUntilCleared` | lib/state/uiMachine.ts:105-109 | with the cooldown on, MIC_START is ignored (no change, no effect) in every configuration reached by events other than CLEAR_COOLDOWN |
| `UiMachineProperties.CooldownDebounce` | lib/state/uiMachine.ts:222-229 | scenario from the initial configuration: MIC_START, MIC_STOP, MIC_START ends in `chat.idle` with effects live-start, scheduled clear, live-stop (the second MIC_START is ignored); with CLEAR_COOLDOWN before the second MIC_START it reaches `live.loading` |
| `UiMachineProperties.ChatRetryScenario` | lib/state/uiMachine.ts:136-153 | OPEN_CHAT, SUBMIT, API_ERROR "rate limited", SUBMIT, API_SUCCESS passes through chat.idle, loading, error (with the message), loading, and ends in chat.idle with no error |
| `AppState.ChainExtend` | lib/state/AppStateMachine.ts:54-57 | appending the change `{prev, next}` of a real transition to a valid log gives a valid log ending in `next` |
| `AppState.AppStateMachine.constructor` | lib/state/AppStateMachine.ts:37-40 | a new machine is in the given initial state (by default `ActiveIdle`), with nothing emitted |
| `AppState.AppStateMachine.State` | lib/state/AppStateMachine.ts:43-45 | definition of the `state` getter (the current state); used by `DispatchScenario` |
| `AppState.AppStateMachine.NextState` | lib/state/AppStateMachine.ts:61-84 | definition of `nextState`; its properties are `NextStateFollowsDiagram`, `EscReturnsToIdle`, `SubmitLoads`, `ApiResultsOnlyInLoading` and `ActiveIdleOnlyOpens` |
| `AppState.AppStateMachine.Dispatch` | lib/state/AppStateMachine.ts:51-58 | the new state is `nextState(prev, e)`; exactly one `{prev, next}` is appended to the log iff it differs from `prev`, otherwise nothing changes; the log stays a chain from the initial to the current state |
| `AppState.NextStateFollowsDiagram` | lib/state/AppStateMachine.ts:61-84 | `nextState` changes the state exactly along the eight arrows of the header diagram, and leaves it unchanged for every other state–event pair |
| `AppState.EscReturnsToIdle` | lib/state/AppStateMachine.ts:68-82 | ESC from every state yields `ActiveIdle` |
| `AppState.SubmitLoads` | lib/state/AppStateMachine.ts:64-81 | SUBMIT yields `Loading` from `ReadyChat` and `Error`, and is ignored in `ActiveIdle` and `Loading` |
| `AppState.ApiResultsOnlyInLoading` | lib/state/AppStateMachine.ts:63-83 | API_SUCCESS yields `ReadyChat` and API_ERROR yields `Error` in `Loading`; both are ignored in every other state |
| `AppState.ActiveIdleOnlyOpens` | lib/state/AppStateMachine.ts:64-66 | `ActiveIdle` reacts only to OPEN_CHAT, which goes to `ReadyChat` |
| `LiveAudio.PartsAppend` | lib/features/live-audio/LiveAudioService.ts:46-47 | splitting the service's call trace by leg distributes over concatenation, so each leg sees its calls in the order they were made |
| `LiveAudio.LiveAudioService.constructor` | lib/features/live-audio/LiveAudioService.ts:15-17 | a new service owns two fresh legs, is inactive, and has made no calls |
| `LiveAudio.LiveAudioService.IsActive` | lib/features/live-audio/LiveAudioService.ts:19-21 | definition of `isActive()` (the `active` flag); the methods' contracts state how it changes |
| `LiveAudio.LiveAudioService.Start` | lib/features/live-audio/LiveAudioService.ts:26-41 | while active: resolves with no leg calls and stays active; otherwise starts Gemini and then transcription (both are called), and becomes active and resolves iff both start; a started leg is not rolled back |
| `LiveAudio.LiveAudioService.SendAudioChunk` | lib/features/live-audio/LiveAudioService.ts:44-48 | inactive: no calls; active: the same chunk once to Gemini, then once to transcription |
| `LiveAudio.LiveAudioService.Stop` | lib/features/live-audio/LiveAudioService.ts:51-56 | inactive: nothing changes; active: Gemini end and transcription finish once each; afterwards the service is inactive |
| `LiveAudio.LiveAudioService.FinishTurn` | lib/features/live-audio/LiveAudioService.ts:59-62 | reaches only the Gemini leg, once, and only when active |
| `LiveAudio.LiveAudioService.SendImageChunk` | lib/features/live-audio/LiveAudioService.ts:65-68 | reaches only the Gemini leg, once, and only when active; never the transcription leg |
| `LiveAudio.LiveAudioService.SendTextInput` | lib/features/live-audio/LiveAudioService.ts:71-75 | forwards the text to Gemini iff the leg accepts text input, whether or not the service is active |
| `GeminiLive.MessageChunksFacts` | lib/llm/GeminiLiveHelper.ts:58-65 | one message yields exactly its text when it has text (nothing otherwise), preceded by a single reset only when a turn had just completed |
| `GeminiLive.MessageChunks` | lib/llm/GeminiLiveHelper.ts:58-65 | definition of the chunks one message delivers; its properties are `MessageChunksFacts`, `StreamKeepsTexts` and `TurnCompleteResetsNextText` |
| `GeminiLive.FlagAfter` | lib/llm/GeminiLiveHelper.ts:62-68 | definition of `turnJustCompleted` after one message; its properties are `ResetsBoundedByTurns` and `TurnCompleteResetsNextText` |
| `GeminiLive.StreamChunks` | lib/llm/GeminiLiveHelper.ts:56-68 | definition of the chunks a message sequence delivers through `onmessage`; its properties are `StreamKeepsTexts`, `ResetsBoundedByTurns` and `TurnCompleteResetsNextText` |
| `GeminiLive.StreamKeepsTexts` | lib/llm/GeminiLiveHelper.ts:59-64 | with the resets dropped, the chunk stream is exactly the texts of the text-bearing messages, in order |
| `GeminiLive.ResetsBoundedByTurns` | lib/llm/GeminiLiveHelper.ts:60-68 | at most one reset per completed turn: resets never outnumber the `turnComplete` messages (plus one if a turn had completed before) |
| `GeminiLive.SilentGapKeepsReset` | lib/llm/GeminiLiveHelper.ts:59-68 | once a turn has completed, messages without text deliver nothing and leave the reset pending, so the next text-bearing message is delivered as `{reset}` then `{text}` |
| `GeminiLive.TurnCompleteResetsNextText` | lib/llm/GeminiLiveHelper.ts:58-68 | from any starting flag, a `turnComplete` message delivers only its own chunks (no reset for itself); messages without text that follow deliver nothing; the next text-bearing message is delivered as `{reset}` then `{text}` |
| `GeminiLive.DeliverKeepsResetsBeforeText` | lib/llm/GeminiLiveHelper.ts:60-64 | every reset handed to the caller is immediately followed by a text chunk |
| `GeminiLive.GeminiLiveHelper.constructor` | lib/llm/GeminiLiveHelper.ts:22-25 | no session, no pending close, no completed turn, nothing delivered |
| `GeminiLive.GeminiLiveHelper.StartSession` | lib/llm/GeminiLiveHelper.ts:27-28 | a no-op while a session exists; otherwise the connected handle becomes the session with an empty response queue |
| `GeminiLive.GeminiLiveHelper.OnMessage` | lib/llm/GeminiLiveHelper.ts:56-75 | queues the message; delivers `{reset}` then `{text}` after a completed turn, `{text}` alone otherwise, nothing without text; sets the flag on `turnComplete` after handling the text; closes the session exactly once and clears `closePending` when a turn completes with a close pending |
| `GeminiLive.GeminiLiveHelper.SendAudioChunk` | lib/llm/GeminiLiveHelper.ts:96-102 | no session: nothing; otherwise exactly one realtime audio input with mime type 'audio/pcm;rate=16000' |
| `GeminiLive.GeminiLiveHelper.SendImageChunk` | lib/llm/GeminiLiveHelper.ts:105-109 | no session: nothing; otherwise exactly one realtime video input with mime type 'image/jpeg' |
| `GeminiLive.GeminiLiveHelper.FinishTurn` | lib/llm/GeminiLiveHelper.ts:112-117 | no session: nothing changes; otherwise one `audioStreamEnd` input is sent and `closePending` is set |

## Left out

- The async timing of everything is left out. `genAI.live.connect`, the 50 ms polling
  `waitMessage`, the `handleTurn` loop and the detached re-emitter after `connect` are all
  timing-dependent. The re-emitter sends the first turn's texts to `onMessage` a second time;
  the model does not capture that.
- Overlapping calls are not modelled. Each `start` finishes before the next call begins.
  Because `active` is set only after both legs have started, two overlapping `start` calls
  would both pass the guard. The model cannot show that.
- The outcome of `connect` is a parameter of `GeminiLiveHelper.StartSession`. The base64
  encoding of audio is left out: the payload stands for its encoding.
- The transcription leg's source is not part of this model. Nor are the Gemini leg's
  `endSession`, `canAcceptTextInput` and `sendTextInput`, which `GeminiLiveHelper.ts`
  does not define. The legs are therefore abstract call logs.
- `canAcceptTextInput()` is a field of the abstract Gemini leg, fixed at construction:
  nothing in the modelled code changes it.
- The callbacks `onGeminiChunk`/`onTranscript` that `start` passes to the legs are left out.
  They only forward data to the UI.
- `pendingRequestId` is declared in `UIContext` but never assigned, so it is not kept.
- LateResponseIgnored: covers only the event right after ESC. With `pendingRequestId` never
  assigned, nothing in the machine tells the late response of a cancelled request from the
  response to a newer SUBMIT, so a late result arriving after a new SUBMIT is taken as that
  request's answer; the model has no promise to prove about it.
- The payload of API_SUCCESS is never read, so it is not kept.
- `String(x)` is modelled only as far as error payloads go. An object's `toString` result is
  part of the payload (`JsValue.Other`).
- UiMachine.Exec, UiMachine.EntryActions, EnterLiveLoading, EnteringLive, CooldownDebounce: these follow the evident intent of
  `disableMicTemporarily` (uiMachine.ts:222-229), namely that entering `live.loading` schedules
  CLEAR_COOLDOWN. The implementation is written with the three-argument
  `(ctx, event, { actor })` action signature. The XState version that hosts the machine
  (`createActor` in `app/state/UIStateProvider.tsx`) passes an action only `(args, params)`, so
  read as written the destructuring of `actor` fails on every entry into `live.loading`. That
  happens after live-start has been emitted, and CLEAR_COOLDOWN is then never scheduled. The
  model does not capture that failure or what the actor does after it.
- Console logging is left out: the `console.log` in `hasInput` and the `onopen`/`onerror`/`onclose`
  callbacks of the Gemini session, which only log. Those callbacks are the helper's only reaction
  to a server error or close, so the model's `session` stays set after the server closes it.
- The 1.2 s cooldown timer exists only as the `ScheduleClearCooldown` effect; there is no
  clock. The `CLEAR_COOLDOWN` event it schedules is an ordinary input event.
- Emitting `stateChange` is a ghost log. Listeners that re-enter `dispatch` from inside the
  emit are not modelled.
- The control-marker reassembly (`<NONE/>`, `<APPEND/>`) is not modelled. No code in the
  modelled files interprets those markers; they appear only in prompt text.
- The Gemini mute flag is not modelled; the code has none.
