/**
 * The central UI and session state machine (`uiMachine`), as the XState configuration
 * defines it: the top-level states `activeIdle`, `chat` and `live`, their substates, the
 * context `{micCooldown, error}`, the guards, the `assign` actions and the outward actions.
 *
 * XState's run-to-completion semantics are written out:
 *  - the deepest state's handler for an event is tried first; when it has none, or its guard
 *    fails, the parent's handler is tried, then the root's; when no node handles the event
 *    nothing changes;
 *  - a transition first runs its own actions, then the entry actions of the states it enters;
 *    a transition without a target changes only the context;
 *  - outward calls (`window.api.send`, `setTimeout`) are returned as a list of effects,
 *    in the order the actions run.
 */
module UiMachine {
  import opened Wrappers
  import opened JsText

  // ---------- states ----------

  datatype ChatSub = Idle | Loading | Error
  datatype LiveSub = Loading | Streaming | Error

  /** The leaf state the machine is in; `Chat(s)` is `chat.s`, `Live(s)` is `live.s`. */
  datatype State = ActiveIdle | Chat(chat: ChatSub) | Live(live: LiveSub)

  /** The machine's context. `pendingRequestId` is declared by `UIContext` but never assigned. */
  datatype Context = Context(micCooldown: bool, error: Option<string>)

  datatype Config = Config(state: State, ctx: Context)

  // ---------- events and outward effects ----------

  /** The payload of `API_SUCCESS` is never read, so it is not kept. */
  datatype Event =
    | OpenChat
    | Submit(value: string)
    | Esc
    | MicStart
    | MicStop
    | ApiSuccess
    | ApiError(error: JsValue)
    | LiveReady
    | LiveError(error: JsValue)
    | ClearCooldown

  /** What the machine asks of the outside world. */
  datatype Effect =
    | LiveAudioStart                 // window.api.send('live-audio-start')
    | LiveAudioStop                  // window.api.send('live-audio-stop')
    | ChatSubmit(message: string)    // window.api.send('chat:submit', msg)
    | ChatCancel                     // window.api.send('chat:cancel')
    | ScheduleClearCooldown          // setTimeout(() => send CLEAR_COOLDOWN, 1200)

  datatype Outcome = Outcome(config: Config, effects: seq<Effect>)

  // ---------- guards ----------

  /** `hasInput`: a SUBMIT whose value still has content once trimmed. */
  predicate HasInput(e: Event) {
    e.Submit? && |Trim(e.value)| > 0
  }

  /** `canStartLive`. */
  predicate CanStartLive(c: Context) {
    !c.micCooldown
  }

  // ---------- actions ----------

  /** The named actions of the configuration. */
  datatype Action =
    | SetCooldown
    | ClearCooldownAction
    | ClearError
    | SetError
    | StartLiveService
    | StopLiveService
    | SendChat
    | CancelChat
    | DisableMicTemporarily

  const UnknownError := "An unknown error occurred."

  /** The message `setError` stores: `String(event.error) || 'An unknown error occurred.'`.
      It is never empty, and it is the error's own text whenever that text is not empty. */
  function ErrorMessage(e: Event): (m: string)
    ensures |m| > 0
    ensures (e.ApiError? || e.LiveError?) && ToJsString(e.error) != "" ==> m == ToJsString(e.error)
    ensures !(e.ApiError? || e.LiveError?) || ToJsString(e.error) == "" ==> m == UnknownError
  {
    if (e.ApiError? || e.LiveError?) && ToJsString(e.error) != "" then ToJsString(e.error)
    else UnknownError
  }

  /** Runs one action: the `assign` actions change the context, the others produce effects. */
  function Exec(a: Action, c: Context, e: Event): (Context, seq<Effect>) {
    match a
    case SetCooldown => (c.(micCooldown := true), [])
    case ClearCooldownAction => (c.(micCooldown := false), [])
    case ClearError => (c.(error := None), [])
    case SetError => (c.(error := Some(ErrorMessage(e))), [])
    case StartLiveService => (c, [LiveAudioStart])
    case StopLiveService => (c, [LiveAudioStop])
    case SendChat =>
      if e.Submit? && Trim(e.value) != "" then (c, [ChatSubmit(Trim(e.value))]) else (c, [])
    case CancelChat => (c, [ChatCancel])
    case DisableMicTemporarily => (c, [ScheduleClearCooldown])
  }

  /** Runs a list of actions in order, threading the context and collecting the effects. */
  function ExecAll(acts: seq<Action>, c: Context, e: Event): (Context, seq<Effect>)
    decreases |acts|
  {
    if acts == [] then (c, [])
    else
      var (c1, f1) := Exec(acts[0], c, e);
      var (c2, f2) := ExecAll(acts[1..], c1, e);
      (c2, f1 + f2)
  }

  // ---------- the configuration ----------

  /** A transition: its target leaf (`None` for a targetless transition) and its actions. */
  datatype Transition = Transition(target: Option<State>, actions: seq<Action>)

  /** The handlers declared on the leaf states, with their guards evaluated. */
  function LeafHandler(s: State, c: Context, e: Event): Option<Transition> {
    match s
    case ActiveIdle =>
      if e.OpenChat? then Some(Transition(Some(Chat(Idle)), []))
      else if e.MicStart? && CanStartLive(c) then
        Some(Transition(Some(Live(LiveSub.Loading)), [SetCooldown]))
      else None
    case Chat(Idle) =>
      if e.Submit? && HasInput(e) then Some(Transition(Some(Chat(ChatSub.Loading)), []))
      else if e.MicStart? && CanStartLive(c) then
        Some(Transition(Some(Live(LiveSub.Loading)), [StartLiveService, SetCooldown, ClearError]))
      else if e.Esc? then Some(Transition(Some(ActiveIdle), []))
      else None
    case Chat(Loading) =>
      if e.ApiSuccess? then Some(Transition(Some(Chat(Idle)), []))
      else if e.ApiError? then Some(Transition(Some(Chat(ChatSub.Error)), [SetError]))
      else if e.Esc? then Some(Transition(Some(ActiveIdle), [CancelChat]))
      else None
    case Chat(Error) =>
      if e.Submit? then Some(Transition(Some(Chat(ChatSub.Loading)), [ClearError]))
      else if e.MicStart? && CanStartLive(c) then
        Some(Transition(Some(Live(LiveSub.Loading)), [SetCooldown]))
      else if e.Esc? then Some(Transition(Some(ActiveIdle), [ClearError]))
      else None
    case Live(Loading) =>
      if e.LiveReady? then Some(Transition(Some(Live(Streaming)), []))
      else if e.LiveError? then Some(Transition(Some(Live(LiveSub.Error)), [SetError]))
      else None
    case Live(Streaming) =>
      if e.LiveError? then Some(Transition(Some(Live(LiveSub.Error)), [SetError]))
      else None
    case Live(Error) => None
  }

  /** The handlers declared on the compound states `chat` and `live`. */
  function ParentHandler(s: State, e: Event): Option<Transition> {
    match s
    case ActiveIdle => None
    case Chat(_) =>
      if e.Esc? then Some(Transition(Some(ActiveIdle), [])) else None
    case Live(_) =>
      if e.MicStop? || e.Esc? then Some(Transition(Some(Chat(Idle)), [StopLiveService])) else None
  }

  /** The handler declared on the machine itself. */
  function RootHandler(e: Event): Option<Transition> {
    if e.ClearCooldown? then Some(Transition(None, [ClearCooldownAction])) else None
  }

  /** The transition XState takes: the deepest node that handles the event wins. */
  function Select(s: State, c: Context, e: Event): Option<Transition> {
    var leaf := LeafHandler(s, c, e);
    if leaf.Some? then leaf
    else
      var parent := ParentHandler(s, e);
      if parent.Some? then parent else RootHandler(e)
  }

  /** The entry actions run when a transition enters leaf `s`. The compound states `chat` and
      `live` declare no entry actions, and no state declares exit actions. */
  function EntryActions(s: State): seq<Action> {
    match s
    case Chat(Idle) => [ClearError]
    case Chat(Loading) => [ClearError, SendChat]
    case Live(Loading) => [StartLiveService, SetCooldown, ClearError, DisableMicTemporarily]
    case _ => []
  }

  /** The configuration the machine is created in. */
  function Initial(): Config {
    Config(ActiveIdle, Context(micCooldown := false, error := None))
  }

  /** One macrostep: select the transition, run its actions, then enter its target. */
  function Step(cfg: Config, e: Event): Outcome {
    match Select(cfg.state, cfg.ctx, e)
    case None => Outcome(cfg, [])
    case Some(t) =>
      var (c1, f1) := ExecAll(t.actions, cfg.ctx, e);
      match t.target
      case None => Outcome(Config(cfg.state, c1), f1)
      case Some(target) =>
        var (c2, f2) := ExecAll(EntryActions(target), c1, e);
        Outcome(Config(target, c2), f1 + f2)
  }

  /** Whether any node of the current configuration handles `e`. */
  predicate Handles(cfg: Config, e: Event) {
    Select(cfg.state, cfg.ctx, e).Some?
  }

  /** The configuration after a sequence of events. */
  function Run(cfg: Config, events: seq<Event>): Config
    decreases |events|
  {
    if events == [] then cfg else Run(Step(cfg, events[0]).config, events[1..])
  }

  /** Every effect emitted along a sequence of events, in order. */
  function RunEffects(cfg: Config, events: seq<Event>): seq<Effect>
    decreases |events|
  {
    if events == [] then []
    else Step(cfg, events[0]).effects + RunEffects(Step(cfg, events[0]).config, events[1..])
  }

  // ---------- the invariant ----------

  predicate IsErrorState(s: State) {
    s == Chat(ChatSub.Error) || s == Live(LiveSub.Error)
  }

  /** `error` is set exactly in the two error states, and is then a non-empty message. */
  predicate Inv(cfg: Config) {
    && (cfg.ctx.error.Some? <==> IsErrorState(cfg.state))
    && (cfg.ctx.error.Some? ==> |cfg.ctx.error.value| > 0)
  }
}
