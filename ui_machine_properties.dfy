/**
 * What the UI machine promises: the error invariant over every reachable configuration,
 * the guarded transitions, the effects of entering and leaving live mode, and the
 * behaviour of events no state handles.
 */
module UiMachineProperties {
  import opened Wrappers
  import opened JsText
  import opened UiMachine
  import opened UiMachineTable

  // ---------- the error invariant ----------

  /** The machine starts in `activeIdle` with the cooldown off and no error. */
  lemma InitialConfiguration()
    ensures Initial().state == ActiveIdle
    ensures !Initial().ctx.micCooldown && Initial().ctx.error == None
    ensures Inv(Initial())
  {
  }

  /** Every step keeps `error` set exactly in the error states, and non-empty there. */
  lemma StepPreservesInv(cfg: Config, e: Event)
    requires Inv(cfg)
    ensures Inv(Step(cfg, e).config)
  {
    StepMatchesTable(cfg, e);
  }

  lemma {:induction false} RunPreservesInv(cfg: Config, events: seq<Event>)
    requires Inv(cfg)
    ensures Inv(Run(cfg, events))
    decreases |events|
  {
    if events != [] {
      StepPreservesInv(cfg, events[0]);
      RunPreservesInv(Step(cfg, events[0]).config, events[1..]);
    }
  }

  /** In every configuration reachable from the initial one, `error != null` iff the state is
      `chat.error` or `live.error`. */
  lemma ReachableInv(events: seq<Event>)
    ensures var cfg := Run(Initial(), events);
            (cfg.ctx.error.Some? <==> cfg.state == Chat(ChatSub.Error) || cfg.state == Live(LiveSub.Error))
            && (cfg.ctx.error.Some? ==> |cfg.ctx.error.value| > 0)
  {
    RunPreservesInv(Initial(), events);
  }

  // ---------- chat ----------

  /** SUBMIT in `chat.idle` starts a request exactly when the value is not all whitespace, and
      sends the trimmed message; otherwise it changes nothing. */
  lemma SubmitFromChatIdle(c: Context, v: string)
    ensures var o := Step(Config(Chat(Idle), c), Submit(v));
            if AllWhitespace(v) then o == Outcome(Config(Chat(Idle), c), [])
            else o == Outcome(Config(Chat(ChatSub.Loading), c.(error := None)), [ChatSubmit(Trim(v))])
  {
    StepMatchesTable(Config(Chat(Idle), c), Submit(v));
    TrimEmptyIff(v);
  }

  /** SUBMIT in `chat.error` is unguarded: it always enters `chat.loading` and clears the error,
      but sends the request only when the trimmed message is not empty. */
  lemma SubmitFromChatError(c: Context, v: string)
    ensures var o := Step(Config(Chat(ChatSub.Error), c), Submit(v));
            && o.config == Config(Chat(ChatSub.Loading), c.(error := None))
            && o.effects == if AllWhitespace(v) then [] else [ChatSubmit(Trim(v))]
  {
    StepMatchesTable(Config(Chat(ChatSub.Error), c), Submit(v));
    TrimEmptyIff(v);
  }

  /** ESC in `chat.loading` returns to `activeIdle` and cancels the request. */
  lemma EscCancelsChat(c: Context)
    ensures Step(Config(Chat(ChatSub.Loading), c), Esc) == Outcome(Config(ActiveIdle, c), [ChatCancel])
  {
    StepMatchesTable(Config(Chat(ChatSub.Loading), c), Esc);
  }

  /** A late API_SUCCESS or API_ERROR after the request was cancelled finds the machine in
      `activeIdle`, which ignores both. */
  lemma LateResponseIgnored(c: Context, r: Event)
    requires r.ApiSuccess? || r.ApiError?
    ensures var idle := Step(Config(Chat(ChatSub.Loading), c), Esc).config;
            Step(idle, r) == Outcome(idle, [])
  {
    EscCancelsChat(c);
    StepMatchesTable(Config(ActiveIdle, c), r);
  }

  // ---------- errors ----------

  /** API_ERROR in `chat.loading` and LIVE_ERROR in `live.loading` or `live.streaming` enter the
      error state and record `String(error)`, or the fallback text when that is empty; either way
      the recorded error is not empty. */
  lemma ErrorIsRecorded(cfg: Config, e: Event)
    requires || (cfg.state == Chat(ChatSub.Loading) && e.ApiError?)
             || ((cfg.state == Live(LiveSub.Loading) || cfg.state == Live(Streaming)) && e.LiveError?)
    ensures var o := Step(cfg, e);
            && o.effects == []
            && o.config.state == (if e.ApiError? then Chat(ChatSub.Error) else Live(LiveSub.Error))
            && o.config.ctx.micCooldown == cfg.ctx.micCooldown
            && o.config.ctx.error.Some? && |o.config.ctx.error.value| > 0
            && o.config.ctx.error.value
               == (if ToJsString(e.error) == "" then "An unknown error occurred." else ToJsString(e.error))
  {
    StepMatchesTable(cfg, e);
  }

  // ---------- live ----------

  predicate CanReachLive(s: State) {
    s == ActiveIdle || s == Chat(Idle) || s == Chat(ChatSub.Error)
  }

  /** MIC_START from `activeIdle`, `chat.idle` or `chat.error` enters `live.loading` exactly when
      the cooldown is off, and is otherwise ignored; no other state reacts to it. */
  lemma MicStartGuard(cfg: Config)
    ensures CanReachLive(cfg.state) && !cfg.ctx.micCooldown ==> Step(cfg, MicStart).config.state == Live(LiveSub.Loading)
    ensures !(CanReachLive(cfg.state) && !cfg.ctx.micCooldown) ==> Step(cfg, MicStart) == Outcome(cfg, [])
  {
    StepMatchesTable(cfg, MicStart);
  }

  /** Every entry into `live.loading` comes from MIC_START with the cooldown off, leaves the
      cooldown on and no error, and emits live-start then the cooldown timer; from `chat.idle`
      live-start is emitted twice (transition action, then entry action). */
  lemma EnteringLive(cfg: Config, e: Event)
    requires cfg.state != Live(LiveSub.Loading)
    requires Step(cfg, e).config.state == Live(LiveSub.Loading)
    ensures e == MicStart && CanReachLive(cfg.state) && !cfg.ctx.micCooldown
    ensures Step(cfg, e).config.ctx == Context(micCooldown := true, error := None)
    ensures Step(cfg, e).effects
            == if cfg.state == Chat(Idle) then [LiveAudioStart, LiveAudioStart, ScheduleClearCooldown]
               else [LiveAudioStart, ScheduleClearCooldown]
  {
    StepMatchesTable(cfg, e);
  }

  /** MIC_STOP or ESC in any `live.*` state goes to `chat.idle`, stops the live service and
      clears the error. */
  lemma LeavingLive(sub: LiveSub, c: Context, e: Event)
    requires e.MicStop? || e.Esc?
    ensures Step(Config(Live(sub), c), e) == Outcome(Config(Chat(Idle), c.(error := None)), [LiveAudioStop])
  {
    StepMatchesTable(Config(Live(sub), c), e);
  }

  /** LIVE_READY moves `live.loading` to `live.streaming` and changes nothing else. */
  lemma LiveReadyStreams(c: Context)
    ensures Step(Config(Live(LiveSub.Loading), c), LiveReady) == Outcome(Config(Live(Streaming), c), [])
  {
    StepMatchesTable(Config(Live(LiveSub.Loading), c), LiveReady);
  }

  // ---------- cooldown and unhandled events ----------

  /** CLEAR_COOLDOWN, handled at the root, only resets `micCooldown`, in every state. */
  lemma ClearCooldownOnlyResetsCooldown(cfg: Config)
    ensures Step(cfg, ClearCooldown) == Outcome(Config(cfg.state, cfg.ctx.(micCooldown := false)), [])
  {
    StepMatchesTable(cfg, ClearCooldown);
  }

  /** The events each state declares no transition for, written out state by state (with the
      `hasInput` and `canStartLive` guards read as false), change neither state nor context and
      emit nothing. */
  lemma UnhandledIsIgnored(cfg: Config, e: Event)
    requires !e.ClearCooldown?
    requires cfg.state == ActiveIdle ==>
               !e.OpenChat? && !(e.MicStart? && !cfg.ctx.micCooldown)
    requires cfg.state == Chat(Idle) ==>
               !(e.Submit? && !AllWhitespace(e.value)) && !(e.MicStart? && !cfg.ctx.micCooldown) && !e.Esc?
    requires cfg.state == Chat(ChatSub.Loading) ==> !e.ApiSuccess? && !e.ApiError? && !e.Esc?
    requires cfg.state == Chat(ChatSub.Error) ==>
               !e.Submit? && !(e.MicStart? && !cfg.ctx.micCooldown) && !e.Esc?
    requires cfg.state.Live? ==> !e.MicStop? && !e.Esc?
    requires cfg.state == Live(LiveSub.Loading) ==> !e.LiveReady? && !e.LiveError?
    requires cfg.state == Live(Streaming) ==> !e.LiveError?
    ensures Step(cfg, e) == Outcome(cfg, [])
  {
    StepMatchesTable(cfg, e);
  }

  /** `live.error` reacts only to MIC_STOP and ESC (from `live`) and CLEAR_COOLDOWN (from the root). */
  lemma LiveErrorHandles(c: Context, e: Event)
    ensures Handles(Config(Live(LiveSub.Error), c), e) <==> e.MicStop? || e.Esc? || e.ClearCooldown?
  {
  }

  /** A run is a sequence of steps: running `a + b` runs `a`, then `b`. */
  lemma {:induction false} RunAppend(cfg: Config, a: seq<Event>, b: seq<Event>)
    ensures Run(cfg, a + b) == Run(Run(cfg, a), b)
    ensures RunEffects(cfg, a + b) == RunEffects(cfg, a) + RunEffects(Run(cfg, a), b)
    decreases |a|
  {
    if a == [] {
      assert a + b == b;
    } else {
      assert (a + b)[0] == a[0] && (a + b)[1..] == a[1..] + b;
      RunAppend(Step(cfg, a[0]).config, a[1..], b);
    }
  }

  // ---------- scenarios ----------

  /** Only CLEAR_COOLDOWN turns the cooldown off: once it is on, it stays on along any sequence
      of other events, whatever transitions they take. */
  lemma {:induction false} CooldownHeld(cfg: Config, events: seq<Event>)
    requires cfg.ctx.micCooldown
    requires forall k :: 0 <= k < |events| ==> !events[k].ClearCooldown?
    ensures Run(cfg, events).ctx.micCooldown
    decreases |events|
  {
    if events != [] {
      StepMatchesTable(cfg, events[0]);
      CooldownHeld(Step(cfg, events[0]).config, events[1..]);
    }
  }

  /** While the cooldown is on and CLEAR_COOLDOWN has not arrived, MIC_START is ignored in
      every state the other events lead to. */
  lemma MicStartIgnoredUntilCleared(cfg: Config, events: seq<Event>)
    requires cfg.ctx.micCooldown
    requires forall k :: 0 <= k < |events| ==> !events[k].ClearCooldown?
    ensures var d := Run(cfg, events); Step(d, MicStart) == Outcome(d, [])
  {
    CooldownHeld(cfg, events);
    MicStartGuard(Run(cfg, events));
  }

  /** The debounce in one scenario from the initial configuration: a second MIC_START within the
      cooldown is ignored even after leaving live mode, and is accepted once CLEAR_COOLDOWN has
      arrived. */
  lemma CooldownDebounce()
    ensures Run(Initial(), [MicStart, MicStop, MicStart]).state == Chat(Idle)
    ensures RunEffects(Initial(), [MicStart, MicStop, MicStart])
            == [LiveAudioStart, ScheduleClearCooldown, LiveAudioStop]
    ensures Run(Initial(), [MicStart, MicStop, ClearCooldown, MicStart]).state == Live(LiveSub.Loading)
  {
    var c1 := Step(Initial(), MicStart).config;
    StepMatchesTable(Initial(), MicStart);
    var c2 := Step(c1, MicStop).config;
    StepMatchesTable(c1, MicStop);
    StepMatchesTable(c2, MicStart);
    var c3 := Step(c2, ClearCooldown).config;
    StepMatchesTable(c2, ClearCooldown);
    StepMatchesTable(c3, MicStart);
    RunAppend(Initial(), [MicStart], [MicStop, MicStart]);
    RunAppend(c1, [MicStop], [MicStart]);
    RunAppend(Initial(), [MicStart], [MicStop, ClearCooldown, MicStart]);
    RunAppend(c1, [MicStop], [ClearCooldown, MicStart]);
    RunAppend(c2, [ClearCooldown], [MicStart]);
    assert RunEffects(c2, [MicStart]) == [] by {
      assert [MicStart][1..] == [];
    }
  }

  /** OPEN_CHAT, SUBMIT "hello", API_ERROR "rate limited", SUBMIT "retry", API_SUCCESS:
      the machine passes through chat.idle, loading, error, loading and ends in chat.idle, with
      the error recorded in between and cleared at the end. */
  lemma ChatRetryScenario()
    ensures var c1 := Step(Initial(), OpenChat).config;
            var c2 := Step(c1, Submit("hello")).config;
            var c3 := Step(c2, ApiError(Str("rate limited"))).config;
            var c4 := Step(c3, Submit("retry")).config;
            var c5 := Step(c4, ApiSuccess).config;
            && c1.state == Chat(Idle) && c2.state == Chat(ChatSub.Loading)
            && c3.state == Chat(ChatSub.Error) && c3.ctx.error == Some("rate limited")
            && c4.state == Chat(ChatSub.Loading) && c5.state == Chat(Idle) && c5.ctx.error == None
  {
    var c1 := Step(Initial(), OpenChat).config;
    StepMatchesTable(Initial(), OpenChat);
    assert c1 == Config(Chat(Idle), Context(false, None));
    assert !AllWhitespace("hello") by { assert !IsWhitespace("hello"[0]); }
    SubmitFromChatIdle(c1.ctx, "hello");
    var c2 := Step(c1, Submit("hello")).config;
    assert c2 == Config(Chat(ChatSub.Loading), Context(false, None));
    ErrorIsRecorded(c2, ApiError(Str("rate limited")));
    var c3 := Step(c2, ApiError(Str("rate limited"))).config;
    assert c3 == Config(Chat(ChatSub.Error), Context(false, Some("rate limited")));
    SubmitFromChatError(c3.ctx, "retry");
    var c4 := Step(c3, Submit("retry")).config;
    assert c4 == Config(Chat(ChatSub.Loading), Context(false, None));
    StepMatchesTable(c4, ApiSuccess);
  }
}
