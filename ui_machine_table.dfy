/**
 * A flat transition table for the UI machine, written leaf by leaf with the actions already
 * resolved, and the proof that the hierarchical semantics of `UiMachine.Step` computes exactly
 * this table. The properties the machine promises are then stated over `Step`.
 */
module UiMachineTable {
  import opened Wrappers
  import opened JsText
  import opened UiMachine

  /** The context on every entry into `live.loading`. */
  function LiveEntryContext(c: Context): Context {
    c.(micCooldown := true, error := None)
  }

  /** The chat request effects of entering `chat.loading` with event `e`. */
  function SubmitEffects(e: Event): seq<Effect> {
    if e.Submit? && Trim(e.value) != "" then [ChatSubmit(Trim(e.value))] else []
  }

  /** What each leaf does with each event, as one table. */
  function Table(cfg: Config, e: Event): Outcome {
    var s, c := cfg.state, cfg.ctx;
    var stay := Outcome(cfg, []);
    if e.ClearCooldown? then Outcome(Config(s, c.(micCooldown := false)), [])
    else match s
      case ActiveIdle =>
        if e.OpenChat? then Outcome(Config(Chat(Idle), c.(error := None)), [])
        else if e.MicStart? && !c.micCooldown then
          Outcome(Config(Live(LiveSub.Loading), LiveEntryContext(c)), [LiveAudioStart, ScheduleClearCooldown])
        else stay
      case Chat(Idle) =>
        if e.Submit? && Trim(e.value) != "" then
          Outcome(Config(Chat(ChatSub.Loading), c.(error := None)), [ChatSubmit(Trim(e.value))])
        else if e.MicStart? && !c.micCooldown then
          Outcome(Config(Live(LiveSub.Loading), LiveEntryContext(c)),
                  [LiveAudioStart, LiveAudioStart, ScheduleClearCooldown])
        else if e.Esc? then Outcome(Config(ActiveIdle, c), [])
        else stay
      case Chat(Loading) =>
        if e.ApiSuccess? then Outcome(Config(Chat(Idle), c.(error := None)), [])
        else if e.ApiError? then Outcome(Config(Chat(ChatSub.Error), c.(error := Some(ErrorMessage(e)))), [])
        else if e.Esc? then Outcome(Config(ActiveIdle, c), [ChatCancel])
        else stay
      case Chat(Error) =>
        if e.Submit? then Outcome(Config(Chat(ChatSub.Loading), c.(error := None)), SubmitEffects(e))
        else if e.MicStart? && !c.micCooldown then
          Outcome(Config(Live(LiveSub.Loading), LiveEntryContext(c)), [LiveAudioStart, ScheduleClearCooldown])
        else if e.Esc? then Outcome(Config(ActiveIdle, c.(error := None)), [])
        else stay
      case Live(sub) =>
        if e.MicStop? || e.Esc? then Outcome(Config(Chat(Idle), c.(error := None)), [LiveAudioStop])
        else if e.LiveReady? && sub == LiveSub.Loading then Outcome(Config(Live(Streaming), c), [])
        else if e.LiveError? && sub != LiveSub.Error then
          Outcome(Config(Live(LiveSub.Error), c.(error := Some(ErrorMessage(e)))), [])
        else stay
  }

  lemma ExecAllOne(a: Action, c: Context, e: Event)
    ensures ExecAll([a], c, e) == Exec(a, c, e)
  {
    var (c1, f1) := Exec(a, c, e);
    assert [a][1..] == [];
    assert f1 + [] == f1;
  }

  /** Running `a + b` runs `a`, then `b` from the context `a` left, and concatenates the effects. */
  lemma {:induction false} ExecAllAppend(a: seq<Action>, b: seq<Action>, c: Context, e: Event)
    ensures ExecAll(a + b, c, e)
         == (var (c1, f1) := ExecAll(a, c, e);
             var (c2, f2) := ExecAll(b, c1, e);
             (c2, f1 + f2))
    decreases |a|
  {
    if a == [] {
      assert a + b == b;
      var (c2, f2) := ExecAll(b, c, e);
      assert [] + f2 == f2;
    } else {
      assert (a + b)[0] == a[0];
      assert (a + b)[1..] == a[1..] + b;
      var (c0, f0) := Exec(a[0], c, e);
      ExecAllAppend(a[1..], b, c0, e);
      var (c1, f1) := ExecAll(a[1..], c0, e);
      var (c2, f2) := ExecAll(b, c1, e);
      assert f0 + (f1 + f2) == (f0 + f1) + f2;
    }
  }

  lemma ExecAllPair(a: Action, b: Action, c: Context, e: Event)
    ensures ExecAll([a, b], c, e)
         == (var (c1, f1) := Exec(a, c, e);
             var (c2, f2) := Exec(b, c1, e);
             (c2, f1 + f2))
  {
    assert [a, b] == [a] + [b];
    ExecAllAppend([a], [b], c, e);
    ExecAllOne(a, c, e);
    forall c1 ensures ExecAll([b], c1, e) == Exec(b, c1, e) { ExecAllOne(b, c1, e); }
  }

  /** Entering `chat.loading`: `error` is cleared and the trimmed message is sent if non-empty. */
  lemma EnterChatLoading(c: Context, e: Event)
    ensures ExecAll(EntryActions(Chat(ChatSub.Loading)), c, e) == (c.(error := None), SubmitEffects(e))
  {
    ExecAllPair(ClearError, SendChat, c, e);
    assert [] + SubmitEffects(e) == SubmitEffects(e);
  }

  /** Entering `live.loading`: cooldown set, `error` cleared, live-start and the cooldown timer. */
  lemma EnterLiveLoading(c: Context, e: Event)
    ensures ExecAll(EntryActions(Live(LiveSub.Loading)), c, e)
         == (LiveEntryContext(c), [LiveAudioStart, ScheduleClearCooldown])
  {
    assert EntryActions(Live(LiveSub.Loading))
        == [StartLiveService, SetCooldown] + [ClearError, DisableMicTemporarily];
    ExecAllAppend([StartLiveService, SetCooldown], [ClearError, DisableMicTemporarily], c, e);
    ExecAllPair(StartLiveService, SetCooldown, c, e);
    assert [LiveAudioStart] + [] == [LiveAudioStart];
    assert [] + [ScheduleClearCooldown] == [ScheduleClearCooldown];
    ExecAllPair(ClearError, DisableMicTemporarily, c.(micCooldown := true), e);
    assert [LiveAudioStart] + [ScheduleClearCooldown] == [LiveAudioStart, ScheduleClearCooldown];
  }

  /** The actions of `chat.idle`'s MIC_START transition. */
  lemma ChatIdleMicStartActions(c: Context, e: Event)
    ensures ExecAll([StartLiveService, SetCooldown, ClearError], c, e) == (LiveEntryContext(c), [LiveAudioStart])
  {
    assert [StartLiveService, SetCooldown, ClearError] == [StartLiveService, SetCooldown] + [ClearError];
    ExecAllAppend([StartLiveService, SetCooldown], [ClearError], c, e);
    ExecAllPair(StartLiveService, SetCooldown, c, e);
    assert [LiveAudioStart] + [] == [LiveAudioStart];
    ExecAllOne(ClearError, c.(micCooldown := true), e);
  }

  lemma ActiveIdleRow(c: Context, e: Event)
    ensures Step(Config(ActiveIdle, c), e) == Table(Config(ActiveIdle, c), e)
  {
    if e.MicStart? && !c.micCooldown {
      ExecAllOne(SetCooldown, c, e);
      EnterLiveLoading(c.(micCooldown := true), e);
    } else if e.OpenChat? {
      ExecAllOne(ClearError, c, e);
    } else if e.ClearCooldown? {
      ExecAllOne(ClearCooldownAction, c, e);
    }
  }

  lemma ChatIdleRow(c: Context, e: Event)
    ensures Step(Config(Chat(Idle), c), e) == Table(Config(Chat(Idle), c), e)
  {
    if e.ClearCooldown? {
      ExecAllOne(ClearCooldownAction, c, e);
    } else if e.MicStart? && !c.micCooldown {
      ChatIdleMicStartActions(c, e);
      EnterLiveLoading(LiveEntryContext(c), e);
      assert [LiveAudioStart] + [LiveAudioStart, ScheduleClearCooldown]
          == [LiveAudioStart, LiveAudioStart, ScheduleClearCooldown];
    } else if e.Submit? && Trim(e.value) != "" {
      EnterChatLoading(c, e);
    }
  }

  lemma ChatLoadingRow(c: Context, e: Event)
    ensures Step(Config(Chat(ChatSub.Loading), c), e) == Table(Config(Chat(ChatSub.Loading), c), e)
  {
    if e.ClearCooldown? {
      ExecAllOne(ClearCooldownAction, c, e);
    } else if e.ApiSuccess? {
      ExecAllOne(ClearError, c, e);
    } else if e.ApiError? {
      ExecAllOne(SetError, c, e);
    } else if e.Esc? {
      ExecAllOne(CancelChat, c, e);
    }
  }

  lemma ChatErrorRow(c: Context, e: Event)
    ensures Step(Config(Chat(ChatSub.Error), c), e) == Table(Config(Chat(ChatSub.Error), c), e)
  {
    if e.ClearCooldown? {
      ExecAllOne(ClearCooldownAction, c, e);
    } else if e.MicStart? && !c.micCooldown {
      ExecAllOne(SetCooldown, c, e);
      EnterLiveLoading(c.(micCooldown := true), e);
    } else if e.Submit? {
      ExecAllOne(ClearError, c, e);
      EnterChatLoading(c.(error := None), e);
    } else if e.Esc? {
      ExecAllOne(ClearError, c, e);
    }
  }

  lemma LiveRow(sub: LiveSub, c: Context, e: Event)
    ensures Step(Config(Live(sub), c), e) == Table(Config(Live(sub), c), e)
  {
    if e.ClearCooldown? {
      ExecAllOne(ClearCooldownAction, c, e);
    } else if e.MicStop? || e.Esc? {
      ExecAllOne(StopLiveService, c, e);
      ExecAllOne(ClearError, c, e);
    } else if e.LiveError? && sub != LiveSub.Error {
      ExecAllOne(SetError, c, e);
    }
  }

  /** The hierarchical semantics (bubbling to the parent and root, transition actions before
      entry actions) computes the flat table, for every configuration and every event. */
  lemma StepMatchesTable(cfg: Config, e: Event)
    ensures Step(cfg, e) == Table(cfg, e)
  {
    match cfg.state
    case ActiveIdle => ActiveIdleRow(cfg.ctx, e);
    case Chat(Idle) => ChatIdleRow(cfg.ctx, e);
    case Chat(Loading) => ChatLoadingRow(cfg.ctx, e);
    case Chat(Error) => ChatErrorRow(cfg.ctx, e);
    case Live(sub) => LiveRow(sub, cfg.ctx, e);
  }
}
