/**
 * The legacy main-process state machine: a four-state enum, a pure transition switch and an
 * object whose `dispatch` updates the current state and emits `stateChange {prev, next}` only
 * when the state actually changes. The emitted events are kept as a ghost log.
 */
module AppState {

  datatype UIState = ActiveIdle | ReadyChat | Loading | Error

  datatype StateEvent = OpenChat | Submit | ApiSuccess | ApiError | Esc

  /** The payload of one `stateChange` emission. */
  datatype StateChange = StateChange(prev: UIState, next: UIState)

  /** The transition diagram of the class's header comment, arrow by arrow. */
  function Diagram(): set<(UIState, StateEvent, UIState)> {
    {
      (ActiveIdle, OpenChat, ReadyChat),
      (ReadyChat, Submit, Loading),
      (ReadyChat, Esc, ActiveIdle),
      (Loading, ApiSuccess, ReadyChat),
      (Loading, ApiError, Error),
      (Loading, Esc, ActiveIdle),
      (Error, Submit, Loading),
      (Error, Esc, ActiveIdle)
    }
  }

  /** A change that some event can cause. */
  ghost predicate IsArrow(ch: StateChange) {
    exists e: StateEvent :: (ch.prev, e, ch.next) in Diagram()
  }

  /** `log` is a run of state changes leading from `from` to `to`: each change starts where the
      previous one ended, none is a self-loop, and each is an arrow of the diagram. */
  ghost predicate Chain(from: UIState, log: seq<StateChange>, to: UIState)
    decreases |log|
  {
    if log == [] then from == to
    else log[0].prev == from && log[0].prev != log[0].next && IsArrow(log[0])
         && Chain(log[0].next, log[1..], to)
  }

  /** Extending a chain by one arrow out of its last state gives a chain to the arrow's end. */
  lemma {:induction false} ChainExtend(from: UIState, log: seq<StateChange>, to: UIState, next: UIState)
    requires Chain(from, log, to)
    requires to != next && IsArrow(StateChange(to, next))
    ensures Chain(from, log + [StateChange(to, next)], next)
    decreases |log|
  {
    if log == [] {
      assert log + [StateChange(to, next)] == [StateChange(to, next)];
      assert [StateChange(to, next)][1..] == [];
    } else {
      ChainExtend(log[0].next, log[1..], to, next);
      assert (log + [StateChange(to, next)])[1..] == log[1..] + [StateChange(to, next)];
    }
  }

  class AppStateMachine {
    var current: UIState
    /** The state the machine was constructed in. */
    ghost const initial: UIState
    /** Every `stateChange` payload emitted so far, oldest first. */
    ghost var emitted: seq<StateChange>

    /** The emitted log always leads from the initial state to the current one. */
    ghost predicate Valid()
      reads this
    {
      Chain(initial, emitted, current)
    }

    constructor (initial: UIState := UIState.ActiveIdle)
      ensures Valid()
      ensures current == initial && this.initial == initial && emitted == []
    {
      this.current := initial;
      this.initial := initial;
      this.emitted := [];
    }

    /** The `state` getter. */
    function State(): UIState
      reads this
    {
      current
    }

    /** The transition table: total over the four states and five events. */
    static function NextState(current: UIState, event: StateEvent): UIState {
      match current
      case ActiveIdle =>
        if event == OpenChat then ReadyChat else current
      case ReadyChat =>
        if event == Esc then ActiveIdle
        else if event == Submit then Loading
        else current
      case Loading =>
        if event == Esc then ActiveIdle
        else if event == ApiSuccess then ReadyChat
        else if event == ApiError then Error
        else current
      case Error =>
        if event == Esc then ActiveIdle
        else if event == Submit then Loading
        else current
    }

    /** Takes the transition for `event`; emits one `{prev, next}` exactly when the state changes,
        and silently ignores events that do not change it. */
    method Dispatch(event: StateEvent)
      requires Valid()
      modifies this
      ensures Valid()
      ensures current == NextState(old(current), event)
      ensures emitted == if current != old(current)
                         then old(emitted) + [StateChange(old(current), current)]
                         else old(emitted)
    {
      var prev := current;
      var next := NextState(prev, event);
      if next != prev {
        NextStateFollowsDiagram(prev, event, next);
        ChainExtend(initial, emitted, prev, next);
        current := next;
        emitted := emitted + [StateChange(prev, next)];
      }
    }
  }

  /** `NextState` changes the state exactly along the arrows of the diagram, and leaves it
      unchanged for every (state, event) pair the diagram has no arrow for. */
  lemma NextStateFollowsDiagram(s: UIState, e: StateEvent, t: UIState)
    ensures (AppStateMachine.NextState(s, e) == t && t != s) <==> (s, e, t) in Diagram()
  {
  }

  /** ESC from every state ends in `ActiveIdle` (where it is ignored). */
  lemma EscReturnsToIdle(s: UIState)
    ensures AppStateMachine.NextState(s, Esc) == ActiveIdle
  {
  }

  /** SUBMIT leads to `Loading` from `ReadyChat` and `Error`, and is ignored elsewhere. */
  lemma SubmitLoads(s: UIState)
    ensures AppStateMachine.NextState(s, Submit) == if s == ReadyChat || s == Error then Loading else s
  {
  }

  /** Only `Loading` reacts to the API results: success to `ReadyChat`, failure to `Error`. */
  lemma ApiResultsOnlyInLoading(s: UIState)
    ensures AppStateMachine.NextState(s, ApiSuccess) == if s == Loading then ReadyChat else s
    ensures AppStateMachine.NextState(s, ApiError) == if s == Loading then Error else s
  {
  }

  /** `ActiveIdle` reacts only to OPEN_CHAT, which opens `ReadyChat`. */
  lemma ActiveIdleOnlyOpens(e: StateEvent)
    ensures AppStateMachine.NextState(ActiveIdle, e) == if e == OpenChat then ReadyChat else ActiveIdle
  {
  }

  /** Dispatching from a default-constructed machine: the state and the emitted log. */
  method DispatchScenario()
  {
    var m := new AppStateMachine();
    assert m.State() == ActiveIdle;
    m.Dispatch(Submit);
    assert m.emitted == [];
    m.Dispatch(OpenChat);
    m.Dispatch(Submit);
    m.Dispatch(ApiError);
    assert m.State() == Error;
    assert m.emitted == [StateChange(ActiveIdle, ReadyChat), StateChange(ReadyChat, Loading),
                         StateChange(Loading, Error)];
  }
}
