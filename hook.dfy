/**
 * The `useToggle` hook of src/exercise/06.js as an object that lives across renders: the
 * values it captures on the first render, the reducer state cell, and the options of the
 * latest render.
 */
module UseToggle {
  import opened Wrappers
  import opened Reducer
  import opened Warnings

  /** The options object of `useToggle({initialOn, onChange, on, readOnly})`. */
  datatype Config = Config(initialOn: bool, hasOnChange: bool, controlledOn: Option<bool>, readOnly: bool)

  /** `useToggle()` called without options: every default applies. */
  const DefaultConfig: Config := Config(false, false, None, false)

  /** What `onChange` is called with: the state the reducer suggests, and the action. */
  datatype Notification = Notification(suggested: State, action: Action)

  /** The value the hook exposes: the control prop when one is given, the internal state otherwise. */
  function EffectiveOn(controlledOn: Option<bool>, state: State): (on: bool)
    ensures controlledOn.Some? ==> on == controlledOn.value
    ensures controlledOn.None? ==> on == state.on
  {
    if controlledOn.Some? then controlledOn.value else state.on
  }

  /** A controlled value never depends on the internal state. */
  lemma ControlledIgnoresState(on: bool, s1: State, s2: State)
    ensures EffectiveOn(Some(on), s1) == EffectiveOn(Some(on), s2) == on
  {
  }

  class ToggleHook {
    /** `useRef({on: initialOn})`: built on the first render and never replaced. */
    const initialState: State
    /** `useRef(isControlled)` inside `useControlledSwitchWarning`: the mode on the first render. */
    const wasControlled: bool
    /** The `useReducer` state cell. */
    var state: State
    /** The options of the latest render. */
    var config: Config

    /** The first render. */
    constructor (config: Config)
      ensures initialState == State(config.initialOn) && state == initialState
      ensures wasControlled == config.controlledOn.Some?
      ensures this.config == config
    {
      initialState := State(config.initialOn);
      wasControlled := config.controlledOn.Some?;
      state := State(config.initialOn);
      this.config := config;
    }

    /** A later render with new options; the captured values and the state cell are kept. */
    method Render(config: Config)
      modifies this`config
      ensures this.config == config
    {
      this.config := config;
    }

    /** `onIsControlled`. */
    predicate IsControlled()
      reads this
    {
      config.controlledOn.Some?
    }

    /** `on`, the value the hook returns. */
    function On(): bool
      reads this
    {
      EffectiveOn(config.controlledOn, state)
    }

    /**
     * `dispatchWithOnChange(action)`: the state cell moves only when uncontrolled; `onChange`,
     * when given, hears what the reducer makes of the effective state. Only `toggle` and
     * `reset` call it, so the action is always one the reducer knows.
     */
    method DispatchWithOnChange(action: Action) returns (notified: Option<Notification>)
      requires !action.Unknown?
      modifies this`state
      ensures old(IsControlled()) ==> state == old(state)
      ensures !old(IsControlled()) ==> Success(state) == ToggleReducer(old(state), action)
      ensures notified.Some? <==> config.hasOnChange
      ensures notified.Some? ==>
                notified.value.action == action &&
                Success(notified.value.suggested) == ToggleReducer(State(old(On())), action)
    {
      var on := On();
      if !IsControlled() {
        state := ToggleReducer(state, action).value;
      }
      if config.hasOnChange {
        notified := Some(Notification(ToggleReducer(State(on), action).value, action));
      } else {
        notified := None;
      }
    }

    /** `toggle()`. */
    method Toggle() returns (notified: Option<Notification>)
      modifies this`state
      ensures old(IsControlled()) ==> state == old(state)
      ensures !old(IsControlled()) ==> state == State(!old(state.on))
      ensures notified.Some? <==> config.hasOnChange
      ensures notified.Some? ==> notified.value == Notification(State(!old(On())), RawAction.Toggle)
    {
      notified := DispatchWithOnChange(RawAction.Toggle);
    }

    /** `reset()`: always the initial state of the first render. */
    method Reset() returns (notified: Option<Notification>)
      modifies this`state
      ensures old(IsControlled()) ==> state == old(state)
      ensures !old(IsControlled()) ==> state == initialState
      ensures notified.Some? <==> config.hasOnChange
      ensures notified.Some? ==> notified.value == Notification(initialState, RawAction.Reset(initialState))
    {
      notified := DispatchWithOnChange(RawAction.Reset(initialState));
    }

    /** The warnings the hook's effects report after the latest render; nothing is changed. */
    method Effects() returns (reported: seq<Warning>)
      ensures |reported| <= 2
      ensures (exists w :: w in reported && (w.UncontrolledToControlled? || w.ControlledToUncontrolled?))
              <==> IsControlled() != wasControlled
      ensures (exists w :: w in reported && w.MissingChangeHandler?)
              <==> IsControlled() && !config.hasOnChange && !config.readOnly
      ensures forall w :: w in reported && w.UncontrolledToControlled? ==> IsControlled() && !wasControlled
      ensures forall w :: w in reported && w.ControlledToUncontrolled? ==> !IsControlled() && wasControlled
    {
      var modeSwitch := ControlledSwitchWarnings(config.controlledOn, wasControlled, "on", "useToggle");
      var noChange := NoChangeWarnings(IsControlled(), "on", config.hasOnChange, "onChange",
                                       config.readOnly, "readOnly", "useToggle", "initialOn");
      reported := modeSwitch + noChange;
      assert forall w :: w in modeSwitch ==> !w.MissingChangeHandler?;
      if IsControlled() != wasControlled {
        assert modeSwitch[0] in reported;
      }
      assert forall w :: w in noChange ==> w.MissingChangeHandler?;
    }
  }

  /** An uncontrolled hook flips its state on every toggle and reports each new value. */
  method ToggleUncontrolled(n: nat, initialOn: bool) returns (on: bool, reports: seq<bool>)
    ensures on == (initialOn != (n % 2 == 1))
    ensures |reports| == n
    ensures forall i :: 0 <= i < n ==> reports[i] == (initialOn != (i % 2 == 0))
  {
    var hook := new ToggleHook(Config(initialOn, true, None, false));
    ghost var actions: seq<Action> := [];
    reports := [];
    var i := 0;
    while i < n
      invariant 0 <= i <= n
      invariant hook.config == Config(initialOn, true, None, false)
      invariant |actions| == i && forall j :: 0 <= j < i ==> actions[j] == Toggle
      invariant Reduce(State(initialOn), actions) == Success(hook.state)
      invariant |reports| == i
      invariant forall j :: 0 <= j < i ==> reports[j] == (initialOn != (j % 2 == 0))
    {
      TogglesFlipParity(State(initialOn), actions);
      var notified := hook.Toggle();
      reports := reports + [notified.value.suggested.on];
      actions := actions + [Toggle];
      TogglesFlipParity(State(initialOn), actions);
      i := i + 1;
    }
    TogglesFlipParity(State(initialOn), actions);
    on := hook.On();
  }

  /** A controlled hook shows the control prop, whatever is dispatched, and its state cell stays put. */
  method ToggleControlled(controlled: bool, initialOn: bool) returns (on: bool, internal: bool, suggested: bool)
    ensures on == controlled && internal == initialOn && suggested == !controlled
  {
    var hook := new ToggleHook(Config(initialOn, true, Some(controlled), false));
    var notified := hook.Toggle();
    var _ := hook.Reset();
    on, internal, suggested := hook.On(), hook.state.on, notified.value.suggested.on;
  }

  /** Passing `on` to a hook mounted without it is reported as a switch to controlled mode. */
  method SwitchToControlled(on: bool) returns (reported: seq<Warning>)
    ensures exists w :: w in reported && w.UncontrolledToControlled?
    ensures forall w :: w in reported ==> !w.MissingChangeHandler? && !w.ControlledToUncontrolled?
  {
    var hook := new ToggleHook(Config(false, true, None, false));
    hook.Render(Config(false, true, Some(on), false));
    reported := hook.Effects();
  }

  /** Resetting restores the `initialOn` of the first render, not that of a later one. */
  method ResetAfterRerender(first: bool, later: bool) returns (on: bool)
    ensures on == first
  {
    var hook := new ToggleHook(Config(first, false, None, false));
    var _ := hook.Toggle();
    hook.Render(Config(later, false, None, false));
    var _ := hook.Reset();
    on := hook.On();
  }
}
