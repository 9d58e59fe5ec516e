/** The pure state transition of the toggle: `toggleReducer` in src/exercise/06.js. */
module Reducer {
  import opened Wrappers

  /** The reducer state `{on}`: a single on/off flag. */
  datatype State = State(on: bool)

  /** The two action types the reducer knows (`actionTypes`). */
  const ToggleType: string := "toggle"
  const ResetType: string := "reset"

  /**
   * An action object `{type, initialState}`. `Reset` is the only kind that carries an
   * `initialState`; `Unknown` stands for every action whose `type` is some other string.
   */
  datatype RawAction = Toggle | Reset(initialState: State) | Unknown(kind: string)
  {
    /** The action's `type` field. */
    function Type(): string
    {
      match this
      case Toggle => ToggleType
      case Reset(_) => ResetType
      case Unknown(k) => k
    }
  }

  /** An action is identified by its `type`: an `Unknown` never carries one of the known types. */
  type Action = a: RawAction | a.Unknown? ==> a.kind != ToggleType && a.kind != ResetType
    witness Toggle

  /** The error `toggleReducer` throws for an action type it does not know. */
  datatype Error = UnsupportedType(kind: string)
  {
    function Message(): string
    {
      "Unsupported type: " + kind
    }
  }

  /** `toggleReducer(state, action)`: switches on the action's type. */
  function ToggleReducer(state: State, action: Action): (r: Result<State, Error>)
    ensures r.Failure? <==> action.Unknown?
    ensures action.Toggle? ==> r == Success(State(!state.on))
    ensures action.Reset? ==> r == Success(action.initialState)
    ensures r.Failure? ==> r.error.kind == action.kind
  {
    var kind := action.Type();
    if kind == ToggleType then
      Success(State(!state.on))
    else if kind == ResetType then
      Success(action.initialState)
    else
      Failure(UnsupportedType(kind))
  }

  /** Toggling twice gives back the state toggled from. */
  lemma ToggleTwice(state: State)
    ensures ToggleReducer(state, Toggle).Success?
    ensures ToggleReducer(ToggleReducer(state, Toggle).value, Toggle) == Success(state)
  {
  }

  /** A reset yields its payload whatever the current state is. */
  lemma ResetIgnoresState(s1: State, s2: State, initialState: State)
    ensures ToggleReducer(s1, Reset(initialState)) == ToggleReducer(s2, Reset(initialState))
    ensures ToggleReducer(s1, Reset(initialState)) == Success(initialState)
  {
  }

  /** The thrown error's message names the offending type. */
  lemma UnsupportedMessage(state: State, kind: string)
    requires kind != ToggleType && kind != ResetType
    ensures ToggleReducer(state, Unknown(kind)) == Failure(UnsupportedType(kind))
    ensures ToggleReducer(state, Unknown(kind)).error.Message() == "Unsupported type: " + kind
  {
  }

  /**
   * The state `useReducer` reaches after the dispatched actions have been applied in order,
   * or the error of the first action the reducer rejects.
   */
  function Reduce(state: State, actions: seq<Action>): (r: Result<State, Error>)
    ensures r.Failure? <==> exists i :: 0 <= i < |actions| && actions[i].Unknown?
    ensures r.Failure? ==> exists i :: 0 <= i < |actions| && actions[i].Unknown? && r.error.kind == actions[i].kind
    decreases |actions|
  {
    if actions == [] then Success(state)
    else
      match ToggleReducer(state, actions[0])
      case Failure(e) => Failure(e)
      case Success(next) =>
        var r := Reduce(next, actions[1..]);
        assert forall i :: 1 <= i < |actions| ==> actions[i] == actions[1..][i - 1];
        r
  }

  /** A run of toggles flips the flag once per action: the result depends only on the parity. */
  lemma {:induction false} TogglesFlipParity(state: State, actions: seq<Action>)
    requires forall i :: 0 <= i < |actions| ==> actions[i] == Toggle
    ensures Reduce(state, actions) == Success(State(state.on != (|actions| % 2 == 1)))
    decreases |actions|
  {
    if actions != [] {
      TogglesFlipParity(State(!state.on), actions[1..]);
    }
  }

  /** A final reset discards the whole history: the state is the reset's payload. */
  lemma {:induction false} ResetDiscardsHistory(state: State, actions: seq<Action>, initialState: State)
    requires forall i :: 0 <= i < |actions| ==> !actions[i].Unknown?
    ensures Reduce(state, actions + [Reset(initialState)]) == Success(initialState)
    decreases |actions|
  {
    if actions == [] {
      assert [Reset(initialState)][1..] == [];
    } else {
      assert (actions + [Reset(initialState)])[1..] == actions[1..] + [Reset(initialState)];
      ResetDiscardsHistory(ToggleReducer(state, actions[0]).value, actions[1..], initialState);
    }
  }
}
