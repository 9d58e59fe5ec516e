/**
 * The demo container `App` of src/exercise/06.js: two toggles controlled by one shared flag,
 * a click counter that stops accepting toggle changes once it is past four, and a Reset
 * button that clears both.
 */
module Demo {
  import opened Wrappers
  import opened Reducer
  import opened UseToggle

  /** The two state cells of `App`. */
  datatype AppState = AppState(bothOn: bool, timesClicked: nat)

  /** `useState(false)` and `useState(0)`. */
  const Initial: AppState := AppState(false, 0)

  /** The count beyond which toggle changes are dropped. */
  const MaxClicks: nat := 4

  /** What `handleToggleChange(state, action)` makes of the cells. */
  function AfterToggleChange(s: AppState, suggested: State, action: Action): (t: AppState)
    ensures action.Toggle? && s.timesClicked > MaxClicks ==> t == s
    ensures !(action.Toggle? && s.timesClicked > MaxClicks) ==>
              t.bothOn == suggested.on && t.timesClicked == s.timesClicked + 1
  {
    if action.Type() == ToggleType && s.timesClicked > MaxClicks then s
    else AppState(suggested.on, s.timesClicked + 1)
  }

  class App {
    var bothOn: bool
    var timesClicked: nat

    function Cells(): AppState
      reads this
    {
      AppState(bothOn, timesClicked)
    }

    constructor ()
      ensures Cells() == Initial
    {
      bothOn := false;
      timesClicked := 0;
    }

    /** `handleToggleChange`: the `onChange` of both controlled toggles. */
    method HandleToggleChange(suggested: State, action: Action)
      modifies this
      ensures Cells() == AfterToggleChange(old(Cells()), suggested, action)
    {
      if action.Type() == ToggleType && timesClicked > MaxClicks {
        return;
      }
      bothOn := suggested.on;
      timesClicked := timesClicked + 1;
    }

    /** `handleResetClick`: the Reset button. */
    method HandleResetClick()
      modifies this
      ensures Cells() == Initial
    {
      bothOn := false;
      timesClicked := 0;
    }
  }

  /** The cells after a run of change notifications, handled in order. */
  function AfterChanges(s: AppState, changes: seq<Notification>): AppState
    decreases |changes|
  {
    if changes == [] then s
    else AfterChanges(AfterToggleChange(s, changes[0].suggested, changes[0].action), changes[1..])
  }

  /** Toggle changes alone never push the counter past `MaxClicks + 1`. */
  lemma {:induction false} TogglesStayBounded(s: AppState, changes: seq<Notification>)
    requires s.timesClicked <= MaxClicks + 1
    requires forall i :: 0 <= i < |changes| ==> changes[i].action.Toggle?
    ensures AfterChanges(s, changes).timesClicked <= MaxClicks + 1
    decreases |changes|
  {
    if changes != [] {
      TogglesStayBounded(AfterToggleChange(s, changes[0].suggested, changes[0].action), changes[1..]);
    }
  }

  /** Past the cutoff every toggle change is ignored, whatever state it suggests. */
  lemma {:induction false} SaturatedIgnoresToggles(s: AppState, changes: seq<Notification>)
    requires s.timesClicked > MaxClicks
    requires forall i :: 0 <= i < |changes| ==> changes[i].action.Toggle?
    ensures AfterChanges(s, changes) == s
    decreases |changes|
  {
    if changes != [] {
      SaturatedIgnoresToggles(s, changes[1..]);
    }
  }

  /** A reset change is never cut off: it is accepted and counted. */
  lemma ResetChangeCounted(s: AppState, initialState: State)
    ensures AfterToggleChange(s, initialState, Reset(initialState)) ==
            AppState(initialState.on, s.timesClicked + 1)
  {
  }

  /** One click on a switch controlled by `bothOn`: it suggests the opposite value. */
  function SwitchClick(s: AppState): AppState
  {
    AfterToggleChange(s, State(!s.bothOn), Toggle)
  }

  /** The cells after `n` clicks on either switch. */
  function SwitchClicks(s: AppState, n: nat): AppState
    decreases n
  {
    if n == 0 then s else SwitchClicks(SwitchClick(s), n - 1)
  }

  function Min(a: nat, b: nat): nat
  {
    if a <= b then a else b
  }

  /**
   * Clicks are counted up to `MaxClicks + 1`, and the shared flag flips once per counted
   * click: after `n` clicks from `s` the counter is `min(count + n, 5)`.
   */
  lemma {:induction false} SwitchClicksCount(s: AppState, n: nat)
    requires s.timesClicked <= MaxClicks + 1
    ensures SwitchClicks(s, n).timesClicked == Min(s.timesClicked + n, MaxClicks + 1)
    ensures SwitchClicks(s, n).bothOn ==
              (s.bothOn != ((Min(s.timesClicked + n, MaxClicks + 1) - s.timesClicked) % 2 == 1))
    decreases n
  {
    if n > 0 {
      SwitchClicksCount(SwitchClick(s), n - 1);
    }
  }

  /**
   * A click on the switch `clicked`: its `toggle` notifies `App`, which updates its cells,
   * and both switches are rendered again with the new shared flag.
   */
  method ClickSwitch(app: App, clicked: ToggleHook, other: ToggleHook)
    requires clicked.config == Config(false, true, Some(app.bothOn), false)
    requires other.config == Config(false, true, Some(app.bothOn), false)
    modifies app, clicked, other
    ensures app.Cells() == SwitchClick(old(app.Cells()))
    ensures clicked.state == old(clicked.state) && other.state == old(other.state)
    ensures clicked.config == Config(false, true, Some(app.bothOn), false)
    ensures other.config == Config(false, true, Some(app.bothOn), false)
    ensures clicked.On() == app.bothOn && other.On() == app.bothOn
  {
    var notified := clicked.Toggle();
    app.HandleToggleChange(notified.value.suggested, notified.value.action);
    clicked.Render(Config(false, true, Some(app.bothOn), false));
    other.Render(Config(false, true, Some(app.bothOn), false));
  }

  /** A click on the Reset button, followed by the render of both switches. */
  method ClickReset(app: App, left: ToggleHook, right: ToggleHook)
    modifies app, left, right
    ensures app.Cells() == Initial
    ensures left.state == old(left.state) && right.state == old(right.state)
    ensures left.config == Config(false, true, Some(false), false)
    ensures right.config == Config(false, true, Some(false), false)
    ensures !left.On() && !right.On()
  {
    app.HandleResetClick();
    left.Render(Config(false, true, Some(app.bothOn), false));
    right.Render(Config(false, true, Some(app.bothOn), false));
  }

  /**
   * Mounts `App` and clicks its switches `n` times, alternating between them: the counter
   * stops at 5, and both switches show the shared flag.
   */
  method ClickRepeatedly(n: nat) returns (timesClicked: nat, leftOn: bool, rightOn: bool)
    ensures timesClicked == Min(n, MaxClicks + 1)
    ensures leftOn == rightOn == (Min(n, MaxClicks + 1) % 2 == 1)
  {
    var app := new App();
    var left := new ToggleHook(Config(false, true, Some(app.bothOn), false));
    var right := new ToggleHook(Config(false, true, Some(app.bothOn), false));
    var i := 0;
    while i < n
      invariant 0 <= i <= n
      invariant app.Cells() == SwitchClicks(Initial, i)
      invariant left.config == Config(false, true, Some(app.bothOn), false)
      invariant right.config == Config(false, true, Some(app.bothOn), false)
    {
      SwitchClicksStep(Initial, i);
      if i % 2 == 0 {
        ClickSwitch(app, left, right);
      } else {
        ClickSwitch(app, right, left);
      }
      i := i + 1;
    }
    SwitchClicksCount(Initial, n);
    timesClicked, leftOn, rightOn := app.timesClicked, left.On(), right.On();
  }

  /** One more click extends a run of clicks. */
  lemma {:induction false} SwitchClicksStep(s: AppState, n: nat)
    ensures SwitchClicks(s, n + 1) == SwitchClick(SwitchClicks(s, n))
    decreases n
  {
    if n > 0 {
      SwitchClicksStep(SwitchClick(s), n - 1);
    }
  }

  /** After the cutoff, a Reset click makes the switches count again from zero. */
  method ResetAfterCutoff() returns (before: nat, after: nat, on: bool)
    ensures before == MaxClicks + 1 && after == 1 && on
  {
    var app := new App();
    var left := new ToggleHook(Config(false, true, Some(app.bothOn), false));
    var right := new ToggleHook(Config(false, true, Some(app.bothOn), false));
    var i := 0;
    while i < MaxClicks + 2
      invariant 0 <= i <= MaxClicks + 2
      invariant app.Cells() == SwitchClicks(Initial, i)
      invariant left.config == Config(false, true, Some(app.bothOn), false)
      invariant right.config == Config(false, true, Some(app.bothOn), false)
    {
      SwitchClicksStep(Initial, i);
      ClickSwitch(app, left, right);
      i := i + 1;
    }
    SwitchClicksCount(Initial, MaxClicks + 2);
    before := app.timesClicked;
    ClickReset(app, left, right);
    ClickSwitch(app, right, left);
    after, on := app.timesClicked, right.On();
  }
}
