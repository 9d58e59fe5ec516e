# Control props for a toggle, modelled in Dafny

This project models the toggle of `src/exercise/06.js`, a small "control props" exercise
built on React. The model covers four parts:

- the reducer (`toggleReducer`);
- the `useToggle` hook, which can run uncontrolled, on its own reducer state, or controlled,
  showing the `on` value its parent supplies;
- the two development warnings (a switch between controlled and uncontrolled mode, and a
  controlled instance with neither `onChange` nor `readOnly`);
- the demo container `App`. Its two switches share one flag, and a click counter drops toggle
  changes once it is past four. The Reset button clears both.

Layout:

- `wrappers.dfy`: `Option` (JavaScript's `null`/`undefined` versus a value) and `Result`
  (a value or a thrown error).
- `reducer.dfy`: `State`, `Action`, `ToggleReducer`, and `Reduce`, the fold `useReducer`
  performs over dispatched actions.
- `handlers.dfy`: event handlers and `callAll`. A handler is code of the caller's (an opaque
  identity), the hook's `toggle` or `reset`, or a `callAll` composition. `Trace` gives the
  primitive handlers that run, in order. `RunCallAll` is the `forEach` loop.
- `props.dfy`: `getTogglerProps` and `getResetterProps` over props objects as maps.
- `warnings.dfy`: the warning conditions, as the list of warnings each effect reports.
- `hook.dfy`: class `ToggleHook`. It holds the values captured on the first render
  (`initialState`, `wasControlled`), the reducer state cell and the latest options. Its
  methods are the hook's operations. The file ends with client methods that exercise the hook.
- `app.dfy`: the cells of `App`, class `App` with its two handlers, and the composition of
  `App` with two controlled hooks.

Hook state updates are modelled as sequential assignments. Each effect is taken to run after
every render.

## Model

| member | source | states |
|---|---|---|
| Reducer.ToggleReducer | src/exercise/06.js:18-30 | fails exactly for an unknown type, with that type in the error; `toggle` negates `on`; `reset` gives its `initialState` |
| Reducer.ToggleTwice | src/exercise/06.js:20-22 | two toggles give back the original state |
| Reducer.ResetIgnoresState | src/exercise/06.js:23-25 | the result of a reset does not depend on the current state |
| Reducer.UnsupportedMessage | src/exercise/06.js:26-28 | an unknown type throws, with the message `Unsupported type: <type>` |
| Reducer.Reduce | src/exercise/06.js:95 | a sequence of dispatches fails iff some action has an unknown type, and then with that action's type |
| Reducer.TogglesFlipParity | src/exercise/06.js:20-22 | n toggles leave `on` flipped iff n is odd |
| Reducer.ResetDiscardsHistory | src/exercise/06.js:23-25 | any history of known actions followed by a reset ends in the reset's payload |
| Handlers.RunCallAll | src/exercise/06.js:8-11 | the loop invokes the present functions in order and skips absent ones, matching `Trace` of the composition |
| Handlers.TraceIsPrimitive | src/exercise/06.js:8-11 | invoking a composition runs only callers' handlers and the hook's `toggle`/`reset`, never a composition itself |
| Handlers.CallAllConcat | src/exercise/06.js:8-11 | composing `a` then `b` runs everything in `a`, then everything in `b` |
| Handlers.AbsentSkipped | src/exercise/06.js:11 | an absent function adds nothing to what runs |
| Handlers.NestedFlattens | src/exercise/06.js:8-11 | a composition nested as the first function behaves as its functions inlined |
| Handlers.PairOrder | src/exercise/06.js:8-11 | `callAll(f, g)` runs `f`, if present, and then `g` |
| PropGetters.CallerOnClick | src/exercise/06.js:125 | the caller's `onClick` is found iff the props hold a function under `onClick` |
| PropGetters.GetTogglerProps | src/exercise/06.js:125-131 | keys are the caller's plus `aria-pressed` and `onClick`; `onClick` composes the caller's handler and then `toggle`; `aria-pressed` is the effective value unless the caller overrides it; every other caller prop is kept |
| PropGetters.GetResetterProps | src/exercise/06.js:133-138 | same shape as the toggler props, composing `reset`, with no `aria-pressed` |
| PropGetters.TogglerClickOrder | src/exercise/06.js:125-131 | a toggler click runs what the caller's `onClick` runs, then `toggle` |
| PropGetters.ResetterClickOrder | src/exercise/06.js:133-138 | a resetter click runs what the caller's `onClick` runs, then `reset` |
| PropGetters.TogglerDefaults | src/exercise/06.js:125-131 | with empty caller props, `aria-pressed` is the effective value and a click only toggles |
| Warnings.Warn | src/exercise/06.js:40-46 | a warning is reported exactly when its condition is false |
| Warnings.ControlledSwitchWarnings | src/exercise/06.js:37-54 | at most one warning; none iff the mode now equals the mode at mount; uncontrolled-to-controlled iff controlled now but not at mount; controlled-to-uncontrolled iff the reverse |
| Warnings.NoChangeWarnings | src/exercise/06.js:67-74 | a warning is reported iff controlled, without a change handler and not read-only |
| UseToggle.EffectiveOn | src/exercise/06.js:96-97 | the control prop when present, the internal state otherwise |
| UseToggle.ControlledIgnoresState | src/exercise/06.js:96-97 | a controlled value is the same whatever the internal state |
| UseToggle.ToggleHook.constructor | src/exercise/06.js:87-97 | the first render captures `{on: initialOn}` as both the initial state and the reducer state, and records whether it is controlled |
| UseToggle.ToggleHook.Render | src/exercise/06.js:87-94 | a later render replaces only the options; the captured initial state, the mount mode and the reducer state stay |
| UseToggle.ToggleHook.DispatchWithOnChange | src/exercise/06.js:114-119 | controlled: state unchanged; uncontrolled: state becomes the reducer's result; `onChange`, iff present, hears the reducer applied to the effective value, plus the action |
| UseToggle.ToggleHook.Toggle | src/exercise/06.js:121 | uncontrolled: `on` flips; controlled: state unchanged; `onChange` hears the negated effective value and the toggle action |
| UseToggle.ToggleHook.Reset | src/exercise/06.js:122-123 | uncontrolled: state becomes the first render's initial state; controlled: unchanged; `onChange` hears that initial state and the reset action |
| UseToggle.ToggleHook.Effects | src/exercise/06.js:99-112 | changes nothing; a mode-switch warning is reported iff the mode differs from the mount mode, in the right direction; the no-change warning iff controlled without `onChange` and not read-only |
| UseToggle.ToggleUncontrolled | src/exercise/06.js:114-121 | n toggles of an uncontrolled hook flip it n times, and `onChange` hears each new value in turn |
| UseToggle.ToggleControlled | src/exercise/06.js:114-123 | a controlled hook keeps showing the control prop after toggle and reset; its state cell is untouched; `onChange` hears the negated control prop |
| UseToggle.SwitchToControlled | src/exercise/06.js:37-46 | supplying `on` after an uncontrolled mount reports the uncontrolled-to-controlled warning and no other |
| UseToggle.ResetAfterRerender | src/exercise/06.js:94 | reset restores the first render's `initialOn`, even after a re-render with another `initialOn` |
| Demo.AfterToggleChange | src/exercise/06.js:163-169 | a toggle change is ignored while the count is above four; any other change sets the flag to the suggested value and counts one |
| Demo.App.constructor | src/exercise/06.js:160-161 | both cells start cleared: flag off, count zero |
| Demo.App.HandleToggleChange | src/exercise/06.js:163-169 | the cells move as `AfterToggleChange` says |
| Demo.App.HandleResetClick | src/exercise/06.js:171-174 | flag off and count zero, whatever came before |
| Demo.TogglesStayBounded | src/exercise/06.js:163-169 | toggle changes alone never push the count above five |
| Demo.SaturatedIgnoresToggles | src/exercise/06.js:164-166 | above four, any run of toggle changes leaves the cells as they are |
| Demo.ResetChangeCounted | src/exercise/06.js:164 | a change from a reset action is never cut off |
| Demo.SwitchClicksCount | src/exercise/06.js:163-169 | after n switch clicks the count is min(count + n, 5), and the flag has flipped once per counted click |
| Demo.ClickSwitch | src/exercise/06.js:163-181 | a click on either switch updates `App` as one switch click and leaves both switches showing the shared flag, their own state cells untouched |
| Demo.ClickReset | src/exercise/06.js:171-181 | the Reset button clears `App` and both switches show off |
| Demo.ClickRepeatedly | src/exercise/06.js:159-190 | n clicks from mount give a count of min(n, 5), and both switches show on iff that count is odd |
| Demo.ResetAfterCutoff | src/exercise/06.js:163-174 | past the cutoff the count stays at five; after Reset the next click is counted again |

## Left out

- Rendering: JSX, the `Switch` component (its source, `src/switch`, is not part of this model), the `Toggle` component's render, and the notice and click-count markup.
- React's machinery: `useReducer`'s queue, `useRef`, `useEffect` scheduling and dependency arrays, and `setState` batching. State updates are sequential assignments. Each effect is taken to run after every render. Handlers always see the latest render, never a stale closure.
- The `warning` library and the console. Only the warning conditions and the names passed to them are modelled, not the message text.
- The `process.env.NODE_ENV` gate. The warnings are computed as in a development build.
- The `console.info` callback of the uncontrolled demo switch. It counts only as a present `onChange`.
- Custom reducers passed to `useToggle`. The reducer is always `toggleReducer`.
- The arguments `callAll` forwards to each function (the click event). Callers' handlers are opaque identities whose bodies are not modelled.
- PropGetters.CallerOnClick: a caller `onClick` that is present but is not a function is treated as absent. In JavaScript, clicking then throws a `TypeError`.
- `onChange` and `readOnly` are flags: present or absent, true or false. A truthy `onChange` that is not a function is not modelled. The control prop is a boolean or absent; `null` and `undefined` are one case.
- UseToggle.ToggleHook.DispatchWithOnChange: requires an action the reducer knows. This holds for its only two callers, `toggle` and `reset`. A reset action without an `initialState` cannot be expressed; `reset` always supplies one.
