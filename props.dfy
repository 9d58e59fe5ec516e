/** The prop getters `getTogglerProps` and `getResetterProps` of `useToggle` (src/exercise/06.js). */
module PropGetters {
  import opened Wrappers
  import opened Handlers

  /** A prop value: a flag, a piece of text, or a function. */
  datatype Value = Bool(b: bool) | Text(s: string) | Fn(h: Handler)

  /** A props object, keyed by prop name. */
  type Props = map<string, Value>

  const AriaPressed: string := "aria-pressed"
  const OnClick: string := "onClick"

  /** The caller's `onClick`, taken out of its props by `{onClick, ...props}`. */
  function CallerOnClick(props: Props): (fn: Option<Handler>)
    ensures fn.Some? <==> OnClick in props && props[OnClick].Fn?
    ensures fn.Some? ==> props[OnClick] == Fn(fn.value)
  {
    if OnClick in props && props[OnClick].Fn? then Some(props[OnClick].h) else None
  }

  /** What the element's click handler runs before the hook's own handler. */
  function CallerTrace(props: Props): (calls: seq<Handler>)
  {
    if CallerOnClick(props).Some? then Trace(CallerOnClick(props).value) else []
  }

  /**
   * `getTogglerProps(props)` for a hook whose effective value is `on`: `aria-pressed` and a
   * composed `onClick`, then the caller's other props spread on top.
   */
  function GetTogglerProps(on: bool, props: Props): (r: Props)
    ensures r.Keys == props.Keys + {AriaPressed, OnClick}
    ensures r[OnClick] == Fn(CallAll([CallerOnClick(props), Some(ToggleFn)]))
    ensures r[AriaPressed] == if AriaPressed in props then props[AriaPressed] else Bool(on)
    ensures forall k :: k in props && k != OnClick ==> r[k] == props[k]
  {
    map[AriaPressed := Bool(on), OnClick := Fn(CallAll([CallerOnClick(props), Some(ToggleFn)]))]
      + (props - {OnClick})
  }

  /** `getResetterProps(props)`: a composed `onClick`, then the caller's other props. */
  function GetResetterProps(props: Props): (r: Props)
    ensures r.Keys == props.Keys + {OnClick}
    ensures r[OnClick] == Fn(CallAll([CallerOnClick(props), Some(ResetFn)]))
    ensures forall k :: k in props && k != OnClick ==> r[k] == props[k]
  {
    map[OnClick := Fn(CallAll([CallerOnClick(props), Some(ResetFn)]))] + (props - {OnClick})
  }

  /** Clicking the toggler runs the caller's `onClick` first and the hook's `toggle` last. */
  lemma TogglerClickOrder(on: bool, props: Props)
    ensures Trace(GetTogglerProps(on, props)[OnClick].h) == CallerTrace(props) + [ToggleFn]
  {
    PairOrder(CallerOnClick(props), ToggleFn);
  }

  /** Clicking the resetter runs the caller's `onClick` first and the hook's `reset` last. */
  lemma ResetterClickOrder(props: Props)
    ensures Trace(GetResetterProps(props)[OnClick].h) == CallerTrace(props) + [ResetFn]
  {
    PairOrder(CallerOnClick(props), ResetFn);
  }

  /** Without a caller `onClick` and `aria-pressed`, the toggler shows the effective value and only toggles. */
  lemma TogglerDefaults(on: bool)
    ensures GetTogglerProps(on, map[])[AriaPressed] == Bool(on)
    ensures Trace(GetTogglerProps(on, map[])[OnClick].h) == [ToggleFn]
  {
    TogglerClickOrder(on, map[]);
  }
}
