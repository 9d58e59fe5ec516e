/**
 * Event handlers and their composition by `callAll` (src/exercise/06.js). A handler is
 * either code of the caller's, which the model sees only as an opaque identity, one of the
 * hook's own `toggle` and `reset`, or a composition built by `callAll`.
 */
module Handlers {
  import opened Wrappers

  datatype Handler =
    | Caller(id: nat)
    | ToggleFn
    | ResetFn
    | CallAll(fns: seq<Option<Handler>>)

  /** The handlers that actually run, in order, when `h` is invoked. */
  function Trace(h: Handler): (calls: seq<Handler>)
    decreases h, 1
  {
    if h.CallAll? then TraceFrom(h, 0) else [h]
  }

  /** What the composition `h` runs from its `i`-th function onwards; absent ones are skipped. */
  function TraceFrom(h: Handler, i: nat): (calls: seq<Handler>)
    requires h.CallAll? && i <= |h.fns|
    decreases h, 0, |h.fns| - i
  {
    if i == |h.fns| then []
    else Step(h.fns[i], h) + TraceFrom(h, i + 1)
  }

  /** One iteration of `forEach(fn => fn?.(...args))`: an absent function is skipped. */
  function Step(fn: Option<Handler>, parent: Handler): (calls: seq<Handler>)
    requires parent.CallAll? && fn in parent.fns
    decreases parent, 0, 0
  {
    if fn.Some? then Trace(fn.value) else []
  }

  /**
   * Invoking `callAll(...fns)`: call each given function in order, skipping the absent
   * ones. The result lists every primitive handler that runs, in the order it runs.
   */
  method RunCallAll(fns: seq<Option<Handler>>) returns (calls: seq<Handler>)
    ensures calls == Trace(CallAll(fns))
  {
    ghost var h := CallAll(fns);
    calls := [];
    var i := 0;
    while i < |fns|
      invariant 0 <= i <= |fns|
      invariant calls + TraceFrom(h, i) == TraceFrom(h, 0)
    {
      var fn := fns[i];
      if fn.Some? {
        calls := calls + Trace(fn.value);
      }
      i := i + 1;
    }
  }

  /** Only primitive handlers are ever run: a composition dissolves into what it composes. */
  lemma {:induction false} TraceIsPrimitive(h: Handler)
    ensures forall c :: c in Trace(h) ==> !c.CallAll?
    decreases h, 1
  {
    if h.CallAll? {
      TraceFromIsPrimitive(h, 0);
    }
  }

  lemma {:induction false} TraceFromIsPrimitive(h: Handler, i: nat)
    requires h.CallAll? && i <= |h.fns|
    ensures forall c :: c in TraceFrom(h, i) ==> !c.CallAll?
    decreases h, 0, |h.fns| - i
  {
    if i < |h.fns| {
      if h.fns[i].Some? {
        TraceIsPrimitive(h.fns[i].value);
      }
      TraceFromIsPrimitive(h, i + 1);
    }
  }

  /** `callAll(...a, ...b)` runs what `callAll(...a)` runs and then what `callAll(...b)` runs. */
  lemma CallAllConcat(a: seq<Option<Handler>>, b: seq<Option<Handler>>)
    ensures Trace(CallAll(a + b)) == Trace(CallAll(a)) + Trace(CallAll(b))
  {
    ConcatFrom(a, b, 0);
  }

  lemma {:induction false} ConcatFrom(a: seq<Option<Handler>>, b: seq<Option<Handler>>, i: nat)
    requires i <= |a|
    ensures TraceFrom(CallAll(a + b), i) == TraceFrom(CallAll(a), i) + TraceFrom(CallAll(b), 0)
    decreases |a| - i
  {
    if i == |a| {
      ShiftFrom(a, b, 0);
    } else {
      assert (a + b)[i] == a[i];
      ConcatFrom(a, b, i + 1);
    }
  }

  lemma {:induction false} ShiftFrom(a: seq<Option<Handler>>, b: seq<Option<Handler>>, j: nat)
    requires j <= |b|
    ensures TraceFrom(CallAll(a + b), |a| + j) == TraceFrom(CallAll(b), j)
    decreases |b| - j
  {
    if j < |b| {
      assert (a + b)[|a| + j] == b[j];
      ShiftFrom(a, b, j + 1);
    }
  }

  /** An absent function contributes nothing: `callAll(undefined, ...fns)` acts as `callAll(...fns)`. */
  lemma AbsentSkipped(fns: seq<Option<Handler>>)
    ensures Trace(CallAll([None] + fns)) == Trace(CallAll(fns))
  {
    CallAllConcat([None], fns);
    assert TraceFrom(CallAll([None]), 1) == [];
  }

  /** Nesting is transparent: `callAll(callAll(...a), ...b)` acts as `callAll(...a, ...b)`. */
  lemma NestedFlattens(a: seq<Option<Handler>>, b: seq<Option<Handler>>)
    ensures Trace(CallAll([Some(CallAll(a))] + b)) == Trace(CallAll(a + b))
  {
    CallAllConcat([Some(CallAll(a))], b);
    CallAllConcat(a, b);
    var h := CallAll([Some(CallAll(a))]);
    assert TraceFrom(h, 1) == [];
    assert Trace(h) == Step(h.fns[0], h) == Trace(CallAll(a));
  }

  /** The composition of two functions runs the first one (when present), then the second. */
  lemma PairOrder(first: Option<Handler>, second: Handler)
    ensures Trace(CallAll([first, Some(second)])) ==
            (if first.Some? then Trace(first.value) else []) + Trace(second)
  {
    var h := CallAll([first, Some(second)]);
    assert TraceFrom(h, 2) == [];
    assert TraceFrom(h, 1) == Step(h.fns[1], h) == Trace(second);
    assert Trace(h) == Step(h.fns[0], h) + TraceFrom(h, 1);
  }
}
