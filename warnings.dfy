/**
 * The development warnings of `useControlledSwitchWarning` and
 * `useControlledSwitchNoChangeWarning` (src/exercise/06.js), as the list of warnings each
 * effect reports. Only the conditions are modelled; the message text and the console are not.
 */
module Warnings {
  import opened Wrappers

  datatype Warning =
    | UncontrolledToControlled(componentName: string, controlPropName: string)
    | ControlledToUncontrolled(componentName: string, controlPropName: string)
    | MissingChangeHandler(componentName: string, controllingPropName: string,
                           changeHandlerPropName: string, readOnlyPropName: string,
                           mutablePropName: string)

  /** `warning(condition, message)`: the message is reported exactly when the condition is false. */
  function Warn(condition: bool, w: Warning): (reported: seq<Warning>)
    ensures reported == [] <==> condition
    ensures !condition ==> reported == [w]
  {
    if condition then [] else [w]
  }

  /**
   * The effect of `useControlledSwitchWarning`: `controlPropValue` is this render's control
   * prop and `wasControlled` whether it was non-null on the first render.
   */
  function ControlledSwitchWarnings(controlPropValue: Option<bool>, wasControlled: bool,
                                    controlPropName: string, componentName: string): (reported: seq<Warning>)
    ensures |reported| <= 1
    ensures reported == [] <==> controlPropValue.Some? == wasControlled
    ensures reported == [UncontrolledToControlled(componentName, controlPropName)] <==>
              controlPropValue.Some? && !wasControlled
    ensures reported == [ControlledToUncontrolled(componentName, controlPropName)] <==>
              controlPropValue.None? && wasControlled
  {
    var isControlled := controlPropValue.Some?;
    var reported :=
      Warn(!(isControlled && !wasControlled), UncontrolledToControlled(componentName, controlPropName))
      + Warn(!(!isControlled && wasControlled), ControlledToUncontrolled(componentName, controlPropName));
    assert reported != [] ==> reported[0].UncontrolledToControlled? == (isControlled && !wasControlled);
    reported
  }

  /** The effect of `useControlledSwitchNoChangeWarning`. */
  function NoChangeWarnings(isControlled: bool, controllingPropName: string,
                            hasChangeHandler: bool, changeHandlerPropName: string,
                            isReadOnly: bool, readOnlyPropName: string,
                            componentName: string, mutablePropName: string): (reported: seq<Warning>)
    ensures |reported| <= 1
    ensures reported != [] <==> isControlled && !hasChangeHandler && !isReadOnly
    ensures reported != [] ==> reported[0] == MissingChangeHandler(componentName, controllingPropName,
                                  changeHandlerPropName, readOnlyPropName, mutablePropName)
  {
    Warn(!(!hasChangeHandler && isControlled && !isReadOnly),
         MissingChangeHandler(componentName, controllingPropName, changeHandlerPropName,
                              readOnlyPropName, mutablePropName))
  }
}
