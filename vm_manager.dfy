/** The lifecycle controls (`VMManager`): which two buttons are shown for a status, which of
    them are enabled, and what the save button reads. */
module Controls {
  import opened Emulator

  /** `isRunning`. */
  predicate IsRunning(s: Status)
  {
    s == Running
  }

  /** `isBusy`: an operation of the lifecycle is under way. */
  predicate IsBusy(s: Status)
    // The busy states are exactly those that are neither running nor at rest.
    ensures IsBusy(s) <==> !IsRunning(s) && s != Stopped && s != Error
  {
    s == Starting || s == Saving || s == Restoring
  }

  /** The button pair on screen: Start VM and Restore, or Save State and Stop VM. */
  datatype Panel =
    | StartRestore(startDisabled: bool, restoreDisabled: bool)
    | SaveStop(saveDisabled: bool, saveCaption: string, stopDisabled: bool)

  /** The rendered controls for a status, as the component's conditional and `disabled`
      expressions compute them. */
  function Render(s: Status): (p: Panel)
    ensures p.StartRestore? <==> s != Running && s != Starting
    ensures p.StartRestore? ==> (p.startDisabled <==> s == Saving || s == Restoring)
    ensures p.StartRestore? ==> (p.restoreDisabled <==> s == Saving || s == Restoring)
    ensures p.SaveStop? ==> (!p.saveDisabled <==> s == Running)
    ensures p.SaveStop? ==> (!p.stopDisabled <==> s == Running) && (p.stopDisabled <==> s == Starting)
    // The "Saving..." branch of the caption is dead: Saving shows the other pair.
    ensures p.SaveStop? ==> p.saveCaption == "Save State"
  {
    if !IsRunning(s) && s != Starting then
      StartRestore(IsBusy(s), IsBusy(s))
    else
      SaveStop(IsBusy(s) || !IsRunning(s),
               if IsBusy(s) && s != Starting then "Saving..." else "Save State",
               IsBusy(s))
  }

  /** Start VM is on screen and enabled. */
  predicate StartEnabled(s: Status)
  {
    Render(s).StartRestore? && !Render(s).startDisabled
  }

  /** Restore is on screen and enabled. */
  predicate RestoreEnabled(s: Status)
  {
    Render(s).StartRestore? && !Render(s).restoreDisabled
  }

  /** Save State is on screen and enabled. */
  predicate SaveEnabled(s: Status)
  {
    Render(s).SaveStop? && !Render(s).saveDisabled
  }

  /** Stop VM is on screen and enabled. */
  predicate StopEnabled(s: Status)
  {
    Render(s).SaveStop? && !Render(s).stopDisabled
  }

  /** The only guard against overlapping lifecycle calls: no operation can be started from
      the controls while one is under way; a stopped or failed machine offers Start and
      Restore, a running one Save and Stop. */
  lemma EnabledControls(s: Status)
    ensures IsBusy(s) ==> !StartEnabled(s) && !RestoreEnabled(s) && !SaveEnabled(s) && !StopEnabled(s)
    ensures StartEnabled(s) <==> s == Stopped || s == Error
    ensures RestoreEnabled(s) <==> s == Stopped || s == Error
    ensures SaveEnabled(s) <==> s == Running
    ensures StopEnabled(s) <==> s == Running
  {
  }
}
