/**
 * ProcessListEntryViewModel: one row of the Processes tab. It remembers the mask it last
 * applied, shows the selected mask, and raises a sticky FailedToOpen flag once an apply fails.
 *
 * The process handler and MaskRuleManager.UpdateOrAddProgramRule are other files' code: the
 * handler is seen through the masks it is asked to apply and an oracle for the outcome, and the
 * rule manager through the updates it receives.
 */
module ProcessListEntryViewModel {
  import opened ConfigModels

  /** The IProcessHandler of the entry, as the entry uses it. */
  class Handler {
    /** The masks ApplyMask was called with, in order. */
    var applied: seq<LogicalProcessorMask>
    /** Whether the n-th ApplyMask call succeeds. */
    const applySucceeds: (nat, LogicalProcessorMask) -> bool
    var disposed: bool

    constructor (applySucceeds: (nat, LogicalProcessorMask) -> bool)
      ensures applied == [] && this.applySucceeds == applySucceeds && !disposed
    {
      applied := [];
      this.applySucceeds := applySucceeds;
      disposed := false;
    }

    method ApplyMask(mask: LogicalProcessorMask) returns (ok: bool)
      modifies this
      ensures applied == old(applied) + [mask] && disposed == old(disposed)
      ensures ok == applySucceeds(|old(applied)|, mask)
    {
      ok := applySucceeds(|applied|, mask);
      applied := applied + [mask];
    }

    method Dispose()
      modifies this
      ensures disposed && applied == old(applied)
    {
      disposed := true;
    }
  }

  /** MaskRuleManager as the entry uses it: the UpdateOrAddProgramRule calls it receives. */
  class RuleManager {
    var updates: seq<(string, LogicalProcessorMask)>

    constructor ()
      ensures updates == []
    {
      updates := [];
    }

    method UpdateOrAddProgramRule(imagePath: string, mask: LogicalProcessorMask)
      modifies this
      ensures updates == old(updates) + [(imagePath, mask)]
    {
      updates := updates + [(imagePath, mask)];
    }
  }

  class ProcessListEntry {
    const pid: nat
    const name: string
    const imagePath: string
    const handler: Handler
    const rules: RuleManager
    var lastAppliedMask: LogicalProcessorMask
    var mask: LogicalProcessorMask
    var failedToOpen: bool

    /**
     * The constructor sets Mask to the path's mask (MaskRuleManager.GetMaskFromPath, given here
     * as pathMask). The generated setter raises OnMaskChanged, which calls SetMask: a mask other
     * than NoMask is stored and applied right away, and NoMask, the initial last applied mask,
     * is not applied at all.
     */
    constructor (pid: nat, name: string, imagePath: string, handler: Handler, rules: RuleManager,
                 noMask: LogicalProcessorMask, pathMask: LogicalProcessorMask)
      requires noMask.isNoMask
      modifies handler, rules
      ensures this.pid == pid && this.name == name && this.imagePath == imagePath
      ensures this.handler == handler && this.rules == rules
      ensures mask == pathMask && lastAppliedMask == pathMask
      ensures pathMask == noMask ==> !failedToOpen && unchanged(handler, rules)
      ensures pathMask != noMask ==>
        && handler.applied == old(handler.applied) + [pathMask]
        && rules.updates == old(rules.updates) + [(imagePath, pathMask)]
        && failedToOpen == !handler.applySucceeds(|old(handler.applied)|, pathMask)
    {
      this.pid := pid;
      this.name := name;
      this.imagePath := imagePath;
      this.handler := handler;
      this.rules := rules;
      lastAppliedMask := noMask;
      mask := pathMask;
      failedToOpen := false;
      new;
      var _ := SetMask(pathMask);
    }

    /**
     * SetMask. The mask applied last gives the previous status, !FailedToOpen, and changes
     * nothing. Any other mask becomes the last applied and the shown mask, is stored through
     * UpdateOrAddProgramRule and then applied; a failed apply sets FailedToOpen, which no call
     * ever clears. (Setting Mask raises OnMaskChanged again, which returns at once because the
     * mask is already the last applied one.)
     */
    method SetMask(m: LogicalProcessorMask) returns (ok: bool)
      modifies this, handler, rules
      ensures m == old(lastAppliedMask) ==> ok == !failedToOpen && unchanged(this, handler, rules)
      ensures m != old(lastAppliedMask) ==>
        && lastAppliedMask == m && mask == m
        && rules.updates == old(rules.updates) + [(imagePath, m)]
        && handler.applied == old(handler.applied) + [m]
        && ok == handler.applySucceeds(|old(handler.applied)|, m)
        && failedToOpen == (old(failedToOpen) || !ok)
      ensures old(failedToOpen) ==> failedToOpen
      ensures handler.disposed == old(handler.disposed)
    {
      if m == lastAppliedMask {
        return !failedToOpen;
      }
      lastAppliedMask := m;
      mask := m;
      rules.UpdateOrAddProgramRule(imagePath, m);
      var success := handler.ApplyMask(m);
      if !success {
        failedToOpen := true;
      }
      return success;
    }

    /** OnMaskChanged: the UI picked a mask, which SetMask stores and applies. */
    method OnMaskChanged(value: LogicalProcessorMask)
      modifies this, handler, rules
      ensures value == old(lastAppliedMask) ==> unchanged(this, handler, rules)
      ensures value != old(lastAppliedMask) ==>
        && lastAppliedMask == value && mask == value
        && rules.updates == old(rules.updates) + [(imagePath, value)]
        && handler.applied == old(handler.applied) + [value]
        && failedToOpen == (old(failedToOpen) || !handler.applySucceeds(|old(handler.applied)|, value))
    {
      var _ := SetMask(value);
    }

    /** Dispose: disposes the process handler. */
    method Dispose()
      modifies handler
      ensures handler.disposed && handler.applied == old(handler.applied)
    {
      handler.Dispose();
    }
  }
}
