/**
 * CreateMaskWindowViewModel: the dialog that creates a mask. It starts with every logical
 * processor enabled, no hotkeys and an empty name, and adds the mask only under a name that is
 * non-empty and not taken.
 */
module CreateMaskWindowViewModel {
  import opened ConfigModels

  class CreateMaskWindow {
    var boolMask: seq<bool>
    var maskType: MaskApplyType
    var hotkeys: seq<VKey>
    var name: string
    /** The close-window action was called. */
    var closed: bool
    /** The PropertyChanged(CanCreateMask) notifications raised by a refused create. */
    var refreshes: nat

    /** The constructor, for a machine with logicalProcessorCount logical processors. */
    constructor (logicalProcessorCount: nat)
      ensures |boolMask| == logicalProcessorCount && forall i :: 0 <= i < |boolMask| ==> boolMask[i]
      ensures maskType == CPUSet && hotkeys == [] && name == ""
      ensures !closed && refreshes == 0
    {
      boolMask := seq(logicalProcessorCount, _ => true);
      maskType := CPUSet;
      hotkeys := [];
      name := "";
      closed := false;
      refreshes := 0;
    }

    /** CanCreateMask: the name is non-empty and no mask has it. */
    predicate CanCreateMask(config: AppConfig)
      reads this, config
    {
      |name| > 0 && !HasName(config.logicalProcessorMasks, name)
    }

    /**
     * CreateMask: a refused create only refreshes the button; otherwise the new mask is appended
     * (the collection's change handler saves the config) and the window closes.
     */
    method CreateMask(config: AppConfig)
      modifies this, config
      ensures !old(CanCreateMask(config)) ==>
        && config.logicalProcessorMasks == old(config.logicalProcessorMasks)
        && refreshes == old(refreshes) + 1 && closed == old(closed)
      ensures old(CanCreateMask(config)) ==>
        && config.logicalProcessorMasks == old(config.logicalProcessorMasks) + [NewMask(name, maskType, boolMask, hotkeys)]
        && closed && refreshes == old(refreshes)
        && !CanCreateMask(config)
      ensures DistinctNames(old(config.logicalProcessorMasks)) ==> DistinctNames(config.logicalProcessorMasks)
      ensures name == old(name) && boolMask == old(boolMask) && maskType == old(maskType) && hotkeys == old(hotkeys)
      ensures config.programRules == old(config.programRules) && config.ruleTemplates == old(config.ruleTemplates)
    {
      if !CanCreateMask(config) {
        refreshes := refreshes + 1;
        return;
      }
      var mask := NewMask(name, maskType, boolMask, hotkeys);
      ghost var before := config.logicalProcessorMasks;
      config.logicalProcessorMasks := config.logicalProcessorMasks + [mask];
      var _ := OnObservableConfigCollectionChanged(config, CollectionAction.Add, null);
      assert config.logicalProcessorMasks[|before|].name == name;
      closed := true;
    }
  }
}
