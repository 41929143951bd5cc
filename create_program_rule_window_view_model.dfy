/**
 * CreateProgramRuleWindowViewModel: the dialog that creates a program rule for a path picked by
 * the user. The Create button is enabled only for a non-empty path that no rule has yet; the
 * create command itself does not check again.
 *
 * The file dialog is left out: its result is the path assigned to rulePath.
 */
module CreateProgramRuleWindowViewModel {
  import opened ConfigModels
  import RH = RuleHelpers

  /** Some program rule has a path equal to the given one. */
  predicate SomeRuleHasPath(p: RH.Platform, rules: seq<ProgramRule>, path: string)
  {
    exists i :: 0 <= i < |rules| && RH.PathsEqual(p, rules[i].programPath, path)
  }

  class CreateProgramRuleWindow {
    var rulePath: string
    var selectedMask: LogicalProcessorMask
    /** The close-window action was called. */
    var closed: bool

    constructor (noMask: LogicalProcessorMask)
      ensures rulePath == "" && selectedMask == noMask && !closed
    {
      rulePath := "";
      selectedMask := noMask;
      closed := false;
    }

    /** CanCreate: the path is non-empty and no program rule has an equal path. */
    predicate CanCreate(config: AppConfig, p: RH.Platform)
      reads this, config
    {
      |rulePath| > 0 && !SomeRuleHasPath(p, config.programRules, rulePath)
    }

    /**
     * CreateProgramRule: append a new rule for the path with the selected mask (the collection's
     * change handler saves the config), then close the window. When CanCreate held, the path now
     * has exactly one rule and CanCreate no longer holds.
     */
    method CreateProgramRule(config: AppConfig, p: RH.Platform) returns (rule: ProgramRule)
      modifies this, config
      ensures fresh(rule) && rule.programPath == old(rulePath) && rule.mask == old(selectedMask)
      ensures rule.matchingRuleTemplate == null && rule.ListensToItsTemplate()
      ensures config.programRules == old(config.programRules) + [rule]
      ensures old(CanCreate(config, p)) ==>
        && (forall i :: 0 <= i < |config.programRules| - 1 ==> !RH.PathsEqual(p, config.programRules[i].programPath, rulePath))
        && !CanCreate(config, p)
      ensures closed && rulePath == old(rulePath) && selectedMask == old(selectedMask)
      ensures config.logicalProcessorMasks == old(config.logicalProcessorMasks) && config.ruleTemplates == old(config.ruleTemplates)
    {
      rule := new ProgramRule(rulePath, selectedMask);
      config.programRules := config.programRules + [rule];
      var _ := OnObservableConfigCollectionChanged(config, CollectionAction.Add, null);
      RH.PathsEqualIsEquivalence(p, rulePath, rulePath, rulePath);
      assert config.programRules[|config.programRules| - 1] == rule;
      closed := true;
    }
  }
}
