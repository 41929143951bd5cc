/**
 * RulesTabViewModel: the Rules tab. Its header text depends on how many rule templates exist, and
 * its buttons reapply or remove rules and templates through MaskRuleManager.
 */
module RulesTabViewModel {
  import opened Common
  import opened ConfigModels
  import RH = RuleHelpers
  import M = MaskRuleManager

  const HeaderNone: string := "Rule Templates"
  const HeaderOne: string := "Rule Templates (double click to edit)"
  const HeaderMany: string := "Rule Templates (double click to edit, drag-and-drop to reorder)"

  /**
   * RuleTemplatesHeaderText: the plain title with no template, an editing hint with one, and a
   * reordering hint as well with two or more.
   */
  function RuleTemplatesHeaderText(templateCount: nat): (r: string)
    ensures StartsWith(r, HeaderNone)
    ensures r == HeaderNone <==> templateCount == 0
    ensures r == HeaderMany <==> templateCount >= 2
  {
    assert HeaderOne[..|HeaderNone|] == HeaderNone && HeaderMany[..|HeaderNone|] == HeaderNone;
    if templateCount == 0 then HeaderNone
    else if templateCount == 1 then HeaderOne
    else HeaderMany
  }

  /** The header for the templates of the config. */
  function HeaderTextOf(config: AppConfig): string
    reads config
  {
    RuleTemplatesHeaderText(|config.ruleTemplates|)
  }

  /** Two template counts give the same header exactly when both are 0, both 1, or both at least 2. */
  lemma HeaderTextClasses(m: nat, n: nat)
    ensures RuleTemplatesHeaderText(m) == RuleTemplatesHeaderText(n) <==>
      (m == n || (m >= 2 && n >= 2))
  {
    assert HeaderOne != HeaderMany by { assert HeaderOne[|HeaderOne| - 1] != HeaderMany[|HeaderOne| - 1]; }
  }

  /**
   * ProgramRuleRemove: MaskRuleManager.RemoveProgramRule. A rule without a template gets NoMask
   * and leaves the list; a rule with one keeps its place and gets the template's mask when a
   * process of its path runs, and nothing changes otherwise.
   */
  method ProgramRuleRemove(config: AppConfig, p: RH.Platform, noMask: LogicalProcessorMask, procs: M.ProcessList,
                           programRule: ProgramRule)
    modifies config, config.programRules, programRule, procs
    ensures config.ruleTemplates == old(config.ruleTemplates)
    ensures old(programRule.matchingRuleTemplate) == null ==>
      && programRule.mask == noMask
      && (programRule in old(config.programRules) ==> config.programRules == RemoveFirst(old(config.programRules), programRule))
    ensures old(programRule.matchingRuleTemplate) != null ==>
      && (programRule in old(config.programRules) ==> config.programRules == old(config.programRules))
      && (M.RunsSomewhere(p, procs, programRule.programPath) ==> programRule.mask == old(programRule.matchingRuleTemplate.mask))
      && (!M.RunsSomewhere(p, procs, programRule.programPath) ==>
            unchanged(config, procs, programRule) && unchanged(config.programRules))
    ensures var template := old(programRule.matchingRuleTemplate);
      var target := if template == null then noMask else old(template.mask);
      var changed := && old(programRule.mask) != target && programRule.programPath != []
                     && (template == null || M.RunsSomewhere(p, procs, programRule.programPath));
      M.IsFirstFor(p, old(config.programRules), programRule) ==>
        && (forall r :: r in old(config.programRules) && r != programRule ==> unchanged(r))
        && programRule.matchingRuleTemplate
           == (if changed then M.FindRuleTemplate(p, config.ruleTemplates, programRule.programPath) else template)
        && procs.setMaskCalls == old(procs.setMaskCalls)
             + (if changed then M.CallsWith(M.AllProcessesOn(p, procs, programRule.programPath), target) else [])
  {
    M.RemoveProgramRule(config, p, noMask, procs, programRule);
  }

  /**
   * ProgramRuleReapply: a rule with a template gets the template's mask back through its Mask
   * setter, and a rule without one is left alone. The rule list stays when the rule is in it. For
   * the first rule of its path a changed mask (with a path) goes to every process of the path,
   * and the rule gets the template that matches its path, so a rule whose template still matches
   * keeps it and stops deviating.
   */
  method ProgramRuleReapply(config: AppConfig, p: RH.Platform, noMask: LogicalProcessorMask, procs: M.ProcessList,
                            programRule: ProgramRule)
    modifies config, config.programRules, programRule, procs
    ensures config.ruleTemplates == old(config.ruleTemplates)
    ensures old(programRule.matchingRuleTemplate) == null ==>
      unchanged(config, procs, programRule) && unchanged(config.programRules)
    ensures old(programRule.matchingRuleTemplate) != null ==>
      && programRule.mask == old(programRule.matchingRuleTemplate.mask)
      && (programRule in old(config.programRules) ==> config.programRules == old(config.programRules))
    ensures var template := old(programRule.matchingRuleTemplate);
      template != null && (M.IsFirstFor(p, old(config.programRules), programRule) || programRule.programPath == []) ==>
        var changed := old(programRule.mask) != old(template.mask) && programRule.programPath != [];
        && (forall r :: r in old(config.programRules) && r != programRule ==> unchanged(r))
        && programRule.matchingRuleTemplate
           == (if changed then M.FindRuleTemplate(p, config.ruleTemplates, programRule.programPath) else template)
        && procs.setMaskCalls == old(procs.setMaskCalls)
             + (if changed then M.CallsWith(M.AllProcessesOn(p, procs, programRule.programPath), old(template.mask)) else [])
    ensures var template := old(programRule.matchingRuleTemplate);
      && template != null && template == M.FindRuleTemplate(p, config.ruleTemplates, programRule.programPath)
      && (M.IsFirstFor(p, old(config.programRules), programRule) || programRule.programPath == []) ==>
        programRule.matchingRuleTemplate == template && !programRule.IsDeviatingFromRuleTemplate()
  {
    if programRule.matchingRuleTemplate != null {
      M.AssignMask(config, p, noMask, procs, programRule, programRule.matchingRuleTemplate.mask);
    }
  }

  /**
   * RuleTemplateReapply: MaskRuleManager.ReapplyRuleTemplate. The rules the template is the first
   * match for get its mask, the rule list stays, and no rule gets any other new mask; when no two
   * rules are for equal paths, exactly those rules change and the processes of the changed rules'
   * paths get the template's mask.
   */
  method RuleTemplateReapply(config: AppConfig, p: RH.Platform, noMask: LogicalProcessorMask, procs: M.ProcessList,
                             ruleTemplate: RuleTemplate)
    modifies config, config.programRules, procs
    ensures config.ruleTemplates == old(config.ruleTemplates)
    ensures config.programRules == old(config.programRules)
    ensures forall r :: r in config.programRules ==> r.mask == old(r.mask) || r.mask == ruleTemplate.mask
    ensures forall r :: r in config.programRules && M.Reapplies(p, config.ruleTemplates, ruleTemplate, r) ==>
      r.mask == ruleTemplate.mask
    ensures M.OneRulePerPath(p, config.programRules) ==>
      && (forall r :: r in config.programRules ==>
            var reapplied := M.Reapplies(p, config.ruleTemplates, ruleTemplate, r);
            && r.mask == (if reapplied then ruleTemplate.mask else old(r.mask))
            && r.matchingRuleTemplate
               == (if reapplied && old(r.mask) != ruleTemplate.mask && r.programPath != [] then ruleTemplate
                   else old(r.matchingRuleTemplate)))
      && procs.setMaskCalls == old(procs.setMaskCalls)
           + M.ReappliedCalls(p, procs.imagePaths, old(config.programRules), old(M.MasksOf(config.programRules)),
                              M.SelectedBy(p, config.ruleTemplates, ruleTemplate, config.programRules), ruleTemplate.mask)
  {
    M.ReapplyRuleTemplate(config, p, noMask, procs, ruleTemplate);
  }

  /** RuleTemplateRemove: MaskRuleManager.RemoveRuleTemplate. */
  method RuleTemplateRemove(config: AppConfig, p: RH.Platform, noMask: LogicalProcessorMask, procs: M.ProcessList,
                            ruleTemplate: RuleTemplate)
    modifies config, procs, set r | r in config.programRules
    ensures config.ruleTemplates == RemoveFirst(old(config.ruleTemplates), ruleTemplate)
    ensures old(config.programRules) <= config.programRules
    ensures M.RulesMatchTemplates(p, config.programRules, config.ruleTemplates)
  {
    M.RemoveRuleTemplate(config, p, noMask, procs, ruleTemplate);
  }
}
