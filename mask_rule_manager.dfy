// The rule engine of Core/MaskRuleManager.cs: program rules keyed by path, rule templates with
// first-match priority, and the operations that keep both lists and the running processes in step.
// The glob test, NormalizePath, FindRuleTemplate and MaskIsUsedByRules of this file are the same
// as those of Core/RuleHelpers.cs and are used from the RuleHelpers module; PathsEqual differs
// (it compares ordinally) and is defined here.

module MaskRuleManager {
  import opened Common
  import opened ConfigModels
  import RH = RuleHelpers

  type Platform = RH.Platform

  /** PathsEqual of this file: the normalised paths compared ordinally, on every platform. */
  predicate PathsEqual(p: Platform, path1: string, path2: string)
  {
    RH.NormalizePath(p, path1) == RH.NormalizePath(p, path2)
  }

  /**
   * The ordinal comparison is an equivalence that implies the comparison of RuleHelpers; the two
   * agree off Windows.
   */
  lemma OrdinalPathsEqual(p: Platform, a: string, b: string, c: string)
    ensures PathsEqual(p, a, a)
    ensures PathsEqual(p, a, b) ==> PathsEqual(p, b, a)
    ensures PathsEqual(p, a, b) && PathsEqual(p, b, c) ==> PathsEqual(p, a, c)
    ensures PathsEqual(p, a, b) ==> RH.PathsEqual(p, a, b)
    ensures !p.isWindows ==> (PathsEqual(p, a, b) <==> RH.PathsEqual(p, a, b))
  {
    var na := RH.NormalizePath(p, a);
    EqualsIgnoreCaseIsEquivalence(na, na, na);
  }

  /** On Windows the two comparisons differ on case: RuleHelpers finds "C:/a" for "c:/A", this file does not. */
  lemma CaseSeparatesPathsHere(p: Platform)
    requires p.isWindows
    ensures RH.PathsEqual(p, "C:/a", "c:/A") && !PathsEqual(p, "C:/a", "c:/A")
  {
    var a, b := RH.NormalizePath(p, "C:/a"), RH.NormalizePath(p, "c:/A");
    assert a[0] == 'C' && b[0] == 'c';
    assert forall i :: 0 <= i < |a| ==> ToUpperAscii(a[i]) == ToUpperAscii(b[i]);
  }

  /** A rule's path equals the image path, ordinally after normalisation. */
  predicate RuleIsFor(p: Platform, imagePath: string, rule: ProgramRule)
  {
    PathsEqual(p, rule.programPath, imagePath)
  }

  /** FindProgramRule: the position of the first program rule for the path. */
  function FindProgramRule(p: Platform, rules: seq<ProgramRule>, imagePath: string): (r: Option<nat>)
    ensures r.Some? ==> r.value < |rules| && RuleIsFor(p, imagePath, rules[r.value])
    ensures r.Some? ==> forall j :: 0 <= j < r.value ==> !RuleIsFor(p, imagePath, rules[j])
    ensures r.None? ==> forall j :: 0 <= j < |rules| ==> !RuleIsFor(p, imagePath, rules[j])
  {
    FirstIndex(rules, (rule: ProgramRule) => RuleIsFor(p, imagePath, rule))
  }

  /** Appending a rule keeps an earlier first match; a rule for the path appended to a list without one is found. */
  lemma FindAfterAppend(p: Platform, rules: seq<ProgramRule>, rule: ProgramRule, imagePath: string)
    ensures FindProgramRule(p, rules, imagePath).Some? ==>
      FindProgramRule(p, rules + [rule], imagePath) == FindProgramRule(p, rules, imagePath)
    ensures FindProgramRule(p, rules, imagePath).None? && RuleIsFor(p, imagePath, rule) ==>
      FindProgramRule(p, rules + [rule], imagePath) == Some(|rules|)
    ensures FindProgramRule(p, rules, imagePath).None? && !RuleIsFor(p, imagePath, rule) ==>
      FindProgramRule(p, rules + [rule], imagePath).None?
  {
    FirstIndexAppend(rules, rule, (r: ProgramRule) => RuleIsFor(p, imagePath, r));
  }

  /** A longer list with the same beginning keeps the first match of the shorter one. */
  lemma FindInLonger(p: Platform, rules: seq<ProgramRule>, longer: seq<ProgramRule>, imagePath: string)
    requires rules <= longer
    ensures FindProgramRule(p, rules, imagePath).Some? ==>
      FindProgramRule(p, longer, imagePath) == FindProgramRule(p, rules, imagePath)
  {
    var k := FindProgramRule(p, rules, imagePath);
    if k.Some? {
      assert longer[k.value] == rules[k.value];
      assert forall j :: 0 <= j < k.value ==> longer[j] == rules[j];
    }
  }

  /** No two positions of the list hold a rule for the path. */
  predicate AtMostOneRuleFor(p: Platform, rules: seq<ProgramRule>, imagePath: string)
  {
    forall i, j :: 0 <= i < j < |rules| && RuleIsFor(p, imagePath, rules[i]) ==> !RuleIsFor(p, imagePath, rules[j])
  }

  /** Removing the one rule for a path leaves no rule for it. */
  lemma RemovingTheOnlyRule(p: Platform, rules: seq<ProgramRule>, imagePath: string)
    requires AtMostOneRuleFor(p, rules, imagePath)
    requires FindProgramRule(p, rules, imagePath).Some?
    ensures FindProgramRule(p, RemoveFirst(rules, rules[FindProgramRule(p, rules, imagePath).value]), imagePath).None?
  {
    var k := FindProgramRule(p, rules, imagePath).value;
    var x := rules[k];
    var rest := RemoveFirst(rules, x);
    forall j | 0 <= j < |rules| && j != k
      ensures rules[j] != x
    {
      if k < j {
        assert RuleIsFor(p, imagePath, rules[k]) ==> !RuleIsFor(p, imagePath, rules[j]);
      }
    }
    CountOnePosition(rules, k);
    assert multiset(rest)[x] == 0;
    forall j | 0 <= j < |rest|
      ensures !RuleIsFor(p, imagePath, rest[j])
    {
      var y := rest[j];
      assert y in multiset(rest);
      assert y in rules;
      var i :| 0 <= i < |rules| && rules[i] == y;
      assert i != k;
      if k < i {
        assert RuleIsFor(p, imagePath, rules[k]) ==> !RuleIsFor(p, imagePath, rules[i]);
      }
    }
  }

  /** An element found at only one position occurs once. */
  lemma {:induction false} CountOnePosition(rules: seq<ProgramRule>, k: nat)
    requires k < |rules|
    requires forall j :: 0 <= j < |rules| && j != k ==> rules[j] != rules[k]
    ensures multiset(rules)[rules[k]] == 1
  {
    var x := rules[k];
    var front, back := rules[..k], rules[k + 1..];
    assert rules == front + [x] + back;
    assert x !in front && x !in back by {
      forall j | 0 <= j < |front| ensures front[j] != x { assert front[j] == rules[j]; }
      forall j | 0 <= j < |back| ensures back[j] != x { assert back[j] == rules[k + 1 + j]; }
    }
    assert multiset(rules) == multiset(front) + multiset{x} + multiset(back);
  }

  /** The rule is the one a lookup of its own path finds. */
  predicate IsFirstFor(p: Platform, rules: seq<ProgramRule>, rule: ProgramRule)
  {
    var k := FindProgramRule(p, rules, rule.programPath);
    k.Some? && rules[k.value] == rule
  }

  /** Every rule of the list is the one a lookup of its own path finds: no two rules are for equal paths. */
  predicate OneRulePerPath(p: Platform, rules: seq<ProgramRule>)
  {
    forall i :: 0 <= i < |rules| ==> FindProgramRule(p, rules, rules[i].programPath) == Some(i)
  }

  /** The rule a lookup finds is found again by a lookup of its own path; a rule of the list always has one. */
  lemma FirstRuleFindsItself(p: Platform, rules: seq<ProgramRule>, imagePath: string)
    ensures FindProgramRule(p, rules, imagePath).Some? ==>
      FindProgramRule(p, rules, rules[FindProgramRule(p, rules, imagePath).value].programPath) == FindProgramRule(p, rules, imagePath)
    ensures forall r :: r in rules ==> FindProgramRule(p, rules, r.programPath).Some?
  {
    RulesAreFound(p, rules);
    var k := FindProgramRule(p, rules, imagePath);
    if k.Some? {
      var q := rules[k.value].programPath;
      OrdinalPathsEqual(p, q, q, q);
      assert RuleIsFor(p, q, rules[k.value]);
      var m := FindProgramRule(p, rules, q);
      assert m.Some? && m.value <= k.value;
      if m.value < k.value {
        OrdinalPathsEqual(p, rules[m.value].programPath, q, imagePath);
        assert RuleIsFor(p, imagePath, rules[m.value]);
        assert false;
      }
      assert m == k;
    }
  }

  /** A lookup of the path of a rule of the list finds a rule. */
  lemma RulesAreFound(p: Platform, rules: seq<ProgramRule>)
    ensures forall r :: r in rules ==> FindProgramRule(p, rules, r.programPath).Some?
  {
    forall r | r in rules
      ensures FindProgramRule(p, rules, r.programPath).Some?
    {
      var i :| 0 <= i < |rules| && rules[i] == r;
      OrdinalPathsEqual(p, r.programPath, r.programPath, r.programPath);
      assert RuleIsFor(p, r.programPath, rules[i]);
    }
  }

  /** Under OneRulePerPath every rule of the list is the first for its path. */
  lemma OneRulePerPathFirst(p: Platform, rules: seq<ProgramRule>, i: nat)
    requires OneRulePerPath(p, rules) && i < |rules|
    ensures IsFirstFor(p, rules, rules[i])
  {
  }

  /** The first rule for the path has a mask other than the given one: storing it there changes the mask. */
  predicate FirstRuleDiffers(p: Platform, rules: seq<ProgramRule>, imagePath: string, m: LogicalProcessorMask)
    reads rules
  {
    var k := FindProgramRule(p, rules, imagePath);
    k.Some? && rules[k.value].mask != m
  }

  /**
   * How far a Mask assignment is from the end of the re-entry it causes: none for the same mask,
   * one more UpdateOrAddProgramRule for the first rule of its path, two for any other rule (whose
   * path's first rule may change as well).
   */
  function SetterRank(p: Platform, rules: seq<ProgramRule>, rule: ProgramRule, value: LogicalProcessorMask): nat
    reads rule
  {
    if rule.mask == value then 0 else if IsFirstFor(p, rules, rule) then 1 else 2
  }

  // ---------------------------------------------------------------------------------------------
  // Running processes and rule lookups

  /**
   * ProcessesTabViewModel.RunningProcesses as the rule code reaches it: the image path of each
   * entry, the outcome SetMask(mask, false) of an entry reports, and the calls made so far.
   */
  class ProcessList {
    const imagePaths: seq<string>
    const setMaskSucceeds: (nat, LogicalProcessorMask) -> bool
    var setMaskCalls: seq<(nat, LogicalProcessorMask)>

    constructor (imagePaths: seq<string>, setMaskSucceeds: (nat, LogicalProcessorMask) -> bool)
      ensures this.imagePaths == imagePaths && this.setMaskSucceeds == setMaskSucceeds
      ensures setMaskCalls == []
    {
      this.imagePaths := imagePaths;
      this.setMaskSucceeds := setMaskSucceeds;
      setMaskCalls := [];
    }

    /** ProcessListEntryViewModel.SetMask on the entry at the index: recorded, with its outcome. */
    method SetMask(index: nat, mask: LogicalProcessorMask) returns (ok: bool)
      modifies this
      ensures setMaskCalls == old(setMaskCalls) + [(index, mask)]
      ensures ok == setMaskSucceeds(index, mask)
    {
      setMaskCalls := setMaskCalls + [(index, mask)];
      ok := setMaskSucceeds(index, mask);
    }
  }

  /** The positions below k of the processes whose image path equals the path. */
  function ProcessesOn(p: Platform, paths: seq<string>, imagePath: string, k: nat): seq<nat>
    requires k <= |paths|
  {
    if k == 0 then []
    else ProcessesOn(p, paths, imagePath, k - 1) + (if PathsEqual(p, paths[k - 1], imagePath) then [k - 1] else [])
  }

  /** ProcessesOn holds exactly the positions of the path's processes, in increasing order. */
  lemma {:induction false} ProcessesOnSpec(p: Platform, paths: seq<string>, imagePath: string, k: nat)
    requires k <= |paths|
    ensures forall i: nat :: i in ProcessesOn(p, paths, imagePath, k) <==> i < k && PathsEqual(p, paths[i], imagePath)
    ensures forall a, b :: 0 <= a < b < |ProcessesOn(p, paths, imagePath, k)| ==>
      ProcessesOn(p, paths, imagePath, k)[a] < ProcessesOn(p, paths, imagePath, k)[b]
  {
    if k > 0 {
      ProcessesOnSpec(p, paths, imagePath, k - 1);
      var earlier := ProcessesOn(p, paths, imagePath, k - 1);
      forall a | 0 <= a < |earlier| ensures earlier[a] < k - 1 {
        assert earlier[a] in earlier;
      }
    }
  }

  /** The processes of the list that run the path. */
  function AllProcessesOn(p: Platform, procs: ProcessList, imagePath: string): seq<nat>
  {
    ProcessesOn(p, procs.imagePaths, imagePath, |procs.imagePaths|)
  }

  /** Two equal paths are run by the same processes. */
  lemma {:induction false} ProcessesOnAgree(p: Platform, paths: seq<string>, a: string, b: string, k: nat)
    requires PathsEqual(p, a, b) && k <= |paths|
    ensures ProcessesOn(p, paths, a, k) == ProcessesOn(p, paths, b, k)
  {
    if k > 0 {
      ProcessesOnAgree(p, paths, a, b, k - 1);
      OrdinalPathsEqual(p, paths[k - 1], a, b);
      OrdinalPathsEqual(p, paths[k - 1], b, a);
    }
  }

  /** One SetMask call with the mask for each of the processes, in order. */
  function CallsWith(indices: seq<nat>, mask: LogicalProcessorMask): (r: seq<(nat, LogicalProcessorMask)>)
    ensures |r| == |indices|
    ensures forall j :: 0 <= j < |r| ==> r[j] == (indices[j], mask)
  {
    if indices == [] then [] else CallsWith(indices[..|indices| - 1], mask) + [(indices[|indices| - 1], mask)]
  }

  /** Each of the processes reports success for the mask. */
  predicate AllSucceed(succeeds: (nat, LogicalProcessorMask) -> bool, indices: seq<nat>, mask: LogicalProcessorMask)
  {
    indices == [] || (AllSucceed(succeeds, indices[..|indices| - 1], mask) && succeeds(indices[|indices| - 1], mask))
  }

  /** AllSucceed says that every one of the processes reports success. */
  lemma {:induction false} AllSucceedMeans(succeeds: (nat, LogicalProcessorMask) -> bool, indices: seq<nat>,
                                           mask: LogicalProcessorMask)
    ensures AllSucceed(succeeds, indices, mask) <==> forall j :: 0 <= j < |indices| ==> succeeds(indices[j], mask)
  {
    if indices != [] {
      var front := indices[..|indices| - 1];
      AllSucceedMeans(succeeds, front, mask);
      assert forall j :: 0 <= j < |front| ==> front[j] == indices[j];
    }
  }

  /** The template FindRuleTemplate returns for the path, or null. */
  function FindRuleTemplate(p: Platform, templates: seq<RuleTemplate>, imagePath: string): RuleTemplate?
    reads templates
  {
    RH.TemplateFor(p, templates, imagePath)
  }

  /**
   * The mask a lookup yields: the first program rule's, else the first matching template's (the
   * mask the rule GetProgramRule then creates receives), else NoMask.
   */
  function LookupMask(p: Platform, rules: seq<ProgramRule>, templates: seq<RuleTemplate>,
                      noMask: LogicalProcessorMask, imagePath: string): LogicalProcessorMask
    reads rules, templates
  {
    var k := FindProgramRule(p, rules, imagePath);
    if k.Some? then rules[k.value].mask
    else
      var t := FindRuleTemplate(p, templates, imagePath);
      if t != null then t.mask else noMask
  }

  /** A rule as GetProgramRule creates it from a template. */
  predicate CreatedFrom(rule: ProgramRule, imagePath: string, t: RuleTemplate)
    reads rule, t
  {
    rule.programPath == imagePath && rule.mask == t.mask && rule.matchingRuleTemplate == t && rule.ListensToItsTemplate()
  }

  /**
   * The rule list after GetProgramRule on the list before: unchanged when a rule exists or no
   * template matches, otherwise the list with one rule created from the first matching template.
   */
  predicate LookedUp(p: Platform, templates: seq<RuleTemplate>, before: seq<ProgramRule>,
                     after: seq<ProgramRule>, imagePath: string)
    reads after, templates
  {
    var t := FindRuleTemplate(p, templates, imagePath);
    if FindProgramRule(p, before, imagePath).Some? || t == null then after == before
    else
      && |after| == |before| + 1
      && after[..|before|] == before
      && CreatedFrom(after[|before|], imagePath, t)
  }

  /**
   * GetProgramRule: the first rule for the path if there is one; otherwise, if a template
   * matches, a new rule with the template's mask and MatchingRuleTemplate, appended to the rules;
   * otherwise null. The rule returned is the one a further lookup of the path finds.
   */
  method GetProgramRule(config: AppConfig, p: Platform, imagePath: string) returns (rule: ProgramRule?)
    modifies config`programRules
    ensures config.ruleTemplates == old(config.ruleTemplates)
    ensures config.logicalProcessorMasks == old(config.logicalProcessorMasks)
    ensures LookedUp(p, config.ruleTemplates, old(config.programRules), config.programRules, imagePath)
    ensures forall r :: r in config.programRules ==> r in old(config.programRules) || fresh(r)
    ensures rule == null <==> LookupMaskIsNoMask(p, old(config.programRules), config.ruleTemplates, imagePath)
    ensures rule != null ==>
      && FindProgramRule(p, config.programRules, imagePath).Some?
      && config.programRules[FindProgramRule(p, config.programRules, imagePath).value] == rule
    ensures var k := FindProgramRule(p, old(config.programRules), imagePath);
      && (k.Some? ==> rule == old(config.programRules)[k.value])
      && (k.None? && rule != null ==> rule == config.programRules[|old(config.programRules)|])
  {
    var k := FindProgramRule(p, config.programRules, imagePath);
    if k.Some? {
      return config.programRules[k.value];
    }
    var t := FindRuleTemplate(p, config.ruleTemplates, imagePath);
    if t != null {
      var newRule := NewRuleFrom(imagePath, t);
      assert FindRuleTemplate(p, config.ruleTemplates, imagePath) == t;
      OrdinalPathsEqual(p, imagePath, imagePath, imagePath);
      FindAfterAppend(p, config.programRules, newRule, imagePath);
      config.programRules := config.programRules + [newRule];
      return newRule;
    }
    return null;
  }

  /** `new ProgramRule(imagePath, t.Mask) { MatchingRuleTemplate = t }`: a rule created from a template. */
  method NewRuleFrom(imagePath: string, t: RuleTemplate) returns (rule: ProgramRule)
    ensures fresh(rule) && CreatedFrom(rule, imagePath, t)
  {
    rule := new ProgramRule(imagePath, t.mask);
    rule.SetMatchingRuleTemplate(t);
  }

  /** Neither a rule nor a template is there for the path: the lookup falls back to NoMask. */
  predicate LookupMaskIsNoMask(p: Platform, rules: seq<ProgramRule>, templates: seq<RuleTemplate>, imagePath: string)
    reads templates
  {
    FindProgramRule(p, rules, imagePath).None? && FindRuleTemplate(p, templates, imagePath) == null
  }

  /** Calls for one more process extend the calls for the earlier ones. */
  lemma CallsWithSnoc(indices: seq<nat>, i: nat, mask: LogicalProcessorMask)
    ensures CallsWith(indices + [i], mask) == CallsWith(indices, mask) + [(i, mask)]
  {
    assert (indices + [i])[..|indices|] == indices;
  }

  /**
   * GetMaskFromPath: the mask of the rule GetProgramRule gives for the path, or NoMask. A lookup
   * of the path in the new state yields the same mask.
   */
  method GetMaskFromPath(config: AppConfig, p: Platform, noMask: LogicalProcessorMask, imagePath: string)
    returns (mask: LogicalProcessorMask)
    modifies config`programRules
    ensures config.ruleTemplates == old(config.ruleTemplates)
    ensures config.logicalProcessorMasks == old(config.logicalProcessorMasks)
    ensures LookedUp(p, config.ruleTemplates, old(config.programRules), config.programRules, imagePath)
    ensures forall r :: r in config.programRules ==> r in old(config.programRules) || fresh(r)
    ensures mask == old(LookupMask(p, config.programRules, config.ruleTemplates, noMask, imagePath))
    ensures mask == LookupMask(p, config.programRules, config.ruleTemplates, noMask, imagePath)
    ensures LookupMask(p, old(config.programRules), config.ruleTemplates, noMask, imagePath) == mask
    ensures FindRuleTemplate(p, config.ruleTemplates, imagePath) == old(FindRuleTemplate(p, config.ruleTemplates, imagePath))
  {
    var rule := GetProgramRule(config, p, imagePath);
    if rule == null {
      return noMask;
    }
    return rule.mask;
  }

  /**
   * ApplyRulesToPath: look the path up (GetProgramRule may create a rule from a template) and
   * call SetMask with the mask found on every running process of the path, in list order,
   * every one of them whatever the earlier ones reported. The result is whether all succeeded.
   */
  method ApplyRulesToPath(config: AppConfig, p: Platform, noMask: LogicalProcessorMask, procs: ProcessList,
                          imagePath: string) returns (result: bool)
    modifies config`programRules, procs
    ensures config.ruleTemplates == old(config.ruleTemplates)
    ensures config.logicalProcessorMasks == old(config.logicalProcessorMasks)
    ensures LookedUp(p, config.ruleTemplates, old(config.programRules), config.programRules, imagePath)
    ensures forall r :: r in config.programRules ==> r in old(config.programRules) || fresh(r)
    ensures procs.setMaskCalls == old(procs.setMaskCalls)
      + CallsWith(AllProcessesOn(p, procs, imagePath), old(LookupMask(p, config.programRules, config.ruleTemplates, noMask, imagePath)))
    ensures result <==> AllSucceed(procs.setMaskSucceeds, AllProcessesOn(p, procs, imagePath),
                                   old(LookupMask(p, config.programRules, config.ruleTemplates, noMask, imagePath)))
    ensures LookupMask(p, old(config.programRules), config.ruleTemplates, noMask, imagePath)
         == old(LookupMask(p, config.programRules, config.ruleTemplates, noMask, imagePath))
    ensures FindRuleTemplate(p, config.ruleTemplates, imagePath) == old(FindRuleTemplate(p, config.ruleTemplates, imagePath))
  {
    var mask := GetMaskFromPath(config, p, noMask, imagePath);
    result := SetMaskOnProcessesOf(p, procs, imagePath, mask);
  }

  /** The loop of ApplyRulesToPath: SetMask on every process of the path, and whether all succeeded. */
  method SetMaskOnProcessesOf(p: Platform, procs: ProcessList, imagePath: string, mask: LogicalProcessorMask)
    returns (result: bool)
    modifies procs
    ensures procs.setMaskCalls == old(procs.setMaskCalls) + CallsWith(AllProcessesOn(p, procs, imagePath), mask)
    ensures result <==> AllSucceed(procs.setMaskSucceeds, AllProcessesOn(p, procs, imagePath), mask)
  {
    ghost var before := procs.setMaskCalls;
    result := true;
    var i := 0;
    while i < |procs.imagePaths|
      invariant i <= |procs.imagePaths|
      invariant procs.setMaskCalls == before + CallsWith(ProcessesOn(p, procs.imagePaths, imagePath, i), mask)
      invariant result <==> AllSucceed(procs.setMaskSucceeds, ProcessesOn(p, procs.imagePaths, imagePath, i), mask)
    {
      result := SetMaskStep(p, procs, imagePath, mask, i, before, result);
      i := i + 1;
    }
  }

  /** One pass of the loop of ApplyRulesToPath: SetMask on the process at the index if it runs the path. */
  method SetMaskStep(p: Platform, procs: ProcessList, imagePath: string, mask: LogicalProcessorMask, i: nat,
                     ghost before: seq<(nat, LogicalProcessorMask)>, result0: bool) returns (result: bool)
    requires i < |procs.imagePaths|
    requires procs.setMaskCalls == before + CallsWith(ProcessesOn(p, procs.imagePaths, imagePath, i), mask)
    requires result0 <==> AllSucceed(procs.setMaskSucceeds, ProcessesOn(p, procs.imagePaths, imagePath, i), mask)
    modifies procs
    ensures procs.setMaskCalls == before + CallsWith(ProcessesOn(p, procs.imagePaths, imagePath, i + 1), mask)
    ensures result <==> AllSucceed(procs.setMaskSucceeds, ProcessesOn(p, procs.imagePaths, imagePath, i + 1), mask)
  {
    ghost var calls0 := procs.setMaskCalls;
    result := result0;
    if PathsEqual(p, procs.imagePaths[i], imagePath) {
      var ok := procs.SetMask(i, mask);
      result := ok && result;
    }
    OneMoreStep(p, procs.imagePaths, imagePath, i, mask, procs.setMaskSucceeds, before, calls0, procs.setMaskCalls,
                result0, result);
  }

  /** The loop state of ApplyRulesToPath after one more pass, in terms of the state before it. */
  lemma OneMoreStep(p: Platform, paths: seq<string>, imagePath: string, i: nat, mask: LogicalProcessorMask,
                    succeeds: (nat, LogicalProcessorMask) -> bool, before: seq<(nat, LogicalProcessorMask)>,
                    calls0: seq<(nat, LogicalProcessorMask)>, calls: seq<(nat, LogicalProcessorMask)>,
                    result0: bool, result: bool)
    requires i < |paths|
    requires calls0 == before + CallsWith(ProcessesOn(p, paths, imagePath, i), mask)
    requires result0 <==> AllSucceed(succeeds, ProcessesOn(p, paths, imagePath, i), mask)
    requires PathsEqual(p, paths[i], imagePath) ==> calls == calls0 + [(i, mask)] && result == (succeeds(i, mask) && result0)
    requires !PathsEqual(p, paths[i], imagePath) ==> calls == calls0 && result == result0
    ensures calls == before + CallsWith(ProcessesOn(p, paths, imagePath, i + 1), mask)
    ensures result <==> AllSucceed(succeeds, ProcessesOn(p, paths, imagePath, i + 1), mask)
  {
    OneMoreProcess(p, paths, imagePath, i, mask, succeeds);
    if PathsEqual(p, paths[i], imagePath) {
      assert calls == before + (CallsWith(ProcessesOn(p, paths, imagePath, i), mask) + [(i, mask)]);
    }
  }

  /** One more process: its call and its outcome join those of the earlier ones if it runs the path. */
  lemma OneMoreProcess(p: Platform, paths: seq<string>, imagePath: string, i: nat, mask: LogicalProcessorMask,
                       succeeds: (nat, LogicalProcessorMask) -> bool)
    requires i < |paths|
    ensures PathsEqual(p, paths[i], imagePath) ==>
      && CallsWith(ProcessesOn(p, paths, imagePath, i + 1), mask) == CallsWith(ProcessesOn(p, paths, imagePath, i), mask) + [(i, mask)]
      && (AllSucceed(succeeds, ProcessesOn(p, paths, imagePath, i + 1), mask)
          <==> AllSucceed(succeeds, ProcessesOn(p, paths, imagePath, i), mask) && succeeds(i, mask))
    ensures !PathsEqual(p, paths[i], imagePath) ==> ProcessesOn(p, paths, imagePath, i + 1) == ProcessesOn(p, paths, imagePath, i)
  {
    var earlier := ProcessesOn(p, paths, imagePath, i);
    if PathsEqual(p, paths[i], imagePath) {
      CallsWithSnoc(earlier, i, mask);
      assert (earlier + [i])[..|earlier|] == earlier;
    }
  }

  // ---------------------------------------------------------------------------------------------
  // Operations on the rules

  /** UpdateOrAddProgramRule drops the rule to NoMask rather than store it: no template with a real mask backs it. */
  predicate DropsNoMaskRule(p: Platform, templates: seq<RuleTemplate>, imagePath: string, newMask: LogicalProcessorMask)
    reads templates
  {
    var t := FindRuleTemplate(p, templates, imagePath);
    newMask.isNoMask && (t == null || t.mask.isNoMask)
  }

  /** The rule list UpdateOrAddProgramRule leaves before it applies the rules in the NoMask case. */
  function AfterNoMaskRemoval(p: Platform, rules: seq<ProgramRule>, imagePath: string, removeRedundantNoMask: bool)
    : (r: seq<ProgramRule>)
    ensures forall rule :: rule in r ==> rule in rules
  {
    var k := FindProgramRule(p, rules, imagePath);
    if k.Some? && removeRedundantNoMask then RemoveFirst(rules, rules[k.value]) else rules
  }

  /**
   * UpdateOrAddProgramRule: the process at the path was given a new mask.
   *  - An empty path changes nothing and reports false.
   *  - The existing rule for the path, if any, gets the matching template as MatchingRuleTemplate.
   *  - A NoMask not backed by a template with a real mask is not stored: the existing rule is
   *    removed when removeRedundantNoMask is set, and the path is re-applied (which may create a
   *    rule from a NoMask template).
   *  - Any other mask is stored: the existing rule gets it, or a new rule is appended; every
   *    process of the path is then given that mask, and a lookup of the path yields it. When the
   *    existing rule had another mask, its Mask setter first re-enters this method for the rule's
   *    own path (OnMaskChanged): the processes of the path get the mask twice, and the rule ends
   *    with the template that matches its own path.
   * No rule but the existing one changes, and without removal the rule list stays when a rule
   * exists. The result is whether SetMask succeeded on every process of the path in the last pass.
   */
  method UpdateOrAddProgramRule(config: AppConfig, p: Platform, noMask: LogicalProcessorMask, procs: ProcessList,
                                imagePath: string, newMask: LogicalProcessorMask, removeRedundantNoMask: bool)
    returns (result: bool)
    modifies config, config.programRules, procs
    decreases if FirstRuleDiffers(p, config.programRules, imagePath, newMask) then 1 else 0, 4
    ensures config.ruleTemplates == old(config.ruleTemplates)
    ensures config.logicalProcessorMasks == old(config.logicalProcessorMasks)
    ensures forall r :: r in config.programRules ==> r in old(config.programRules) || fresh(r)
    ensures var k := FindProgramRule(p, old(config.programRules), imagePath);
      forall r :: r in old(config.programRules) && (k.None? || r != old(config.programRules)[k.value]) ==> unchanged(r)
    ensures imagePath == [] ==> !result && unchanged(config, procs) && unchanged(config.programRules)
    ensures var k := FindProgramRule(p, old(config.programRules), imagePath);
      var drops := DropsNoMaskRule(p, config.ruleTemplates, imagePath, newMask);
      var reenters := !drops && old(FirstRuleDiffers(p, config.programRules, imagePath, newMask));
      imagePath != [] && k.Some? ==>
        var rule := old(config.programRules)[k.value];
        && (!removeRedundantNoMask ==> config.programRules == old(config.programRules))
        && rule.mask == (if drops then old(rule.mask) else newMask)
        && rule.matchingRuleTemplate
           == FindRuleTemplate(p, config.ruleTemplates, if reenters then rule.programPath else imagePath)
    ensures imagePath != [] && !DropsNoMaskRule(p, config.ruleTemplates, imagePath, newMask) ==>
      var again := if old(FirstRuleDiffers(p, config.programRules, imagePath, newMask))
                   then CallsWith(AllProcessesOn(p, procs, imagePath), newMask) else [];
      && StoredMask(p, old(config.programRules), config.programRules, config.ruleTemplates, noMask, imagePath, newMask)
      && procs.setMaskCalls == old(procs.setMaskCalls) + again + CallsWith(AllProcessesOn(p, procs, imagePath), newMask)
      && (result <==> AllSucceed(procs.setMaskSucceeds, AllProcessesOn(p, procs, imagePath), newMask))
    ensures imagePath != [] && DropsNoMaskRule(p, config.ruleTemplates, imagePath, newMask) ==>
      var kept := AfterNoMaskRemoval(p, old(config.programRules), imagePath, removeRedundantNoMask);
      var applied := LookupMask(p, kept, config.ruleTemplates, noMask, imagePath);
      && LookedUp(p, config.ruleTemplates, kept, config.programRules, imagePath)
      && procs.setMaskCalls == old(procs.setMaskCalls) + CallsWith(AllProcessesOn(p, procs, imagePath), applied)
      && (result <==> AllSucceed(procs.setMaskSucceeds, AllProcessesOn(p, procs, imagePath), applied))
  {
    if |imagePath| == 0 {
      return false;
    }
    if DropsNoMaskRule(p, config.ruleTemplates, imagePath, newMask) {
      result := DropNoMaskRule(config, p, noMask, procs, imagePath, removeRedundantNoMask);
    } else {
      result := StoreAndApply(config, p, noMask, procs, imagePath, newMask);
    }
  }

  /** The existing rule for the path gets the template that matches the path as MatchingRuleTemplate. */
  method AttachTemplate(config: AppConfig, p: Platform, imagePath: string)
    modifies config.programRules
    ensures var k := FindProgramRule(p, config.programRules, imagePath);
      && (k.Some? ==> config.programRules[k.value].matchingRuleTemplate == FindRuleTemplate(p, config.ruleTemplates, imagePath))
      && (forall r :: r in config.programRules ==> r.mask == old(r.mask))
      && (forall r :: r in config.programRules && (k.None? || r != config.programRules[k.value]) ==> unchanged(r))
  {
    var k := FindProgramRule(p, config.programRules, imagePath);
    if k.Some? {
      var t := FindRuleTemplate(p, config.ruleTemplates, imagePath);
      config.programRules[k.value].SetMatchingRuleTemplate(t);
    }
  }

  /**
   * The rule list after the mask is stored for the path: the first rule for the path, if any,
   * has it and the list is the same; otherwise a new rule for the path with the mask and no
   * template is appended. Either way a lookup of the path yields the mask.
   */
  predicate StoredMask(p: Platform, before: seq<ProgramRule>, after: seq<ProgramRule>, templates: seq<RuleTemplate>,
                       noMask: LogicalProcessorMask, imagePath: string, newMask: LogicalProcessorMask)
    reads after, templates
  {
    var k := FindProgramRule(p, before, imagePath);
    && (k.Some? ==> after == before && after[k.value].mask == newMask)
    && (k.None? ==>
          && |after| == |before| + 1
          && after[..|before|] == before
          && after[|before|].programPath == imagePath
          && after[|before|].mask == newMask
          && after[|before|].matchingRuleTemplate == null)
    && LookupMask(p, after, templates, noMask, imagePath) == newMask
  }

  /** The NoMask case of UpdateOrAddProgramRule: remove the existing rule if asked to, then re-apply the path. */
  method DropNoMaskRule(config: AppConfig, p: Platform, noMask: LogicalProcessorMask, procs: ProcessList,
                        imagePath: string, removeRedundantNoMask: bool) returns (result: bool)
    modifies config`programRules, config.programRules, procs
    ensures config.ruleTemplates == old(config.ruleTemplates)
    ensures config.logicalProcessorMasks == old(config.logicalProcessorMasks)
    ensures forall r :: r in config.programRules ==> r in old(config.programRules) || fresh(r)
    ensures var k := FindProgramRule(p, old(config.programRules), imagePath);
      && (forall r :: r in old(config.programRules) && (k.None? || r != old(config.programRules)[k.value]) ==> unchanged(r))
      && (forall r :: r in old(config.programRules) ==> r.mask == old(r.mask))
      && (k.Some? ==> old(config.programRules)[k.value].matchingRuleTemplate == FindRuleTemplate(p, config.ruleTemplates, imagePath))
    ensures var kept := AfterNoMaskRemoval(p, old(config.programRules), imagePath, removeRedundantNoMask);
      var applied := LookupMask(p, kept, config.ruleTemplates, noMask, imagePath);
      && LookedUp(p, config.ruleTemplates, kept, config.programRules, imagePath)
      && procs.setMaskCalls == old(procs.setMaskCalls) + CallsWith(AllProcessesOn(p, procs, imagePath), applied)
      && (result <==> AllSucceed(procs.setMaskSucceeds, AllProcessesOn(p, procs, imagePath), applied))
  {
    var kept := AfterNoMaskRemoval(p, config.programRules, imagePath, removeRedundantNoMask);
    AttachTemplate(config, p, imagePath);
    ghost var rules := config.programRules;
    result := ReplaceAndApply(config, p, noMask, procs, imagePath, kept, rules);
  }

  /** The rest of the NoMask case: the rule list becomes `kept`, then the path is applied again. */
  method ReplaceAndApply(config: AppConfig, p: Platform, noMask: LogicalProcessorMask, procs: ProcessList,
                         imagePath: string, kept: seq<ProgramRule>, ghost rules: seq<ProgramRule>) returns (result: bool)
    modifies config`programRules, procs
    ensures config.ruleTemplates == old(config.ruleTemplates)
    ensures config.logicalProcessorMasks == old(config.logicalProcessorMasks)
    ensures forall r :: r in config.programRules ==> r in kept || fresh(r)
    ensures forall r :: r in rules ==> unchanged(r)
    ensures FindRuleTemplate(p, config.ruleTemplates, imagePath) == old(FindRuleTemplate(p, config.ruleTemplates, imagePath))
    ensures LookupMask(p, kept, config.ruleTemplates, noMask, imagePath) == old(LookupMask(p, kept, config.ruleTemplates, noMask, imagePath))
    ensures var applied := LookupMask(p, kept, config.ruleTemplates, noMask, imagePath);
      && LookedUp(p, config.ruleTemplates, kept, config.programRules, imagePath)
      && procs.setMaskCalls == old(procs.setMaskCalls) + CallsWith(AllProcessesOn(p, procs, imagePath), applied)
      && (result <==> AllSucceed(procs.setMaskSucceeds, AllProcessesOn(p, procs, imagePath), applied))
  {
    config.programRules := kept;
    ghost var applied := LookupMask(p, kept, config.ruleTemplates, noMask, imagePath);
    result := ApplyRulesToPath(config, p, noMask, procs, imagePath);
    assert applied == LookupMask(p, kept, config.ruleTemplates, noMask, imagePath);
  }

  /**
   * The storing case of UpdateOrAddProgramRule: store the mask, which re-applies it when it
   * changes an existing rule's mask, then apply it to the path's processes.
   */
  method StoreAndApply(config: AppConfig, p: Platform, noMask: LogicalProcessorMask, procs: ProcessList,
                       imagePath: string, newMask: LogicalProcessorMask) returns (result: bool)
    requires imagePath != []
    modifies config, config.programRules, procs
    decreases if FirstRuleDiffers(p, config.programRules, imagePath, newMask) then 1 else 0, 3
    ensures config.ruleTemplates == old(config.ruleTemplates)
    ensures config.logicalProcessorMasks == old(config.logicalProcessorMasks)
    ensures forall r :: r in config.programRules ==> r in old(config.programRules) || fresh(r)
    ensures var k := FindProgramRule(p, old(config.programRules), imagePath);
      && (forall r :: r in old(config.programRules) && (k.None? || r != old(config.programRules)[k.value]) ==> unchanged(r))
      && (k.Some? ==>
            old(config.programRules)[k.value].matchingRuleTemplate
            == FindRuleTemplate(p, config.ruleTemplates,
                 if old(FirstRuleDiffers(p, config.programRules, imagePath, newMask))
                 then old(config.programRules)[k.value].programPath else imagePath))
    ensures StoredMask(p, old(config.programRules), config.programRules, config.ruleTemplates, noMask, imagePath, newMask)
    ensures procs.setMaskCalls == old(procs.setMaskCalls)
      + (if old(FirstRuleDiffers(p, config.programRules, imagePath, newMask))
         then CallsWith(AllProcessesOn(p, procs, imagePath), newMask) else [])
      + CallsWith(AllProcessesOn(p, procs, imagePath), newMask)
    ensures result <==> AllSucceed(procs.setMaskSucceeds, AllProcessesOn(p, procs, imagePath), newMask)
  {
    ghost var before := config.programRules;
    ghost var differs := FirstRuleDiffers(p, before, imagePath, newMask);
    ghost var calls := procs.setMaskCalls;
    StoreMask(config, p, noMask, procs, imagePath, newMask);
    ghost var stored := config.programRules;
    ghost var storedCalls := procs.setMaskCalls;
    assert storedCalls == calls + (if differs then CallsWith(AllProcessesOn(p, procs, imagePath), newMask) else []);
    assert StoredMask(p, before, stored, config.ruleTemplates, noMask, imagePath, newMask);
    result := ApplyRulesToPath(config, p, noMask, procs, imagePath);
    assert config.programRules == stored;
    assert StoredMask(p, before, stored, config.ruleTemplates, noMask, imagePath, newMask);
  }

  /**
   * The existing rule for the path gets the template that matches the path and then the mask
   * through its Mask setter, or a new rule is appended (the constructor raises nothing). A changed
   * mask re-enters UpdateOrAddProgramRule for the rule's own path, which gives the mask to every
   * process of the path and gives the rule the template that matches its own path.
   */
  method StoreMask(config: AppConfig, p: Platform, noMask: LogicalProcessorMask, procs: ProcessList,
                   imagePath: string, newMask: LogicalProcessorMask)
    requires imagePath != []
    modifies config, config.programRules, procs
    decreases if FirstRuleDiffers(p, config.programRules, imagePath, newMask) then 1 else 0, 2
    ensures config.ruleTemplates == old(config.ruleTemplates)
    ensures config.logicalProcessorMasks == old(config.logicalProcessorMasks)
    ensures forall r :: r in config.programRules ==> r in old(config.programRules) || fresh(r)
    ensures var before := old(config.programRules);
      var k := FindProgramRule(p, before, imagePath);
      && (forall r :: r in before && (k.None? || r != before[k.value]) ==> unchanged(r))
      && (k.Some? ==>
            && config.programRules == before && before[k.value].mask == newMask
            && before[k.value].matchingRuleTemplate
               == FindRuleTemplate(p, config.ruleTemplates,
                    if old(FirstRuleDiffers(p, config.programRules, imagePath, newMask))
                    then before[k.value].programPath else imagePath))
      && (k.None? ==>
            && |config.programRules| == |before| + 1
            && config.programRules[..|before|] == before
            && config.programRules[|before|].programPath == imagePath
            && config.programRules[|before|].mask == newMask
            && config.programRules[|before|].matchingRuleTemplate == null)
      && FindProgramRule(p, config.programRules, imagePath).Some?
      && config.programRules[FindProgramRule(p, config.programRules, imagePath).value].mask == newMask
    ensures procs.setMaskCalls == old(procs.setMaskCalls)
      + (if old(FirstRuleDiffers(p, config.programRules, imagePath, newMask))
         then CallsWith(AllProcessesOn(p, procs, imagePath), newMask) else [])
  {
    AttachTemplate(config, p, imagePath);
    var k := FindProgramRule(p, config.programRules, imagePath);
    if k.None? {
      var rule := new ProgramRule(imagePath, newMask);
      OrdinalPathsEqual(p, imagePath, imagePath, imagePath);
      FindAfterAppend(p, config.programRules, rule, imagePath);
      config.programRules := config.programRules + [rule];
    } else {
      var rule := config.programRules[k.value];
      FirstRuleFindsItself(p, config.programRules, imagePath);
      ProcessesOnAgree(p, procs.imagePaths, rule.programPath, imagePath, |procs.imagePaths|);
      AssignMask(config, p, noMask, procs, rule, newMask);
    }
  }

  /**
   * The Mask setter [ObservableProperty] generates for ProgramRule: the same mask changes
   * nothing; another one is stored and OnMaskChanged runs. The rule ends with the mask, every
   * other rule keeps its mask or gets the same one, and the rule list stays when the rule is in
   * it. For the first rule of its path, or an empty path, no other rule changes; with a
   * non-empty path a changed mask gives the rule the template that matches its path and goes to
   * every process of the path.
   */
  method AssignMask(config: AppConfig, p: Platform, noMask: LogicalProcessorMask, procs: ProcessList,
                    rule: ProgramRule, value: LogicalProcessorMask)
    modifies config, config.programRules, rule, procs
    decreases SetterRank(p, config.programRules, rule, value), 1
    ensures old(rule.mask) == value ==> unchanged(config, rule, procs) && unchanged(config.programRules)
    ensures rule.mask == value
    ensures config.ruleTemplates == old(config.ruleTemplates)
    ensures config.logicalProcessorMasks == old(config.logicalProcessorMasks)
    ensures forall r :: r in config.programRules ==> r in old(config.programRules) || fresh(r)
    ensures rule in old(config.programRules) ==> config.programRules == old(config.programRules)
    ensures forall r :: r in old(config.programRules) && r != rule ==> r.mask == old(r.mask) || r.mask == value
    ensures IsFirstFor(p, old(config.programRules), rule) || rule.programPath == [] ==>
      var changed := old(rule.mask) != value && rule.programPath != [];
      && (forall r :: r in old(config.programRules) && r != rule ==> unchanged(r))
      && rule.matchingRuleTemplate
         == (if changed then FindRuleTemplate(p, config.ruleTemplates, rule.programPath) else old(rule.matchingRuleTemplate))
      && procs.setMaskCalls
         == old(procs.setMaskCalls) + (if changed then CallsWith(AllProcessesOn(p, procs, rule.programPath), value) else [])
  {
    if rule.mask != value {
      ghost var rules := config.programRules;
      FirstRuleFindsItself(p, rules, rule.programPath);
      ghost var k := FindProgramRule(p, rules, rule.programPath);
      rule.mask := value;
      OnMaskChanged(config, p, noMask, procs, rule, value);
    }
  }

  /**
   * ProgramRule.OnMaskChanged: the rule's path and its new mask go to UpdateOrAddProgramRule,
   * which keeps a NoMask rule rather than remove it. Only the first rule of the path can change,
   * to the mask, and the rule list stays when the path has a rule. When that first rule already
   * has the mask, it gets the template that matches the path and every process of the path gets
   * the mask once.
   */
  method OnMaskChanged(config: AppConfig, p: Platform, noMask: LogicalProcessorMask, procs: ProcessList,
                       rule: ProgramRule, value: LogicalProcessorMask)
    modifies config, config.programRules, procs
    decreases if FirstRuleDiffers(p, config.programRules, rule.programPath, value) then 1 else 0, 5
    ensures config.ruleTemplates == old(config.ruleTemplates)
    ensures config.logicalProcessorMasks == old(config.logicalProcessorMasks)
    ensures forall r :: r in config.programRules ==> r in old(config.programRules) || fresh(r)
    ensures rule.programPath == [] ==> unchanged(config, procs) && unchanged(config.programRules)
    ensures var k := FindProgramRule(p, old(config.programRules), rule.programPath);
      && (forall r :: r in old(config.programRules) && (k.None? || r != old(config.programRules)[k.value]) ==> unchanged(r))
      && (rule.programPath != [] && k.Some? ==>
            var first := old(config.programRules)[k.value];
            && config.programRules == old(config.programRules)
            && (first.mask == old(first.mask) || first.mask == value))
    ensures old(rule.mask) == value ==> rule.mask == value
    ensures rule.programPath != [] && IsFirstFor(p, old(config.programRules), rule) && old(rule.mask) == value ==>
      && rule.matchingRuleTemplate == FindRuleTemplate(p, config.ruleTemplates, rule.programPath)
      && procs.setMaskCalls == old(procs.setMaskCalls) + CallsWith(AllProcessesOn(p, procs, rule.programPath), value)
  {
    ghost var rules := config.programRules;
    FirstRuleFindsItself(p, rules, rule.programPath);
    ghost var k := FindProgramRule(p, rules, rule.programPath);
    var ok := UpdateOrAddProgramRule(config, p, noMask, procs, rule.programPath, value, false);
    assert rule in rules ==> k.Some?;
  }

  /**
   * RemoveProgramRule: the user removes a rule on the Rules tab.
   *  - A rule without a template gets NoMask through its Mask setter and leaves the list.
   *  - A rule with a template stays; when a process of its path runs, it gets the template's mask
   *    through its Mask setter, otherwise nothing changes.
   * A changed mask re-enters UpdateOrAddProgramRule (OnMaskChanged): for the first rule of its
   * path, with a non-empty path, no other rule changes, the rule gets the template that matches
   * its path, and every process of the path gets the new mask.
   */
  method RemoveProgramRule(config: AppConfig, p: Platform, noMask: LogicalProcessorMask, procs: ProcessList,
                           programRule: ProgramRule)
    modifies config, config.programRules, programRule, procs
    ensures config.ruleTemplates == old(config.ruleTemplates)
    ensures config.logicalProcessorMasks == old(config.logicalProcessorMasks)
    ensures forall r :: r in config.programRules ==> r in old(config.programRules) || fresh(r)
    ensures old(programRule.matchingRuleTemplate) == null ==>
      && programRule.mask == noMask
      && (programRule in old(config.programRules) ==> config.programRules == RemoveFirst(old(config.programRules), programRule))
    ensures old(programRule.matchingRuleTemplate) != null ==>
      && (programRule in old(config.programRules) ==> config.programRules == old(config.programRules))
      && (RunsSomewhere(p, procs, programRule.programPath) ==> programRule.mask == old(programRule.matchingRuleTemplate.mask))
      && (!RunsSomewhere(p, procs, programRule.programPath) ==>
            unchanged(config, procs, programRule) && unchanged(config.programRules))
    ensures var template := old(programRule.matchingRuleTemplate);
      var target := if template == null then noMask else old(template.mask);
      var changed := && old(programRule.mask) != target && programRule.programPath != []
                     && (template == null || RunsSomewhere(p, procs, programRule.programPath));
      IsFirstFor(p, old(config.programRules), programRule) ==>
        && (forall r :: r in old(config.programRules) && r != programRule ==> unchanged(r))
        && programRule.matchingRuleTemplate
           == (if changed then FindRuleTemplate(p, config.ruleTemplates, programRule.programPath) else template)
        && procs.setMaskCalls == old(procs.setMaskCalls)
             + (if changed then CallsWith(AllProcessesOn(p, procs, programRule.programPath), target) else [])
  {
    if programRule.matchingRuleTemplate == null {
      ClearAndRemove(config, p, noMask, procs, programRule);
    } else {
      ApplyTemplateIfRunning(config, p, noMask, procs, programRule);
    }
  }

  /** The untemplated case of RemoveProgramRule: the rule gets NoMask through its Mask setter, then leaves the list. */
  method ClearAndRemove(config: AppConfig, p: Platform, noMask: LogicalProcessorMask, procs: ProcessList,
                        programRule: ProgramRule)
    modifies config, config.programRules, programRule, procs
    ensures config.ruleTemplates == old(config.ruleTemplates)
    ensures config.logicalProcessorMasks == old(config.logicalProcessorMasks)
    ensures forall r :: r in config.programRules ==> r in old(config.programRules) || fresh(r)
    ensures programRule.mask == noMask
    ensures programRule in old(config.programRules) ==> config.programRules == RemoveFirst(old(config.programRules), programRule)
    ensures var changed := old(programRule.mask) != noMask && programRule.programPath != [];
      IsFirstFor(p, old(config.programRules), programRule) ==>
        && (forall r :: r in old(config.programRules) && r != programRule ==> unchanged(r))
        && programRule.matchingRuleTemplate
           == (if changed then FindRuleTemplate(p, config.ruleTemplates, programRule.programPath)
               else old(programRule.matchingRuleTemplate))
        && procs.setMaskCalls == old(procs.setMaskCalls)
             + (if changed then CallsWith(AllProcessesOn(p, procs, programRule.programPath), noMask) else [])
  {
    ghost var rules := config.programRules;
    AssignMask(config, p, noMask, procs, programRule, noMask);
    ghost var kept := config.programRules;
    assert programRule in rules ==> kept == rules;
    assert forall r :: r in kept ==> r in rules || fresh(r);
    config.programRules := RemoveFirst(config.programRules, programRule);
    assert forall r :: r in config.programRules ==> r in kept;
  }

  /** The templated case of RemoveProgramRule: the first running process of the path gives the rule its template's mask. */
  method ApplyTemplateIfRunning(config: AppConfig, p: Platform, noMask: LogicalProcessorMask, procs: ProcessList,
                                programRule: ProgramRule)
    requires programRule.matchingRuleTemplate != null
    modifies config, config.programRules, programRule, procs
    ensures config.ruleTemplates == old(config.ruleTemplates)
    ensures config.logicalProcessorMasks == old(config.logicalProcessorMasks)
    ensures forall r :: r in config.programRules ==> r in old(config.programRules) || fresh(r)
    ensures programRule in old(config.programRules) ==> config.programRules == old(config.programRules)
    ensures RunsSomewhere(p, procs, programRule.programPath) ==> programRule.mask == old(programRule.matchingRuleTemplate.mask)
    ensures !RunsSomewhere(p, procs, programRule.programPath) ==>
      unchanged(config, procs, programRule) && unchanged(config.programRules)
    ensures var template := old(programRule.matchingRuleTemplate);
      var changed := && old(programRule.mask) != old(template.mask) && programRule.programPath != []
                     && RunsSomewhere(p, procs, programRule.programPath);
      IsFirstFor(p, old(config.programRules), programRule) ==>
        && (forall r :: r in old(config.programRules) && r != programRule ==> unchanged(r))
        && programRule.matchingRuleTemplate
           == (if changed then FindRuleTemplate(p, config.ruleTemplates, programRule.programPath) else template)
        && procs.setMaskCalls == old(procs.setMaskCalls)
             + (if changed then CallsWith(AllProcessesOn(p, procs, programRule.programPath), old(template.mask)) else [])
  {
    var i := 0;
    while i < |procs.imagePaths|
      invariant i <= |procs.imagePaths|
      invariant forall j :: 0 <= j < i ==> !PathsEqual(p, procs.imagePaths[j], programRule.programPath)
      invariant unchanged(programRule, config, procs) && unchanged(config.programRules)
    {
      if PathsEqual(p, procs.imagePaths[i], programRule.programPath) {
        AssignMask(config, p, noMask, procs, programRule, programRule.matchingRuleTemplate.mask);
        return;
      }
      i := i + 1;
    }
  }

  /** Some running process has an image path equal to the path. */
  predicate RunsSomewhere(p: Platform, procs: ProcessList, path: string)
  {
    exists i :: 0 <= i < |procs.imagePaths| && PathsEqual(p, procs.imagePaths[i], path)
  }

  // ---------------------------------------------------------------------------------------------
  // Removing every rule of a mask

  /** The rules that do not use the mask, in order. */
  function KeepRules(rules: seq<ProgramRule>, mask: LogicalProcessorMask): seq<ProgramRule>
    reads rules
  {
    if rules == [] then [] else (if rules[0].mask == mask then [] else [rules[0]]) + KeepRules(rules[1..], mask)
  }

  /** KeepRules keeps exactly the rules that do not use the mask. */
  lemma {:induction false} KeepRulesSpec(rules: seq<ProgramRule>, mask: LogicalProcessorMask)
    ensures forall i :: 0 <= i < |KeepRules(rules, mask)| ==>
      KeepRules(rules, mask)[i] in rules && KeepRules(rules, mask)[i].mask != mask
    ensures forall i :: 0 <= i < |rules| && rules[i].mask != mask ==> rules[i] in KeepRules(rules, mask)
  {
    if rules != [] {
      KeepRulesSpec(rules[1..], mask);
      assert forall i :: 0 < i < |rules| ==> rules[i] == rules[1..][i - 1];
    }
  }

  /** The templates that do not use the mask, in order. */
  function KeepTemplates(templates: seq<RuleTemplate>, mask: LogicalProcessorMask): seq<RuleTemplate>
    reads templates
  {
    if templates == [] then [] else (if templates[0].mask == mask then [] else [templates[0]]) + KeepTemplates(templates[1..], mask)
  }

  /** KeepTemplates keeps exactly the templates that do not use the mask. */
  lemma {:induction false} KeepTemplatesSpec(templates: seq<RuleTemplate>, mask: LogicalProcessorMask)
    ensures forall i :: 0 <= i < |KeepTemplates(templates, mask)| ==>
      KeepTemplates(templates, mask)[i] in templates && KeepTemplates(templates, mask)[i].mask != mask
    ensures forall i :: 0 <= i < |templates| && templates[i].mask != mask ==> templates[i] in KeepTemplates(templates, mask)
  {
    if templates != [] {
      KeepTemplatesSpec(templates[1..], mask);
      assert forall i :: 0 < i < |templates| ==> templates[i] == templates[1..][i - 1];
    }
  }

  /** The paths of the rules that use the mask, last rule first. */
  function RemovedPathsLastFirst(rules: seq<ProgramRule>, mask: LogicalProcessorMask): seq<string>
    reads rules
  {
    if rules == [] then []
    else RemovedPathsLastFirst(rules[1..], mask) + (if rules[0].mask == mask then [rules[0].programPath] else [])
  }

  /** RemovedPathsLastFirst holds the path of every rule of the mask, and no other. */
  lemma {:induction false} RemovedPathsSpec(rules: seq<ProgramRule>, mask: LogicalProcessorMask)
    ensures forall path :: path in RemovedPathsLastFirst(rules, mask) <==>
      exists i :: 0 <= i < |rules| && rules[i].mask == mask && rules[i].programPath == path
  {
    if rules != [] {
      RemovedPathsSpec(rules[1..], mask);
      assert forall i :: 0 < i < |rules| ==> rules[i] == rules[1..][i - 1];
    }
  }

  /** The first loop of RemoveRulesUsingMask: the rules of the mask are removed from the last to the first. */
  method RemoveProgramRulesUsing(config: AppConfig, mask: LogicalProcessorMask) returns (removedRulePaths: seq<string>)
    modifies config
    ensures config.programRules == KeepRules(old(config.programRules), mask)
    ensures removedRulePaths == RemovedPathsLastFirst(old(config.programRules), mask)
    ensures config.ruleTemplates == old(config.ruleTemplates)
    ensures config.logicalProcessorMasks == old(config.logicalProcessorMasks)
  {
    ghost var rules := config.programRules;
    removedRulePaths := [];
    var i := |config.programRules|;
    while i > 0
      invariant 0 <= i <= |rules|
      invariant config.programRules == rules[..i] + KeepRules(rules[i..], mask)
      invariant removedRulePaths == RemovedPathsLastFirst(rules[i..], mask)
      invariant config.ruleTemplates == old(config.ruleTemplates)
      invariant config.logicalProcessorMasks == old(config.logicalProcessorMasks)
    {
      i := i - 1;
      assert rules[i..][1..] == rules[i + 1..];
      assert config.programRules[i] == rules[i];
      if config.programRules[i].mask == mask {
        removedRulePaths := removedRulePaths + [config.programRules[i].programPath];
        assert config.programRules[..i] + config.programRules[i + 1..] == rules[..i] + KeepRules(rules[i..], mask) by {
          assert config.programRules[..i] == rules[..i];
          assert config.programRules[i + 1..] == KeepRules(rules[i + 1..], mask);
        }
        config.programRules := config.programRules[..i] + config.programRules[i + 1..];
      } else {
        assert rules[..i + 1] == rules[..i] + [rules[i]];
      }
    }
    assert rules[0..] == rules;
  }

  /** The second loop of RemoveRulesUsingMask: the templates of the mask are removed from the last to the first. */
  method RemoveTemplatesUsing(config: AppConfig, mask: LogicalProcessorMask)
    modifies config
    ensures config.ruleTemplates == KeepTemplates(old(config.ruleTemplates), mask)
    ensures config.programRules == old(config.programRules)
    ensures config.logicalProcessorMasks == old(config.logicalProcessorMasks)
  {
    ghost var templates := config.ruleTemplates;
    var i := |config.ruleTemplates|;
    while i > 0
      invariant 0 <= i <= |templates|
      invariant config.ruleTemplates == templates[..i] + KeepTemplates(templates[i..], mask)
      invariant config.programRules == old(config.programRules)
      invariant config.logicalProcessorMasks == old(config.logicalProcessorMasks)
    {
      i := i - 1;
      assert templates[i..][1..] == templates[i + 1..];
      assert config.ruleTemplates[i] == templates[i];
      if config.ruleTemplates[i].mask == mask {
        assert config.ruleTemplates[..i] + config.ruleTemplates[i + 1..] == templates[..i] + KeepTemplates(templates[i..], mask) by {
          assert config.ruleTemplates[..i] == templates[..i];
          assert config.ruleTemplates[i + 1..] == KeepTemplates(templates[i + 1..], mask);
        }
        config.ruleTemplates := config.ruleTemplates[..i] + config.ruleTemplates[i + 1..];
      } else {
        assert templates[..i + 1] == templates[..i] + [templates[i]];
      }
    }
    assert templates[0..] == templates;
  }

  /**
   * RemoveRulesUsingMask: every rule and template of the mask is removed, keeping the order of
   * the others, and the path of every removed rule is applied again. Afterwards no rule and no
   * template uses the mask, not even the rules the re-application creates from templates.
   */
  method RemoveRulesUsingMask(config: AppConfig, p: Platform, noMask: LogicalProcessorMask, procs: ProcessList,
                              mask: LogicalProcessorMask)
    modifies config, procs
    ensures config.ruleTemplates == KeepTemplates(old(config.ruleTemplates), mask)
    ensures config.logicalProcessorMasks == old(config.logicalProcessorMasks)
    ensures var kept := KeepRules(old(config.programRules), mask);
      |kept| <= |config.programRules| && config.programRules[..|kept|] == kept
    ensures forall r :: r in config.programRules ==> r in old(config.programRules) || fresh(r)
    ensures !RH.MaskIsUsedByRules(config.programRules, config.ruleTemplates, mask)
    ensures |old(procs.setMaskCalls)| <= |procs.setMaskCalls| && procs.setMaskCalls[..|old(procs.setMaskCalls)|] == old(procs.setMaskCalls)
  {
    var removedRulePaths := RemoveAllUsing(config, mask);
    ReapplyPaths(config, p, noMask, procs, removedRulePaths, mask);
  }

  /** The first two loops of RemoveRulesUsingMask: no rule and no template keeps the mask. */
  method RemoveAllUsing(config: AppConfig, mask: LogicalProcessorMask) returns (removedRulePaths: seq<string>)
    modifies config
    ensures config.programRules == KeepRules(old(config.programRules), mask)
    ensures config.ruleTemplates == KeepTemplates(old(config.ruleTemplates), mask)
    ensures config.logicalProcessorMasks == old(config.logicalProcessorMasks)
    ensures forall t :: t in config.ruleTemplates ==> t.mask != mask
    ensures forall r :: r in config.programRules ==> r.mask != mask && r in old(config.programRules)
  {
    KeepRulesSpec(config.programRules, mask);
    KeepTemplatesSpec(config.ruleTemplates, mask);
    removedRulePaths := RemoveProgramRulesUsing(config, mask);
    RemoveTemplatesUsing(config, mask);
  }

  /** The third loop of RemoveRulesUsingMask: every removed path is applied again. */
  method ReapplyPaths(config: AppConfig, p: Platform, noMask: LogicalProcessorMask, procs: ProcessList,
                      paths: seq<string>, mask: LogicalProcessorMask)
    requires forall t :: t in config.ruleTemplates ==> t.mask != mask
    requires forall r :: r in config.programRules ==> r.mask != mask
    modifies config, procs
    ensures config.ruleTemplates == old(config.ruleTemplates)
    ensures config.logicalProcessorMasks == old(config.logicalProcessorMasks)
    ensures |old(config.programRules)| <= |config.programRules|
    ensures config.programRules[..|old(config.programRules)|] == old(config.programRules)
    ensures forall r :: r in config.programRules ==> r in old(config.programRules) || fresh(r)
    ensures forall r :: r in config.programRules ==> r.mask != mask
    ensures |old(procs.setMaskCalls)| <= |procs.setMaskCalls| && procs.setMaskCalls[..|old(procs.setMaskCalls)|] == old(procs.setMaskCalls)
  {
    var i := 0;
    while i < |paths|
      invariant i <= |paths|
      invariant config.ruleTemplates == old(config.ruleTemplates)
      invariant config.logicalProcessorMasks == old(config.logicalProcessorMasks)
      invariant |old(config.programRules)| <= |config.programRules|
      invariant config.programRules[..|old(config.programRules)|] == old(config.programRules)
      invariant forall r :: r in config.programRules ==> r in old(config.programRules) || fresh(r)
      invariant forall r :: r in config.programRules ==> r.mask != mask
      invariant |old(procs.setMaskCalls)| <= |procs.setMaskCalls| && procs.setMaskCalls[..|old(procs.setMaskCalls)|] == old(procs.setMaskCalls)
    {
      ghost var before := config.programRules;
      ghost var beforeCalls := procs.setMaskCalls;
      var ok := ApplyRulesToPath(config, p, noMask, procs, paths[i]);
      LookedUpKeepsMaskOut(p, config.ruleTemplates, before, config.programRules, paths[i], mask);
      assert procs.setMaskCalls[..|beforeCalls|] == beforeCalls;
      i := i + 1;
    }
  }

  /** A lookup keeps the rules and adds only rules from templates: a mask no rule and no template uses stays unused. */
  lemma LookedUpKeepsMaskOut(p: Platform, templates: seq<RuleTemplate>, before: seq<ProgramRule>,
                             after: seq<ProgramRule>, imagePath: string, mask: LogicalProcessorMask)
    requires LookedUp(p, templates, before, after, imagePath)
    requires forall t :: t in templates ==> t.mask != mask
    requires forall r :: r in before ==> r.mask != mask
    ensures |before| <= |after| && after[..|before|] == before
    ensures forall r :: r in after ==> r.mask != mask
  {
    if after != before {
      assert after == before + [after[|before|]];
    }
  }

  // ---------------------------------------------------------------------------------------------
  // Templates

  /** ReapplyRuleTemplate gives the template's mask to the rule: the template is the first match for its path. */
  predicate Reapplies(p: Platform, templates: seq<RuleTemplate>, ruleTemplate: RuleTemplate, rule: ProgramRule)
    reads templates
  {
    FindRuleTemplate(p, templates, rule.programPath) == ruleTemplate
  }

  /** The masks of the rules, in order. */
  function MasksOf(rules: seq<ProgramRule>): (masks: seq<LogicalProcessorMask>)
    reads rules
    ensures |masks| == |rules| && forall i :: 0 <= i < |rules| ==> masks[i] == rules[i].mask
  {
    seq(|rules|, i requires 0 <= i < |rules| reads rules => rules[i].mask)
  }

  /** For each rule, in order, whether ReapplyRuleTemplate gives it the template's mask. */
  function SelectedBy(p: Platform, templates: seq<RuleTemplate>, ruleTemplate: RuleTemplate, rules: seq<ProgramRule>): (selected: seq<bool>)
    reads templates
    ensures |selected| == |rules| && forall i :: 0 <= i < |rules| ==> selected[i] == Reapplies(p, templates, ruleTemplate, rules[i])
  {
    seq(|rules|, i requires 0 <= i < |rules| reads templates => Reapplies(p, templates, ruleTemplate, rules[i]))
  }

  /**
   * The SetMask calls ReapplyRuleTemplate causes over rules that had the given masks, no two of
   * them for equal paths: each selected rule whose mask differs from the template's and whose path
   * is not empty re-enters UpdateOrAddProgramRule, which gives the template's mask to every
   * process of the rule's path, rule after rule.
   */
  function ReappliedCalls(p: Platform, paths: seq<string>, rules: seq<ProgramRule>, masks: seq<LogicalProcessorMask>,
                          selected: seq<bool>, templateMask: LogicalProcessorMask): seq<(nat, LogicalProcessorMask)>
    requires |masks| == |rules| && |selected| == |rules|
  {
    if rules == [] then []
    else
      var n := |rules| - 1;
      ReappliedCalls(p, paths, rules[..n], masks[..n], selected[..n], templateMask)
        + (if selected[n] && masks[n] != templateMask && rules[n].programPath != []
           then CallsWith(ProcessesOn(p, paths, rules[n].programPath, |paths|), templateMask) else [])
  }

  /** ReappliedCalls over one more rule adds that rule's calls. */
  lemma ReappliedCallsStep(p: Platform, paths: seq<string>, rules: seq<ProgramRule>, masks: seq<LogicalProcessorMask>,
                           selected: seq<bool>, templateMask: LogicalProcessorMask, i: nat)
    requires |masks| == |rules| && |selected| == |rules| && i < |rules|
    ensures ReappliedCalls(p, paths, rules[..i + 1], masks[..i + 1], selected[..i + 1], templateMask)
         == ReappliedCalls(p, paths, rules[..i], masks[..i], selected[..i], templateMask)
            + (if selected[i] && masks[i] != templateMask && rules[i].programPath != []
               then CallsWith(ProcessesOn(p, paths, rules[i].programPath, |paths|), templateMask) else [])
  {
    assert rules[..i + 1][..i] == rules[..i] && masks[..i + 1][..i] == masks[..i] && selected[..i + 1][..i] == selected[..i];
  }

  /** The MatchingRuleTemplate of each rule, in order. */
  function MatchesOf(rules: seq<ProgramRule>): (matches: seq<RuleTemplate?>)
    reads rules
    ensures |matches| == |rules| && forall i :: 0 <= i < |rules| ==> matches[i] == rules[i].matchingRuleTemplate
  {
    seq(|rules|, i requires 0 <= i < |rules| reads rules => rules[i].matchingRuleTemplate)
  }

  /**
   * The state of ReapplyRuleTemplate after the first n rules, for rules that had the masks and
   * templates `masks` and `matches` and now have `nowMasks` and `nowMatches`: every mask is the old
   * one or the template's, the first n selected rules have the template's mask, and, when no two
   * rules are for equal paths, exactly those changed, and those whose mask changed (with a path)
   * match the template.
   */
  ghost predicate ReappliedUpTo(p: Platform, rules: seq<ProgramRule>, selected: seq<bool>, ruleTemplate: RuleTemplate,
                                templateMask: LogicalProcessorMask, masks: seq<LogicalProcessorMask>, matches: seq<RuleTemplate?>,
                                nowMasks: seq<LogicalProcessorMask>, nowMatches: seq<RuleTemplate?>, n: nat)
    requires |selected| == |rules| && |masks| == |rules| && |matches| == |rules|
    requires |nowMasks| == |rules| && |nowMatches| == |rules| && n <= |rules|
  {
    && (forall j :: 0 <= j < |rules| ==> nowMasks[j] == masks[j] || nowMasks[j] == templateMask)
    && (forall j :: 0 <= j < n && selected[j] ==> nowMasks[j] == templateMask)
    && (OneRulePerPath(p, rules) ==> forall j :: 0 <= j < |rules| ==>
          var reapplied := j < n && selected[j];
          && nowMasks[j] == (if reapplied then templateMask else masks[j])
          && nowMatches[j]
             == (if reapplied && masks[j] != templateMask && rules[j].programPath != [] then ruleTemplate else matches[j]))
  }

  /**
   * ReapplyRuleTemplate: every rule whose path the template is the first match for gets the
   * template's mask through its Mask setter. The rule list stays as it is and no rule gets a mask
   * other than its own or the template's. When no two rules are for equal paths, exactly those
   * rules change their mask, those whose mask changed (with a path) get the template as
   * MatchingRuleTemplate, and the processes of their paths get the template's mask, rule by rule.
   */
  method ReapplyRuleTemplate(config: AppConfig, p: Platform, noMask: LogicalProcessorMask, procs: ProcessList,
                             ruleTemplate: RuleTemplate)
    modifies config, config.programRules, procs
    ensures config.ruleTemplates == old(config.ruleTemplates)
    ensures config.logicalProcessorMasks == old(config.logicalProcessorMasks)
    ensures config.programRules == old(config.programRules)
    ensures forall r :: r in config.programRules ==> r.mask == old(r.mask) || r.mask == ruleTemplate.mask
    ensures forall r :: r in config.programRules && Reapplies(p, config.ruleTemplates, ruleTemplate, r) ==>
      r.mask == ruleTemplate.mask
    ensures forall r :: r in config.programRules && r.matchingRuleTemplate == ruleTemplate
                        && Reapplies(p, config.ruleTemplates, ruleTemplate, r) ==>
      !r.IsDeviatingFromRuleTemplate()
    ensures OneRulePerPath(p, config.programRules) ==>
      && (forall r :: r in config.programRules ==>
            var reapplied := Reapplies(p, config.ruleTemplates, ruleTemplate, r);
            && r.mask == (if reapplied then ruleTemplate.mask else old(r.mask))
            && r.matchingRuleTemplate
               == (if reapplied && old(r.mask) != ruleTemplate.mask && r.programPath != [] then ruleTemplate
                   else old(r.matchingRuleTemplate)))
      && procs.setMaskCalls == old(procs.setMaskCalls)
           + ReappliedCalls(p, procs.imagePaths, old(config.programRules), old(MasksOf(config.programRules)),
                            SelectedBy(p, config.ruleTemplates, ruleTemplate, config.programRules), ruleTemplate.mask)
  {
    ghost var rules := config.programRules;
    ghost var masks, matches := MasksOf(rules), MatchesOf(rules);
    ghost var selected := SelectedBy(p, config.ruleTemplates, ruleTemplate, rules);
    ReapplyEach(config, p, noMask, procs, ruleTemplate);
    ghost var nowMasks, nowMatches := MasksOf(rules), MatchesOf(rules);
    forall r | r in rules
      ensures r.mask == old(r.mask) || r.mask == ruleTemplate.mask
      ensures Reapplies(p, config.ruleTemplates, ruleTemplate, r) ==> r.mask == ruleTemplate.mask
      ensures OneRulePerPath(p, rules) ==>
        var reapplied := Reapplies(p, config.ruleTemplates, ruleTemplate, r);
        && r.mask == (if reapplied then ruleTemplate.mask else old(r.mask))
        && r.matchingRuleTemplate
           == (if reapplied && old(r.mask) != ruleTemplate.mask && r.programPath != [] then ruleTemplate
               else old(r.matchingRuleTemplate))
    {
      var j :| 0 <= j < |rules| && rules[j] == r;
      assert masks[j] == old(r.mask) && matches[j] == old(r.matchingRuleTemplate);
      assert nowMasks[j] == r.mask && nowMatches[j] == r.matchingRuleTemplate && selected[j] == Reapplies(p, config.ruleTemplates, ruleTemplate, r);
    }
  }

  /** The loop of ReapplyRuleTemplate, stated on the masks and templates of all the rules, before and after. */
  method ReapplyEach(config: AppConfig, p: Platform, noMask: LogicalProcessorMask, procs: ProcessList,
                     ruleTemplate: RuleTemplate)
    modifies config, config.programRules, procs
    ensures config.ruleTemplates == old(config.ruleTemplates)
    ensures config.logicalProcessorMasks == old(config.logicalProcessorMasks)
    ensures config.programRules == old(config.programRules)
    ensures ruleTemplate.mask == old(ruleTemplate.mask)
    ensures SelectedBy(p, config.ruleTemplates, ruleTemplate, config.programRules)
            == old(SelectedBy(p, config.ruleTemplates, ruleTemplate, config.programRules))
    ensures ReappliedUpTo(p, config.programRules, SelectedBy(p, config.ruleTemplates, ruleTemplate, config.programRules),
                          ruleTemplate, ruleTemplate.mask, old(MasksOf(config.programRules)), old(MatchesOf(config.programRules)),
                          MasksOf(config.programRules), MatchesOf(config.programRules), |config.programRules|)
    ensures OneRulePerPath(p, config.programRules) ==>
      procs.setMaskCalls == old(procs.setMaskCalls)
           + ReappliedCalls(p, procs.imagePaths, config.programRules, old(MasksOf(config.programRules)),
                            SelectedBy(p, config.ruleTemplates, ruleTemplate, config.programRules), ruleTemplate.mask)
  {
    var rules := config.programRules;
    ghost var masks := MasksOf(rules);
    ghost var matches := MatchesOf(rules);
    ghost var selected := SelectedBy(p, config.ruleTemplates, ruleTemplate, rules);
    ghost var calls := procs.setMaskCalls;
    var i := 0;
    while i < |rules|
      invariant i <= |rules|
      invariant config.programRules == rules
      invariant config.ruleTemplates == old(config.ruleTemplates)
      invariant config.logicalProcessorMasks == old(config.logicalProcessorMasks)
      invariant ruleTemplate.mask == old(ruleTemplate.mask)
      invariant selected == SelectedBy(p, config.ruleTemplates, ruleTemplate, rules)
      invariant ReappliedUpTo(p, rules, selected, ruleTemplate, ruleTemplate.mask, masks, matches, MasksOf(rules), MatchesOf(rules), i)
      invariant OneRulePerPath(p, rules) ==>
        procs.setMaskCalls == calls + ReappliedCalls(p, procs.imagePaths, rules[..i], masks[..i], selected[..i], ruleTemplate.mask)
    {
      ReapplyStep(config, p, noMask, procs, ruleTemplate, rules, i, selected, masks, matches, calls);
      i := i + 1;
    }
    TakeAll(rules, i);
    TakeAll(masks, i);
    TakeAll(selected, i);
  }

  /** One pass of the loop of ReapplyRuleTemplate: the rule at the index gets the template's mask if it is selected. */
  method ReapplyStep(config: AppConfig, p: Platform, noMask: LogicalProcessorMask, procs: ProcessList,
                     ruleTemplate: RuleTemplate, rules: seq<ProgramRule>, i: nat, ghost selected: seq<bool>,
                     ghost masks: seq<LogicalProcessorMask>, ghost matches: seq<RuleTemplate?>,
                     ghost calls: seq<(nat, LogicalProcessorMask)>)
    requires i < |rules| && |selected| == |rules| && |masks| == |rules| && |matches| == |rules|
    requires config.programRules == rules
    requires selected == SelectedBy(p, config.ruleTemplates, ruleTemplate, rules)
    requires ReappliedUpTo(p, rules, selected, ruleTemplate, ruleTemplate.mask, masks, matches, MasksOf(rules), MatchesOf(rules), i)
    requires OneRulePerPath(p, rules) ==>
      procs.setMaskCalls == calls + ReappliedCalls(p, procs.imagePaths, rules[..i], masks[..i], selected[..i], ruleTemplate.mask)
    modifies config, config.programRules, procs
    ensures config.programRules == rules
    ensures config.ruleTemplates == old(config.ruleTemplates)
    ensures config.logicalProcessorMasks == old(config.logicalProcessorMasks)
    ensures selected == SelectedBy(p, config.ruleTemplates, ruleTemplate, rules)
    ensures ruleTemplate.mask == old(ruleTemplate.mask)
    ensures ReappliedUpTo(p, rules, selected, ruleTemplate, ruleTemplate.mask, masks, matches, MasksOf(rules), MatchesOf(rules), i + 1)
    ensures OneRulePerPath(p, rules) ==>
      procs.setMaskCalls == calls + ReappliedCalls(p, procs.imagePaths, rules[..i + 1], masks[..i + 1], selected[..i + 1], ruleTemplate.mask)
  {
    ghost var templateMask := ruleTemplate.mask;
    ghost var masks0, matches0 := MasksOf(rules), MatchesOf(rules);
    ghost var single := OneRulePerPath(p, rules);
    ghost var calls0 := procs.setMaskCalls;
    ghost var term := if selected[i] && masks[i] != templateMask && rules[i].programPath != []
                      then CallsWith(ProcessesOn(p, procs.imagePaths, rules[i].programPath, |procs.imagePaths|), templateMask) else [];
    ghost var before := ReappliedCalls(p, procs.imagePaths, rules[..i], masks[..i], selected[..i], templateMask);
    ghost var after := ReappliedCalls(p, procs.imagePaths, rules[..i + 1], masks[..i + 1], selected[..i + 1], templateMask);
    ReappliedCallsStep(p, procs.imagePaths, rules, masks, selected, templateMask, i);
    assert after == before + term;
    AppendAssociates(calls, before, term);
    assert single ==> masks0[i] == masks[i];
    if single {
      OneRulePerPathDistinct(p, rules, i);
    }
    ReapplyTo(config, p, noMask, procs, ruleTemplate, rules, i);
    ReapplyStepKeeps(p, rules, selected, ruleTemplate, templateMask, masks, matches, masks0, matches0,
                     MasksOf(rules), MatchesOf(rules), i);
  }

  /**
   * The body of the loop of ReapplyRuleTemplate, for the rule at the index: it gets the
   * template's mask if the template is its first match. Stated on the masks and templates of all
   * the rules, before and after.
   */
  method ReapplyTo(config: AppConfig, p: Platform, noMask: LogicalProcessorMask, procs: ProcessList,
                   ruleTemplate: RuleTemplate, rules: seq<ProgramRule>, i: nat)
    requires config.programRules == rules && i < |rules|
    modifies config, config.programRules, procs
    ensures config.programRules == rules
    ensures config.ruleTemplates == old(config.ruleTemplates)
    ensures config.logicalProcessorMasks == old(config.logicalProcessorMasks)
    ensures ruleTemplate.mask == old(ruleTemplate.mask)
    ensures SelectedBy(p, config.ruleTemplates, ruleTemplate, rules) == old(SelectedBy(p, config.ruleTemplates, ruleTemplate, rules))
    ensures var selected := old(Reapplies(p, config.ruleTemplates, ruleTemplate, rules[i]));
      var masks0, masks1 := old(MasksOf(rules)), MasksOf(rules);
      var matches0, matches1 := old(MatchesOf(rules)), MatchesOf(rules);
      && (!selected ==> masks1 == masks0 && matches1 == matches0 && procs.setMaskCalls == old(procs.setMaskCalls))
      && (selected ==> masks1[i] == ruleTemplate.mask)
      && (forall j :: 0 <= j < |rules| && rules[j] != rules[i] ==> masks1[j] == masks0[j] || masks1[j] == ruleTemplate.mask)
      && (forall j :: 0 <= j < |rules| && rules[j] == rules[i] ==> masks1[j] == masks1[i] && masks0[j] == masks0[i])
    ensures SoleAt(p, rules, i) ==>
      forall j :: 0 <= j < |rules| && j != i ==>
        MasksOf(rules)[j] == old(MasksOf(rules))[j] && MatchesOf(rules)[j] == old(MatchesOf(rules))[j]
    ensures SoleAt(p, rules, i) && old(Reapplies(p, config.ruleTemplates, ruleTemplate, rules[i])) ==>
      var changed := old(rules[i].mask) != ruleTemplate.mask && rules[i].programPath != [];
      && rules[i].matchingRuleTemplate == (if changed then ruleTemplate else old(rules[i].matchingRuleTemplate))
      && procs.setMaskCalls == old(procs.setMaskCalls)
           + (if changed then CallsWith(ProcessesOn(p, procs.imagePaths, rules[i].programPath, |procs.imagePaths|), ruleTemplate.mask) else [])
  {
    var rule := rules[i];
    ghost var masks0, matches0 := MasksOf(rules), MatchesOf(rules);
    ghost var single := SoleAt(p, rules, i);
    ghost var selected0 := SelectedBy(p, config.ruleTemplates, ruleTemplate, rules);
    if FindRuleTemplate(p, config.ruleTemplates, rule.programPath) == ruleTemplate {
      AssignMask(config, p, noMask, procs, rule, ruleTemplate.mask);
      assert unchanged(config.ruleTemplates);
      assert SelectedBy(p, config.ruleTemplates, ruleTemplate, rules) == selected0;
      ghost var masks1, matches1 := MasksOf(rules), MatchesOf(rules);
      forall j | 0 <= j < |rules| && rules[j] != rule
        ensures masks1[j] == masks0[j] || masks1[j] == ruleTemplate.mask
      {
        assert rules[j] in rules;
      }
      if single {
        forall j | 0 <= j < |rules| && rules[j] != rule
          ensures masks1[j] == masks0[j] && matches1[j] == matches0[j]
        {
          var r := rules[j];
          assert r in old(config.programRules);
          assert unchanged(r);
          assert masks1[j] == r.mask && masks0[j] == old(r.mask);
          assert matches1[j] == r.matchingRuleTemplate && matches0[j] == old(r.matchingRuleTemplate);
        }
      }
    }
  }

  /** The rule at the index is the first for its path and appears nowhere else in the list. */
  predicate SoleAt(p: Platform, rules: seq<ProgramRule>, i: nat)
    requires i < |rules|
  {
    && IsFirstFor(p, rules, rules[i])
    && forall j :: 0 <= j < |rules| && j != i ==> rules[j] != rules[i]
  }

  /** When no two rules are for equal paths, every rule is the sole one at its index. */
  lemma OneRulePerPathDistinct(p: Platform, rules: seq<ProgramRule>, i: nat)
    requires i < |rules| && OneRulePerPath(p, rules)
    ensures SoleAt(p, rules, i)
  {
    forall j | 0 <= j < |rules| && j != i
      ensures rules[j] != rules[i]
    {
      assert FindProgramRule(p, rules, rules[j].programPath) == Some(j);
    }
  }

  /** The loop state of ReapplyRuleTemplate carries over one pass. */
  lemma ReapplyStepKeeps(p: Platform, rules: seq<ProgramRule>, selected: seq<bool>, ruleTemplate: RuleTemplate,
                         templateMask: LogicalProcessorMask, masks: seq<LogicalProcessorMask>, matches: seq<RuleTemplate?>,
                         masks0: seq<LogicalProcessorMask>, matches0: seq<RuleTemplate?>,
                         masks1: seq<LogicalProcessorMask>, matches1: seq<RuleTemplate?>, i: nat)
    requires |selected| == |rules| && |masks| == |rules| && |matches| == |rules| && i < |rules|
    requires |masks0| == |rules| && |matches0| == |rules| && |masks1| == |rules| && |matches1| == |rules|
    requires ReappliedUpTo(p, rules, selected, ruleTemplate, templateMask, masks, matches, masks0, matches0, i)
    requires !selected[i] ==> masks1 == masks0 && matches1 == matches0
    requires selected[i] ==> masks1[i] == templateMask
    requires forall j :: 0 <= j < |rules| && rules[j] != rules[i] ==> masks1[j] == masks0[j] || masks1[j] == templateMask
    requires forall j :: 0 <= j < |rules| && rules[j] == rules[i] ==>
      masks1[j] == masks1[i] && masks0[j] == masks0[i] && selected[j] == selected[i]
    requires OneRulePerPath(p, rules) ==>
      && (forall j :: 0 <= j < |rules| && j != i ==> masks1[j] == masks0[j] && matches1[j] == matches0[j])
      && (selected[i] ==>
            matches1[i] == (if masks0[i] != templateMask && rules[i].programPath != [] then ruleTemplate else matches0[i]))
    ensures ReappliedUpTo(p, rules, selected, ruleTemplate, templateMask, masks, matches, masks1, matches1, i + 1)
  {
  }

  /**
   * The running processes with the given paths were handled in order: before process n the rule
   * list was history[n], GetProgramRule turned it into history[n + 1] (the same list or one with a
   * rule appended), and the n-th SetMask call gave process n the mask looked up in history[n].
   */
  ghost predicate HandledInOrder(p: Platform, templates: seq<RuleTemplate>, noMask: LogicalProcessorMask,
                                 history: seq<seq<ProgramRule>>, paths: seq<string>,
                                 calls: seq<(nat, LogicalProcessorMask)>)
    requires |history| == |paths| + 1 && |calls| == |paths|
    reads templates, history[|history| - 1]
    decreases |paths|
  {
    if |paths| == 0 then true
    else
      var n := |paths| - 1;
      && history[n] <= history[n + 1]
      && HandledInOrder(p, templates, noMask, history[..n + 1], paths[..n], calls[..n])
      && HandledOne(p, templates, noMask, history[n], history[n + 1], paths[n], n, calls[n])
  }

  /**
   * Process n was handled: GetProgramRule turned the rule list `before` into `after`, and the
   * n-th SetMask call gave the process the mask looked up in `before`.
   */
  ghost predicate HandledOne(p: Platform, templates: seq<RuleTemplate>, noMask: LogicalProcessorMask,
                             before: seq<ProgramRule>, after: seq<ProgramRule>, path: string, n: nat,
                             call: (nat, LogicalProcessorMask))
    requires before <= after
    reads templates, after
  {
    && LookedUp(p, templates, before, after, path)
    && call == (n, LookupMask(p, before, templates, noMask, path))
  }

  /** Handling one more process extends the record of the processes handled so far. */
  lemma HandledInOrderSnoc(p: Platform, templates: seq<RuleTemplate>, noMask: LogicalProcessorMask,
                           history: seq<seq<ProgramRule>>, paths: seq<string>,
                           calls: seq<(nat, LogicalProcessorMask)>,
                           next: seq<ProgramRule>, path: string)
    requires |history| == |paths| + 1 && |calls| == |paths|
    requires HandledInOrder(p, templates, noMask, history, paths, calls)
    requires LookedUp(p, templates, history[|paths|], next, path)
    ensures HandledInOrder(p, templates, noMask, history + [next], paths + [path],
                           calls + [(|paths|, LookupMask(p, history[|paths|], templates, noMask, path))])
  {
    var n := |paths|;
    var c: (nat, LogicalProcessorMask) := (n, LookupMask(p, history[n], templates, noMask, path));
    var h, ps := history + [next], paths + [path];
    var cs: seq<(nat, LogicalProcessorMask)> := calls + [c];
    assert history[n] <= next;
    assert h[..n + 1] == history && ps[..n] == paths && cs[..n] == calls;
    assert h[n] == history[n] && h[n + 1] == next && ps[n] == path && cs[n] == c;
    assert HandledOne(p, templates, noMask, h[n], h[n + 1], ps[n], n, cs[n]);
  }

  /** In the record of the processes handled so far, every rule list begins with each earlier one. */
  lemma {:induction false} HandledGrows(p: Platform, templates: seq<RuleTemplate>, noMask: LogicalProcessorMask,
                                        history: seq<seq<ProgramRule>>, paths: seq<string>,
                                        calls: seq<(nat, LogicalProcessorMask)>, j: nat, k: nat)
    requires |history| == |paths| + 1 && |calls| == |paths|
    requires HandledInOrder(p, templates, noMask, history, paths, calls)
    requires j <= k <= |paths|
    ensures history[j] <= history[k]
    decreases |paths|
  {
    if k < |paths| {
      var n := |paths| - 1;
      HandledGrows(p, templates, noMask, history[..n + 1], paths[..n], calls[..n], j, k);
    } else if j < k {
      var n := |paths| - 1;
      HandledGrows(p, templates, noMask, history[..n + 1], paths[..n], calls[..n], j, n);
      assert history[j] <= history[n] <= history[n + 1];
      assert history[j] == history[n + 1][..|history[j]|];
    }
  }

  /** The record of the processes handled so far holds each step. */
  lemma {:induction false} HandledStep(p: Platform, templates: seq<RuleTemplate>, noMask: LogicalProcessorMask,
                                       history: seq<seq<ProgramRule>>, paths: seq<string>,
                                       calls: seq<(nat, LogicalProcessorMask)>, j: nat)
    requires |history| == |paths| + 1 && |calls| == |paths|
    requires HandledInOrder(p, templates, noMask, history, paths, calls)
    requires j < |paths|
    ensures LookedUp(p, templates, history[j], history[j + 1], paths[j])
    ensures calls[j] == (j, LookupMask(p, history[j], templates, noMask, paths[j]))
    decreases |paths|
  {
    var n := |paths| - 1;
    if j < n {
      var h := history[..n + 1];
      HandledStep(p, templates, noMask, h, paths[..n], calls[..n], j);
      assert h[j] == history[j] && h[j + 1] == history[j + 1];
    }
  }

  /**
   * What a handled process got: a process whose path had a rule, or matched a template, got the
   * mask of the rule the final list holds for its path; a process whose path has no rule in the
   * final list got NoMask. (A process whose path matched nothing can still be followed by one
   * that creates a rule for an equal path: it keeps the NoMask it got.)
   */
  lemma HandledProcessGot(p: Platform, templates: seq<RuleTemplate>, noMask: LogicalProcessorMask,
                          history: seq<seq<ProgramRule>>, paths: seq<string>,
                          calls: seq<(nat, LogicalProcessorMask)>, j: nat)
    requires |history| == |paths| + 1 && |calls| == |paths|
    requires HandledInOrder(p, templates, noMask, history, paths, calls)
    requires j < |paths|
    ensures calls[j].0 == j
    ensures (FindProgramRule(p, history[0], paths[j]).Some? || FindRuleTemplate(p, templates, paths[j]) != null) ==>
      var k := FindProgramRule(p, history[|paths|], paths[j]);
      k.Some? && calls[j].1 == history[|paths|][k.value].mask
    ensures FindProgramRule(p, history[|paths|], paths[j]).None? ==> calls[j].1 == noMask
  {
    HandledStep(p, templates, noMask, history, paths, calls, j);
    HandledGrows(p, templates, noMask, history, paths, calls, 0, j);
    HandledGrows(p, templates, noMask, history, paths, calls, j, |paths|);
    HandledGrows(p, templates, noMask, history, paths, calls, j + 1, |paths|);
    var before, after, last, path := history[j], history[j + 1], history[|paths|], paths[j];
    FindInLonger(p, history[0], before, path);
    var k := FindProgramRule(p, before, path);
    if k.Some? {
      FindInLonger(p, before, last, path);
      assert calls[j].1 == before[k.value].mask && last[k.value] == before[k.value];
    } else if FindRuleTemplate(p, templates, path) != null {
      var created := after[|before|];
      OrdinalPathsEqual(p, path, path, path);
      FindAfterAppend(p, before, created, path);
      SnocOfPrefix(before, after);
      FindInLonger(p, after, last, path);
      assert calls[j].1 == created.mask && last[|before|] == created;
    } else {
      assert calls[j].1 == noMask;
    }
  }

  /** A list one longer than a prefix of it is that prefix with its last element appended. */
  lemma SnocOfPrefix<T>(before: seq<T>, after: seq<T>)
    requires |after| == |before| + 1 && after[..|before|] == before
    ensures after == before + [after[|before|]]
  {
    assert after == after[..|before|] + [after[|before|]];
  }

  /**
   * What the running processes with the given paths got from their SetMask calls, one call each in
   * list order: a process whose path had a rule in `rulesBefore`, or matches a template, got the
   * mask of the rule `rules` holds for its path; a process whose path has no rule in `rules` got
   * NoMask. (A process whose path matched nothing can be followed by one that creates a rule for
   * an equal path: it keeps the NoMask it got, so nothing more is said of it.)
   */
  ghost predicate ProcessesGot(p: Platform, templates: seq<RuleTemplate>, noMask: LogicalProcessorMask,
                               rulesBefore: seq<ProgramRule>, rules: seq<ProgramRule>, paths: seq<string>,
                               calls: seq<(nat, LogicalProcessorMask)>)
    requires |calls| == |paths|
    reads rules, templates
  {
    && (forall j :: 0 <= j < |paths| ==> calls[j].0 == j)
    && (forall j :: 0 <= j < |paths| ==>
          (FindProgramRule(p, rulesBefore, paths[j]).Some? || FindRuleTemplate(p, templates, paths[j]) != null) ==>
          var k := FindProgramRule(p, rules, paths[j]);
          k.Some? && calls[j].1 == rules[k.value].mask)
    && (forall j :: 0 <= j < |paths| ==> FindProgramRule(p, rules, paths[j]).None? ==> calls[j].1 == noMask)
  }

  /** What every handled process got, and the rules there were are still first in the final list. */
  lemma HandledAllGot(p: Platform, templates: seq<RuleTemplate>, noMask: LogicalProcessorMask,
                      history: seq<seq<ProgramRule>>, paths: seq<string>, calls: seq<(nat, LogicalProcessorMask)>)
    requires |history| == |paths| + 1 && |calls| == |paths|
    requires HandledInOrder(p, templates, noMask, history, paths, calls)
    ensures history[0] <= history[|paths|]
    ensures ProcessesGot(p, templates, noMask, history[0], history[|paths|], paths, calls)
  {
    forall j | 0 <= j < |paths|
      ensures calls[j].0 == j
      ensures (FindProgramRule(p, history[0], paths[j]).Some? || FindRuleTemplate(p, templates, paths[j]) != null) ==>
        var k := FindProgramRule(p, history[|paths|], paths[j]);
        k.Some? && calls[j].1 == history[|paths|][k.value].mask
      ensures FindProgramRule(p, history[|paths|], paths[j]).None? ==> calls[j].1 == noMask
    {
      HandledProcessGot(p, templates, noMask, history, paths, calls, j);
    }
    HandledGrows(p, templates, noMask, history, paths, calls, 0, |paths|);
  }

  /**
   * The lookup half of one step of the first loop of RefreshAllRules: GetProgramRule for the path
   * of process i gives the mask SetMask is to be called with.
   */
  method LookUpProcess(config: AppConfig, p: Platform, noMask: LogicalProcessorMask, paths: seq<string>, i: nat,
                       ghost history: seq<seq<ProgramRule>>, ghost calls: seq<(nat, LogicalProcessorMask)>)
    returns (mask: LogicalProcessorMask)
    requires i < |paths| && |history| == i + 1 && history[i] == config.programRules && |calls| == i
    requires HandledInOrder(p, config.ruleTemplates, noMask, history, paths[..i], calls)
    modifies config
    ensures config.ruleTemplates == old(config.ruleTemplates)
    ensures config.logicalProcessorMasks == old(config.logicalProcessorMasks)
    ensures forall r :: r in config.programRules ==> r in old(config.programRules) || fresh(r)
    ensures HandledInOrder(p, config.ruleTemplates, noMask, history + [config.programRules], paths[..i + 1],
                           calls + [(i, mask)])
  {
    label L:
    mask := GetMaskFromPath(config, p, noMask, paths[i]);
    assert unchanged@L(config.ruleTemplates) && unchanged@L(history[i]);
    HandledInOrderSnoc(p, config.ruleTemplates, noMask, history, paths[..i], calls, config.programRules, paths[i]);
    TakeOneMore(paths, i);
  }

  /**
   * One step of the first loop of RefreshAllRules: GetProgramRule for the path of process i, then
   * SetMask on the process with the rule's mask or NoMask. The record of the processes handled so
   * far grows by this one.
   */
  method HandleProcess(config: AppConfig, p: Platform, noMask: LogicalProcessorMask, procs: ProcessList, i: nat,
                       ghost history: seq<seq<ProgramRule>>, ghost before: seq<(nat, LogicalProcessorMask)>)
    requires i < |procs.imagePaths| && |history| == i + 1 && history[i] == config.programRules
    requires |procs.setMaskCalls| == |before| + i
    requires HandledInOrder(p, config.ruleTemplates, noMask, history, procs.imagePaths[..i], procs.setMaskCalls[|before|..])
    modifies config, procs
    ensures config.ruleTemplates == old(config.ruleTemplates)
    ensures config.logicalProcessorMasks == old(config.logicalProcessorMasks)
    ensures forall r :: r in config.programRules ==> r in old(config.programRules) || fresh(r)
    ensures |procs.setMaskCalls| == |before| + i + 1
    ensures procs.setMaskCalls[..|old(procs.setMaskCalls)|] == old(procs.setMaskCalls)
    ensures HandledInOrder(p, config.ruleTemplates, noMask, history + [config.programRules], procs.imagePaths[..i + 1],
                           procs.setMaskCalls[|before|..])
  {
    var mask := LookUpProcess(config, p, noMask, procs.imagePaths, i, history, procs.setMaskCalls[|before|..]);
    SetMaskRecorded(config, p, noMask, procs, i, mask, history + [config.programRules], before);
  }

  /** The SetMask call of ApplyRulesToPath for process i, with the mask looked up for it just before. */
  method SetMaskRecorded(config: AppConfig, p: Platform, noMask: LogicalProcessorMask, procs: ProcessList, i: nat,
                         mask: LogicalProcessorMask, ghost history: seq<seq<ProgramRule>>,
                         ghost before: seq<(nat, LogicalProcessorMask)>)
    requires i < |procs.imagePaths| && |history| == i + 2 && |procs.setMaskCalls| == |before| + i
    requires HandledInOrder(p, config.ruleTemplates, noMask, history, procs.imagePaths[..i + 1],
                            procs.setMaskCalls[|before|..] + [(i, mask)])
    modifies procs
    ensures procs.setMaskCalls == old(procs.setMaskCalls) + [(i, mask)]
    ensures HandledInOrder(p, config.ruleTemplates, noMask, history, procs.imagePaths[..i + 1],
                           procs.setMaskCalls[|before|..])
  {
    ghost var calls0 := procs.setMaskCalls;
    var _ := procs.SetMask(i, mask);
    DropThenAppend(calls0, |before|, (i, mask));
  }

  /**
   * The first loop of RefreshAllRules: every running process, in list order, gets SetMask with
   * the mask GetProgramRule gives for its path at that moment, or NoMask. `history[j]` is the rule
   * list before process j is handled, so each step may append one rule created from a template.
   */
  method ApplyAllRules(config: AppConfig, p: Platform, noMask: LogicalProcessorMask, procs: ProcessList)
    returns (ghost history: seq<seq<ProgramRule>>)
    modifies config, procs
    ensures config.ruleTemplates == old(config.ruleTemplates)
    ensures config.logicalProcessorMasks == old(config.logicalProcessorMasks)
    ensures |history| == |procs.imagePaths| + 1
    ensures history[0] == old(config.programRules) && history[|procs.imagePaths|] == config.programRules
    ensures forall r :: r in config.programRules ==> r in old(config.programRules) || fresh(r)
    ensures |procs.setMaskCalls| == |old(procs.setMaskCalls)| + |procs.imagePaths|
    ensures procs.setMaskCalls[..|old(procs.setMaskCalls)|] == old(procs.setMaskCalls)
    ensures HandledInOrder(p, config.ruleTemplates, noMask, history, procs.imagePaths,
                           procs.setMaskCalls[|old(procs.setMaskCalls)|..])
  {
    ghost var before := procs.setMaskCalls;
    history := [config.programRules];
    var i := 0;
    while i < |procs.imagePaths|
      invariant 0 <= i <= |procs.imagePaths|
      invariant config.ruleTemplates == old(config.ruleTemplates)
      invariant config.logicalProcessorMasks == old(config.logicalProcessorMasks)
      invariant |history| == i + 1 && history[0] == old(config.programRules) && history[i] == config.programRules
      invariant forall r :: r in config.programRules ==> r in old(config.programRules) || fresh(r)
      invariant |procs.setMaskCalls| == |before| + i && procs.setMaskCalls[..|before|] == before
      invariant HandledInOrder(p, config.ruleTemplates, noMask, history, procs.imagePaths[..i],
                               procs.setMaskCalls[|before|..])
    {
      HandleProcess(config, p, noMask, procs, i, history, before);
      history := history + [config.programRules];
      i := i + 1;
    }
    assert procs.imagePaths[..i] == procs.imagePaths;
  }

  /**
   * The second loop of RefreshAllRules: every rule's MatchingRuleTemplate becomes the first template
   * whose glob matches its path (or null). Masks are left alone, and a rule that listened to its
   * template's event listens to its new template's.
   */
  method MatchAllRules(config: AppConfig, p: Platform)
    modifies config.programRules
    ensures RulesMatchTemplates(p, config.programRules, config.ruleTemplates)
    ensures forall r :: r in config.programRules ==> r.mask == old(r.mask)
    ensures forall r :: r in config.programRules ==> old(r.ListensToItsTemplate()) ==> r.ListensToItsTemplate()
  {
    ghost var target := map r | r in config.programRules :: FindRuleTemplate(p, config.ruleTemplates, r.programPath);
    label Start:
    SetMatchingTemplates(config, p, target);
    assert unchanged@Start(config.ruleTemplates);
  }

  /** The loop of MatchAllRules, with the template each rule is to get worked out beforehand. */
  method SetMatchingTemplates(config: AppConfig, p: Platform, ghost target: map<ProgramRule, RuleTemplate?>)
    requires forall r :: r in config.programRules ==>
      r in target && target[r] == FindRuleTemplate(p, config.ruleTemplates, r.programPath)
    modifies config.programRules
    ensures forall r :: r in config.programRules ==> r.matchingRuleTemplate == target[r]
    ensures forall r :: r in config.programRules ==> r.mask == old(r.mask)
    ensures forall r :: r in config.programRules ==> old(r.ListensToItsTemplate()) ==> r.ListensToItsTemplate()
  {
    var rules := config.programRules;
    var i := 0;
    while i < |rules|
      invariant i <= |rules|
      invariant forall k :: 0 <= k < |rules| ==>
        && rules[k].mask == old(rules[k].mask)
        && (old(rules[k].ListensToItsTemplate()) ==> rules[k].ListensToItsTemplate())
        && (k < i ==> rules[k].matchingRuleTemplate == target[rules[k]])
      invariant unchanged(config.ruleTemplates)
    {
      var rule := rules[i];
      var t := FindRuleTemplate(p, config.ruleTemplates, rule.programPath);
      assert t == target[rule];
      rule.SetMatchingRuleTemplate(t);
      i := i + 1;
    }
    assert rules[..i] == rules;
  }

  /**
   * RefreshAllRules: every running process, in list order, gets the mask of its rule (GetProgramRule
   * may create rules from templates on the way) or NoMask; then every rule is given the first
   * template matching its path as MatchingRuleTemplate. The rules there were stay, first, with
   * their masks.
   */
  method RefreshAllRules(config: AppConfig, p: Platform, noMask: LogicalProcessorMask, procs: ProcessList)
    modifies config, procs, set r | r in config.programRules
    ensures config.ruleTemplates == old(config.ruleTemplates)
    ensures config.logicalProcessorMasks == old(config.logicalProcessorMasks)
    ensures old(config.programRules) <= config.programRules
    ensures forall r :: r in config.programRules ==> r in old(config.programRules) || fresh(r)
    ensures forall r :: r in old(config.programRules) ==> r.mask == old(r.mask)
    ensures |procs.setMaskCalls| == |old(procs.setMaskCalls)| + |procs.imagePaths|
    ensures procs.setMaskCalls[..|old(procs.setMaskCalls)|] == old(procs.setMaskCalls)
    ensures ProcessesGot(p, config.ruleTemplates, noMask, old(config.programRules), config.programRules,
                         procs.imagePaths, procs.setMaskCalls[|old(procs.setMaskCalls)|..])
    ensures RulesMatchTemplates(p, config.programRules, config.ruleTemplates)
  {
    ApplyAndRecord(config, p, noMask, procs);
    label Applied:
    MatchAllRules(config, p);
    assert unchanged@Applied(config.ruleTemplates);
    assert forall k :: 0 <= k < |config.programRules| ==>
      config.programRules[k].mask == old@Applied(config.programRules[k].mask);
  }

  /** The first half of RefreshAllRules: every running process handled, and what each one got. */
  method ApplyAndRecord(config: AppConfig, p: Platform, noMask: LogicalProcessorMask, procs: ProcessList)
    modifies config, procs
    ensures config.ruleTemplates == old(config.ruleTemplates)
    ensures config.logicalProcessorMasks == old(config.logicalProcessorMasks)
    ensures old(config.programRules) <= config.programRules
    ensures forall r :: r in config.programRules ==> r in old(config.programRules) || fresh(r)
    ensures |procs.setMaskCalls| == |old(procs.setMaskCalls)| + |procs.imagePaths|
    ensures procs.setMaskCalls[..|old(procs.setMaskCalls)|] == old(procs.setMaskCalls)
    ensures ProcessesGot(p, config.ruleTemplates, noMask, old(config.programRules), config.programRules,
                         procs.imagePaths, procs.setMaskCalls[|old(procs.setMaskCalls)|..])
  {
    ghost var before := procs.setMaskCalls;
    ghost var history := ApplyAllRules(config, p, noMask, procs);
    HandledAllGot(p, config.ruleTemplates, noMask, history, procs.imagePaths, procs.setMaskCalls[|before|..]);
  }

  /** The state RefreshAllRules leaves: every rule has its path's first matching template. */
  ghost predicate RulesMatchTemplates(p: Platform, rules: seq<ProgramRule>, templates: seq<RuleTemplate>)
    reads rules, templates
  {
    forall r :: r in rules ==> r.matchingRuleTemplate == FindRuleTemplate(p, templates, r.programPath)
  }

  /** OnConfigLoaded: a RefreshAllRules, so every rule references the template that matches it. */
  method OnConfigLoaded(config: AppConfig, p: Platform, noMask: LogicalProcessorMask, procs: ProcessList)
    modifies config, procs, set r | r in config.programRules
    ensures config.ruleTemplates == old(config.ruleTemplates)
    ensures old(config.programRules) <= config.programRules
    ensures |procs.setMaskCalls| == |old(procs.setMaskCalls)| + |procs.imagePaths|
    ensures ProcessesGot(p, config.ruleTemplates, noMask, old(config.programRules), config.programRules,
                         procs.imagePaths, procs.setMaskCalls[|old(procs.setMaskCalls)|..])
    ensures RulesMatchTemplates(p, config.programRules, config.ruleTemplates)
  {
    RefreshAllRules(config, p, noMask, procs);
  }

  /** OnRuleTemplateChanged: a RefreshAllRules after a template's glob or mask changed. */
  method OnRuleTemplateChanged(config: AppConfig, p: Platform, noMask: LogicalProcessorMask, procs: ProcessList)
    modifies config, procs, set r | r in config.programRules
    ensures config.ruleTemplates == old(config.ruleTemplates)
    ensures old(config.programRules) <= config.programRules
    ensures |procs.setMaskCalls| == |old(procs.setMaskCalls)| + |procs.imagePaths|
    ensures ProcessesGot(p, config.ruleTemplates, noMask, old(config.programRules), config.programRules,
                         procs.imagePaths, procs.setMaskCalls[|old(procs.setMaskCalls)|..])
    ensures RulesMatchTemplates(p, config.programRules, config.ruleTemplates)
  {
    RefreshAllRules(config, p, noMask, procs);
  }

  /**
   * AddRuleTemplate: a new template with the glob and mask goes at the end of the template list,
   * then RefreshAllRules. Being last, it only takes paths no earlier template matches.
   */
  method AddRuleTemplate(config: AppConfig, p: Platform, noMask: LogicalProcessorMask, procs: ProcessList,
                         ruleGlob: string, mask: LogicalProcessorMask)
    modifies config, procs, set r | r in config.programRules
    ensures |config.ruleTemplates| == |old(config.ruleTemplates)| + 1
    ensures config.ruleTemplates[..|old(config.ruleTemplates)|] == old(config.ruleTemplates)
    ensures var t := config.ruleTemplates[|old(config.ruleTemplates)|];
      fresh(t) && t.ruleGlob == ruleGlob && t.mask == mask
    ensures old(config.programRules) <= config.programRules
    ensures |procs.setMaskCalls| == |old(procs.setMaskCalls)| + |procs.imagePaths|
    ensures ProcessesGot(p, config.ruleTemplates, noMask, old(config.programRules), config.programRules,
                         procs.imagePaths, procs.setMaskCalls[|old(procs.setMaskCalls)|..])
    ensures RulesMatchTemplates(p, config.programRules, config.ruleTemplates)
  {
    var t := new RuleTemplate(ruleGlob, mask);
    config.ruleTemplates := config.ruleTemplates + [t];
    RefreshAllRules(config, p, noMask, procs);
  }

  /**
   * RemoveRuleTemplate: the first occurrence of the template leaves the template list (nothing
   * changes there when it is not in it), then RefreshAllRules, which moves every rule that had it
   * to the next matching template or to none.
   */
  method RemoveRuleTemplate(config: AppConfig, p: Platform, noMask: LogicalProcessorMask, procs: ProcessList,
                            ruleTemplate: RuleTemplate)
    modifies config, procs, set r | r in config.programRules
    ensures config.ruleTemplates == RemoveFirst(old(config.ruleTemplates), ruleTemplate)
    ensures old(config.programRules) <= config.programRules
    ensures |procs.setMaskCalls| == |old(procs.setMaskCalls)| + |procs.imagePaths|
    ensures ProcessesGot(p, config.ruleTemplates, noMask, old(config.programRules), config.programRules,
                         procs.imagePaths, procs.setMaskCalls[|old(procs.setMaskCalls)|..])
    ensures RulesMatchTemplates(p, config.programRules, config.ruleTemplates)
  {
    config.ruleTemplates := RemoveFirst(config.ruleTemplates, ruleTemplate);
    RefreshAllRules(config, p, noMask, procs);
  }
}
