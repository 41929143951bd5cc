// Rule lookups shared by the rule code (Core/RuleHelpers.cs): path comparison, the root and
// prefix gating around the glob matcher, and the first-match searches over the config lists.

module RuleHelpers {
  import opened Common
  import opened ConfigModels

  /**
   * What the rule code asks the runtime: whether it runs on Windows, the length of the root that
   * Path.GetPathRoot finds at the start of a string (0 stands for both null and the empty string)
   * and the glob Matcher, which takes whether to ignore case, the include pattern, the root
   * directory and the path.
   */
  datatype Platform = Platform(
    isWindows: bool,
    rootLength: string -> nat,
    globMatches: (bool, string, string, string) -> bool)

  /** The directory separators of Path.GetPathRoot's result: on Windows every '/' becomes '\'. */
  function RootSeparators(p: Platform, root: string): (r: string)
    ensures |r| == |root|
    ensures forall i :: 0 <= i < |root| ==> r[i] == (if p.isWindows && root[i] == '/' then '\\' else root[i])
  {
    if root == [] then []
    else [if p.isWindows && root[0] == '/' then '\\' else root[0]] + RootSeparators(p, root[1..])
  }

  /**
   * Path.GetPathRoot: the root prefix of its argument, with its separators normalised on Windows,
   * so "C:/Games" and "C:\Games" have the same root "C:\".
   */
  function PathRoot(p: Platform, s: string): (root: string)
    ensures |root| <= |s|
    ensures root == RootSeparators(p, s[..|root|])
  {
    RootSeparators(p, s[..if p.rootLength(s) <= |s| then p.rootLength(s) else |s|])
  }

  /**
   * char.IsWhiteSpace: the Unicode white-space characters, that is the control characters U+0009
   * to U+000D, U+0085, and the space separators, line separator and paragraph separator.
   */
  predicate IsWhiteSpace(c: char)
  {
    ('\U{0009}' <= c <= '\U{000D}') || c == ' ' || c == '\U{0085}' || c == '\U{00A0}' || c == '\U{1680}'
    || ('\U{2000}' <= c <= '\U{200A}') || c == '\U{2028}' || c == '\U{2029}' || c == '\U{202F}'
    || c == '\U{205F}' || c == '\U{3000}'
  }

  /** string.IsNullOrWhiteSpace for a non-null string. */
  predicate IsBlank(s: string)
  {
    forall i :: 0 <= i < |s| ==> IsWhiteSpace(s[i])
  }

  /** path.Replace(@"\", "/"). */
  function ReplaceBackslashes(path: string): (r: string)
    ensures |r| == |path|
    ensures forall i :: 0 <= i < |path| ==> r[i] == (if path[i] == '\\' then '/' else path[i])
    ensures forall i :: 0 <= i < |r| ==> r[i] != '\\'
  {
    if path == [] then []
    else [if path[0] == '\\' then '/' else path[0]] + ReplaceBackslashes(path[1..])
  }

  /** NormalizePath: on Windows every backslash becomes a slash; elsewhere the path is kept. */
  function NormalizePath(p: Platform, path: string): (r: string)
    ensures |r| == |path|
    ensures !p.isWindows ==> r == path
    ensures p.isWindows ==> forall i :: 0 <= i < |r| ==> r[i] != '\\' && (path[i] != '\\' ==> r[i] == path[i])
  {
    if p.isWindows then ReplaceBackslashes(path) else path
  }

  /** PathsEqual: the normalised paths compared ignoring case on Windows and ordinally elsewhere. */
  predicate PathsEqual(p: Platform, path1: string, path2: string)
  {
    if p.isWindows then EqualsIgnoreCase(NormalizePath(p, path1), NormalizePath(p, path2))
    else NormalizePath(p, path1) == NormalizePath(p, path2)
  }

  /** PathsEqual is an equivalence: reflexive, symmetric and transitive. */
  lemma PathsEqualIsEquivalence(p: Platform, a: string, b: string, c: string)
    ensures PathsEqual(p, a, a)
    ensures PathsEqual(p, a, b) ==> PathsEqual(p, b, a)
    ensures PathsEqual(p, a, b) && PathsEqual(p, b, c) ==> PathsEqual(p, a, c)
  {
    var na, nb, nc := NormalizePath(p, a), NormalizePath(p, b), NormalizePath(p, c);
    EqualsIgnoreCaseIsEquivalence(na, na, na);
    EqualsIgnoreCaseIsEquivalence(na, nb, nc);
  }

  /** On Windows, a backslash and a slash at the same place do not make two paths differ. */
  lemma SeparatorsAreInterchangeable(p: Platform, prefix: string, suffix: string)
    requires p.isWindows
    ensures PathsEqual(p, prefix + "\\" + suffix, prefix + "/" + suffix)
  {
    var a, b := prefix + "\\" + suffix, prefix + "/" + suffix;
    assert NormalizePath(p, a) == NormalizePath(p, b) by {
      forall i | 0 <= i < |a|
        ensures NormalizePath(p, a)[i] == NormalizePath(p, b)[i]
      {
        if i != |prefix| {
          assert a[i] == b[i];
        }
      }
    }
    EqualsIgnoreCaseIsEquivalence(NormalizePath(p, a), NormalizePath(p, b), NormalizePath(p, b));
  }

  // PathMatchesGlob: whether an absolute path is part of a glob pattern. Blank inputs and paths
  // without a root never match. A leading "*/" is dropped; a pattern that starts with neither
  // "*/" nor "**" must start with the path's own root, which is stripped. What is left goes to
  // the matcher with the path's root as the directory.
  predicate PathMatchesGlob(p: Platform, pattern: string, path: string)
  {
    if IsBlank(pattern) || IsBlank(path) then false
    else
      var pathRoot := PathRoot(p, path);
      var patternRoot := PathRoot(p, pattern);
      if pathRoot == "" then false
      else if StartsWith(pattern, "*/") then p.globMatches(p.isWindows, pattern[2..], pathRoot, path)
      else if StartsWith(pattern, "**") then p.globMatches(p.isWindows, pattern, pathRoot, path)
      else if patternRoot == "" then false
      else if patternRoot != pathRoot then false
      else p.globMatches(p.isWindows, pattern[|patternRoot|..], pathRoot, path)
  }

  // What PathMatchesGlob decides: blank inputs and rootless paths never match; a match of a
  // pattern without a "*/" or "**" prefix means both roots are the same and not empty; and in
  // each of the three remaining cases the answer is the matcher's on the pattern as passed.
  lemma PathMatchesGlobCases(p: Platform, pattern: string, path: string)
    ensures IsBlank(pattern) || IsBlank(path) ==> !PathMatchesGlob(p, pattern, path)
    ensures PathRoot(p, path) == "" ==> !PathMatchesGlob(p, pattern, path)
    ensures PathMatchesGlob(p, pattern, path) && !StartsWith(pattern, "*/") && !StartsWith(pattern, "**") ==>
      PathRoot(p, pattern) != "" && PathRoot(p, pattern) == PathRoot(p, path)
    ensures !IsBlank(pattern) && !IsBlank(path) && PathRoot(p, path) != "" && StartsWith(pattern, "*/") ==>
      (PathMatchesGlob(p, pattern, path) <==> p.globMatches(p.isWindows, pattern[2..], PathRoot(p, path), path))
    ensures !IsBlank(pattern) && !IsBlank(path) && PathRoot(p, path) != "" && StartsWith(pattern, "**") ==>
      (PathMatchesGlob(p, pattern, path) <==> p.globMatches(p.isWindows, pattern, PathRoot(p, path), path))
    ensures !IsBlank(pattern) && !IsBlank(path) && !StartsWith(pattern, "*/") && !StartsWith(pattern, "**")
            && PathRoot(p, path) != "" && PathRoot(p, pattern) == PathRoot(p, path) ==>
      (PathMatchesGlob(p, pattern, path) <==> p.globMatches(p.isWindows, pattern[|PathRoot(p, path)|..], PathRoot(p, path), path))
  {
  }

  // A pattern written with '/' after its drive matches a path written with '\': both roots are
  // "C:\", so the pattern's root is stripped and the rest goes to the matcher.
  lemma MixedSeparatorRootMatches(p: Platform)
    requires p.isWindows
    requires p.rootLength("C:/Games/**") == 3 && p.rootLength("C:\\Games\\x.exe") == 3
    ensures PathMatchesGlob(p, "C:/Games/**", "C:\\Games\\x.exe")
            <==> p.globMatches(true, "Games/**", "C:\\", "C:\\Games\\x.exe")
  {
    var pattern, path := "C:/Games/**", "C:\\Games\\x.exe";
    assert !IsBlank(pattern) by { assert !IsWhiteSpace(pattern[0]); }
    assert !IsBlank(path) by { assert !IsWhiteSpace(path[0]); }
    assert PathRoot(p, pattern) == "C:\\" by {
      assert pattern[..3] == "C:/";
      assert RootSeparators(p, "C:/") == "C:\\";
    }
    assert PathRoot(p, path) == "C:\\" by {
      assert path[..3] == "C:\\";
      assert RootSeparators(p, "C:\\") == "C:\\";
    }
    assert !StartsWith(pattern, "*/") && !StartsWith(pattern, "**") by {
      assert pattern[..2] == "C:";
    }
    assert pattern[3..] == "Games/**";
  }

  // string.IsNullOrWhiteSpace counts the no-break space and the ideographic space as white
  // space, so a path made of them is blank and no pattern matches it.
  lemma UnicodeSpacesAreBlank(p: Platform, pattern: string)
    ensures !PathMatchesGlob(p, pattern, "\U{00A0}\U{3000}")
  {
  }

  /** A rule's path equals the image path. */
  predicate RuleIsFor(p: Platform, imagePath: string, rule: ProgramRule)
  {
    PathsEqual(p, rule.programPath, imagePath)
  }

  /** FindProgramRuleOrNull: the position of the first program rule for the path. */
  function FindProgramRuleOrNull(p: Platform, rules: seq<ProgramRule>, imagePath: string): (r: Option<nat>)
    ensures r.Some? ==> r.value < |rules| && RuleIsFor(p, imagePath, rules[r.value])
    ensures r.Some? ==> forall j :: 0 <= j < r.value ==> !RuleIsFor(p, imagePath, rules[j])
    ensures r.None? ==> forall j :: 0 <= j < |rules| ==> !RuleIsFor(p, imagePath, rules[j])
  {
    FirstIndex(rules, (rule: ProgramRule) => RuleIsFor(p, imagePath, rule))
  }

  /** The search of FindRuleTemplateOrNull from position k on. */
  function FindRuleTemplateFrom(p: Platform, templates: seq<RuleTemplate>, imagePath: string, k: nat): (r: Option<nat>)
    requires k <= |templates|
    reads templates
    decreases |templates| - k
    ensures r.Some? ==> k <= r.value < |templates| && PathMatchesGlob(p, templates[r.value].ruleGlob, imagePath)
    ensures r.Some? ==> forall j :: k <= j < r.value ==> !PathMatchesGlob(p, templates[j].ruleGlob, imagePath)
    ensures r.None? ==> forall j :: k <= j < |templates| ==> !PathMatchesGlob(p, templates[j].ruleGlob, imagePath)
  {
    if k == |templates| then None
    else if PathMatchesGlob(p, templates[k].ruleGlob, imagePath) then Some(k)
    else FindRuleTemplateFrom(p, templates, imagePath, k + 1)
  }

  /** FindRuleTemplateOrNull: the position of the first template whose glob matches the path. */
  function FindRuleTemplateOrNull(p: Platform, templates: seq<RuleTemplate>, imagePath: string): (r: Option<nat>)
    reads templates
    ensures r.Some? ==> r.value < |templates| && PathMatchesGlob(p, templates[r.value].ruleGlob, imagePath)
    ensures r.Some? ==> forall j :: 0 <= j < r.value ==> !PathMatchesGlob(p, templates[j].ruleGlob, imagePath)
    ensures r.None? ==> forall j :: 0 <= j < |templates| ==> !PathMatchesGlob(p, templates[j].ruleGlob, imagePath)
  {
    FindRuleTemplateFrom(p, templates, imagePath, 0)
  }

  /** The template FindRuleTemplateOrNull returns, or null. */
  function TemplateFor(p: Platform, templates: seq<RuleTemplate>, imagePath: string): (t: RuleTemplate?)
    reads templates
    ensures t != null ==> t in templates && PathMatchesGlob(p, t.ruleGlob, imagePath)
  {
    var k := FindRuleTemplateOrNull(p, templates, imagePath);
    if k.Some? then templates[k.value] else null
  }

  /** When two templates both match, the one earlier in the list is the one found. */
  lemma EarlierTemplateWins(p: Platform, templates: seq<RuleTemplate>, imagePath: string, i: nat, j: nat)
    requires i < j < |templates|
    requires PathMatchesGlob(p, templates[i].ruleGlob, imagePath)
    requires PathMatchesGlob(p, templates[j].ruleGlob, imagePath)
    ensures FindRuleTemplateOrNull(p, templates, imagePath).Some?
    ensures FindRuleTemplateOrNull(p, templates, imagePath).value <= i
  {
  }

  /** MaskIsUsedByRules: some program rule or some template has the mask. */
  function MaskIsUsedByRules(rules: seq<ProgramRule>, templates: seq<RuleTemplate>, mask: LogicalProcessorMask): (r: bool)
    reads rules, templates
    ensures r <==> ((exists i :: 0 <= i < |rules| && rules[i].mask == mask)
                    || (exists i :: 0 <= i < |templates| && templates[i].mask == mask))
  {
    AnyRuleUses(rules, mask, |rules|) || AnyTemplateUses(templates, mask, |templates|)
  }

  /** Enumerable.Any over the first k program rules. */
  function AnyRuleUses(rules: seq<ProgramRule>, mask: LogicalProcessorMask, k: nat): (r: bool)
    requires k <= |rules|
    reads rules
    ensures r <==> exists i :: 0 <= i < k && rules[i].mask == mask
  {
    k > 0 && (rules[k - 1].mask == mask || AnyRuleUses(rules, mask, k - 1))
  }

  /** Enumerable.Any over the first k templates. */
  function AnyTemplateUses(templates: seq<RuleTemplate>, mask: LogicalProcessorMask, k: nat): (r: bool)
    requires k <= |templates|
    reads templates
    ensures r <==> exists i :: 0 <= i < k && templates[i].mask == mask
  {
    k > 0 && (templates[k - 1].mask == mask || AnyTemplateUses(templates, mask, k - 1))
  }

  /**
   * GetProgramRuleOrNull: the first rule for the path if there is one; otherwise, if a template
   * matches, a new rule with the template's mask and MatchingRuleTemplate set, appended to the
   * rules; otherwise null, with nothing changed.
   */
  method GetProgramRuleOrNull(config: AppConfig, p: Platform, imagePath: string) returns (rule: ProgramRule?)
    modifies config`programRules
    ensures config.ruleTemplates == old(config.ruleTemplates)
    ensures config.logicalProcessorMasks == old(config.logicalProcessorMasks)
    ensures var k := FindProgramRuleOrNull(p, old(config.programRules), imagePath);
      k.Some? ==> rule == old(config.programRules)[k.value] && config.programRules == old(config.programRules)
    ensures FindProgramRuleOrNull(p, old(config.programRules), imagePath).None? ==>
      var t := TemplateFor(p, config.ruleTemplates, imagePath);
      (t == null ==> rule == null && config.programRules == old(config.programRules))
      && (t != null ==>
            rule != null && fresh(rule) && config.programRules == old(config.programRules) + [rule]
            && rule.programPath == imagePath && rule.mask == t.mask && rule.matchingRuleTemplate == t
            && rule.ListensToItsTemplate())
    ensures rule != null ==>
      (FindProgramRuleOrNull(p, config.programRules, imagePath).Some?
       && config.programRules[FindProgramRuleOrNull(p, config.programRules, imagePath).value] == rule)
  {
    var k := FindProgramRuleOrNull(p, config.programRules, imagePath);
    if k.Some? {
      return config.programRules[k.value];
    }
    var t := TemplateFor(p, config.ruleTemplates, imagePath);
    if t != null {
      // The three-argument constructor called here is not in ProgramRule.cs; the two-argument one is used.
      var newRule := new ProgramRule(imagePath, t.mask);
      newRule.SetMatchingRuleTemplate(t);
      assert TemplateFor(p, config.ruleTemplates, imagePath) == t;
      PathsEqualIsEquivalence(p, imagePath, imagePath, imagePath);
      FirstIndexAppend(config.programRules, newRule, (r: ProgramRule) => RuleIsFor(p, imagePath, r));
      config.programRules := config.programRules + [newRule];
      return newRule;
    }
    return null;
  }
}
