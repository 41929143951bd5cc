/**
 * The configuration file format: the object tree the JSON file holds, JsonToConfig, which turns a
 * loaded tree into the arguments of the AppConfig constructor, and the ConfigJson(AppConfig)
 * constructor, which turns a configuration back into a tree.
 *
 * JSON text, the file system and the backups are not modelled. Enum.Parse<VKey> and
 * VKey.ToString() are given as the functions parseKey and keyName. None in parseKey means the
 * name is unknown and Enum.Parse would throw ArgumentException. CpuInfo.LogicalProcessorCount is
 * the parameter logicalProcessorCount.
 */
module AppConfigFile {
  import opened Common
  import opened ConfigModels

  /** LogicalProcessorMaskJson: a user mask as the file stores it. */
  datatype LogicalProcessorMaskJson = LogicalProcessorMaskJson(name: string, mask: seq<bool>, hotkeys: seq<string>)

  /** ProgramMaskRuleJson: a rule refers to its mask by name. */
  datatype ProgramMaskRuleJson = ProgramMaskRuleJson(programPath: string, logicalProcessorMaskName: string)

  /** ConfigJson: the whole file. */
  datatype ConfigJson = ConfigJson(
    noMaskHotkeys: seq<string>,
    logicalProcessorMasks: seq<LogicalProcessorMaskJson>,
    programMaskRules: seq<ProgramMaskRuleJson>,
    automaticMaskRules: seq<ProgramMaskRuleJson>,
    muteHotkeySound: bool,
    startMinimized: bool,
    disableWelcomeMessage: bool,
    uiTheme: string,
    configVersion: int)

  /** ConfigJson.Default: the tree used when there is no config file or it cannot be read. */
  const DefaultConfigJson: ConfigJson := ConfigJson([], [], [], [], false, false, false, "System", 0)

  /** A program or automatic rule as the AppConfig constructor receives it. */
  datatype MaskRule = MaskRule(programPath: string, mask: LogicalProcessorMask)

  /** The configuration contents: what JsonToConfig hands to the AppConfig constructor and what ConfigJson reads. */
  datatype ConfigContents = ConfigContents(
    masks: seq<LogicalProcessorMask>,
    programMaskRules: seq<MaskRule>,
    automaticMaskRules: seq<MaskRule>,
    muteHotkeySound: bool,
    startMinimized: bool,
    disableWelcomeMessage: bool,
    uiTheme: Theme)

  /** The outcome of JsonToConfig: the constructor arguments and the hadSoftError out-parameter. */
  datatype LoadedConfig = LoadedConfig(config: ConfigContents, generateDefaultMasks: bool, hadSoftError: bool)

  // ---------------------------------------------------------------------------------------------
  // Enum names

  /** Theme.ToString(). */
  function ThemeName(t: Theme): string
  {
    match t
    case Light => "Light"
    case Dark => "Dark"
    case System => "System"
  }

  /**
   * Enum.Parse<Theme>(configJson.UiTheme), with the library's parse given as parseTheme: None
   * means the text names no member (Enum.Parse also accepts numbers and surrounding white
   * space, which parseTheme may do too) and Enum.Parse throws ArgumentException.
   */
  function ParseTheme(s: string, parseTheme: string -> Option<Theme>): (r: Result<Theme>)
    ensures r.Ok? <==> parseTheme(s).Some?
    ensures r.Ok? ==> parseTheme(s) == Some(r.value)
    ensures r.Err? ==> r.failure == Argument
  {
    match parseTheme(s)
    case None => Err(Argument)
    case Some(t) => Ok(t)
  }

  /** A theme written by its name is read back when parsing undoes naming. */
  lemma ThemeNameRoundTrip(t: Theme, parseTheme: string -> Option<Theme>)
    requires forall u :: parseTheme(ThemeName(u)) == Some(u)
    ensures ParseTheme(ThemeName(t), parseTheme) == Ok(t)
  {
  }

  /** hotkeys.Select(hotkey => Enum.Parse<VKey>(hotkey)): the first unknown name throws. */
  function ParseKeys(names: seq<string>, parseKey: string -> Option<VKey>): (r: Result<seq<VKey>>)
    ensures r.Ok? <==> forall i :: 0 <= i < |names| ==> parseKey(names[i]).Some?
    ensures r.Ok? ==> |r.value| == |names| && forall i :: 0 <= i < |names| ==> parseKey(names[i]) == Some(r.value[i])
    ensures r.Err? ==> r.failure == Argument
  {
    if names == [] then Ok([])
    else
      match parseKey(names[0])
      case None => Err(Argument)
      case Some(k) =>
        match ParseKeys(names[1..], parseKey)
        case Err(e) => Err(e)
        case Ok(keys) => Ok([k] + keys)
  }

  /** hotkeys.Select(hotkey => hotkey.ToString()). */
  function KeyNames(keys: seq<VKey>, keyName: VKey -> string): seq<string>
  {
    seq(|keys|, i requires 0 <= i < |keys| => keyName(keys[i]))
  }

  /** Written key names parse back to the same keys when parsing undoes naming. */
  lemma KeyNamesRoundTrip(keys: seq<VKey>, keyName: VKey -> string, parseKey: string -> Option<VKey>)
    requires forall k :: parseKey(keyName(k)) == Some(k)
    ensures ParseKeys(KeyNames(keys, keyName), parseKey) == Ok(keys)
  {
    var r := ParseKeys(KeyNames(keys, keyName), parseKey);
    assert r.Ok?;
    assert r.value == keys;
  }

  // ---------------------------------------------------------------------------------------------
  // Enumerable.Single

  /** Exactly one element of s satisfies p. */
  predicate ExactlyOne<T>(s: seq<T>, p: T -> bool)
  {
    exists i :: 0 <= i < |s| && p(s[i]) && forall j :: 0 <= j < |s| && p(s[j]) ==> j == i
  }

  /** A filter keeps one element exactly when one element satisfies the predicate. */
  lemma {:induction false} FilterExactlyOne<T>(s: seq<T>, p: T -> bool)
    ensures |Filter(s, p)| == 1 <==> ExactlyOne(s, p)
    ensures |Filter(s, p)| == 0 <==> forall i :: 0 <= i < |s| ==> !p(s[i])
  {
    if |s| > 0 {
      var t := s[1..];
      FilterExactlyOne(t, p);
      assert forall i :: 0 <= i < |t| ==> t[i] == s[i + 1];
      if p(s[0]) {
        assert |Filter(s, p)| == 1 + |Filter(t, p)|;
        ExactlyOneWithHead(s, p);
      } else {
        assert Filter(s, p) == Filter(t, p);
        ExactlyOneWithoutHead(s, p);
      }
    }
  }

  /** When the first element satisfies p, it is the only one exactly when no later element does. */
  lemma ExactlyOneWithHead<T>(s: seq<T>, p: T -> bool)
    requires |s| > 0 && p(s[0])
    ensures ExactlyOne(s, p) <==> forall i :: 0 <= i < |s[1..]| ==> !p(s[1..][i])
  {
    var t := s[1..];
    assert forall i :: 0 <= i < |t| ==> t[i] == s[i + 1];
    if forall i :: 0 <= i < |t| ==> !p(t[i]) {
      assert forall j :: 0 <= j < |s| && p(s[j]) ==> j == 0 by {
        forall j | 0 < j < |s| ensures !p(s[j]) {
          assert s[j] == t[j - 1];
        }
      }
      assert ExactlyOne(s, p);
    }
  }

  /** When the first element fails p, exactly one element satisfies it in s exactly when one does in s[1..]. */
  lemma ExactlyOneWithoutHead<T>(s: seq<T>, p: T -> bool)
    requires |s| > 0 && !p(s[0])
    ensures ExactlyOne(s, p) <==> ExactlyOne(s[1..], p)
  {
    var t := s[1..];
    if ExactlyOne(t, p) {
      var i :| 0 <= i < |t| && p(t[i]) && forall j :: 0 <= j < |t| && p(t[j]) ==> j == i;
      assert s[i + 1] == t[i];
      forall j | 0 <= j < |s| && p(s[j]) ensures j == i + 1 {
        assert j > 0 && s[j] == t[j - 1];
      }
      assert ExactlyOne(s, p);
    }
    if ExactlyOne(s, p) {
      var i :| 0 <= i < |s| && p(s[i]) && forall j :: 0 <= j < |s| && p(s[j]) ==> j == i;
      assert i > 0 && t[i - 1] == s[i];
      forall j | 0 <= j < |t| && p(t[j]) ensures j == i - 1 {
        assert s[j + 1] == t[j];
      }
      assert ExactlyOne(t, p);
    }
  }

  /** The test of the Single calls of JsonToConfig. */
  function NamedAs(name: string): LogicalProcessorMask -> bool
  {
    (m: LogicalProcessorMask) => m.name == name
  }

  /** masks.Single(mask => mask.Name == name): the one mask of that name, or InvalidOperationException. */
  function SingleNamed(masks: seq<LogicalProcessorMask>, name: string): (r: Result<LogicalProcessorMask>)
    ensures r.Ok? ==> r.value in masks && r.value.name == name
    ensures r.Err? ==> r.failure == InvalidOperation
  {
    var named := Filter(masks, NamedAs(name));
    if |named| == 1 then Ok(named[0]) else Err(InvalidOperation)
  }

  /** Single succeeds exactly when one mask has the name. */
  lemma SingleNamedSpec(masks: seq<LogicalProcessorMask>, name: string)
    ensures SingleNamed(masks, name).Ok? <==> ExactlyOne(masks, NamedAs(name))
  {
    FilterExactlyOne(masks, NamedAs(name));
  }

  /** In a list of distinct names Single finds every member by its name. */
  lemma SingleNamedFinds(masks: seq<LogicalProcessorMask>, m: LogicalProcessorMask)
    requires DistinctNames(masks) && m in masks
    ensures SingleNamed(masks, m.name) == Ok(m)
  {
    var i :| 0 <= i < |masks| && masks[i] == m;
    assert forall j :: 0 <= j < |masks| && NamedAs(m.name)(masks[j]) ==> j == i;
    SingleNamedSpec(masks, m.name);
  }

  /** The rule list of JsonToConfig: each rule gets the one mask its name designates. */
  function ResolveRules(rules: seq<ProgramMaskRuleJson>, masks: seq<LogicalProcessorMask>): (r: Result<seq<MaskRule>>)
    ensures r.Ok? <==> forall i :: 0 <= i < |rules| ==> SingleNamed(masks, rules[i].logicalProcessorMaskName).Ok?
    ensures r.Err? ==> r.failure == InvalidOperation
    ensures r.Ok? ==> |r.value| == |rules|
    ensures r.Ok? ==> forall i :: 0 <= i < |rules| ==>
      && r.value[i].programPath == rules[i].programPath
      && r.value[i].mask in masks
      && r.value[i].mask.name == rules[i].logicalProcessorMaskName
  {
    if rules == [] then Ok([])
    else
      match SingleNamed(masks, rules[0].logicalProcessorMaskName)
      case Err(e) => Err(e)
      case Ok(mask) =>
        match ResolveRules(rules[1..], masks)
        case Err(e) => Err(e)
        case Ok(rest) => Ok([MaskRule(rules[0].programPath, mask)] + rest)
  }

  // ---------------------------------------------------------------------------------------------
  // Loading the masks

  /** The masks built so far by the foreach loop of JsonToConfig, and the hadSoftError flag. */
  datatype MaskLoad = MaskLoad(masks: seq<LogicalProcessorMask>, hadSoftError: bool)

  /** The mask object created for a kept entry (the 3-argument LogicalProcessorMask constructor). */
  function LoadedMask(m: LogicalProcessorMaskJson, keys: seq<VKey>): LogicalProcessorMask
  {
    NewMask(m.name, CPUSet, m.mask, keys)
  }

  /** One pass of the loop: an entry with a taken name or the wrong length is dropped with a soft error. */
  function LoadMaskStep(acc: MaskLoad, m: LogicalProcessorMaskJson, logicalProcessorCount: nat,
                        parseKey: string -> Option<VKey>): Result<MaskLoad>
  {
    if HasName(acc.masks, m.name) then Ok(MaskLoad(acc.masks, true))
    else if |m.mask| != logicalProcessorCount then Ok(MaskLoad(acc.masks, true))
    else
      match ParseKeys(m.hotkeys, parseKey)
      case Err(e) => Err(e)
      case Ok(keys) => Ok(MaskLoad(acc.masks + [LoadedMask(m, keys)], acc.hadSoftError))
  }

  /** The loop over the remaining entries. */
  function LoadMasks(acc: MaskLoad, ms: seq<LogicalProcessorMaskJson>, logicalProcessorCount: nat,
                     parseKey: string -> Option<VKey>): Result<MaskLoad>
    decreases |ms|
  {
    if ms == [] then Ok(acc)
    else
      match LoadMaskStep(acc, ms[0], logicalProcessorCount, parseKey)
      case Err(e) => Err(e)
      case Ok(next) => LoadMasks(next, ms[1..], logicalProcessorCount, parseKey)
  }

  /**
   * The loop keeps the masks it started with, only appends user masks of the right length, and
   * ends with a soft error exactly when it started with one or dropped an entry.
   */
  lemma {:induction false} LoadMasksShape(acc: MaskLoad, ms: seq<LogicalProcessorMaskJson>, logicalProcessorCount: nat,
                                          parseKey: string -> Option<VKey>)
    ensures var r := LoadMasks(acc, ms, logicalProcessorCount, parseKey);
      && (r.Err? ==> r.failure == Argument)
      && (r.Ok? ==>
        && |acc.masks| <= |r.value.masks| <= |acc.masks| + |ms|
        && r.value.masks[..|acc.masks|] == acc.masks
        && (r.value.hadSoftError <==> acc.hadSoftError || |r.value.masks| < |acc.masks| + |ms|)
        && forall i :: |acc.masks| <= i < |r.value.masks| ==>
          !r.value.masks[i].isNoMask && |r.value.masks[i].boolMask| == logicalProcessorCount)
    decreases |ms|
  {
    if ms != [] {
      var step := LoadMaskStep(acc, ms[0], logicalProcessorCount, parseKey);
      if step.Ok? {
        LoadMasksShape(step.value, ms[1..], logicalProcessorCount, parseKey);
        var r := LoadMasks(acc, ms, logicalProcessorCount, parseKey);
        if r.Ok? && |step.value.masks| > |acc.masks| {
          assert r.value.masks[..|acc.masks|] == r.value.masks[..|step.value.masks|][..|acc.masks|];
        }
      }
    }
  }

  /** The loop never adds a second mask of a name. */
  lemma {:induction false} LoadMasksDistinct(acc: MaskLoad, ms: seq<LogicalProcessorMaskJson>, logicalProcessorCount: nat,
                                             parseKey: string -> Option<VKey>)
    requires DistinctNames(acc.masks)
    ensures LoadMasks(acc, ms, logicalProcessorCount, parseKey).Ok? ==>
      DistinctNames(LoadMasks(acc, ms, logicalProcessorCount, parseKey).value.masks)
    decreases |ms|
  {
    if ms != [] {
      var step := LoadMaskStep(acc, ms[0], logicalProcessorCount, parseKey);
      if step.Ok? {
        if |step.value.masks| != |acc.masks| {
          var grown := step.value.masks;
          assert !HasName(acc.masks, ms[0].name);
          assert grown == acc.masks + [grown[|acc.masks|]];
          forall i, j | 0 <= i < j < |grown| ensures grown[i].name != grown[j].name {
            if j == |acc.masks| {
              assert grown[i] == acc.masks[i];
            }
          }
        }
        LoadMasksDistinct(step.value, ms[1..], logicalProcessorCount, parseKey);
      }
    }
  }

  /** a is b with some elements left out. */
  predicate IsSubsequence<T(==)>(a: seq<T>, b: seq<T>)
    decreases |b|
  {
    if a == [] then true
    else if b == [] then false
    else (a[0] == b[0] && IsSubsequence(a[1..], b[1..])) || IsSubsequence(a, b[1..])
  }

  /** The names and bits of a list of masks. */
  function MaskEntries(masks: seq<LogicalProcessorMask>): seq<(string, seq<bool>)>
  {
    seq(|masks|, i requires 0 <= i < |masks| => (masks[i].name, masks[i].boolMask))
  }

  /** The names and bits of a list of file entries. */
  function JsonEntries(ms: seq<LogicalProcessorMaskJson>): seq<(string, seq<bool>)>
  {
    seq(|ms|, i requires 0 <= i < |ms| => (ms[i].name, ms[i].mask))
  }

  /** The masks the loop appends are file entries in file order, with their names and bits. */
  lemma {:induction false} LoadMasksInFileOrder(acc: MaskLoad, ms: seq<LogicalProcessorMaskJson>, logicalProcessorCount: nat,
                                                parseKey: string -> Option<VKey>)
    ensures var r := LoadMasks(acc, ms, logicalProcessorCount, parseKey);
      r.Ok? ==> |acc.masks| <= |r.value.masks| && IsSubsequence(MaskEntries(r.value.masks[|acc.masks|..]), JsonEntries(ms))
    decreases |ms|
  {
    LoadMasksShape(acc, ms, logicalProcessorCount, parseKey);
    var r := LoadMasks(acc, ms, logicalProcessorCount, parseKey);
    if ms != [] && r.Ok? {
      var step := LoadMaskStep(acc, ms[0], logicalProcessorCount, parseKey);
      var next := step.value;
      LoadMasksInFileOrder(next, ms[1..], logicalProcessorCount, parseKey);
      LoadMasksShape(next, ms[1..], logicalProcessorCount, parseKey);
      var added := MaskEntries(r.value.masks[|acc.masks|..]);
      var rest := MaskEntries(r.value.masks[|next.masks|..]);
      assert JsonEntries(ms)[1..] == JsonEntries(ms[1..]);
      if |next.masks| == |acc.masks| {
        assert added == rest;
      } else {
        assert r.value.masks[|acc.masks|] == next.masks[|acc.masks|];
        assert added == [added[0]] + rest;
        assert added[0] == JsonEntries(ms)[0];
        assert added[1..] == rest;
      }
    }
  }

  /** The entry the ConfigJson constructor writes for a user mask. */
  function MaskJsonOf(m: LogicalProcessorMask, keyName: VKey -> string): LogicalProcessorMaskJson
  {
    LogicalProcessorMaskJson(m.name, m.boolMask, KeyNames(m.hotkeys, keyName))
  }

  /** The entries written for a list of user masks. */
  function MasksJson(masks: seq<LogicalProcessorMask>, keyName: VKey -> string): seq<LogicalProcessorMaskJson>
  {
    seq(|masks|, i requires 0 <= i < |masks| => MaskJsonOf(masks[i], keyName))
  }

  /** A mask as the 3-argument constructor makes it, with one entry per logical processor. */
  predicate IsLoadableUserMask(m: LogicalProcessorMask, logicalProcessorCount: nat)
  {
    m == NewMask(m.name, CPUSet, m.boolMask, m.hotkeys) && |m.boolMask| == logicalProcessorCount
  }

  /** Written user masks with fresh, distinct names and the right length are all loaded back, in order. */
  lemma {:induction false} LoadSavedMasks(acc: MaskLoad, users: seq<LogicalProcessorMask>, logicalProcessorCount: nat,
                                          keyName: VKey -> string, parseKey: string -> Option<VKey>)
    requires forall k :: parseKey(keyName(k)) == Some(k)
    requires forall i :: 0 <= i < |users| ==> IsLoadableUserMask(users[i], logicalProcessorCount)
    requires forall i :: 0 <= i < |users| ==> !HasName(acc.masks, users[i].name)
    requires DistinctNames(users)
    ensures LoadMasks(acc, MasksJson(users, keyName), logicalProcessorCount, parseKey) == Ok(MaskLoad(acc.masks + users, acc.hadSoftError))
    decreases |users|
  {
    var ms := MasksJson(users, keyName);
    if users != [] {
      var u := users[0];
      KeyNamesRoundTrip(u.hotkeys, keyName, parseKey);
      assert ms[0] == MaskJsonOf(u, keyName);
      assert LoadedMask(ms[0], u.hotkeys) == u;
      var next := MaskLoad(acc.masks + [u], acc.hadSoftError);
      assert LoadMaskStep(acc, ms[0], logicalProcessorCount, parseKey) == Ok(next);
      assert ms[1..] == MasksJson(users[1..], keyName);
      forall i | 0 <= i < |users[1..]| ensures !HasName(next.masks, users[1..][i].name) {
        assert users[1..][i] == users[i + 1];
        assert !HasName(acc.masks, users[i + 1].name) && users[0].name != users[i + 1].name;
      }
      LoadSavedMasks(next, users[1..], logicalProcessorCount, keyName, parseKey);
      assert next.masks + users[1..] == acc.masks + users;
    } else {
      assert ms == [];
      assert acc.masks + users == acc.masks;
    }
  }

  // ---------------------------------------------------------------------------------------------
  // JsonToConfig

  /** What JsonToConfig computes: NoMask first, then the loaded masks, the rules and the settings. */
  function FromJson(json: ConfigJson, generateDefaultMasks: bool, logicalProcessorCount: nat,
                    parseKey: string -> Option<VKey>, parseTheme: string -> Option<Theme>): Result<LoadedConfig>
  {
    match ParseKeys(json.noMaskHotkeys, parseKey)
    case Err(e) => Err(e)
    case Ok(noMaskKeys) =>
      match LoadMasks(MaskLoad([InitNoMask(noMaskKeys)], false), json.logicalProcessorMasks, logicalProcessorCount, parseKey)
      case Err(e) => Err(e)
      case Ok(load) =>
        match ResolveRules(json.programMaskRules, load.masks)
        case Err(e) => Err(e)
        case Ok(programRules) =>
          match ResolveRules(json.automaticMaskRules, load.masks)
          case Err(e) => Err(e)
          case Ok(automaticRules) =>
            match ParseTheme(json.uiTheme, parseTheme)
            case Err(e) => Err(e)
            case Ok(theme) =>
              Ok(LoadedConfig(
                   ConfigContents(load.masks, programRules, automaticRules, json.muteHotkeySound,
                                  json.startMinimized, json.disableWelcomeMessage, theme),
                   generateDefaultMasks, load.hadSoftError))
  }

  /**
   * JsonToConfig: NoMask with the stored hotkeys first, then every file entry whose name is new and
   * whose length is the processor count; the rules are resolved by mask name.
   */
  method JsonToConfig(json: ConfigJson, generateDefaultMasks: bool, logicalProcessorCount: nat,
                      parseKey: string -> Option<VKey>, parseTheme: string -> Option<Theme>) returns (r: Result<LoadedConfig>)
    ensures r == FromJson(json, generateDefaultMasks, logicalProcessorCount, parseKey, parseTheme)
  {
    var noMaskHotkeys := ParseKeys(json.noMaskHotkeys, parseKey);
    if noMaskHotkeys.Err? {
      return Err(noMaskHotkeys.failure);
    }
    ghost var start := MaskLoad([InitNoMask(noMaskHotkeys.value)], false);
    var masks := [InitNoMask(noMaskHotkeys.value)];
    var hadSoftError := false;
    var entries := json.logicalProcessorMasks;
    var i := 0;
    while i < |entries|
      invariant 0 <= i <= |entries|
      invariant LoadMasks(MaskLoad(masks, hadSoftError), entries[i..], logicalProcessorCount, parseKey)
             == LoadMasks(start, entries, logicalProcessorCount, parseKey)
    {
      var entry := entries[i];
      assert entries[i..][0] == entry && entries[i..][1..] == entries[i + 1..];
      var duplicate := AppConfig.HasNameLoop(masks, entry.name);
      if duplicate {
        hadSoftError := true;
      } else if |entry.mask| != logicalProcessorCount {
        hadSoftError := true;
      } else {
        var hotkeys := ParseKeys(entry.hotkeys, parseKey);
        if hotkeys.Err? {
          return Err(hotkeys.failure);
        }
        masks := masks + [LoadedMask(entry, hotkeys.value)];
      }
      i := i + 1;
    }
    assert entries[i..] == [];
    var programRules := ResolveRules(json.programMaskRules, masks);
    if programRules.Err? {
      return Err(programRules.failure);
    }
    var automaticRules := ResolveRules(json.automaticMaskRules, masks);
    if automaticRules.Err? {
      return Err(automaticRules.failure);
    }
    var theme := ParseTheme(json.uiTheme, parseTheme);
    if theme.Err? {
      return Err(theme.failure);
    }
    r := Ok(LoadedConfig(
          ConfigContents(masks, programRules.value, automaticRules.value, json.muteHotkeySound,
                         json.startMinimized, json.disableWelcomeMessage, theme.value),
          generateDefaultMasks, hadSoftError));
  }

  /**
   * A loaded configuration starts with NoMask carrying the stored hotkeys, has distinct names, holds
   * user masks of the processor count in file order, reports a soft error exactly when an entry was
   * dropped, and gives every rule a mask of the list with the name the rule stores.
   */
  lemma FromJsonSpec(json: ConfigJson, generateDefaultMasks: bool, logicalProcessorCount: nat,
                     parseKey: string -> Option<VKey>, parseTheme: string -> Option<Theme>)
    ensures var r := FromJson(json, generateDefaultMasks, logicalProcessorCount, parseKey, parseTheme);
      r.Ok? ==>
        var masks := r.value.config.masks;
        && ParseKeys(json.noMaskHotkeys, parseKey).Ok?
        && 1 <= |masks| && masks[0] == InitNoMask(ParseKeys(json.noMaskHotkeys, parseKey).value)
        && DistinctNames(masks)
        && (forall i :: 1 <= i < |masks| ==> !masks[i].isNoMask && |masks[i].boolMask| == logicalProcessorCount)
        && IsSubsequence(MaskEntries(masks[1..]), JsonEntries(json.logicalProcessorMasks))
        && (r.value.hadSoftError <==> |masks| < 1 + |json.logicalProcessorMasks|)
        && r.value.generateDefaultMasks == generateDefaultMasks
        && |r.value.config.programMaskRules| == |json.programMaskRules|
        && (forall i :: 0 <= i < |json.programMaskRules| ==>
          && r.value.config.programMaskRules[i].programPath == json.programMaskRules[i].programPath
          && r.value.config.programMaskRules[i].mask in masks
          && r.value.config.programMaskRules[i].mask.name == json.programMaskRules[i].logicalProcessorMaskName)
        && |r.value.config.automaticMaskRules| == |json.automaticMaskRules|
        && (forall i :: 0 <= i < |json.automaticMaskRules| ==>
          && r.value.config.automaticMaskRules[i].programPath == json.automaticMaskRules[i].programPath
          && r.value.config.automaticMaskRules[i].mask in masks
          && r.value.config.automaticMaskRules[i].mask.name == json.automaticMaskRules[i].logicalProcessorMaskName)
        && parseTheme(json.uiTheme) == Some(r.value.config.uiTheme)
  {
    var keys := ParseKeys(json.noMaskHotkeys, parseKey);
    if keys.Ok? {
      var start := MaskLoad([InitNoMask(keys.value)], false);
      LoadMasksShape(start, json.logicalProcessorMasks, logicalProcessorCount, parseKey);
      LoadMasksDistinct(start, json.logicalProcessorMasks, logicalProcessorCount, parseKey);
      LoadMasksInFileOrder(start, json.logicalProcessorMasks, logicalProcessorCount, parseKey);
    }
  }

  /** A rule whose mask name is missing or taken twice makes loading throw InvalidOperationException. */
  lemma FromJsonNeedsSingleMask(json: ConfigJson, generateDefaultMasks: bool, logicalProcessorCount: nat,
                                parseKey: string -> Option<VKey>, parseTheme: string -> Option<Theme>,
                                load: MaskLoad, i: nat)
    requires ParseKeys(json.noMaskHotkeys, parseKey).Ok?
    requires LoadMasks(MaskLoad([InitNoMask(ParseKeys(json.noMaskHotkeys, parseKey).value)], false),
                       json.logicalProcessorMasks, logicalProcessorCount, parseKey) == Ok(load)
    requires i < |json.programMaskRules|
    requires !ExactlyOne(load.masks, NamedAs(json.programMaskRules[i].logicalProcessorMaskName))
    ensures FromJson(json, generateDefaultMasks, logicalProcessorCount, parseKey, parseTheme) == Err(InvalidOperation)
  {
    SingleNamedSpec(load.masks, json.programMaskRules[i].logicalProcessorMaskName);
  }

  // ---------------------------------------------------------------------------------------------
  // The ConfigJson(AppConfig) constructor

  function IsUserMask(m: LogicalProcessorMask): bool
  {
    !m.isNoMask
  }

  function IsNoMask(m: LogicalProcessorMask): bool
  {
    m.isNoMask
  }

  /** The entry written for a rule: its path and the name of its mask. */
  function RuleJsonOf(rule: MaskRule): ProgramMaskRuleJson
  {
    ProgramMaskRuleJson(rule.programPath, rule.mask.name)
  }

  function RulesJson(rules: seq<MaskRule>): seq<ProgramMaskRuleJson>
  {
    seq(|rules|, i requires 0 <= i < |rules| => RuleJsonOf(rules[i]))
  }

  /** The NoMask entries and the user masks split the mask list between them. */
  lemma MaskSplit(masks: seq<LogicalProcessorMask>)
    ensures |Filter(masks, IsNoMask)| + |Filter(masks, IsUserMask)| == |masks|
  {
    FilterPartition(masks, IsNoMask, IsUserMask);
    assert |multiset(Filter(masks, IsNoMask))| + |multiset(Filter(masks, IsUserMask))| == |multiset(masks)|;
  }

  /**
   * ConfigJson(AppConfig): the hotkeys of the one NoMask, the other masks, the rules by mask name,
   * the settings and ConfigVersion 1. No NoMask, or more than one, makes Single throw.
   */
  function ToJson(c: ConfigContents, keyName: VKey -> string): (r: Result<ConfigJson>)
    ensures r.Ok? <==> ExactlyOne(c.masks, IsNoMask)
    ensures r.Err? ==> r.failure == InvalidOperation
    ensures r.Ok? ==> r.value.configVersion == ConfigVersion && r.value.uiTheme == ThemeName(c.uiTheme)
    ensures r.Ok? ==> exists i :: (0 <= i < |c.masks| && c.masks[i].isNoMask
                                   && r.value.noMaskHotkeys == KeyNames(c.masks[i].hotkeys, keyName))
    ensures r.Ok? ==> |r.value.logicalProcessorMasks| == |c.masks| - 1
    ensures r.Ok? ==> forall j :: 0 <= j < |r.value.logicalProcessorMasks| ==>
      exists m :: m in c.masks && !m.isNoMask && r.value.logicalProcessorMasks[j] == MaskJsonOf(m, keyName)
  {
    var noMasks := Filter(c.masks, IsNoMask);
    FilterExactlyOne(c.masks, IsNoMask);
    MaskSplit(c.masks);
    var users := Filter(c.masks, IsUserMask);
    if |noMasks| != 1 then Err(InvalidOperation)
    else
      assert noMasks[0] in noMasks;
      assert forall j :: 0 <= j < |users| ==> users[j] in users;
      Ok(ConfigJson(
           KeyNames(noMasks[0].hotkeys, keyName),
           MasksJson(users, keyName),
           RulesJson(c.programMaskRules),
           RulesJson(c.automaticMaskRules),
           c.muteHotkeySound,
           c.startMinimized,
           c.disableWelcomeMessage,
           ThemeName(c.uiTheme),
           ConfigVersion))
  }

  /**
   * What a successful ConfigJson(AppConfig) holds besides the NoMask hotkeys: the masks other than
   * NoMask in their order, each rule as its path and its mask's name in the order of its list, and
   * the three settings.
   */
  lemma ToJsonContents(c: ConfigContents, keyName: VKey -> string)
    requires ToJson(c, keyName).Ok?
    ensures var users := Filter(c.masks, IsUserMask);
      && |ToJson(c, keyName).value.logicalProcessorMasks| == |users|
      && forall j :: 0 <= j < |users| ==> ToJson(c, keyName).value.logicalProcessorMasks[j] == MaskJsonOf(users[j], keyName)
    ensures var json := ToJson(c, keyName).value;
      && |json.programMaskRules| == |c.programMaskRules|
      && |json.automaticMaskRules| == |c.automaticMaskRules|
      && (forall i :: 0 <= i < |c.programMaskRules| ==>
            json.programMaskRules[i] == ProgramMaskRuleJson(c.programMaskRules[i].programPath, c.programMaskRules[i].mask.name))
      && (forall i :: 0 <= i < |c.automaticMaskRules| ==>
            json.automaticMaskRules[i] == ProgramMaskRuleJson(c.automaticMaskRules[i].programPath, c.automaticMaskRules[i].mask.name))
    ensures var json := ToJson(c, keyName).value;
      && json.muteHotkeySound == c.muteHotkeySound
      && json.startMinimized == c.startMinimized
      && json.disableWelcomeMessage == c.disableWelcomeMessage
  {
    var users := Filter(c.masks, IsUserMask);
    FilterExactlyOne(c.masks, IsNoMask);
    var json := ToJson(c, keyName).value;
    assert json.logicalProcessorMasks == MasksJson(users, keyName);
    assert json.programMaskRules == RulesJson(c.programMaskRules);
    assert json.automaticMaskRules == RulesJson(c.automaticMaskRules);
  }

  /** Loading the rules written for rules over a list of distinct names gives the same rules. */
  lemma {:induction false} ResolveSavedRules(rules: seq<MaskRule>, masks: seq<LogicalProcessorMask>)
    requires DistinctNames(masks)
    requires forall i :: 0 <= i < |rules| ==> rules[i].mask in masks
    ensures ResolveRules(RulesJson(rules), masks) == Ok(rules)
    decreases |rules|
  {
    if rules != [] {
      var js, tail := RulesJson(rules), rules[1..];
      assert js[0] == RuleJsonOf(rules[0]);
      SingleNamedFinds(masks, rules[0].mask);
      assert js[1..] == RulesJson(tail);
      ResolveSavedRules(tail, masks);
      assert ResolveRules(js, masks) == Ok([MaskRule(rules[0].programPath, rules[0].mask)] + tail);
      assert rules == [rules[0]] + tail;
    }
  }

  /** With NoMask first and user masks after it, ConfigJson writes NoMask's hotkeys and the rest in order. */
  lemma SavedJson(c: ConfigContents, keyName: VKey -> string)
    requires |c.masks| > 0 && c.masks[0].isNoMask
    requires forall i :: 1 <= i < |c.masks| ==> !c.masks[i].isNoMask
    ensures ToJson(c, keyName) == Ok(ConfigJson(
              KeyNames(c.masks[0].hotkeys, keyName), MasksJson(c.masks[1..], keyName),
              RulesJson(c.programMaskRules), RulesJson(c.automaticMaskRules),
              c.muteHotkeySound, c.startMinimized, c.disableWelcomeMessage,
              ThemeName(c.uiTheme), ConfigVersion))
  {
    var users := c.masks[1..];
    assert c.masks == [c.masks[0]] + users;
    assert forall i :: 0 <= i < |users| ==> users[i] == c.masks[i + 1];
    FilterExactlyOne(users, IsNoMask);
    assert Filter(c.masks, IsNoMask) == [c.masks[0]] + Filter(users, IsNoMask);
    FilterSame(users, IsUserMask, (m: LogicalProcessorMask) => true);
    FilterAll(users);
    assert Filter(c.masks, IsUserMask) == users;
  }

  /**
   * Round trip: a configuration with NoMask first, distinct names, user masks of the processor count
   * and rules over its own masks is written and loaded back unchanged and without a soft error.
   */
  lemma SaveThenLoad(c: ConfigContents, generateDefaultMasks: bool, logicalProcessorCount: nat,
                     keyName: VKey -> string, parseKey: string -> Option<VKey>,
                     parseTheme: string -> Option<Theme>)
    requires forall k :: parseKey(keyName(k)) == Some(k)
    requires forall t :: parseTheme(ThemeName(t)) == Some(t)
    requires |c.masks| > 0 && c.masks[0] == InitNoMask(c.masks[0].hotkeys)
    requires forall i :: 1 <= i < |c.masks| ==> IsLoadableUserMask(c.masks[i], logicalProcessorCount)
    requires DistinctNames(c.masks)
    requires forall i :: 0 <= i < |c.programMaskRules| ==> c.programMaskRules[i].mask in c.masks
    requires forall i :: 0 <= i < |c.automaticMaskRules| ==> c.automaticMaskRules[i].mask in c.masks
    ensures ToJson(c, keyName).Ok?
    ensures FromJson(ToJson(c, keyName).value, generateDefaultMasks, logicalProcessorCount, parseKey, parseTheme)
         == Ok(LoadedConfig(c, generateDefaultMasks, false))
  {
    SavedJson(c, keyName);
    LoadSavedJson(c, generateDefaultMasks, logicalProcessorCount, keyName, parseKey, parseTheme);
  }

  /** The loading half of SaveThenLoad, on the tree SavedJson describes. */
  lemma LoadSavedJson(c: ConfigContents, generateDefaultMasks: bool, logicalProcessorCount: nat,
                      keyName: VKey -> string, parseKey: string -> Option<VKey>,
                      parseTheme: string -> Option<Theme>)
    requires forall k :: parseKey(keyName(k)) == Some(k)
    requires forall t :: parseTheme(ThemeName(t)) == Some(t)
    requires |c.masks| > 0 && c.masks[0] == InitNoMask(c.masks[0].hotkeys)
    requires forall i :: 1 <= i < |c.masks| ==> IsLoadableUserMask(c.masks[i], logicalProcessorCount)
    requires DistinctNames(c.masks)
    requires forall i :: 0 <= i < |c.programMaskRules| ==> c.programMaskRules[i].mask in c.masks
    requires forall i :: 0 <= i < |c.automaticMaskRules| ==> c.automaticMaskRules[i].mask in c.masks
    ensures FromJson(ConfigJson(
              KeyNames(c.masks[0].hotkeys, keyName), MasksJson(c.masks[1..], keyName),
              RulesJson(c.programMaskRules), RulesJson(c.automaticMaskRules),
              c.muteHotkeySound, c.startMinimized, c.disableWelcomeMessage,
              ThemeName(c.uiTheme), ConfigVersion), generateDefaultMasks, logicalProcessorCount, parseKey, parseTheme)
         == Ok(LoadedConfig(c, generateDefaultMasks, false))
  {
    var json := ConfigJson(
      KeyNames(c.masks[0].hotkeys, keyName), MasksJson(c.masks[1..], keyName),
      RulesJson(c.programMaskRules), RulesJson(c.automaticMaskRules),
      c.muteHotkeySound, c.startMinimized, c.disableWelcomeMessage,
      ThemeName(c.uiTheme), ConfigVersion);
    var start := MaskLoad([c.masks[0]], false);
    KeyNamesRoundTrip(c.masks[0].hotkeys, keyName, parseKey);
    UsersLoadable(c, logicalProcessorCount);
    LoadSavedMasks(start, c.masks[1..], logicalProcessorCount, keyName, parseKey);
    assert start.masks + c.masks[1..] == c.masks;
    ResolveSavedRules(c.programMaskRules, c.masks);
    ResolveSavedRules(c.automaticMaskRules, c.masks);
    ThemeNameRoundTrip(c.uiTheme, parseTheme);
    FromJsonOfParts(json, generateDefaultMasks, logicalProcessorCount, parseKey, parseTheme, c.masks[0].hotkeys,
                    MaskLoad(c.masks, false), c.programMaskRules, c.automaticMaskRules, c.uiTheme);
  }

  /** FromJson assembled from the outcomes of its steps. */
  lemma FromJsonOfParts(json: ConfigJson, generateDefaultMasks: bool, logicalProcessorCount: nat,
                        parseKey: string -> Option<VKey>, parseTheme: string -> Option<Theme>,
                        noMaskKeys: seq<VKey>, load: MaskLoad,
                        programRules: seq<MaskRule>, automaticRules: seq<MaskRule>, theme: Theme)
    requires ParseKeys(json.noMaskHotkeys, parseKey) == Ok(noMaskKeys)
    requires LoadMasks(MaskLoad([InitNoMask(noMaskKeys)], false), json.logicalProcessorMasks, logicalProcessorCount, parseKey) == Ok(load)
    requires ResolveRules(json.programMaskRules, load.masks) == Ok(programRules)
    requires ResolveRules(json.automaticMaskRules, load.masks) == Ok(automaticRules)
    requires ParseTheme(json.uiTheme, parseTheme) == Ok(theme)
    ensures FromJson(json, generateDefaultMasks, logicalProcessorCount, parseKey, parseTheme)
         == Ok(LoadedConfig(ConfigContents(load.masks, programRules, automaticRules, json.muteHotkeySound,
                                           json.startMinimized, json.disableWelcomeMessage, theme),
                            generateDefaultMasks, load.hadSoftError))
  {
  }

  /** The user masks after NoMask have names distinct from NoMask's and from each other. */
  lemma UsersLoadable(c: ConfigContents, logicalProcessorCount: nat)
    requires |c.masks| > 0
    requires forall i :: 1 <= i < |c.masks| ==> IsLoadableUserMask(c.masks[i], logicalProcessorCount)
    requires DistinctNames(c.masks)
    ensures forall i :: 0 <= i < |c.masks[1..]| ==>
      !HasName([c.masks[0]], c.masks[1..][i].name) && IsLoadableUserMask(c.masks[1..][i], logicalProcessorCount)
    ensures DistinctNames(c.masks[1..])
  {
    var users := c.masks[1..];
    forall i | 0 <= i < |users| ensures !HasName([c.masks[0]], users[i].name) && IsLoadableUserMask(users[i], logicalProcessorCount) {
      assert users[i] == c.masks[i + 1];
      assert c.masks[0].name != c.masks[i + 1].name;
    }
    forall i, j | 0 <= i < j < |users| ensures users[i].name != users[j].name {
      assert users[i] == c.masks[i + 1] && users[j] == c.masks[j + 1];
    }
  }
}
