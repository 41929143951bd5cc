/**
 * The older generation of the program: the CPUSetSetter files Config.cs, CPUSet.cs,
 * ProcessListEntry.cs, ProcessCPUSet.cs and MainWindowViewModel.cs.
 *
 * A CPU Set is a named list of logical processors, each enabled or not, with an optional
 * hotkey; the special Unset set has the empty name and no processors, and applying it clears a
 * process's CPU Set. A process CPU Set is a rule that gives a process, found by its name and,
 * when MatchWholePath is set, also by its path, the name of the CPU Set it runs with. Every
 * process list entry holds the CPU Set it runs with, and every CPU Set keeps the list of the
 * entries that use it.
 *
 * The classes refer to one another, so they share one module. A change of an observable
 * collection (CpuSets, ProcessCPUSets, a set's Hotkey) or of an observable property that the
 * files change through their setters (ProcessListEntry.CpuSet from the constructor and the
 * hotkey, ProcessCPUSet.CpuSetName) runs its handler, as the program does. The direct field
 * assignments of ProcessListEntry.CpuSet made by ApplyCpuSet, by the reassignment after a rule is
 * removed and by CPUSet.Remove stop there: the setter chain they would start is not followed.
 * The configuration file is seen through the number of times it is written; the Win32 calls
 * through LegacyNative.
 */
module Legacy {
  import opened Common
  import opened Bits
  import opened LegacyNative
  import opened LegacyDefaultSets
  import MT = MasksTabViewModel
  import PHW = ProcessHandlerWindows
  import NM = NativeMethods
  import CM = ConfigModels

  /** CPUSet.UnsetName: the name of the Unset set. */
  const UnsetName: string := ""

  // ---------------------------------------------------------------------------------------------
  // CPUSet.cs: processors, the settings grid

  /** CPUSetCore: one logical processor of a CPU Set. Changing it in the UI is not modelled. */
  datatype Core = Core(name: string, isEnabled: bool)

  /** The processor name the CPUSet constructors give: "Core i". */
  function CoreName(i: nat): string
  {
    "Core " + NatToString(i)
  }

  /** mask.Select((coreEnabled, i) => new CPUSetCore { Name = "Core i", IsEnabled = coreEnabled }) */
  function CoresOf(mask: seq<bool>): (r: seq<Core>)
    ensures |r| == |mask| && forall i :: 0 <= i < |r| ==> r[i] == Core(CoreName(i), mask[i])
  {
    seq(|mask|, i requires 0 <= i < |mask| => Core(CoreName(i), mask[i]))
  }

  /** Processors with the given flags and names, one each. */
  function NamedCores(mask: seq<bool>, names: seq<string>): (r: seq<Core>)
    requires |names| == |mask|
    ensures |r| == |mask| && forall i :: 0 <= i < |r| ==> r[i] == Core(names[i], mask[i])
  {
    seq(|mask|, i requires 0 <= i < |mask| => Core(names[i], mask[i]))
  }

  /** The IsEnabled flags of the processors, in order. */
  function EnabledFlags(cores: seq<Core>): (r: seq<bool>)
    ensures |r| == |cores| && forall i :: 0 <= i < |r| ==> r[i] == cores[i].isEnabled
  {
    seq(|cores|, i requires 0 <= i < |cores| => cores[i].isEnabled)
  }

  /** The word one more processor gives the bitmask loop of ApplyToProcess. */
  lemma EnabledFlagsStep(cores: seq<Core>, i: nat)
    requires i < |cores|
    ensures FromBools(EnabledFlags(cores[..i + 1])) ==
      if cores[i].isEnabled then FromBools(EnabledFlags(cores[..i])) | Bit(i) else FromBools(EnabledFlags(cores[..i]))
  {
    assert EnabledFlags(cores[..i + 1])[..i] == EnabledFlags(cores[..i]);
  }

  /**
   * For a CPU Set of up to 64 processors, bit i of the mask ApplyToProcess passes is set exactly
   * when processor i is enabled.
   */
  lemma BitMaskBits(cores: seq<Core>, i: nat)
    requires |cores| <= 64 && i < 64
    ensures HasBit(FromBools(EnabledFlags(cores)), i) <==> i < |cores| && cores[i].isEnabled
  {
    FromBoolsHasBit(EnabledFlags(cores), i);
  }

  /** The chunk size of SettingsTabMask: Mask.Count / div, for the divisor its loop ends with. */
  function TabChunkSize(count: nat): nat
  {
    count / MT.ColumnDivisor(count)
  }

  /** The loop of the SettingsTabMask getter: div grows by 2 from 2 while more than 16 processors would share a column. */
  method TabDivisor(count: nat) returns (div: nat)
    ensures div == MT.ColumnDivisor(count)
  {
    div := 2;
    while count / div > MT.MaxPerColumn
      invariant div >= 2 && div % 2 == 0
      invariant MT.ColumnDivisorFrom(count, div) == MT.ColumnDivisor(count)
      decreases count - div
    {
      MT.DivisorStep(count, div);
      div := div + 2;
    }
    MT.DivisorStop(count, div);
  }

  /** The divisor search never passes the processor count when it starts at or below it. */
  lemma {:induction false} DivisorAtMostCount(count: nat, div: nat)
    requires div >= 2 && div % 2 == 0 && div <= count
    ensures MT.ColumnDivisorFrom(count, div) <= count
    decreases count - div
  {
    if count / div > MT.MaxPerColumn {
      assert count >= div * (count / div) >= div * 17;
      DivisorAtMostCount(count, div + 2);
    }
  }

  /** The chunk size is zero exactly for a CPU Set of fewer than two processors, such as Unset. */
  lemma TabChunkSizeZero(count: nat)
    ensures TabChunkSize(count) == 0 <==> count < 2
  {
    if count >= 2 {
      DivisorAtMostCount(count, 2);
    }
  }

  /**
   * The SettingsTabMask getter with Chunk's size clamped to at least 1, as the newer generation
   * does it: every processor once, in order, in columns of 1 to 16.
   */
  function CorrectedSettingsTabMask(cores: seq<Core>): (r: seq<seq<Core>>)
    ensures MT.Concat(r) == cores
    ensures forall k :: 0 <= k < |r| ==> 1 <= |r[k]| <= MT.MaxPerColumn
  {
    MT.ChunksCover(cores, MT.ColumnCount(|cores|));
    MT.Chunks(cores, MT.ColumnCount(|cores|))
  }

  /**
   * The loop of CPUSet.Remove over its copy of the list of entries using the set: every entry
   * is given the new set, and nothing else about the entries changes.
   */
  method AssignCpuSet(snapshot: seq<ProcessListEntry>, value: CpuSet?)
    modifies set e | e in snapshot
    ensures forall e :: e in snapshot ==> e.cpuSet == value
    ensures forall e :: e in snapshot ==> e.handle == old(e.handle) && e.buffer == old(e.buffer)
    ensures forall e :: e in snapshot ==> e.averageCpuUsage == old(e.averageCpuUsage)
  {
    for i := 0 to |snapshot|
      invariant forall j :: 0 <= j < i ==> snapshot[j].cpuSet == value
      invariant forall e :: e in snapshot ==> e.handle == old(e.handle) && e.buffer == old(e.buffer)
      invariant forall e :: e in snapshot ==> e.averageCpuUsage == old(e.averageCpuUsage)
    {
      snapshot[i].cpuSet := value;
    }
  }

  /** Rules and sets are found by name with LINQ lambdas over their (fixed) names. */
  function HasSetName(name: string): CpuSet -> bool
  {
    (s: CpuSet) => s.name == name
  }

  // ---------------------------------------------------------------------------------------------
  // CPUSet.cs: the CPU Set

  class CpuSet {
    const name: string
    const cores: seq<Core>
    const isUnset: bool
    var hotkey: seq<CM.VKey>
    /** _processesUsingSet */
    var processesUsingSet: seq<ProcessListEntry>
    /** The VKeys of the set's HotkeyCallback. */
    var callbackKeys: seq<CM.VKey>
    /** Whether the callback is registered with the hotkey listener. */
    var callbackRegistered: bool

    /** CPUSet(name): ProcessorCount processors, all enabled, named "Core i". */
    constructor Named(name: string, logicalProcessorCount: nat)
      ensures this.name == name && cores == CoresOf(Repeat(true, logicalProcessorCount)) && !isUnset
      ensures hotkey == [] && processesUsingSet == [] && callbackKeys == [] && callbackRegistered
    {
      this.name := name;
      cores := CoresOf(Repeat(true, logicalProcessorCount));
      isUnset := false;
      hotkey := [];
      processesUsingSet := [];
      callbackKeys := [];
      callbackRegistered := true;
    }

    /** CPUSet(name, mask): one processor per flag, named "Core i". */
    constructor FromMask(name: string, mask: seq<bool>)
      ensures this.name == name && cores == CoresOf(mask) && !isUnset
      ensures hotkey == [] && processesUsingSet == [] && callbackKeys == [] && callbackRegistered
    {
      this.name := name;
      cores := CoresOf(mask);
      isUnset := false;
      hotkey := [];
      processesUsingSet := [];
      callbackKeys := [];
      callbackRegistered := true;
    }

    /**
     * The three-argument constructor Config.PopulateDefaultConfig calls with the processor
     * names, which CPUSet.cs does not declare: the processors take the given names.
     */
    constructor FromMaskAndNames(name: string, mask: seq<bool>, names: seq<string>)
      requires |names| == |mask|
      ensures this.name == name && cores == NamedCores(mask, names) && !isUnset
      ensures hotkey == [] && processesUsingSet == [] && callbackKeys == [] && callbackRegistered
    {
      this.name := name;
      cores := NamedCores(mask, names);
      isUnset := false;
      hotkey := [];
      processesUsingSet := [];
      callbackKeys := [];
      callbackRegistered := true;
    }

    /** CreateUnset: the empty name, no processors, IsUnset. */
    constructor CreateUnset()
      ensures name == UnsetName && cores == [] && isUnset
      ensures hotkey == [] && processesUsingSet == [] && callbackKeys == [] && callbackRegistered
    {
      name := UnsetName;
      cores := [];
      isUnset := true;
      hotkey := [];
      processesUsingSet := [];
      callbackKeys := [];
      callbackRegistered := true;
    }

    /**
     * The SettingsTabMask getter: div grows by 2 from 2 while more than 16 processors would share
     * a column, then the processors are chunked by Mask.Count / div. Enumerable.Chunk throws
     * ArgumentOutOfRangeException for a size below 1.
     */
    method SettingsTabMask() returns (r: Result<seq<seq<Core>>>)
      ensures TabChunkSize(|cores|) == 0 ==> r == Err(ArgumentOutOfRange)
      ensures TabChunkSize(|cores|) > 0 ==> r == Ok(MT.Chunks(cores, TabChunkSize(|cores|)))
    {
      var count := |cores|;
      var div := TabDivisor(count);
      var size := count / div;
      if size < 1 {
        return Err(ArgumentOutOfRange);
      }
      return Ok(MT.Chunks(cores, size));
    }

    /**
     * The handler SetupHotkeyListener subscribes to the Hotkey collection: after an Add or a
     * Remove the callback takes a copy of the keys, after a Reset none; a Replace or a Move
     * throws NotImplementedException before the configuration is saved.
     */
    method OnHotkeyChanged(action: CM.CollectionAction, config: Config) returns (failure: Option<Failure>)
      modifies this, config.file
      ensures hotkey == old(hotkey) && processesUsingSet == old(processesUsingSet)
      ensures callbackRegistered == old(callbackRegistered)
      ensures (action.Add? || action.Remove?) ==> failure.None? && callbackKeys == hotkey
      ensures action.Reset? ==> failure.None? && callbackKeys == []
      ensures (action.Replace? || action.Move?) ==> failure == Some(NotImplemented) && callbackKeys == old(callbackKeys)
      ensures config.file.writes == old(config.file.writes) + (if failure.None? && !config.isLoading then 1 else 0)
    {
      match action {
        case Add =>
          callbackKeys := hotkey;
        case Remove =>
          callbackKeys := hotkey;
        case Reset =>
          callbackKeys := [];
        case _ =>
          return Some(NotImplemented);
      }
      config.Save();
      return None;
    }

    /** Hotkey.Add(key), which raises OnHotkeyChanged with Add. */
    method AddHotkeyKey(key: CM.VKey, config: Config)
      modifies this, config.file
      ensures hotkey == old(hotkey) + [key] && callbackKeys == hotkey
      ensures processesUsingSet == old(processesUsingSet) && callbackRegistered == old(callbackRegistered)
      ensures config.file.writes == old(config.file.writes) + (if config.isLoading then 0 else 1)
    {
      hotkey := hotkey + [key];
      var _ := OnHotkeyChanged(CM.CollectionAction.Add, config);
    }

    /** Hotkey.Clear(), which raises OnHotkeyChanged with Reset. */
    method ClearHotkey(config: Config)
      modifies this, config.file
      ensures hotkey == [] && callbackKeys == []
      ensures processesUsingSet == old(processesUsingSet) && callbackRegistered == old(callbackRegistered)
      ensures config.file.writes == old(config.file.writes) + (if config.isLoading then 0 else 1)
    {
      hotkey := [];
      var _ := OnHotkeyChanged(CM.CollectionAction.Reset, config);
    }

    /**
     * Remove: every entry that used the set, taken from a copy of the list, is given the Unset
     * set (null when the configuration has none), then the callback is unregistered and the set
     * is removed from the configuration. In the program each assignment also takes the entry
     * out of this list (OnCpuSetChanged), which is why the loop walks a copy. CpuSets.Remove raises
     * the CpuSets handler, which saves, when the set was in the list.
     */
    method Remove(config: Config)
      modifies this, config, config.file, set e | e in processesUsingSet
      ensures forall e :: e in old(processesUsingSet) ==> e.cpuSet == old(config.UnsetSet())
      ensures forall e :: e in old(processesUsingSet) ==> e.handle == old(e.handle) && e.buffer == old(e.buffer)
      ensures !callbackRegistered && hotkey == old(hotkey) && processesUsingSet == old(processesUsingSet)
      ensures config.cpuSets == RemoveFirst(old(config.cpuSets), this)
      ensures config.processCpuSets == old(config.processCpuSets) && config.matchWholePath == old(config.matchWholePath)
      ensures config.isLoading == old(config.isLoading)
      ensures config.file.writes == old(config.file.writes) + (if this in old(config.cpuSets) && !config.isLoading then 1 else 0)
    {
      var unset := config.UnsetSet();
      AssignCpuSet(processesUsingSet, unset);
      callbackRegistered := false;
      config.CpuSetsRemove(this);
    }

    /** The call ApplyToProcess makes once the handle is valid: clear for Unset, otherwise one GROUP_AFFINITY in group 0. */
    function ApplyCall(pid: nat): ApiCall
    {
      if isUnset then ClearCpuSetMasks(pid) else SetCpuSetMasks(pid, [GroupAffinity(0, FromBools(EnabledFlags(cores)))])
    }

    /**
     * ApplyToProcess: a null handle is opened first and the apply stops if it is invalid; a
     * handle already found invalid stops it at once. Otherwise Unset clears the process's CPU
     * Set, and any other set passes the bitmask of its enabled processors.
     */
    method ApplyToProcess(pEntry: ProcessListEntry, os: Os)
      modifies pEntry`handle, os`calls
      ensures pEntry.handle == Opened(old(pEntry.handle), pEntry.pid, os.succeeds, |old(os.calls)|)
      ensures os.calls == old(os.calls) + CallsThrough(old(pEntry.handle), pEntry.pid, ApplyCall(pEntry.pid), os.succeeds, |old(os.calls)|)
      ensures pEntry.cpuSet == old(pEntry.cpuSet) && pEntry.buffer == old(pEntry.buffer)
      ensures pEntry.averageCpuUsage == old(pEntry.averageCpuUsage)
    {
      if pEntry.handle.None? {
        var valid := os.Call(OpenProcess(pEntry.pid));
        pEntry.handle := Some(valid);
        if !valid {
          return;
        }
      } else if !pEntry.handle.value {
        return;
      }
      if isUnset {
        var _ := os.Call(ClearCpuSetMasks(pEntry.pid));
      } else {
        var bitMask := BitMask();
        var affinity := [GroupAffinity(0, bitMask)];
        var _ := os.Call(SetCpuSetMasks(pEntry.pid, affinity));
      }
    }

    /** The bitmask loop of ApplyToProcess: bit i is set for every enabled processor i. */
    method BitMask() returns (bitMask: bv64)
      ensures bitMask == FromBools(EnabledFlags(cores))
    {
      bitMask := 0;
      for i := 0 to |cores|
        invariant bitMask == FromBools(EnabledFlags(cores[..i]))
      {
        EnabledFlagsStep(cores, i);
        if cores[i].isEnabled {
          bitMask := bitMask | Bit(i);
        }
      }
      assert cores[..|cores|] == cores;
    }

    /** AddProcess: the entry is appended to the list, and the set is applied to it if applyNow. */
    method AddProcess(pEntry: ProcessListEntry, applyNow: bool, os: Os)
      modifies this`processesUsingSet, pEntry`handle, os`calls
      ensures processesUsingSet == old(processesUsingSet) + [pEntry]
      ensures hotkey == old(hotkey) && callbackKeys == old(callbackKeys) && callbackRegistered == old(callbackRegistered)
      ensures applyNow ==> pEntry.handle == Opened(old(pEntry.handle), pEntry.pid, os.succeeds, |old(os.calls)|)
      ensures applyNow ==> os.calls == old(os.calls) + CallsThrough(old(pEntry.handle), pEntry.pid, ApplyCall(pEntry.pid), os.succeeds, |old(os.calls)|)
      ensures !applyNow ==> pEntry.handle == old(pEntry.handle) && os.calls == old(os.calls)
      ensures pEntry.cpuSet == old(pEntry.cpuSet) && pEntry.buffer == old(pEntry.buffer)
      ensures pEntry.averageCpuUsage == old(pEntry.averageCpuUsage)
    {
      processesUsingSet := processesUsingSet + [pEntry];
      if applyNow {
        ApplyToProcess(pEntry, os);
      }
    }

    /** RemoveProcess: the first occurrence of the entry leaves the list. */
    method RemoveProcess(pEntry: ProcessListEntry)
      modifies this`processesUsingSet
      ensures processesUsingSet == RemoveFirst(old(processesUsingSet), pEntry)
      ensures hotkey == old(hotkey) && callbackKeys == old(callbackKeys) && callbackRegistered == old(callbackRegistered)
    {
      processesUsingSet := RemoveFirst(processesUsingSet, pEntry);
    }
  }

  // ---------------------------------------------------------------------------------------------
  // ProcessCPUSet.cs

  class ProcessCpuSet {
    const name: string
    const path: string
    var cpuSetName: string

    constructor (name: string, path: string, cpuSetName: string)
      ensures this.name == name && this.path == path && this.cpuSetName == cpuSetName
    {
      this.name := name;
      this.path := path;
      this.cpuSetName := cpuSetName;
    }

    /**
     * ApplyCpuSet: nothing while the main window is not running. The rule's CPU Set is looked up
     * by name (in the configuration the file calls ConfigOld.Default); an unknown name is logged
     * and changes no process. Otherwise every running process whose name matches the rule's,
     * ignoring case, and whose path matches too when MatchWholePath is set, is given the set.
     */
    method ApplyCpuSet(config: Config, runningProcesses: seq<ProcessListEntry>, isRunning: bool) returns (applied: bool)
      modifies runningProcesses`cpuSet
      ensures applied <==> isRunning && config.GetCpuSetByName(cpuSetName).Some?
      ensures forall e :: e in runningProcesses ==>
        e.cpuSet == if applied && RuleMatches(this, e.name, e.path, config.matchWholePath)
                    then config.GetCpuSetByName(cpuSetName).value else old(e.cpuSet)
      ensures forall e :: e in runningProcesses ==> e.averageCpuUsage == old(e.averageCpuUsage)
    {
      if !isRunning {
        return false;
      }
      var newCpuSet := config.GetCpuSetByName(cpuSetName);
      if newCpuSet.None? {
        return false;
      }
      var matchPath := config.matchWholePath;
      for i := 0 to |runningProcesses|
        invariant forall e :: e in runningProcesses ==>
          e.cpuSet == if e in runningProcesses[..i] && RuleMatches(this, e.name, e.path, matchPath)
                      then newCpuSet.value else old(e.cpuSet)
        invariant forall e :: e in runningProcesses ==> e.averageCpuUsage == old(e.averageCpuUsage)
      {
        assert runningProcesses[..i + 1] == runningProcesses[..i] + [runningProcesses[i]];
        var pEntry := runningProcesses[i];
        if RuleMatches(this, pEntry.name, pEntry.path, matchPath) {
          pEntry.cpuSet := newCpuSet.value;
        }
      }
      assert runningProcesses[..|runningProcesses|] == runningProcesses;
      return true;
    }

    /** OnCpuSetNameChanged: a new CPU Set name is applied at once. */
    method OnCpuSetNameChanged(config: Config, runningProcesses: seq<ProcessListEntry>, isRunning: bool)
      modifies runningProcesses`cpuSet
      ensures forall e :: e in runningProcesses ==>
        e.cpuSet == if isRunning && config.GetCpuSetByName(cpuSetName).Some? && RuleMatches(this, e.name, e.path, config.matchWholePath)
                    then config.GetCpuSetByName(cpuSetName).value else old(e.cpuSet)
    {
      var _ := ApplyCpuSet(config, runningProcesses, isRunning);
    }
  }

  /**
   * GetProcessCpuSetByName's test, which ApplyCpuSet repeats: the names are equal ignoring case
   * and, when the whole path must match, so are the paths.
   */
  predicate RuleMatches(rule: ProcessCpuSet, processName: string, executablePath: string, matchWholePath: bool)
  {
    EqualsIgnoreCase(rule.name, processName) && (!matchWholePath || EqualsIgnoreCase(rule.path, executablePath))
  }

  /** The rules GetProcessCpuSetByName accepts. */
  function MatchesProcess(processName: string, executablePath: string, matchWholePath: bool): ProcessCpuSet -> bool
  {
    (rule: ProcessCpuSet) => RuleMatches(rule, processName, executablePath, matchWholePath)
  }

  /**
   * RemoveProcessCpuSet's test as the compiler reads it: && binds tighter than ||, so the test
   * is (name equal && !MatchWholePath) || path equal.
   */
  predicate RemovesRule(rule: ProcessCpuSet, processName: string, executablePath: string, matchWholePath: bool)
  {
    (EqualsIgnoreCase(rule.name, processName) && !matchWholePath) || EqualsIgnoreCase(rule.path, executablePath)
  }

  /** The rules RemoveProcessCpuSet keeps. */
  function KeepsRule(processName: string, executablePath: string, matchWholePath: bool): ProcessCpuSet -> bool
  {
    (rule: ProcessCpuSet) => !RemovesRule(rule, processName, executablePath, matchWholePath)
  }

  /**
   * The removal test covers the lookup: every rule GetProcessCpuSetByName could find is removed.
   * Beyond that it also removes exactly the rules with the same path under another name.
   */
  lemma RemovalCoversLookup(rule: ProcessCpuSet, processName: string, executablePath: string, matchWholePath: bool)
    ensures RuleMatches(rule, processName, executablePath, matchWholePath) ==> RemovesRule(rule, processName, executablePath, matchWholePath)
    ensures RemovesRule(rule, processName, executablePath, matchWholePath) && !RuleMatches(rule, processName, executablePath, matchWholePath)
      <==> EqualsIgnoreCase(rule.path, executablePath) && !EqualsIgnoreCase(rule.name, processName)
  {
  }

  /** The sets ValidateCPUSets keeps: Unset, and every set with one processor per logical processor. */
  function HasValidLength(logicalProcessorCount: nat): CpuSet -> bool
  {
    (s: CpuSet) => s.isUnset || |s.cores| == logicalProcessorCount
  }

  /**
   * The CPU Set a process starts with: Unset when no rule matches it, the set its rule names,
   * or Unset again when no set has that name. Unset itself is null when the configuration has
   * no set with the empty name.
   */
  function GetConfiguredCpuSet(config: Config, processName: string, executablePath: string): (r: CpuSet?)
    reads config, config.processCpuSets
  {
    var rule := config.GetProcessCpuSetByName(processName, executablePath);
    if rule.None? then config.UnsetSet()
    else
      var named := config.GetCpuSetByName(rule.value.cpuSetName);
      if named.Some? then named.value else config.UnsetSet()
  }

  /** Without a matching rule a process gets Unset; any other set is the configured set its rule names. */
  lemma GetConfiguredCpuSetSpec(config: Config, processName: string, executablePath: string)
    ensures var r := GetConfiguredCpuSet(config, processName, executablePath);
      && (config.GetProcessCpuSetByName(processName, executablePath).None? ==> r == config.UnsetSet())
      && (r != config.UnsetSet() ==>
            && config.GetProcessCpuSetByName(processName, executablePath).Some?
            && r != null && r in config.cpuSets
            && r.name == config.GetProcessCpuSetByName(processName, executablePath).value.cpuSetName)
  {
  }

  /** A rule that names a CPU Set the configuration does not have falls back to Unset. */
  lemma UnknownSetFallsBackToUnset(config: Config, processName: string, executablePath: string)
    requires config.GetProcessCpuSetByName(processName, executablePath).Some?
    requires config.GetCpuSetByName(config.GetProcessCpuSetByName(processName, executablePath).value.cpuSetName).None?
    ensures GetConfiguredCpuSet(config, processName, executablePath) == config.UnsetSet()
  {
  }

  /** What a rule change is measured against: the configuration before it, seen from one process. */
  datatype RuleState = RuleState(cpuSets: seq<CpuSet>, matchWholePath: bool, isLoading: bool, unset: CpuSet?,
                                 rules: seq<ProcessCpuSet>, found: Option<ProcessCpuSet>, foundSetName: string,
                                 writes: nat)

  /** The RuleState of `config` for the process `name`/`path`. */
  function StateBefore(config: Config, name: string, path: string): (r: RuleState)
    reads config, config.processCpuSets, config.file
    ensures r.cpuSets == config.cpuSets && r.matchWholePath == config.matchWholePath && r.isLoading == config.isLoading
    ensures r.rules == config.processCpuSets && r.unset == config.UnsetSet() && r.writes == config.file.writes
    ensures r.found == config.GetProcessCpuSetByName(name, path)
    ensures r.found.Some? ==> r.foundSetName == r.found.value.cpuSetName
  {
    var found := config.GetProcessCpuSetByName(name, path);
    RuleState(config.cpuSets, config.matchWholePath, config.isLoading, config.UnsetSet(), config.processCpuSets,
              found, if found.Some? then found.value.cpuSetName else "", config.file.writes)
  }

  /**
   * What storing `newValue` as the CPU Set of the process `name`/`path` leaves behind, measured
   * against `before`, for the configuration and for the entry `target` being assigned. The sets
   * and settings are unchanged. For the configuration's Unset set, the process's rules are
   * removed and the file is saved once per removed rule; the entry keeps Unset, which is also
   * what the reassignment of the running entries gives it. For any other set, the rule the
   * lookup finds names it, and a new rule is saved once; when that rule is new or named another
   * set and the entry is running, applying the rule gives the entry the first set of that name.
   */
  predicate StoredInConfig(name: string, path: string, newValue: CpuSet, config: Config,
                           runningProcesses: seq<ProcessListEntry>, isRunning: bool, target: ProcessListEntry,
                           before: RuleState)
    reads config, config.processCpuSets, config.file, target`cpuSet
  {
    && config.cpuSets == before.cpuSets && config.matchWholePath == before.matchWholePath
    && config.isLoading == before.isLoading
    && (newValue == before.unset ==>
          && config.processCpuSets == Filter(before.rules, KeepsRule(name, path, config.matchWholePath))
          && config.GetProcessCpuSetByName(name, path).None?
          && target.cpuSet == newValue
          && config.file.writes == before.writes +
               (if config.isLoading then 0 else |before.rules| - |config.processCpuSets|))
    && (newValue != before.unset ==>
          && config.GetProcessCpuSetByName(name, path).Some?
          && config.GetProcessCpuSetByName(name, path).value.cpuSetName == newValue.name
          && target.cpuSet ==
               (if target in runningProcesses && (before.found.None? || before.foundSetName != newValue.name)
                then config.AppliedSet(config.GetProcessCpuSetByName(name, path).value, target, newValue, isRunning)
                else newValue)
          && config.file.writes == before.writes + (if before.found.None? && !config.isLoading then 1 else 0))
  }

  // ---------------------------------------------------------------------------------------------
  // Config.cs

  /** The configuration file, seen through the number of times it has been written. */
  class ConfigFile {
    var writes: nat

    constructor ()
      ensures writes == 0
    {
      writes := 0;
    }
  }

  class Config {
    var cpuSets: seq<CpuSet>
    var processCpuSets: seq<ProcessCpuSet>
    var matchWholePath: bool
    var isLoading: bool
    const file: ConfigFile

    /** The JSON constructor and `new()`: no sets, no rules, MatchWholePath on, still loading. */
    constructor ()
      ensures cpuSets == [] && processCpuSets == [] && matchWholePath && isLoading
      ensures fresh(file) && file.writes == 0
    {
      cpuSets := [];
      processCpuSets := [];
      matchWholePath := true;
      isLoading := true;
      file := new ConfigFile();
    }

    /** Save: nothing while the configuration is still loading, otherwise one write of the file. */
    method Save()
      modifies file`writes
      ensures file.writes == old(file.writes) + (if isLoading then 0 else 1)
    {
      if isLoading {
        return;
      }
      file.writes := file.writes + 1;
    }

    /** GetCpuSetByName: the first set with exactly this name, or null. */
    function GetCpuSetByName(name: string): (r: Option<CpuSet>)
      reads this
      ensures r.Some? ==> r.value in cpuSets && r.value.name == name
      ensures r.Some? ==> exists k :: 0 <= k < |cpuSets| && cpuSets[k] == r.value && forall j :: 0 <= j < k ==> cpuSets[j].name != name
      ensures r.None? <==> forall s :: s in cpuSets ==> s.name != name
    {
      var k := FirstIndex(cpuSets, HasSetName(name));
      if k.Some? then Some(cpuSets[k.value]) else None
    }

    /** CPUSet.Unset: the configuration's set with the empty name, null when there is none. */
    function UnsetSet(): (r: CpuSet?)
      reads this
      ensures r != null ==> r in cpuSets && r.name == UnsetName
      ensures r == null <==> forall s :: s in cpuSets ==> s.name != UnsetName
    {
      var k := GetCpuSetByName(UnsetName);
      if k.Some? then k.value else null
    }

    /** GetProcessCpuSetByName: the first rule for the name, and for the path when MatchWholePath is set. */
    function GetProcessCpuSetByName(processName: string, executablePath: string): (r: Option<ProcessCpuSet>)
      reads this
      ensures r.Some? ==> r.value in processCpuSets && RuleMatches(r.value, processName, executablePath, matchWholePath)
      ensures r.Some? ==>
        exists k :: 0 <= k < |processCpuSets| && processCpuSets[k] == r.value &&
          forall j :: 0 <= j < k ==> !RuleMatches(processCpuSets[j], processName, executablePath, matchWholePath)
      ensures r.None? <==> forall x :: x in processCpuSets ==> !RuleMatches(x, processName, executablePath, matchWholePath)
    {
      var k := FirstIndex(processCpuSets, MatchesProcess(processName, executablePath, matchWholePath));
      if k.Some? then Some(processCpuSets[k.value]) else None
    }

    /** Whether SetProcessCpuSet changes a rule: none matches the process yet, or the one found names another CPU Set. */
    predicate ChangesRule(processName: string, executablePath: string, cpuSetName: string)
      reads this, processCpuSets
    {
      var found := GetProcessCpuSetByName(processName, executablePath);
      found.None? || found.value.cpuSetName != cpuSetName
    }

    /**
     * SetProcessCpuSet: the rule the lookup finds takes the CPU Set name; when there is none, one
     * new rule is appended. Either way the lookup then finds a rule with this CPU Set name. A new
     * rule raises the ProcessCPUSets handler, which applies it and saves; a changed CpuSetName
     * raises OnCpuSetNameChanged, which applies the rule without a save; an equal one raises
     * nothing.
     */
    method SetProcessCpuSet(processName: string, executablePath: string, cpuSetName: string,
                            runningProcesses: seq<ProcessListEntry>, isRunning: bool)
      modifies this`processCpuSets, processCpuSets`cpuSetName, file`writes, runningProcesses`cpuSet
      ensures cpuSets == old(cpuSets) && matchWholePath == old(matchWholePath) && isLoading == old(isLoading)
      ensures old(GetProcessCpuSetByName(processName, executablePath)).Some? ==> processCpuSets == old(processCpuSets)
      ensures old(GetProcessCpuSetByName(processName, executablePath)).None? ==>
        && |processCpuSets| == |old(processCpuSets)| + 1
        && processCpuSets[..|old(processCpuSets)|] == old(processCpuSets)
        && fresh(processCpuSets[|old(processCpuSets)|])
        && processCpuSets[|old(processCpuSets)|].name == processName
        && processCpuSets[|old(processCpuSets)|].path == executablePath
      ensures forall x :: x in old(processCpuSets) && Some(x) != old(GetProcessCpuSetByName(processName, executablePath)) ==>
        x.cpuSetName == old(x.cpuSetName)
      ensures GetProcessCpuSetByName(processName, executablePath).Some?
      ensures GetProcessCpuSetByName(processName, executablePath).value.cpuSetName == cpuSetName
      ensures old(ChangesRule(processName, executablePath, cpuSetName)) ==>
        forall e :: e in runningProcesses ==>
          e.cpuSet == AppliedSet(GetProcessCpuSetByName(processName, executablePath).value, e, old(e.cpuSet), isRunning)
      ensures !old(ChangesRule(processName, executablePath, cpuSetName)) ==>
        forall e :: e in runningProcesses ==> e.cpuSet == old(e.cpuSet)
      ensures file.writes == old(file.writes) +
        (if old(GetProcessCpuSetByName(processName, executablePath)).None? && !isLoading then 1 else 0)
    {
      var processCpuSet := GetProcessCpuSetByName(processName, executablePath);
      if processCpuSet.Some? {
        if processCpuSet.value.cpuSetName != cpuSetName {
          processCpuSet.value.cpuSetName := cpuSetName;
          processCpuSet.value.OnCpuSetNameChanged(this, runningProcesses, isRunning);
        }
      } else {
        var rule := new ProcessCpuSet(processName, executablePath, cpuSetName);
        EqualsIgnoreCaseIsEquivalence(processName, processName, processName);
        EqualsIgnoreCaseIsEquivalence(executablePath, executablePath, executablePath);
        FirstIndexAppend(processCpuSets, rule, MatchesProcess(processName, executablePath, matchWholePath));
        ProcessCpuSetsAdd(rule, runningProcesses, isRunning);
      }
    }

    /**
     * RemoveProcessCpuSet: a loop from the back removes every rule its test accepts. Every rule
     * the lookup could find is removed, so afterwards the lookup finds none. Each removal raises
     * the ProcessCPUSets handler, so once a rule has gone every running entry holds the CPU Set
     * configured for it in the end, and the file is saved once per removed rule.
     */
    method RemoveProcessCpuSet(processName: string, executablePath: string, runningProcesses: seq<ProcessListEntry>, isRunning: bool)
      modifies this`processCpuSets, file`writes, runningProcesses`cpuSet
      ensures processCpuSets == Filter(old(processCpuSets), KeepsRule(processName, executablePath, matchWholePath))
      ensures cpuSets == old(cpuSets) && matchWholePath == old(matchWholePath) && isLoading == old(isLoading)
      ensures GetProcessCpuSetByName(processName, executablePath).None?
      ensures |processCpuSets| < |old(processCpuSets)| ==>
        forall e :: e in runningProcesses ==> e.cpuSet == GetConfiguredCpuSet(this, e.name, e.path)
      ensures |processCpuSets| == |old(processCpuSets)| ==> forall e :: e in runningProcesses ==> e.cpuSet == old(e.cpuSet)
      ensures file.writes == old(file.writes) + (if isLoading then 0 else |old(processCpuSets)| - |processCpuSets|)
    {
      ghost var original := processCpuSets;
      var keep := KeepsRule(processName, executablePath, matchWholePath);
      var i := |processCpuSets|;
      while i > 0
        invariant 0 <= i <= |original|
        invariant processCpuSets == original[..i] + Filter(original[i..], keep)
        invariant cpuSets == old(cpuSets) && matchWholePath == old(matchWholePath) && isLoading == old(isLoading)
        invariant |processCpuSets| <= |original|
        invariant |processCpuSets| < |original| ==>
          forall e :: e in runningProcesses ==> e.cpuSet == GetConfiguredCpuSet(this, e.name, e.path)
        invariant |processCpuSets| == |original| ==> forall e :: e in runningProcesses ==> e.cpuSet == old(e.cpuSet)
        invariant file.writes == old(file.writes) + (if isLoading then 0 else |original| - |processCpuSets|)
      {
        i := i - 1;
        RemoveAtFromBackStep(original, i, keep, processCpuSets);
        if !keep(processCpuSets[i]) {
          ProcessCpuSetsRemoveAt(i, runningProcesses, isRunning);
        }
      }
      assert original[0..] == original;
      forall x | x in processCpuSets
        ensures !RuleMatches(x, processName, executablePath, matchWholePath)
      {
        RemovalCoversLookup(x, processName, executablePath, matchWholePath);
      }
    }

    /**
     * ValidateCPUSets: a loop from the back removes every set other than Unset whose length is not
     * the processor count; each RemoveAt raises the CpuSets handler, which saves.
     */
    method ValidateCPUSets(logicalProcessorCount: nat)
      modifies this`cpuSets, file`writes
      ensures cpuSets == Filter(old(cpuSets), HasValidLength(logicalProcessorCount))
      ensures forall s :: s in cpuSets ==> s.isUnset || |s.cores| == logicalProcessorCount
      ensures processCpuSets == old(processCpuSets) && matchWholePath == old(matchWholePath) && isLoading == old(isLoading)
      ensures file.writes == old(file.writes) + (if isLoading then 0 else |old(cpuSets)| - |cpuSets|)
    {
      ghost var original := cpuSets;
      var keep := HasValidLength(logicalProcessorCount);
      var i := |cpuSets|;
      while i > 0
        invariant 0 <= i <= |original|
        invariant cpuSets == original[..i] + Filter(original[i..], keep)
        invariant processCpuSets == old(processCpuSets) && matchWholePath == old(matchWholePath) && isLoading == old(isLoading)
        invariant |cpuSets| <= |original|
        invariant file.writes == old(file.writes) + (if isLoading then 0 else |original| - |cpuSets|)
      {
        i := i - 1;
        RemoveAtFromBackStep(original, i, keep, cpuSets);
        if !cpuSets[i].isUnset && |cpuSets[i].cores| != logicalProcessorCount {
          CpuSetsRemoveAt(i);
        }
      }
      assert original[0..] == original;
    }

    /**
     * PopulateDefaultConfig: the Unset set first, then, for a single processor reported by WMI,
     * the P-Cores and E-Cores sets of a known Intel hybrid model or the two die sets of a known
     * AMD dual-CCD model. A layout whose thread count differs from the processor count only
     * gives a warning. Every set is added with CpuSets.Add, whose handler saves.
     */
    method PopulateDefaultConfig(cpuName: string, manufacturer: string, resultCount: nat, logicalProcessorCount: nat)
      modifies this`cpuSets, file`writes
      ensures |cpuSets| > |old(cpuSets)| && cpuSets[..|old(cpuSets)|] == old(cpuSets)
      ensures fresh(cpuSets[|old(cpuSets)|]) && cpuSets[|old(cpuSets)|].isUnset
      ensures cpuSets[|old(cpuSets)|].name == UnsetName && cpuSets[|old(cpuSets)|].cores == []
      ensures Builds(cpuSets[|old(cpuSets)| + 1..], DefaultSets(cpuName, manufacturer, resultCount, logicalProcessorCount))
      ensures forall k :: |old(cpuSets)| < k < |cpuSets| ==> fresh(cpuSets[k])
      ensures processCpuSets == old(processCpuSets) && matchWholePath == old(matchWholePath) && isLoading == old(isLoading)
      ensures file.writes == old(file.writes) + (if isLoading then 0 else |cpuSets| - |old(cpuSets)|)
    {
      var unset := new CpuSet.CreateUnset();
      CpuSetsAdd(unset);
      var defaults := NewDefaultSets(cpuName, manufacturer, resultCount, logicalProcessorCount);
      AddDefaultSets(defaults);
      assert cpuSets[|old(cpuSets)| + 1..] == defaults;
    }

    /**
     * Load, with the file's content as a parameter (None when it is missing or corrupt): the
     * loaded or new configuration stops loading and sets up its listeners, then a loaded one is
     * validated and a new one gets the default sets, so the file is saved once per set the
     * validation drops or the defaults add. The welcome message is left out.
     */
    static method Load(loaded: Option<(seq<CpuSet>, seq<ProcessCpuSet>, bool)>, cpuName: string, manufacturer: string,
                       resultCount: nat, logicalProcessorCount: nat) returns (config: Config)
      ensures fresh(config) && fresh(config.file) && !config.isLoading
      ensures loaded.Some? ==>
        && config.cpuSets == Filter(loaded.value.0, HasValidLength(logicalProcessorCount))
        && config.processCpuSets == loaded.value.1 && config.matchWholePath == loaded.value.2
        && config.file.writes == |loaded.value.0| - |config.cpuSets|
      ensures loaded.None? ==>
        && |config.cpuSets| > 0 && config.cpuSets[0].isUnset
        && Builds(config.cpuSets[1..], DefaultSets(cpuName, manufacturer, resultCount, logicalProcessorCount))
        && config.processCpuSets == [] && config.matchWholePath
        && config.file.writes == |config.cpuSets|
    {
      config := new Config();
      if loaded.Some? {
        config.cpuSets, config.processCpuSets, config.matchWholePath := loaded.value.0, loaded.value.1, loaded.value.2;
      }
      config.isLoading := false;
      if loaded.Some? {
        config.ValidateCPUSets(logicalProcessorCount);
      } else {
        config.PopulateDefaultConfig(cpuName, manufacturer, resultCount, logicalProcessorCount);
      }
    }

    /** The CpuSets.Add calls of a vendor branch of PopulateDefaultConfig: none, or its two sets in order. */
    method AddDefaultSets(defaults: seq<CpuSet>)
      requires |defaults| == 0 || |defaults| == 2
      modifies this`cpuSets, file`writes
      ensures cpuSets == old(cpuSets) + defaults
      ensures processCpuSets == old(processCpuSets) && matchWholePath == old(matchWholePath) && isLoading == old(isLoading)
      ensures file.writes == old(file.writes) + (if isLoading then 0 else |defaults|)
    {
      if |defaults| == 2 {
        CpuSetsAdd(defaults[0]);
        CpuSetsAdd(defaults[1]);
        assert cpuSets == old(cpuSets) + [defaults[0], defaults[1]];
        assert defaults == [defaults[0], defaults[1]];
      }
    }

    /** CpuSets.Add(s) and the handler it raises. */
    method CpuSetsAdd(s: CpuSet)
      modifies this`cpuSets, file`writes
      ensures cpuSets == old(cpuSets) + [s]
      ensures processCpuSets == old(processCpuSets) && matchWholePath == old(matchWholePath) && isLoading == old(isLoading)
      ensures file.writes == old(file.writes) + (if isLoading then 0 else 1)
    {
      cpuSets := cpuSets + [s];
      OnCpuSetsChanged();
    }

    /** CpuSets.RemoveAt(i) and the handler it raises. */
    method CpuSetsRemoveAt(i: nat)
      requires i < |cpuSets|
      modifies this`cpuSets, file`writes
      ensures cpuSets == old(cpuSets[..i] + cpuSets[i + 1..])
      ensures processCpuSets == old(processCpuSets) && matchWholePath == old(matchWholePath) && isLoading == old(isLoading)
      ensures file.writes == old(file.writes) + (if isLoading then 0 else 1)
    {
      cpuSets := cpuSets[..i] + cpuSets[i + 1..];
      OnCpuSetsChanged();
    }

    /** CpuSets.Remove(s): the first occurrence goes and the handler runs; a set not in the list raises nothing. */
    method CpuSetsRemove(s: CpuSet)
      modifies this`cpuSets, file`writes
      ensures cpuSets == RemoveFirst(old(cpuSets), s)
      ensures processCpuSets == old(processCpuSets) && matchWholePath == old(matchWholePath) && isLoading == old(isLoading)
      ensures file.writes == old(file.writes) + (if s in old(cpuSets) && !isLoading then 1 else 0)
    {
      if s !in cpuSets {
        return;
      }
      cpuSets := RemoveFirst(cpuSets, s);
      OnCpuSetsChanged();
    }

    /** ProcessCPUSets.Add(rule) and the handler it raises: the rule is applied, then saved. */
    method ProcessCpuSetsAdd(rule: ProcessCpuSet, runningProcesses: seq<ProcessListEntry>, isRunning: bool)
      modifies this`processCpuSets, file`writes, runningProcesses`cpuSet
      ensures processCpuSets == old(processCpuSets) + [rule]
      ensures cpuSets == old(cpuSets) && matchWholePath == old(matchWholePath) && isLoading == old(isLoading)
      ensures forall e :: e in runningProcesses ==> e.cpuSet == AppliedSet(rule, e, old(e.cpuSet), isRunning)
      ensures file.writes == old(file.writes) + (if isLoading then 0 else 1)
    {
      processCpuSets := processCpuSets + [rule];
      var _ := OnProcessCpuSetsChanged(CM.CollectionAction.Add, rule, runningProcesses, isRunning);
    }

    /** ProcessCPUSets.RemoveAt(i) and the handler it raises: every running entry is given its configured set, then saved. */
    method ProcessCpuSetsRemoveAt(i: nat, runningProcesses: seq<ProcessListEntry>, isRunning: bool)
      requires i < |processCpuSets|
      modifies this`processCpuSets, file`writes, runningProcesses`cpuSet
      ensures processCpuSets == old(processCpuSets[..i] + processCpuSets[i + 1..])
      ensures cpuSets == old(cpuSets) && matchWholePath == old(matchWholePath) && isLoading == old(isLoading)
      ensures forall e :: e in runningProcesses ==> e.cpuSet == GetConfiguredCpuSet(this, e.name, e.path)
      ensures file.writes == old(file.writes) + (if isLoading then 0 else 1)
    {
      var rule := processCpuSets[i];
      processCpuSets := processCpuSets[..i] + processCpuSets[i + 1..];
      var _ := OnProcessCpuSetsChanged(CM.CollectionAction.Remove, rule, runningProcesses, isRunning);
    }

    /**
     * The set ApplyCpuSet gives an entry that held `prior`: the rule's set when the main window
     * is running, the set exists and the rule matches the entry, otherwise `prior`.
     */
    function AppliedSet(rule: ProcessCpuSet, e: ProcessListEntry, prior: CpuSet?, isRunning: bool): CpuSet?
      reads this, rule
    {
      if isRunning && GetCpuSetByName(rule.cpuSetName).Some? && RuleMatches(rule, e.name, e.path, matchWholePath)
      then GetCpuSetByName(rule.cpuSetName).value else prior
    }

    /** The handler SetupListener subscribes to CpuSets: every change is saved. */
    method OnCpuSetsChanged()
      modifies file`writes
      ensures file.writes == old(file.writes) + (if isLoading then 0 else 1)
    {
      Save();
    }

    /**
     * The handler SetupListener subscribes to ProcessCPUSets, for the one rule an Add or a Remove
     * carries: an added rule is applied; after a removal every running entry is given its
     * configured CPU Set again. Other changes throw NotImplementedException before the save.
     */
    method OnProcessCpuSetsChanged(action: CM.CollectionAction, rule: ProcessCpuSet, runningProcesses: seq<ProcessListEntry>,
                                   isRunning: bool) returns (failure: Option<Failure>)
      modifies file`writes, runningProcesses`cpuSet
      ensures (action.Add? || action.Remove?) <==> failure.None?
      ensures !(action.Add? || action.Remove?) ==> failure == Some(NotImplemented)
      ensures action.Add? ==> forall e :: e in runningProcesses ==>
        e.cpuSet == if isRunning && GetCpuSetByName(rule.cpuSetName).Some? && RuleMatches(rule, e.name, e.path, matchWholePath)
                    then GetCpuSetByName(rule.cpuSetName).value else old(e.cpuSet)
      ensures action.Remove? ==> forall e :: e in runningProcesses ==> e.cpuSet == GetConfiguredCpuSet(this, e.name, e.path)
      ensures failure.Some? ==> forall e :: e in runningProcesses ==> e.cpuSet == old(e.cpuSet)
      ensures file.writes == old(file.writes) + (if failure.None? && !isLoading then 1 else 0)
    {
      match action {
        case Add =>
          var _ := rule.ApplyCpuSet(this, runningProcesses, isRunning);
        case Remove =>
          ReassignConfigured(runningProcesses);
        case _ =>
          return Some(NotImplemented);
      }
      Save();
      return None;
    }

    /** The Remove case of the rule handler: every running process gets the CPU Set configured for it now. */
    method ReassignConfigured(runningProcesses: seq<ProcessListEntry>)
      modifies runningProcesses`cpuSet
      ensures forall e :: e in runningProcesses ==> e.cpuSet == GetConfiguredCpuSet(this, e.name, e.path)
    {
      for i := 0 to |runningProcesses|
        invariant forall j :: 0 <= j < i ==>
          runningProcesses[j].cpuSet == GetConfiguredCpuSet(this, runningProcesses[j].name, runningProcesses[j].path)
      {
        var pEntry := runningProcesses[i];
        pEntry.cpuSet := GetConfiguredCpuSet(this, pEntry.name, pEntry.path);
      }
    }
  }

  /** The P-Cores flags: processor i is a P-core thread exactly when i < pThreads. */
  function PCoreFlags(n: nat, pThreads: nat): (r: seq<bool>)
    ensures |r| == n && forall i :: 0 <= i < n ==> (r[i] <==> i < pThreads)
  {
    seq(n, i => i < pThreads)
  }

  /** The E-Cores flags: processor i is an E-core exactly when i >= pThreads. */
  function ECoreFlags(n: nat, pThreads: nat): (r: seq<bool>)
    ensures |r| == n && forall i :: 0 <= i < n ==> (r[i] <==> i >= pThreads)
  {
    seq(n, i => i >= pThreads)
  }

  /** The processor names of both Intel sets. */
  function PECoreNames(n: nat, pThreads: nat): (r: seq<string>)
    ensures |r| == n && forall i :: 0 <= i < n ==> r[i] == PECoreName(i, pThreads)
  {
    seq(n, i requires 0 <= i < n => PECoreName(i, pThreads))
  }

  /** The sets, as (name, processors), of the Intel branch for the layout found: P-Cores and E-Cores, or none. */
  function IntelSets(layout: Option<(string, nat, nat)>, n: nat): seq<(string, seq<Core>)>
  {
    match layout
    case None => []
    case Some(layout) =>
      [("P-Cores", NamedCores(PCoreFlags(n, layout.1), PECoreNames(n, layout.1))),
       ("E-Cores", NamedCores(ECoreFlags(n, layout.1), PECoreNames(n, layout.1)))]
  }

  /** The sets of the AMD branch for the model found: its two die sets, or none. */
  function AmdSets(model: Option<string>, n: nat): seq<(string, seq<Core>)>
  {
    match model
    case None => []
    case Some(model) =>
      var names := DuoCcdSetNames(model);
      [(names.0, CoresOf(HalfMask(n, true))), (names.1, CoresOf(HalfMask(n, false)))]
  }

  /**
   * The sets PopulateDefaultConfig adds after Unset: none unless WMI reports exactly one
   * processor, then those of the Intel branch for an Intel processor, otherwise those of the AMD
   * branch for an AMD one.
   */
  function DefaultSets(cpuName: string, manufacturer: string, resultCount: nat, logicalProcessorCount: nat): seq<(string, seq<Core>)>
  {
    if resultCount != 1 then []
    else if IsIntel(cpuName, manufacturer) then IntelSets(IntelLayout(cpuName), logicalProcessorCount)
    else if IsAmd(cpuName, manufacturer) then AmdSets(DuoCcdModel(cpuName), logicalProcessorCount)
    else []
  }

  /** The CPU Set objects have, one by one, the names and processors of the listed sets. */
  predicate Builds(sets: seq<CpuSet>, d: seq<(string, seq<Core>)>)
  {
    |sets| == |d| && forall k :: 0 <= k < |d| ==> !sets[k].isUnset && sets[k].name == d[k].0 && sets[k].cores == d[k].1
  }

  /** The foreach over the Intel layouts: the first one whose model is a part of the processor name. */
  method FindIntelLayout(cpuName: string) returns (layout: Option<(string, nat, nat)>)
    ensures layout == IntelLayout(cpuName)
  {
    var k := FindFirst(IntelPECoreLayouts, LayoutIn(Split(cpuName, ' ')));
    layout := if k.Some? then Some(IntelPECoreLayouts[k.value]) else None;
  }

  /** The foreach over the AMD dual-CCD models: the first one that is a part of the processor name. */
  method FindDuoCcdModel(cpuName: string) returns (model: Option<string>)
    ensures model == DuoCcdModel(cpuName)
  {
    var k := FindFirst(KnownDuoCcdCpus, ModelIn(Split(cpuName, ' ')));
    model := if k.Some? then Some(KnownDuoCcdCpus[k.value]) else None;
  }

  /** The vendor branch of PopulateDefaultConfig: the sets of a known Intel or AMD model, for a single processor. */
  method NewDefaultSets(cpuName: string, manufacturer: string, resultCount: nat, logicalProcessorCount: nat)
    returns (defaults: seq<CpuSet>)
    ensures Builds(defaults, DefaultSets(cpuName, manufacturer, resultCount, logicalProcessorCount))
    ensures forall k :: 0 <= k < |defaults| ==> fresh(defaults[k])
    ensures |defaults| == 0 || |defaults| == 2
  {
    defaults := [];
    if resultCount == 1 {
      if IsIntel(cpuName, manufacturer) {
        var layout := FindIntelLayout(cpuName);
        defaults := NewIntelSets(layout, logicalProcessorCount);
      } else if IsAmd(cpuName, manufacturer) {
        var model := FindDuoCcdModel(cpuName);
        defaults := NewAmdSets(model, logicalProcessorCount);
      }
    }
  }

  /** The Intel branch once the layout is found: the P-Cores and E-Cores sets. */
  method NewIntelSets(layout: Option<(string, nat, nat)>, logicalProcessorCount: nat) returns (sets: seq<CpuSet>)
    ensures Builds(sets, IntelSets(layout, logicalProcessorCount)) && forall k :: 0 <= k < |sets| ==> fresh(sets[k])
  {
    if layout.None? {
      return [];
    }
    var pThreads := layout.value.1;
    var pOnlyMask, eOnlyMask, cpuNames := PECoreMasks(logicalProcessorCount, pThreads);
    assert pOnlyMask == PCoreFlags(logicalProcessorCount, pThreads);
    assert eOnlyMask == ECoreFlags(logicalProcessorCount, pThreads);
    assert cpuNames == PECoreNames(logicalProcessorCount, pThreads);
    var pCores := new CpuSet.FromMaskAndNames("P-Cores", pOnlyMask, cpuNames);
    var eCores := new CpuSet.FromMaskAndNames("E-Cores", eOnlyMask, cpuNames);
    sets := [pCores, eCores];
  }

  /** The AMD branch once the model is found: its two die sets. */
  method NewAmdSets(model: Option<string>, logicalProcessorCount: nat) returns (sets: seq<CpuSet>)
    ensures Builds(sets, AmdSets(model, logicalProcessorCount)) && forall k :: 0 <= k < |sets| ==> fresh(sets[k])
  {
    if model.None? {
      return [];
    }
    var names := DuoCcdSetNames(model.value);
    var ccd0 := new CpuSet.FromMask(names.0, HalfMask(logicalProcessorCount, true));
    var ccd1 := new CpuSet.FromMask(names.1, HalfMask(logicalProcessorCount, false));
    sets := [ccd0, ccd1];
  }

  /**
   * The default sets: a known Intel model gives P-Cores and E-Cores, both with one processor per
   * logical processor, processor i a P-core thread exactly when i < pThreads, named "CPU {i}P"
   * or "CPU {i}E", the two masks complementary. A known AMD model gives two sets of 2 * (n / 2)
   * processors, the first half in the first set and the second half in the second, named
   * Cache/Freq for an X3D model and CCD0/CCD1 otherwise.
   */
  lemma DefaultSetsSpec(cpuName: string, manufacturer: string, resultCount: nat, n: nat)
    ensures resultCount != 1 ==> DefaultSets(cpuName, manufacturer, resultCount, n) == []
    ensures resultCount == 1 && IsIntel(cpuName, manufacturer) && IntelLayout(cpuName).Some? ==>
      var d := DefaultSets(cpuName, manufacturer, resultCount, n);
      var pThreads := IntelLayout(cpuName).value.1;
      && |d| == 2 && d[0].0 == "P-Cores" && d[1].0 == "E-Cores"
      && |d[0].1| == n && |d[1].1| == n
      && forall i :: 0 <= i < n ==>
           && (d[0].1[i].isEnabled <==> i < pThreads)
           && d[1].1[i].isEnabled == !d[0].1[i].isEnabled
           && d[0].1[i].name == PECoreName(i, pThreads) && d[1].1[i].name == PECoreName(i, pThreads)
    ensures resultCount == 1 && IsIntel(cpuName, manufacturer) && IntelLayout(cpuName).None? ==>
      DefaultSets(cpuName, manufacturer, resultCount, n) == []
    ensures resultCount == 1 && !IsIntel(cpuName, manufacturer) && IsAmd(cpuName, manufacturer) && DuoCcdModel(cpuName).Some? ==>
      var d := DefaultSets(cpuName, manufacturer, resultCount, n);
      var model := DuoCcdModel(cpuName).value;
      && |d| == 2
      && (EndsWith(model, "X3D") ==> d[0].0 == "Cache" && d[1].0 == "Freq")
      && (!EndsWith(model, "X3D") ==> d[0].0 == "CCD0" && d[1].0 == "CCD1")
      && |d[0].1| == 2 * (n / 2) && |d[1].1| == 2 * (n / 2)
      && forall i :: 0 <= i < 2 * (n / 2) ==>
           && (d[0].1[i].isEnabled <==> i < n / 2)
           && d[1].1[i].isEnabled == !d[0].1[i].isEnabled
    ensures resultCount == 1 && !IsIntel(cpuName, manufacturer) && !(IsAmd(cpuName, manufacturer) && DuoCcdModel(cpuName).Some?) ==>
      DefaultSets(cpuName, manufacturer, resultCount, n) == []
  {
  }

  // ---------------------------------------------------------------------------------------------
  // ProcessListEntry.cs

  /** A datapoint is dropped once it is more than 60 seconds old. */
  const MaxDatapointAge: int := 60 * PHW.TicksPerSecond

  class ProcessListEntry {
    const pid: nat
    const name: string
    const path: string
    /** Whether the QueryLimitedInfoHandle the process list opened is valid. */
    const queryHandleValid: bool
    var cpuSet: CpuSet?
    /** The handle ApplyToProcess opens (SetLimitedInfoHandle): None while null, Some(valid) afterwards. */
    var handle: Option<bool>
    /** The moving-average buffer of CPU-time datapoints, oldest first. */
    var buffer: seq<PHW.CpuTimeTimestamp>
    /** AverageCpuUsage, with its ratio kept as its two tick counts. */
    var averageCpuUsage: PHW.CpuUsage

    /** FailedToOpen: a handle exists and is invalid. */
    predicate FailedToOpen()
      reads this
    {
      handle == Some(false)
    }

    /**
     * The constructor: the entry starts with no CPU Set, no handle and an empty buffer, then its
     * last statement, CpuSet = GetConfiguredCpuSet(), goes through the CpuSet setter over the
     * running entries `runningProcesses` (which do not include the new entry). A null configured
     * set equals the null field, so the setter then does nothing.
     */
    constructor (pid: nat, name: string, path: string, queryHandleValid: bool, config: Config, os: Os,
                 runningProcesses: seq<ProcessListEntry>, isRunning: bool)
      modifies config`processCpuSets, config.processCpuSets`cpuSetName, config.file`writes, os`calls,
        (if GetConfiguredCpuSet(config, name, path) == null then {} else {GetConfiguredCpuSet(config, name, path)})`processesUsingSet,
        runningProcesses`cpuSet
      ensures this.pid == pid && this.name == name && this.path == path && this.queryHandleValid == queryHandleValid
      ensures buffer == [] && averageCpuUsage == PHW.Idle
      ensures cpuSet == old(GetConfiguredCpuSet(config, name, path))
      ensures old(GetConfiguredCpuSet(config, name, path)) == null ==>
        && handle.None? && os.calls == old(os.calls)
        && config.processCpuSets == old(config.processCpuSets) && config.file.writes == old(config.file.writes)
      ensures old(GetConfiguredCpuSet(config, name, path)) != null ==>
        StoredInConfig(name, path, old(GetConfiguredCpuSet(config, name, path)), config, runningProcesses, isRunning, this,
                       old(StateBefore(config, name, path)))
    {
      this.pid := pid;
      this.name := name;
      this.path := path;
      this.queryHandleValid := queryHandleValid;
      cpuSet := null;
      handle := None;
      buffer := [];
      averageCpuUsage := PHW.Idle;
      new;
      var configured := GetConfiguredCpuSet(config, name, path);
      if configured != null {
        SetCpuSet(configured, config, os, runningProcesses, isRunning);
      }
    }

    /**
     * OnCpuSetChanged, which the CpuSet setter raises: the entry leaves the old set's list and
     * joins the new one's, which applies at once unless this is the first assignment and the new
     * set is Unset. Then Unset (compared with the configuration's Unset set) removes the
     * process's rules; any other set is stored by name in its rule. The rule changes raise the
     * handlers of ProcessCPUSets and ProcessCPUSet.CpuSetName over the running entries, which may
     * include this one.
     */
    method OnCpuSetChanged(oldValue: CpuSet?, newValue: CpuSet, config: Config, os: Os,
                           runningProcesses: seq<ProcessListEntry>, isRunning: bool, ghost before: RuleState)
      requires oldValue != newValue && cpuSet == newValue
      requires before == StateBefore(config, name, path)
      modifies this`handle, (if oldValue == null then {} else {oldValue})`processesUsingSet, newValue`processesUsingSet, os`calls,
        config`processCpuSets, config.processCpuSets`cpuSetName, config.file`writes,
        runningProcesses`cpuSet
      ensures this !in runningProcesses ==> cpuSet == old(cpuSet)
      ensures buffer == old(buffer)
      ensures oldValue != null ==> oldValue.processesUsingSet == RemoveFirst(old(oldValue.processesUsingSet), this)
      ensures newValue.processesUsingSet == old(newValue.processesUsingSet) + [this]
      ensures (oldValue != null || !newValue.isUnset) ==>
        && handle == Opened(old(handle), pid, os.succeeds, |old(os.calls)|)
        && os.calls == old(os.calls) + CallsThrough(old(handle), pid, newValue.ApplyCall(pid), os.succeeds, |old(os.calls)|)
      ensures !(oldValue != null || !newValue.isUnset) ==> handle == old(handle) && os.calls == old(os.calls)
      ensures StoredInConfig(name, path, newValue, config, runningProcesses, isRunning, this, before)
    {
      MoveBetweenSets(oldValue, newValue, os, config);
      StoreInConfig(newValue, config, runningProcesses, isRunning, before, oldValue, os);
    }

    /** The first half of OnCpuSetChanged: the entry leaves the old set's list and joins the new one's. */
    method MoveBetweenSets(oldValue: CpuSet?, newValue: CpuSet, os: Os, ghost config: Config)
      requires oldValue != newValue
      modifies this`handle, (if oldValue == null then {} else {oldValue})`processesUsingSet, newValue`processesUsingSet, os`calls
      ensures cpuSet == old(cpuSet) && buffer == old(buffer)
      ensures StateBefore(config, name, path) == old(StateBefore(config, name, path))
      ensures oldValue != null ==> oldValue.processesUsingSet == RemoveFirst(old(oldValue.processesUsingSet), this)
      ensures newValue.processesUsingSet == old(newValue.processesUsingSet) + [this]
      ensures (oldValue != null || !newValue.isUnset) ==>
        && handle == Opened(old(handle), pid, os.succeeds, |old(os.calls)|)
        && os.calls == old(os.calls) + CallsThrough(old(handle), pid, newValue.ApplyCall(pid), os.succeeds, |old(os.calls)|)
      ensures !(oldValue != null || !newValue.isUnset) ==> handle == old(handle) && os.calls == old(os.calls)
    {
      if oldValue != null {
        oldValue.RemoveProcess(this);
      }
      newValue.AddProcess(this, oldValue != null || !newValue.isUnset, os);
    }

    /** The second half of OnCpuSetChanged: Unset removes the process's rules, any other set is stored in its rule. */
    method StoreInConfig(newValue: CpuSet, config: Config, runningProcesses: seq<ProcessListEntry>, isRunning: bool,
                         ghost before: RuleState, ghost oldValue: CpuSet?, ghost os: Os)
      requires cpuSet == newValue
      requires before == StateBefore(config, name, path)
      modifies config`processCpuSets, config.processCpuSets`cpuSetName, config.file`writes, runningProcesses`cpuSet
      ensures StoredInConfig(name, path, newValue, config, runningProcesses, isRunning, this, before)
      ensures this !in runningProcesses ==> cpuSet == old(cpuSet)
      ensures handle == old(handle) && buffer == old(buffer) && os.calls == old(os.calls)
      ensures newValue.processesUsingSet == old(newValue.processesUsingSet)
      ensures oldValue != null ==> oldValue.processesUsingSet == old(oldValue.processesUsingSet)
    {
      if newValue == config.UnsetSet() {
        config.RemoveProcessCpuSet(name, path, runningProcesses, isRunning);
      } else {
        config.SetProcessCpuSet(name, path, newValue.name, runningProcesses, isRunning);
      }
    }

    /**
     * The CpuSet property setter: a new value is stored and raises OnCpuSetChanged, an equal one
     * does nothing. A running entry keeps the new value unless another set of the same name comes
     * first in the configuration: the rule stores only the name, and applying it gives the entry
     * that first set.
     */
    method SetCpuSet(value: CpuSet, config: Config, os: Os, runningProcesses: seq<ProcessListEntry>, isRunning: bool)
      modifies this`cpuSet, this`handle, (if cpuSet == null then {} else {cpuSet})`processesUsingSet, value`processesUsingSet, os`calls, config`processCpuSets, config.processCpuSets`cpuSetName,
        config.file`writes, runningProcesses`cpuSet
      ensures this !in runningProcesses || config.GetCpuSetByName(value.name) == Some(value) ==> cpuSet == value
      ensures cpuSet == value ||
        (config.GetCpuSetByName(value.name).Some? && cpuSet == config.GetCpuSetByName(value.name).value)
      ensures buffer == old(buffer)
      ensures old(cpuSet) == value ==>
        && handle == old(handle) && os.calls == old(os.calls)
        && config.processCpuSets == old(config.processCpuSets) && config.file.writes == old(config.file.writes)
      ensures old(cpuSet) != value ==> value.processesUsingSet == old(value.processesUsingSet) + [this]
      ensures old(cpuSet) != value && old(cpuSet) != null ==> old(cpuSet).processesUsingSet == RemoveFirst(old(cpuSet.processesUsingSet), this)
      ensures old(cpuSet) != value ==>
        StoredInConfig(name, path, value, config, runningProcesses, isRunning, this,
                       old(StateBefore(config, name, path)))
      ensures config.cpuSets == old(config.cpuSets)
    {
      if cpuSet == value {
        return;
      }
      ghost var before := StateBefore(config, name, path);
      var oldValue := cpuSet;
      cpuSet := value;
      OnCpuSetChanged(oldValue, value, config, os, runningProcesses, isRunning, before);
    }

    /**
     * UpdateCpuUsage at time `now`, with `times` the (kernel, user) CPU times GetProcessTimes
     * reports, or None when it fails. An invalid query handle changes nothing; otherwise the front
     * datapoints older than 60 seconds are dropped first, then a failed query stops, and a
     * successful one enqueues the new datapoint and compares it with the oldest one left: no CPU
     * time in between gives a usage of 0.
     */
    method UpdateCpuUsage(now: int, times: Option<(NM.FileTime, NM.FileTime)>)
      modifies this
      ensures !queryHandleValid ==> buffer == old(buffer) && averageCpuUsage == old(averageCpuUsage)
      ensures queryHandleValid && times.None? ==>
        buffer == PHW.Evicted(old(buffer), now, MaxDatapointAge) && averageCpuUsage == old(averageCpuUsage)
      ensures queryHandleValid && times.Some? ==>
        var total := PHW.TotalCpuTicks(times.value.0, times.value.1);
        var window := PHW.Evicted(old(buffer), now, MaxDatapointAge) + [PHW.CpuTimeTimestamp(now, total)];
        && buffer == window
        && averageCpuUsage == (if total == window[0].totalCpuTime then PHW.Idle
                               else PHW.Busy(total - window[0].totalCpuTime, now - window[0].timestamp))
      ensures cpuSet == old(cpuSet) && handle == old(handle)
    {
      if !queryHandleValid {
        return;
      }
      var queue := buffer;
      while |queue| > 0
        invariant PHW.Evicted(queue, now, MaxDatapointAge) == PHW.Evicted(buffer, now, MaxDatapointAge)
        decreases |queue|
      {
        if PHW.IsStale(queue[0], now, MaxDatapointAge) {
          queue := queue[1..];
        } else {
          break;
        }
      }
      if times.None? {
        buffer := queue;
        return;
      }
      var totalCpuTime := PHW.TotalCpuTicks(times.value.0, times.value.1);
      buffer := queue + [PHW.CpuTimeTimestamp(now, totalCpuTime)];
      var startDatapoint := buffer[0];
      var deltaTime := now - startDatapoint.timestamp;
      var deltaCpuTime := totalCpuTime - startDatapoint.totalCpuTime;
      if deltaCpuTime == 0 {
        averageCpuUsage := PHW.Idle;
      } else {
        averageCpuUsage := PHW.Busy(deltaCpuTime, deltaTime);
      }
    }
  }

  // ---------------------------------------------------------------------------------------------
  // MainWindowViewModel.cs

  /** No two entries share a PID. */
  predicate UniquePids(entries: seq<ProcessListEntry>)
  {
    UniqueBy(entries, PidOf)
  }

  /** The PID of an entry. */
  function PidOf(e: ProcessListEntry): nat
  {
    e.pid
  }

  /** The entries that are not the given process. */
  function OtherPid(pid: nat): ProcessListEntry -> bool
  {
    (e: ProcessListEntry) => e.pid != pid
  }

  /** The entries of the given process. */
  function HasPid(pid: nat): ProcessListEntry -> bool
  {
    (e: ProcessListEntry) => e.pid == pid
  }

  class MainWindow {
    var runningProcesses: seq<ProcessListEntry>
    var hotkeyInputSelected: bool
    var currentForegroundProcess: ProcessListEntry?
    var settingsSelectedCpuSet: CpuSet?
    var settingsNewCpuSetName: string
    /** HotkeyListener.Instance.CallbacksEnabled */
    var callbacksEnabled: bool
    /** MainWindowViewModel.IsRunning, set as the constructor's last step. */
    var isRunning: bool

    constructor (callbacksEnabled: bool)
      ensures runningProcesses == [] && !hotkeyInputSelected && currentForegroundProcess == null
      ensures settingsSelectedCpuSet == null && settingsNewCpuSetName == "" && this.callbacksEnabled == callbacksEnabled
      ensures isRunning
    {
      runningProcesses := [];
      hotkeyInputSelected := false;
      currentForegroundProcess := null;
      settingsSelectedCpuSet := null;
      settingsNewCpuSetName := "";
      this.callbacksEnabled := callbacksEnabled;
      isRunning := true;
    }

    /** The name the AddNewSet command accepts: not empty, and no set has it yet. */
    predicate CanAddNewSet(config: Config)
      reads this, config
    {
      |settingsNewCpuSetName| > 0 && forall s :: s in config.cpuSets ==> s.name != settingsNewCpuSetName
    }

    /**
     * AddNewSet: an empty or taken name changes nothing. Otherwise exactly one set of that name,
     * with every processor enabled, is added (which saves) and selected, and the name input is
     * cleared.
     */
    method AddNewSet(config: Config, logicalProcessorCount: nat)
      modifies this, config, config.file
      ensures !old(CanAddNewSet(config)) ==>
        && config.cpuSets == old(config.cpuSets) && config.file.writes == old(config.file.writes)
        && settingsSelectedCpuSet == old(settingsSelectedCpuSet) && settingsNewCpuSetName == old(settingsNewCpuSetName)
      ensures old(CanAddNewSet(config)) ==>
        && |config.cpuSets| == |old(config.cpuSets)| + 1
        && config.cpuSets[..|old(config.cpuSets)|] == old(config.cpuSets)
        && settingsSelectedCpuSet == config.cpuSets[|old(config.cpuSets)|] && fresh(settingsSelectedCpuSet)
        && settingsSelectedCpuSet.name == old(settingsNewCpuSetName)
        && settingsSelectedCpuSet.cores == CoresOf(Repeat(true, logicalProcessorCount))
        && settingsNewCpuSetName == ""
        && config.file.writes == old(config.file.writes) + (if config.isLoading then 0 else 1)
      ensures !CanAddNewSet(config)
      ensures config.processCpuSets == old(config.processCpuSets) && config.isLoading == old(config.isLoading)
      ensures runningProcesses == old(runningProcesses) && currentForegroundProcess == old(currentForegroundProcess)
      ensures hotkeyInputSelected == old(hotkeyInputSelected) && callbacksEnabled == old(callbacksEnabled)
      ensures isRunning == old(isRunning)
    {
      var newName := settingsNewCpuSetName;
      if |newName| == 0 || exists s :: s in config.cpuSets && s.name == newName {
        return;
      }
      var newCpuSet := new CpuSet.Named(settingsNewCpuSetName, logicalProcessorCount);
      config.CpuSetsAdd(newCpuSet);
      settingsSelectedCpuSet := newCpuSet;
      settingsNewCpuSetName := "";
    }

    /** RemoveSet: nothing without a selection or for the Unset set; otherwise the selected set removes itself. */
    method RemoveSet(config: Config)
      modifies config, config.file, settingsSelectedCpuSet,
        if settingsSelectedCpuSet != null then set e | e in settingsSelectedCpuSet.processesUsingSet else {}
      ensures old(settingsSelectedCpuSet) == null || old(settingsSelectedCpuSet.isUnset) ==>
        config.cpuSets == old(config.cpuSets) && config.file.writes == old(config.file.writes)
      ensures settingsSelectedCpuSet != null && !settingsSelectedCpuSet.isUnset ==>
        config.cpuSets == RemoveFirst<CpuSet>(old(config.cpuSets), settingsSelectedCpuSet)
      ensures settingsSelectedCpuSet != null && !settingsSelectedCpuSet.isUnset ==>
        config.file.writes == old(config.file.writes) +
          (if settingsSelectedCpuSet in old(config.cpuSets) && !config.isLoading then 1 else 0)
      ensures settingsSelectedCpuSet != null && !settingsSelectedCpuSet.isUnset ==>
        !settingsSelectedCpuSet.callbackRegistered
      ensures settingsSelectedCpuSet != null && !settingsSelectedCpuSet.isUnset ==>
        forall e :: e in old(settingsSelectedCpuSet.processesUsingSet) ==> e.cpuSet == old(config.UnsetSet())
      ensures config.processCpuSets == old(config.processCpuSets)
    {
      if settingsSelectedCpuSet == null || settingsSelectedCpuSet.isUnset {
        return;
      }
      settingsSelectedCpuSet.Remove(config);
    }

    /** ClearHotkey: the selected set's hotkey is cleared. */
    method ClearHotkey(config: Config)
      modifies settingsSelectedCpuSet, config.file
      ensures settingsSelectedCpuSet != null ==> settingsSelectedCpuSet.hotkey == [] && settingsSelectedCpuSet.callbackKeys == []
    {
      if settingsSelectedCpuSet != null {
        settingsSelectedCpuSet.ClearHotkey(config);
      }
    }

    /** The KeyDown handler: while the hotkey input has focus, a key the selected set's hotkey lacks is added to it. */
    method OnKeyDown(key: CM.VKey, config: Config)
      modifies settingsSelectedCpuSet, config.file
      ensures settingsSelectedCpuSet != null ==>
        settingsSelectedCpuSet.hotkey ==
          if hotkeyInputSelected && key !in old(settingsSelectedCpuSet.hotkey)
          then old(settingsSelectedCpuSet.hotkey) + [key] else old(settingsSelectedCpuSet.hotkey)
      ensures settingsSelectedCpuSet != null && old(MT.NoDuplicateKeys(settingsSelectedCpuSet.hotkey)) ==>
        MT.NoDuplicateKeys(settingsSelectedCpuSet.hotkey)
    {
      if hotkeyInputSelected && settingsSelectedCpuSet != null && key !in settingsSelectedCpuSet.hotkey {
        settingsSelectedCpuSet.AddHotkeyKey(key, config);
      }
    }

    /** OnHotkeyInputFocusChanged: focusing the hotkey input disables the hotkey callbacks, and leaving it enables them. */
    method OnHotkeyInputFocusChanged(isFocused: bool)
      modifies this
      ensures hotkeyInputSelected == isFocused && callbacksEnabled == !isFocused
      ensures runningProcesses == old(runningProcesses) && currentForegroundProcess == old(currentForegroundProcess)
      ensures settingsSelectedCpuSet == old(settingsSelectedCpuSet) && settingsNewCpuSetName == old(settingsNewCpuSetName)
    {
      hotkeyInputSelected := isFocused;
      callbacksEnabled := !isFocused;
    }

    /**
     * OnCpuSetHotkeyPressed: the foreground process, if there is one, is given the set, through
     * the CpuSet setter and the rule handlers over the running entries.
     */
    method OnCpuSetHotkeyPressed(cpuSet: CpuSet, config: Config, os: Os)
      modifies currentForegroundProcess, (if currentForegroundProcess != null then {currentForegroundProcess.cpuSet} else {}),
        cpuSet, os, config, config.processCpuSets, config.file, runningProcesses
      ensures currentForegroundProcess != null && config.GetCpuSetByName(cpuSet.name) == Some(cpuSet) ==>
        currentForegroundProcess.cpuSet == cpuSet
      ensures currentForegroundProcess != null ==>
        || currentForegroundProcess.cpuSet == cpuSet
        || (config.GetCpuSetByName(cpuSet.name).Some? && currentForegroundProcess.cpuSet == config.GetCpuSetByName(cpuSet.name).value)
      ensures currentForegroundProcess == null ==>
        && os.calls == old(os.calls) && config.processCpuSets == old(config.processCpuSets)
        && config.file.writes == old(config.file.writes)
      ensures currentForegroundProcess == null ==> cpuSet.processesUsingSet == old(cpuSet.processesUsingSet)
      ensures config.cpuSets == old(config.cpuSets)
    {
      if currentForegroundProcess != null {
        currentForegroundProcess.SetCpuSet(cpuSet, config, os, runningProcesses, isRunning);
      }
    }

    /**
     * OnNewProcess: a process whose PID is listed already changes nothing. Otherwise a new entry
     * with its configured CPU Set, which may be null, is built and then appended.
     */
    method OnNewProcess(pid: nat, name: string, path: string, queryHandleValid: bool, config: Config, os: Os)
      modifies this`runningProcesses, config`processCpuSets, config.processCpuSets`cpuSetName, config.file`writes, os`calls,
        (if GetConfiguredCpuSet(config, name, path) == null then {} else {GetConfiguredCpuSet(config, name, path)})`processesUsingSet,
        runningProcesses`cpuSet
      ensures (exists e :: e in old(runningProcesses) && e.pid == pid) ==>
        runningProcesses == old(runningProcesses) && config.file.writes == old(config.file.writes) && os.calls == old(os.calls)
      ensures (forall e :: e in old(runningProcesses) ==> e.pid != pid) ==>
        && |runningProcesses| == |old(runningProcesses)| + 1
        && runningProcesses[..|old(runningProcesses)|] == old(runningProcesses)
        && fresh(runningProcesses[|old(runningProcesses)|])
        && runningProcesses[|old(runningProcesses)|].pid == pid
        && runningProcesses[|old(runningProcesses)|].cpuSet == old(GetConfiguredCpuSet(config, name, path))
      ensures (forall e :: e in old(runningProcesses) ==> e.pid != pid) && old(GetConfiguredCpuSet(config, name, path)) == null ==>
        config.processCpuSets == old(config.processCpuSets) && config.file.writes == old(config.file.writes) && os.calls == old(os.calls)
      ensures old(UniquePids(runningProcesses)) ==> UniquePids(runningProcesses)
    {
      if exists e :: e in runningProcesses && e.pid == pid {
        return;
      }
      var listed := runningProcesses;
      var entry := new ProcessListEntry(pid, name, path, queryHandleValid, config, os, listed, isRunning);
      if UniquePids(listed) {
        AppendKeepsUniqueBy(listed, entry, PidOf);
      }
      runningProcesses := listed + [entry];
    }

    /** OnExitedProcess: a loop from the back removes every entry with the PID; the others keep their order. */
    method OnExitedProcess(exitedPid: nat)
      modifies this
      ensures runningProcesses == Filter(old(runningProcesses), OtherPid(exitedPid))
      ensures forall e :: e in runningProcesses ==> e.pid != exitedPid
      ensures old(UniquePids(runningProcesses)) ==> UniquePids(runningProcesses)
      ensures currentForegroundProcess == old(currentForegroundProcess) && settingsSelectedCpuSet == old(settingsSelectedCpuSet)
    {
      if UniquePids(runningProcesses) {
        FilterKeepsUniqueBy(runningProcesses, OtherPid(exitedPid), PidOf);
      }
      runningProcesses := RemoveAtFromBack(runningProcesses, OtherPid(exitedPid));
    }

    /**
     * One step of the foreground loop, with the PID of the foreground window's process, or
     * None when there is no foreground window (which changes nothing): the first entry with that
     * PID becomes the foreground process, or null when none has it.
     */
    method UpdateForegroundProcess(foregroundPid: Option<nat>)
      modifies this
      ensures foregroundPid.None? ==> currentForegroundProcess == old(currentForegroundProcess)
      ensures foregroundPid.Some? ==> (currentForegroundProcess != null <==> exists e :: e in runningProcesses && e.pid == foregroundPid.value)
      ensures foregroundPid.Some? && currentForegroundProcess != null ==>
        currentForegroundProcess.pid == foregroundPid.value &&
        exists k :: 0 <= k < |runningProcesses| && runningProcesses[k] == currentForegroundProcess &&
          forall j :: 0 <= j < k ==> runningProcesses[j].pid != foregroundPid.value
      ensures runningProcesses == old(runningProcesses) && settingsSelectedCpuSet == old(settingsSelectedCpuSet)
    {
      if foregroundPid.None? {
        return;
      }
      var k := FirstIndex(runningProcesses, HasPid(foregroundPid.value));
      currentForegroundProcess := if k.Some? then runningProcesses[k.value] else null;
    }
  }
}
