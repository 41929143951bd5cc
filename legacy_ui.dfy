/**
 * The CPUSetSetter.UI generation of the older program: Config.cs, CPUSet.cs, ProcessListEntry.cs
 * and MainWindowViewModel.cs under CPUSetSetter.UI.
 *
 * Unlike its predecessor, this generation keeps the Unset set outside the configuration's list
 * CpuSets, as a singleton, and offers CpuSetPickable, the Unset set followed by every configured
 * set, for the process list's choice box. The handler that keeps CpuSetPickable in step with
 * CpuSets is wired in Config.cs itself, so here every change of CpuSets runs it.
 *
 * ProcessListEntry.cs calls GetProcessCpuSetByName, RemoveProcessCpuSet and SetProcessCpuSet on
 * a Config that declares none of them: the lookup's result is a parameter and the other two
 * calls are recorded in a RuleStore.
 */
module LegacyUi {
  import opened Common
  import opened Bits
  import opened LegacyNative
  import opened LegacyDefaultSets
  import L = Legacy
  import MT = MasksTabViewModel
  import CM = ConfigModels

  /** No object occurs twice in the list. */
  predicate Distinct<T(==)>(s: seq<T>)
  {
    forall i, j :: 0 <= i < j < |s| ==> s[i] != s[j]
  }

  /** The processors of CPUSet.SettingsTabMask's rows. */
  const RowSize: nat := 8

  class CpuSet {
    const name: string
    const cores: seq<L.Core>
    const isUnset: bool
    /** _processesUsingSet */
    var processesUsingSet: seq<ProcessListEntry>

    /** CPUSet(name): ProcessorCount processors, all enabled, named "Core i". */
    constructor Named(name: string, logicalProcessorCount: nat)
      ensures this.name == name && cores == L.CoresOf(Repeat(true, logicalProcessorCount)) && !isUnset
      ensures processesUsingSet == []
    {
      this.name := name;
      cores := L.CoresOf(Repeat(true, logicalProcessorCount));
      isUnset := false;
      processesUsingSet := [];
    }

    /** CPUSet(name, mask): one processor per flag, named "Core i". */
    constructor FromMask(name: string, mask: seq<bool>)
      ensures this.name == name && cores == L.CoresOf(mask) && !isUnset
      ensures processesUsingSet == []
    {
      this.name := name;
      cores := L.CoresOf(mask);
      isUnset := false;
      processesUsingSet := [];
    }

    /** The initialiser of CPUSet.Unset: the empty name, no processors, IsUnset. */
    constructor CreateUnset()
      ensures name == L.UnsetName && cores == [] && isUnset
      ensures processesUsingSet == []
    {
      name := L.UnsetName;
      cores := [];
      isUnset := true;
      processesUsingSet := [];
    }

    /** SettingsTabMask: the processors in rows of 8, every processor once and in order, only the last row shorter. */
    function SettingsTabMask(): (r: seq<seq<L.Core>>)
      ensures MT.Concat(r) == cores
      ensures forall k :: 0 <= k < |r| ==> 1 <= |r[k]| <= RowSize
      ensures forall k :: 0 <= k < |r| - 1 ==> |r[k]| == RowSize
    {
      MT.ChunksCover(cores, RowSize);
      MT.Chunks(cores, RowSize)
    }

    /**
     * Remove: every entry that used the set, taken from a copy of the list, is given the Unset
     * set, then the set is removed from CpuSets, which takes it out of CpuSetPickable too.
     */
    method Remove(config: Config)
      requires config.Valid()
      modifies this, config, config.file, set e | e in processesUsingSet
      ensures forall e :: e in old(processesUsingSet) ==> e.cpuSet == config.unset
      ensures forall e :: e in old(processesUsingSet) ==> e.handle == old(e.handle)
      ensures processesUsingSet == old(processesUsingSet)
      ensures config.Valid() && config.cpuSets == RemoveFirst(old(config.cpuSets), this)
      ensures config.matchWholePath == old(config.matchWholePath) && config.isLoading == old(config.isLoading)
      ensures config.file.writes == old(config.file.writes) + (if this in old(config.cpuSets) && !config.isLoading then 1 else 0)
    {
      AssignUnset(processesUsingSet, config.unset);
      config.CpuSetsRemove(this);
    }

    /** The call ApplyToProcess makes once the handle is valid: clear for Unset, otherwise one GROUP_AFFINITY in group 0. */
    function ApplyCall(pid: nat): ApiCall
    {
      if isUnset then ClearCpuSetMasks(pid) else SetCpuSetMasks(pid, [GroupAffinity(0, FromBools(L.EnabledFlags(cores)))])
    }

    /** The bitmask loop of ApplyToProcess: bit i is set for every enabled processor i. */
    method BitMask() returns (bitMask: bv64)
      ensures bitMask == FromBools(L.EnabledFlags(cores))
    {
      bitMask := 0;
      for i := 0 to |cores|
        invariant bitMask == FromBools(L.EnabledFlags(cores[..i]))
      {
        L.EnabledFlagsStep(cores, i);
        if cores[i].isEnabled {
          bitMask := bitMask | Bit(i);
        }
      }
      assert cores[..|cores|] == cores;
    }

    /**
     * ApplyToProcess: a null handle is opened first and the apply stops if it is invalid; a
     * handle already found invalid stops it at once. Otherwise Unset clears the process's CPU
     * Set, and any other set passes the bitmask of its enabled processors.
     */
    method ApplyToProcess(pEntry: ProcessListEntry, os: Os)
      modifies pEntry, os
      ensures pEntry.handle == Opened(old(pEntry.handle), pEntry.pid, os.succeeds, |old(os.calls)|)
      ensures os.calls == old(os.calls) + CallsThrough(old(pEntry.handle), pEntry.pid, ApplyCall(pEntry.pid), os.succeeds, |old(os.calls)|)
      ensures pEntry.cpuSet == old(pEntry.cpuSet)
    {
      if pEntry.handle.None? {
        var valid := os.Call(OpenProcess(pEntry.pid));
        pEntry.handle := Some(valid);
        if !valid {
          return;
        }
      } else if !pEntry.handle.value {
        return;
      }
      if isUnset {
        var _ := os.Call(ClearCpuSetMasks(pEntry.pid));
      } else {
        var bitMask := BitMask();
        var affinity := [GroupAffinity(0, bitMask)];
        var _ := os.Call(SetCpuSetMasks(pEntry.pid, affinity));
      }
    }

    /** AddProcess: the entry is appended to the list, and the set is applied to it if applyNow. */
    method AddProcess(pEntry: ProcessListEntry, applyNow: bool, os: Os)
      modifies this, pEntry, os
      ensures processesUsingSet == old(processesUsingSet) + [pEntry]
      ensures applyNow ==> pEntry.handle == Opened(old(pEntry.handle), pEntry.pid, os.succeeds, |old(os.calls)|)
      ensures applyNow ==> os.calls == old(os.calls) + CallsThrough(old(pEntry.handle), pEntry.pid, ApplyCall(pEntry.pid), os.succeeds, |old(os.calls)|)
      ensures !applyNow ==> pEntry.handle == old(pEntry.handle) && os.calls == old(os.calls)
      ensures pEntry.cpuSet == old(pEntry.cpuSet)
    {
      processesUsingSet := processesUsingSet + [pEntry];
      if applyNow {
        ApplyToProcess(pEntry, os);
      }
    }

    /** RemoveProcess: the first occurrence of the entry leaves the list. */
    method RemoveProcess(pEntry: ProcessListEntry)
      modifies this
      ensures processesUsingSet == RemoveFirst(old(processesUsingSet), pEntry)
    {
      processesUsingSet := RemoveFirst(processesUsingSet, pEntry);
    }
  }

  /** The loop of CPUSet.Remove over its copy of the list: every entry is given the Unset set. */
  method AssignUnset(snapshot: seq<ProcessListEntry>, unset: CpuSet)
    modifies set e | e in snapshot
    ensures forall e :: e in snapshot ==> e.cpuSet == unset && e.handle == old(e.handle)
  {
    for i := 0 to |snapshot|
      invariant forall j :: 0 <= j < i ==> snapshot[j].cpuSet == unset
      invariant forall e :: e in snapshot ==> e.handle == old(e.handle)
    {
      snapshot[i].cpuSet := unset;
    }
  }

  /** The sets ValidateCPUSets keeps: those with one processor per logical processor. */
  function HasLength(logicalProcessorCount: nat): CpuSet -> bool
  {
    (s: CpuSet) => |s.cores| == logicalProcessorCount
  }

  /** The sets, as (name, processors), PopulateDefaultConfig adds: Cache and Freq for a single known dual-CCD X3D processor. */
  function DefaultSets(cpuName: string, resultCount: nat, logicalProcessorCount: nat): seq<(string, seq<L.Core>)>
  {
    if resultCount == 1 && IsDuoHybridCpu(cpuName) then
      [("Cache", L.CoresOf(HalfMask(logicalProcessorCount, true))), ("Freq", L.CoresOf(HalfMask(logicalProcessorCount, false)))]
    else []
  }

  /**
   * The default sets: none unless WMI reports exactly one processor whose name contains a known
   * model; then Cache, the first half of the processors, and Freq, the second half, each of
   * 2 * (n / 2) processors and each enabling exactly the processors the other does not.
   */
  lemma DefaultSetsSpec(cpuName: string, resultCount: nat, n: nat)
    ensures !(resultCount == 1 && IsDuoHybridCpu(cpuName)) ==> DefaultSets(cpuName, resultCount, n) == []
    ensures resultCount == 1 && IsDuoHybridCpu(cpuName) ==>
      var d := DefaultSets(cpuName, resultCount, n);
      && |d| == 2 && d[0].0 == "Cache" && d[1].0 == "Freq"
      && |d[0].1| == 2 * (n / 2) && |d[1].1| == 2 * (n / 2)
      && forall i :: 0 <= i < 2 * (n / 2) ==>
           && (d[0].1[i].isEnabled <==> i < n / 2)
           && d[1].1[i].isEnabled == !d[0].1[i].isEnabled
  {
  }

  /** The CPU Set objects have the names and processors of the listed sets, in order. */
  predicate Builds(sets: seq<CpuSet>, d: seq<(string, seq<L.Core>)>)
  {
    |sets| == |d| && forall k :: 0 <= k < |d| ==> !sets[k].isUnset && sets[k].name == d[k].0 && sets[k].cores == d[k].1
  }

  /** The first set of the list with exactly this name. */
  function HasSetName(name: string): CpuSet -> bool
  {
    (s: CpuSet) => s.name == name
  }

  /** A list of removals applied in order, each of the first occurrence (List.Remove). */
  function RemoveEach<T(==)>(s: seq<T>, items: seq<T>): seq<T>
  {
    if |items| == 0 then s else RemoveFirst(RemoveEach(s, items[..|items| - 1]), items[|items| - 1])
  }

  /** One more removal of the list. */
  lemma RemoveEachStep<T>(s: seq<T>, items: seq<T>, i: nat)
    requires i < |items|
    ensures RemoveEach(s, items[..i + 1]) == RemoveFirst(RemoveEach(s, items[..i]), items[i])
  {
    assert items[..i + 1][..i] == items[..i];
  }

  /** The removal loop: each item in turn leaves the list at its first occurrence. */
  method RemoveInOrder<T(==)>(s: seq<T>, items: seq<T>) returns (r: seq<T>)
    ensures r == RemoveEach(s, items)
  {
    r := s;
    for i := 0 to |items|
      invariant r == RemoveEach(s, items[..i])
    {
      RemoveEachStep(s, items, i);
      r := RemoveFirst(r, items[i]);
    }
    assert items[..|items|] == items;
  }

  /** Below a distinct head, removing the first occurrence works on the tail. */
  lemma RemoveFirstBehindHead<T>(u: T, s: seq<T>, x: T)
    requires x != u
    ensures RemoveFirst([u] + s, x) == [u] + RemoveFirst(s, x)
  {
    assert ([u] + s)[1..] == s;
  }

  /** Removing the first occurrence of an element that does not occur before index k removes index k. */
  lemma {:induction false} RemoveFirstAtFirst<T>(s: seq<T>, k: nat)
    requires k < |s| && s[k] !in s[..k]
    ensures RemoveFirst(s, s[k]) == s[..k] + s[k + 1..]
  {
    if k > 0 {
      var t := s[1..];
      assert s[0] == s[..k][0];
      assert t[k - 1] == s[k] && t[..k - 1] == s[1..k];
      assert s[k] !in t[..k - 1] by {
        assert forall x :: x in s[1..k] ==> x in s[..k];
      }
      RemoveFirstAtFirst(t, k - 1);
      assert t[k..] == s[k + 1..];
      assert s[..k] == [s[0]] + s[1..k];
    }
  }

  /** In a list without repetitions, removing the first occurrence of element i removes index i. */
  lemma RemoveFirstAt<T>(s: seq<T>, i: nat)
    requires Distinct(s) && i < |s|
    ensures RemoveFirst(s, s[i]) == s[..i] + s[i + 1..]
  {
    assert s[i] !in s[..i] by {
      forall j | 0 <= j < i
        ensures s[..i][j] != s[i]
      {
        assert s[..i][j] == s[j];
      }
    }
    RemoveFirstAtFirst(s, i);
  }

  /** Removing an element keeps a list free of repetitions and of elements it did not have. */
  lemma RemoveAtDistinct<T>(s: seq<T>, i: nat)
    requires Distinct(s) && i < |s|
    ensures Distinct(s[..i] + s[i + 1..])
    ensures forall x :: x in s[..i] + s[i + 1..] ==> x in s
  {
    var r := s[..i] + s[i + 1..];
    forall a, b | 0 <= a < b < |r|
      ensures r[a] != r[b]
    {
      var a' := if a < i then a else a + 1;
      var b' := if b < i then b else b + 1;
      assert r[a] == s[a'] && r[b] == s[b'];
    }
  }

  class Config {
    var cpuSets: seq<CpuSet>
    /** CpuSetPickable */
    var cpuSetPickable: seq<CpuSet>
    var matchWholePath: bool
    var isLoading: bool
    /** CPUSet.Unset */
    const unset: CpuSet
    const file: L.ConfigFile

    /**
     * The state every operation keeps once loading has filled the pickable list: the Unset set
     * followed by every configured set, none of which is Unset and none of which occurs twice.
     */
    predicate Valid()
      reads this
    {
      unset.isUnset && unset !in cpuSets && Distinct(cpuSets) && cpuSetPickable == [unset] + cpuSets
    }

    /** The JSON constructor: no sets, the pickable list [Unset], MatchWholePath on, still loading. */
    constructor (unset: CpuSet)
      requires unset.isUnset
      ensures cpuSets == [] && cpuSetPickable == [unset] && matchWholePath && isLoading
      ensures this.unset == unset && fresh(file) && file.writes == 0
      ensures Valid()
    {
      cpuSets := [];
      cpuSetPickable := [unset];
      matchWholePath := true;
      isLoading := true;
      this.unset := unset;
      file := new L.ConfigFile();
    }

    /** Save: nothing while the configuration is still loading, otherwise one write of the file. */
    method Save()
      modifies file
      ensures file.writes == old(file.writes) + (if isLoading then 0 else 1)
    {
      if isLoading {
        return;
      }
      file.writes := file.writes + 1;
    }

    /** Setting MatchWholePath raises OnPropertyChanged, which saves. */
    method SetMatchWholePath(value: bool)
      modifies this, file
      ensures matchWholePath == value && cpuSets == old(cpuSets) && cpuSetPickable == old(cpuSetPickable)
      ensures isLoading == old(isLoading)
      ensures file.writes == old(file.writes) + (if isLoading then 0 else 1)
    {
      matchWholePath := value;
      Save();
    }

    /**
     * The handler OnDeserialized subscribes to CpuSets: added sets are appended to the pickable
     * list, removed ones leave it; Reset, Replace and Move throw NotImplementedException before
     * the save.
     */
    method OnCpuSetsChanged(action: CM.CollectionAction, newItems: seq<CpuSet>, oldItems: seq<CpuSet>) returns (failure: Option<Failure>)
      modifies this, file
      ensures action.Add? ==> cpuSetPickable == old(cpuSetPickable) + newItems
      ensures action.Remove? ==> cpuSetPickable == RemoveEach(old(cpuSetPickable), oldItems)
      ensures (action.Add? || action.Remove?) <==> failure.None?
      ensures failure.Some? ==> failure == Some(NotImplemented) && cpuSetPickable == old(cpuSetPickable)
      ensures cpuSets == old(cpuSets) && matchWholePath == old(matchWholePath) && isLoading == old(isLoading)
      ensures file.writes == old(file.writes) + (if failure.None? && !isLoading then 1 else 0)
    {
      match action {
        case Add =>
          AddPickable(newItems);
        case Remove =>
          RemovePickable(oldItems);
        case _ =>
          return Some(NotImplemented);
      }
      Save();
      return None;
    }

    /** The foreach of the handler's Add case. */
    method AddPickable(newItems: seq<CpuSet>)
      modifies this
      ensures cpuSetPickable == old(cpuSetPickable) + newItems
      ensures cpuSets == old(cpuSets) && matchWholePath == old(matchWholePath) && isLoading == old(isLoading)
    {
      for i := 0 to |newItems|
        invariant cpuSets == old(cpuSets) && matchWholePath == old(matchWholePath) && isLoading == old(isLoading)
        invariant cpuSetPickable == old(cpuSetPickable) + newItems[..i]
      {
        assert newItems[..i + 1] == newItems[..i] + [newItems[i]];
        cpuSetPickable := cpuSetPickable + [newItems[i]];
      }
      assert newItems[..|newItems|] == newItems;
    }

    /** The foreach of the handler's Remove case. */
    method RemovePickable(oldItems: seq<CpuSet>)
      modifies this
      ensures cpuSetPickable == RemoveEach(old(cpuSetPickable), oldItems)
      ensures cpuSets == old(cpuSets) && matchWholePath == old(matchWholePath) && isLoading == old(isLoading)
    {
      cpuSetPickable := RemoveInOrder(cpuSetPickable, oldItems);
    }

    /** CpuSets.Add(s) and the handler it raises. */
    method CpuSetsAdd(s: CpuSet)
      requires Valid() && !s.isUnset && s !in cpuSets
      modifies this, file
      ensures Valid() && cpuSets == old(cpuSets) + [s]
      ensures matchWholePath == old(matchWholePath) && isLoading == old(isLoading)
      ensures file.writes == old(file.writes) + (if isLoading then 0 else 1)
    {
      cpuSets := cpuSets + [s];
      var _ := OnCpuSetsChanged(CM.CollectionAction.Add, [s], []);
    }

    /** CpuSets.Remove(s): the first occurrence goes, and the handler runs; a set not in the list raises nothing. */
    method CpuSetsRemove(s: CpuSet)
      requires Valid()
      modifies this, file
      ensures Valid() && cpuSets == RemoveFirst(old(cpuSets), s)
      ensures matchWholePath == old(matchWholePath) && isLoading == old(isLoading)
      ensures file.writes == old(file.writes) + (if s in old(cpuSets) && !isLoading then 1 else 0)
    {
      if s !in cpuSets {
        return;
      }
      var k :| 0 <= k < |cpuSets| && cpuSets[k] == s;
      RemoveAt(k);
    }

    /** CpuSets.RemoveAt(i) and the handler it raises. */
    method RemoveAt(i: nat)
      requires Valid() && i < |cpuSets|
      modifies this, file
      ensures Valid() && cpuSets == old(cpuSets[..i] + cpuSets[i + 1..])
      ensures cpuSets == RemoveFirst(old(cpuSets), old(cpuSets[i]))
      ensures matchWholePath == old(matchWholePath) && isLoading == old(isLoading)
      ensures file.writes == old(file.writes) + (if isLoading then 0 else 1)
    {
      var removed := cpuSets[i];
      RemoveFirstAt(cpuSets, i);
      RemoveAtDistinct(cpuSets, i);
      RemoveFirstBehindHead(unset, cpuSets, removed);
      assert [unset] + cpuSets == cpuSetPickable;
      cpuSets := cpuSets[..i] + cpuSets[i + 1..];
      var _ := OnCpuSetsChanged(CM.CollectionAction.Remove, [], [removed]);
      assert [removed][..0] == [];
    }

    /** GetCpuSetByName: the first pickable set with exactly this name; `First` throws when there is none. */
    function GetCpuSetByName(name: string): (r: Result<CpuSet>)
      reads this
      ensures r.Ok? ==> r.value in cpuSetPickable && r.value.name == name
      ensures r.Ok? ==>
        exists k :: 0 <= k < |cpuSetPickable| && cpuSetPickable[k] == r.value &&
          forall j :: 0 <= j < k ==> cpuSetPickable[j].name != name
      ensures r.Err? <==> forall s :: s in cpuSetPickable ==> s.name != name
      ensures r.Err? ==> r == Err(InvalidOperation)
    {
      var k := FirstIndex(cpuSetPickable, HasSetName(name));
      if k.Some? then Ok(cpuSetPickable[k.value]) else Err(InvalidOperation)
    }

    /** The Unset set is found by its name, the empty one, before any other set. */
    lemma UnsetFoundByEmptyName()
      requires Valid() && unset.name == L.UnsetName
      ensures GetCpuSetByName(L.UnsetName) == Ok(unset)
    {
      assert cpuSetPickable[0] == unset;
    }

    /** InitCpuSetNames: every configured set is appended to the pickable list, in order. */
    method InitCpuSetNames()
      modifies this
      ensures cpuSetPickable == old(cpuSetPickable) + cpuSets
      ensures cpuSets == old(cpuSets) && matchWholePath == old(matchWholePath) && isLoading == old(isLoading)
    {
      for i := 0 to |cpuSets|
        invariant cpuSets == old(cpuSets) && matchWholePath == old(matchWholePath) && isLoading == old(isLoading)
        invariant cpuSetPickable == old(cpuSetPickable) + cpuSets[..i]
      {
        assert cpuSets[..i + 1] == cpuSets[..i] + [cpuSets[i]];
        cpuSetPickable := cpuSetPickable + [cpuSets[i]];
      }
      assert cpuSets[..|cpuSets|] == cpuSets;
    }

    /**
     * ValidateCPUSets: a loop from the back removes every set whose length is not the processor
     * count, each removal taking the set out of the pickable list and saving. The others keep
     * their order.
     */
    method ValidateCPUSets(logicalProcessorCount: nat)
      requires Valid()
      modifies this, file
      ensures Valid() && cpuSets == Filter(old(cpuSets), HasLength(logicalProcessorCount))
      ensures forall s :: s in cpuSets ==> |s.cores| == logicalProcessorCount
      ensures matchWholePath == old(matchWholePath) && isLoading == old(isLoading)
      ensures file.writes == old(file.writes) + (if isLoading then 0 else |old(cpuSets)| - |cpuSets|)
    {
      ghost var original := cpuSets;
      var keep := HasLength(logicalProcessorCount);
      var i := |cpuSets|;
      while i > 0
        invariant 0 <= i <= |original|
        invariant Valid() && cpuSets == original[..i] + Filter(original[i..], keep)
        invariant matchWholePath == old(matchWholePath) && isLoading == old(isLoading)
        invariant file.writes == old(file.writes) + (if isLoading then 0 else |original| - |cpuSets|)
      {
        i := i - 1;
        RemoveAtFromBackStep(original, i, keep, cpuSets);
        if |cpuSets[i].cores| != logicalProcessorCount {
          RemoveAt(i);
        }
      }
      assert original[0..] == original;
    }

    /** PopulateDefaultConfig: for a single processor whose name contains a known dual-CCD X3D model, the Cache and Freq sets. */
    method PopulateDefaultConfig(cpuName: string, resultCount: nat, logicalProcessorCount: nat)
      requires Valid()
      modifies this, file
      ensures Valid() && |cpuSets| >= |old(cpuSets)| && cpuSets[..|old(cpuSets)|] == old(cpuSets)
      ensures Builds(cpuSets[|old(cpuSets)|..], DefaultSets(cpuName, resultCount, logicalProcessorCount))
      ensures forall k :: |old(cpuSets)| <= k < |cpuSets| ==> fresh(cpuSets[k])
      ensures matchWholePath == old(matchWholePath) && isLoading == old(isLoading)
    {
      if resultCount == 1 && IsDuoHybridCpu(cpuName) {
        var cacheMask := HalfMask(logicalProcessorCount, true);
        var freqMask := HalfMask(logicalProcessorCount, false);
        var cache := new CpuSet.FromMask("Cache", cacheMask);
        CpuSetsAdd(cache);
        var freq := new CpuSet.FromMask("Freq", freqMask);
        CpuSetsAdd(freq);
        assert cpuSets[|old(cpuSets)|..] == [cache, freq];
      } else {
        assert cpuSets[|old(cpuSets)|..] == [];
      }
    }

    /**
     * Load, with the deserialized sets and MatchWholePath as a parameter (None when the file is
     * missing or corrupt; JSON creates a distinct object per set, none of them Unset). A loaded
     * configuration stops loading, fills the pickable list and is validated; a new one stops
     * loading and gets the default sets.
     */
    static method Load(loaded: Option<(seq<CpuSet>, bool)>, unset: CpuSet, cpuName: string, resultCount: nat,
                       logicalProcessorCount: nat) returns (config: Config)
      requires unset.isUnset
      requires loaded.Some? ==> unset !in loaded.value.0 && Distinct(loaded.value.0)
      ensures fresh(config) && config.Valid() && !config.isLoading && config.unset == unset
      ensures loaded.Some? ==>
        config.cpuSets == Filter(loaded.value.0, HasLength(logicalProcessorCount)) && config.matchWholePath == loaded.value.1
      ensures loaded.None? ==>
        Builds(config.cpuSets, DefaultSets(cpuName, resultCount, logicalProcessorCount)) && config.matchWholePath
    {
      config := new Config(unset);
      if loaded.Some? {
        config.cpuSets, config.matchWholePath := loaded.value.0, loaded.value.1;
        config.isLoading := false;
        config.InitCpuSetNames();
        config.ValidateCPUSets(logicalProcessorCount);
      } else {
        config.isLoading := false;
        config.PopulateDefaultConfig(cpuName, resultCount, logicalProcessorCount);
        assert config.cpuSets[0..] == config.cpuSets;
      }
    }
  }

  /** A call to the rule methods ProcessListEntry.cs expects of the configuration. */
  datatype RuleCall = RemoveProcessCpuSet(name: string, path: string) | SetProcessCpuSet(name: string, path: string, cpuSetName: string)

  /** The calls ProcessListEntry.cs makes to RemoveProcessCpuSet and SetProcessCpuSet, in order. */
  class RuleStore {
    var calls: seq<RuleCall>

    constructor ()
      ensures calls == []
    {
      calls := [];
    }

    method Call(c: RuleCall)
      modifies this
      ensures calls == old(calls) + [c]
    {
      calls := calls + [c];
    }
  }

  /**
   * GetConfiguredCpuSet, with the CpuSetName of the rule GetProcessCpuSetByName finds, or None:
   * without a rule the process gets Unset, and with one the set of that name, looked up with
   * GetCpuSetByName, which throws when there is none (so the `?? Unset` never applies).
   */
  function GetConfiguredCpuSet(config: Config, ruleCpuSetName: Option<string>): (r: Result<CpuSet>)
    reads config
    ensures ruleCpuSetName.None? ==> r == Ok(config.unset)
    ensures ruleCpuSetName.Some? && r.Ok? ==> r.value in config.cpuSetPickable && r.value.name == ruleCpuSetName.value
    ensures ruleCpuSetName.Some? ==> (r.Err? <==> forall s :: s in config.cpuSetPickable ==> s.name != ruleCpuSetName.value)
  {
    if ruleCpuSetName.None? then Ok(config.unset) else config.GetCpuSetByName(ruleCpuSetName.value)
  }

  class ProcessListEntry {
    const pid: nat
    const name: string
    const path: string
    var cpuSet: CpuSet?
    /** The handle ApplyToProcess opens: None while null, Some(valid) afterwards. */
    var handle: Option<bool>

    /** FailedToOpen: a handle exists and it is invalid. */
    function FailedToOpen(): (r: bool)
      reads this
      ensures r <==> handle.Some? && !handle.value
    {
      handle == Some(false)
    }

    /** The constructor: the entry takes its configured set, which the caller has found, through the CpuSet setter. */
    constructor (pid: nat, name: string, path: string, configured: CpuSet, unset: CpuSet, rules: RuleStore, os: Os)
      modifies configured, rules, os
      ensures this.pid == pid && this.name == name && this.path == path
      ensures cpuSet == configured && configured.processesUsingSet == old(configured.processesUsingSet) + [this]
      ensures configured.isUnset ==> handle.None? && os.calls == old(os.calls)
      ensures !configured.isUnset ==> handle == Opened(None, pid, os.succeeds, |old(os.calls)|)
      ensures configured == unset ==> rules.calls == old(rules.calls) + [RemoveProcessCpuSet(name, path)]
      ensures configured != unset ==> rules.calls == old(rules.calls) + [SetProcessCpuSet(name, path, configured.name)]
    {
      this.pid := pid;
      this.name := name;
      this.path := path;
      cpuSet := null;
      handle := None;
      new;
      cpuSet := configured;
      OnCpuSetChanged(null, configured, unset, rules, os);
    }

    /**
     * OnCpuSetChanged, which the CpuSet setter raises: the entry leaves the old set's list and
     * joins the new one's, which applies at once unless this is the first assignment and the new
     * set is Unset. Then Unset removes the process's rule and any other set is stored in it.
     */
    method OnCpuSetChanged(oldValue: CpuSet?, newValue: CpuSet, unset: CpuSet, rules: RuleStore, os: Os)
      requires oldValue != newValue && cpuSet == newValue
      modifies this, oldValue, newValue, rules, os
      ensures cpuSet == old(cpuSet)
      ensures oldValue != null ==> oldValue.processesUsingSet == RemoveFirst(old(oldValue.processesUsingSet), this)
      ensures newValue.processesUsingSet == old(newValue.processesUsingSet) + [this]
      ensures (oldValue != null || !newValue.isUnset) ==>
        && handle == Opened(old(handle), pid, os.succeeds, |old(os.calls)|)
        && os.calls == old(os.calls) + CallsThrough(old(handle), pid, newValue.ApplyCall(pid), os.succeeds, |old(os.calls)|)
      ensures !(oldValue != null || !newValue.isUnset) ==> handle == old(handle) && os.calls == old(os.calls)
      ensures newValue == unset ==> rules.calls == old(rules.calls) + [RemoveProcessCpuSet(name, path)]
      ensures newValue != unset ==> rules.calls == old(rules.calls) + [SetProcessCpuSet(name, path, newValue.name)]
    {
      if oldValue != null {
        oldValue.RemoveProcess(this);
      }
      newValue.AddProcess(this, oldValue != null || !newValue.isUnset, os);
      if newValue == unset {
        rules.Call(RemoveProcessCpuSet(name, path));
      } else {
        rules.Call(SetProcessCpuSet(name, path, cpuSet.name));
      }
    }
  }

  /** No two entries share a PID. */
  predicate UniquePids(entries: seq<ProcessListEntry>)
  {
    UniqueBy(entries, PidOf)
  }

  /** The PID of an entry. */
  function PidOf(e: ProcessListEntry): nat
  {
    e.pid
  }

  /** The entries that are not the given process. */
  function OtherPid(pid: nat): ProcessListEntry -> bool
  {
    (e: ProcessListEntry) => e.pid != pid
  }

  /** The entries of the given process. */
  function HasPid(pid: nat): ProcessListEntry -> bool
  {
    (e: ProcessListEntry) => e.pid == pid
  }

  class MainWindow {
    var runningProcesses: seq<ProcessListEntry>
    var currentForegroundProcess: ProcessListEntry?
    var settingsSelectedCpuSet: CpuSet?
    var settingsNewCpuSetName: string

    constructor ()
      ensures runningProcesses == [] && currentForegroundProcess == null
      ensures settingsSelectedCpuSet == null && settingsNewCpuSetName == ""
    {
      runningProcesses := [];
      currentForegroundProcess := null;
      settingsSelectedCpuSet := null;
      settingsNewCpuSetName := "";
    }

    /** The name the AddNewSet command accepts: not empty, and no configured set has it yet. */
    predicate CanAddNewSet(config: Config)
      reads this, config
    {
      |settingsNewCpuSetName| > 0 && forall s :: s in config.cpuSets ==> s.name != settingsNewCpuSetName
    }

    /**
     * AddNewSet: an empty or taken name changes nothing. Otherwise exactly one set of that name,
     * with every processor enabled, is added (and so becomes pickable) and the input is cleared.
     */
    method AddNewSet(config: Config, logicalProcessorCount: nat)
      requires config.Valid()
      modifies this, config, config.file
      ensures config.Valid()
      ensures !old(CanAddNewSet(config)) ==>
        config.cpuSets == old(config.cpuSets) && settingsNewCpuSetName == old(settingsNewCpuSetName)
      ensures old(CanAddNewSet(config)) ==>
        && |config.cpuSets| == |old(config.cpuSets)| + 1
        && config.cpuSets[..|old(config.cpuSets)|] == old(config.cpuSets)
        && fresh(config.cpuSets[|old(config.cpuSets)|])
        && config.cpuSets[|old(config.cpuSets)|].name == old(settingsNewCpuSetName)
        && config.cpuSets[|old(config.cpuSets)|].cores == L.CoresOf(Repeat(true, logicalProcessorCount))
        && settingsNewCpuSetName == ""
      ensures !CanAddNewSet(config)
      ensures runningProcesses == old(runningProcesses) && settingsSelectedCpuSet == old(settingsSelectedCpuSet)
      ensures currentForegroundProcess == old(currentForegroundProcess)
    {
      var newName := settingsNewCpuSetName;
      if |newName| == 0 || exists s :: s in config.cpuSets && s.name == newName {
        return;
      }
      var newCpuSet := new CpuSet.Named(settingsNewCpuSetName, logicalProcessorCount);
      config.CpuSetsAdd(newCpuSet);
      settingsNewCpuSetName := "";
    }

    /** RemoveSet: nothing without a selection; otherwise the selected set, even Unset, removes itself. */
    method RemoveSet(config: Config)
      requires config.Valid()
      modifies config, config.file, settingsSelectedCpuSet,
        if settingsSelectedCpuSet != null then set e | e in settingsSelectedCpuSet.processesUsingSet else {}
      ensures config.Valid()
      ensures settingsSelectedCpuSet == null ==> config.cpuSets == old(config.cpuSets)
      ensures settingsSelectedCpuSet != null ==> config.cpuSets == RemoveFirst<CpuSet>(old(config.cpuSets), settingsSelectedCpuSet)
      ensures settingsSelectedCpuSet != null ==>
        forall e :: e in old(settingsSelectedCpuSet.processesUsingSet) ==> e.cpuSet == config.unset
    {
      if settingsSelectedCpuSet != null {
        settingsSelectedCpuSet.Remove(config);
      }
    }

    /**
     * OnNewProcess, with the rule lookup's CpuSetName: a process whose PID is listed already
     * changes nothing. Otherwise a new entry is appended; when its configured set cannot be
     * found the constructor throws and nothing is appended.
     */
    method OnNewProcess(pid: nat, name: string, path: string, ruleCpuSetName: Option<string>, config: Config,
                        rules: RuleStore, os: Os) returns (failure: Option<Failure>)
      modifies this, rules, os, if GetConfiguredCpuSet(config, ruleCpuSetName).Ok? then {GetConfiguredCpuSet(config, ruleCpuSetName).value} else {}
      ensures (exists e :: e in old(runningProcesses) && e.pid == pid) ==> runningProcesses == old(runningProcesses) && failure.None?
      ensures (forall e :: e in old(runningProcesses) ==> e.pid != pid) && GetConfiguredCpuSet(config, ruleCpuSetName).Err? ==>
        runningProcesses == old(runningProcesses) && failure == Some(InvalidOperation)
      ensures (forall e :: e in old(runningProcesses) ==> e.pid != pid) && GetConfiguredCpuSet(config, ruleCpuSetName).Ok? ==>
        && |runningProcesses| == |old(runningProcesses)| + 1
        && runningProcesses[..|old(runningProcesses)|] == old(runningProcesses)
        && fresh(runningProcesses[|old(runningProcesses)|])
        && runningProcesses[|old(runningProcesses)|].pid == pid
        && runningProcesses[|old(runningProcesses)|].cpuSet == GetConfiguredCpuSet(config, ruleCpuSetName).value
        && failure.None?
      ensures old(UniquePids(runningProcesses)) ==> UniquePids(runningProcesses)
    {
      if exists e :: e in runningProcesses && e.pid == pid {
        return None;
      }
      var configured := GetConfiguredCpuSet(config, ruleCpuSetName);
      if configured.Err? {
        return Some(configured.failure);
      }
      var entry := new ProcessListEntry(pid, name, path, configured.value, config.unset, rules, os);
      runningProcesses := runningProcesses + [entry];
      return None;
    }

    /** OnExitedProcess: a loop from the back removes every entry with the PID; the others keep their order. */
    method OnExitedProcess(exitedPid: nat)
      modifies this
      ensures runningProcesses == Filter(old(runningProcesses), OtherPid(exitedPid))
      ensures forall e :: e in runningProcesses ==> e.pid != exitedPid
      ensures old(UniquePids(runningProcesses)) ==> UniquePids(runningProcesses)
      ensures currentForegroundProcess == old(currentForegroundProcess) && settingsSelectedCpuSet == old(settingsSelectedCpuSet)
    {
      if UniquePids(runningProcesses) {
        FilterKeepsUniqueBy(runningProcesses, OtherPid(exitedPid), PidOf);
      }
      runningProcesses := RemoveAtFromBack(runningProcesses, OtherPid(exitedPid));
    }

    /**
     * One step of the foreground loop, with the PID of the foreground window's process, or
     * None when there is no foreground window (which changes nothing): the first entry with that
     * PID becomes the foreground process, or null when none has it.
     */
    method UpdateForegroundProcess(foregroundPid: Option<nat>)
      modifies this
      ensures foregroundPid.None? ==> currentForegroundProcess == old(currentForegroundProcess)
      ensures foregroundPid.Some? ==> (currentForegroundProcess != null <==> exists e :: e in runningProcesses && e.pid == foregroundPid.value)
      ensures foregroundPid.Some? && currentForegroundProcess != null ==>
        && currentForegroundProcess.pid == foregroundPid.value
        && exists k :: 0 <= k < |runningProcesses| && runningProcesses[k] == currentForegroundProcess &&
             forall j :: 0 <= j < k ==> runningProcesses[j].pid != foregroundPid.value
      ensures runningProcesses == old(runningProcesses) && settingsSelectedCpuSet == old(settingsSelectedCpuSet)
    {
      if foregroundPid.None? {
        return;
      }
      var k := FirstIndex(runningProcesses, HasPid(foregroundPid.value));
      currentForegroundProcess := if k.Some? then runningProcesses[k.value] else null;
    }
  }
}
