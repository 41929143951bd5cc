/**
 * Decoding of the processor topology that Windows reports through
 * GetLogicalProcessorInformationEx: the walk over the buffer of variable-size
 * blocks, the naming of every logical processor after the core that owns it,
 * and the default masks derived from P/E efficiency classes and from the L3
 * cache size of each die.
 */
module CpuInfoWindows {
  import opened Common
  import opened Bits

  datatype Manufacturer = Intel | AMD | Other

  /** A core or die block: SMT flag (`Flags == 1`), efficiency class and one affinity mask per processor group. */
  datatype ProcessorRelationship = ProcessorRelationship(isSmt: bool, efficiencyClass: nat, affinities: seq<bv64>)

  /** A cache block: cache level, size in bytes and one affinity mask per processor group. */
  datatype CacheRelationship = CacheRelationship(level: nat, cacheSize: nat, affinities: seq<bv64>)

  /** An element of the list ReadProcessorInfoBuffer returns. */
  datatype Relation = ProcessorRelation(processor: ProcessorRelationship) | CacheRelation(cache: CacheRelationship)

  /** A default mask, as handed to the 3-argument LogicalProcessorMask constructor (no hotkeys). */
  datatype NamedMask = NamedMask(name: string, boolMask: seq<bool>)

  // ---------------------------------------------------------------------------
  // BitMaskToBoolMask (CpuInfoWindows.cs:167-173)
  // ---------------------------------------------------------------------------

  /** UIntPtr.Size * 8 in a 64-bit process. */
  const WordBits: nat := 64

  function BitMaskToBoolMask(mask: bv64, maskLength: nat): (r: Result<seq<bool>>)
    ensures r.Err? <==> maskLength > WordBits
    ensures r.Err? ==> r.failure == Argument
    ensures r.Ok? ==> |r.value| == maskLength
    ensures r.Ok? ==> forall i :: 0 <= i < maskLength ==> (r.value[i] <==> HasBit(mask, i))
  {
    if maskLength > WordBits then Err(Argument) else Ok(ToBools(mask, maskLength))
  }

  /** The flag list read back into a word keeps exactly the low maskLength bits: the affinity code is its inverse. */
  lemma BitMaskToBoolMaskInverse(mask: bv64, maskLength: nat, i: nat)
    requires maskLength <= WordBits && i < WordBits
    ensures BitMaskToBoolMask(mask, maskLength).Ok?
    ensures HasBit(FromBools(BitMaskToBoolMask(mask, maskLength).value), i) <==> (i < maskLength && HasBit(mask, i))
  {
    FromBoolsToBools(mask, maskLength, i);
  }

  // ---------------------------------------------------------------------------
  // GetLogicalProcessorNames (CpuInfoWindows.cs:50-100)
  // ---------------------------------------------------------------------------

  /** The lambda `core => (core.Affinities[0] & bit) != 0`, for a core that has a first mask. */
  predicate Covers(core: ProcessorRelationship, bit: bv64)
  {
    |core.affinities| > 0 && Overlaps(core.affinities[0], bit)
  }

  /**
   * `cores.FindIndex(core => (core.Affinities[0] & bit) != 0)` scanning from
   * index `from`: the first covering core, -1 when there is none, and an
   * ArgumentOutOfRange failure when the scan reaches a core without masks.
   */
  function FindCoreFrom(cores: seq<ProcessorRelationship>, bit: bv64, from: nat): (r: Result<int>)
    requires from <= |cores|
    ensures r.Ok? ==> -1 <= r.value < |cores|
    ensures r.Ok? && r.value >= 0 ==> |cores[r.value].affinities| > 0
    decreases |cores| - from
  {
    if from == |cores| then Ok(-1)
    else if |cores[from].affinities| == 0 then Err(ArgumentOutOfRange)
    else if Overlaps(cores[from].affinities[0], bit) then Ok(from)
    else FindCoreFrom(cores, bit, from + 1)
  }

  /**
   * FindIndex returns the first covering core at or after `from`, -1 when no
   * core covers the bit, and fails only when the scan meets a core without masks.
   */
  lemma {:induction false} FindCoreFromSpec(cores: seq<ProcessorRelationship>, bit: bv64, from: nat)
    requires from <= |cores|
    ensures var r := FindCoreFrom(cores, bit, from);
      (r.Ok? && r.value >= 0 ==>
        from <= r.value && Covers(cores[r.value], bit) &&
        forall j :: from <= j < r.value ==> |cores[j].affinities| > 0 && !Covers(cores[j], bit)) &&
      (r == Ok(-1) <==>
        forall j :: from <= j < |cores| ==> |cores[j].affinities| > 0 && !Covers(cores[j], bit)) &&
      (r.Err? ==>
        r.failure == ArgumentOutOfRange && exists j :: from <= j < |cores| && |cores[j].affinities| == 0)
    decreases |cores| - from
  {
    if from < |cores| && |cores[from].affinities| > 0 && !Overlaps(cores[from].affinities[0], bit) {
      FindCoreFromSpec(cores, bit, from + 1);
    }
  }

  function FindCore(cores: seq<ProcessorRelationship>, bit: bv64): Result<int>
  {
    FindCoreFrom(cores, bit, 0)
  }

  /** `_hasECores`: some core has an efficiency class of at least 1. */
  predicate HasECores(cores: seq<ProcessorRelationship>)
  {
    exists i :: 0 <= i < |cores| && cores[i].efficiencyClass >= 1
  }

  /** The number of set bits of mask below bit n: the inner `for` loop that numbers the threads of an SMT core. */
  function CountBitsBelow(mask: bv64, n: nat): nat
  {
    if n == 0 then 0 else CountBitsBelow(mask, n - 1) + (if HasBit(mask, n - 1) then 1 else 0)
  }

  /** "P-" or "E-" on Intel systems with E-cores, nothing otherwise. */
  function NamePrefix(prefixed: bool, core: ProcessorRelationship): string
  {
    if !prefixed then "" else if core.efficiencyClass >= 1 then "P-" else "E-"
  }

  /** " T{j}" on an SMT core, where j counts the lower-numbered processors of the same core. */
  function NameSuffix(core: ProcessorRelationship, k: nat): string
    requires |core.affinities| > 0
  {
    if core.isSmt then " T" + NatToString(CountBitsBelow(core.affinities[0], k)) else ""
  }

  function ProcessorName(prefixed: bool, cores: seq<ProcessorRelationship>, c: nat, k: nat): string
    requires c < |cores| && |cores[c].affinities| > 0
  {
    NamePrefix(prefixed, cores[c]) + "Core " + NatToString(c) + NameSuffix(cores[c], k)
  }

  /** Core index owners[j] is usable as the owner of processor j. */
  predicate ValidOwners(cores: seq<ProcessorRelationship>, owners: seq<nat>)
  {
    forall j :: 0 <= j < |owners| ==> owners[j] < |cores| && |cores[owners[j]].affinities| > 0
  }

  /**
   * The core search of the naming loop from processor k on, with the owning
   * cores of processors 0..k-1 in acc. The loop stops at the first processor
   * no core covers, and at the latest after processor 63 (see the finding on
   * GetLogicalProcessorNames in README).
   */
  function OwnersLoop(cores: seq<ProcessorRelationship>, k: nat, acc: seq<nat>): (r: Result<seq<nat>>)
    requires k <= WordBits && ValidOwners(cores, acc)
    ensures r.Ok? ==> ValidOwners(cores, r.value)
    decreases WordBits - k
  {
    if k == WordBits then Ok(acc)
    else
      match FindCore(cores, Bit(k))
      case Err(f) => Err(f)
      case Ok(c) =>
        if c < 0 then Ok(acc)
        else OwnersLoop(cores, k + 1, acc + [c])
  }

  /** Processor j is named after its owning core owners[j]. */
  function NamesOf(prefixed: bool, cores: seq<ProcessorRelationship>, owners: seq<nat>): (names: seq<string>)
    requires ValidOwners(cores, owners)
    ensures |names| == |owners|
  {
    seq(|owners|, j requires 0 <= j < |owners| => ProcessorName(prefixed, cores, owners[j], j))
  }

  /** What GetLogicalProcessorNames returns for the given manufacturer and core blocks. */
  function LogicalProcessorNames(manufacturer: Manufacturer, cores: seq<ProcessorRelationship>): Result<seq<string>>
  {
    if |cores| == 0 then Err(ArgumentOutOfRange)
    else if |cores[0].affinities| != 1 then Err(UnsupportedCpu)
    else
      match OwnersLoop(cores, 0, [])
      case Err(f) => Err(f)
      case Ok(owners) => Ok(NamesOf(manufacturer == Intel && HasECores(cores), cores, owners))
  }

  /** The inner `for` loop: how many processors below k the core mask holds. */
  method IndexOnCore(mask: bv64, k: nat) returns (indexOnCore: nat)
    ensures indexOnCore == CountBitsBelow(mask, k)
  {
    indexOnCore := 0;
    var i: nat := 0;
    while i < k
      invariant i <= k
      invariant indexOnCore == CountBitsBelow(mask, i)
    {
      indexOnCore := indexOnCore + if HasBit(mask, i) then 1 else 0;
      i := i + 1;
    }
  }

  method GetLogicalProcessorNames(manufacturer: Manufacturer, cores: seq<ProcessorRelationship>) returns (r: Result<seq<string>>)
    ensures r == LogicalProcessorNames(manufacturer, cores)
  {
    if |cores| == 0 {
      return Err(ArgumentOutOfRange);
    }
    if |cores[0].affinities| != 1 {
      return Err(UnsupportedCpu);
    }
    var hasECores := HasECores(cores);
    var prefixed := manufacturer == Intel && hasECores;
    var names: seq<string> := [];
    ghost var owners: seq<nat> := [];
    var k: nat := 0;
    while k < WordBits
      invariant k <= WordBits && |owners| == k && ValidOwners(cores, owners)
      invariant OwnersLoop(cores, k, owners) == OwnersLoop(cores, 0, [])
      invariant names == NamesOf(prefixed, cores, owners)
    {
      var found := FindCore(cores, Bit(k));
      if found.Err? {
        return Err(found.failure);
      }
      var coreNum := found.value;
      if coreNum == -1 {
        break;
      }
      var prefix := "";
      if prefixed {
        prefix := if cores[coreNum].efficiencyClass >= 1 then "P-" else "E-";
      }
      var suffix := "";
      if cores[coreNum].isSmt {
        var indexOnCore := IndexOnCore(cores[coreNum].affinities[0], k);
        suffix := " T" + NatToString(indexOnCore);
      }
      var name := prefix + "Core " + NatToString(coreNum) + suffix;
      assert name == ProcessorName(prefixed, cores, coreNum, k);
      NamesOfAppend(prefixed, cores, owners, coreNum);
      names := names + [name];
      owners := owners + [coreNum];
      k := k + 1;
    }
    r := Ok(names);
  }

  lemma NamesOfAppend(prefixed: bool, cores: seq<ProcessorRelationship>, owners: seq<nat>, c: nat)
    requires ValidOwners(cores, owners) && c < |cores| && |cores[c].affinities| > 0
    ensures ValidOwners(cores, owners + [c])
    ensures NamesOf(prefixed, cores, owners + [c]) ==
      NamesOf(prefixed, cores, owners) + [ProcessorName(prefixed, cores, c, |owners|)]
  {
  }

  /** The first core whose mask covers processor j, when there is one. */
  predicate OwnedBy(cores: seq<ProcessorRelationship>, j: nat, c: nat)
  {
    FindCore(cores, Bit(j)) == Ok(c as int)
  }

  /** The loop stops after n processors: no core covers processor n, or n is the word width. */
  predicate StopsAt(cores: seq<ProcessorRelationship>, n: nat)
  {
    n == WordBits || FindCore(cores, Bit(n)) == Ok(-1)
  }

  /** The core search only ever appends, one owner per processor it visits, and stops where StopsAt says. */
  lemma {:induction false} OwnersLoopShape(cores: seq<ProcessorRelationship>, k: nat, acc: seq<nat>)
    requires k <= WordBits && |acc| == k && ValidOwners(cores, acc)
    ensures var r := OwnersLoop(cores, k, acc);
      r.Ok? ==>
        k <= |r.value| <= WordBits && r.value[..k] == acc &&
        (forall j :: k <= j < |r.value| ==> OwnedBy(cores, j, r.value[j])) &&
        StopsAt(cores, |r.value|)
    decreases WordBits - k
  {
    if k < WordBits {
      var found := FindCore(cores, Bit(k));
      if found.Ok? && found.value >= 0 {
        var acc' := acc + [found.value];
        OwnersLoopShape(cores, k + 1, acc');
        var r := OwnersLoop(cores, k, acc);
        if r.Ok? {
          assert r.value[..k + 1] == acc';
          assert r.value[..k] == acc'[..k];
          assert r.value[k] == acc'[k];
        }
      }
    }
  }

  /** name is the name of processor k after the first core whose mask covers it. */
  predicate NameIsAt(prefixed: bool, cores: seq<ProcessorRelationship>, k: nat, name: string)
  {
    var found := FindCore(cores, Bit(k));
    found.Ok? && 0 <= found.value < |cores| && |cores[found.value].affinities| > 0 &&
    name == ProcessorName(prefixed, cores, found.value, k)
  }

  /**
   * Name k is "Core c", with its prefix and suffix, for the first core c whose
   * mask covers processor k; there is one name per index up to the first
   * uncovered processor (or up to the word width).
   */
  lemma LogicalProcessorNamesSpec(manufacturer: Manufacturer, cores: seq<ProcessorRelationship>)
    ensures var r := LogicalProcessorNames(manufacturer, cores);
      r.Ok? ==>
        |r.value| <= WordBits &&
        (forall k :: 0 <= k < |r.value| ==> NameIsAt(manufacturer == Intel && HasECores(cores), cores, k, r.value[k])) &&
        StopsAt(cores, |r.value|)
    ensures LogicalProcessorNames(manufacturer, cores).Err? <==>
      |cores| == 0 || |cores[0].affinities| != 1 || OwnersLoop(cores, 0, []).Err?
  {
    if |cores| > 0 && |cores[0].affinities| == 1 {
      OwnersLoopShape(cores, 0, []);
      var r := OwnersLoop(cores, 0, []);
      if r.Ok? {
        NamesOfAreAt(manufacturer == Intel && HasECores(cores), cores, r.value);
      }
    }
  }

  /** Naming each processor after the core that owns it gives the name NameIsAt expects. */
  lemma NamesOfAreAt(prefixed: bool, cores: seq<ProcessorRelationship>, owners: seq<nat>)
    requires ValidOwners(cores, owners)
    requires forall j :: 0 <= j < |owners| ==> OwnedBy(cores, j, owners[j])
    ensures forall k :: 0 <= k < |owners| ==> NameIsAt(prefixed, cores, k, NamesOf(prefixed, cores, owners)[k])
  {
    var names := NamesOf(prefixed, cores, owners);
    forall k | 0 <= k < |owners|
      ensures NameIsAt(prefixed, cores, k, names[k])
    {
      assert OwnedBy(cores, k, owners[k]);
      assert names[k] == ProcessorName(prefixed, cores, owners[k], k);
    }
  }

  /** The P-/E- prefix appears only on Intel systems that have a core with EfficiencyClass >= 1. */
  lemma PrefixOnlyOnIntelWithECores(manufacturer: Manufacturer, cores: seq<ProcessorRelationship>, c: nat, k: nat)
    requires c < |cores| && |cores[c].affinities| > 0
    ensures var name := ProcessorName(manufacturer == Intel && HasECores(cores), cores, c, k);
      (manufacturer == Intel && HasECores(cores) ==>
        StartsWith(name, if cores[c].efficiencyClass >= 1 then "P-Core " else "E-Core ")) &&
      (!(manufacturer == Intel && HasECores(cores)) ==> StartsWith(name, "Core "))
  {
  }

  /** A later processor of the same SMT core gets a strictly larger thread number. */
  lemma {:induction false} ThreadNumberIncreases(mask: bv64, k1: nat, k2: nat)
    requires k1 < k2 && HasBit(mask, k1)
    ensures CountBitsBelow(mask, k1) < CountBitsBelow(mask, k2)
    decreases k2
  {
    if k2 > k1 + 1 {
      ThreadNumberIncreases(mask, k1, k2 - 1);
    }
  }

  /**
   * As written, the loop is `while (true)` and `(UIntPtr)1 << 64` wraps to bit 0.
   * When every bit 0..63 is covered by some core, the exit test `coreNum == -1`
   * is therefore false for every k, so the loop never ends.
   */
  lemma NamesLoopAsWrittenNeverExits(cores: seq<ProcessorRelationship>, k: nat)
    requires forall i :: 0 <= i < WordBits ==> exists c :: 0 <= c < |cores| && Covers(cores[c], Bit(i))
    ensures FindCore(cores, Bit(k)) != Ok(-1)
  {
    var i := k % WordBits;
    BitWraps(k);
    var c :| 0 <= c < |cores| && Covers(cores[c], Bit(i));
    FindCoreFromSpec(cores, Bit(k), 0);
  }

  /** One SMT core owning all 64 processors of the single group: the as-written loop never exits on it. */
  const FullGroup: seq<ProcessorRelationship> := [ProcessorRelationship(true, 0, [0xFFFF_FFFF_FFFF_FFFF])]

  lemma FullGroupNeverExitsAsWritten(k: nat)
    ensures FindCore(FullGroup, Bit(k)) == Ok(0)
  {
    BitNonZero(k);
    assert Covers(FullGroup[0], Bit(k));
  }

  /** With the loop bounded by the word width, the same topology yields exactly 64 names. */
  lemma FullGroupHas64Names()
    ensures LogicalProcessorNames(Other, FullGroup).Ok?
    ensures |LogicalProcessorNames(Other, FullGroup).value| == WordBits
  {
    FullGroupLoop(0, []);
  }

  lemma {:induction false} FullGroupLoop(k: nat, acc: seq<nat>)
    requires k <= WordBits && |acc| == k && ValidOwners(FullGroup, acc)
    ensures OwnersLoop(FullGroup, k, acc).Ok?
    ensures |OwnersLoop(FullGroup, k, acc).value| == WordBits
    decreases WordBits - k
  {
    if k < WordBits {
      FullGroupNeverExitsAsWritten(k);
      FullGroupLoop(k + 1, acc + [0]);
    }
  }

  // ---------------------------------------------------------------------------
  // GetDefaultLogicalProcessorMasks (CpuInfoWindows.cs:102-165)
  // ---------------------------------------------------------------------------

  /** `EfficiencyClass >= 1`: the core counts towards "P-Cores". */
  predicate IsPerformance(core: ProcessorRelationship)
  {
    core.efficiencyClass >= 1
  }

  /** Every block has a first affinity mask, so `Affinities[0]` does not throw. */
  predicate AllHaveMask(rs: seq<ProcessorRelationship>)
  {
    forall i :: 0 <= i < |rs| ==> |rs[i].affinities| > 0
  }

  /** The first k blocks have a first affinity mask. */
  predicate PrefixHasMasks(rs: seq<ProcessorRelationship>, k: nat)
  {
    k <= |rs| && forall i :: 0 <= i < k ==> |rs[i].affinities| > 0
  }

  /** The OR of the first masks of the first k cores whose class is `performance`. */
  function ClassMaskUpTo(rs: seq<ProcessorRelationship>, performance: bool, k: nat): bv64
    requires PrefixHasMasks(rs, k)
  {
    if k == 0 then 0
    else if IsPerformance(rs[k - 1]) == performance then ClassMaskUpTo(rs, performance, k - 1) | rs[k - 1].affinities[0]
    else ClassMaskUpTo(rs, performance, k - 1)
  }

  /** The P-Cores mask (performance true) or the E-Cores mask (performance false). */
  function ClassMask(rs: seq<ProcessorRelationship>, performance: bool): bv64
    requires AllHaveMask(rs)
  {
    ClassMaskUpTo(rs, performance, |rs|)
  }

  /** Core `core` is of class `performance` and its first mask holds processor n. */
  predicate ClassCovers(core: ProcessorRelationship, performance: bool, n: nat)
  {
    |core.affinities| > 0 && IsPerformance(core) == performance && HasBit(core.affinities[0], n)
  }

  /** One step of the OR: core k-1 adds its processors exactly when it is of the class. */
  lemma ClassMaskUpToStep(rs: seq<ProcessorRelationship>, performance: bool, k: nat, n: nat)
    requires k > 0 && PrefixHasMasks(rs, k)
    ensures HasBit(ClassMaskUpTo(rs, performance, k), n) <==>
      HasBit(ClassMaskUpTo(rs, performance, k - 1), n) || ClassCovers(rs[k - 1], performance, n)
  {
    OrStepIf(ClassMaskUpTo(rs, performance, k), ClassMaskUpTo(rs, performance, k - 1), rs[k - 1].affinities[0], n,
      IsPerformance(rs[k - 1]) == performance);
  }

  /** A processor is in the OR over the first k cores exactly when one of them is of the class and holds it. */
  lemma {:induction false} ClassMaskUpToHasBit(rs: seq<ProcessorRelationship>, performance: bool, k: nat, n: nat)
    requires PrefixHasMasks(rs, k)
    ensures HasBit(ClassMaskUpTo(rs, performance, k), n) <==> exists i :: 0 <= i < k && ClassCovers(rs[i], performance, n)
  {
    if k == 0 {
      ZeroHasNoBit(n);
    } else {
      ClassMaskUpToHasBit(rs, performance, k - 1, n);
      ClassMaskUpToStep(rs, performance, k, n);
      if ClassCovers(rs[k - 1], performance, n) {
        assert exists i :: 0 <= i < k && ClassCovers(rs[i], performance, n);
      }
    }
  }

  /** A processor is in the P-Cores (E-Cores) mask exactly when some P-core (E-core) holds it. */
  lemma ClassMaskHasBit(rs: seq<ProcessorRelationship>, performance: bool, n: nat)
    requires AllHaveMask(rs)
    ensures HasBit(ClassMask(rs, performance), n) <==> exists i :: 0 <= i < |rs| && ClassCovers(rs[i], performance, n)
  {
    ClassMaskUpToHasBit(rs, performance, |rs|, n);
  }

  /** Together the P-Cores and E-Cores masks hold exactly the processors of all cores. */
  lemma PAndECoverEveryCore(rs: seq<ProcessorRelationship>, n: nat)
    requires AllHaveMask(rs)
    ensures HasBit(ClassMask(rs, true), n) || HasBit(ClassMask(rs, false), n) <==>
      exists i :: 0 <= i < |rs| && HasBit(rs[i].affinities[0], n)
  {
    ClassMaskHasBit(rs, true, n);
    ClassMaskHasBit(rs, false, n);
    EitherClassCovers(rs, n);
  }

  /** Every core is of one of the two classes. */
  lemma EitherClassCovers(rs: seq<ProcessorRelationship>, n: nat)
    requires AllHaveMask(rs)
    ensures ((exists i :: 0 <= i < |rs| && ClassCovers(rs[i], true, n)) ||
             (exists i :: 0 <= i < |rs| && ClassCovers(rs[i], false, n))) <==>
            exists i :: 0 <= i < |rs| && HasBit(rs[i].affinities[0], n)
  {
    if exists i :: 0 <= i < |rs| && HasBit(rs[i].affinities[0], n) {
      var i :| 0 <= i < |rs| && HasBit(rs[i].affinities[0], n);
      assert ClassCovers(rs[i], IsPerformance(rs[i]), n);
    }
  }

  /** No two cores share a processor. */
  predicate PairwiseDisjoint(rs: seq<ProcessorRelationship>)
    requires AllHaveMask(rs)
  {
    forall i, j :: 0 <= i < j < |rs| ==> !Overlaps(rs[i].affinities[0], rs[j].affinities[0])
  }

  /** With disjoint core masks no processor is both in P-Cores and in E-Cores. */
  lemma PAndEDisjoint(rs: seq<ProcessorRelationship>, n: nat)
    requires AllHaveMask(rs) && PairwiseDisjoint(rs)
    ensures !(HasBit(ClassMask(rs, true), n) && HasBit(ClassMask(rs, false), n))
  {
    ClassMaskHasBit(rs, true, n);
    ClassMaskHasBit(rs, false, n);
    if HasBit(ClassMask(rs, true), n) && HasBit(ClassMask(rs, false), n) {
      var i :| 0 <= i < |rs| && ClassCovers(rs[i], true, n);
      var j :| 0 <= j < |rs| && ClassCovers(rs[j], false, n);
      OverlapsSymmetric(rs[i].affinities[0], rs[j].affinities[0]);
      SharedBitOverlaps(rs[i].affinities[0], rs[j].affinities[0], n);
    }
  }

  /** The `foreach` loop over `_coreRelations` that ORs every first mask into pMask or eMask. */
  method PAndEMasks(cores: seq<ProcessorRelationship>) returns (r: Result<(bv64, bv64)>)
    ensures r.Err? <==> !AllHaveMask(cores)
    ensures r.Err? ==> r.failure == ArgumentOutOfRange
    ensures r.Ok? ==> r.value == (ClassMask(cores, true), ClassMask(cores, false))
  {
    var pMask: bv64 := 0;
    var eMask: bv64 := 0;
    var i := 0;
    while i < |cores|
      invariant 0 <= i <= |cores| && PrefixHasMasks(cores, i)
      invariant pMask == ClassMaskUpTo(cores, true, i) && eMask == ClassMaskUpTo(cores, false, i)
    {
      if |cores[i].affinities| == 0 {
        return Err(ArgumentOutOfRange);
      }
      assert PrefixHasMasks(cores, i + 1);
      if IsPerformance(cores[i]) {
        pMask := pMask | cores[i].affinities[0];
        assert eMask == ClassMaskUpTo(cores, false, i + 1);
      } else {
        eMask := eMask | cores[i].affinities[0];
        assert pMask == ClassMaskUpTo(cores, true, i + 1);
      }
      i := i + 1;
    }
    r := Ok((pMask, eMask));
  }

  /** `cache.Level == 3`. */
  predicate IsL3(cache: CacheRelationship)
  {
    cache.level == 3
  }

  predicate AllCachesHaveMask(cs: seq<CacheRelationship>)
  {
    forall i :: 0 <= i < |cs| ==> |cs[i].affinities| > 0
  }

  /** The Sum of the sizes of the L3 caches whose first mask equals the die's first mask. */
  function DieCacheSize(l3: seq<CacheRelationship>, dieMask: bv64): nat
    requires AllCachesHaveMask(l3)
  {
    if |l3| == 0 then 0
    else
      var last := l3[|l3| - 1];
      DieCacheSize(l3[..|l3| - 1], dieMask) + (if last.affinities[0] == dieMask then last.cacheSize else 0)
  }

  /** `cachePerDie`: the L3 size that belongs to each die, in die order. */
  function CachePerDie(l3: seq<CacheRelationship>, dies: seq<ProcessorRelationship>): (sizes: seq<nat>)
    requires AllCachesHaveMask(l3) && AllHaveMask(dies)
    ensures |sizes| == |dies|
  {
    seq(|dies|, i requires 0 <= i < |dies| => DieCacheSize(l3, dies[i].affinities[0]))
  }

  /** Enumerable.Min on a non-empty list. */
  function SeqMin(s: seq<nat>): (m: nat)
    requires |s| > 0
    ensures m in s
    ensures forall i :: 0 <= i < |s| ==> m <= s[i]
  {
    if |s| == 1 then s[0]
    else
      var rest := SeqMin(s[1..]);
      assert forall i :: 1 <= i < |s| ==> s[i] == s[1..][i - 1];
      if s[0] <= rest then s[0] else rest
  }

  /** The indexes 0..n-1; a die is identified by its position, as the C# list holds distinct objects. */
  function Indexes(n: nat): (r: seq<nat>)
    ensures |r| == n && forall i :: 0 <= i < n ==> r[i] == i
    ensures forall x :: x in r ==> x < n
  {
    seq(n, i requires 0 <= i < n => i)
  }

  /** Die i has more than twice the L3 cache of the die with the least. */
  predicate IsCacheDie(sizes: seq<nat>, i: nat)
    requires |sizes| > 0
  {
    i < |sizes| && sizes[i] > SeqMin(sizes) * 2
  }

  /** `cacheDies`, as die indexes in die order. */
  function CacheDies(sizes: seq<nat>): (r: seq<nat>)
    requires |sizes| > 0
    ensures forall k :: 0 <= k < |r| ==> r[k] < |sizes|
  {
    var r := Filter(Indexes(|sizes|), i => IsCacheDie(sizes, i));
    assert forall k :: 0 <= k < |r| ==> r[k] in r;
    r
  }

  /** `freqDies`: the dies that `cacheDies` does not contain, in die order. */
  function FreqDies(sizes: seq<nat>): (r: seq<nat>)
    requires |sizes| > 0
    ensures forall k :: 0 <= k < |r| ==> r[k] < |sizes|
  {
    var cacheDies := CacheDies(sizes);
    var r := Filter(Indexes(|sizes|), i => i !in cacheDies);
    assert forall k :: 0 <= k < |r| ==> r[k] in r;
    r
  }

  /** A die is a cache die exactly when its L3 size exceeds twice the minimum, and a freq die exactly otherwise. */
  lemma DieClassification(sizes: seq<nat>, i: nat)
    requires |sizes| > 0
    ensures i in CacheDies(sizes) <==> i < |sizes| && sizes[i] > SeqMin(sizes) * 2
    ensures i in FreqDies(sizes) <==> i < |sizes| && sizes[i] <= SeqMin(sizes) * 2
  {
    var all := Indexes(|sizes|);
    assert i < |sizes| ==> all[i] == i;
  }

  /** Cache and freq dies split the die list: every die lands in exactly one of them, once. */
  lemma DiesPartition(sizes: seq<nat>)
    requires |sizes| > 0
    ensures multiset(CacheDies(sizes)) + multiset(FreqDies(sizes)) == multiset(Indexes(|sizes|))
    ensures |CacheDies(sizes)| + |FreqDies(sizes)| == |sizes|
  {
    var all := Indexes(|sizes|);
    var cacheDies := CacheDies(sizes);
    var isCache := (i: nat) => IsCacheDie(sizes, i);
    var notCache := (i: nat) => !IsCacheDie(sizes, i);
    var notListed := (i: nat) => i !in cacheDies;
    forall x | x in all
      ensures notListed(x) == notCache(x)
    {
      DieClassification(sizes, x);
    }
    FilterSame(all, notListed, notCache);
    FilterPartition(all, isCache, notCache);
    assert |multiset(cacheDies) + multiset(FreqDies(sizes))| == |multiset(all)|;
  }

  /** Without any L3 caches, or with equal L3 sizes, no die is a cache die and every die becomes a "CCD" mask. */
  lemma NoCacheDieWhenSizesEqual(sizes: seq<nat>, i: nat)
    requires |sizes| > 0 && forall j :: 0 <= j < |sizes| ==> sizes[j] == sizes[0]
    ensures CacheDies(sizes) == []
    ensures FreqDies(sizes) == Indexes(|sizes|)
  {
    DiesPartition(sizes);
    if CacheDies(sizes) != [] {
      var d := CacheDies(sizes)[0];
      DieClassification(sizes, d);
      assert false;
    }
    var all := Indexes(|sizes|);
    FilterSame(all, (j: nat) => j !in CacheDies(sizes), (j: nat) => true);
    FilterAll(all);
  }

  /** The name of mask number i of a group: the base, with i appended only when the group has two or more dies. */
  function GroupMaskName(base: string, groupSize: nat, i: nat): string
  {
    if groupSize >= 2 then base + NatToString(i) else base
  }

  /** "Freq" when some die has extra cache, "CCD" otherwise. */
  function FreqBaseName(cacheDieCount: nat): string
  {
    if cacheDieCount >= 1 then "Freq" else "CCD"
  }

  /** The masks of one group of dies, with their names and the dies' first masks as flags. */
  function DieMasks(dies: seq<ProcessorRelationship>, group: seq<nat>, base: string, maskLength: nat): (r: seq<NamedMask>)
    requires AllHaveMask(dies) && forall k :: 0 <= k < |group| ==> group[k] < |dies|
    ensures |r| == |group|
    ensures forall k :: 0 <= k < |group| ==>
      r[k] == NamedMask(GroupMaskName(base, |group|, k), ToBools(dies[group[k]].affinities[0], maskLength))
  {
    seq(|group|, k requires 0 <= k < |group| => NamedMask(GroupMaskName(base, |group|, k), ToBools(dies[group[k]].affinities[0], maskLength)))
  }

  /** The "P-Cores" and "E-Cores" masks, present for Intel processors with E-cores. */
  function PAndECoreMasks(cores: seq<ProcessorRelationship>, maskLength: nat): seq<NamedMask>
    requires AllHaveMask(cores)
  {
    [NamedMask("P-Cores", ToBools(ClassMask(cores, true), maskLength)),
     NamedMask("E-Cores", ToBools(ClassMask(cores, false), maskLength))]
  }

  /**
   * What GetDefaultLogicalProcessorMasks returns, for `maskLength` logical
   * processors: the P/E masks, then the cache dies, then the freq dies. A
   * block without a first mask that the code reads raises ArgumentOutOfRange.
   */
  function DefaultMasks(manufacturer: Manufacturer, cores: seq<ProcessorRelationship>, dies: seq<ProcessorRelationship>,
                        caches: seq<CacheRelationship>, maskLength: nat): Result<seq<NamedMask>>
    requires maskLength <= WordBits
  {
    var withPAndE := manufacturer == Intel && HasECores(cores);
    if withPAndE && !AllHaveMask(cores) then Err(ArgumentOutOfRange)
    else
      var pe := if withPAndE then PAndECoreMasks(cores, maskLength) else [];
      var l3 := Filter(caches, IsL3);
      if |dies| < 2 then Ok(pe)
      else if !AllHaveMask(dies) || !AllCachesHaveMask(l3) then Err(ArgumentOutOfRange)
      else
        var sizes := CachePerDie(l3, dies);
        var cacheDies := CacheDies(sizes);
        var freqDies := FreqDies(sizes);
        Ok(pe + DieMasks(dies, cacheDies, "Cache", maskLength) + DieMasks(dies, freqDies, FreqBaseName(|cacheDies|), maskLength))
  }

  method GetDefaultLogicalProcessorMasks(manufacturer: Manufacturer, cores: seq<ProcessorRelationship>,
                                         dies: seq<ProcessorRelationship>, caches: seq<CacheRelationship>,
                                         maskLength: nat) returns (r: Result<seq<NamedMask>>)
    requires maskLength <= WordBits
    ensures r == DefaultMasks(manufacturer, cores, dies, caches, maskLength)
  {
    var result: seq<NamedMask> := [];
    if manufacturer == Intel && HasECores(cores) {
      var masks := PAndEMasks(cores);
      if masks.Err? {
        return Err(masks.failure);
      }
      var pMask := BitMaskToBoolMask(masks.value.0, maskLength);
      var eMask := BitMaskToBoolMask(masks.value.1, maskLength);
      result := result + [NamedMask("P-Cores", pMask.value), NamedMask("E-Cores", eMask.value)];
      assert result == PAndECoreMasks(cores, maskLength);
    }
    ghost var pe := result;
    if |dies| >= 2 {
      var l3 := Filter(caches, IsL3);
      if !AllHaveMask(dies) || !AllCachesHaveMask(l3) {
        return Err(ArgumentOutOfRange);
      }
      var sizes := CachePerDie(l3, dies);
      var cacheDies := CacheDies(sizes);
      var freqDies := FreqDies(sizes);
      var cacheMasks := GroupMasks(dies, cacheDies, "Cache", maskLength);
      var freqMasks := GroupMasks(dies, freqDies, FreqBaseName(|cacheDies|), maskLength);
      result := result + cacheMasks + freqMasks;
      assert result == pe + cacheMasks + freqMasks;
    }
    r := Ok(result);
  }

  /**
   * One of the two `for` loops that name the dies of a group and turn their
   * first masks into flags: "Cache" for the cache dies, "Freq" or "CCD" for
   * the others.
   */
  method GroupMasks(dies: seq<ProcessorRelationship>, group: seq<nat>, base: string, maskLength: nat) returns (masks: seq<NamedMask>)
    requires AllHaveMask(dies) && forall k :: 0 <= k < |group| ==> group[k] < |dies|
    requires maskLength <= WordBits
    ensures masks == DieMasks(dies, group, base, maskLength)
  {
    masks := [];
    var i := 0;
    while i < |group|
      invariant 0 <= i <= |group|
      invariant masks == DieMasks(dies, group, base, maskLength)[..i]
    {
      var maskName := base;
      if |group| >= 2 {
        maskName := maskName + NatToString(i);
      }
      var boolMask := BitMaskToBoolMask(dies[group[i]].affinities[0], maskLength);
      masks := masks + [NamedMask(maskName, boolMask.value)];
      i := i + 1;
    }
  }

  /**
   * With no failure, the list starts with "P-Cores" and "E-Cores" on Intel
   * with E-cores, and with two or more dies every die then contributes
   * exactly one mask.
   */
  lemma DefaultMasksShape(manufacturer: Manufacturer, cores: seq<ProcessorRelationship>, dies: seq<ProcessorRelationship>,
                          caches: seq<CacheRelationship>, maskLength: nat)
    requires maskLength <= WordBits
    ensures var r := DefaultMasks(manufacturer, cores, dies, caches, maskLength);
      var pe := if manufacturer == Intel && HasECores(cores) then 2 else 0;
      r.Ok? ==>
        && |r.value| == pe + (if |dies| >= 2 then |dies| else 0)
        && (pe == 2 ==> r.value[0].name == "P-Cores" && r.value[1].name == "E-Cores")
  {
    var l3 := Filter(caches, IsL3);
    if |dies| >= 2 && AllHaveMask(dies) && AllCachesHaveMask(l3) {
      DiesPartition(CachePerDie(l3, dies));
    }
  }

  /**
   * With two or more dies and no failure, the die masks follow the P/E
   * masks, the cache dies first, named "Cache"; a group of two or more dies
   * numbers its names, and each mask is the first mask of its die.
   */
  lemma DefaultMasksCacheNames(manufacturer: Manufacturer, cores: seq<ProcessorRelationship>, dies: seq<ProcessorRelationship>,
                               caches: seq<CacheRelationship>, maskLength: nat)
    requires maskLength <= WordBits
    requires |dies| >= 2 && DefaultMasks(manufacturer, cores, dies, caches, maskLength).Ok?
    ensures AllHaveMask(dies) && AllCachesHaveMask(Filter(caches, IsL3))
    ensures GroupAt(DefaultMasks(manufacturer, cores, dies, caches, maskLength).value,
                    if manufacturer == Intel && HasECores(cores) then 2 else 0,
                    dies, CacheDies(CachePerDie(Filter(caches, IsL3), dies)), "Cache", maskLength)
  {
    var peMasks := if manufacturer == Intel && HasECores(cores) then PAndECoreMasks(cores, maskLength) else [];
    var pe := if manufacturer == Intel && HasECores(cores) then 2 else 0;
    assert |peMasks| == pe;
    var sizes := CachePerDie(Filter(caches, IsL3), dies);
    var cacheDies := CacheDies(sizes);
    DefaultMasksSplit(manufacturer, cores, dies, caches, maskLength);
    FirstGroupAt(peMasks, pe, dies, cacheDies, FreqDies(sizes), "Cache", FreqBaseName(|cacheDies|), maskLength);
  }

  /**
   * With two or more dies and no failure, the other dies follow the cache
   * dies, named "Freq" when a cache die exists and "CCD" otherwise; a group
   * of two or more dies numbers its names, and each mask is the first mask
   * of its die.
   */
  lemma DefaultMasksFreqNames(manufacturer: Manufacturer, cores: seq<ProcessorRelationship>, dies: seq<ProcessorRelationship>,
                              caches: seq<CacheRelationship>, maskLength: nat)
    requires maskLength <= WordBits
    requires |dies| >= 2 && DefaultMasks(manufacturer, cores, dies, caches, maskLength).Ok?
    ensures AllHaveMask(dies) && AllCachesHaveMask(Filter(caches, IsL3))
    ensures GroupAt(DefaultMasks(manufacturer, cores, dies, caches, maskLength).value,
                    (if manufacturer == Intel && HasECores(cores) then 2 else 0) + |CacheDies(CachePerDie(Filter(caches, IsL3), dies))|,
                    dies, FreqDies(CachePerDie(Filter(caches, IsL3), dies)),
                    FreqBaseName(|CacheDies(CachePerDie(Filter(caches, IsL3), dies))|), maskLength)
  {
    var peMasks := if manufacturer == Intel && HasECores(cores) then PAndECoreMasks(cores, maskLength) else [];
    var pe := if manufacturer == Intel && HasECores(cores) then 2 else 0;
    assert |peMasks| == pe;
    var sizes := CachePerDie(Filter(caches, IsL3), dies);
    var cacheDies := CacheDies(sizes);
    DefaultMasksSplit(manufacturer, cores, dies, caches, maskLength);
    SecondGroupAt(peMasks, pe, dies, cacheDies, FreqDies(sizes), "Cache", FreqBaseName(|cacheDies|), maskLength);
  }

  /**
   * From the position on, the masks are those of the group of dies, which
   * DieMasks names from the base and flags from each die's first mask.
   */
  ghost predicate GroupAt(r: seq<NamedMask>, start: nat, dies: seq<ProcessorRelationship>, group: seq<nat>, base: string, maskLength: nat)
    requires AllHaveMask(dies) && forall k :: 0 <= k < |group| ==> group[k] < |dies|
  {
    start + |group| <= |r| && r[start..start + |group|] == DieMasks(dies, group, base, maskLength)
  }

  /** The second of two groups of dies after first masks that number `count`. */
  lemma SecondGroupAt(first: seq<NamedMask>, count: nat, dies: seq<ProcessorRelationship>, group1: seq<nat>, group2: seq<nat>,
                      base1: string, base2: string, maskLength: nat)
    requires |first| == count && AllHaveMask(dies)
    requires forall k :: 0 <= k < |group1| ==> group1[k] < |dies|
    requires forall k :: 0 <= k < |group2| ==> group2[k] < |dies|
    ensures GroupAt(first + DieMasks(dies, group1, base1, maskLength) + DieMasks(dies, group2, base2, maskLength),
                    count + |group1|, dies, group2, base2, maskLength)
  {
    var masks1, masks2 := DieMasks(dies, group1, base1, maskLength), DieMasks(dies, group2, base2, maskLength);
    assert (first + masks1 + masks2)[count + |group1|..count + |group1| + |group2|] == masks2;
  }

  /** The first of two groups of dies after first masks that number `count`. */
  lemma FirstGroupAt(first: seq<NamedMask>, count: nat, dies: seq<ProcessorRelationship>, group1: seq<nat>, group2: seq<nat>,
                     base1: string, base2: string, maskLength: nat)
    requires |first| == count && AllHaveMask(dies)
    requires forall k :: 0 <= k < |group1| ==> group1[k] < |dies|
    requires forall k :: 0 <= k < |group2| ==> group2[k] < |dies|
    ensures GroupAt(first + DieMasks(dies, group1, base1, maskLength) + DieMasks(dies, group2, base2, maskLength),
                    count, dies, group1, base1, maskLength)
  {
    var masks1, masks2 := DieMasks(dies, group1, base1, maskLength), DieMasks(dies, group2, base2, maskLength);
    assert (first + masks1 + masks2)[count..count + |group1|] == masks1;
  }

  /** With two or more dies and no failure, the masks are the P/E masks, then the cache dies' masks, then the others'. */
  lemma DefaultMasksSplit(manufacturer: Manufacturer, cores: seq<ProcessorRelationship>, dies: seq<ProcessorRelationship>,
                          caches: seq<CacheRelationship>, maskLength: nat)
    requires maskLength <= WordBits
    requires |dies| >= 2 && DefaultMasks(manufacturer, cores, dies, caches, maskLength).Ok?
    ensures AllHaveMask(dies) && AllCachesHaveMask(Filter(caches, IsL3))
    ensures manufacturer == Intel && HasECores(cores) ==> AllHaveMask(cores)
    ensures var sizes := CachePerDie(Filter(caches, IsL3), dies);
      var cacheDies := CacheDies(sizes);
      DefaultMasks(manufacturer, cores, dies, caches, maskLength).value
      == (if manufacturer == Intel && HasECores(cores) then PAndECoreMasks(cores, maskLength) else [])
         + DieMasks(dies, cacheDies, "Cache", maskLength)
         + DieMasks(dies, FreqDies(sizes), FreqBaseName(|cacheDies|), maskLength)
  {
  }

  // ---------------------------------------------------------------------------
  // ReadProcessorInfoBuffer and ReadGroupMasks (CpuInfoWindows.cs:217-296)
  // ---------------------------------------------------------------------------

  /** Marshal.SizeOf of the structures, from their sequential layouts (NativeMethods.cs:68-73, 120-155). */
  const HeaderSize: nat := 8
  const ProcessorRelationshipSize: nat := 24
  const CacheRelationshipSize: nat := 32
  const GroupAffinitySize: nat := 16

  /** Values of LOGICAL_PROCESSOR_RELATIONSHIP (NativeMethods.cs:106-117). */
  const RelationProcessorCore: int := 0
  const RelationCache: int := 2
  const RelationProcessorDie: int := 5
  const RelationAll: int := 0xffff

  /** SYSTEM_LOGICAL_PROCESSOR_INFORMATION_EX_Header. */
  datatype BlockHeader = BlockHeader(relationship: int, size: nat)

  /** The fields of PROCESSOR_RELATIONSHIP that are read. */
  datatype ProcessorStruct = ProcessorStruct(flags: nat, efficiencyClass: nat, groupCount: nat)

  /** The fields of CACHE_RELATIONSHIP that are read. */
  datatype CacheStruct = CacheStruct(level: nat, cacheSize: nat, groupCount: nat)

  /**
   * The buffer that GetLogicalProcessorInformationEx filled, as
   * Marshal.PtrToStructure sees it: what a structure read at a byte offset
   * yields, and the byte count the call reported back.
   */
  datatype InfoBuffer = InfoBuffer(
    length: nat,
    header: nat -> BlockHeader,
    processor: nat -> ProcessorStruct,
    cache: nat -> CacheStruct,
    groupMask: nat -> bv64)

  /** The GroupMask[groupCount] array at offset `at`: the Mask field of each GROUP_AFFINITY. */
  function GroupMasksAt(buf: InfoBuffer, at: nat, groupCount: nat): (r: seq<bv64>)
    ensures |r| == groupCount
  {
    seq(groupCount, i requires 0 <= i < groupCount => buf.groupMask(at + i * GroupAffinitySize))
  }

  method ReadGroupMasks(buf: InfoBuffer, groupMasksAt: nat, groupCount: nat) returns (affinityMasks: seq<bv64>)
    ensures affinityMasks == GroupMasksAt(buf, groupMasksAt, groupCount)
  {
    affinityMasks := [];
    var i := 0;
    while i < groupCount
      invariant 0 <= i <= groupCount
      invariant affinityMasks == GroupMasksAt(buf, groupMasksAt, groupCount)[..i]
    {
      var affinity := buf.groupMask(groupMasksAt + i * GroupAffinitySize);
      affinityMasks := affinityMasks + [affinity];
      i := i + 1;
    }
  }

  /**
   * Which payload check a walk applies: AsWritten is the program's, which
   * compares every payload with the size of PROCESSOR_RELATIONSHIP (24 bytes);
   * PerKind compares it with the structure the block is read as, so a cache
   * block needs the 32 bytes of CACHE_RELATIONSHIP.
   */
  datatype PayloadCheck = AsWritten | PerKind

  /** The bytes a block's payload must hold to pass the check. */
  function RequiredPayload(check: PayloadCheck, relationship: int): (n: nat)
    ensures ProcessorRelationshipSize <= n
    ensures check == AsWritten ==> n == ProcessorRelationshipSize
    ensures check == PerKind ==> n == (if relationship == RelationCache then CacheRelationshipSize else ProcessorRelationshipSize)
  {
    if check == PerKind && relationship == RelationCache then CacheRelationshipSize else ProcessorRelationshipSize
  }

  /** The header checks a block must pass, with `remaining` bytes left, for the requested relationship. */
  predicate BlockAccepted(check: PayloadCheck, h: BlockHeader, relationship: int, remaining: nat)
  {
    HeaderSize <= h.size <= remaining &&
    h.relationship == relationship && relationship != RelationAll &&
    h.size - HeaderSize >= RequiredPayload(check, relationship)
  }

  /** The block at offset `at`, once its header passed the checks: its structure and the group masks after it. */
  function ReadBlock(buf: InfoBuffer, at: nat, h: BlockHeader): Result<Relation>
  {
    var payload := at + HeaderSize;
    if h.relationship == RelationProcessorCore || h.relationship == RelationProcessorDie then
      var p := buf.processor(payload);
      Ok(ProcessorRelation(ProcessorRelationship(p.flags == 1, p.efficiencyClass,
        GroupMasksAt(buf, payload + ProcessorRelationshipSize, p.groupCount))))
    else if h.relationship == RelationCache then
      var c := buf.cache(payload);
      Ok(CacheRelation(CacheRelationship(c.level, c.cacheSize,
        GroupMasksAt(buf, payload + CacheRelationshipSize, c.groupCount))))
    else Err(NotImplemented)
  }

  /** The walk over the blocks from offset `at`, with `remaining` bytes left and the relations read so far in acc. */
  function WalkBlocks(check: PayloadCheck, buf: InfoBuffer, relationship: int, at: nat, remaining: nat,
                      acc: seq<Relation>): Result<seq<Relation>>
    decreases remaining
  {
    if remaining < HeaderSize then Ok(acc)
    else
      var h := buf.header(at);
      if h.size < HeaderSize || h.size > remaining then Err(InvalidCast)
      else if h.relationship != relationship || h.relationship == RelationAll then Err(InvalidCast)
      else if h.size - HeaderSize < RequiredPayload(check, h.relationship) then Err(InvalidCast)
      else
        match ReadBlock(buf, at, h)
        case Err(f) => Err(f)
        case Ok(relation) => WalkBlocks(check, buf, relationship, at + h.size, remaining - h.size, acc + [relation])
  }

  /** The outcome of reading the buffer with a payload check, given whether the system call succeeded. */
  function ProcessorInfo(check: PayloadCheck, relationship: int, callSucceeded: bool, buf: InfoBuffer): Result<seq<Relation>>
  {
    if !callSucceeded then Err(Win32) else WalkBlocks(check, buf, relationship, 0, buf.length, [])
  }

  /** ReadProcessorInfoBuffer, with the program's payload check. */
  method ReadProcessorInfoBuffer(relationship: int, callSucceeded: bool, buf: InfoBuffer) returns (r: Result<seq<Relation>>)
    ensures r == ProcessorInfo(AsWritten, relationship, callSucceeded, buf)
  {
    if !callSucceeded {
      return Err(Win32);
    }
    var result: seq<Relation> := [];
    var current: nat := 0;
    var remaining: nat := buf.length;
    while remaining >= HeaderSize
      invariant current + remaining == buf.length
      invariant WalkBlocks(AsWritten, buf, relationship, current, remaining, result)
             == WalkBlocks(AsWritten, buf, relationship, 0, buf.length, [])
      decreases remaining
    {
      var header := buf.header(current);
      if header.size < HeaderSize || header.size > remaining {
        return Err(InvalidCast);
      }
      if header.relationship != relationship || header.relationship == RelationAll {
        return Err(InvalidCast);
      }
      var payloadAt := current + HeaderSize;
      var payloadSize := header.size - HeaderSize;
      if payloadSize < ProcessorRelationshipSize {
        return Err(InvalidCast);
      }
      var relation: Relation;
      if header.relationship == RelationProcessorCore || header.relationship == RelationProcessorDie {
        var pRelation := buf.processor(payloadAt);
        var affinityMasks := ReadGroupMasks(buf, payloadAt + ProcessorRelationshipSize, pRelation.groupCount);
        relation := ProcessorRelation(ProcessorRelationship(pRelation.flags == 1, pRelation.efficiencyClass, affinityMasks));
      } else if header.relationship == RelationCache {
        var cRelation := buf.cache(payloadAt);
        var affinityMasks := ReadGroupMasks(buf, payloadAt + CacheRelationshipSize, cRelation.groupCount);
        relation := CacheRelation(CacheRelationship(cRelation.level, cRelation.cacheSize, affinityMasks));
      } else {
        return Err(NotImplemented);
      }
      assert ReadBlock(buf, current, header) == Ok(relation);
      result := result + [relation];
      current := current + header.size;
      remaining := remaining - header.size;
    }
    r := Ok(result);
  }

  /** A relation of the kind that was requested: processor blocks for cores and dies, cache blocks for caches. */
  predicate OfKind(relation: Relation, relationship: int)
  {
    (relationship == RelationCache ==> relation.CacheRelation?) &&
    (relationship == RelationProcessorCore || relationship == RelationProcessorDie ==> relation.ProcessorRelation?)
  }

  /**
   * With either payload check, a successful walk read only blocks that passed
   * every check, each of them at least a header and a PROCESSOR_RELATIONSHIP
   * long, so it yields at most remaining / 32 relations, all of the requested
   * kind; a block that fails a check, at any position, makes the whole walk fail.
   */
  lemma {:induction false} WalkBlocksSpec(check: PayloadCheck, buf: InfoBuffer, relationship: int, at: nat, remaining: nat,
                                          acc: seq<Relation>)
    ensures WalkBlocks(check, buf, relationship, at, remaining, acc).Ok? ==>
      var v := WalkBlocks(check, buf, relationship, at, remaining, acc).value;
      |acc| <= |v| && v[..|acc|] == acc &&
      (|v| - |acc|) * (HeaderSize + ProcessorRelationshipSize) <= remaining &&
      forall i :: |acc| <= i < |v| ==> OfKind(v[i], relationship)
    ensures remaining >= HeaderSize && !BlockAccepted(check, buf.header(at), relationship, remaining) ==>
      WalkBlocks(check, buf, relationship, at, remaining, acc) == Err(InvalidCast)
    ensures (remaining >= HeaderSize && BlockAccepted(check, buf.header(at), relationship, remaining) &&
             relationship != RelationProcessorCore && relationship != RelationProcessorDie && relationship != RelationCache) ==>
      WalkBlocks(check, buf, relationship, at, remaining, acc) == Err(NotImplemented)
    decreases remaining
  {
    if remaining >= HeaderSize {
      var h := buf.header(at);
      if BlockAccepted(check, h, relationship, remaining) {
        match ReadBlock(buf, at, h)
        case Err(f) =>
        case Ok(relation) =>
          var acc' := acc + [relation];
          WalkBlocksSpec(check, buf, relationship, at + h.size, remaining - h.size, acc');
          if WalkBlocks(check, buf, relationship, at, remaining, acc).Ok? {
            var v := WalkBlocks(check, buf, relationship, at, remaining, acc).value;
            assert v[..|acc'|] == acc';
            assert v[..|acc|] == acc'[..|acc|];
          }
      }
    }
  }

  /** RelationAll is a query value only: a buffer that holds a block is never parsed for it. */
  lemma RelationAllNeverParsed(check: PayloadCheck, buf: InfoBuffer)
    ensures ProcessorInfo(check, RelationAll, true, buf).Ok? <==> buf.length < HeaderSize
  {
    WalkBlocksSpec(check, buf, RelationAll, 0, buf.length, []);
  }

  /** A block of exactly a header and a PROCESSOR_RELATIONSHIP, labelled as a cache block. */
  const ShortCacheBlock := BlockHeader(RelationCache, HeaderSize + ProcessorRelationshipSize)

  /**
   * A 32-byte buffer holding only the short cache block, whose CACHE_RELATIONSHIP
   * (read at offset 8, so running to offset 40) names one processor group.
   */
  const ShortCacheBuffer := InfoBuffer(
    HeaderSize + ProcessorRelationshipSize,
    (at: nat) => ShortCacheBlock,
    (at: nat) => ProcessorStruct(0, 0, 0),
    (at: nat) => CacheStruct(3, 0, 1),
    (at: nat) => 0)

  /**
   * As written, the walk accepts the short cache buffer and returns one cache
   * relation whose group mask it read at offset 40, past the end of the 32-byte
   * buffer; the corrected walk refuses the same buffer with InvalidCastException.
   */
  lemma ShortCacheBufferOverReadAsWritten()
    ensures ProcessorInfo(AsWritten, RelationCache, true, ShortCacheBuffer)
         == Ok([CacheRelation(CacheRelationship(3, 0, [ShortCacheBuffer.groupMask(HeaderSize + CacheRelationshipSize)]))])
    ensures HeaderSize + CacheRelationshipSize >= ShortCacheBuffer.length
    ensures ProcessorInfo(PerKind, RelationCache, true, ShortCacheBuffer) == Err(InvalidCast)
  {
    var buf := ShortCacheBuffer;
    var relation := CacheRelation(CacheRelationship(3, 0, [buf.groupMask(HeaderSize + CacheRelationshipSize)]));
    assert buf.header(0) == ShortCacheBlock && buf.cache(HeaderSize) == CacheStruct(3, 0, 1);
    assert GroupMasksAt(buf, HeaderSize + CacheRelationshipSize, 1) == [buf.groupMask(HeaderSize + CacheRelationshipSize)];
    assert ReadBlock(buf, 0, ShortCacheBlock) == Ok(relation);
    assert buf.length == 32 && ShortCacheBlock.size == 32 && ShortCacheBlock.relationship == RelationCache;
    assert [] + [relation] == [relation];
    assert WalkBlocks(AsWritten, buf, RelationCache, 0, buf.length, [])
        == WalkBlocks(AsWritten, buf, RelationCache, buf.length, 0, [relation]);
    assert WalkBlocks(AsWritten, buf, RelationCache, buf.length, 0, [relation]) == Ok([relation]);
  }

  /**
   * With the corrected check, an accepted block holds the whole structure of
   * its kind, and the short cache block is refused; the program's check
   * accepts it wherever it fits.
   */
  lemma AcceptedBlockHoldsItsStructure(h: BlockHeader, relationship: int, remaining: nat)
    requires BlockAccepted(PerKind, h, relationship, remaining)
    ensures relationship == RelationCache ==> HeaderSize + CacheRelationshipSize <= h.size
    ensures relationship != RelationCache ==> HeaderSize + ProcessorRelationshipSize <= h.size
    ensures !BlockAccepted(PerKind, ShortCacheBlock, RelationCache, remaining)
    ensures remaining >= ShortCacheBlock.size ==> BlockAccepted(AsWritten, ShortCacheBlock, RelationCache, remaining)
  {
  }
}
