/**
 * The default CPU Sets of the older generation. Config.PopulateDefaultConfig reads the processor
 * name and manufacturer from WMI and, for a single known processor, adds a P-Cores/E-Cores pair
 * (Intel hybrid models) or a pair of half masks, one per die (AMD dual-CCD models). The
 * CPUSetSetter.UI generation adds a Cache/Freq pair for four dual-CCD X3D models.
 *
 * WMI results are parameters: the name and manufacturer of the last processor it returned and
 * the number of processors it returned. The log lines are left out.
 */
module LegacyDefaultSets {
  import opened Common

  /** string.Split(sep): the pieces between separators, empty pieces included. */
  function Split(s: string, sep: char): (r: seq<string>)
    ensures |r| >= 1
    ensures forall k :: 0 <= k < |r| ==> sep !in r[k]
    decreases |s|
  {
    if |s| == 0 then [""]
    else
      var rest := Split(s[1..], sep);
      if s[0] == sep then [""] + rest else [[s[0]] + rest[0]] + rest[1..]
  }

  /** string.Join(sep, parts). */
  function Join(parts: seq<string>, sep: char): string
  {
    if |parts| == 0 then "" else if |parts| == 1 then parts[0] else parts[0] + [sep] + Join(parts[1..], sep)
  }

  /** Splitting loses nothing: joining the pieces with the separator gives the string back. */
  lemma {:induction false} JoinSplit(s: string, sep: char)
    ensures Join(Split(s, sep), sep) == s
    decreases |s|
  {
    if |s| > 0 {
      var rest := Split(s[1..], sep);
      JoinSplit(s[1..], sep);
      if s[0] == sep {
        assert Split(s, sep) == [""] + rest;
        assert Join([""] + rest, sep) == "" + [sep] + Join(rest, sep);
      } else {
        assert Split(s, sep) == [[s[0]] + rest[0]] + rest[1..];
        if |rest| > 1 {
          assert rest == [rest[0]] + rest[1..];
          assert Join(rest, sep) == rest[0] + [sep] + Join(rest[1..], sep);
        }
      }
      assert s == [s[0]] + s[1..];
    }
  }

  /** part occurs in s at position i, comparing ordinally. */
  predicate OccursAt(s: string, part: string, i: int)
  {
    0 <= i <= |s| - |part| && s[i..i + |part|] == part
  }

  /** string.Contains(part), ordinal. */
  predicate Contains(s: string, part: string)
  {
    exists i :: 0 <= i <= |s| - |part| && OccursAt(s, part, i)
  }

  /** string.EndsWith(suffix, StringComparison.Ordinal). */
  predicate EndsWith(s: string, suffix: string)
  {
    |suffix| <= |s| && s[|s| - |suffix|..] == suffix
  }

  /** The processor is an Intel one: its name or its manufacturer contains "Intel", ignoring case. */
  predicate IsIntel(cpuName: string, manufacturer: string)
  {
    ContainsIgnoreCase(cpuName, "Intel") || ContainsIgnoreCase(manufacturer, "Intel")
  }

  /** The processor is an AMD one: its name or its manufacturer contains "AMD", ignoring case. */
  predicate IsAmd(cpuName: string, manufacturer: string)
  {
    ContainsIgnoreCase(cpuName, "AMD") || ContainsIgnoreCase(manufacturer, "AMD")
  }

  /**
   * The Intel hybrid models, in the order of their dictionary: model, P-core threads (P-cores
   * run two threads each) and E-core threads.
   */
  const IntelPECoreLayouts: seq<(string, nat, nat)> :=
    [
      ("12900KS", 16, 8), ("12900K", 16, 8), ("12900KF", 16, 8), ("12900", 16, 8), ("12900F", 16, 8),
      ("12900T", 16, 8), ("12700K", 16, 4), ("12700KF", 16, 4), ("12700", 16, 4), ("12700F", 16, 4),
      ("12700T", 16, 4), ("12600K", 12, 4), ("12600KF", 12, 4), ("12600", 12, 0), ("12600T", 12, 0),
      ("12490F", 12, 0), ("12400", 12, 0), ("12400F", 12, 0), ("12400T", 12, 0), ("12100", 8, 0),
      ("12100F", 8, 0), ("12100T", 8, 0), ("12900HK", 14, 6), ("12900H", 14, 6), ("12800H", 14, 6),
      ("12700H", 14, 6), ("12650H", 10, 4), ("12600H", 12, 4), ("12950HX", 16, 8), ("12900HX", 16,
      8), ("12850HX", 16, 8), ("12800HX", 16, 8), ("12650HX", 14, 6), ("1280P", 12, 8), ("1270P", 12,
      8), ("1260P", 12, 8), ("1250P", 12, 8), ("1240P", 12, 8), ("1265U", 10, 8), ("1255U", 10, 8),
      ("1245U", 10, 8), ("1240U", 10, 8), ("1235U", 10, 8), ("1230U", 10, 8), ("13900KS", 16, 16),
      ("13900K", 16, 16), ("13900KF", 16, 16), ("13900", 16, 16), ("13900F", 16, 16), ("13900T", 16,
      16), ("13790F", 16, 16), ("13700K", 16, 8), ("13700KF", 16, 8), ("13700", 16, 8), ("13700F",
      16, 8), ("13700T", 16, 8), ("13600K", 12, 8), ("13600KF", 12, 8), ("13600", 12, 8), ("13600T",
      12, 8), ("13500", 12, 8), ("13500T", 12, 8), ("13490F", 10, 6), ("13400", 10, 6), ("13400F",
      10, 6), ("13400T", 10, 6), ("13100", 8, 0), ("13100F", 8, 0), ("13100T", 8, 0), ("13980HX", 16,
      16), ("13950HX", 16, 16), ("13900HX", 16, 16), ("13850HX", 12, 8), ("13700HX", 16, 8),
      ("13650HX", 14, 6), ("13600HX", 12, 8), ("13500HX", 12, 8), ("13450HX", 10, 6), ("13900HK", 14,
      6), ("13900H", 14, 6), ("13800H", 14, 6), ("13700H", 14, 6), ("13620H", 10, 6), ("13600H", 12,
      8), ("13500H", 8, 8), ("13420H", 8, 4), ("1370P", 12, 8), ("1360P", 8, 8), ("1350P", 12, 8),
      ("1340P", 12, 8), ("14900KS", 16, 16), ("14900K", 16, 16), ("14900KF", 16, 16), ("14900", 16,
      16), ("14900F", 16, 16), ("14900T", 16, 16), ("14790F", 16, 16), ("14700K", 16, 12),
      ("14700KF", 16, 12), ("14700", 16, 12), ("14700F", 16, 12), ("14700T", 16, 12), ("14600K", 12,
      8), ("14600KF", 12, 8), ("14600", 12, 8), ("14600T", 12, 8), ("14500", 14, 6), ("14500T", 14,
      6), ("14490F", 10, 6), ("14400", 10, 6), ("14400F", 10, 6), ("14400T", 10, 6), ("14900HX", 16,
      16), ("14700HX", 16, 12), ("14650HX", 16, 8), ("14500HX", 14, 8), ("14450HX", 10, 6), ("285K",
      8, 16), ("285KF", 8, 16), ("285", 8, 16), ("265K", 8, 12), ("265KF", 8, 12), ("265", 8, 12),
      ("245K", 6, 8), ("245KF", 6, 8), ("245", 6, 8)
    ]

  /** The AMD models with two core dies (CCDs), in list order. */
  const KnownDuoCcdCpus: seq<string> :=
    [
      "3950X", "3900XT", "3900X", "3900",
      "5950X", "5900XT", "5900X", "5900",
      "7950X3D", "7950X", "7900X3D", "7900X", "7900",
      "9950X3D", "9950X", "9900X3D", "9900X"
    ]

  /** The dictionary entry whose model is one of the name's space-separated parts. */
  function LayoutIn(parts: seq<string>): ((string, nat, nat)) -> bool
  {
    (layout: (string, nat, nat)) => layout.0 in parts
  }

  /** The model that is one of the name's space-separated parts. */
  function ModelIn(parts: seq<string>): string -> bool
  {
    model => model in parts
  }

  /** The layout the Intel branch uses: the first dictionary entry naming a part of the processor name. */
  function IntelLayout(cpuName: string): (r: Option<(string, nat, nat)>)
    ensures r.Some? ==> r.value in IntelPECoreLayouts && r.value.0 in Split(cpuName, ' ')
    ensures r.None? ==> forall l :: l in IntelPECoreLayouts ==> l.0 !in Split(cpuName, ' ')
  {
    var k := FirstIndex(IntelPECoreLayouts, LayoutIn(Split(cpuName, ' ')));
    if k.Some? then Some(IntelPECoreLayouts[k.value]) else None
  }

  /** The model the AMD branch uses: the first known dual-CCD model naming a part of the processor name. */
  function DuoCcdModel(cpuName: string): (r: Option<string>)
    ensures r.Some? ==> r.value in KnownDuoCcdCpus && r.value in Split(cpuName, ' ')
    ensures r.None? ==> forall m :: m in KnownDuoCcdCpus ==> m !in Split(cpuName, ' ')
  {
    var k := FirstIndex(KnownDuoCcdCpus, ModelIn(Split(cpuName, ' ')));
    if k.Some? then Some(KnownDuoCcdCpus[k.value]) else None
  }

  /** The logical processor name of the Intel sets: "CPU {i}P" for a P-core thread, "CPU {i}E" otherwise. */
  function PECoreName(i: nat, pThreads: nat): string
  {
    "CPU " + NatToString(i) + (if i < pThreads then "P" else "E")
  }

  /**
   * The loop that fills pOnlyMask, eOnlyMask and cpuNames: the first pThreads logical processors
   * are the P-core threads, the others the E-core threads.
   */
  method PECoreMasks(logicalProcessorCount: nat, pThreads: nat) returns (pOnly: seq<bool>, eOnly: seq<bool>, cpuNames: seq<string>)
    ensures |pOnly| == logicalProcessorCount && |eOnly| == logicalProcessorCount && |cpuNames| == logicalProcessorCount
    ensures forall i :: 0 <= i < logicalProcessorCount ==> (pOnly[i] <==> i < pThreads)
    ensures forall i :: 0 <= i < logicalProcessorCount ==> eOnly[i] == !pOnly[i]
    ensures forall i :: 0 <= i < logicalProcessorCount ==> cpuNames[i] == PECoreName(i, pThreads)
  {
    var pOnlyMask := new bool[logicalProcessorCount];
    var eOnlyMask := new bool[logicalProcessorCount];
    var names := new string[logicalProcessorCount];
    for i := 0 to logicalProcessorCount
      invariant forall j :: 0 <= j < i ==> pOnlyMask[j] == (j < pThreads) && eOnlyMask[j] == (j >= pThreads)
      invariant forall j :: 0 <= j < i ==> names[j] == PECoreName(j, pThreads)
    {
      var suffix := if i < pThreads then "P" else "E";
      pOnlyMask[i] := i < pThreads;
      eOnlyMask[i] := i >= pThreads;
      names[i] := "CPU " + NatToString(i) + suffix;
    }
    return pOnlyMask[..], eOnlyMask[..], names[..];
  }

  /** Enumerable.Repeat(value, count). */
  function Repeat(value: bool, count: nat): (r: seq<bool>)
    ensures |r| == count && forall i :: 0 <= i < count ==> r[i] == value
  {
    seq(count, _ => value)
  }

  /**
   * Repeat(first, n / 2) followed by Repeat(!first, n / 2): the CCD0 (Cache) mask for first ==
   * true, the CCD1 (Freq) mask for first == false. An odd processor count loses its last
   * processor.
   */
  function HalfMask(logicalProcessorCount: nat, first: bool): (r: seq<bool>)
    ensures |r| == 2 * (logicalProcessorCount / 2)
    ensures forall i :: 0 <= i < |r| ==> r[i] == (first == (i < logicalProcessorCount / 2))
  {
    Repeat(first, logicalProcessorCount / 2) + Repeat(!first, logicalProcessorCount / 2)
  }

  /** The names of the AMD pair: Cache and Freq for a model ending in X3D, CCD0 and CCD1 otherwise. */
  function DuoCcdSetNames(model: string): (names: (string, string))
    ensures EndsWith(model, "X3D") <==> names == ("Cache", "Freq")
    ensures !EndsWith(model, "X3D") <==> names == ("CCD0", "CCD1")
  {
    if EndsWith(model, "X3D") then ("Cache", "Freq") else ("CCD0", "CCD1")
  }

  /** The dual-CCD models with the extra cache on CCD0 that the CPUSetSetter.UI generation knows. */
  const KnownDuoHybridCpus: seq<string> := ["7950X3D", "7900X3D", "9950X3D", "9900X3D"]

  /** knownDuoHybridCpus.Any(knownCpu => cpuName.Contains(knownCpu)): a substring match, not a part match. */
  predicate IsDuoHybridCpu(cpuName: string)
  {
    exists k :: 0 <= k < |KnownDuoHybridCpus| && Contains(cpuName, KnownDuoHybridCpus[k])
  }
}
