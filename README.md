# CPUSetSetter core in Dafny

CPUSetSetter is a Windows tray and window application that pins programs to a subset of the
logical processors. The user defines named *masks* (one flag per logical processor, plus a
hotkey). A mask reaches a process in one of two ways: as a Windows CPU Set or as a classic
affinity mask. *Program rules* bind an executable path to a mask. *Rule templates* are globs,
tried in order, that create a program rule the first time a matching program is seen. Rules
and masks are saved to a JSON configuration file. Older versions are still part of the tree.
In them a *CPU Set* holds a list of processors, and a *ProcessCPUSet* rule binds a program's
name (and its path, when MatchWholePath is set) to a CPU Set by name.

This project models the logic that decides which mask each program gets, and the bookkeeping
around it. Each core source file has its own Dafny module, named after its C# class. Objects whose
fields the program updates in place are classes with `modifies` and `reads` frames. Loops are
methods with invariants. Pure lookups, decoders and LINQ pipelines are functions. Windows,
WMI, the file system, HTTP and the glob matcher appear as parameters: oracle functions, the
boolean result of a call, or a recorded list of calls.

- `Common`, `Bits`: Option/Result with the exception kinds the program throws, ASCII case
  folding for OrdinalIgnoreCase, LINQ `Where`/`First` and `List.Remove` on sequences, the
  reverse `RemoveAt` loop; 64-bit words with C#'s shift-count masking.
- `NativeMethods`, `CpuInfoWindows`: FILETIME to ticks; processor naming from core masks,
  the default P/E and Cache/Freq/CCD masks, the walk over the processor-information buffer.
- `RuleHelpers`, `ConfigModels`, `MaskRuleManager`: path equality and glob gating, rule lookup
  with template fallback, update-or-add, removal, reapplying templates, and the
  subscriptions between rules, templates and the configuration.
- `ProcessHandlerWindows`, `ProcessListEntryViewModel`: the per-process apply state machine
  (previous mask type, handles opened once, bitmask and CPU Set id list, the CPU-time window)
  and the idempotent `SetMask` with its sticky `FailedToOpen`.
- `AppConfigFile`: the JSON shape to configuration transform in both directions, and a
  save-then-load round trip.
- `HotkeyListenerWindows`, `WindowLogger`, `PausableObservableCollection`,
  `ProcessesTabViewModel`, `MasksTabViewModel`, `CreateMaskWindowViewModel`,
  `CreateProgramRuleWindowViewModel`, `RulesTabViewModel`, `VersionChecker`,
  `ThemeModeJsonConverter`, `EnumToBoolConverter`: hotkey chords, the 50-line log, notification
  suppression, the process list with unique PIDs, the masks grid, the create dialogs, the rules
  tab, the version-check decision table and the two converters.
- `Legacy`, `LegacyDefaultSets`, `LegacyNative` (the `CPUSetSetter/CPUSet.cs`, `Config.cs`,
  `ProcessCPUSet.cs`, `ProcessListEntry.cs` and `MainWindowViewModel.cs` generation) and
  `LegacyUi` (the `CPUSetSetter.UI` copies): CPU Sets and their processes, name and path rules,
  validation by processor count, and the Intel P/E and AMD CCD default sets.

## Model

| member | source | states |
|---|---|---|
| Bits.BitWraps | CPUSetSetter/Platforms/Windows/CpuInfoWindows.cs:67 | `(UIntPtr)1 << n` takes the shift count modulo 64, so a count of 64 or more selects bit n % 64 |
| Bits.BitsDisjoint | CPUSetSetter/Platforms/Windows/CpuInfoWindows.cs:67-68 | the single-bit words of two shift counts below 64 overlap exactly when the counts are equal |
| Bits.BitNonZero | CPUSetSetter/Platforms/Windows/CpuInfoWindows.cs:67 | every single-bit word is non-zero, whatever the shift count |
| Bits.ToBoolsFromBools | CPUSetSetter/Platforms/Windows/CpuInfoWindows.cs:167-173 | a flag list of at most 64 entries turned into a word and read back is the same list |
| Bits.FromBoolsToBools | CPUSetSetter/Platforms/Windows/CpuInfoWindows.cs:167-173 | a word read as n <= 64 flags and ORed back into a word keeps exactly its low n bits |
| Bits.FromBoolsHasBit | CPUSetSetter/Platforms/Windows/ProcessHandlerWindows.cs:225-230 | bit i of the OR-accumulated affinity word is set exactly when flag i is set, for masks of at most 64 entries |
| Bits.OrHasBit | CPUSetSetter/Platforms/Windows/CpuInfoWindows.cs:113-116 | a bit is set in the OR of a and b exactly when it is set in a or in b |
| NativeMethods.ULong | CPUSetSetter/Platforms/Windows/NativeMethods.cs:103 | the joined value fits in 64 bits |
| NativeMethods.ULongIsExact | CPUSetSetter/Platforms/Windows/NativeMethods.cs:98-104 | neither the 32-bit shift nor the unchecked addition wraps: ULong is exactly high * 2^32 + low |
| NativeMethods.ULongRoundTrip | CPUSetSetter/Platforms/Windows/NativeMethods.cs:98-104 | the low and high halves come back as ULong mod 2^32 and ULong div 2^32 |
| NativeMethods.ULongInjective | CPUSetSetter/Platforms/Windows/NativeMethods.cs:98-104 | distinct FILETIME values give distinct ULong values |
| CpuInfoWindows.BitMaskToBoolMask | CPUSetSetter/Platforms/Windows/CpuInfoWindows.cs:167-173 | fails with ArgumentException exactly when maskLength exceeds 64; otherwise maskLength flags, flag i set exactly when bit i of the word is |
| CpuInfoWindows.BitMaskToBoolMaskInverse | CPUSetSetter/Platforms/Windows/CpuInfoWindows.cs:167-173 | reading the flags back into a word keeps exactly the low maskLength bits of the mask |
| CpuInfoWindows.FindCoreFrom | CPUSetSetter/Platforms/Windows/CpuInfoWindows.cs:68 | a found index is a core that has an affinity mask; -1 for none |
| CpuInfoWindows.FindCoreFromSpec | CPUSetSetter/Platforms/Windows/CpuInfoWindows.cs:68 | FindIndex gives the first core whose first mask covers the bit, -1 when none does, and ArgumentOutOfRange when the scan meets a core without masks |
| CpuInfoWindows.OwnersLoop | CPUSetSetter/Platforms/Windows/CpuInfoWindows.cs:65-97 | every owner it records is a valid core index with a mask |
| CpuInfoWindows.OwnersLoopShape | CPUSetSetter/Platforms/Windows/CpuInfoWindows.cs:65-97 | the core search appends exactly one owner per processor visited and stops at the first uncovered processor or after processor 63 |
| CpuInfoWindows.NamesOf | CPUSetSetter/Platforms/Windows/CpuInfoWindows.cs:74-95 | one name per owner |
| CpuInfoWindows.NamesOfAppend | CPUSetSetter/Platforms/Windows/CpuInfoWindows.cs:95-96 | naming one more processor appends its name after the earlier ones |
| CpuInfoWindows.IndexOnCore | CPUSetSetter/Platforms/Windows/CpuInfoWindows.cs:86-91 | the inner loop counts the processors below k that the core mask holds |
| CpuInfoWindows.ThreadNumberIncreases | CPUSetSetter/Platforms/Windows/CpuInfoWindows.cs:86-92 | a later processor of the same SMT core gets a strictly larger T number |
| CpuInfoWindows.GetLogicalProcessorNames | CPUSetSetter/Platforms/Windows/CpuInfoWindows.cs:50-100 | the loop computes LogicalProcessorNames: the Affinities.Count != 1 check, the core search, prefix and suffix |
| CpuInfoWindows.LogicalProcessorNamesSpec | CPUSetSetter/Platforms/Windows/CpuInfoWindows.cs:54-97 | fails exactly when the first core has not one mask or the search meets a core without masks; otherwise name k is "Core c" with its prefix and T suffix, for the first core c covering processor k, up to the first uncovered processor |
| CpuInfoWindows.LogicalProcessorNames | CPUSetSetter/Platforms/Windows/CpuInfoWindows.cs:50-100 | what GetLogicalProcessorNames returns; GetLogicalProcessorNames is proved to compute it and LogicalProcessorNamesSpec states its failures and names |
| CpuInfoWindows.NamesOfAreAt | CPUSetSetter/Platforms/Windows/CpuInfoWindows.cs:74-97 | with one owning core per processor, the k-th name is the name of processor k on its owner |
| CpuInfoWindows.PrefixOnlyOnIntelWithECores | CPUSetSetter/Platforms/Windows/CpuInfoWindows.cs:60-79 | the P-/E- prefix appears only on Intel with a core of EfficiencyClass >= 1, and "P-" exactly for such a core |
| CpuInfoWindows.NamesLoopAsWrittenNeverExits | CPUSetSetter/Platforms/Windows/CpuInfoWindows.cs:65-72 | when cores cover all 64 bits, the as-written exit test `coreNum == -1` is false for every shift count, so `while (true)` never ends |
| CpuInfoWindows.FullGroupNeverExitsAsWritten | CPUSetSetter/Platforms/Windows/CpuInfoWindows.cs:65-72 | for one core holding all 64 processors, FindIndex finds core 0 for every shift count |
| CpuInfoWindows.FullGroupHas64Names | CPUSetSetter/Platforms/Windows/CpuInfoWindows.cs:65-97 | with the loop bounded by the word width, that topology yields exactly 64 names |
| CpuInfoWindows.ClassMaskHasBit | CPUSetSetter/Platforms/Windows/CpuInfoWindows.cs:109-117 | a processor is in pMask (eMask) exactly when a core of EfficiencyClass >= 1 (< 1) holds it |
| CpuInfoWindows.ClassMaskUpToHasBit | CPUSetSetter/Platforms/Windows/CpuInfoWindows.cs:111-117 | after k cores, a processor is in the mask exactly when one of those cores is of the class and holds it |
| CpuInfoWindows.PAndECoverEveryCore | CPUSetSetter/Platforms/Windows/CpuInfoWindows.cs:109-119 | P-Cores and E-Cores together hold exactly the processors of all cores |
| CpuInfoWindows.PAndEDisjoint | CPUSetSetter/Platforms/Windows/CpuInfoWindows.cs:109-119 | with disjoint core masks no processor is in both P-Cores and E-Cores |
| CpuInfoWindows.PAndEMasks | CPUSetSetter/Platforms/Windows/CpuInfoWindows.cs:109-117 | the loop fails with ArgumentOutOfRange exactly when a core has no mask, and otherwise gives the two class masks |
| CpuInfoWindows.CachePerDie | CPUSetSetter/Platforms/Windows/CpuInfoWindows.cs:130-133 | one L3 size per die |
| CpuInfoWindows.SeqMin | CPUSetSetter/Platforms/Windows/CpuInfoWindows.cs:135 | the minimum is an element and no element is smaller |
| CpuInfoWindows.DieClassification | CPUSetSetter/Platforms/Windows/CpuInfoWindows.cs:138-143 | a die is a cache die exactly when its L3 size exceeds twice the minimum, and a freq die exactly otherwise |
| CpuInfoWindows.DiesPartition | CPUSetSetter/Platforms/Windows/CpuInfoWindows.cs:138-143 | cache and freq dies together hold every die exactly once |
| CpuInfoWindows.NoCacheDieWhenSizesEqual | CPUSetSetter/Platforms/Windows/CpuInfoWindows.cs:142-161 | with equal L3 sizes (or none), no die is a cache die and every die is a freq die |
| CpuInfoWindows.DieMasks | CPUSetSetter/Platforms/Windows/CpuInfoWindows.cs:146-161 | one mask per die of the group |
| CpuInfoWindows.GroupMasks | CPUSetSetter/Platforms/Windows/CpuInfoWindows.cs:146-161 | each naming loop produces DieMasks for its group |
| CpuInfoWindows.GetDefaultLogicalProcessorMasks | CPUSetSetter/Platforms/Windows/CpuInfoWindows.cs:102-165 | the method computes DefaultMasks: the P/E pair on Intel with E-cores, then the die masks for two or more dies |
| CpuInfoWindows.DefaultMasksShape | CPUSetSetter/Platforms/Windows/CpuInfoWindows.cs:104-164 | the list holds "P-Cores" then "E-Cores" on Intel with E-cores, then one mask per die when there are two or more dies, and nothing else |
| CpuInfoWindows.DefaultMasksCacheNames | CPUSetSetter/Platforms/Windows/CpuInfoWindows.cs:138-152 | right after the P/E pair come the cache dies' masks in order, named "Cache" with an index when there are two or more, each holding its die's first affinity mask |
| CpuInfoWindows.DefaultMasksFreqNames | CPUSetSetter/Platforms/Windows/CpuInfoWindows.cs:142-161 | after the cache dies come the other dies' masks in order, named "Freq" when a cache die exists and "CCD" otherwise, with an index when there are two or more |
| CpuInfoWindows.DefaultMasks | CPUSetSetter/Platforms/Windows/CpuInfoWindows.cs:102-165 | what GetDefaultLogicalProcessorMasks returns; GetDefaultLogicalProcessorMasks is proved to compute it, DefaultMasksShape states how many masks it holds, and DefaultMasksCacheNames and DefaultMasksFreqNames how the die masks are named and what they hold |
| CpuInfoWindows.PAndECoreMasks | CPUSetSetter/Platforms/Windows/CpuInfoWindows.cs:109-119 | the P-Cores and E-Cores masks from the two class masks; PAndEMasks computes those masks, PAndECoverEveryCore and PAndEDisjoint state that they split the cores' processors |
| CpuInfoWindows.GroupMasksAt | CPUSetSetter/Platforms/Windows/CpuInfoWindows.cs:286-296 | groupCount masks |
| CpuInfoWindows.ReadGroupMasks | CPUSetSetter/Platforms/Windows/CpuInfoWindows.cs:286-296 | the loop reads the Mask field of each GROUP_AFFINITY |
| CpuInfoWindows.ReadProcessorInfoBuffer | CPUSetSetter/Platforms/Windows/CpuInfoWindows.cs:217-281 | the loop computes ProcessorInfo with the program's payload check, which asks every block for the 24 bytes of PROCESSOR_RELATIONSHIP: Win32Exception when the call fails, then the checked walk over the blocks |
| CpuInfoWindows.WalkBlocksSpec | CPUSetSetter/Platforms/Windows/CpuInfoWindows.cs:231-278 | for the program's payload check and for the check by the block's own structure alike: a successful walk reads only blocks that pass every check, yielding at most remaining / 32 relations, all of the requested kind; a block that fails a check anywhere makes the whole walk fail |
| CpuInfoWindows.RelationAllNeverParsed | CPUSetSetter/Platforms/Windows/CpuInfoWindows.cs:239-242 | RelationAll succeeds only on a buffer too short to hold a block |
| CpuInfoWindows.RequiredPayload | CPUSetSetter/Platforms/Windows/CpuInfoWindows.cs:245-249 | the program's check asks every payload for the 24 bytes of PROCESSOR_RELATIONSHIP; the check by structure asks a cache block for the 32 bytes of CACHE_RELATIONSHIP |
| CpuInfoWindows.WalkBlocks | CPUSetSetter/Platforms/Windows/CpuInfoWindows.cs:231-278 | the walk over the blocks for a payload check; WalkBlocksSpec states what a walk reads and when it fails, and ReadProcessorInfoBuffer is its loop |
| CpuInfoWindows.ShortCacheBufferOverReadAsWritten | CPUSetSetter/Platforms/Windows/CpuInfoWindows.cs:229-268 | as written, a 32-byte buffer holding one cache block with a 24-byte payload is accepted, and its group mask is read at offset 40, past the end of the buffer; the check by structure refuses the same buffer with InvalidCastException |
| CpuInfoWindows.AcceptedBlockHoldsItsStructure | CPUSetSetter/Platforms/Windows/CpuInfoWindows.cs:245-249 | with the check by the structure of the block's kind, an accepted block holds that whole structure, and the short cache block is refused |
| ProcessHandlerWindows.CpuSetIds | CPUSetSetter/Platforms/Windows/ProcessHandlerWindows.cs:154-166 | no more ids than mask entries |
| ProcessHandlerWindows.CpuSetIdsMembers | CPUSetSetter/Platforms/Windows/ProcessHandlerWindows.cs:154-166 | an id is in the list exactly when it is the id of an enabled processor of the mask that has one |
| ProcessHandlerWindows.CpuSetIdsOnePerProcessor | CPUSetSetter/Platforms/Windows/ProcessHandlerWindows.cs:154-166 | when every enabled processor has an id, the list holds one id per enabled processor |
| ProcessHandlerWindows.CollectCpuSetIds | CPUSetSetter/Platforms/Windows/ProcessHandlerWindows.cs:154-166 | the loop, with its KeyNotFoundException branch that skips a processor without an id, computes CpuSetIds |
| ProcessHandlerWindows.AccumulateAffinity | CPUSetSetter/Platforms/Windows/ProcessHandlerWindows.cs:225-230 | the loop ORs `1 << i` for every enabled entry, giving FromBools of the mask |
| ProcessHandlerWindows.AccumulateAllProcessors | CPUSetSetter/Platforms/Windows/ProcessHandlerWindows.cs:205-209 | the clearing loop ORs one bit per logical processor of the system |
| ProcessHandlerWindows.AllProcessorsBits | CPUSetSetter/Platforms/Windows/ProcessHandlerWindows.cs:205-209 | for up to 64 processors the clearing word has exactly bits 0..count-1 set |
| ProcessHandlerWindows.AffinityBits | CPUSetSetter/Platforms/Windows/ProcessHandlerWindows.cs:225-230 | for up to 64 entries, bit i of the affinity word is set exactly when entry i is enabled |
| ProcessHandlerWindows.Opened | CPUSetSetter/Platforms/Windows/ProcessHandlerWindows.cs:120-135 | after an apply the handle exists, and a handle that existed is kept |
| ProcessHandlerWindows.CallsThroughSpec | CPUSetSetter/Platforms/Windows/ProcessHandlerWindows.cs:120-200 | OpenProcess is called exactly when no handle was opened before; the Set call is made exactly when the handle is valid; after an invalid handle nothing is called and it stays invalid |
| ProcessHandlerWindows.CpuSetIdMapSpec | CPUSetSetter/Platforms/Windows/ProcessHandlerWindows.cs:273-289 | the map is built exactly for records that are all CpuSetInformation with distinct processor indexes, and then maps each record's processor to its id and has no other keys |
| ProcessHandlerWindows.GetCpuSetIdPerLogicalProcessor | CPUSetSetter/Platforms/Windows/ProcessHandlerWindows.cs:276-289 | the record loop computes CpuSetIdMap |
| ProcessHandlerWindows.CpuSetIdMapFails | CPUSetSetter/Platforms/Windows/ProcessHandlerWindows.cs:280-285 | the first bad record (wrong type, or Dictionary.Add of a duplicate key) fails the whole map |
| ProcessHandlerWindows.Evicted | CPUSetSetter/Platforms/Windows/ProcessHandlerWindows.cs:44-55 | eviction never grows the window |
| ProcessHandlerWindows.EvictedSpec | CPUSetSetter/Platforms/Windows/ProcessHandlerWindows.cs:44-55 | eviction drops a prefix of stale datapoints and stops at the first datapoint that is not older than 30 seconds |
| ProcessHandlerWindows.EvictedInTimeOrder | CPUSetSetter/Platforms/Windows/ProcessHandlerWindows.cs:44-64 | on a window in timestamp order eviction leaves no stale datapoint, and enqueueing a sample taken at `now` keeps the order |
| ProcessHandlerWindows.TotalCpuTicks | CPUSetSetter/Platforms/Windows/ProcessHandlerWindows.cs:63 | the unchecked sum of the two FILETIME values, cast to long, lies in the signed 64-bit range |
| ProcessHandlerWindows.TotalCpuTicksExact | CPUSetSetter/Platforms/Windows/ProcessHandlerWindows.cs:63 | below 2^63 ticks in total the tick count is the exact sum |
| ProcessHandlerWindows.ProcessHandler.constructor | CPUSetSetter/Platforms/Windows/ProcessHandlerWindows.cs:14-33 | no handle opened, previous mask type NoMask, empty window, no calls made |
| ProcessHandlerWindows.ProcessHandler.ApplyCpuSet | CPUSetSetter/Platforms/Windows/ProcessHandlerWindows.cs:116-181 | opens the handle only the first time, gives up without a call on an invalid handle, clears with an empty id list for NoMask and otherwise passes CpuSetIds; true exactly when the handle is valid and the call succeeds |
| ProcessHandlerWindows.ProcessHandler.ApplyAffinity | CPUSetSetter/Platforms/Windows/ProcessHandlerWindows.cs:183-248 | the same lazy handle, with the all-processors word for NoMask and FromBools of the mask otherwise; true exactly when the handle is valid and the call succeeds |
| ProcessHandlerWindows.ProcessHandler.CpuSetCallFor | CPUSetSetter/Platforms/Windows/ProcessHandlerWindows.cs:138-168 | ClearCpuSets for NoMask, otherwise SetCpuSets with the ids the loop collects for the enabled processors |
| ProcessHandlerWindows.ProcessHandler.AffinityCallFor | CPUSetSetter/Platforms/Windows/ProcessHandlerWindows.cs:203-232 | the affinity word of every processor for NoMask, otherwise the word the loop builds from the bool mask |
| ProcessHandlerWindows.ProcessHandler.ApplyMask | CPUSetSetter/Platforms/Windows/ProcessHandlerWindows.cs:77-111 | NotImplemented exactly for NoMask after NoMask, with nothing changed; otherwise a kind switch first clears the kind applied before, the result is the last apply's, and the previous mask type becomes the mask's |
| ProcessHandlerWindows.ProcessHandler.ClearPrevious | CPUSetSetter/Platforms/Windows/ProcessHandlerWindows.cs:83-91 | NoMask clears through the kind applied last |
| ProcessHandlerWindows.ProcessHandler.SwitchToCpuSet | CPUSetSetter/Platforms/Windows/ProcessHandlerWindows.cs:93-97 | an affinity applied before is cleared first, then the CPU Set is applied |
| ProcessHandlerWindows.ProcessHandler.SwitchToAffinity | CPUSetSetter/Platforms/Windows/ProcessHandlerWindows.cs:99-103 | a CPU Set applied before is cleared first, then the affinity is applied |
| ProcessHandlerWindows.ProcessHandler.GetAverageCpuUsage | CPUSetSetter/Platforms/Windows/ProcessHandlerWindows.cs:35-75 | -1 with the window untouched for an invalid query handle; otherwise stale datapoints are evicted, a failed query gives -1, a successful one enqueues the sample and gives 0 for no CPU time or the CPU-time and elapsed-time deltas against the oldest datapoint; the window stays in time order |
| ProcessHandlerWindows.ProcessHandler.Dispose | CPUSetSetter/Platforms/Windows/ProcessHandlerWindows.cs:297-303 | the handles are disposed and the window is emptied |
| RuleHelpers.PathRoot | CPUSetSetter/Core/RuleHelpers.cs:80-81 | Path.GetPathRoot: a root no longer than its argument, which is the argument's prefix of that length with every '/' made '\' on Windows, so "C:/Games" and "C:\Games" have the same root |
| RuleHelpers.RootSeparators | CPUSetSetter/Core/RuleHelpers.cs:80-81 | the root keeps its length; on Windows every '/' becomes '\' and every other character is kept |
| RuleHelpers.ReplaceBackslashes | CPUSetSetter/Core/RuleHelpers.cs:68 | the same length, every backslash turned into a slash, every other character kept |
| RuleHelpers.NormalizePath | CPUSetSetter/Core/RuleHelpers.cs:65-70 | on Windows no backslash is left and every other character is kept; elsewhere the path is unchanged |
| RuleHelpers.PathsEqualIsEquivalence | CPUSetSetter/Core/RuleHelpers.cs:56-63 | PathsEqual is reflexive, symmetric and transitive |
| RuleHelpers.SeparatorsAreInterchangeable | CPUSetSetter/Core/RuleHelpers.cs:56-70 | on Windows a backslash and a slash at the same place do not make two paths differ |
| RuleHelpers.PathsEqual | CPUSetSetter/Core/RuleHelpers.cs:56-63 | the normalised paths compared ignoring case on Windows and ordinally elsewhere; PathsEqualIsEquivalence and SeparatorsAreInterchangeable are its properties |
| RuleHelpers.IsWhiteSpace | CPUSetSetter/Core/RuleHelpers.cs:77 | char.IsWhiteSpace: the control characters U+0009 to U+000D, U+0085, and the Unicode space, line and paragraph separators |
| RuleHelpers.UnicodeSpacesAreBlank | CPUSetSetter/Core/RuleHelpers.cs:77 | a path of a no-break space and an ideographic space is blank to string.IsNullOrWhiteSpace, so no pattern matches it |
| RuleHelpers.PathMatchesGlobCases | CPUSetSetter/Core/RuleHelpers.cs:75-119 | blank inputs and rootless paths never match; a leading `*/` is stripped; a `**` pattern goes to the matcher as it is; any other pattern matches only with a non-empty root equal to the path's after separator normalisation, which is stripped before matching |
| RuleHelpers.PathMatchesGlob | CPUSetSetter/Core/RuleHelpers.cs:75-119 | the glob gate itself; PathMatchesGlobCases states its cases and MixedSeparatorRootMatches its separator-normalised roots |
| RuleHelpers.MixedSeparatorRootMatches | CPUSetSetter/Core/RuleHelpers.cs:75-110 | on Windows the pattern "C:/Games/**" and the path "C:\Games\x.exe" have the same root "C:\", so the pattern's root is stripped and the matcher decides "Games/**" under "C:\" |
| RuleHelpers.FindProgramRuleOrNull | CPUSetSetter/Core/RuleHelpers.cs:46-49 | the first rule whose path equals the image path, or none when no rule's does |
| RuleHelpers.FindRuleTemplateFrom | CPUSetSetter/Core/RuleHelpers.cs:51-54 | the first template from position k on whose glob matches the path, or none |
| RuleHelpers.FindRuleTemplateOrNull | CPUSetSetter/Core/RuleHelpers.cs:51-54 | the first template whose glob matches the path, or none when none does |
| RuleHelpers.TemplateFor | CPUSetSetter/Core/RuleHelpers.cs:51-54 | a template returned is in the list and matches the path |
| RuleHelpers.EarlierTemplateWins | CPUSetSetter/Core/RuleHelpers.cs:51-54 | of two matching templates, the one found is at or before the earlier |
| RuleHelpers.MaskIsUsedByRules | CPUSetSetter/Core/RuleHelpers.cs:40-44 | true exactly when some program rule or some template has the mask |
| RuleHelpers.AnyRuleUses | CPUSetSetter/Core/RuleHelpers.cs:42 | Any over the first k program rules is true exactly when one of them has the mask |
| RuleHelpers.AnyTemplateUses | CPUSetSetter/Core/RuleHelpers.cs:43 | Any over the first k templates is true exactly when one of them has the mask |
| RuleHelpers.GetProgramRuleOrNull | CPUSetSetter/Core/RuleHelpers.cs:19-38 | an existing rule for the path is returned with nothing changed; otherwise a matching template adds exactly one new rule with its mask and MatchingRuleTemplate; otherwise null with nothing changed |
| ConfigModels.RuleTemplate.constructor | CPUSetSetter/Config/Models/RuleTemplate.cs:20-24 | a new template holds the given glob and mask |
| ConfigModels.ProgramRule.constructor | CPUSetSetter/Config/Models/ProgramRule.cs:24-28 | a new rule holds the given path and mask, has no template and no handler subscribed anywhere |
| ConfigModels.ProgramRule.SetMatchingRuleTemplate | CPUSetSetter/Config/Models/ProgramRule.cs:18-46 | assigning a different template unsubscribes the rule's handler from the old template's MaskChanged and subscribes it to the new one; assigning the same one changes nothing; the rule keeps listening to exactly its current template |
| ConfigModels.ProgramRule.Dispose | CPUSetSetter/Config/Models/ProgramRule.cs:53-59 | disposing removes the handler from the current template's event, so a rule that listened only to its template is subscribed nowhere afterwards |
| ConfigModels.DeviationNeedsTemplate | CPUSetSetter/Config/Models/ProgramRule.cs:22 | a rule without a template never deviates; with one it deviates exactly when its mask differs from the template's |
| ConfigModels.TemplateMaskEndsDeviation | CPUSetSetter/Config/Models/ProgramRule.cs:22 | a rule whose mask is its template's mask does not deviate |
| ConfigModels.ProgramRule.IsDeviatingFromRuleTemplate | CPUSetSetter/Config/Models/ProgramRule.cs:22 | a template is set and its mask differs from the rule's; DeviationNeedsTemplate and TemplateMaskEndsDeviation state both directions |
| ConfigModels.ListensIsSingle | CPUSetSetter/Config/Models/ProgramRule.cs:39-46 | the rule's handler is subscribed to its template exactly when its subscriptions are that template once and nothing else |
| ConfigModels.CollectionEvents.constructor | CPUSetSetter/Config/Models/ObservableConfigObject.cs:27 | a new collection has no save handler subscribed |
| ConfigModels.ObservableConfigObject.constructor | CPUSetSetter/Config/Models/ObservableConfigObject.cs:14 | a new config object has no unsubscribe actions |
| ConfigModels.ObservableConfigObject.SaveOnCollectionChanged | CPUSetSetter/Config/Models/ObservableConfigObject.cs:25-29 | the collection gains one save handler and the object remembers one action that undoes it |
| ConfigModels.ObservableConfigObject.Dispose | CPUSetSetter/Config/Models/ObservableConfigObject.cs:48-67 | every remembered unsubscribe action runs once, each collection losing one handler per action naming it (never below none), and the list is emptied |
| ConfigModels.ConfigLifetime.constructor | CPUSetSetter/Config/Models/AppConfig.cs:12 | at start no AppConfig has been constructed |
| ConfigModels.FromDefaults | CPUSetSetter/Config/Models/AppConfig.cs:102-106 | one CPU-set mask per default mask, in the defaults' order |
| ConfigModels.AppConfig.Init | CPUSetSetter/Config/Models/AppConfig.cs:71-81 | the collections and settings hold the given values, nothing is pending or written, and the three collections are distinct fresh objects without handlers |
| ConfigModels.AppConfig.Save | CPUSetSetter/Config/Models/AppConfig.cs:134-144 | a save is pending afterwards; a new delayed write is scheduled only when none was pending; no data changes |
| ConfigModels.AppConfig.DelayedSave | CPUSetSetter/Config/Models/AppConfig.cs:146-155 | the config is written once and the pending flag is cleared; no data changes |
| ConfigModels.AppConfig.MigrateConfig | CPUSetSetter/Config/Models/AppConfig.cs:167-191 | reports a migration exactly when the loaded version is below the current one; a version below 2 appends the defaults whose names are missing, in order; nothing else changes |
| ConfigModels.AppConfig.HasNameLoop | CPUSetSetter/Config/Models/AppConfig.cs:178 | finds a mask exactly when one of the masks has the given name |
| ConfigModels.AppConfig.Create | CPUSetSetter/Config/Models/AppConfig.cs:51-129 | a second construction fails with InvalidOperationException; otherwise the masks are the given ones, plus the defaults when asked for, then migrated; a save is scheduled exactly when defaults were added or a migration ran; each collection has one save handler |
| ConfigModels.FromDefaultsSnoc | CPUSetSetter/Config/Models/AppConfig.cs:102-106 | converting one more default appends exactly that default's mask |
| ConfigModels.MigrationKeepsMasks | CPUSetSetter/Config/Models/AppConfig.cs:171-183 | migration only appends: the existing masks stay in place and in order |
| ConfigModels.MigrationAddsEveryName | CPUSetSetter/Config/Models/AppConfig.cs:176-182 | after migration every default's name is present |
| ConfigModels.MigrationKeepsNamesDistinct | CPUSetSetter/Config/Models/AppConfig.cs:176-182 | masks with distinct names keep distinct names after migration |
| ConfigModels.MigrationAppendsOnlyMissingDefaults | CPUSetSetter/Config/Models/AppConfig.cs:176-182 | every appended mask is made from a default whose name was missing |
| ConfigModels.OnObservableConfigCollectionChanged | CPUSetSetter/Config/Models/ObservableConfigObject.cs:31-46 | every collection change saves the config; a removal disposes a removed config object; an action other than Add or Remove fails with NotImplementedException after saving; the collections are unchanged |
| ConfigModels.OnPropertyChanged | CPUSetSetter/Config/Models/ObservableConfigObject.cs:16-20 | a changed property schedules a save unless one is pending |
| MaskRuleManager.OrdinalPathsEqual | CPUSetSetter/Core/MaskRuleManager.cs:253-263 | this file's path comparison (backslashes made slashes on Windows, then ordinal equality) is an equivalence, implies the case-insensitive comparison of RuleHelpers, and agrees with it off Windows |
| MaskRuleManager.CaseSeparatesPathsHere | CPUSetSetter/Core/MaskRuleManager.cs:253-263 | on Windows "C:/a" and "c:/A" are the same path for RuleHelpers but not for this file |
| MaskRuleManager.PathsEqual | CPUSetSetter/Core/MaskRuleManager.cs:253-256 | this file's ordinal comparison of normalised paths; OrdinalPathsEqual and CaseSeparatesPathsHere state how it differs from the one in RuleHelpers |
| MaskRuleManager.FindRuleTemplate | CPUSetSetter/Core/MaskRuleManager.cs:208-211 | the first template whose glob matches the path; it is RuleHelpers.TemplateFor, whose contract states what it finds |
| MaskRuleManager.FindProgramRule | CPUSetSetter/Core/MaskRuleManager.cs:203-206 | the position of the first rule whose path equals the given one, or none when no rule has it |
| MaskRuleManager.FindAfterAppend | CPUSetSetter/Core/MaskRuleManager.cs:203-206 | appending a rule keeps an earlier first match; into a list without one, an appended rule for the path is found at the end |
| MaskRuleManager.FindInLonger | CPUSetSetter/Core/MaskRuleManager.cs:203-206 | a list that begins with another keeps that list's first match |
| MaskRuleManager.FirstRuleFindsItself | CPUSetSetter/Core/MaskRuleManager.cs:203-206 | the rule a lookup finds is found again by a lookup of its own path, and every rule of the list is found by its own path |
| MaskRuleManager.RulesAreFound | CPUSetSetter/Core/MaskRuleManager.cs:203-206 | a lookup of the path of any rule of the list finds a rule |
| MaskRuleManager.OneRulePerPathDistinct | CPUSetSetter/Core/MaskRuleManager.cs:203-206 | when every rule is found by its own path, each rule is the only one at its position with its identity |
| MaskRuleManager.RemovingTheOnlyRule | CPUSetSetter/Core/MaskRuleManager.cs:50-56 | removing the only rule for a path leaves no rule for it |
| MaskRuleManager.CountOnePosition | CPUSetSetter/Core/MaskRuleManager.cs:54 | an element found at one position only occurs once, so Remove takes out that one |
| MaskRuleManager.ProcessList.constructor | CPUSetSetter/Core/MaskRuleManager.cs:217-231 | a process list with the given image paths and SetMask outcomes, with no SetMask call yet |
| MaskRuleManager.ProcessList.SetMask | CPUSetSetter/Core/MaskRuleManager.cs:227-243 | a SetMask call on an entry is recorded and reports that entry's outcome |
| MaskRuleManager.ProcessesOnSpec | CPUSetSetter/Core/MaskRuleManager.cs:223-229 | the processes of a path are exactly the positions whose image path equals it, in increasing order |
| MaskRuleManager.CallsWith | CPUSetSetter/Core/MaskRuleManager.cs:223-229 | one SetMask call with the mask per process of the path, in order |
| MaskRuleManager.AllSucceedMeans | CPUSetSetter/Core/MaskRuleManager.cs:222-230 | the combined result is true exactly when every process of the path reported success |
| MaskRuleManager.GetProgramRule | CPUSetSetter/Core/MaskRuleManager.cs:182-201 | the first rule for the path, unchanged; else a new rule with the first matching template's mask and that template, appended; else null and nothing changes; templates and masks are untouched |
| MaskRuleManager.CallsWithSnoc | CPUSetSetter/Core/MaskRuleManager.cs:223-229 | the calls for one more process extend the earlier calls by that one |
| MaskRuleManager.GetMaskFromPath | CPUSetSetter/Core/MaskRuleManager.cs:21-27 | the mask of the rule GetProgramRule gives for the path, or NoMask; looking the path up again yields the same mask |
| MaskRuleManager.ApplyRulesToPath | CPUSetSetter/Core/MaskRuleManager.cs:217-231 | the looked-up mask goes to every running process of the path, in list order, each one called whatever the earlier ones reported; the result is true exactly when all succeeded |
| MaskRuleManager.SetMaskOnProcessesOf | CPUSetSetter/Core/MaskRuleManager.cs:222-230 | the loop calls SetMask once per process of the path with the mask and reports whether all succeeded |
| MaskRuleManager.SetMaskStep | CPUSetSetter/Core/MaskRuleManager.cs:225-228 | one pass adds the call and the outcome of the process at the index exactly when it runs the path |
| MaskRuleManager.OneMoreStep | CPUSetSetter/Core/MaskRuleManager.cs:225-228 | the loop's calls and result after one more pass are those for one more process |
| MaskRuleManager.OneMoreProcess | CPUSetSetter/Core/MaskRuleManager.cs:225-228 | one more process joins the processes of the path exactly when its image path equals the path |
| MaskRuleManager.AfterNoMaskRemoval | CPUSetSetter/Core/MaskRuleManager.cs:52-55 | the rules left after the NoMask removal are among the earlier rules |
| MaskRuleManager.UpdateOrAddProgramRule | CPUSetSetter/Core/MaskRuleManager.cs:34-74 | an empty path changes nothing and reports false; a NoMask without a template that has a real mask is not stored (the rule is removed when asked) and the path is re-applied; any other mask is stored in the existing rule or a new one and goes to every process of the path; when the existing rule had another mask its Mask setter re-enters the method first, so the processes get the mask twice and the rule ends with the template matching its own path, otherwise the one matching the given path; the result is the last apply result; no other rule changes |
| MaskRuleManager.AttachTemplate | CPUSetSetter/Core/MaskRuleManager.cs:41-44 | the existing rule for the path gets the first matching template as MatchingRuleTemplate |
| MaskRuleManager.NewRuleFrom | CPUSetSetter/Core/MaskRuleManager.cs:192-198 | a fresh rule for the path with the template's mask and that template as MatchingRuleTemplate |
| MaskRuleManager.DropNoMaskRule | CPUSetSetter/Core/MaskRuleManager.cs:46-57 | the existing rule is removed only when asked to, then the path is applied again |
| MaskRuleManager.ReplaceAndApply | CPUSetSetter/Core/MaskRuleManager.cs:50-55 | the rule list becomes the kept rules, the templates and masks stay, and the path is applied again with the mask then looked up for it |
| MaskRuleManager.StoreAndApply | CPUSetSetter/Core/MaskRuleManager.cs:61-73 | the mask is stored for the path and goes to every process of the path; a changed mask of an existing rule first re-enters UpdateOrAddProgramRule, whose calls come before the final pass; the rule ends with the template matching its own path after re-entry, the given path otherwise |
| MaskRuleManager.StoreMask | CPUSetSetter/Core/MaskRuleManager.cs:61-71 | the existing rule gets the mask through its Mask setter (the list stays, and a changed mask gives the path's processes the mask once and the rule the template of its own path), or a new rule with the path, mask and no template is appended; a lookup of the path then finds the mask |
| MaskRuleManager.AssignMask | CPUSetSetter/Config/Models/ProgramRule.cs:14-16 | the generated Mask setter: the same mask changes nothing; otherwise the rule ends with the mask, the list stays when the rule is in it, other rules keep their mask or get the same one; for the first rule of its path no other rule changes, and with a path the rule gets the template matching its path and every process of the path gets the mask |
| MaskRuleManager.OnMaskChanged | CPUSetSetter/Config/Models/ProgramRule.cs:34-37 | the path and the new mask go to UpdateOrAddProgramRule without removal: only the path's first rule can change, to the mask, and the list stays; when that rule already has the mask, it gets the template matching the path and every process of the path gets the mask once |
| MaskRuleManager.RemoveProgramRule | CPUSetSetter/Core/MaskRuleManager.cs:81-101 | a rule without a template gets NoMask and leaves the list; a rule with a template stays, and takes the template's mask exactly when a process of its path runs, otherwise nothing changes; for the first rule of its path no other rule changes, and a changed mask (with a path) gives the rule the template matching its path and goes to every process of the path |
| MaskRuleManager.ClearAndRemove | CPUSetSetter/Core/MaskRuleManager.cs:83-88 | the untemplated case: the rule gets NoMask through its setter and the first occurrence leaves the list; for the first rule of its path, a changed mask re-enters UpdateOrAddProgramRule as RemoveProgramRule states |
| MaskRuleManager.ApplyTemplateIfRunning | CPUSetSetter/Core/MaskRuleManager.cs:90-100 | the templated case: with a running process of the path the rule gets the template's mask through its setter, without one nothing changes; the list stays |
| MaskRuleManager.KeepRulesSpec | CPUSetSetter/Core/MaskRuleManager.cs:138-145 | the rules kept are, in order, exactly those whose mask is not the removed one |
| MaskRuleManager.KeepTemplatesSpec | CPUSetSetter/Core/MaskRuleManager.cs:148-152 | the templates kept are, in order, exactly those whose mask is not the removed one |
| MaskRuleManager.RemovedPathsSpec | CPUSetSetter/Core/MaskRuleManager.cs:138-145 | the removed paths are exactly the paths of the rules that used the mask |
| MaskRuleManager.RemoveProgramRulesUsing | CPUSetSetter/Core/MaskRuleManager.cs:136-145 | the backward loop leaves the kept rules and collects the removed rules' paths from last to first |
| MaskRuleManager.RemoveTemplatesUsing | CPUSetSetter/Core/MaskRuleManager.cs:147-152 | the backward loop leaves the kept templates |
| MaskRuleManager.RemoveRulesUsingMask | CPUSetSetter/Core/MaskRuleManager.cs:132-159 | the rules and templates of the mask are removed, the others kept in order, and every removed path is applied again; afterwards no rule or template uses the mask |
| MaskRuleManager.RemoveAllUsing | CPUSetSetter/Core/MaskRuleManager.cs:136-152 | after the two removal loops no rule and no template has the mask |
| MaskRuleManager.ReapplyPaths | CPUSetSetter/Core/MaskRuleManager.cs:155-158 | re-applying the removed paths only appends rules, and none of them has the removed mask |
| MaskRuleManager.LookedUpKeepsMaskOut | CPUSetSetter/Core/MaskRuleManager.cs:182-201 | a lookup only appends rules made from templates, so a mask no rule or template uses stays unused |
| MaskRuleManager.ReapplyRuleTemplate | CPUSetSetter/Core/MaskRuleManager.cs:164-176 | the list stays; every rule the template is the first match for gets its mask and every other rule's mask is its own or the template's; a rule then referencing the template does not deviate; when no two rules share a path, exactly the matched rules change, those whose mask changed (with a path) get the template as MatchingRuleTemplate, and the SetMask calls are ReappliedCalls, rule by rule |
| MaskRuleManager.ReapplyEach | CPUSetSetter/Core/MaskRuleManager.cs:168-175 | the loop over the rules: after it every rule is as ReappliedUpTo says for all rules, and with one rule per path the calls are ReappliedCalls |
| MaskRuleManager.ReapplyTo | CPUSetSetter/Core/MaskRuleManager.cs:171-174 | one pass: a rule the template is the first match for gets its mask, any other stays; when it is the only rule at its position for its path, no other rule changes and the calls are those of one re-entry |
| MaskRuleManager.ReappliedCallsStep | CPUSetSetter/Core/MaskRuleManager.cs:168-175 | the calls for one more rule extend the earlier calls by that rule's re-entry |
| MaskRuleManager.HandledInOrderSnoc | CPUSetSetter/Core/MaskRuleManager.cs:239-244 | handling one more process extends the record of the processes handled so far |
| MaskRuleManager.HandledGrows | CPUSetSetter/Core/MaskRuleManager.cs:239-244 | in that record every rule list begins with each earlier one |
| MaskRuleManager.HandledStep | CPUSetSetter/Core/MaskRuleManager.cs:239-244 | each step of the record is a lookup of that process's path and one SetMask with the mask found |
| MaskRuleManager.HandledProcessGot | CPUSetSetter/Core/MaskRuleManager.cs:239-244 | a process whose path had a rule or matched a template got the mask of the final rule for its path; one whose path has no final rule got NoMask |
| MaskRuleManager.HandledAllGot | CPUSetSetter/Core/MaskRuleManager.cs:239-244 | after the loop the first rules are still first, and every process got what HandledProcessGot says |
| MaskRuleManager.LookUpProcess | CPUSetSetter/Core/MaskRuleManager.cs:241-242 | the lookup for process i extends the record with the mask to give it |
| MaskRuleManager.HandleProcess | CPUSetSetter/Core/MaskRuleManager.cs:239-244 | one step calls GetProgramRule and then one SetMask for process i, and the record grows by that process |
| MaskRuleManager.SetMaskRecorded | CPUSetSetter/Core/MaskRuleManager.cs:243 | the SetMask call for process i is recorded with its looked-up mask |
| MaskRuleManager.ApplyAllRules | CPUSetSetter/Core/MaskRuleManager.cs:239-244 | every running process, in list order, gets one SetMask with the mask that GetProgramRule gives for its path at that moment, or NoMask |
| MaskRuleManager.MatchAllRules | CPUSetSetter/Core/MaskRuleManager.cs:247-250 | every rule gets the first template matching its path (or null) as MatchingRuleTemplate; masks are unchanged; a rule that listened to its template listens to its new one |
| MaskRuleManager.SetMatchingTemplates | CPUSetSetter/Core/MaskRuleManager.cs:247-250 | the loop gives every rule its worked-out template and keeps masks and event subscriptions consistent |
| MaskRuleManager.RefreshAllRules | CPUSetSetter/Core/MaskRuleManager.cs:233-251 | every running process gets its rule's mask or NoMask, in order; the earlier rules stay first with their masks; then every rule references its matching template |
| MaskRuleManager.ApplyAndRecord | CPUSetSetter/Core/MaskRuleManager.cs:239-244 | the first loop of RefreshAllRules, with what each process got |
| MaskRuleManager.OnConfigLoaded | CPUSetSetter/Core/MaskRuleManager.cs:11-15 | after loading every rule references the template that matches it and every running process got its rule's mask |
| MaskRuleManager.OnRuleTemplateChanged | CPUSetSetter/Core/MaskRuleManager.cs:119-122 | a changed template leads to a full refresh |
| MaskRuleManager.AddRuleTemplate | CPUSetSetter/Core/MaskRuleManager.cs:103-109 | the new template is appended with the glob and mask, then the rules are refreshed |
| MaskRuleManager.RemoveRuleTemplate | CPUSetSetter/Core/MaskRuleManager.cs:111-117 | the first occurrence of the template leaves the list (nothing when it is absent), then the rules are refreshed, so no rule keeps a template that is gone |
| AppConfigFile.ParseTheme | CPUSetSetter/Config/AppConfigFile.cs:155 | Enum.Parse<Theme> through the library's parse, a parameter: the theme it gives, or ArgumentException exactly when it gives none |
| AppConfigFile.ThemeNameRoundTrip | CPUSetSetter/Config/AppConfigFile.cs:155-218 | a theme written by its name (Theme.ToString) is read back as the same theme whenever the parse undoes the naming |
| AppConfigFile.ParseKeys | CPUSetSetter/Config/AppConfigFile.cs:110-130 | the key names parse to one key each, in order, exactly when every name is known; otherwise ArgumentException |
| AppConfigFile.KeyNamesRoundTrip | CPUSetSetter/Config/AppConfigFile.cs:110-192 | key names written by ToString parse back to the same keys |
| AppConfigFile.FilterExactlyOne | CPUSetSetter/Config/AppConfigFile.cs:137-191 | a filter keeps one element exactly when exactly one element satisfies the predicate, and none exactly when none does |
| AppConfigFile.ExactlyOneWithHead | CPUSetSetter/Config/AppConfigFile.cs:137-191 | with a satisfying first element, it is the only one exactly when no later element satisfies the predicate |
| AppConfigFile.ExactlyOneWithoutHead | CPUSetSetter/Config/AppConfigFile.cs:137-191 | with a failing first element, exactly one element satisfies the predicate exactly when one later element does |
| AppConfigFile.SingleNamed | CPUSetSetter/Config/AppConfigFile.cs:137-144 | Single gives a mask of the list with the name, or InvalidOperationException |
| AppConfigFile.SingleNamedSpec | CPUSetSetter/Config/AppConfigFile.cs:137-144 | Single succeeds exactly when exactly one mask has the name |
| AppConfigFile.SingleNamedFinds | CPUSetSetter/Config/AppConfigFile.cs:137-144 | in a list of distinct names every mask is found by its name |
| AppConfigFile.ResolveRules | CPUSetSetter/Config/AppConfigFile.cs:135-146 | every rule gets the one mask its stored name designates, in order; a missing or repeated name throws InvalidOperationException |
| AppConfigFile.LoadMasksShape | CPUSetSetter/Config/AppConfigFile.cs:115-132 | the loop keeps the masks it started with, only appends masks of the processor count, and reports a soft error exactly when one was already reported or an entry was dropped |
| AppConfigFile.LoadMasksDistinct | CPUSetSetter/Config/AppConfigFile.cs:117-122 | the loop never appends a second mask of a name |
| AppConfigFile.LoadMasksInFileOrder | CPUSetSetter/Config/AppConfigFile.cs:115-132 | the appended masks are file entries in file order, with their names, bits and parsed hotkeys |
| AppConfigFile.LoadMasks | CPUSetSetter/Config/AppConfigFile.cs:115-132 | the mask loop; LoadMasksShape, LoadMasksDistinct, LoadMasksInFileOrder and LoadSavedMasks state its result |
| AppConfigFile.LoadSavedMasks | CPUSetSetter/Config/AppConfigFile.cs:115-202 | written user masks with new, distinct names and the processor count are all loaded back in order without a soft error |
| AppConfigFile.JsonToConfig | CPUSetSetter/Config/AppConfigFile.cs:106-157 | NoMask with the stored hotkeys comes first, then the loaded masks; the rules are resolved by mask name; the remaining fields are copied and the theme parsed |
| AppConfigFile.FromJsonSpec | CPUSetSetter/Config/AppConfigFile.cs:106-157 | a loaded configuration starts with NoMask, has distinct names, holds user masks of the processor count in file order, reports a soft error exactly when an entry was dropped, and gives every rule a mask of the list with the stored name |
| AppConfigFile.FromJsonNeedsSingleMask | CPUSetSetter/Config/AppConfigFile.cs:135-146 | a rule whose mask name is missing or taken twice makes loading throw InvalidOperationException |
| AppConfigFile.FromJson | CPUSetSetter/Config/AppConfigFile.cs:106-157 | loading; FromJsonSpec, JsonToConfig, SaveThenLoad and FromJsonNeedsSingleMask state its result and failures |
| AppConfigFile.ToJson | CPUSetSetter/Config/AppConfigFile.cs:188-220 | writing succeeds exactly when there is exactly one NoMask, and fails with InvalidOperationException otherwise; it stores version 1, the theme name, that mask's hotkeys, and as many other masks as there are, each one of the configuration's user masks |
| AppConfigFile.ToJsonContents | CPUSetSetter/Config/AppConfigFile.cs:188-220 | a written tree holds every other mask in order as its name, hotkeys and bits, every rule in order as its path and its mask's name, and the three settings as they were |
| AppConfigFile.ResolveSavedRules | CPUSetSetter/Config/AppConfigFile.cs:135-212 | rules written by mask name over distinct names load back as the same rules |
| AppConfigFile.SavedJson | CPUSetSetter/Config/AppConfigFile.cs:188-220 | with NoMask first and only user masks after it, the tree holds NoMask's hotkeys and the other masks in order |
| AppConfigFile.SaveThenLoad | CPUSetSetter/Config/AppConfigFile.cs:106-220 | a configuration with NoMask first, distinct names, user masks of the processor count and rules over its own masks is written and loaded back unchanged, without a soft error |
| AppConfigFile.LoadSavedJson | CPUSetSetter/Config/AppConfigFile.cs:106-157 | loading the tree SavedJson describes gives back the configuration |
| AppConfigFile.FromJsonOfParts | CPUSetSetter/Config/AppConfigFile.cs:106-157 | JsonToConfig is assembled from the outcomes of its steps |
| AppConfigFile.UsersLoadable | CPUSetSetter/Config/AppConfigFile.cs:117-128 | the user masks after NoMask have names unlike NoMask's and each other's |
| HotkeyListenerWindows.Pruned | CPUSetSetter/Platforms/Windows/HotkeyListenerWindows.cs:111-119 | the held keys that survive pruning are a subset of the held keys, keep the key just pressed, and keep every key still reported down |
| HotkeyListenerWindows.PrunedIdempotent | CPUSetSetter/Platforms/Windows/HotkeyListenerWindows.cs:111-119 | pruning a second time with the same key states removes nothing more |
| HotkeyListenerWindows.DispatchSpec | CPUSetSetter/Platforms/Windows/HotkeyListenerWindows.cs:101-125 | the callbacks that fire are, in list order, exactly those that allow this kind of press and whose keys equal the pruned held keys; the held keys end pruned once some callback's keys were all held, and unchanged otherwise |
| HotkeyListenerWindows.DispatchKeepsJustPressed | CPUSetSetter/Platforms/Windows/HotkeyListenerWindows.cs:111-119 | the key just pressed is never pruned and pruning never adds a key |
| HotkeyListenerWindows.HotkeyListener.constructor | CPUSetSetter/Platforms/Windows/HotkeyListenerWindows.cs:18-25 | a new listener holds no keys and no callbacks, has callbacks enabled, and has raised and invoked nothing |
| HotkeyListenerWindows.HotkeyListener.AddCallback | CPUSetSetter/Platforms/Windows/HotkeyListenerWindows.cs:38-44 | the callback is appended; nothing else changes |
| HotkeyListenerWindows.HotkeyListener.RemoveCallback | CPUSetSetter/Platforms/Windows/HotkeyListenerWindows.cs:46-52 | the first occurrence of the callback is removed; nothing else changes |
| HotkeyListenerWindows.HotkeyListener.SetCallbacksEnabled | CPUSetSetter/Platforms/Windows/HotkeyListenerWindows.cs:25 | the setter stores the value; nothing else changes |
| HotkeyListenerWindows.HotkeyListener.KeyEvent | CPUSetSetter/Platforms/Windows/HotkeyListenerWindows.cs:69-86 | a key-down adds the key, counts as a repeat exactly when the key was already held, raises KeyPressed and, with callbacks enabled, runs the matching pass; a key-up removes the key and raises nothing |
| HotkeyListenerWindows.HotkeyListener.InvokeKeyEvents | CPUSetSetter/Platforms/Windows/HotkeyListenerWindows.cs:88-133 | KeyPressed is always raised; with callbacks enabled the held keys and fired callbacks are those of the matching pass; with them disabled nothing else happens |
| HotkeyListenerWindows.HotkeyListener.PruneKeys | CPUSetSetter/Platforms/Windows/HotkeyListenerWindows.cs:111-119 | every held key other than the one just pressed that is no longer down is removed |
| HotkeyListenerWindows.HotkeyListener.VisitCallback | CPUSetSetter/Platforms/Windows/HotkeyListenerWindows.cs:103-123 | one turn of the foreach: the held keys and the invoked callbacks after the turn and the rest of the loop are those of the whole remaining loop |
| HotkeyListenerWindows.Dispatch | CPUSetSetter/Platforms/Windows/HotkeyListenerWindows.cs:101-125 | the callbacks the foreach fires and the keys it leaves; DispatchSpec and DispatchKeepsJustPressed state them and InvokeKeyEvents is proved to compute them |
| WindowLogger.JoinedAppend | CPUSetSetter/UI/Tabs/Processes/WindowLogger.cs:48 | joining two runs of lines gives the two joined texts one after the other |
| WindowLogger.Joined | CPUSetSetter/UI/Tabs/Processes/WindowLogger.cs:48 | string.Join of the lines; JoinedAppend, UpdateText and WriteThenUpdateAppends state how the text grows |
| WindowLogger.Newest | CPUSetSetter/UI/Tabs/Processes/WindowLogger.cs:44-47 | dropping from the front down to 50 leaves the newest lines, at most 50, in arrival order |
| WindowLogger.Logger.constructor | CPUSetSetter/UI/Tabs/Processes/WindowLogger.cs:8-13 | a new logger shows no text, holds no lines and has no update pending |
| WindowLogger.Logger.WriteImp | CPUSetSetter/UI/Tabs/Processes/WindowLogger.cs:22-36 | the message with a newline is queued and an update is scheduled only when none is pending; the text is unchanged until the update |
| WindowLogger.Logger.UpdateText | CPUSetSetter/UI/Tabs/Processes/WindowLogger.cs:38-51 | the oldest lines are dropped down to 50, the text is the remaining lines joined, and no update is pending; the lines are the newest written |
| WindowLogger.WriteThenUpdateAppends | CPUSetSetter/UI/Tabs/Processes/WindowLogger.cs:22-51 | below 50 lines a write followed by an update shows the old text with the message and a newline appended |
| ProcessesTabViewModel.MatchesFromEnd | CPUSetSetter/UI/Tabs/Processes/ProcessesTabViewModel.cs:128-135 | the entries the reverse loop disposes are exactly those of the process id, and they and the kept entries together make up the list |
| ProcessesTabViewModel.Removes | CPUSetSetter/UI/Tabs/Processes/ProcessesTabViewModel.cs:133 | n removals notify n Remove actions |
| ProcessesTabViewModel.DisposeStep | CPUSetSetter/UI/Tabs/Processes/ProcessesTabViewModel.cs:130-134 | disposing and removing entry i of the process id takes the loop state from i + 1 to i |
| ProcessesTabViewModel.ExitStep | CPUSetSetter/UI/Tabs/Processes/ProcessesTabViewModel.cs:128-135 | one step of the reverse loop removes entry i exactly when it has the process id, and keeps the rest |
| ProcessesTabViewModel.FirstWithPid | CPUSetSetter/UI/Tabs/Processes/ProcessesTabViewModel.cs:160 | FirstOrDefault finds an entry exactly when one has the id, and then the first such entry |
| ProcessesTabViewModel.Visible | CPUSetSetter/UI/Tabs/Processes/ProcessesTabViewModel.cs:47 | the view shows exactly the entries whose name contains the filter text, ignoring case |
| ProcessesTabViewModel.EmptyFilterShowsAll | CPUSetSetter/UI/Tabs/Processes/ProcessesTabViewModel.cs:47 | an empty filter shows every entry, in order |
| ProcessesTabViewModel.FilterKeepsUniquePids | CPUSetSetter/UI/Tabs/Processes/ProcessesTabViewModel.cs:128-135 | removing the entries of an id keeps the others' ids unique |
| ProcessesTabViewModel.ProcessesTab.constructor | CPUSetSetter/UI/Tabs/Processes/ProcessesTabViewModel.cs:22-37 | a new tab has the given process list, an empty filter and no foreground process |
| ProcessesTabViewModel.ProcessesTab.OnNewProcess | CPUSetSetter/UI/Tabs/Processes/ProcessesTabViewModel.cs:113-122 | a new entry is appended and announced exactly when no entry has the process id, so ids stay unique |
| ProcessesTabViewModel.ProcessesTab.PidListed | CPUSetSetter/UI/Tabs/Processes/ProcessesTabViewModel.cs:117 | the scan reports true exactly when an entry has the id |
| ProcessesTabViewModel.ProcessesTab.OnExitedProcess | CPUSetSetter/UI/Tabs/Processes/ProcessesTabViewModel.cs:124-137 | every entry of the exited id is disposed, last first, and removed; the others stay in order; one Remove is announced per removal unless notifications are paused |
| ProcessesTabViewModel.ProcessesTab.RemoveIfExited | CPUSetSetter/UI/Tabs/Processes/ProcessesTabViewModel.cs:130-134 | one pass disposes and removes entry i exactly when it has the id |
| ProcessesTabViewModel.ProcessesTab.DisposeAndRemove | CPUSetSetter/UI/Tabs/Processes/ProcessesTabViewModel.cs:132-133 | the entry at the index is disposed and removed, nothing else |
| ProcessesTabViewModel.ProcessesTab.UpdateCurrentForegroundProcess | CPUSetSetter/UI/Tabs/Processes/ProcessesTabViewModel.cs:148-162 | without a foreground window nothing changes; with one the shown process is the first entry of its process id, or none |
| ProcessesTabViewModel.ProcessesTab.OnMaskHotkeyPressed | CPUSetSetter/UI/Tabs/Processes/ProcessesTabViewModel.cs:63-82 | the entry that was the foreground process before the hotkey is asked to SetMask(mask, true); success plays the cleared sound for NoMask and the applied sound otherwise, failure the error sound; without a foreground process nothing is requested; the foreground lookup queued with BeginInvoke takes effect only afterwards |
| ProcessesTabViewModel.ProcessesTab.PauseListUpdates | CPUSetSetter/UI/Tabs/Processes/ProcessesTabViewModel.cs:87-94 | notifications are paused; the list is unchanged |
| ProcessesTabViewModel.ProcessesTab.ResumeListUpdates | CPUSetSetter/UI/Tabs/Processes/ProcessesTabViewModel.cs:99-106 | notifications resume with one Reset; the list is unchanged |
| ProcessListEntryViewModel.Handler.constructor | CPUSetSetter/UI/Tabs/Processes/ProcessListEntryViewModel.cs:14 | a process handler that has applied nothing and is not disposed |
| ProcessListEntryViewModel.Handler.ApplyMask | CPUSetSetter/UI/Tabs/Processes/ProcessListEntryViewModel.cs:64 | an apply is recorded and reports its outcome |
| ProcessListEntryViewModel.Handler.Dispose | CPUSetSetter/UI/Tabs/Processes/ProcessListEntryViewModel.cs:80 | the handler is disposed; nothing else changes |
| ProcessListEntryViewModel.RuleManager.constructor | CPUSetSetter/UI/Tabs/Processes/ProcessListEntryViewModel.cs:61 | no rule update recorded yet |
| ProcessListEntryViewModel.RuleManager.UpdateOrAddProgramRule | CPUSetSetter/UI/Tabs/Processes/ProcessListEntryViewModel.cs:61 | the path and mask of the update are recorded |
| ProcessListEntryViewModel.ProcessListEntry.constructor | CPUSetSetter/UI/Tabs/Processes/ProcessListEntryViewModel.cs:33-42 | the entry holds the process's id, name and path; its mask is the path's mask; NoMask applies nothing, and another mask is stored and applied, a failure setting FailedToOpen |
| ProcessListEntryViewModel.ProcessListEntry.SetMask | CPUSetSetter/UI/Tabs/Processes/ProcessListEntryViewModel.cs:53-68 | the mask applied last returns the previous status and changes nothing; any other mask becomes shown and last applied, is stored for the path and applied, and a failure sets FailedToOpen, which is never cleared |
| ProcessListEntryViewModel.ProcessListEntry.OnMaskChanged | CPUSetSetter/UI/Tabs/Processes/ProcessListEntryViewModel.cs:73-76 | a mask picked in the UI is handled by SetMask |
| ProcessListEntryViewModel.ProcessListEntry.Dispose | CPUSetSetter/UI/Tabs/Processes/ProcessListEntryViewModel.cs:78-82 | the process handler is disposed and has applied nothing more |
| MasksTabViewModel.ColumnDivisorFrom | CPUSetSetter/UI/Tabs/Masks/MasksTabViewModel.cs:30-34 | the divisor search from an even start of at least 2 ends on an even divisor at least as large (that it fits is ColumnDivisorFits) |
| MasksTabViewModel.ColumnDivisorFits | CPUSetSetter/UI/Tabs/Masks/MasksTabViewModel.cs:31 | the divisor found leaves at most 16 processors per column |
| MasksTabViewModel.DivideBelow | CPUSetSetter/UI/Tabs/Masks/MasksTabViewModel.cs:31 | a quotient above 16 means the divisor is below the processor count, so the loop ends |
| MasksTabViewModel.DivisorStep | CPUSetSetter/UI/Tabs/Masks/MasksTabViewModel.cs:31-34 | one more turn keeps the divisor below the count and the search result the same |
| MasksTabViewModel.DivisorStop | CPUSetSetter/UI/Tabs/Masks/MasksTabViewModel.cs:31 | the loop stops exactly on the divisor the search finds |
| MasksTabViewModel.ColumnDivisorIsSmallest | CPUSetSetter/UI/Tabs/Masks/MasksTabViewModel.cs:30-34 | no smaller even divisor from the start on leaves at most 16 per column |
| MasksTabViewModel.ColumnCount | CPUSetSetter/UI/Tabs/Masks/MasksTabViewModel.cs:30-35 | Math.Max(1, count / div) is between 1 and 16 |
| MasksTabViewModel.Chunks | CPUSetSetter/UI/Tabs/Masks/MasksTabViewModel.cs:39 | Chunk gives non-empty pieces of at most the size, all but the last exactly the size, and none for an empty input |
| MasksTabViewModel.ChunksCover | CPUSetSetter/UI/Tabs/Masks/MasksTabViewModel.cs:39 | the pieces concatenated give the input back |
| MasksTabViewModel.Indices | CPUSetSetter/UI/Tabs/Masks/MasksTabViewModel.cs:38 | Range(0, count) is 0 .. count - 1 in order |
| MasksTabViewModel.GridSpec | CPUSetSetter/UI/Tabs/Masks/MasksTabViewModel.cs:22-41 | no selected mask shows nothing; otherwise every processor index appears once, in order, at most 16 per column |
| MasksTabViewModel.EmptyMaskEmptyGrid | CPUSetSetter/UI/Tabs/Masks/MasksTabViewModel.cs:35-39 | a mask of no processors shows no column |
| MasksTabViewModel.MasksTab.constructor | CPUSetSetter/UI/Tabs/Masks/MasksTabViewModel.cs:13-88 | a new tab with the hotkey input unfocused and no mask selected |
| MasksTabViewModel.MasksTab.MaskBits | CPUSetSetter/UI/Tabs/Masks/MasksTabViewModel.cs:22-41 | the getter's divisor loop and chunking give the grid GridSpec describes |
| MasksTabViewModel.MasksTab.RemoveMask | CPUSetSetter/UI/Tabs/Masks/MasksTabViewModel.cs:52-70 | nothing happens unless a mask other than NoMask is selected; a mask rules use goes only when the user confirms; a removed mask is deselected |
| MasksTabViewModel.MasksTab.CanRemoveMask | CPUSetSetter/UI/Tabs/Masks/MasksTabViewModel.cs:20 | a mask is selected and it is not NoMask; RemoveMask states what removal does in each case |
| MasksTabViewModel.MasksTab.ClearHotkey | CPUSetSetter/UI/Tabs/Masks/MasksTabViewModel.cs:73-76 | the selected mask loses all hotkeys; without a selection nothing changes |
| MasksTabViewModel.MasksTab.OnKeyPressed | CPUSetSetter/UI/Tabs/Masks/MasksTabViewModel.cs:81-87 | while the input is focused a key the selected mask lacks is appended to its hotkeys; otherwise nothing changes |
| MasksTabViewModel.MasksTab.OnHotkeyInputFocusChanged | CPUSetSetter/UI/Tabs/Masks/MasksTabViewModel.cs:90-94 | the focus flag is stored and hotkey callbacks are enabled exactly when the input is not focused |
| CreateMaskWindowViewModel.CreateMaskWindow.constructor | CPUSetSetter/UI/Tabs/Masks/CreateMaskWindowViewModel.cs:43-49 | every logical processor is enabled, the type is CPU set, and there are no hotkeys and no name |
| CreateMaskWindowViewModel.CreateMaskWindow.CreateMask | CPUSetSetter/UI/Tabs/Masks/CreateMaskWindowViewModel.cs:27-41 | a non-empty name used by no mask appends the mask and closes the window; otherwise only the button refreshes; names stay distinct |
| CreateMaskWindowViewModel.CreateMaskWindow.CanCreateMask | CPUSetSetter/UI/Tabs/Masks/CreateMaskWindowViewModel.cs:27 | a non-empty name no mask has; CreateMask states what happens either way |
| CreateProgramRuleWindowViewModel.CreateProgramRuleWindow.constructor | CPUSetSetter/UI/Tabs/Rules/CreateProgramRuleWindowViewModel.cs:16-49 | an empty path, NoMask selected, window open |
| CreateProgramRuleWindowViewModel.CreateProgramRuleWindow.CreateProgramRule | CPUSetSetter/UI/Tabs/Rules/CreateProgramRuleWindowViewModel.cs:21-44 | a new rule with the path and mask is appended and the window closes; when CanCreate held the path now has exactly one rule and CanCreate no longer holds |
| CreateProgramRuleWindowViewModel.CreateProgramRuleWindow.CanCreate | CPUSetSetter/UI/Tabs/Rules/CreateProgramRuleWindowViewModel.cs:21 | a non-empty path no rule has under RuleHelpers.PathsEqual; CreateProgramRule states what happens either way |
| RulesTabViewModel.RuleTemplatesHeaderText | CPUSetSetter/UI/Tabs/Rules/RulesTabViewModel.cs:11-21 | the plain title with no template, the editing hint with one, the reordering hint as well with two or more |
| RulesTabViewModel.HeaderTextClasses | CPUSetSetter/UI/Tabs/Rules/RulesTabViewModel.cs:11-21 | two counts give the same header exactly when both are 0, both 1, or both at least 2 |
| RulesTabViewModel.ProgramRuleRemove | CPUSetSetter/UI/Tabs/Rules/RulesTabViewModel.cs:27-32 | the rule is removed or reset as MaskRuleManager.RemoveProgramRule says, including the re-entry of a changed mask: for the first rule of its path no other rule changes, the rule gets the template matching its path and every process of the path gets the mask |
| RulesTabViewModel.ProgramRuleReapply | CPUSetSetter/UI/Tabs/Rules/RulesTabViewModel.cs:35-39 | a rule with a template gets the template's mask and the list stays; one without is unchanged; for the first rule of its path no other rule changes, a changed mask goes to every process of the path and gives the rule the template matching its path, so a rule whose template still matches stops deviating |
| RulesTabViewModel.RuleTemplateReapply | CPUSetSetter/UI/Tabs/Rules/RulesTabViewModel.cs:45-48 | as MaskRuleManager.ReapplyRuleTemplate: the template's mask goes to every rule it is the first match for and no rule gets another new mask; with one rule per path exactly those change, the changed ones get the template, and the calls are ReappliedCalls |
| RulesTabViewModel.RuleTemplateRemove | CPUSetSetter/UI/Tabs/Rules/RulesTabViewModel.cs:54-58 | the template leaves the list and every rule is matched again |
| PausableObservableCollection.PausableObservableCollection.constructor | CPUSetSetter/UI/PausableObservableCollection.cs:9 | a new collection is empty, not paused, and has announced nothing |
| PausableObservableCollection.PausableObservableCollection.SuppressNotifications | CPUSetSetter/UI/PausableObservableCollection.cs:11-19 | the flag takes the value; resuming announces one Reset, pausing nothing; the items are unchanged |
| PausableObservableCollection.PausableObservableCollection.OnCollectionChanged | CPUSetSetter/UI/PausableObservableCollection.cs:21-28 | a change is announced exactly when notifications are not paused |
| PausableObservableCollection.PausableObservableCollection.Add | CPUSetSetter/UI/PausableObservableCollection.cs:21-28 | the item is appended and an Add is announced unless paused |
| PausableObservableCollection.PausableObservableCollection.RemoveAt | CPUSetSetter/UI/PausableObservableCollection.cs:21-28 | an index inside the list removes that item and announces a Remove unless paused; one outside throws ArgumentOutOfRangeException and changes nothing |
| VersionChecker.StateTextInjective | CPUSetSetter/Util/VersionChecker.cs:28-129 | distinct check states show distinct texts |
| VersionChecker.StateText | CPUSetSetter/Util/VersionChecker.cs:28-129 | the status text of a check state; StateTextInjective states that no two states share one |
| VersionChecker.VersionString | CPUSetSetter/Util/VersionChecker.cs:32-44 | "unknown" exactly without a version, "Dev" exactly for 1.0.0.0, otherwise "v" followed by the version text |
| VersionChecker.CheckOnceSpec | CPUSetSetter/Util/VersionChecker.cs:97-131 | a tag "v" plus a newer version reports the new version and ends; an equal or older one is up to date and waits 24 hours; a tag without "v" ends with a parse failure; an HTTP failure waits 60 seconds; any other failure waits 24 hours |
| VersionChecker.CheckOnce | CPUSetSetter/Util/VersionChecker.cs:97-131 | one attempt of the check loop; CheckOnceSpec and Outcomes state its outcomes |
| VersionChecker.Outcomes | CPUSetSetter/Util/VersionChecker.cs:94-134 | each attempt's outcome is the outcome of that attempt on its own |
| VersionChecker.AttemptsMade | CPUSetSetter/Util/VersionChecker.cs:94-134 | the loop makes at most as many attempts as there are |
| VersionChecker.VersionChecker.constructor | CPUSetSetter/Util/VersionChecker.cs:24-46 | a new checker has the given version, no new version seen, the "not ran yet" state and no loop started |
| VersionChecker.VersionChecker.RunVersionChecker | CPUSetSetter/Util/VersionChecker.cs:48-57 | nothing happens without a version; the development version disables the check; any other version starts the loop |
| VersionChecker.VersionChecker.RunUpdateChecker | CPUSetSetter/Util/VersionChecker.cs:92-135 | the loop stops at the first attempt that ends it and waits between the others; the state is the last attempt's; a newer version sets NewVersionAvailable; with only retries it is still running |
| VersionChecker.RunAttempts | CPUSetSetter/Util/VersionChecker.cs:94-134 | the loop over the attempts gives the delays awaited, whether it ended, and the state and flag after it |
| VersionChecker.FirstDoneAt | CPUSetSetter/Util/VersionChecker.cs:94-134 | an ending attempt after only retries is where the loop stops |
| VersionChecker.NoneDone | CPUSetSetter/Util/VersionChecker.cs:94-134 | attempts that all ask for a retry never end the loop |
| VersionChecker.NewerReleaseEndsCheck | CPUSetSetter/Util/VersionChecker.cs:100-109 | a newer release ends the check at once and reports it |
| VersionChecker.UnprefixedTagEndsCheck | CPUSetSetter/Util/VersionChecker.cs:113-118 | a tag without the leading "v" ends the check with a parse failure |
| ThemeModeJsonConverter.Read | CPUSetSetter/ThemeModeJsonConverter.cs:9-23 | the mode with exactly that name; any other string, or null, gives System |
| ThemeModeJsonConverter.ThemeModeNamed | CPUSetSetter/ThemeModeJsonConverter.cs:15-22 | the mode whose Value is the string, when there is one, and only then |
| ThemeModeJsonConverter.Write | CPUSetSetter/ThemeModeJsonConverter.cs:25-31 | the text written names exactly the mode |
| ThemeModeJsonConverter.WriteThenRead | CPUSetSetter/ThemeModeJsonConverter.cs:9-31 | writing a mode and reading it back gives the same mode |
| ThemeModeJsonConverter.ReadIsCaseSensitive | CPUSetSetter/ThemeModeJsonConverter.cs:15-22 | the names are matched case-sensitively: "light", "dark" and "none" read as System |
| EnumToBoolConverter.Convert | CPUSetSetter/UI/Converters/EnumToBoolConverter.cs:9-16 | a null value is unchecked; otherwise checked exactly when the value equals the parameter |
| EnumToBoolConverter.ConvertBack | CPUSetSetter/UI/Converters/EnumToBoolConverter.cs:18-25 | nothing to do for a null value or parameter or an unchecked button; a checked button gives the parameter; a value that is not a bool fails the cast |
| EnumToBoolConverter.CheckedRoundTrip | CPUSetSetter/UI/Converters/EnumToBoolConverter.cs:9-25 | checking a button and converting the value back checks that same button |
| EnumToBoolConverter.AtMostOneChecked | CPUSetSetter/UI/Converters/EnumToBoolConverter.cs:9-16 | among buttons with different parameters at most one is checked |
| Common.Filter | CPUSetSetter/Config.cs:440-450 | the elements kept are elements of the list that pass the test, and every element that passes is kept |
| Common.RemoveFirst | CPUSetSetter/CPUSet.cs:134-137 | List.Remove drops exactly one occurrence of a present element and leaves a list without it unchanged |
| Common.RemoveAtFromBack | CPUSetSetter/Config.cs:440-450 | the back-to-front RemoveAt loop leaves exactly the elements that pass the test, in their order |
| Common.FirstIndex | CPUSetSetter/Config.cs:149-152 | FirstOrDefault finds the first position whose element passes the test, or reports that none does |
| Common.FindFirst | CPUSetSetter/Config.cs:410-433 | a foreach that stops at its first hit stops at the first matching position |
| Common.FilterKeepsUniqueBy | CPUSetSetter/MainWindowViewModel.cs:120-132 | removing list entries keeps unique keys unique |
| Common.EqualsIgnoreCaseIsEquivalence | CPUSetSetter/ProcessCPUSet.cs:51-52 | OrdinalIgnoreCase equality is reflexive, symmetric and transitive |
| LegacyNative.Os.constructor | CPUSetSetter/CPUSet.cs:147-209 | the native layer starts with no calls made |
| LegacyNative.Os.Call | CPUSetSetter/CPUSet.cs:152-198 | every OpenProcess or SetProcessDefaultCpuSetMasks call is recorded, and its outcome is the one the environment gives for that call |
| LegacyNative.Opened | CPUSetSetter/CPUSet.cs:150-164 | after an apply the handle has been opened, and a handle opened before is kept |
| LegacyNative.CallsThroughSpec | CPUSetSetter/CPUSet.cs:150-209 | OpenProcess is called only for a null handle; the CPU Set call is made exactly when the handle is valid; a handle already found invalid makes no call at all |
| LegacyDefaultSets.Split | CPUSetSetter/Config.cs:207 | Split(' ') yields at least one piece and no piece holds a space |
| LegacyDefaultSets.JoinSplit | CPUSetSetter/Config.cs:207 | joining the pieces with a space gives the processor name back |
| LegacyDefaultSets.IntelLayout | CPUSetSetter/Config.cs:219-365 | the Intel layout found is a dictionary entry whose model is a word of the processor name; none is found only when no model is |
| LegacyDefaultSets.DuoCcdModel | CPUSetSetter/Config.cs:403-412 | the AMD model found is a known dual-CCD model that is a word of the processor name; none only when no model is |
| LegacyDefaultSets.PECoreMasks | CPUSetSetter/Config.cs:378-389 | processor i is a P-core thread exactly when i < pThreads, the E-core mask is its complement, and each name carries its P or E suffix |
| LegacyDefaultSets.Repeat | CPUSetSetter/Config.cs:415-418 | Enumerable.Repeat gives count copies of the value |
| LegacyDefaultSets.HalfMask | CPUSetSetter/Config.cs:415-418 | the CCD masks have 2 * (n / 2) flags: the first half enabled for CCD0 and the second half for CCD1 |
| LegacyDefaultSets.DuoCcdSetNames | CPUSetSetter/Config.cs:419-430 | a model ending in X3D gives Cache and Freq, and any other model gives CCD0 and CCD1 |
| Legacy.CoresOf | CPUSetSetter/CPUSet.cs:69-74 | one processor per flag, with that flag and the name "Core i" |
| Legacy.NamedCores | CPUSetSetter/Config.cs:391-392 | one processor per flag, named by the given names in order |
| Legacy.EnabledFlags | CPUSetSetter/CPUSet.cs:182-187 | the IsEnabled flags of the processors, in order |
| Legacy.EnabledFlagsStep | CPUSetSetter/CPUSet.cs:183-187 | one loop step ORs in bit i exactly when processor i is enabled |
| Legacy.BitMaskBits | CPUSetSetter/CPUSet.cs:182-187 | for up to 64 processors, bit i of the mask is set exactly when processor i exists and is enabled |
| Legacy.TabDivisor | CPUSetSetter/CPUSet.cs:33-37 | the divisor loop computes the same column divisor as the newer masks tab |
| Legacy.DivisorAtMostCount | CPUSetSetter/CPUSet.cs:33-37 | starting at or below the processor count, the divisor never passes it |
| Legacy.TabChunkSizeZero | CPUSetSetter/CPUSet.cs:38 | the chunk size is zero exactly for fewer than two processors |
| Legacy.TabChunkSize | CPUSetSetter/CPUSet.cs:33-38 | Mask.Count / div for the divisor loop; TabDivisor, TabChunkSizeZero and SettingsTabMask state its properties |
| Legacy.CorrectedSettingsTabMask | CPUSetSetter/CPUSet.cs:29-40 | with the chunk size clamped to 1, the columns hold every processor once, in order, with 1 to 16 per column |
| Legacy.AssignCpuSet | CPUSetSetter/CPUSet.cs:116-119 | every entry in the copied list gets the new set, and nothing else about the entries changes |
| Legacy.CpuSet.Named | CPUSetSetter/CPUSet.cs:62-67 | a new set has ProcessorCount processors, all enabled, no hotkey and no processes, and its callback is registered |
| Legacy.CpuSet.FromMask | CPUSetSetter/CPUSet.cs:69-74 | a new set has one processor per flag, no hotkey and no processes, and its callback is registered |
| Legacy.CpuSet.FromMaskAndNames | CPUSetSetter/Config.cs:391-392 | the three-argument constructor gives the processors the given names |
| Legacy.CpuSet.CreateUnset | CPUSetSetter/CPUSet.cs:76-79 | Unset has the empty name, no processors and IsUnset |
| Legacy.CpuSet.SettingsTabMask | CPUSetSetter/CPUSet.cs:29-40 | a chunk size of zero throws ArgumentOutOfRange; otherwise the processors are chunked by Count / div |
| Legacy.CpuSet.OnHotkeyChanged | CPUSetSetter/CPUSet.cs:85-103 | Add and Remove copy the keys to the callback, Reset clears them, Replace and Move throw before the save; the configuration is saved once otherwise |
| Legacy.CpuSet.AddHotkeyKey | CPUSetSetter/CPUSet.cs:89-102 | the key is appended, the callback gets the new keys, and the configuration is saved |
| Legacy.CpuSet.ClearHotkey | CPUSetSetter/CPUSet.cs:93-102 | the hotkey and the callback's keys become empty, and the configuration is saved |
| Legacy.CpuSet.Remove | CPUSetSetter/CPUSet.cs:113-123 | every entry that used the set gets Unset, the callback is unregistered, and CpuSets.Remove takes the first occurrence of the set out of the configuration, which then saves once when the set was there and the configuration is not loading |
| Legacy.CpuSet.ApplyToProcess | CPUSetSetter/CPUSet.cs:147-209 | the handle is opened only when null, and the native calls are exactly those CallsThroughSpec describes |
| Legacy.CpuSet.BitMask | CPUSetSetter/CPUSet.cs:182-187 | the loop builds the word of the enabled flags |
| Legacy.CpuSet.AddProcess | CPUSetSetter/CPUSet.cs:125-132 | the entry is appended and the set is applied to it exactly when applyNow |
| Legacy.CpuSet.RemoveProcess | CPUSetSetter/CPUSet.cs:134-137 | the first occurrence of the entry leaves the list |
| Legacy.ProcessCpuSet.constructor | CPUSetSetter/ProcessCPUSet.cs:24-29 | the rule holds the given name, path and CPU Set name |
| Legacy.ProcessCpuSet.ApplyCpuSet | CPUSetSetter/ProcessCPUSet.cs:39-62 | it applies exactly when the window runs and the set exists; then exactly the matching processes get the set and the others keep theirs |
| Legacy.ProcessCpuSet.OnCpuSetNameChanged | CPUSetSetter/ProcessCPUSet.cs:31-34 | a new CPU Set name is applied to the matching processes at once |
| Legacy.RemovalCoversLookup | CPUSetSetter/Config.cs:154-188 | every rule the lookup can find is removed; the extra rules removed are exactly those with the same path under another name |
| Legacy.GetConfiguredCpuSetSpec | CPUSetSetter/ProcessListEntry.cs:66-78 | without a matching rule a process gets Unset; any other result is a configured set with the name its rule gives |
| Legacy.GetConfiguredCpuSet | CPUSetSetter/ProcessListEntry.cs:66-78 | the set a process starts with; GetConfiguredCpuSetSpec and UnknownSetFallsBackToUnset state its cases |
| Legacy.RuleMatches | CPUSetSetter/Config.cs:154-162 | the lookup's test; GetProcessCpuSetByName and RemovalCoversLookup state what it finds and what the removal takes |
| Legacy.UnknownSetFallsBackToUnset | CPUSetSetter/ProcessListEntry.cs:76 | a rule naming a missing set falls back to Unset |
| Legacy.ConfigFile.constructor | CPUSetSetter/Config.cs:93-110 | a new file has not been written |
| Legacy.Config.constructor | CPUSetSetter/Config.cs:24-46 | no sets, no rules, MatchWholePath on, still loading |
| Legacy.Config.Save | CPUSetSetter/Config.cs:93-110 | nothing is written while loading; otherwise exactly one write |
| Legacy.Config.GetCpuSetByName | CPUSetSetter/Config.cs:149-152 | the first set with exactly this name, and null exactly when no set has it |
| Legacy.Config.UnsetSet | CPUSetSetter/CPUSet.cs:12-14 | Unset is the configuration's set with the empty name, null exactly when there is none |
| Legacy.Config.GetProcessCpuSetByName | CPUSetSetter/Config.cs:154-162 | the first matching rule (name, and path when MatchWholePath), and none exactly when no rule matches |
| Legacy.Config.SetProcessCpuSet | CPUSetSetter/Config.cs:164-176 | the found rule is updated in place or one rule is appended; other rules keep their set, and the lookup then finds the new CPU Set name; when the rule changes, each running process gets the set the rule applies to it (through the Add handler or OnCpuSetNameChanged) and the others keep theirs; an appended rule saves the configuration once unless it is loading |
| Legacy.Config.RemoveProcessCpuSet | CPUSetSetter/Config.cs:178-188 | the rules the removal test accepts are removed, the rest keep their order, and the lookup then finds none; after a removal every running process has the set configured for it now; each RemoveAt saves once unless the configuration is loading |
| Legacy.Config.ValidateCPUSets | CPUSetSetter/Config.cs:440-450 | the sets with a wrong processor count are removed, except Unset, and the rest keep their order; each RemoveAt saves once unless the configuration is loading |
| Legacy.Config.PopulateDefaultConfig | CPUSetSetter/Config.cs:190-438 | Unset is appended first, then exactly the default sets DefaultSetsSpec describes; each Add saves once unless the configuration is loading |
| Legacy.Config.Load | CPUSetSetter/Config.cs:112-147 | the configuration stops loading before it is checked; a loaded one keeps its rules and flag and only the sets of the right processor count, and is written once per dropped set; a new one gets Unset and the default sets and is written once per set |
| Legacy.Config.OnCpuSetsChanged | CPUSetSetter/Config.cs:51-54 | every change of the sets saves the configuration once, and nothing while it is loading |
| Legacy.Config.OnProcessCpuSetsChanged | CPUSetSetter/Config.cs:57-84 | an added rule is applied to the matching running processes; after a removal every running process gets its configured set; other changes throw NotImplementedException before the save, which happens once otherwise unless loading |
| Legacy.Config.ReassignConfigured | CPUSetSetter/Config.cs:67-76 | every running process gets the set configured for it now |
| Legacy.Config.AddDefaultSets | CPUSetSetter/Config.cs:391-428 | a vendor branch adds none or its two sets in order, saving once per Add unless the configuration is loading |
| Legacy.Config.CpuSetsAdd | CPUSetSetter/Config.cs:193 | CpuSets.Add appends the set and its handler saves once unless the configuration is loading; the rules are untouched |
| Legacy.Config.CpuSetsRemoveAt | CPUSetSetter/Config.cs:447 | CpuSets.RemoveAt removes exactly the set at the index and its handler saves once unless the configuration is loading |
| Legacy.Config.CpuSetsRemove | CPUSetSetter/CPUSet.cs:122 | CpuSets.Remove takes out the first occurrence of the set; a set not in the list raises no change and nothing is saved |
| Legacy.Config.ProcessCpuSetsAdd | CPUSetSetter/Config.cs:174 | ProcessCPUSets.Add appends the rule; its handler gives every matching running process the rule's set when the window runs and the set exists, then saves once unless loading |
| Legacy.Config.ProcessCpuSetsRemoveAt | CPUSetSetter/Config.cs:185 | ProcessCPUSets.RemoveAt removes exactly the rule at the index; its handler gives every running process the set configured for it now, then saves once unless loading |
| Legacy.NewDefaultSets | CPUSetSetter/Config.cs:207-437 | the vendor branch builds none or two fresh sets, exactly those DefaultSets describes |
| Legacy.PCoreFlags | CPUSetSetter/Config.cs:386 | processor i is in the P-Cores set exactly when i < pThreads |
| Legacy.ECoreFlags | CPUSetSetter/Config.cs:387 | processor i is in the E-Cores set exactly when i >= pThreads |
| Legacy.PECoreNames | CPUSetSetter/Config.cs:385-388 | processor i is named "CPU {i}P" or "CPU {i}E" |
| Legacy.FindIntelLayout | CPUSetSetter/Config.cs:362-365 | the foreach stops at the layout IntelLayout describes |
| Legacy.FindDuoCcdModel | CPUSetSetter/Config.cs:410-412 | the foreach stops at the model DuoCcdModel describes |
| Legacy.NewIntelSets | CPUSetSetter/Config.cs:378-392 | the P-Cores and E-Cores sets are built as described |
| Legacy.NewAmdSets | CPUSetSetter/Config.cs:414-430 | the two die sets are built as described |
| Legacy.DefaultSetsSpec | CPUSetSetter/Config.cs:207-437 | no default sets unless WMI reports exactly one processor; a known Intel model gives complementary P-Cores and E-Cores sets; a known AMD model gives two half masks; otherwise none |
| Legacy.ProcessListEntry.constructor | CPUSetSetter/ProcessListEntry.cs:41-49 | the entry takes its configured set; a null one (no Unset in the configuration) leaves it without a set, handle or native call; any other set goes through the setter, so the entry joins its list, Unset is not applied at first, any other set is applied and stored in its rule |
| Legacy.ProcessListEntry.OnCpuSetChanged | CPUSetSetter/ProcessListEntry.cs:51-64 | the entry moves between the sets' lists; Unset removes the process's rules, any other set is stored in its rule |
| Legacy.ProcessListEntry.MoveBetweenSets | CPUSetSetter/ProcessListEntry.cs:53-54 | the entry leaves the old list and joins the new one, which applies unless this is the first assignment of Unset |
| Legacy.ProcessListEntry.StoreInConfig | CPUSetSetter/ProcessListEntry.cs:56-63 | Unset removes the process's rules, any other set is stored in its rule |
| Legacy.ProcessListEntry.SetCpuSet | CPUSetSetter/ProcessListEntry.cs:25-26 | a different value is stored and moves the entry between lists; an equal one changes nothing |
| Legacy.ProcessListEntry.FailedToOpen | CPUSetSetter/ProcessListEntry.cs:37 | a handle was opened and is invalid; ApplyToProcess states when a handle is opened |
| Legacy.ProcessListEntry.UpdateCpuUsage | CPUSetSetter/ProcessListEntry.cs:80-120 | an invalid handle changes nothing; only front datapoints older than 60 seconds are dropped; a successful query enqueues a datapoint, and no CPU time since the oldest one gives a usage of 0 |
| Legacy.MainWindow.constructor | CPUSetSetter/MainWindowViewModel.cs:15-93 | no processes, no foreground process, no selection, empty name input |
| Legacy.MainWindow.AddNewSet | CPUSetSetter/MainWindowViewModel.cs:36-49 | an empty or taken name changes nothing; otherwise one set with every processor enabled is added, selected, and the input cleared |
| Legacy.MainWindow.RemoveSet | CPUSetSetter/MainWindowViewModel.cs:51-57 | nothing without a selection or for Unset; otherwise the selection removes itself |
| Legacy.MainWindow.ClearHotkey | CPUSetSetter/MainWindowViewModel.cs:59-63 | the selected set's hotkey is cleared |
| Legacy.MainWindow.OnKeyDown | CPUSetSetter/MainWindowViewModel.cs:82-88 | while the input has focus, a missing key is appended, and the hotkey stays free of duplicates |
| Legacy.MainWindow.OnHotkeyInputFocusChanged | CPUSetSetter/MainWindowViewModel.cs:95-99 | focus disables the hotkey callbacks, and leaving the input enables them |
| Legacy.MainWindow.OnCpuSetHotkeyPressed | CPUSetSetter/MainWindowViewModel.cs:101-107 | the foreground process gets the set; without one nothing changes |
| Legacy.MainWindow.OnNewProcess | CPUSetSetter/MainWindowViewModel.cs:109-118 | a listed PID changes nothing; otherwise one fresh entry with the PID and the configured set, null included, is appended, and a null set changes no rule, file or native state; PIDs stay unique |
| Legacy.MainWindow.OnExitedProcess | CPUSetSetter/MainWindowViewModel.cs:120-132 | every entry with the PID is removed, the others keep their order, and PIDs stay unique |
| Legacy.MainWindow.UpdateForegroundProcess | CPUSetSetter/MainWindowViewModel.cs:147-158 | no window changes nothing; otherwise the first entry with the PID becomes the foreground process, null when none has it |
| LegacyUi.CpuSet.Named | CPUSetSetter.UI/CPUSet.cs:39-43 | a new set has ProcessorCount processors, all enabled, and no processes |
| LegacyUi.CpuSet.FromMask | CPUSetSetter.UI/CPUSet.cs:45-49 | a new set has one processor per flag and no processes |
| LegacyUi.CpuSet.CreateUnset | CPUSetSetter.UI/CPUSet.cs:10-11 | Unset has the empty name, no processors and IsUnset |
| LegacyUi.CpuSet.SettingsTabMask | CPUSetSetter.UI/CPUSet.cs:19 | Chunk(8) lists every processor once and in order, in rows of 8 with only the last row shorter |
| LegacyUi.CpuSet.Remove | CPUSetSetter.UI/CPUSet.cs:51-60 | every entry that used the set gets Unset, and the set leaves CpuSets and so the pickable list |
| LegacyUi.CpuSet.BitMask | CPUSetSetter.UI/CPUSet.cs:119-124 | the loop builds the word of the enabled flags |
| LegacyUi.CpuSet.ApplyToProcess | CPUSetSetter.UI/CPUSet.cs:84-146 | the handle is opened only when null; the CPU Set call is made exactly when the handle is valid; an invalid handle is not reopened |
| LegacyUi.CpuSet.AddProcess | CPUSetSetter.UI/CPUSet.cs:62-69 | the entry is appended and the set is applied to it exactly when applyNow |
| LegacyUi.CpuSet.RemoveProcess | CPUSetSetter.UI/CPUSet.cs:71-74 | the first occurrence of the entry leaves the list |
| LegacyUi.AssignUnset | CPUSetSetter.UI/CPUSet.cs:54-57 | every entry in the copied list gets Unset, and its handle is kept |
| LegacyUi.DefaultSetsSpec | CPUSetSetter.UI/Config.cs:117-145 | no sets unless WMI reports exactly one processor naming a known X3D model; then Cache and Freq, complementary halves of 2 * (n / 2) processors |
| LegacyUi.RemoveEachStep | CPUSetSetter.UI/Config.cs:47-50 | one more removal removes the next item's first occurrence |
| LegacyUi.RemoveInOrder | CPUSetSetter.UI/Config.cs:47-50 | the loop removes each removed set from the pickable list in turn |
| LegacyUi.RemoveFirstBehindHead | CPUSetSetter.UI/Config.cs:49 | below a distinct head, Remove works on the tail |
| LegacyUi.RemoveFirstAtFirst | CPUSetSetter.UI/Config.cs:155-165 | removing an element that does not occur before index k removes index k |
| LegacyUi.RemoveFirstAt | CPUSetSetter.UI/Config.cs:155-165 | in a list without repetitions, RemoveAt(i) and Remove of element i agree |
| LegacyUi.RemoveAtDistinct | CPUSetSetter.UI/Config.cs:155-165 | RemoveAt keeps a list free of repetitions and adds nothing |
| LegacyUi.Config.constructor | CPUSetSetter.UI/Config.cs:15-31 | no sets, the pickable list holds only Unset, MatchWholePath on, still loading |
| LegacyUi.Config.Save | CPUSetSetter.UI/Config.cs:72-87 | nothing is written while loading; otherwise exactly one write |
| LegacyUi.Config.SetMatchWholePath | CPUSetSetter.UI/Config.cs:21-70 | the value is stored and the change is saved |
| LegacyUi.Config.OnCpuSetsChanged | CPUSetSetter.UI/Config.cs:36-62 | added sets join the pickable list, removed ones leave it; other changes throw NotImplementedException before the save |
| LegacyUi.Config.AddPickable | CPUSetSetter.UI/Config.cs:40-45 | the new sets are appended to the pickable list in order |
| LegacyUi.Config.RemovePickable | CPUSetSetter.UI/Config.cs:46-51 | each removed set leaves the pickable list at its first occurrence |
| LegacyUi.Config.CpuSetsAdd | CPUSetSetter.UI/Config.cs:36-61 | CpuSets.Add appends the set, keeps the pickable list in step, and saves |
| LegacyUi.Config.CpuSetsRemove | CPUSetSetter.UI/Config.cs:36-61 | CpuSets.Remove drops the first occurrence, keeps the pickable list in step, and saves only when something was removed |
| LegacyUi.Config.RemoveAt | CPUSetSetter.UI/Config.cs:157-163 | RemoveAt drops index i, keeps the pickable list in step, and saves |
| LegacyUi.Config.GetCpuSetByName | CPUSetSetter.UI/Config.cs:112-115 | the first pickable set with exactly this name; First throws InvalidOperationException exactly when none has it |
| LegacyUi.Config.UnsetFoundByEmptyName | CPUSetSetter.UI/Config.cs:112-115 | looking up the empty name finds Unset |
| LegacyUi.Config.InitCpuSetNames | CPUSetSetter.UI/Config.cs:147-153 | every configured set is appended to the pickable list, in order |
| LegacyUi.Config.ValidateCPUSets | CPUSetSetter.UI/Config.cs:155-165 | exactly the sets with a wrong processor count are removed, with one save per removal, and the rest keep their order |
| LegacyUi.Config.PopulateDefaultConfig | CPUSetSetter.UI/Config.cs:117-145 | exactly the sets DefaultSetsSpec describes are appended |
| LegacyUi.Config.Load | CPUSetSetter.UI/Config.cs:89-110 | a loaded configuration stops loading, fills the pickable list and is validated; a new one gets the default sets |
| LegacyUi.RuleStore.constructor | CPUSetSetter.UI/ProcessListEntry.cs:46-50 | no rule calls made yet |
| LegacyUi.RuleStore.Call | CPUSetSetter.UI/ProcessListEntry.cs:46-50 | each call into the rule methods is recorded in order |
| LegacyUi.GetConfiguredCpuSet | CPUSetSetter.UI/ProcessListEntry.cs:54-66 | no rule gives Unset; a rule gives the pickable set of its name, and the lookup throws exactly when there is none |
| LegacyUi.ProcessListEntry.FailedToOpen | CPUSetSetter.UI/ProcessListEntry.cs:28 | true exactly when a handle exists and is invalid |
| LegacyUi.ProcessListEntry.constructor | CPUSetSetter.UI/ProcessListEntry.cs:30-37 | the entry takes its configured set and joins its list; Unset is not applied at first and its rule is removed, any other set is applied and stored |
| LegacyUi.ProcessListEntry.OnCpuSetChanged | CPUSetSetter.UI/ProcessListEntry.cs:39-52 | the entry moves between the sets' lists; Unset removes the process's rule, any other set is stored in it |
| LegacyUi.MainWindow.constructor | CPUSetSetter.UI/MainWindowViewModel.cs:13-64 | no processes, no foreground process, no selection, empty name input |
| LegacyUi.MainWindow.AddNewSet | CPUSetSetter.UI/MainWindowViewModel.cs:31-41 | an empty or taken name changes nothing; otherwise one set with every processor enabled is added and becomes pickable, and the input is cleared |
| LegacyUi.MainWindow.RemoveSet | CPUSetSetter.UI/MainWindowViewModel.cs:43-47 | nothing without a selection; otherwise the selected set, even Unset, removes itself |
| LegacyUi.MainWindow.OnNewProcess | CPUSetSetter.UI/MainWindowViewModel.cs:66-75 | a listed PID changes nothing; otherwise one entry is appended unless the set lookup throws; PIDs stay unique |
| LegacyUi.MainWindow.OnExitedProcess | CPUSetSetter.UI/MainWindowViewModel.cs:77-89 | every entry with the PID is removed, the others keep their order, and PIDs stay unique |
| LegacyUi.MainWindow.UpdateForegroundProcess | CPUSetSetter.UI/MainWindowViewModel.cs:104-118 | no window changes nothing; otherwise the first entry with the PID becomes the foreground process, null when none has it |

## Left out

- Windows, WMI and the other system calls are not performed. This covers OpenProcess, SetProcessDefaultCpuSets, SetProcessDefaultCpuSetMasks, SetProcessAffinityMask, GetProcessTimes, GetLogicalProcessorInformationEx, GetSystemCpuSetInformation, GetAsyncKeyState and Win32_Processor. Their results are inputs: an oracle for whether the n-th call succeeds, the buffer's blocks, the CPU Set ids, the WMI name, manufacturer and count.
- File and network I/O are left out: reading and writing the configuration file, the backups, the JSON text and the GitHub release request. The JSON tree, the request's outcome and the number of file writes stand for them.
- Library internals are parameters: the glob Matcher, the length of the root Path.GetPathRoot finds, System.Version parsing, text and comparison, Enum.Parse and VKey.ToString.
- RuleHelpers.PathRoot: of what Path.GetPathRoot does to a root, only the change of '/' into '\' on Windows is modelled; the collapsing of repeated separators in UNC and device roots is not.
- StringComparison.OrdinalIgnoreCase is modelled as ASCII case folding, because full Unicode simple case mapping is not available here.
- Logging (WindowLogger.Default.Write), message boxes, the hotkey sounds' playback and the welcome message are left out or recorded as values. None of them changes the modelled state.
- Concurrency is left out: Task.Run loops, Task.Delay, the Dispatcher, locks and the keyboard-hook channel. Each modelled step is the sequential effect of one iteration or one invocation. The delayed saves are a pending flag or counter.
- ProcessHandlerWindows.GetAverageCpuUsage: the floating-point usage ratio is left out. CPU times and timestamps are integer ticks, and the result is Unavailable (the program's -1), Idle or Busy(cpu ticks, elapsed ticks).
- Legacy.ProcessListEntry.UpdateCpuUsage: the same floating-point ratio is left out. The usage is Idle or Busy(cpu ticks, elapsed ticks).
- The Mask setter of ProgramRule and its OnMaskChanged handler are followed wherever MaskRuleManager.cs and RulesTabViewModel.cs assign a rule's mask (MaskRuleManager.AssignMask and MaskRuleManager.OnMaskChanged): a changed mask re-enters UpdateOrAddProgramRule. Other change-notification chains across files are not followed. When one file assigns another's observable property there, the handler that assignment raises is a method of its own, called where the program raises it.
- MaskRuleManager.RemoveProgramRule: which other rules stay untouched, the template the rule ends with and the SetMask calls are stated only when the rule is the first for its path. Only a hand-edited configuration file holds two rules for equal paths.
- MaskRuleManager.ReapplyRuleTemplate: the exact masks, templates and SetMask calls are stated only when no two rules are for equal paths, which only a hand-edited configuration file breaks. Without that, it states that the matched rules get the template's mask and no rule gets any other new mask.
- RulesTabViewModel.ProgramRuleRemove: as RemoveProgramRule, the other rules, the template and the SetMask calls are stated for the first rule of its path only.
- RulesTabViewModel.ProgramRuleReapply: the other rules, the template and the SetMask calls are stated for the first rule of its path (or an empty path) only.
- RulesTabViewModel.RuleTemplateReapply: as ReapplyRuleTemplate, the exact outcome is stated only when no two rules are for equal paths.
- Legacy.Config.ReassignConfigured: it assigns each entry's CpuSet field; the setter chain that pEntry.CpuSet = GetConfiguredCpuSet() starts in the program (moving the entry between the sets' lists, applying the set and storing it in a rule) is not followed.
- Legacy.ProcessCpuSet.ApplyCpuSet: it assigns the matching entries' CpuSet field; the setter chain that assignment starts is not followed.
- Legacy.AssignCpuSet: CPUSet.Remove's assignment of Unset stores the field only; the setter chain it starts is not followed.
- Legacy.MainWindow.OnNewProcess: it states the new entry's set and the null case; what the setter does to the rules and the file is stated on Legacy.ProcessListEntry.constructor, which it calls.
- Legacy.CpuSet: the name of a set is fixed when it is created; renaming a set from the settings tab, and the save that follows, is not modelled.
- MasksTabViewModel.MasksTab.ClearHotkey: the model holds the selected mask as a value, so clearing its hotkey changes the tab's copy only; in the program the selection is the mask object the configuration shares, and the configuration sees the cleared hotkey.
- MasksTabViewModel.MasksTab.OnKeyPressed: the key is added to the model's copy of the selected mask; in the program it is added to the mask object the configuration shares.
- Object identity is kept only where the source compares references: classes for masks in place, entries and CPU Sets. Masks held in value datatypes (ConfigModels.LogicalProcessorMask) compare by contents. That agrees with the program as long as no two masks have the same contents.
- PausableObservableCollection: CPUSetSetter/PausableObservableCollection.cs and CPUSetSetter/UI/PausableObservableCollection.cs hold the same code. One class models both, with rows citing the UI copy.
- CPUSetCore.OnIsEnabledChanged and CPUSet.ApplyToAllBoundProcesses (ApplyToAllProcesses in CPUSetSetter.UI) are left out. Toggling a processor in place happens only in the UI, and the apply it triggers is CpuSet.ApplyToProcess once per entry.
- CPUSet.OnDeserialized, Config.OnDeserialized (the older generation) and the JSON constructors are covered by the constructors and by Load. The parent links of the processors are not modelled.
- The process name filter is ProcessesTabViewModel.Visible, the entries whose name contains the filter ignoring case. The view refresh and the sort order are left out, and so is the same filter in the two older MainWindowViewModel.cs files.
- Dictionary enumeration order in CPUSetSetter/Config.cs is taken to be the order of the initialiser.
- Legacy.Config.RemoveProcessCpuSet models the test as the compiler parses it: (name equal && !MatchWholePath) || path equal. Legacy.RemovalCoversLookup states what that removes beyond the lookup.
- CPUSetSetter/ProcessCPUSet.cs looks its set up in ConfigOld.Default. No ConfigOld is declared in these files, so the model uses the configuration of CPUSetSetter/Config.cs.
- CPUSetSetter.UI/ProcessListEntry.cs calls GetProcessCpuSetByName, SetProcessCpuSet and RemoveProcessCpuSet, which CPUSetSetter.UI/Config.cs does not declare. The lookup's result is a parameter, and the other two calls are recorded in LegacyUi.RuleStore.
- LegacyUi.Config.Load: the loaded sets are required to be distinct objects other than the Unset singleton, which is what JSON deserialisation creates.
- CPUSetSetter/Config.cs constructs its Intel sets with three arguments (name, mask, names). CPUSet.cs declares no such constructor, and Legacy.CpuSet.FromMaskAndNames stands for it.
- MaskRuleManager calls process.SetMask(mask, false) and ProcessesTabViewModel calls SetMask(mask, true), while ProcessListEntryViewModel.SetMask takes one argument. The processes tab keeps its true as ProcessesTabViewModel.MaskRequest.updateRule; in MaskRuleManager the extra argument is dropped.
- RuleHelpers.cs and CreateProgramRuleWindowViewModel.cs build a ProgramRule with a third boolean argument, and CreateProgramRuleWindowViewModel.cs then calls ProgramRule.SetMask(mask, false). ProgramRule.cs declares neither. The model uses its two-argument constructor, which gives the rule the mask, and leaves the SetMask call out.
- AppConfigFile.cs holds an older file shape than AppConfig.cs: program mask rules and automatic mask rules referring to masks by name. The model follows AppConfigFile.cs as written, and AppConfigFile.ConfigVersion is the private constant from that file.
- HotkeyListenerWindows.InvokeKeyEvents: the program removes keys from pressedKeys while it enumerates that set. The model removes the pruned keys in one step, giving the set the loop intends to leave.
- MasksTabViewModel.ColumnDivisorFrom: its own ensures states only that the divisor is even and no smaller than the start. That it leaves at most 16 processors per column is MasksTabViewModel.ColumnDivisorFits.
- VersionChecker: VersionCheckState, a string in the program, is a datatype of its states, and VersionChecker.StateText gives each state's text.
- The remaining files are left out: UI code-behind, converters other than EnumToBoolConverter, the tray icon, auto-start, game-mode warning, theme, file downloader, CPUSetLib, ConsoleTest and the tests. They hold wiring, floating point or system calls rather than rule logic.
- LogicalProcessorMask.Remove is seen only as the list of masks it was called on. Its cascade goes through ProgramRule.TryRemove and RuleTemplate.RemoveAllUsingMask, which are not part of this model.

## Findings

| source | as written | input that shows it | evidently intended | confidence | as-written member | corrected member |
|---|---|---|---|---|---|---|
| CPUSetSetter/Platforms/Windows/CpuInfoWindows.cs:65-72 | the naming loop only stops when no core owns the processor `(UIntPtr)1 << n`, and C# takes the shift count modulo 64 | one processor group with all 64 logical processors in use: every shift count finds an owner, so the loop never exits | stop after the 64 processors a group mask can describe | high; not executed | CpuInfoWindows.NamesLoopAsWrittenNeverExits | CpuInfoWindows.FullGroupHas64Names |
| CPUSetSetter/Platforms/Windows/CpuInfoWindows.cs:229-268 | every block's payload is checked against the size of PROCESSOR_RELATIONSHIP (24 bytes), but a cache block is read as CACHE_RELATIONSHIP (32 bytes) | a 32-byte buffer holding one RelationCache block with a 24-byte payload passes the check, and its group mask is read at offset 40, past the end of the buffer | check each block against the structure its relationship is read as | medium; not executed | CpuInfoWindows.ShortCacheBufferOverReadAsWritten | CpuInfoWindows.AcceptedBlockHoldsItsStructure |
| CPUSetSetter/CPUSet.cs:29-40 | SettingsTabMask chunks by Mask.Count / div with no lower bound, and Enumerable.Chunk throws for a size below 1 | the Unset set (no processors), or any set of one processor: the size is 0 and the getter throws ArgumentOutOfRangeException | clamp the chunk size to at least 1, as the newer masks tab does | medium; not executed | Legacy.TabChunkSizeZero | Legacy.CorrectedSettingsTabMask |
