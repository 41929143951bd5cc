/**
 * ProcessHandlerWindows: the per-process object that puts a mask on a running
 * process, either as a default CPU Set or as an affinity mask, and samples the
 * process's CPU time into a 30-second moving window.
 *
 * The Win32 calls it makes on the process are recorded in `apiCalls`; whether
 * each of them succeeds (a valid handle from OpenProcess, `true` from a Set call)
 * is the oracle `succeeds`. GetProcessTimes and the clock are parameters.
 */
module ProcessHandlerWindows {
  import opened Common
  import opened Bits
  import opened ConfigModels
  import opened NativeMethods

  /** The access right a set-handle is opened with. */
  datatype Access = SetLimitedInformation | SetInformation

  /** A Win32 call made on the process. */
  datatype ApiCall =
    | OpenProcess(access: Access)
    | ClearCpuSets                  // SetProcessDefaultCpuSets(handle, null, 0)
    | SetCpuSets(ids: seq<nat>)     // SetProcessDefaultCpuSets(handle, ids, |ids|)
    | SetAffinity(mask: bv64)       // SetProcessAffinityMask(handle, mask)

  // ---------------------------------------------------------------------------------------------
  // CPU Set ids and affinity words

  /**
   * The CPU Set ids of the enabled logical processors, in index order; an enabled
   * processor without an id is skipped (the KeyNotFoundException branch only warns).
   */
  function CpuSetIds(boolMask: seq<bool>, idOf: map<nat, nat>): (r: seq<nat>)
    ensures |r| <= |boolMask|
  {
    if |boolMask| == 0 then []
    else
      var i := |boolMask| - 1;
      CpuSetIds(boolMask[..i], idOf) + (if boolMask[i] && i in idOf then [idOf[i]] else [])
  }

  /** An id is in the list exactly when it belongs to an enabled processor of the mask. */
  lemma {:induction false} CpuSetIdsMembers(boolMask: seq<bool>, idOf: map<nat, nat>, x: nat)
    ensures x in CpuSetIds(boolMask, idOf) <==>
      exists i :: 0 <= i < |boolMask| && boolMask[i] && i in idOf && idOf[i] == x
  {
    if |boolMask| > 0 {
      var n := |boolMask| - 1;
      var front := boolMask[..n];
      CpuSetIdsMembers(front, idOf, x);
      assert forall i :: 0 <= i < n ==> front[i] == boolMask[i];
      if x in CpuSetIds(boolMask, idOf) && x !in CpuSetIds(front, idOf) {
        assert boolMask[n] && n in idOf && idOf[n] == x;
      }
    }
  }

  /** When every enabled processor has an id, none is skipped: one id per enabled processor. */
  lemma {:induction false} CpuSetIdsOnePerProcessor(boolMask: seq<bool>, idOf: map<nat, nat>)
    requires forall i :: 0 <= i < |boolMask| && boolMask[i] ==> i in idOf
    ensures |CpuSetIds(boolMask, idOf)| == Count(boolMask, true)
  {
    if |boolMask| > 0 {
      var n := |boolMask| - 1;
      var front := boolMask[..n];
      CpuSetIdsOnePerProcessor(front, idOf);
      CountSnoc(front, boolMask[n], true);
      assert front + [boolMask[n]] == boolMask;
    }
  }

  /** The loop of ApplyCpuSet that collects the ids. */
  method CollectCpuSetIds(boolMask: seq<bool>, idOf: map<nat, nat>) returns (ids: seq<nat>)
    ensures ids == CpuSetIds(boolMask, idOf)
  {
    ids := [];
    var i := 0;
    while i < |boolMask|
      invariant i <= |boolMask|
      invariant ids == CpuSetIds(boolMask[..i], idOf)
    {
      assert boolMask[..i + 1][..i] == boolMask[..i];
      if boolMask[i] && i in idOf {
        ids := ids + [idOf[i]];
      }
      i := i + 1;
    }
    assert boolMask[..i] == boolMask;
  }

  /** The affinity loop of ApplyAffinity: bit i is set for every enabled entry i of the mask. */
  method AccumulateAffinity(boolMask: seq<bool>) returns (bitMask: bv64)
    ensures bitMask == FromBools(boolMask)
  {
    bitMask := 0;
    var i := 0;
    while i < |boolMask|
      invariant i <= |boolMask|
      invariant bitMask == FromBools(boolMask[..i])
    {
      assert boolMask[..i + 1][..i] == boolMask[..i] && boolMask[..i + 1][i] == boolMask[i];
      FromBoolsUnfold(boolMask[..i + 1]);
      if boolMask[i] {
        bitMask := bitMask | Bit(i);
      }
      i := i + 1;
    }
    assert boolMask[..i] == boolMask;
  }

  /** The word that clears an affinity: every logical processor of the system enabled. */
  function AllProcessors(count: nat): seq<bool>
  {
    seq(count, _ => true)
  }

  /** The clearing loop of ApplyAffinity: one bit per logical processor of the system. */
  method AccumulateAllProcessors(count: nat) returns (allMask: bv64)
    ensures allMask == FromBools(AllProcessors(count))
  {
    allMask := 0;
    var i := 0;
    while i < count
      invariant i <= count
      invariant allMask == FromBools(AllProcessors(i))
    {
      assert AllProcessors(i + 1)[..i] == AllProcessors(i);
      allMask := allMask | Bit(i);
      i := i + 1;
    }
  }

  /** For up to 64 processors, the clearing word has exactly bits 0..count-1 set. */
  lemma AllProcessorsBits(count: nat, i: nat)
    requires count <= 64 && i < 64
    ensures HasBit(FromBools(AllProcessors(count)), i) <==> i < count
  {
    FromBoolsHasBit(AllProcessors(count), i);
  }

  /** For a mask of up to 64 entries, bit i of the affinity word is set exactly when entry i is enabled. */
  lemma AffinityBits(boolMask: seq<bool>, i: nat)
    requires |boolMask| <= 64 && i < 64
    ensures HasBit(FromBools(boolMask), i) <==> i < |boolMask| && boolMask[i]
  {
    FromBoolsHasBit(boolMask, i);
  }

  // ---------------------------------------------------------------------------------------------
  // Lazily opened handles

  /**
   * The calls made through a lazily opened handle for one apply: OpenProcess when the handle
   * has not been opened yet, then the call itself if the handle is (or has just become) valid.
   * A handle that was opened and found invalid makes no call at all: it is never retried.
   */
  function CallsThrough(access: Access, handle: Option<bool>, call: ApiCall, succeeds: ApiCall -> bool): seq<ApiCall>
  {
    if handle.None? then [OpenProcess(access)] + (if succeeds(OpenProcess(access)) then [call] else [])
    else if handle.value then [call]
    else []
  }

  /** The handle after one apply: opened if it was not, unchanged otherwise. */
  function Opened(access: Access, handle: Option<bool>, succeeds: ApiCall -> bool): (h: Option<bool>)
    ensures h.Some?
    ensures handle.Some? ==> h == handle
  {
    if handle.None? then Some(succeeds(OpenProcess(access))) else handle
  }

  /**
   * An apply through a handle opens it at most once, makes the call exactly when the handle is
   * valid afterwards, and after an invalid handle makes no call and leaves the handle invalid.
   */
  lemma CallsThroughSpec(access: Access, handle: Option<bool>, call: ApiCall, succeeds: ApiCall -> bool)
    requires !call.OpenProcess?
    ensures Count(CallsThrough(access, handle, call, succeeds), OpenProcess(access)) == (if handle.None? then 1 else 0)
    ensures call in CallsThrough(access, handle, call, succeeds) <==> Opened(access, handle, succeeds) == Some(true)
    ensures handle == Some(false) ==>
      CallsThrough(access, handle, call, succeeds) == [] && Opened(access, handle, succeeds) == Some(false)
  {
    var calls := CallsThrough(access, handle, call, succeeds);
    assert Count([call], OpenProcess(access)) == 0 by {
      assert [call][1..] == [];
    }
    if handle.None? {
      assert calls[1..] == (if succeeds(OpenProcess(access)) then [call] else []);
    }
  }

  // ---------------------------------------------------------------------------------------------
  // The CPU Set id of each logical processor

  /** One SYSTEM_CPU_SET_INFORMATION record of GetSystemCpuSetInformation's buffer. */
  datatype CpuSetInformation = CpuSetInformation(isCpuSetInformation: bool, logicalProcessorIndex: nat, id: nat)

  /**
   * GetCpuSetIdPerLogicalProcessor over the records in buffer order: a record of another type
   * aborts with InvalidCast, and a second record for the same logical processor makes
   * Dictionary.Add throw an ArgumentException.
   */
  function CpuSetIdMap(items: seq<CpuSetInformation>): (r: Result<map<nat, nat>>)
  {
    if |items| == 0 then Ok(map[])
    else
      var n := |items| - 1;
      var front := CpuSetIdMap(items[..n]);
      if front.Err? then front
      else if !items[n].isCpuSetInformation then Err(InvalidCast)
      else if items[n].logicalProcessorIndex in front.value then Err(Argument)
      else Ok(front.value[items[n].logicalProcessorIndex := items[n].id])
  }

  /** Every record is a CPU Set record and no two are for the same logical processor. */
  predicate WellFormedCpuSets(items: seq<CpuSetInformation>)
  {
    && (forall k :: 0 <= k < |items| ==> items[k].isCpuSetInformation)
    && (forall j, k :: 0 <= j < k < |items| ==> items[j].logicalProcessorIndex != items[k].logicalProcessorIndex)
  }

  /**
   * The map is built exactly for well-formed records, and then it maps each record's logical
   * processor to that record's id and has no other keys.
   */
  lemma {:induction false} CpuSetIdMapSpec(items: seq<CpuSetInformation>)
    ensures CpuSetIdMap(items).Ok? <==> WellFormedCpuSets(items)
    ensures CpuSetIdMap(items).Ok? ==>
      && (forall k :: 0 <= k < |items| ==>
            items[k].logicalProcessorIndex in CpuSetIdMap(items).value
            && CpuSetIdMap(items).value[items[k].logicalProcessorIndex] == items[k].id)
      && (forall i :: i in CpuSetIdMap(items).value ==> exists k :: 0 <= k < |items| && items[k].logicalProcessorIndex == i)
  {
    if |items| > 0 {
      var n := |items| - 1;
      var front := items[..n];
      CpuSetIdMapSpec(front);
      assert forall k :: 0 <= k < n ==> front[k] == items[k];
      var m := CpuSetIdMap(front);
      if m.Ok? && items[n].isCpuSetInformation && items[n].logicalProcessorIndex in m.value {
        var k :| 0 <= k < n && front[k].logicalProcessorIndex == items[n].logicalProcessorIndex;
        assert !WellFormedCpuSets(items) by {
          assert items[k].logicalProcessorIndex == items[n].logicalProcessorIndex;
        }
      }
      if m.Ok? && items[n].isCpuSetInformation && items[n].logicalProcessorIndex !in m.value {
        assert WellFormedCpuSets(items) by {
          forall j | 0 <= j < n
            ensures items[j].logicalProcessorIndex != items[n].logicalProcessorIndex
          {
            assert front[j].logicalProcessorIndex in m.value;
          }
        }
      }
    }
  }

  /** The record loop of GetCpuSetIdPerLogicalProcessor. */
  method GetCpuSetIdPerLogicalProcessor(items: seq<CpuSetInformation>) returns (r: Result<map<nat, nat>>)
    ensures r == CpuSetIdMap(items)
  {
    var cpuSets: map<nat, nat> := map[];
    var i := 0;
    while i < |items|
      invariant i <= |items|
      invariant CpuSetIdMap(items[..i]) == Ok(cpuSets)
    {
      assert items[..i + 1][..i] == items[..i];
      var item := items[i];
      if !item.isCpuSetInformation {
        CpuSetIdMapFails(items, i + 1, Err(InvalidCast));
        return Err(InvalidCast);
      }
      if item.logicalProcessorIndex in cpuSets {
        CpuSetIdMapFails(items, i + 1, Err(Argument));
        return Err(Argument);
      }
      cpuSets := cpuSets[item.logicalProcessorIndex := item.id];
      i := i + 1;
    }
    assert items[..i] == items;
    return Ok(cpuSets);
  }

  /** Once the records up to k fail, so do all of them: the loop stops at the first bad record. */
  lemma {:induction false} CpuSetIdMapFails(items: seq<CpuSetInformation>, k: nat, e: Result<map<nat, nat>>)
    requires k <= |items| && e.Err? && CpuSetIdMap(items[..k]) == e
    ensures CpuSetIdMap(items) == e
    decreases |items| - k
  {
    if k < |items| {
      assert items[..k + 1][..k] == items[..k];
      CpuSetIdMapFails(items, k + 1, e);
    } else {
      assert items[..k] == items;
    }
  }

  // ---------------------------------------------------------------------------------------------
  // The CPU-time moving window

  const TicksPerSecond: int := 10_000_000
  const TwoTo63: int := 0x8000_0000_0000_0000

  /** A datapoint is dropped once it is more than 30 seconds old. */
  const MaxDatapointAge: int := 30 * TicksPerSecond

  /** A sample of the process's total CPU time, both in 100-nanosecond ticks. */
  datatype CpuTimeTimestamp = CpuTimeTimestamp(timestamp: int, totalCpuTime: int)

  /**
   * GetAverageCpuUsage's result: -1, 0, or the ratio cpuTicks / wallTicks / LogicalProcessorCount,
   * which is kept as its two tick counts.
   */
  datatype CpuUsage = Unavailable | Idle | Busy(cpuTicks: int, wallTicks: int)

  /** `(now - d.Timestamp).TotalSeconds > maxAge`, with the age in ticks. */
  predicate IsStale(d: CpuTimeTimestamp, now: int, maxAge: int)
  {
    now - d.timestamp > maxAge
  }

  /** The window after the eviction loop: the front datapoints are dropped while they are stale. */
  function Evicted(buffer: seq<CpuTimeTimestamp>, now: int, maxAge: int): (r: seq<CpuTimeTimestamp>)
    ensures |r| <= |buffer|
  {
    if |buffer| > 0 && IsStale(buffer[0], now, maxAge) then Evicted(buffer[1..], now, maxAge) else buffer
  }

  /** Eviction drops only stale datapoints, and stops at the first datapoint that is not stale. */
  lemma {:induction false} EvictedSpec(buffer: seq<CpuTimeTimestamp>, now: int, maxAge: int)
    ensures Evicted(buffer, now, maxAge) == buffer[|buffer| - |Evicted(buffer, now, maxAge)|..]
    ensures forall i :: 0 <= i < |buffer| - |Evicted(buffer, now, maxAge)| ==> IsStale(buffer[i], now, maxAge)
    ensures |Evicted(buffer, now, maxAge)| > 0 ==> !IsStale(Evicted(buffer, now, maxAge)[0], now, maxAge)
  {
    if |buffer| > 0 && IsStale(buffer[0], now, maxAge) {
      EvictedSpec(buffer[1..], now, maxAge);
      forall i | 1 <= i < |buffer| - |Evicted(buffer, now, maxAge)|
        ensures IsStale(buffer[i], now, maxAge)
      {
        assert buffer[i] == buffer[1..][i - 1];
      }
    }
  }

  /** The datapoints are in timestamp order. */
  predicate InTimeOrder(buffer: seq<CpuTimeTimestamp>)
  {
    forall i, j :: 0 <= i < j < |buffer| ==> buffer[i].timestamp <= buffer[j].timestamp
  }

  /**
   * In a window in timestamp order, eviction drops exactly the stale datapoints, and enqueueing
   * a sample taken no earlier than every datapoint keeps the window in timestamp order.
   */
  lemma EvictedInTimeOrder(buffer: seq<CpuTimeTimestamp>, now: int, maxAge: int, totalCpuTime: int)
    requires InTimeOrder(buffer)
    ensures forall i :: 0 <= i < |Evicted(buffer, now, maxAge)| ==> !IsStale(Evicted(buffer, now, maxAge)[i], now, maxAge)
    ensures InTimeOrder(Evicted(buffer, now, maxAge))
    ensures (forall i :: 0 <= i < |buffer| ==> buffer[i].timestamp <= now) ==>
      InTimeOrder(Evicted(buffer, now, maxAge) + [CpuTimeTimestamp(now, totalCpuTime)])
  {
    EvictedSpec(buffer, now, maxAge);
    var kept := Evicted(buffer, now, maxAge);
    var d := |buffer| - |kept|;
    forall i | 0 <= i < |kept|
      ensures !IsStale(kept[i], now, maxAge)
    {
      assert kept[i] == buffer[d + i] && kept[0] == buffer[d];
    }
  }

  /**
   * `(long)(kernelTime.ULong + userTime.ULong)`: the unchecked 64-bit sum of the two
   * FILETIME values, reinterpreted as a signed tick count.
   */
  function TotalCpuTicks(kernelTime: FileTime, userTime: FileTime): (t: int)
    ensures -TwoTo63 <= t < TwoTo63
  {
    var sum := (ULong(kernelTime) + ULong(userTime)) % TwoTo64;
    if sum >= TwoTo63 then sum - TwoTo64 else sum
  }

  /** For CPU times below 2^63 ticks in total (some 29 000 years), the tick count is the exact sum. */
  lemma TotalCpuTicksExact(kernelTime: FileTime, userTime: FileTime)
    requires ULong(kernelTime) + ULong(userTime) < TwoTo63
    ensures TotalCpuTicks(kernelTime, userTime) == ULong(kernelTime) + ULong(userTime)
  {
  }

  // ---------------------------------------------------------------------------------------------
  // The handler

  class ProcessHandler {
    const executableName: string
    const pid: nat
    /** Whether the query handle the process list opened for this process is invalid. */
    const queryHandleIsInvalid: bool
    /** The static `_setIdPerLogicalProcessor` dictionary. */
    const setIdPerLogicalProcessor: map<nat, nat>
    /** CpuInfo.LogicalProcessorCount. */
    const logicalProcessorCount: nat
    /** Whether OpenProcess gives a valid handle, and whether a Set call returns true. */
    const succeeds: ApiCall -> bool

    /** `_setLimitedInfoHandle`, `_setInfoHandle`: None while not opened, else whether the handle is valid. */
    var setLimitedInfoHandle: Option<bool>
    var setInfoHandle: Option<bool>
    var previousMaskType: MaskApplyType
    var cpuTimeBuffer: seq<CpuTimeTimestamp>
    /** The Win32 calls made so far. */
    var apiCalls: seq<ApiCall>
    var disposed: bool

    constructor (executableName: string, pid: nat, queryHandleIsInvalid: bool, setIdPerLogicalProcessor: map<nat, nat>,
                 logicalProcessorCount: nat, succeeds: ApiCall -> bool)
      ensures this.executableName == executableName && this.pid == pid
      ensures this.queryHandleIsInvalid == queryHandleIsInvalid
      ensures this.setIdPerLogicalProcessor == setIdPerLogicalProcessor
      ensures this.logicalProcessorCount == logicalProcessorCount && this.succeeds == succeeds
      ensures setLimitedInfoHandle.None? && setInfoHandle.None?
      ensures previousMaskType == MaskApplyType.NoMask
      ensures cpuTimeBuffer == [] && apiCalls == [] && !disposed
      ensures Valid()
    {
      this.executableName := executableName;
      this.pid := pid;
      this.queryHandleIsInvalid := queryHandleIsInvalid;
      this.setIdPerLogicalProcessor := setIdPerLogicalProcessor;
      this.logicalProcessorCount := logicalProcessorCount;
      this.succeeds := succeeds;
      setLimitedInfoHandle := None;
      setInfoHandle := None;
      previousMaskType := MaskApplyType.NoMask;
      cpuTimeBuffer := [];
      apiCalls := [];
      disposed := false;
    }

    /**
     * Each set-handle was opened at most once, and exactly once if it is there; a CPU Set call
     * or an affinity call was only ever made through a valid handle.
     */
    ghost predicate Valid()
      reads this
    {
      && OpenedOnce(SetLimitedInformation, setLimitedInfoHandle)
      && OpenedOnce(SetInformation, setInfoHandle)
      && (forall k :: 0 <= k < |apiCalls| && (apiCalls[k].ClearCpuSets? || apiCalls[k].SetCpuSets?) ==>
            setLimitedInfoHandle == Some(true))
      && (forall k :: 0 <= k < |apiCalls| && apiCalls[k].SetAffinity? ==> setInfoHandle == Some(true))
    }

    ghost predicate OpenedOnce(access: Access, handle: Option<bool>)
      reads this
    {
      && Count(apiCalls, OpenProcess(access)) == (if handle.Some? then 1 else 0)
      && (handle.Some? ==> handle.value == succeeds(OpenProcess(access)))
    }

    /** The call ApplyCpuSet makes for the mask once it has a valid handle. */
    function CpuSetCall(mask: LogicalProcessorMask): ApiCall
    {
      if mask.maskType == MaskApplyType.NoMask then ClearCpuSets
      else SetCpuSets(CpuSetIds(mask.boolMask, setIdPerLogicalProcessor))
    }

    /** The call ApplyAffinity makes for the mask once it has a valid handle. */
    function AffinityCall(mask: LogicalProcessorMask): ApiCall
    {
      if mask.maskType == MaskApplyType.NoMask then SetAffinity(FromBools(AllProcessors(logicalProcessorCount)))
      else SetAffinity(FromBools(mask.boolMask))
    }

    /** The CPU Set call of ApplyCpuSet: ClearCpuSets for NoMask, else the IDs the bool mask selects. */
    method CpuSetCallFor(mask: LogicalProcessorMask) returns (call: ApiCall)
      ensures call == CpuSetCall(mask)
    {
      if mask.maskType == MaskApplyType.NoMask {
        call := ClearCpuSets;
      } else {
        var ids := CollectCpuSetIds(mask.boolMask, setIdPerLogicalProcessor);
        call := SetCpuSets(ids);
      }
    }

    /** The affinity call of ApplyAffinity: every processor for NoMask, else the bool mask as a word. */
    method AffinityCallFor(mask: LogicalProcessorMask) returns (call: ApiCall)
      ensures call == AffinityCall(mask)
    {
      var bitMask;
      if mask.maskType == MaskApplyType.NoMask {
        bitMask := AccumulateAllProcessors(logicalProcessorCount);
      } else {
        bitMask := AccumulateAffinity(mask.boolMask);
      }
      call := SetAffinity(bitMask);
    }

    /** ApplyCpuSet: through the lazily opened PROCESS_SET_LIMITED_INFORMATION handle. */
    method ApplyCpuSet(mask: LogicalProcessorMask) returns (ok: bool)
      requires Valid()
      modifies this`apiCalls, this`setLimitedInfoHandle
      ensures Valid()
      ensures setLimitedInfoHandle == Opened(SetLimitedInformation, old(setLimitedInfoHandle), succeeds)
      ensures apiCalls == old(apiCalls) + CallsThrough(SetLimitedInformation, old(setLimitedInfoHandle), CpuSetCall(mask), succeeds)
      ensures ok <==> setLimitedInfoHandle == Some(true) && succeeds(CpuSetCall(mask))
      ensures setInfoHandle == old(setInfoHandle) && previousMaskType == old(previousMaskType)
      ensures cpuTimeBuffer == old(cpuTimeBuffer) && disposed == old(disposed)
    {
      CallsThroughSpec(SetLimitedInformation, setLimitedInfoHandle, CpuSetCall(mask), succeeds);
      if setLimitedInfoHandle.None? {
        CountSnoc(apiCalls, OpenProcess(SetLimitedInformation), OpenProcess(SetLimitedInformation));
        CountSnoc(apiCalls, OpenProcess(SetLimitedInformation), OpenProcess(SetInformation));
        apiCalls := apiCalls + [OpenProcess(SetLimitedInformation)];
        setLimitedInfoHandle := Some(succeeds(OpenProcess(SetLimitedInformation)));
        if !setLimitedInfoHandle.value {
          return false;
        }
      } else if !setLimitedInfoHandle.value {
        return false;
      }
      var call := CpuSetCallFor(mask);
      CountSnoc(apiCalls, call, OpenProcess(SetLimitedInformation));
      CountSnoc(apiCalls, call, OpenProcess(SetInformation));
      apiCalls := apiCalls + [call];
      ok := succeeds(call);
    }

    /** ApplyAffinity: through the lazily opened PROCESS_SET_INFORMATION handle. */
    method ApplyAffinity(mask: LogicalProcessorMask) returns (ok: bool)
      requires Valid()
      modifies this`apiCalls, this`setInfoHandle
      ensures Valid()
      ensures setInfoHandle == Opened(SetInformation, old(setInfoHandle), succeeds)
      ensures apiCalls == old(apiCalls) + CallsThrough(SetInformation, old(setInfoHandle), AffinityCall(mask), succeeds)
      ensures ok <==> setInfoHandle == Some(true) && succeeds(AffinityCall(mask))
      ensures setLimitedInfoHandle == old(setLimitedInfoHandle) && previousMaskType == old(previousMaskType)
      ensures cpuTimeBuffer == old(cpuTimeBuffer) && disposed == old(disposed)
    {
      CallsThroughSpec(SetInformation, setInfoHandle, AffinityCall(mask), succeeds);
      if setInfoHandle.None? {
        CountSnoc(apiCalls, OpenProcess(SetInformation), OpenProcess(SetLimitedInformation));
        CountSnoc(apiCalls, OpenProcess(SetInformation), OpenProcess(SetInformation));
        apiCalls := apiCalls + [OpenProcess(SetInformation)];
        setInfoHandle := Some(succeeds(OpenProcess(SetInformation)));
      }
      if !setInfoHandle.value {
        return false;
      }
      var call := AffinityCallFor(mask);
      CountSnoc(apiCalls, call, OpenProcess(SetLimitedInformation));
      CountSnoc(apiCalls, call, OpenProcess(SetInformation));
      apiCalls := apiCalls + [call];
      ok := succeeds(call);
    }

    /**
     * ApplyMask. A CPU Set mask first clears an affinity applied before it, and an affinity mask
     * first clears a CPU Set applied before it; NoMask clears whichever kind was applied last, and
     * throws NotImplemented when none was. The result is that of the last apply, and the previous
     * mask type becomes the mask's type whenever ApplyMask returns normally.
     */
    method ApplyMask(mask: LogicalProcessorMask) returns (r: Result<bool>)
      requires Valid()
      modifies this
      ensures Valid()
      ensures r.Err? <==> mask.maskType == MaskApplyType.NoMask && old(previousMaskType) == MaskApplyType.NoMask
      ensures r.Err? ==> r.failure == NotImplemented && unchanged(this)
      ensures r.Ok? ==> previousMaskType == mask.maskType
      ensures cpuTimeBuffer == old(cpuTimeBuffer) && disposed == old(disposed)
      ensures r.Ok? && mask.maskType == MaskApplyType.NoMask ==> ClearedPrevious(mask, r.value)
      ensures mask.maskType == MaskApplyType.CPUSet ==> r.Ok? && SwitchedToCpuSet(mask, r.value)
      ensures mask.maskType == MaskApplyType.Affinity ==> r.Ok? && SwitchedToAffinity(mask, r.value)
    {
      var result: bool;
      match mask.maskType {
        case NoMask =>
          if previousMaskType == MaskApplyType.NoMask {
            return Err(NotImplemented);
          }
          result := ClearPrevious(mask);
        case CPUSet =>
          result := SwitchToCpuSet(mask);
        case Affinity =>
          result := SwitchToAffinity(mask);
      }
      return Ok(result);
    }

    /**
     * NoMask after a CPU Set clears the CPU Set, and NoMask after an affinity resets the affinity
     * to every logical processor; the other handle is left alone and the result is that of the clear.
     */
    twostate predicate ClearedPrevious(mask: LogicalProcessorMask, result: bool)
      reads this
    {
      && (old(previousMaskType) == MaskApplyType.CPUSet ==>
            && setLimitedInfoHandle == Opened(SetLimitedInformation, old(setLimitedInfoHandle), succeeds)
            && setInfoHandle == old(setInfoHandle)
            && apiCalls == old(apiCalls) + CallsThrough(SetLimitedInformation, old(setLimitedInfoHandle), ClearCpuSets, succeeds)
            && result == (setLimitedInfoHandle == Some(true) && succeeds(ClearCpuSets)))
      && (old(previousMaskType) == MaskApplyType.Affinity ==>
            && setInfoHandle == Opened(SetInformation, old(setInfoHandle), succeeds)
            && setLimitedInfoHandle == old(setLimitedInfoHandle)
            && apiCalls == old(apiCalls) + CallsThrough(SetInformation, old(setInfoHandle), AffinityCall(mask), succeeds)
            && result == (setInfoHandle == Some(true) && succeeds(AffinityCall(mask))))
    }

    /**
     * A CPU Set after an affinity first resets the affinity to every logical processor, then
     * applies the CPU Set; the result is that of the CPU Set alone.
     */
    twostate predicate SwitchedToCpuSet(mask: LogicalProcessorMask, result: bool)
      reads this
    {
      && setLimitedInfoHandle == Opened(SetLimitedInformation, old(setLimitedInfoHandle), succeeds)
      && setInfoHandle ==
           (if old(previousMaskType) == MaskApplyType.Affinity then Opened(SetInformation, old(setInfoHandle), succeeds)
            else old(setInfoHandle))
      && apiCalls == old(apiCalls)
           + (if old(previousMaskType) == MaskApplyType.Affinity
              then CallsThrough(SetInformation, old(setInfoHandle), AffinityCall(InitNoMask([])), succeeds) else [])
           + CallsThrough(SetLimitedInformation, old(setLimitedInfoHandle), CpuSetCall(mask), succeeds)
      && result == (setLimitedInfoHandle == Some(true) && succeeds(CpuSetCall(mask)))
    }

    /**
     * An affinity after a CPU Set first clears the CPU Set, then applies the affinity; the
     * result is that of the affinity alone.
     */
    twostate predicate SwitchedToAffinity(mask: LogicalProcessorMask, result: bool)
      reads this
    {
      && setInfoHandle == Opened(SetInformation, old(setInfoHandle), succeeds)
      && setLimitedInfoHandle ==
           (if old(previousMaskType) == MaskApplyType.CPUSet then Opened(SetLimitedInformation, old(setLimitedInfoHandle), succeeds)
            else old(setLimitedInfoHandle))
      && apiCalls == old(apiCalls)
           + (if old(previousMaskType) == MaskApplyType.CPUSet
              then CallsThrough(SetLimitedInformation, old(setLimitedInfoHandle), ClearCpuSets, succeeds) else [])
           + CallsThrough(SetInformation, old(setInfoHandle), AffinityCall(mask), succeeds)
      && result == (setInfoHandle == Some(true) && succeeds(AffinityCall(mask)))
    }

    /** The NoMask branch of ApplyMask: clear the kind of mask applied last. */
    method ClearPrevious(mask: LogicalProcessorMask) returns (result: bool)
      requires Valid() && mask.maskType == MaskApplyType.NoMask && previousMaskType != MaskApplyType.NoMask
      modifies this
      ensures Valid()
      ensures previousMaskType == mask.maskType && cpuTimeBuffer == old(cpuTimeBuffer) && disposed == old(disposed)
      ensures ClearedPrevious(mask, result)
    {
      var previous := previousMaskType;
      previousMaskType := mask.maskType;
      if previous == MaskApplyType.CPUSet {
        result := ApplyCpuSet(mask);
      } else {
        result := ApplyAffinity(mask);
      }
    }

    /** The CPUSet branch of ApplyMask. */
    method SwitchToCpuSet(mask: LogicalProcessorMask) returns (result: bool)
      requires Valid() && mask.maskType == MaskApplyType.CPUSet
      modifies this
      ensures Valid()
      ensures previousMaskType == mask.maskType && cpuTimeBuffer == old(cpuTimeBuffer) && disposed == old(disposed)
      ensures SwitchedToCpuSet(mask, result)
    {
      var previous := previousMaskType;
      previousMaskType := mask.maskType;
      if previous == MaskApplyType.Affinity {
        var _ := ApplyAffinity(InitNoMask([]));
      }
      result := ApplyCpuSet(mask);
    }

    /** The Affinity branch of ApplyMask. */
    method SwitchToAffinity(mask: LogicalProcessorMask) returns (result: bool)
      requires Valid() && mask.maskType == MaskApplyType.Affinity
      modifies this
      ensures Valid()
      ensures previousMaskType == mask.maskType && cpuTimeBuffer == old(cpuTimeBuffer) && disposed == old(disposed)
      ensures SwitchedToAffinity(mask, result)
    {
      var previous := previousMaskType;
      previousMaskType := mask.maskType;
      if previous == MaskApplyType.CPUSet {
        var _ := ApplyCpuSet(InitNoMask([]));
      }
      result := ApplyAffinity(mask);
    }

    /**
     * GetAverageCpuUsage at time `now`, with `times` the (kernel, user) CPU times GetProcessTimes
     * reports, or None when it fails. An invalid query handle gives -1 and leaves the window alone;
     * otherwise the stale datapoints are evicted first, then a failed query gives -1, and a
     * successful one enqueues the new sample and compares it with the oldest one left.
     */
    method GetAverageCpuUsage(now: int, times: Option<(FileTime, FileTime)>) returns (usage: CpuUsage)
      modifies this
      ensures queryHandleIsInvalid ==> usage == Unavailable && cpuTimeBuffer == old(cpuTimeBuffer)
      ensures !queryHandleIsInvalid && times.None? ==> usage == Unavailable && cpuTimeBuffer == Evicted(old(cpuTimeBuffer), now, MaxDatapointAge)
      ensures !queryHandleIsInvalid && times.Some? ==>
        var total := TotalCpuTicks(times.value.0, times.value.1);
        var window := Evicted(old(cpuTimeBuffer), now, MaxDatapointAge) + [CpuTimeTimestamp(now, total)];
        && cpuTimeBuffer == window
        && usage == (if total == window[0].totalCpuTime then Idle
                     else Busy(total - window[0].totalCpuTime, now - window[0].timestamp))
      ensures old(InTimeOrder(cpuTimeBuffer)) && (forall i :: 0 <= i < |old(cpuTimeBuffer)| ==> old(cpuTimeBuffer)[i].timestamp <= now)
        ==> InTimeOrder(cpuTimeBuffer)
      ensures setLimitedInfoHandle == old(setLimitedInfoHandle) && setInfoHandle == old(setInfoHandle)
      ensures previousMaskType == old(previousMaskType) && apiCalls == old(apiCalls) && disposed == old(disposed)
    {
      if queryHandleIsInvalid {
        return Unavailable;
      }
      var buffer := cpuTimeBuffer;
      while |buffer| > 0
        invariant Evicted(buffer, now, MaxDatapointAge) == Evicted(cpuTimeBuffer, now, MaxDatapointAge)
        decreases |buffer|
      {
        if IsStale(buffer[0], now, MaxDatapointAge) {
          buffer := buffer[1..];
        } else {
          break;
        }
      }
      var totalCpuTime := if times.Some? then TotalCpuTicks(times.value.0, times.value.1) else 0;
      if InTimeOrder(cpuTimeBuffer) {
        EvictedInTimeOrder(cpuTimeBuffer, now, MaxDatapointAge, totalCpuTime);
      }
      if times.None? {
        cpuTimeBuffer := buffer;
        return Unavailable;
      }
      cpuTimeBuffer := buffer + [CpuTimeTimestamp(now, totalCpuTime)];
      var startDatapoint := cpuTimeBuffer[0];
      var deltaTime := now - startDatapoint.timestamp;
      var deltaCpuTime := totalCpuTime - startDatapoint.totalCpuTime;
      if deltaCpuTime == 0 {
        return Idle;
      }
      return Busy(deltaCpuTime, deltaTime);
    }

    /** Dispose: the handles are closed and the window is emptied. */
    method Dispose()
      modifies this
      ensures disposed && cpuTimeBuffer == []
      ensures setLimitedInfoHandle == old(setLimitedInfoHandle) && setInfoHandle == old(setInfoHandle)
      ensures previousMaskType == old(previousMaskType) && apiCalls == old(apiCalls)
    {
      disposed := true;
      cpuTimeBuffer := [];
    }
  }
}
