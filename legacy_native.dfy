/**
 * The Win32 calls of the older generation's CPUSet.ApplyToProcess, in both the CPUSetSetter and
 * the CPUSetSetter.UI copies: OpenProcess with PROCESS_SET_LIMITED_INFORMATION and
 * SetProcessDefaultCpuSetMasks. The operating system is seen through the calls it receives and
 * an oracle that says whether the n-th call succeeds.
 */
module LegacyNative {
  import opened Common

  /** GROUP_AFFINITY: a processor group and a 64-bit mask of processors in it. */
  datatype GroupAffinity = GroupAffinity(group: nat, mask: bv64)

  datatype ApiCall =
    | OpenProcess(pid: nat)                                   // OpenProcess(PROCESS_SET_LIMITED_INFORMATION, false, pid)
    | ClearCpuSetMasks(pid: nat)                              // SetProcessDefaultCpuSetMasks(handle, null, 0)
    | SetCpuSetMasks(pid: nat, affinity: seq<GroupAffinity>)  // SetProcessDefaultCpuSetMasks(handle, affinity, |affinity|)

  /** The operating system: the calls made so far, and whether the n-th call succeeds. */
  class Os {
    var calls: seq<ApiCall>
    const succeeds: (nat, ApiCall) -> bool

    constructor (succeeds: (nat, ApiCall) -> bool)
      ensures calls == [] && this.succeeds == succeeds
    {
      calls := [];
      this.succeeds := succeeds;
    }

    /** Makes one call: a valid handle for OpenProcess, true for SetProcessDefaultCpuSetMasks. */
    method Call(c: ApiCall) returns (ok: bool)
      modifies this`calls
      ensures calls == old(calls) + [c]
      ensures ok == succeeds(|old(calls)|, c)
    {
      ok := succeeds(|calls|, c);
      calls := calls + [c];
    }
  }

  /**
   * A process entry's handle: None while it has not been opened (null), Some(valid) afterwards.
   * After an apply it is opened if it was not, and unchanged otherwise.
   */
  function Opened(handle: Option<bool>, pid: nat, succeeds: (nat, ApiCall) -> bool, n: nat): (h: Option<bool>)
    ensures h.Some?
    ensures handle.Some? ==> h == handle
  {
    if handle.None? then Some(succeeds(n, OpenProcess(pid))) else handle
  }

  /**
   * The calls one apply makes, the n-th call of the system being the first: OpenProcess when the
   * handle is null, then the Set call when the handle is (or has just become) valid.
   */
  function CallsThrough(handle: Option<bool>, pid: nat, call: ApiCall, succeeds: (nat, ApiCall) -> bool, n: nat): seq<ApiCall>
  {
    if handle.None? then [OpenProcess(pid)] + (if succeeds(n, OpenProcess(pid)) then [call] else [])
    else if handle.value then [call]
    else []
  }

  /**
   * An apply opens the handle only when it is null, makes the Set call exactly when the handle
   * is valid afterwards, and after a handle found invalid makes no call at all: no retry.
   */
  lemma CallsThroughSpec(handle: Option<bool>, pid: nat, call: ApiCall, succeeds: (nat, ApiCall) -> bool, n: nat)
    requires !call.OpenProcess?
    ensures OpenProcess(pid) in CallsThrough(handle, pid, call, succeeds, n) <==> handle.None?
    ensures call in CallsThrough(handle, pid, call, succeeds, n) <==> Opened(handle, pid, succeeds, n) == Some(true)
    ensures handle == Some(false) ==> CallsThrough(handle, pid, call, succeeds, n) == [] && Opened(handle, pid, succeeds, n) == Some(false)
    ensures |CallsThrough(handle, pid, call, succeeds, n)| <= 2
  {
    var calls := CallsThrough(handle, pid, call, succeeds, n);
    if handle.None? {
      assert calls[0] == OpenProcess(pid);
    }
  }
}
