/**
 * ProcessesTabViewModel: the list of running processes, the foreground process, the mask hotkey
 * and the name filter of the Processes tab.
 *
 * The entries are given by value, by their process id, name and image path. Creating an entry
 * (ProcessListEntryViewModel), disposing it and applying a mask to it belong to other code. They
 * appear as the entries added, the list of disposed entries and the list of SetMask requests,
 * whose outcome is a parameter. The foreground window's process id is a parameter, and None
 * stands for no foreground window. The dispatcher, the polling loops and the per-core usage
 * counters are not modelled.
 */
module ProcessesTabViewModel {
  import opened Common
  import opened ConfigModels
  import opened PausableObservableCollection

  /** ProcessInfo as the tab uses it. */
  datatype ProcessInfo = ProcessInfo(pid: nat, name: string, imagePath: string)

  /** A row of the list, standing for its ProcessListEntryViewModel. */
  datatype ProcessEntry = ProcessEntry(pid: nat, name: string, imagePath: string)

  /** A call entry.SetMask(mask, updateRule) on a list entry. */
  datatype MaskRequest = MaskRequest(entry: ProcessEntry, mask: LogicalProcessorMask, updateRule: bool)

  /** The sounds of HotkeySoundPlayer. */
  datatype Sound = Cleared | Applied | Error

  function HasPid(pid: nat): ProcessEntry -> bool
  {
    (e: ProcessEntry) => e.pid == pid
  }

  function OtherPid(pid: nat): ProcessEntry -> bool
  {
    (e: ProcessEntry) => e.pid != pid
  }

  /** No two entries share a process id. */
  predicate UniquePids(entries: seq<ProcessEntry>)
  {
    forall i, j :: 0 <= i < j < |entries| ==> entries[i].pid != entries[j].pid
  }

  /** RunningProcesses.Any(x => x.Pid == pid). */
  predicate AnyWithPid(entries: seq<ProcessEntry>, pid: nat)
  {
    exists i :: 0 <= i < |entries| && entries[i].pid == pid
  }

  /** The entries of a process id, the last one first: the order of the reverse removal loop. */
  function MatchesFromEnd(entries: seq<ProcessEntry>, pid: nat): (r: seq<ProcessEntry>)
    ensures forall e :: e in r <==> e in entries && e.pid == pid
    ensures |r| + |Filter(entries, OtherPid(pid))| == |entries|
  {
    if entries == [] then []
    else MatchesFromEnd(entries[1..], pid) + (if entries[0].pid == pid then [entries[0]] else [])
  }

  /** The Remove notifications of n removals. */
  function Removes(n: nat): (r: seq<CollectionAction>)
    ensures |r| == n && forall a :: a in r ==> a == Remove
  {
    if n == 0 then [] else Removes(n - 1) + [Remove]
  }

  /**
   * The values of the removal loop of OnExitedProcess once it has visited the entries from index
   * i on: those of the process id are removed, disposed last first, and announced.
   */
  ghost predicate RemovedFromValues(items: seq<ProcessEntry>, disposed: seq<ProcessEntry>,
                                    notifications: seq<CollectionAction>, suppress: bool,
                                    all: seq<ProcessEntry>, i: nat, exitedPid: nat,
                                    disposed0: seq<ProcessEntry>, notified0: seq<CollectionAction>)
    requires i <= |all|
  {
    && items == all[..i] + Filter(all[i..], OtherPid(exitedPid))
    && disposed == disposed0 + MatchesFromEnd(all[i..], exitedPid)
    && notifications == notified0 + (if suppress then [] else Removes(|MatchesFromEnd(all[i..], exitedPid)|))
  }

  /** Disposing and removing entry i, which is of the process id, moves the loop state from i + 1 to i. */
  lemma DisposeStep(items: seq<ProcessEntry>, disposed: seq<ProcessEntry>, notifications: seq<CollectionAction>,
                    suppress: bool, all: seq<ProcessEntry>, i: nat, exitedPid: nat,
                    disposed0: seq<ProcessEntry>, notified0: seq<CollectionAction>)
    requires i < |all| && all[i].pid == exitedPid
    requires RemovedFromValues(items, disposed, notifications, suppress, all, i + 1, exitedPid, disposed0, notified0)
    ensures i < |items|
    ensures RemovedFromValues(items[..i] + items[i + 1..], disposed + [items[i]],
                              notifications + (if suppress then [] else [Remove]),
                              suppress, all, i, exitedPid, disposed0, notified0)
  {
    var matched := MatchesFromEnd(all[i + 1..], exitedPid);
    assert i < |items| && items[i] == all[i]
        && items[..i] + items[i + 1..] == all[..i] + Filter(all[i..], OtherPid(exitedPid)) by {
      ExitStep(all, i, exitedPid, items);
    }
    var now := MatchesFromEnd(all[i..], exitedPid);
    assert now == matched + [all[i]] by {
      assert all[i..][0] == all[i] && all[i..][1..] == all[i + 1..];
    }
    assert disposed + [items[i]] == disposed0 + now;
    assert Removes(|now|) == Removes(|matched|) + [Remove];
  }

  /** One step of the reverse removal loop, in terms of the list before it. */
  lemma ExitStep(all: seq<ProcessEntry>, i: nat, pid: nat, before: seq<ProcessEntry>)
    requires i < |all| && before == all[..i + 1] + Filter(all[i + 1..], OtherPid(pid))
    ensures i < |before| && before[i] == all[i]
    ensures all[i].pid == pid ==> before[..i] + before[i + 1..] == all[..i] + Filter(all[i..], OtherPid(pid))
    ensures all[i].pid != pid ==> before == all[..i] + Filter(all[i..], OtherPid(pid))
    ensures MatchesFromEnd(all[i..], pid) == MatchesFromEnd(all[i + 1..], pid) + (if all[i].pid == pid then [all[i]] else [])
  {
    assert all[i..][0] == all[i] && all[i..][1..] == all[i + 1..];
    var kept := Filter(all[i + 1..], OtherPid(pid));
    assert all[..i + 1] == all[..i] + [all[i]];
    assert before == all[..i] + ([all[i]] + kept);
    if all[i].pid == pid {
      assert before[..i] == all[..i] && before[i + 1..] == kept;
    }
  }

  /** The entry shown for FirstOrDefault(x => x.Pid == pid). */
  function FirstWithPid(entries: seq<ProcessEntry>, pid: nat): (r: Option<ProcessEntry>)
    ensures r.Some? <==> AnyWithPid(entries, pid)
    ensures r.Some? ==> r.value.pid == pid
    ensures r.Some? ==> exists i :: (0 <= i < |entries| && entries[i] == r.value
      && forall j :: 0 <= j < i ==> entries[j].pid != pid)
  {
    match FirstIndex(entries, HasPid(pid))
    case None => None
    case Some(i) => Some(entries[i])
  }

  /** The view's filter: an entry is shown when its name contains the filter text, ignoring case. */
  function Visible(entries: seq<ProcessEntry>, filter: string): (r: seq<ProcessEntry>)
    ensures forall e :: e in r <==> e in entries && ContainsIgnoreCase(e.name, filter)
  {
    Filter(entries, (e: ProcessEntry) => ContainsIgnoreCase(e.name, filter))
  }

  /** An empty filter shows every entry, in order. */
  lemma EmptyFilterShowsAll(entries: seq<ProcessEntry>)
    ensures Visible(entries, "") == entries
  {
    forall e | e in entries ensures ContainsIgnoreCase(e.name, "") {
      assert OccursAtIgnoreCase(e.name, "", 0);
    }
    FilterSame(entries, (e: ProcessEntry) => ContainsIgnoreCase(e.name, ""), (e: ProcessEntry) => true);
    FilterAll(entries);
  }

  /** Removing the entries of a process id keeps the ids of the others unique. */
  lemma {:induction false} FilterKeepsUniquePids(entries: seq<ProcessEntry>, pid: nat)
    requires UniquePids(entries)
    ensures UniquePids(Filter(entries, OtherPid(pid)))
    decreases |entries|
  {
    if entries != [] {
      var tail := entries[1..];
      assert UniquePids(tail) by {
        forall i, j | 0 <= i < j < |tail| ensures tail[i].pid != tail[j].pid {
          assert tail[i] == entries[i + 1] && tail[j] == entries[j + 1];
        }
      }
      FilterKeepsUniquePids(tail, pid);
      var rest := Filter(tail, OtherPid(pid));
      if entries[0].pid != pid {
        forall k | 0 <= k < |rest| ensures rest[k].pid != entries[0].pid {
          assert rest[k] in rest;
          var j :| 0 <= j < |tail| && tail[j] == rest[k];
          assert entries[j + 1] == tail[j];
        }
      }
    }
  }

  class ProcessesTab {
    const runningProcesses: PausableObservableCollection<ProcessEntry>
    var processNameFilter: string
    var currentForegroundProcess: Option<ProcessEntry>
    /** The entries whose Dispose was called, in order. */
    var disposed: seq<ProcessEntry>
    /** The SetMask calls of the hotkey, in order. */
    var maskRequests: seq<MaskRequest>
    var sounds: seq<Sound>

    constructor (runningProcesses: PausableObservableCollection<ProcessEntry>)
      ensures this.runningProcesses == runningProcesses
      ensures processNameFilter == "" && currentForegroundProcess == None
      ensures disposed == [] && maskRequests == [] && sounds == []
    {
      this.runningProcesses := runningProcesses;
      processNameFilter := "";
      currentForegroundProcess := None;
      disposed := [];
      maskRequests := [];
      sounds := [];
    }

    /** OnNewProcess: add an entry unless one with the process id is listed. */
    method OnNewProcess(pInfo: ProcessInfo)
      modifies runningProcesses
      ensures AnyWithPid(old(runningProcesses.items), pInfo.pid) ==> runningProcesses.items == old(runningProcesses.items)
      ensures !AnyWithPid(old(runningProcesses.items), pInfo.pid) ==>
        runningProcesses.items == old(runningProcesses.items) + [ProcessEntry(pInfo.pid, pInfo.name, pInfo.imagePath)]
      ensures UniquePids(old(runningProcesses.items)) ==> UniquePids(runningProcesses.items)
      ensures runningProcesses.suppressNotifications == old(runningProcesses.suppressNotifications)
      ensures runningProcesses.notifications == old(runningProcesses.notifications) +
        (if AnyWithPid(old(runningProcesses.items), pInfo.pid) || runningProcesses.suppressNotifications then [] else [CollectionAction.Add])
    {
      var present := PidListed(runningProcesses.items, pInfo.pid);
      if !present {
        runningProcesses.Add(ProcessEntry(pInfo.pid, pInfo.name, pInfo.imagePath));
      }
    }

    /** The Any(x => x.Pid == pid) scan. */
    static method PidListed(entries: seq<ProcessEntry>, pid: nat) returns (found: bool)
      ensures found <==> AnyWithPid(entries, pid)
    {
      found := false;
      var i := 0;
      while i < |entries| && !found
        invariant 0 <= i <= |entries|
        invariant found <==> exists j :: 0 <= j < i && entries[j].pid == pid
      {
        found := entries[i].pid == pid;
        i := i + 1;
      }
    }

    /** OnExitedProcess: from the end of the list, dispose and remove every entry of the process id. */
    method OnExitedProcess(exitedPid: nat)
      modifies this, runningProcesses
      ensures runningProcesses.items == Filter(old(runningProcesses.items), OtherPid(exitedPid))
      ensures disposed == old(disposed) + MatchesFromEnd(old(runningProcesses.items), exitedPid)
      ensures UniquePids(old(runningProcesses.items)) ==> UniquePids(runningProcesses.items)
      ensures runningProcesses.suppressNotifications == old(runningProcesses.suppressNotifications)
      ensures runningProcesses.suppressNotifications ==> runningProcesses.notifications == old(runningProcesses.notifications)
      ensures !runningProcesses.suppressNotifications ==>
        runningProcesses.notifications == old(runningProcesses.notifications) + Removes(|old(runningProcesses.items)| - |runningProcesses.items|)
      ensures processNameFilter == old(processNameFilter) && currentForegroundProcess == old(currentForegroundProcess)
      ensures maskRequests == old(maskRequests) && sounds == old(sounds)
    {
      ghost var all := runningProcesses.items;
      var i := |runningProcesses.items|;
      assert all[..i] == all;
      while i > 0
        invariant 0 <= i <= |all|
        invariant RemovedFrom(all, i, exitedPid, old(disposed), old(runningProcesses.notifications))
        invariant runningProcesses.suppressNotifications == old(runningProcesses.suppressNotifications)
        invariant processNameFilter == old(processNameFilter) && currentForegroundProcess == old(currentForegroundProcess)
        invariant maskRequests == old(maskRequests) && sounds == old(sounds)
      {
        i := i - 1;
        RemoveIfExited(i, exitedPid, all, old(disposed), old(runningProcesses.notifications));
      }
      assert all[0..] == all;
      if UniquePids(all) {
        FilterKeepsUniquePids(all, exitedPid);
      }
    }

    /**
     * The state of the removal loop of OnExitedProcess once it has visited the entries from index
     * i on: those of the process id are removed, disposed last first, and announced.
     */
    ghost predicate RemovedFrom(all: seq<ProcessEntry>, i: nat, exitedPid: nat,
                                disposed0: seq<ProcessEntry>, notified0: seq<CollectionAction>)
      reads this, runningProcesses
      requires i <= |all|
    {
      RemovedFromValues(runningProcesses.items, disposed, runningProcesses.notifications,
                        runningProcesses.suppressNotifications, all, i, exitedPid, disposed0, notified0)
    }

    /** The body of the removal loop: dispose and remove the entry at index i if it is of the process id. */
    method RemoveIfExited(i: nat, exitedPid: nat, ghost all: seq<ProcessEntry>,
                          ghost disposed0: seq<ProcessEntry>, ghost notified0: seq<CollectionAction>)
      requires i < |all| && RemovedFrom(all, i + 1, exitedPid, disposed0, notified0)
      modifies this, runningProcesses
      ensures RemovedFrom(all, i, exitedPid, disposed0, notified0)
      ensures runningProcesses.suppressNotifications == old(runningProcesses.suppressNotifications)
      ensures processNameFilter == old(processNameFilter) && currentForegroundProcess == old(currentForegroundProcess)
      ensures maskRequests == old(maskRequests) && sounds == old(sounds)
    {
      ghost var items, notifications := runningProcesses.items, runningProcesses.notifications;
      ExitStep(all, i, exitedPid, items);
      var entry := runningProcesses.items[i];
      if entry.pid == exitedPid {
        DisposeAndRemove(i);
        DisposeStep(items, disposed0 + MatchesFromEnd(all[i + 1..], exitedPid), notifications,
                    runningProcesses.suppressNotifications, all, i, exitedPid, disposed0, notified0);
      } else {
        assert MatchesFromEnd(all[i..], exitedPid) == MatchesFromEnd(all[i + 1..], exitedPid);
      }
    }

    /** The entry at index i is removed from the list and disposed. */
    method DisposeAndRemove(i: nat)
      requires i < |runningProcesses.items|
      modifies this, runningProcesses
      ensures runningProcesses.items == old(runningProcesses.items)[..i] + old(runningProcesses.items)[i + 1..]
      ensures disposed == old(disposed) + [old(runningProcesses.items)[i]]
      ensures runningProcesses.suppressNotifications == old(runningProcesses.suppressNotifications)
      ensures runningProcesses.notifications == old(runningProcesses.notifications)
        + (if runningProcesses.suppressNotifications then [] else [Remove])
      ensures processNameFilter == old(processNameFilter) && currentForegroundProcess == old(currentForegroundProcess)
      ensures maskRequests == old(maskRequests) && sounds == old(sounds)
    {
      var entry := runningProcesses.items[i];
      var _ := runningProcesses.RemoveAt(i);
      disposed := disposed + [entry];
    }

    /** UpdateCurrentForegroundProcess: with a foreground window, show the first entry of its process. */
    method UpdateCurrentForegroundProcess(foregroundPid: Option<nat>)
      modifies this
      ensures foregroundPid.None? ==> currentForegroundProcess == old(currentForegroundProcess)
      ensures foregroundPid.Some? ==> currentForegroundProcess == FirstWithPid(runningProcesses.items, foregroundPid.value)
      ensures processNameFilter == old(processNameFilter) && disposed == old(disposed)
      ensures maskRequests == old(maskRequests) && sounds == old(sounds)
    {
      if foregroundPid.Some? {
        currentForegroundProcess := FirstWithPid(runningProcesses.items, foregroundPid.value);
      }
    }

    /**
     * OnMaskHotkeyPressed: ask the current foreground process to apply the mask, also storing it
     * as the program's rule, and play the cleared, applied or error sound; without a foreground
     * process nothing is requested. The hotkey callbacks run on the dispatcher thread, and
     * UpdateCurrentForegroundProcess only queues its assignment there with BeginInvoke, so the
     * handler reads the entry that was current before the hotkey; the queued assignment takes
     * effect once the handler has returned.
     */
    method OnMaskHotkeyPressed(mask: LogicalProcessorMask, foregroundPid: Option<nat>, setMaskSucceeds: bool)
      modifies this
      ensures old(currentForegroundProcess).None? ==> maskRequests == old(maskRequests) && sounds == old(sounds)
      ensures old(currentForegroundProcess).Some? ==>
        && maskRequests == old(maskRequests) + [MaskRequest(old(currentForegroundProcess).value, mask, true)]
        && sounds == old(sounds) + [if !setMaskSucceeds then Error else if mask.isNoMask then Cleared else Applied]
      ensures foregroundPid.Some? ==> currentForegroundProcess == FirstWithPid(runningProcesses.items, foregroundPid.value)
      ensures foregroundPid.None? ==> currentForegroundProcess == old(currentForegroundProcess)
      ensures processNameFilter == old(processNameFilter) && disposed == old(disposed)
    {
      var foregroundProcess := currentForegroundProcess;
      if foregroundProcess.Some? {
        maskRequests := maskRequests + [MaskRequest(foregroundProcess.value, mask, true)];
        if setMaskSucceeds {
          if mask.isNoMask {
            sounds := sounds + [Cleared];
          } else {
            sounds := sounds + [Applied];
          }
        } else {
          sounds := sounds + [Error];
        }
      }
      // The assignment UpdateCurrentForegroundProcess queued on the dispatcher.
      UpdateCurrentForegroundProcess(foregroundPid);
    }

    /** PauseListUpdates: pause the list's notifications. */
    method PauseListUpdates()
      modifies runningProcesses
      ensures runningProcesses.suppressNotifications && runningProcesses.items == old(runningProcesses.items)
      ensures runningProcesses.notifications == old(runningProcesses.notifications)
    {
      runningProcesses.SuppressNotifications(true);
    }

    /** ResumeListUpdates: resume the list's notifications, which announces one Reset. */
    method ResumeListUpdates()
      modifies runningProcesses
      ensures !runningProcesses.suppressNotifications && runningProcesses.items == old(runningProcesses.items)
      ensures runningProcesses.notifications == old(runningProcesses.notifications) + [Reset]
    {
      runningProcesses.SuppressNotifications(false);
    }
  }
}
