/**
 * MasksTabViewModel: the Masks tab. It shows the selected mask's bits in a grid of columns, removes
 * the selected mask, and records hotkeys for it while the hotkey input has focus.
 *
 * A MaskBitViewModel stands for one logical processor of the mask and is modelled by its index.
 * The confirmation box of RemoveMask is a parameter, and LogicalProcessorMask.Remove appears as
 * the list of masks it was called on. The mask is held by value, so a hotkey added to the
 * selected mask changes the tab's copy.
 */
module MasksTabViewModel {
  import opened Common
  import opened ConfigModels
  import RH = RuleHelpers
  import HL = HotkeyListenerWindows

  /** The most logical processors a column shows. */
  const MaxPerColumn: nat := 16

  /** A column divisor: even, at least 2, and leaving no more than 16 processors per column. */
  predicate IsColumnDivisor(count: nat, div: nat)
  {
    div >= 2 && div % 2 == 0 && count / div <= MaxPerColumn
  }

  /** The first column divisor from div on, trying div, div + 2, div + 4 and so on. */
  function ColumnDivisorFrom(count: nat, div: nat): (r: nat)
    requires div >= 2 && div % 2 == 0
    ensures div <= r && r % 2 == 0
    decreases count - div
  {
    if count / div <= MaxPerColumn then div
    else
      DivideBelow(count, div);
      ColumnDivisorFrom(count, div + 2)
  }

  /** The search ends on a column divisor. */
  lemma {:induction false} ColumnDivisorFits(count: nat, div: nat)
    requires div >= 2 && div % 2 == 0
    ensures IsColumnDivisor(count, ColumnDivisorFrom(count, div))
    decreases count - div
  {
    if count / div > MaxPerColumn {
      DivideBelow(count, div);
      ColumnDivisorFits(count, div + 2);
    }
  }

  /** A quotient above 16 means the divisor is below the dividend. */
  lemma DivideBelow(count: nat, div: nat)
    requires div >= 1 && count / div > MaxPerColumn
    ensures div < count
  {
    assert count == (count / div) * div + count % div;
    assert (count / div) * div >= div;
  }

  /** One more turn of the divisor loop: the divisor stays below the count and the search goes on from div + 2. */
  lemma DivisorStep(count: nat, div: nat)
    requires div >= 2 && div % 2 == 0 && count / div > MaxPerColumn
    ensures div < count && ColumnDivisorFrom(count, div) == ColumnDivisorFrom(count, div + 2)
  {
    DivideBelow(count, div);
  }

  /** The divisor loop stops on the divisor the search finds. */
  lemma DivisorStop(count: nat, div: nat)
    requires div >= 2 && div % 2 == 0 && count / div <= MaxPerColumn
    ensures ColumnDivisorFrom(count, div) == div
  {
  }

  /** The divisor the MaskBits loop ends with. */
  function ColumnDivisor(count: nat): nat
  {
    ColumnDivisorFrom(count, 2)
  }

  /** The divisor is the smallest even number of at least 2 that leaves at most 16 per column. */
  lemma {:induction false} ColumnDivisorIsSmallest(count: nat, div: nat, d: nat)
    requires div >= 2 && div % 2 == 0
    requires div <= d < ColumnDivisorFrom(count, div) && d % 2 == 0
    ensures !IsColumnDivisor(count, d)
    decreases count - div
  {
    if count / div > MaxPerColumn {
      DivideBelow(count, div);
      assert ColumnDivisorFrom(count, div) == ColumnDivisorFrom(count, div + 2);
      if d != div {
        assert div + 2 <= d;
        ColumnDivisorIsSmallest(count, div + 2, d);
      }
    }
  }

  /** The column count: Math.Max(1, count / div). */
  function ColumnCount(count: nat): (r: nat)
    ensures 1 <= r <= MaxPerColumn
  {
    ColumnDivisorFits(count, 2);
    var q := count / ColumnDivisor(count);
    if q < 1 then 1 else q
  }

  /** Enumerable.Chunk: consecutive pieces of size elements, the last of them possibly shorter. */
  function Chunks<T>(s: seq<T>, size: nat): (r: seq<seq<T>>)
    requires size >= 1
    ensures forall k :: 0 <= k < |r| ==> 1 <= |r[k]| <= size
    ensures forall k :: 0 <= k < |r| - 1 ==> |r[k]| == size
    ensures r == [] <==> s == []
    decreases |s|
  {
    if s == [] then []
    else if |s| <= size then [s]
    else [s[..size]] + Chunks(s[size..], size)
  }

  /** The pieces one after the other. */
  function Concat<T>(chunks: seq<seq<T>>): seq<T>
  {
    if chunks == [] then [] else chunks[0] + Concat(chunks[1..])
  }

  /** Chunking then concatenating gives the sequence back: every element once, in order. */
  lemma {:induction false} ChunksCover<T>(s: seq<T>, size: nat)
    requires size >= 1
    ensures Concat(Chunks(s, size)) == s
    decreases |s|
  {
    if |s| > size {
      var r := Chunks(s, size);
      ChunksCover(s[size..], size);
      assert r[0] == s[..size] && r[1..] == Chunks(s[size..], size);
      assert s == s[..size] + s[size..];
    } else if s != [] {
      assert Concat([s]) == s + Concat([]);
    }
  }

  /** The processor indices 0 .. count - 1. */
  function Indices(count: nat): (r: seq<nat>)
    ensures |r| == count && forall i :: 0 <= i < count ==> r[i] == i
  {
    seq(count, i => i)
  }

  /** The grid of MaskBits: the mask's processor indices, in columns of ColumnCount. */
  function Grid(mask: Option<LogicalProcessorMask>): seq<seq<nat>>
  {
    if mask.None? then [] else Chunks(Indices(|mask.value.boolMask|), ColumnCount(|mask.value.boolMask|))
  }

  /** The grid shows every processor of the mask once, in order, at most 16 to a column. */
  lemma GridSpec(mask: Option<LogicalProcessorMask>)
    ensures mask.None? ==> Grid(mask) == []
    ensures mask.Some? ==> Concat(Grid(mask)) == Indices(|mask.value.boolMask|)
    ensures forall k :: 0 <= k < |Grid(mask)| ==> 1 <= |Grid(mask)[k]| <= MaxPerColumn
  {
    if mask.Some? {
      ChunksCover(Indices(|mask.value.boolMask|), ColumnCount(|mask.value.boolMask|));
    }
  }

  /** A mask with no processors gives an empty grid. */
  lemma EmptyMaskEmptyGrid(mask: LogicalProcessorMask)
    requires mask.boolMask == []
    ensures Grid(Some(mask)) == []
  {
  }

  predicate NoDuplicateKeys(keys: seq<VKey>)
  {
    forall i, j :: 0 <= i < j < |keys| ==> keys[i] != keys[j]
  }

  class MasksTab {
    var hotkeyInputSelected: bool
    var selectedMask: Option<LogicalProcessorMask>
    /** The masks whose Remove was called, in order. */
    var removed: seq<LogicalProcessorMask>
    const listener: HL.HotkeyListener

    constructor (listener: HL.HotkeyListener)
      ensures this.listener == listener
      ensures !hotkeyInputSelected && selectedMask == None && removed == []
    {
      this.listener := listener;
      hotkeyInputSelected := false;
      selectedMask := None;
      removed := [];
    }

    /** CanRemoveMask: a mask is selected and it is not NoMask. */
    predicate CanRemoveMask()
      reads this
    {
      selectedMask.Some? && !selectedMask.value.isNoMask
    }

    /** The MaskBits getter: the loop that finds the divisor, then the chunked indices. */
    method MaskBits() returns (r: seq<seq<nat>>)
      ensures r == Grid(selectedMask)
    {
      if selectedMask.None? {
        return [];
      }
      var count := |selectedMask.value.boolMask|;
      var div := 2;
      while count / div > MaxPerColumn
        invariant div >= 2 && div % 2 == 0
        invariant ColumnDivisorFrom(count, div) == ColumnDivisor(count)
        decreases count - div
      {
        DivisorStep(count, div);
        div := div + 2;
      }
      DivisorStop(count, div);
      var columnCount := if count / div > 1 then count / div else 1;
      assert columnCount == ColumnCount(count);
      return Chunks(Indices(count), columnCount);
    }

    /**
     * RemoveMask: nothing happens unless a mask other than NoMask is selected; a mask that rules
     * use is removed only when the user confirms. The removed mask is no longer selected.
     */
    method RemoveMask(config: AppConfig, userConfirms: bool)
      modifies this
      ensures !old(CanRemoveMask()) ==> selectedMask == old(selectedMask) && removed == old(removed)
      ensures old(CanRemoveMask()) ==>
        var mask := old(selectedMask).value;
        if RH.MaskIsUsedByRules(config.programRules, config.ruleTemplates, mask) && !userConfirms
        then selectedMask == old(selectedMask) && removed == old(removed)
        else selectedMask == None && removed == old(removed) + [mask]
      ensures hotkeyInputSelected == old(hotkeyInputSelected)
    {
      if !CanRemoveMask() || selectedMask.None? {
        return;
      }
      var mask := selectedMask.value;
      if RH.MaskIsUsedByRules(config.programRules, config.ruleTemplates, mask) {
        if !userConfirms {
          return;
        }
      }
      removed := removed + [mask];
      selectedMask := None;
    }

    /** ClearHotkey: the selected mask loses all its hotkeys. */
    method ClearHotkey()
      modifies this
      ensures old(selectedMask).None? ==> selectedMask == None
      ensures old(selectedMask).Some? ==> selectedMask == Some(old(selectedMask).value.(hotkeys := []))
      ensures hotkeyInputSelected == old(hotkeyInputSelected) && removed == old(removed)
    {
      if selectedMask.Some? {
        selectedMask := Some(selectedMask.value.(hotkeys := []));
      }
    }

    /**
     * The KeyPressed handler: while the hotkey input has focus, a key the selected mask does not
     * have yet is added to its hotkeys.
     */
    method OnKeyPressed(key: VKey)
      modifies this
      ensures !(hotkeyInputSelected && selectedMask.Some?) ==> selectedMask == old(selectedMask)
      ensures hotkeyInputSelected && selectedMask.Some? ==>
        && old(selectedMask).Some?
        && var before := old(selectedMask).value;
           selectedMask.value == before.(hotkeys := if key in before.hotkeys then before.hotkeys else before.hotkeys + [key])
      ensures selectedMask.Some? ==>
        (NoDuplicateKeys(old(selectedMask).value.hotkeys) ==> NoDuplicateKeys(selectedMask.value.hotkeys))
      ensures hotkeyInputSelected == old(hotkeyInputSelected) && removed == old(removed)
    {
      if hotkeyInputSelected && selectedMask.Some? && key !in selectedMask.value.hotkeys {
        var mask := selectedMask.value;
        selectedMask := Some(mask.(hotkeys := mask.hotkeys + [key]));
      }
    }

    /** OnHotkeyInputFocusChanged: hotkeys are recorded rather than fired while the input has focus. */
    method OnHotkeyInputFocusChanged(isFocused: bool)
      modifies this, listener
      ensures hotkeyInputSelected == isFocused && listener.callbacksEnabled == !isFocused
      ensures selectedMask == old(selectedMask) && removed == old(removed)
      ensures listener.pressedKeys == old(listener.pressedKeys) && listener.hotkeyCallbacks == old(listener.hotkeyCallbacks)
      ensures listener.keyPressedEvents == old(listener.keyPressedEvents) && listener.invoked == old(listener.invoked)
    {
      hotkeyInputSelected := isFocused;
      listener.SetCallbacksEnabled(!isFocused);
    }
  }
}
