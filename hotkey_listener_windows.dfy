/**
 * HotkeyListenerWindows: the keyboard hook's key events drive a set of held keys, and every key
 * press is matched against the registered hotkey callbacks.
 *
 * The hook, the event channel and the dispatcher are not modelled: each key event is handled by
 * one call of KeyEvent. GetAsyncKeyState is the function isDown for the matching pass of one key
 * press. A callback's Pressed event is seen as the list of callbacks that were invoked.
 */
module HotkeyListenerWindows {
  import opened Common
  import opened ConfigModels

  /**
   * HotkeyCallback: the keys of a hotkey and whether it fires on auto-repeat. The id stands for the
   * object's identity, which List.Remove compares.
   */
  datatype HotkeyCallback = HotkeyCallback(id: nat, vKeys: seq<VKey>, allowRepeats: bool)

  /** The keys of a callback as a set (the argument of IsSupersetOf and SetEquals). */
  function Keys(cb: HotkeyCallback): set<VKey>
  {
    set k | k in cb.vKeys
  }

  /** The held keys that survive pruning: the key just pressed, and every key still reported down. */
  function Pruned(pressed: set<VKey>, justPressed: VKey, isDown: VKey -> bool): (r: set<VKey>)
    ensures r <= pressed
    ensures justPressed in pressed ==> justPressed in r
    ensures forall k :: k in pressed && isDown(k) ==> k in r
  {
    set k | k in pressed && (k == justPressed || isDown(k))
  }

  /** Pruning twice prunes nothing more. */
  lemma PrunedIdempotent(pressed: set<VKey>, justPressed: VKey, isDown: VKey -> bool)
    ensures Pruned(Pruned(pressed, justPressed, isDown), justPressed, isDown) == Pruned(pressed, justPressed, isDown)
  {
  }

  /** The held keys after the foreach over the callbacks and the callbacks invoked, in order. */
  datatype Dispatched = Dispatched(pressed: set<VKey>, fired: seq<HotkeyCallback>)

  /** The foreach over the remaining callbacks of InvokeKeyEvents. */
  function Dispatch(pressed: set<VKey>, cbs: seq<HotkeyCallback>, justPressed: VKey, isRepeat: bool,
                    isDown: VKey -> bool): Dispatched
    decreases |cbs|
  {
    if cbs == [] then Dispatched(pressed, [])
    else
      var cb := cbs[0];
      if (isRepeat && !cb.allowRepeats) || !(Keys(cb) <= pressed) then
        Dispatch(pressed, cbs[1..], justPressed, isRepeat, isDown)
      else
        var p := Pruned(pressed, justPressed, isDown);
        var rest := Dispatch(p, cbs[1..], justPressed, isRepeat, isDown);
        Dispatched(rest.pressed, (if p == Keys(cb) then [cb] else []) + rest.fired)
  }

  /** A callback fires when repeats are allowed if this is one, and its keys are exactly the target set. */
  function FiresOn(target: set<VKey>, isRepeat: bool): HotkeyCallback -> bool
  {
    (cb: HotkeyCallback) => (!isRepeat || cb.allowRepeats) && Keys(cb) == target
  }

  /** Some callback gets as far as pruning. */
  predicate SomeCandidate(pressed: set<VKey>, cbs: seq<HotkeyCallback>, isRepeat: bool)
  {
    exists i :: 0 <= i < |cbs| && (!isRepeat || cbs[i].allowRepeats) && Keys(cbs[i]) <= pressed
  }

  /**
   * The matching pass, stated outright: the callbacks that fire are, in list order, exactly those
   * that allow this kind of press and whose keys equal the pruned held keys, and the held keys end
   * pruned once any callback's keys were all held, and unchanged otherwise.
   */
  lemma {:induction false} DispatchSpec(pressed: set<VKey>, cbs: seq<HotkeyCallback>, justPressed: VKey,
                                        isRepeat: bool, isDown: VKey -> bool, target: set<VKey>)
    requires target == Pruned(pressed, justPressed, isDown)
    requires Pruned(target, justPressed, isDown) == target
    ensures Dispatch(pressed, cbs, justPressed, isRepeat, isDown).fired == Filter(cbs, FiresOn(target, isRepeat))
    ensures Dispatch(pressed, cbs, justPressed, isRepeat, isDown).pressed
         == (if SomeCandidate(pressed, cbs, isRepeat) then target else pressed)
    decreases |cbs|
  {
    if cbs != [] {
      var cb := cbs[0];
      var skipped := (isRepeat && !cb.allowRepeats) || !(Keys(cb) <= pressed);
      if skipped {
        DispatchSpec(pressed, cbs[1..], justPressed, isRepeat, isDown, target);
        if Keys(cb) == target {
          assert !(Keys(cb) <= pressed) ==> !(target <= pressed);
        }
        SomeCandidateTail(pressed, cbs, isRepeat);
      } else {
        DispatchSpec(target, cbs[1..], justPressed, isRepeat, isDown, target);
        assert SomeCandidate(pressed, cbs, isRepeat);
      }
    }
  }

  /** Skipping the first callback when it is no candidate. */
  lemma SomeCandidateTail(pressed: set<VKey>, cbs: seq<HotkeyCallback>, isRepeat: bool)
    requires |cbs| > 0
    requires (isRepeat && !cbs[0].allowRepeats) || !(Keys(cbs[0]) <= pressed)
    ensures SomeCandidate(pressed, cbs, isRepeat) == SomeCandidate(pressed, cbs[1..], isRepeat)
  {
    if SomeCandidate(pressed, cbs, isRepeat) {
      var i :| 0 <= i < |cbs| && (!isRepeat || cbs[i].allowRepeats) && Keys(cbs[i]) <= pressed;
      assert i > 0 && cbs[1..][i - 1] == cbs[i];
    }
    if SomeCandidate(pressed, cbs[1..], isRepeat) {
      var i :| 0 <= i < |cbs[1..]| && (!isRepeat || cbs[1..][i].allowRepeats) && Keys(cbs[1..][i]) <= pressed;
      assert cbs[i + 1] == cbs[1..][i];
    }
  }

  /** The key just pressed is never pruned. */
  lemma {:induction false} DispatchKeepsJustPressed(pressed: set<VKey>, cbs: seq<HotkeyCallback>, justPressed: VKey,
                                                    isRepeat: bool, isDown: VKey -> bool)
    requires justPressed in pressed
    ensures justPressed in Dispatch(pressed, cbs, justPressed, isRepeat, isDown).pressed
    ensures Dispatch(pressed, cbs, justPressed, isRepeat, isDown).pressed <= pressed
    decreases |cbs|
  {
    if cbs != [] {
      var cb := cbs[0];
      if (isRepeat && !cb.allowRepeats) || !(Keys(cb) <= pressed) {
        DispatchKeepsJustPressed(pressed, cbs[1..], justPressed, isRepeat, isDown);
      } else {
        DispatchKeepsJustPressed(Pruned(pressed, justPressed, isDown), cbs[1..], justPressed, isRepeat, isDown);
      }
    }
  }

  class HotkeyListener {
    var pressedKeys: set<VKey>
    var hotkeyCallbacks: seq<HotkeyCallback>
    var callbacksEnabled: bool
    /** The KeyPressed events raised: the key and whether it was a repeat. */
    var keyPressedEvents: seq<(VKey, bool)>
    /** The InvokePressed calls, in order. */
    var invoked: seq<HotkeyCallback>

    constructor ()
      ensures pressedKeys == {} && hotkeyCallbacks == [] && callbacksEnabled
      ensures keyPressedEvents == [] && invoked == []
    {
      pressedKeys := {};
      hotkeyCallbacks := [];
      callbacksEnabled := true;
      keyPressedEvents := [];
      invoked := [];
    }

    method AddCallback(callback: HotkeyCallback)
      modifies this
      ensures hotkeyCallbacks == old(hotkeyCallbacks) + [callback]
      ensures pressedKeys == old(pressedKeys) && callbacksEnabled == old(callbacksEnabled)
      ensures keyPressedEvents == old(keyPressedEvents) && invoked == old(invoked)
    {
      hotkeyCallbacks := hotkeyCallbacks + [callback];
    }

    /** RemoveCallback: List.Remove drops the first occurrence. */
    method RemoveCallback(callback: HotkeyCallback)
      modifies this
      ensures hotkeyCallbacks == RemoveFirst(old(hotkeyCallbacks), callback)
      ensures pressedKeys == old(pressedKeys) && callbacksEnabled == old(callbacksEnabled)
      ensures keyPressedEvents == old(keyPressedEvents) && invoked == old(invoked)
    {
      hotkeyCallbacks := RemoveFirst(hotkeyCallbacks, callback);
    }

    /** The CallbacksEnabled setter. */
    method SetCallbacksEnabled(value: bool)
      modifies this
      ensures callbacksEnabled == value
      ensures pressedKeys == old(pressedKeys) && hotkeyCallbacks == old(hotkeyCallbacks)
      ensures keyPressedEvents == old(keyPressedEvents) && invoked == old(invoked)
    {
      callbacksEnabled := value;
    }

    /**
     * One pass of KeyEventsHandler: a key-down adds the key, is a repeat exactly when the key was
     * already held, and is matched against the callbacks; a key-up removes the key.
     */
    method KeyEvent(keyDown: bool, vkCode: VKey, isDown: VKey -> bool)
      modifies this
      ensures hotkeyCallbacks == old(hotkeyCallbacks) && callbacksEnabled == old(callbacksEnabled)
      ensures !keyDown ==> pressedKeys == old(pressedKeys) - {vkCode}
      ensures !keyDown ==> keyPressedEvents == old(keyPressedEvents) && invoked == old(invoked)
      ensures keyDown ==> keyPressedEvents == old(keyPressedEvents) + [(vkCode, vkCode in old(pressedKeys))]
      ensures keyDown ==> vkCode in pressedKeys && pressedKeys <= old(pressedKeys) + {vkCode}
      ensures keyDown && callbacksEnabled ==>
        var d := Dispatch(old(pressedKeys) + {vkCode}, hotkeyCallbacks, vkCode, vkCode in old(pressedKeys), isDown);
        pressedKeys == d.pressed && invoked == old(invoked) + d.fired
      ensures keyDown && !callbacksEnabled ==> pressedKeys == old(pressedKeys) + {vkCode} && invoked == old(invoked)
    {
      if keyDown {
        var isRepeat := vkCode in pressedKeys;
        pressedKeys := pressedKeys + {vkCode};
        InvokeKeyEvents(vkCode, isRepeat, isDown);
        DispatchKeepsJustPressed(old(pressedKeys) + {vkCode}, hotkeyCallbacks, vkCode, isRepeat, isDown);
      } else {
        pressedKeys := pressedKeys - {vkCode};
      }
    }

    /**
     * InvokeKeyEvents: KeyPressed is always raised; with callbacks enabled, each callback that allows
     * this kind of press and whose keys are all held prunes the held keys and fires if they now
     * equal its keys.
     */
    method InvokeKeyEvents(vkCode: VKey, isRepeat: bool, isDown: VKey -> bool)
      modifies this`keyPressedEvents, this`pressedKeys, this`invoked
      ensures keyPressedEvents == old(keyPressedEvents) + [(vkCode, isRepeat)]
      ensures hotkeyCallbacks == old(hotkeyCallbacks) && callbacksEnabled == old(callbacksEnabled)
      ensures callbacksEnabled ==>
        var d := Dispatch(old(pressedKeys), hotkeyCallbacks, vkCode, isRepeat, isDown);
        pressedKeys == d.pressed && invoked == old(invoked) + d.fired
      ensures !callbacksEnabled ==> pressedKeys == old(pressedKeys) && invoked == old(invoked)
    {
      keyPressedEvents := keyPressedEvents + [(vkCode, isRepeat)];
      if !callbacksEnabled {
        return;
      }
      var callbacks := hotkeyCallbacks;
      ghost var whole := Dispatch(pressedKeys, callbacks, vkCode, isRepeat, isDown);
      var i := 0;
      while i < |callbacks|
        invariant 0 <= i <= |callbacks|
        invariant keyPressedEvents == old(keyPressedEvents) + [(vkCode, isRepeat)]
        invariant Dispatch(pressedKeys, callbacks[i..], vkCode, isRepeat, isDown).pressed == whole.pressed
        invariant invoked + Dispatch(pressedKeys, callbacks[i..], vkCode, isRepeat, isDown).fired
               == old(invoked) + whole.fired
      {
        assert callbacks[i..] == [callbacks[i]] + callbacks[i + 1..];
        VisitCallback(callbacks[i], vkCode, isRepeat, isDown, callbacks[i + 1..]);
        i := i + 1;
      }
      assert callbacks[i..] == [];
    }

    /** One turn of the foreach of InvokeKeyEvents; `rest` are the callbacks after this one. */
    method VisitCallback(callback: HotkeyCallback, vkCode: VKey, isRepeat: bool, isDown: VKey -> bool,
                         ghost rest: seq<HotkeyCallback>)
      modifies this`pressedKeys, this`invoked
      ensures var before := Dispatch(old(pressedKeys), [callback] + rest, vkCode, isRepeat, isDown);
        var after := Dispatch(pressedKeys, rest, vkCode, isRepeat, isDown);
        after.pressed == before.pressed && invoked + after.fired == old(invoked) + before.fired
    {
      assert ([callback] + rest)[0] == callback && ([callback] + rest)[1..] == rest;
      if !((isRepeat && !callback.allowRepeats) || !(Keys(callback) <= pressedKeys)) {
        PruneKeys(vkCode, isDown);
        if pressedKeys == Keys(callback) {
          invoked := invoked + [callback];
        }
      }
    }

    /**
     * The inner foreach of InvokeKeyEvents: every held key other than the one just pressed that
     * GetAsyncKeyState no longer reports down is removed.
     */
    method PruneKeys(vkCode: VKey, isDown: VKey -> bool)
      modifies this`pressedKeys
      ensures pressedKeys == Pruned(old(pressedKeys), vkCode, isDown)
      ensures hotkeyCallbacks == old(hotkeyCallbacks) && callbacksEnabled == old(callbacksEnabled)
      ensures keyPressedEvents == old(keyPressedEvents) && invoked == old(invoked)
    {
      var toVisit := pressedKeys;
      while toVisit != {}
        invariant toVisit <= old(pressedKeys)
        invariant pressedKeys == toVisit + Pruned(old(pressedKeys) - toVisit, vkCode, isDown)
        decreases toVisit
      {
        var pressedKey :| pressedKey in toVisit;
        if pressedKey != vkCode && !isDown(pressedKey) {
          pressedKeys := pressedKeys - {pressedKey};
        }
        toVisit := toVisit - {pressedKey};
      }
    }
  }
}
