/**
 * The Android brightness controller: a handle counter, a handle-to-callback
 * map and a parallel callback list used for dispatch, in front of the
 * window's brightness override and the system-wide brightness setting.
 */
module AndroidBrightness {
  import opened Brightness

  /** `Settings.System.SCREEN_BRIGHTNESS_MODE_MANUAL` and `..._AUTOMATIC`. */
  const SCREEN_BRIGHTNESS_MODE_MANUAL: int := 0
  const SCREEN_BRIGHTNESS_MODE_AUTOMATIC: int := 1

  /** `Build.VERSION_CODES.M`, the first release that gates writes to system settings. */
  const VERSION_CODES_M: int := 23

  /** The raw default brightness and the scale of the raw system setting. */
  const DEFAULT_BRIGHTNESS: int := 128
  const BRIGHTNESS_SCALE: real := 255.0

  /** The fraction reported when the system setting cannot be read: 128 / 255. */
  const DEFAULT_FRACTION: real := DEFAULT_BRIGHTNESS as real / BRIGHTNESS_SCALE

  /** The name `getSystemBrightnessMode` gives to a mode read from the settings. */
  function ModeName(mode: int): (name: string)
    ensures name == "automatic" <==> mode == SCREEN_BRIGHTNESS_MODE_AUTOMATIC
    ensures name == "automatic" || name == "manual"
  {
    if mode == SCREEN_BRIGHTNESS_MODE_AUTOMATIC then "automatic" else "manual"
  }

  /**
   * `MutableList.remove(element)`: drops the first element equal to `c`, if
   * there is one, and otherwise leaves the list as it was.
   */
  function RemoveFirst(s: seq<Callback>, c: Callback): (r: seq<Callback>)
    ensures c in s ==> multiset(r) == multiset(s) - multiset{c}
    ensures c !in s ==> r == s
  {
    if s == [] then []
    else
      assert s == [s[0]] + s[1..];
      if s[0] == c then s[1..] else [s[0]] + RemoveFirst(s[1..], c)
  }

  /**
   * Removing a callback just appended gives back the list's multiset, and the
   * list itself when the callback was not in it before.
   */
  lemma RemoveAfterAppend(s: seq<Callback>, c: Callback)
    ensures multiset(RemoveFirst(s + [c], c)) == multiset(s)
    ensures c !in s ==> RemoveFirst(s + [c], c) == s
  {
    assert c in s + [c];
    if c !in s {
      RemoveAfterAppendFresh(s, c);
    }
  }

  lemma {:induction false} RemoveAfterAppendFresh(s: seq<Callback>, c: Callback)
    requires c !in s
    ensures RemoveFirst(s + [c], c) == s
  {
    if s == [] {
      assert s + [c] == [c];
    } else {
      var tail := s[1..];
      assert (s + [c])[0] == s[0] && (s + [c])[1..] == tail + [c];
      RemoveAfterAppendFresh(tail, c);
      calc {
        RemoveFirst(s + [c], c);
        [s[0]] + RemoveFirst(tail + [c], c);
        [s[0]] + tail;
        s;
      }
    }
  }

  class NitroBrightness {
    // The operating system's side, as seen by the controller.

    /** Whether the application currently has a foreground activity. */
    var hasActivity: bool
    /** The activity window's `screenBrightness`; negative means "no override". */
    var windowBrightness: real
    /** The persisted `SCREEN_BRIGHTNESS` setting, as a fraction. */
    var systemBrightness: real
    /** The persisted `SCREEN_BRIGHTNESS_MODE` setting. */
    var systemMode: int
    /** What `Settings.System.canWrite` reports for this application. */
    var canWrite: bool
    /** Whether every access to the system settings provider throws. */
    var settingsFault: bool
    /** Whether `Settings.System.putInt` throws even though reads and `canWrite` succeed. */
    var writeFault: bool
    /** Whether `Settings.System.putInt` returns false, storing nothing, instead of throwing. */
    var writeRefused: bool
    /** `Build.VERSION.SDK_INT`. */
    const sdkInt: int
    /** How many times the "modify system settings" screen has been launched. */
    ghost var consentScreensLaunched: nat

    // The controller's own state.

    /** The brightness to restore, captured once at construction. */
    const originalBrightness: real
    var listeners: seq<Callback>
    var listenerIds: map<int, Callback>
    var nextListenerId: int
    /** Every handle ever returned by `AddBrightnessListener`. */
    ghost var issued: set<int>
    /** Every callback invocation made so far, in order. */
    ghost var log: seq<Notification>

    /**
     * Handles are issued as 1, 2, 3, ...; every live handle was issued; and
     * the dispatch list holds exactly the callbacks of the map, counted with
     * multiplicity.
     */
    ghost predicate Valid()
      reads this
    {
      1 <= nextListenerId &&
      (forall h :: h in issued <==> 1 <= h < nextListenerId) &&
      listenerIds.Keys <= issued &&
      multiset(listeners) == ValueBag(listenerIds)
    }

    constructor (sdk: int, activity: bool, window: real, system: real, mode: int, writable: bool, fault: bool, putFails: bool, putRefused: bool)
      ensures Valid()
      ensures sdkInt == sdk && hasActivity == activity && windowBrightness == window
      ensures systemBrightness == system && systemMode == mode && canWrite == writable
      ensures settingsFault == fault && writeFault == putFails && writeRefused == putRefused
      ensures originalBrightness == if fault then DEFAULT_FRACTION else system
      ensures listeners == [] && listenerIds == map[] && nextListenerId == 1
      ensures issued == {} && log == [] && consentScreensLaunched == 0
    {
      sdkInt, hasActivity, windowBrightness := sdk, activity, window;
      systemBrightness, systemMode, canWrite, settingsFault := system, mode, writable, fault;
      writeFault, writeRefused := putFails, putRefused;
      originalBrightness := if fault then DEFAULT_FRACTION else system;
      listeners, listenerIds, nextListenerId := [], map[], 1;
      issued, log, consentScreensLaunched := {}, [], 0;
    }

    /** Registers `listener` under a handle never returned before and returns that handle. */
    method AddBrightnessListener(listener: Callback) returns (id: int)
      requires Valid()
      modifies this`listeners, this`listenerIds, this`nextListenerId, this`issued
      ensures Valid()
      ensures id == old(nextListenerId) && nextListenerId == id + 1
      ensures 1 <= id && id !in old(issued) && issued == old(issued) + {id}
      ensures listenerIds == old(listenerIds)[id := listener]
      ensures listeners == old(listeners) + [listener]
    {
      id := nextListenerId;
      nextListenerId := nextListenerId + 1;
      ValueBagInsert(listenerIds, id, listener);
      listenerIds := listenerIds[id := listener];
      listeners := listeners + [listener];
      issued := issued + {id};
    }

    /**
     * Unregisters the handle `listenerId`: its map entry goes, and so does one
     * list entry holding its callback. An unknown handle changes nothing.
     */
    method RemoveBrightnessListener(listenerId: int)
      requires Valid()
      modifies this`listeners, this`listenerIds
      ensures Valid()
      ensures listenerId in old(listenerIds) ==>
        listenerIds == old(listenerIds) - {listenerId} &&
        listeners == RemoveFirst(old(listeners), old(listenerIds)[listenerId])
      ensures listenerId !in old(listenerIds) ==>
        listenerIds == old(listenerIds) && listeners == old(listeners)
      ensures listenerId in old(listenerIds) && SoleHandle(old(listenerIds), listenerId) ==>
        old(listenerIds)[listenerId] !in listeners
    {
      if listenerId in listenerIds {
        var listener := listenerIds[listenerId];
        ValueBagRemove(listenerIds, listenerId);
        ValueBagHas(listenerIds - {listenerId}, listener);
        listeners := RemoveFirst(listeners, listener);
        listenerIds := listenerIds - {listenerId};
      }
    }

    /** Invokes every callback of the dispatch list once, in list order, with `value`. */
    method NotifyListeners(value: real)
      requires Valid()
      modifies this`log
      ensures Valid()
      ensures log == old(log) + Broadcast(listeners, value)
      ensures DeliveredOnce(log[|old(log)|..], ValueBag(listenerIds), value)
    {
      for i := 0 to |listeners|
        invariant log == old(log) + Broadcast(listeners[..i], value)
      {
        assert listeners[..i + 1][..i] == listeners[..i];
        log := log + [Notification(listeners[i], value)];
      }
      assert listeners[..|listeners|] == listeners;
      BroadcastDeliversOnce(listeners, value);
      assert log[|old(log)|..] == Broadcast(listeners, value);
    }

    /** The window's override when there is an activity and it sets one, the system value otherwise. */
    function GetBrightness(): (r: real)
      reads this
      ensures hasActivity && windowBrightness >= 0.0 ==> r == windowBrightness
      ensures !(hasActivity && windowBrightness >= 0.0) ==> r == GetSystemBrightness()
    {
      if hasActivity && windowBrightness >= 0.0 then windowBrightness else GetSystemBrightness()
    }

    /** The persisted setting, or 128/255 when the settings provider faults. */
    function GetSystemBrightness(): (r: real)
      reads this
      ensures settingsFault ==> r == DEFAULT_FRACTION
      ensures !settingsFault ==> r == systemBrightness
    {
      if settingsFault then DEFAULT_FRACTION else systemBrightness
    }

    /** "automatic" exactly when the setting reads as automatic; "manual" otherwise, faults included. */
    function GetSystemBrightnessMode(): (mode: string)
      reads this
      ensures mode == "automatic" <==> !settingsFault && systemMode == SCREEN_BRIGHTNESS_MODE_AUTOMATIC
      ensures mode == "automatic" || mode == "manual"
    {
      if settingsFault then "manual" else ModeName(systemMode)
    }

    /**
     * Whether the app may write system settings: always before Android M,
     * otherwise what `Settings.System.canWrite` says, and no when that call faults.
     */
    function GetBrightnessPermissions(): (granted: bool)
      reads this`canWrite, this`settingsFault
      ensures granted <==> sdkInt < VERSION_CODES_M || (canWrite && !settingsFault)
    {
      if sdkInt >= VERSION_CODES_M then
        if settingsFault then false else canWrite
      else
        true
    }

    /**
     * Opens the "modify system settings" screen when the permission is
     * missing, then reports the permission as it stands right away.
     */
    method RequestBrightnessPermissions() returns (granted: bool)
      modifies this`consentScreensLaunched
      ensures granted == GetBrightnessPermissions()
      ensures consentScreensLaunched ==
        old(consentScreensLaunched) + if sdkInt >= VERSION_CODES_M && !settingsFault && !canWrite then 1 else 0
      ensures old(GetBrightnessPermissions()) ==> granted && consentScreensLaunched == old(consentScreensLaunched)
    {
      if sdkInt >= VERSION_CODES_M && !settingsFault && !canWrite {
        consentScreensLaunched := consentScreensLaunched + 1;
      }
      granted := GetBrightnessPermissions();
    }

    function IsAvailable(): (available: bool)
      ensures available
    {
      true
    }

    /**
     * Sets the window override to the clamped value and notifies every
     * listener with it; with no activity, applies nothing and notifies no one.
     */
    method SetBrightness(value: real)
      requires Valid()
      modifies this`windowBrightness, this`log
      ensures Valid()
      ensures hasActivity ==>
        windowBrightness == Clamp(value) && log == old(log) + Broadcast(listeners, Clamp(value))
      ensures hasActivity ==> DeliveredOnce(log[|old(log)|..], ValueBag(listenerIds), Clamp(value))
      ensures hasActivity ==> GetBrightness() == Clamp(value)
      ensures !hasActivity ==> windowBrightness == old(windowBrightness) && log == old(log)
    {
      var clamped := Clamp(value);
      if hasActivity {
        windowBrightness := clamped;
        NotifyListeners(clamped);
      }
    }

    /**
     * Whether `setSystemBrightness` gets past `putInt` without an exception:
     * permission holds and neither the provider nor `putInt` throws. The
     * result of `putInt` is ignored, so the listeners are then notified
     * whether or not the value was stored.
     */
    ghost predicate SystemWriteReturns()
      reads this`canWrite, this`settingsFault, this`writeFault
    {
      GetBrightnessPermissions() && !settingsFault && !writeFault
    }

    /**
     * With write permission, asks the settings provider to store the clamped
     * value and then notifies every listener with it, even when the provider
     * refused the value. Without permission, or when writing the setting
     * throws, the write is dropped and no one is notified.
     */
    method SetSystemBrightness(value: real)
      requires Valid()
      modifies this`systemBrightness, this`log
      ensures Valid()
      ensures SystemWriteReturns() ==> log == old(log) + Broadcast(listeners, Clamp(value))
      ensures SystemWriteReturns() ==>
        DeliveredOnce(log[|old(log)|..], ValueBag(listenerIds), Clamp(value))
      ensures SystemWriteReturns() && !writeRefused ==>
        systemBrightness == Clamp(value) && GetSystemBrightness() == Clamp(value)
      ensures SystemWriteReturns() && writeRefused ==> systemBrightness == old(systemBrightness)
      ensures !SystemWriteReturns() ==> systemBrightness == old(systemBrightness) && log == old(log)
    {
      var clamped := Clamp(value);
      if GetBrightnessPermissions() {
        if !settingsFault && !writeFault {
          if !writeRefused {
            systemBrightness := clamped;
          }
          NotifyListeners(clamped);
        }
      }
    }

    /** `SetSystemBrightness(originalBrightness)`. */
    method RestoreSystemBrightness()
      requires Valid()
      modifies this`systemBrightness, this`log
      ensures Valid()
      ensures SystemWriteReturns() ==> log == old(log) + Broadcast(listeners, Clamp(originalBrightness))
      ensures SystemWriteReturns() && !writeRefused ==> systemBrightness == Clamp(originalBrightness)
      ensures SystemWriteReturns() && writeRefused ==> systemBrightness == old(systemBrightness)
      ensures !SystemWriteReturns() ==> systemBrightness == old(systemBrightness) && log == old(log)
    {
      SetSystemBrightness(originalBrightness);
    }

    /** Empties the map and the list; the handle counter keeps counting. */
    method Dispose()
      requires Valid()
      modifies this`listeners, this`listenerIds
      ensures Valid()
      ensures listeners == [] && listenerIds == map[]
    {
      listeners := [];
      listenerIds := map[];
    }
  }

  /**
   * An end-to-end scenario: original 0.5, one listener, a write of 2.0
   * applied as 1.0, removal, a write that reaches no one, and a restore.
   */
  method EndToEndScenario(l: Callback)
  {
    var b := new NitroBrightness(30, true, -1.0, 0.5, SCREEN_BRIGHTNESS_MODE_MANUAL, true, false, false, false);
    var h := b.AddBrightnessListener(l);
    assert h == 1 && b.listeners == [l];
    assert b.GetBrightnessPermissions();
    var before := b.log;
    b.SetSystemBrightness(2.0);
    assert Clamp(2.0) == 1.0;
    assert Broadcast([l], 1.0) == [Notification(l, 1.0)];
    assert b.systemBrightness == 1.0;
    assert b.log == before + [Notification(l, 1.0)];
    b.RemoveBrightnessListener(h);
    assert RemoveFirst([l], l) == [];
    assert b.listeners == [];
    before := b.log;
    b.SetSystemBrightness(0.3);
    assert b.systemBrightness == 0.3 && b.log == before;
    b.RestoreSystemBrightness();
    assert b.systemBrightness == 0.5;
  }

  /**
   * A system write that the settings provider refuses stores nothing, yet the
   * listener is still notified with the clamped value.
   */
  method RefusedWriteStillNotifies(l: Callback)
  {
    var b := new NitroBrightness(30, true, -1.0, 0.5, SCREEN_BRIGHTNESS_MODE_MANUAL, true, false, false, true);
    var h := b.AddBrightnessListener(l);
    assert b.listeners == [l];
    assert b.SystemWriteReturns();
    var before := b.log;
    b.SetSystemBrightness(0.8);
    assert Broadcast([l], 0.8) == [Notification(l, 0.8)];
    assert b.systemBrightness == 0.5 && b.GetSystemBrightness() == 0.5;
    assert b.log == before + [Notification(l, 0.8)];
  }

  /** Handles keep increasing across removals and disposal, so none is reused. */
  method HandlesNeverReused(l: Callback, k: Callback)
  {
    var b := new NitroBrightness(30, false, -1.0, 0.5, SCREEN_BRIGHTNESS_MODE_MANUAL, false, false, false, false);
    var h1 := b.AddBrightnessListener(l);
    b.RemoveBrightnessListener(h1);
    var h2 := b.AddBrightnessListener(k);
    b.Dispose();
    b.Dispose();
    var h3 := b.AddBrightnessListener(l);
    assert 1 == h1 < h2 < h3;
    assert b.listenerIds == map[h3 := l];
  }

  /**
   * Once the only handle of a callback is removed, a later write of the
   * system brightness, successful or not, notifies that callback no more.
   */
  method RemovedListenerHearsNothing(b: NitroBrightness, h: int, value: real)
    requires b.Valid() && h in b.listenerIds && SoleHandle(b.listenerIds, h)
    modifies b
    ensures b.Valid()
    ensures |old(b.log)| <= |b.log| && b.log[..|old(b.log)|] == old(b.log)
    ensures forall n :: n in b.log[|old(b.log)|..] ==> n.callback != old(b.listenerIds)[h]
  {
    var c := b.listenerIds[h];
    b.RemoveBrightnessListener(h);
    assert c !in multiset(b.listeners);
    ghost var before := b.log;
    b.SetSystemBrightness(value);
    if b.SystemWriteReturns() {
      AbsentNotDelivered(b.log[|before|..], ValueBag(b.listenerIds), Clamp(value), c);
    }
  }
}
