/**
 * The iOS brightness controller: a handle counter and a handle-to-callback
 * dictionary in front of the main screen's brightness. iOS has no permission
 * gate and no public brightness mode, so "system" brightness is the screen's.
 */
module IosBrightness {
  import opened Brightness

  class NitroBrightness {
    /** `UIScreen.main.brightness`, owned by the operating system. */
    var screenBrightness: real

    /** The screen brightness captured once at construction. */
    const originalBrightness: real
    var listeners: map<int, Callback>
    var nextListenerId: int
    /** Every handle ever returned by `AddBrightnessListener`. */
    ghost var issued: set<int>
    /** Every callback invocation made so far, in order. */
    ghost var log: seq<Notification>

    /** Handles are issued as 1, 2, 3, ... and every live handle was issued. */
    ghost predicate Valid()
      reads this
    {
      1 <= nextListenerId &&
      (forall h :: h in issued <==> 1 <= h < nextListenerId) &&
      listeners.Keys <= issued
    }

    constructor (screen: real)
      ensures Valid()
      ensures screenBrightness == screen && originalBrightness == screen
      ensures listeners == map[] && nextListenerId == 1
      ensures issued == {} && log == []
    {
      screenBrightness, originalBrightness := screen, screen;
      listeners, nextListenerId := map[], 1;
      issued, log := {}, [];
    }

    /** Registers `listener` under a handle never returned before and returns that handle. */
    method AddBrightnessListener(listener: Callback) returns (id: int)
      requires Valid()
      modifies this`listeners, this`nextListenerId, this`issued
      ensures Valid()
      ensures id == old(nextListenerId) && nextListenerId == id + 1
      ensures 1 <= id && id !in old(issued) && issued == old(issued) + {id}
      ensures id !in old(listeners) && listeners == old(listeners)[id := listener]
    {
      id := nextListenerId;
      nextListenerId := nextListenerId + 1;
      listeners := listeners[id := listener];
      issued := issued + {id};
    }

    /** Deletes the entry of `listenerId` and no other; an unknown handle changes nothing. */
    method RemoveBrightnessListener(listenerId: int)
      requires Valid()
      modifies this`listeners
      ensures Valid()
      ensures listenerId !in listeners
      ensures forall h :: h in old(listeners) && h != listenerId ==> h in listeners && listeners[h] == old(listeners)[h]
      ensures listeners.Keys == old(listeners).Keys - {listenerId}
      ensures listenerId !in old(listeners) ==> listeners == old(listeners)
      ensures listenerId in old(listeners) && SoleHandle(old(listeners), listenerId) ==>
        old(listeners)[listenerId] !in ValueBag(listeners)
    {
      if listenerId in listeners {
        ValueBagHas(listeners - {listenerId}, listeners[listenerId]);
      }
      listeners := listeners - {listenerId};
    }

    /**
     * Invokes every registered callback once with `value`, in the
     * dictionary's (unspecified) iteration order.
     */
    method NotifyListeners(value: real)
      modifies this`log
      ensures |old(log)| <= |log| && log[..|old(log)|] == old(log)
      ensures DeliveredOnce(log[|old(log)|..], ValueBag(listeners), value)
    {
      ghost var order: seq<Callback> := [];
      var pending := listeners.Keys;
      while pending != {}
        invariant pending <= listeners.Keys
        invariant log == old(log) + Broadcast(order, value)
        invariant multiset(order) + BagOf(listeners, pending) == ValueBag(listeners)
        decreases pending
      {
        HasElement(pending);
        var id :| id in pending;
        BagOfPick(listeners, pending, id);
        assert (order + [listeners[id]])[..|order|] == order;
        log := log + [Notification(listeners[id], value)];
        order := order + [listeners[id]];
        pending := pending - {id};
      }
      BroadcastDeliversOnce(order, value);
      assert log[|old(log)|..] == Broadcast(order, value);
    }

    function GetBrightness(): (r: real)
      reads this
      ensures r == screenBrightness
    {
      screenBrightness
    }

    /** Reads the same screen value as `GetBrightness`. */
    function GetSystemBrightness(): (r: real)
      reads this
      ensures r == GetBrightness()
    {
      screenBrightness
    }

    function GetBrightnessPermissions(): (granted: bool)
      ensures granted
    {
      true
    }

    /** Resolves with true at once: there is no consent flow. */
    function RequestBrightnessPermissions(): (granted: bool)
      ensures granted
    {
      true
    }

    function GetSystemBrightnessMode(): (mode: string)
      ensures mode == "manual"
    {
      "manual"
    }

    function IsAvailable(): (available: bool)
      ensures available
    {
      true
    }

    /** Puts back the brightness captured at construction, without the clamp, and notifies every listener with it. */
    method RestoreSystemBrightness()
      requires Valid()
      modifies this`screenBrightness, this`log
      ensures Valid()
      ensures screenBrightness == originalBrightness
      ensures |old(log)| <= |log| && log[..|old(log)|] == old(log)
      ensures DeliveredOnce(log[|old(log)|..], ValueBag(listeners), originalBrightness)
    {
      screenBrightness := originalBrightness;
      NotifyListeners(originalBrightness);
    }

    /** Sets the screen to the clamped value and notifies every listener with it. */
    method SetBrightness(value: real)
      requires Valid()
      modifies this`screenBrightness, this`log
      ensures Valid()
      ensures screenBrightness == Clamp(value)
      ensures GetBrightness() == Clamp(value) && GetSystemBrightness() == Clamp(value)
      ensures |old(log)| <= |log| && log[..|old(log)|] == old(log)
      ensures DeliveredOnce(log[|old(log)|..], ValueBag(listeners), Clamp(value))
    {
      var clamped := Clamp(value);
      screenBrightness := clamped;
      NotifyListeners(clamped);
    }

    /** Exactly `SetBrightness(value)`: there is no permission gate. */
    method SetSystemBrightness(value: real)
      requires Valid()
      modifies this`screenBrightness, this`log
      ensures Valid()
      ensures screenBrightness == Clamp(value)
      ensures GetBrightness() == Clamp(value) && GetSystemBrightness() == Clamp(value)
      ensures |old(log)| <= |log| && log[..|old(log)|] == old(log)
      ensures DeliveredOnce(log[|old(log)|..], ValueBag(listeners), Clamp(value))
    {
      SetBrightness(value);
    }

    /** Empties the dictionary; the handle counter keeps counting. */
    method Dispose()
      requires Valid()
      modifies this`listeners
      ensures Valid()
      ensures listeners == map[]
    {
      listeners := map[];
    }
  }

  /**
   * After removal a callback hears nothing more, and after disposal no write
   * reaches anyone, while handles keep increasing.
   */
  method RemovedAndDisposedListenersHearNothing(l: Callback, k: Callback)
  {
    var b := new NitroBrightness(0.5);
    var h1 := b.AddBrightnessListener(l);
    var h2 := b.AddBrightnessListener(k);
    assert h1 in b.listeners && b.listeners[h1] == l;
    assert l != k ==> SoleHandle(b.listeners, h1);
    b.RemoveBrightnessListener(h1);
    assert l != k ==> l !in ValueBag(b.listeners);
    var before := b.log;
    b.SetBrightness(-0.5);
    assert b.screenBrightness == 0.0;
    assert l != k ==> l !in multiset(Recipients(b.log[|before|..]));
    b.Dispose();
    before := b.log;
    b.SetSystemBrightness(1.7);
    assert b.screenBrightness == 1.0 && b.log == before;
    var h3 := b.AddBrightnessListener(l);
    assert 1 == h1 < h2 < h3;
  }

  /**
   * Once the only handle of a callback is removed, a later write of the
   * brightness notifies that callback no more.
   */
  method RemovedListenerHearsNothing(b: NitroBrightness, h: int, value: real)
    requires b.Valid() && h in b.listeners && SoleHandle(b.listeners, h)
    modifies b
    ensures b.Valid()
    ensures |old(b.log)| <= |b.log| && b.log[..|old(b.log)|] == old(b.log)
    ensures forall n :: n in b.log[|old(b.log)|..] ==> n.callback != old(b.listeners)[h]
  {
    var c := b.listeners[h];
    b.RemoveBrightnessListener(h);
    ghost var before := b.log;
    b.SetBrightness(value);
    AbsentNotDelivered(b.log[|before|..], ValueBag(b.listeners), Clamp(value), c);
  }
}
