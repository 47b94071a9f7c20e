# Brightness controller model

The repository gives a cross-platform app read, write and listen access to
screen brightness. The only real logic is the **brightness controller**, and
it exists twice. The Android controller is `NitroBrightness.kt`. The iOS
controller is `NitroBrightness.swift`. Each controller does three things:

- it keeps a registry of change listeners, keyed by integer handles that are
  issued from a counter starting at 1;
- it clamps every written value into [0, 1], asks the OS to apply it, and
  then notifies every listener with the clamped value. On Android the
  system write ignores whether the settings provider stored the value, so
  listeners can be told of a value that was never stored;
- it replays the brightness it captured at construction when asked to restore.
  On Android the replay goes through the clamped write. On iOS the captured
  value is applied as it is, without the clamp.

This project is written in Dafny. It models both controllers as classes and
proves what they promise.

- `common.dfy`, module `Brightness`. It holds what both platforms share:
  - the clamp;
  - callbacks as opaque identities;
  - a log of `(callback, value)` notifications;
  - `Broadcast`, the notifications a dispatch over a list produces;
  - `ValueBag`, the multiset of callbacks a handle-to-callback map holds, and
    the lemmas for inserting into and removing from it.
- `android.dfy`, module `AndroidBrightness`. It holds the Android controller,
  which keeps a handle counter, a handle-to-callback map and a parallel
  dispatch list. It also holds:
  - the mode-to-name mapping;
  - Kotlin's `MutableList.remove`;
  - four client walk-throughs. One follows an end-to-end scenario. One
    shows that a refused system write still notifies. One shows that handles
    are never reused across removal and double disposal. One shows that a
    removed callback is not notified by a later write.
- `ios.dfy`, module `IosBrightness`. It holds the iOS controller, which keeps
  a handle counter and a single dictionary. It also holds two client
  walk-throughs showing that removal and disposal silence listeners.

The OS side is made of plain fields on each class:

- **Android:**
  - whether there is a foreground activity;
  - the window's brightness override, where a negative value means none;
  - the persisted system brightness, kept as an opaque fraction;
  - the persisted mode;
  - `canWrite`;
  - the SDK level;
  - a flag for "every settings provider call throws";
  - a flag for "`Settings.System.putInt` throws", which can hold while the
    permission is granted;
  - a flag for "`Settings.System.putInt` returns false", storing nothing
    without throwing.
- **iOS:** `UIScreen.main.brightness`.

Notifications are recorded in a ghost log. The issued handles are kept in a
ghost set.

Invariants kept by every operation:

- handles are issued as 1, 2, 3, … and never reused, including after
  removal and after `dispose`. This holds because the counter is an
  unbounded integer; Kotlin's 32-bit counter and Swift's `Int` counter are
  listed under "## Left out";
- on Android, the multiset of the dispatch list equals the multiset of the
  map's values;
- only clamped values are applied or broadcast, except by iOS
  `restoreSystemBrightness`, which applies the captured value as it is;
- a dropped write (no activity, no permission, or an exception) notifies
  no one; an Android system write that the provider refuses without
  throwing stores nothing and still notifies;
- once a callback's only handle is removed, later writes do not notify it,
  unless it is registered again;
- every write that is not dropped notifies each registration exactly once
  (`DeliveredOnce`).

Four behaviours of the code worth knowing:

- On Android, `requestBrightnessPermissions` opens the settings screen and
  then reads `canWrite` again straight away, without waiting for the user.
  It therefore resolves with the permission as it stood before the consent
  flow, not after it. `RequestBrightnessPermissions` models exactly that.
- On iOS, `restoreSystemBrightness` writes the captured value without
  clamping it. It does not go through `setSystemBrightness`. On Android the
  restore does go through `setSystemBrightness`, so there it is clamped and
  gated by the permission.
- On Android, `setSystemBrightness` also drops the write when the permission
  holds but `Settings.System.putInt` throws. This can happen at any SDK level,
  including when `canWrite` reports the permission. The exception is caught,
  so no listener is notified.
- On Android, `setSystemBrightness` ignores the boolean that
  `Settings.System.putInt` returns. When the provider refuses the value
  without throwing, the setting keeps its old value, yet every listener is
  notified with the clamped value. `RefusedWriteStillNotifies` shows this.

## Model

| member | source | states |
|---|---|---|
| `Brightness.Clamp` | android/src/main/java/com/margelo/nitro/brightness/NitroBrightness.kt:180 | The result is always in [0,1]. It equals the input when the input is in [0,1], 0 below and 1 above (the same clamp is at line 204 and in ios/NitroBrightness.swift:73). |
| `Brightness.BroadcastRecipients` | android/src/main/java/com/margelo/nitro/brightness/NitroBrightness.kt:65-75 | Dispatching over a list makes one invocation per entry, in list order, each with the dispatched value. |
| `Brightness.BroadcastDeliversOnce` | android/src/main/java/com/margelo/nitro/brightness/NitroBrightness.kt:67-73 | A dispatch over a list delivers to each list entry exactly once, with the value. |
| `Brightness.ValueBagInsert` | android/src/main/java/com/margelo/nitro/brightness/NitroBrightness.kt:48-50 | Storing a callback under a fresh handle adds exactly one copy of it to the map's multiset of callbacks. |
| `Brightness.ValueBagRemove` | android/src/main/java/com/margelo/nitro/brightness/NitroBrightness.kt:58-61 | A known handle's callback is in the map's multiset, and deleting the handle removes exactly one copy of it. |
| `Brightness.ValueBagHas` | android/src/main/java/com/margelo/nitro/brightness/NitroBrightness.kt:58-61 | A callback is among the map's callbacks exactly when some handle maps to it, in both directions. |
| `Brightness.AbsentNotDelivered` | android/src/main/java/com/margelo/nitro/brightness/NitroBrightness.kt:65-75 | A dispatch that reaches each registration exactly once reaches no callback outside the registry. |
| `Brightness.RecipientsAt` | ios/NitroBrightness.swift:30-34 | A helper that lets `DeliveredOnce` be read one notification at a time: the recipients of a log line up entry by entry with the log. |
| `Brightness.BagOfPick` | ios/NitroBrightness.swift:30-34 | The multiset of a dictionary's callbacks is the same whichever entry is taken first, so the dictionary's iteration order does not matter. |
| `AndroidBrightness.ModeName` | android/src/main/java/com/margelo/nitro/brightness/NitroBrightness.kt:157-161 | The name is "automatic" exactly when the mode is `SCREEN_BRIGHTNESS_MODE_AUTOMATIC` (1), and "manual" for every other mode. |
| `AndroidBrightness.RemoveFirst` | android/src/main/java/com/margelo/nitro/brightness/NitroBrightness.kt:59 | Removing a present callback takes exactly one copy of it out of the list's multiset. Removing an absent one leaves the list unchanged. |
| `AndroidBrightness.RemoveAfterAppend` | android/src/main/java/com/margelo/nitro/brightness/NitroBrightness.kt:46-63 | Adding and then removing the same callback restores the list's multiset. It restores the list itself when the callback was not registered before. |
| `AndroidBrightness.RemoveAfterAppendFresh` | android/src/main/java/com/margelo/nitro/brightness/NitroBrightness.kt:46-63 | When a callback is registered for the first time and then removed by its handle, the dispatch list is exactly what it was before. |
| `AndroidBrightness.NitroBrightness.constructor` | android/src/main/java/com/margelo/nitro/brightness/NitroBrightness.kt:29-42 | The original brightness is the system setting, or 128/255 when reading it faults. The registry is empty and the counter is 1. |
| `AndroidBrightness.NitroBrightness.AddBrightnessListener` | android/src/main/java/com/margelo/nitro/brightness/NitroBrightness.kt:46-53 | Returns the current counter, which is at least 1 and never issued before. Increments the counter, maps the handle to the callback and appends the callback to the list. Keeps the list/map multiset agreement. |
| `AndroidBrightness.NitroBrightness.RemoveBrightnessListener` | android/src/main/java/com/margelo/nitro/brightness/NitroBrightness.kt:55-63 | For a known handle, deletes its map entry and one list copy of its callback; when no other handle holds that callback, it leaves the dispatch list altogether. For an unknown handle, changes neither collection. Never touches the counter. Keeps the agreement. |
| `AndroidBrightness.NitroBrightness.NotifyListeners` | android/src/main/java/com/margelo/nitro/brightness/NitroBrightness.kt:65-75 | Appends exactly `Broadcast(listeners, value)` to the log, so each registration is notified once with the value. |
| `AndroidBrightness.NitroBrightness.GetBrightness` | android/src/main/java/com/margelo/nitro/brightness/NitroBrightness.kt:79-98 | Returns the window override when there is an activity and the override is at least 0. Otherwise it returns the system reading. |
| `AndroidBrightness.NitroBrightness.GetSystemBrightness` | android/src/main/java/com/margelo/nitro/brightness/NitroBrightness.kt:136-148 | Returns the stored setting, or 128/255 when the settings provider faults. |
| `AndroidBrightness.NitroBrightness.GetSystemBrightnessMode` | android/src/main/java/com/margelo/nitro/brightness/NitroBrightness.kt:150-166 | Returns "automatic" exactly when the mode reads as automatic without a fault. Returns "manual" in every other case. |
| `AndroidBrightness.NitroBrightness.GetBrightnessPermissions` | android/src/main/java/com/margelo/nitro/brightness/NitroBrightness.kt:100-111 | Granted exactly when the SDK is below M, or when `canWrite` holds and the provider does not fault. |
| `AndroidBrightness.NitroBrightness.RequestBrightnessPermissions` | android/src/main/java/com/margelo/nitro/brightness/NitroBrightness.kt:113-134 | When the permission is already granted, resolves true and opens nothing. Otherwise it opens the settings screen once (at M and above, with no fault) and resolves with the current permission. |
| `AndroidBrightness.NitroBrightness.IsAvailable` | android/src/main/java/com/margelo/nitro/brightness/NitroBrightness.kt:168 | Always true. |
| `AndroidBrightness.NitroBrightness.SetBrightness` | android/src/main/java/com/margelo/nitro/brightness/NitroBrightness.kt:178-200 | With an activity, sets the window override to the clamped value, notifies each registration once with it, and `GetBrightness` reads it back. Without an activity, applies nothing and notifies no one. |
| `AndroidBrightness.NitroBrightness.SetSystemBrightness` | android/src/main/java/com/margelo/nitro/brightness/NitroBrightness.kt:202-219 | With permission, and when neither the provider nor `putInt` throws, notifies each registration once with the clamped value. It stores that value, and `GetSystemBrightness` reads it back, unless `putInt` refuses it, in which case the setting keeps its old value. Without permission, or when an exception is thrown, the setting and the log are unchanged. |
| `AndroidBrightness.NitroBrightness.RestoreSystemBrightness` | android/src/main/java/com/margelo/nitro/brightness/NitroBrightness.kt:170-176 | Has the effect of `SetSystemBrightness(originalBrightness)`: when the write gets past `putInt`, the clamped original is broadcast, and stored unless `putInt` refuses it; when the write is dropped, nothing changes. The original is a constant fixed at construction. |
| `AndroidBrightness.RemovedListenerHearsNothing` | android/src/main/java/com/margelo/nitro/brightness/NitroBrightness.kt:55-75 | After removing the only handle of a callback, a later `setSystemBrightness` keeps the earlier log and adds no notification to that callback, whether the write is stored, refused or dropped. |
| `AndroidBrightness.NitroBrightness.Dispose` | android/src/main/java/com/margelo/nitro/brightness/NitroBrightness.kt:227-233 | Empties the list and the map and leaves the counter and the issued handles alone. The resulting state does not depend on the old registry, so a second call changes nothing. |
| `IosBrightness.NitroBrightness.constructor` | ios/NitroBrightness.swift:11-14 | The original brightness is the screen brightness at construction. The dictionary is empty and the counter is 1. |
| `IosBrightness.NitroBrightness.AddBrightnessListener` | ios/NitroBrightness.swift:18-23 | Returns the current counter, which is at least 1, was never issued before and is absent from the dictionary. Increments the counter and stores the callback under the handle. |
| `IosBrightness.NitroBrightness.RemoveBrightnessListener` | ios/NitroBrightness.swift:25-28 | Deletes only the given key and keeps every other entry. When no other key holds the removed callback, it is gone from the dictionary's values. An unknown key changes nothing. The counter is untouched. |
| `IosBrightness.NitroBrightness.NotifyListeners` | ios/NitroBrightness.swift:30-34 | Extends the log with notifications that reach each dictionary entry exactly once with the value, in some order. |
| `IosBrightness.NitroBrightness.GetBrightness` | ios/NitroBrightness.swift:38-40 | Returns the screen brightness. |
| `IosBrightness.NitroBrightness.GetSystemBrightness` | ios/NitroBrightness.swift:54-56 | Returns the same value as `GetBrightness`. |
| `IosBrightness.NitroBrightness.GetBrightnessPermissions` | ios/NitroBrightness.swift:42-45 | Always true. |
| `IosBrightness.NitroBrightness.RequestBrightnessPermissions` | ios/NitroBrightness.swift:47-52 | Always resolves true. |
| `IosBrightness.NitroBrightness.GetSystemBrightnessMode` | ios/NitroBrightness.swift:58-61 | Always "manual". |
| `IosBrightness.NitroBrightness.IsAvailable` | ios/NitroBrightness.swift:63-65 | Always true. |
| `IosBrightness.NitroBrightness.RestoreSystemBrightness` | ios/NitroBrightness.swift:67-70 | Sets the screen to the constant original brightness, unclamped, and notifies each registration once with it. |
| `IosBrightness.NitroBrightness.SetBrightness` | ios/NitroBrightness.swift:72-76 | Sets the screen to the clamped value. Both getters read it back. Notifies each registration once with it. |
| `IosBrightness.NitroBrightness.SetSystemBrightness` | ios/NitroBrightness.swift:78-80 | Has the same effect as `SetBrightness`, with no permission gate. |
| `IosBrightness.NitroBrightness.Dispose` | ios/NitroBrightness.swift:88-91 | Empties the dictionary and leaves the counter and the issued handles alone. |
| `IosBrightness.RemovedListenerHearsNothing` | ios/NitroBrightness.swift:25-34 | After removing the only key of a callback, a later `setBrightness` keeps the earlier log and adds no notification to that callback. |

## Left out

- OS brightness and permission APIs are not modelled. `Settings.System`, window attributes and `UIScreen` are plain fields. They change only through the controller. Changes made by the user or the OS in between (a moved slider, a permission granted in Settings) are not modelled. Every contract speaks of the fields as they are at the time of the call.
- The 0–255 integer scale is not modelled. The stored system value is an opaque fraction: a write stores the clamped fraction itself, not `(v * 255).toInt() / 255`. Kotlin `Float` and Swift `CGFloat` are `real`.
- Brightness.Clamp: reals have no NaN. In Kotlin, `max`/`min` pass a NaN input through unclamped, and the model does not capture that.
- `runOnUiThread` deferral and the `synchronized(listeners)` lock are not modelled. Every operation is sequential and atomic.
- AndroidBrightness.NitroBrightness.RequestBrightnessPermissions: the `Promise.async` wrapper is not modelled, and neither is a failure of `startActivity`. The result is computed synchronously.
- Exceptions are modelled only as the settings-provider fault and the `putInt` fault; a `putInt` that returns false is the refusal flag. These catch paths are left out:
  - `getBrightness`'s outer catch that returns -1.0, which only window access could reach;
  - a fault while writing window attributes in `setBrightness`;
  - a listener that throws during dispatch, since callbacks here never throw;
  - `restoreSystemBrightness`'s catch.
- Logging (`Log.*`) is left out.
- AndroidBrightness.RemoveFirst: the contract says which callback loses one copy, but not that the first occurrence is the one removed. That choice affects only the order of later notifications.
- IosBrightness.NitroBrightness.NotifyListeners: the dictionary's iteration order is unspecified. The contract therefore fixes the multiset of recipients, not their order.
- AndroidBrightness.NitroBrightness.AddBrightnessListener: the counter is an unbounded integer. Kotlin's `nextListenerId++` on an `Int` (NitroBrightness.kt:42, 48) wraps to `Int.MIN_VALUE` after 2^31 − 1 registrations, so later handles would be non-positive and would repeat after 2^32 registrations. The contract's "at least 1 and never issued before" holds only below that bound.
- IosBrightness.NitroBrightness.AddBrightnessListener: the counter is an unbounded integer. Swift's `nextListenerId += 1` on an `Int` (NitroBrightness.swift:20) traps on overflow after `Int.max` registrations. That trap is not modelled.
- Handles are integers. The conversions `listenerId.toInt()`, `Int(listenerId)` and `id.toDouble()` are not modelled, including Swift's trap on a non-finite handle.
- `memorySize` and the commented-out `getMemorySize` are not modelled.
- ios/NitroBrightness.swift:13 initialises the dictionary with `[]`. It is modelled as an empty dictionary.
- src/index.ts (a pass-through proxy) is not part of this model. Neither are src/specs/NitroBrightness.nitro.ts (an interface declaration) and android/src/main/cpp/cpp-adapter.cpp (library loading).
