# Android joystick backend of SFML, modelled in Dafny

This project models the decision logic of SFML's Android joystick backend
(`sf::priv::JoystickImpl` in `src/SFML/Window/Android/JoystickImpl.cpp`), which
enumerates Android `InputDevice`s through JNI. It covers three parts:

- **Axis-code translation.** `androidAxisToSf` and `sfAxisToAndroid` convert between
  the eight Android motion-event axis codes and the engine's `Joystick::Axis`.
  The codes are X=0, Y=1, Z=11, RZ=14, HAT_X=15, HAT_Y=16, LTRIGGER=17 and
  RTRIGGER=18, as defined by the NDK header `android/input.h`
  (module `AxisCodes`, file `axis_codes.dfy`).
- **Capability derivation.** `getCapabilitiesFromJni` turns a device's motion
  ranges into a button count and a per-axis flag set. One unreadable range voids
  the whole result (module `Capabilities`). The method keeps the source's loop,
  which sets flags in a fixed-size boolean array in place.
- **Device claiming and the slot life cycle.** `open(joyIndex)` skips the first
  `joyIndex` gamepad-capable devices. It then claims the first gamepad-capable
  device that is not yet in the shared `joystickStates` map. It records the
  device's capabilities, identification and id in the slot, and it inserts a
  default running state for that id. `close` erases that id, and `update` reads
  the entry back.
  - Module `DeviceClaim` states which device is chosen, without the source's
    counter: it is the first entry of the id list that is a gamepad, has at least
    `joyIndex` gamepads before it, and is unregistered.
  - Module `AndroidJoystick` holds the classes `JoystickImpl` and `ActivityStates`.
    `JoystickImpl` keeps the fields `capabilities`, `identification` and
    `currentDeviceIdx`. `ActivityStates` keeps the shared map.
    `Open` keeps the source's counted `for` loop and is proved against `DeviceClaim`.

What the backend learns from Java is a value of type `Platform.Platform`, which
holds three things:
- one flag for "attaching the thread or resolving `android/view/InputDevice` failed";
- the optional array of device ids;
- a map from id to device record: name, vendor id, product id, the answer to
  `supportsSource(GAMEPAD | JOYSTICK)`, and the optional list of optional motion-range
  axis codes.

Each backend call takes one such snapshot as a parameter. Throughout this model,
"gamepad-capable" means exactly that the device answered yes to the single combined query
`supportsSource(AINPUT_SOURCE_GAMEPAD | AINPUT_SOURCE_JOYSTICK)`; the model does not
interpret that answer further.

Constants are those of SFML's `Joystick.hpp`: `Joystick::Count` = 8,
`Joystick::ButtonCount` = 32, `Joystick::AxisCount` = 8, and axes declared in the order
X, Y, Z, R, U, V, PovX, PovY. `Joystick.hpp`, `JoystickImpl.hpp` and `Activity.hpp` are
not part of this model. The default slot values stand in for the initialisers of
`JoystickImpl.hpp`: device id 0, identification "No Joystick"/0/0, and capabilities
with no buttons and no axes. A registered device's default running state has every
axis at 0 and every button released.

Several revisions of this backend exist, and they differ on multi-device support and
on stubbed capabilities. This model follows the code cited below: it supports several
devices and reads each device's real motion ranges.

## Model

| member | source | states |
|---|---|---|
| `AxisCodes.AndroidAxisToSf` | src/SFML/Window/Android/JoystickImpl.cpp:216-232 | Yields an axis exactly for the eight known codes and nothing for every other integer; a yielded axis maps back to the same code |
| `AxisCodes.SfAxisToAndroid` | src/SFML/Window/Android/JoystickImpl.cpp:234-250 | Every axis maps to one of the eight known codes, never to the `-1` fallback |
| `AxisCodes.AxisRoundTrip` | src/SFML/Window/Android/JoystickImpl.cpp:216-250 | `androidAxisToSf(sfAxisToAndroid(a)) == a` for every axis |
| `AxisCodes.CodeRoundTrip` | src/SFML/Window/Android/JoystickImpl.cpp:216-250 | Every known code translates to an axis whose code is that code again |
| `AxisCodes.SfAxisToAndroidInjective` | src/SFML/Window/Android/JoystickImpl.cpp:234-250 | Distinct axes get distinct Android codes |
| `Capabilities.GetCapabilitiesFromJni` | src/SFML/Window/Android/JoystickImpl.cpp:36-62 | Empty exactly when the range list is missing or some range is unreadable; otherwise the button count is `Joystick::ButtonCount` and an axis flag is set iff some range's code translates to that axis |
| `DeviceClaim.GamepadsIn` | src/SFML/Window/Android/JoystickImpl.cpp:114-128 | The gamepad count of an id list never exceeds its length, and it is zero when the list holds no gamepad |
| `DeviceClaim.FirstClaimable` | src/SFML/Window/Android/JoystickImpl.cpp:115-134 | Returns the first position from `from` on that is a gamepad, follows at least `joyIndex` gamepads and is unregistered, or nothing when there is none |
| `DeviceClaim.FirstClaimableIsUnique` | src/SFML/Window/Android/JoystickImpl.cpp:115-134 | A qualifying entry with no qualifying entry before it is the one the scan chooses |
| `DeviceClaim.SelectedDevice` | src/SFML/Window/Android/JoystickImpl.cpp:89-134 | Nothing when the index is at least `Joystick::Count`, JNI fails or the id array is missing; a selected id is unregistered, is a gamepad-capable device, and occurs in the id list |
| `DeviceClaim.SelectedIsFirstCandidate` | src/SFML/Window/Android/JoystickImpl.cpp:114-134 | The selected id sits at a position preceded by at least `joyIndex` gamepads, and every earlier gamepad past the skipped ones is already registered |
| `DeviceClaim.ClaimedAfterSkipped` | src/SFML/Window/Android/JoystickImpl.cpp:125-129 | The claimed position is at least `joyIndex` |
| `DeviceClaim.NoGamepadNoSelection` | src/SFML/Window/Android/JoystickImpl.cpp:115-154 | An id list without gamepad-capable devices never yields a selection |
| `DeviceClaim.SelectionsAreDistinct` | src/SFML/Window/Android/JoystickImpl.cpp:131-134 | Once a selected id is registered, no later open selects it again, whatever index it asks for |
| `DeviceClaim.SelectsNthGamepad` | src/SFML/Window/Android/JoystickImpl.cpp:114-151 | With nothing registered, index `n` selects the gamepad that has exactly `n` gamepads before it |
| `AndroidJoystick.JoystickImpl.IsConnected` | src/SFML/Window/Android/JoystickImpl.cpp:81-86 | True exactly when the index is below `Joystick::Count` |
| `AndroidJoystick.JoystickImpl.IsConnectedPrefilter` | src/SFML/Window/Android/JoystickImpl.cpp:81-92 | The prefilter accepts every index that `open` can succeed on |
| `AndroidJoystick.JoystickImpl.Open` | src/SFML/Window/Android/JoystickImpl.cpp:89-155 | Succeeds iff a device is selected and its capabilities are readable. On success the slot holds that device's id, capabilities and name/vendor/product, and the map gains exactly that previously absent id, bound to a default state. On failure the slot and the map are unchanged |
| `AndroidJoystick.JoystickImpl.Close` | src/SFML/Window/Android/JoystickImpl.cpp:159-164 | Removes only the slot's id from the map; every other entry is kept, and an absent id leaves the map unchanged |
| `AndroidJoystick.JoystickImpl.GetCapabilities` | src/SFML/Window/Android/JoystickImpl.cpp:168-171 | Returns the recorded capabilities, which always carry one flag per axis |
| `AndroidJoystick.JoystickImpl.GetIdentification` | src/SFML/Window/Android/JoystickImpl.cpp:175-178 | Returns the recorded identification |
| `AndroidJoystick.JoystickImpl.Update` | src/SFML/Window/Android/JoystickImpl.cpp:182-214 | Disconnected when JNI fails or the slot's id has no map entry. Otherwise returns that entry's axes and buttons, connected iff the id still resolves to a device. The map is only read |
| `AndroidJoystick.OpenThenClose` | src/SFML/Window/Android/JoystickImpl.cpp:147-164 | Calling `Open` on a slot and then, if it succeeded, `Close` leaves the shared map exactly as it was before the `Open` |
| `AndroidJoystick.OpenAddsOneEntry` | src/SFML/Window/Android/JoystickImpl.cpp:147-149 | After a successful `Open`, the map's keys are the old keys plus the slot's previously absent device id, and the map holds exactly one more entry; a failed `Open` leaves the map unchanged |

## Left out

- The JNI wrapper layer (`JniHelper.cpp`, `JniHelper.hpp`, `JniHelper.inl`) is not
  part of this model: its answers are whatever the Java VM returns. They appear
  only as the `Platform` snapshot. Class and method lookups, `getSize`/`get` on the
  motion-range list, and array pinning and release are all folded into the
  optional values of that snapshot.
- Attaching and detaching the JNI thread, and releasing borrowed arrays and strings,
  are resource lifetime at a foreign boundary; they are not modelled.
- The mutex on the activity state is not modelled. Each operation is treated as one
  atomic step on the shared map.
- Error logging to `sf::err()` is output only and is not modelled.
- Device names, vendor ids and product ids are carried through as opaque values. The
  Java string conversion and the cast of the vendor/product ints to `unsigned` are not
  modelled.
- Axis positions and button states inside a running-state entry are opaque payload.
  They are written by the input-event path outside this backend; `Update` only copies them.
- `AxisCodes.SfAxisToAndroid`: the `default: return -1` branch is not modelled.
  It cannot be reached for a value of the closed `Axis` type.
- `initialize` and `cleanup` do nothing in this backend and are not modelled.
