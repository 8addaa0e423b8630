/**
 * Which device `open(joyIndex)` claims. The backend walks the platform's device
 * ids, counts gamepad-capable devices until `joyIndex` of them have been passed,
 * and then takes the first gamepad-capable device that no open joystick has
 * registered in the shared state map. This module states that choice without the
 * counter, as the first entry of the id list that qualifies.
 */
module DeviceClaim {
  import opened Wrappers
  import opened Joystick
  import opened Platform
  import opened Capabilities

  /**
   * The id resolves to a device that answers yes to the combined query
   * `supportsSource(GAMEPAD | JOYSTICK)`; "gamepad" below means exactly this.
   */
  predicate IsGamepad(devices: map<int, InputDevice>, deviceId: int)
  {
    deviceId in devices && devices[deviceId].supportsGamepadJoystick
  }

  /** How many entries of `ids` are gamepad-capable devices. */
  function GamepadsIn(ids: seq<int>, devices: map<int, InputDevice>): (n: nat)
    ensures n <= |ids|
    ensures n == 0 <== (forall i :: 0 <= i < |ids| ==> !IsGamepad(devices, ids[i]))
  {
    if ids == [] then 0
    else GamepadsIn(ids[..|ids| - 1], devices) + (if IsGamepad(devices, ids[|ids| - 1]) then 1 else 0)
  }

  /** Counting one more entry adds one exactly when that entry is a gamepad. */
  lemma GamepadsInStep(ids: seq<int>, devices: map<int, InputDevice>, i: nat)
    requires i < |ids|
    ensures GamepadsIn(ids[..i + 1], devices) == GamepadsIn(ids[..i], devices) + (if IsGamepad(devices, ids[i]) then 1 else 0)
  {
    assert ids[..i + 1][..i] == ids[..i];
  }

  /**
   * Entry `j` may be claimed: it is a gamepad, at least `joyIndex` gamepads come
   * before it, and it is not registered yet.
   */
  predicate Claimable(ids: seq<int>, devices: map<int, InputDevice>, joyIndex: nat, registered: set<int>, j: nat)
    requires j < |ids|
  {
    IsGamepad(devices, ids[j]) && GamepadsIn(ids[..j], devices) >= joyIndex && ids[j] !in registered
  }

  /** The first claimable entry at position `from` or later. */
  function FirstClaimable(ids: seq<int>, devices: map<int, InputDevice>, joyIndex: nat, registered: set<int>, from: nat): (r: Option<nat>)
    requires from <= |ids|
    ensures r.Some? ==> from <= r.value < |ids| && Claimable(ids, devices, joyIndex, registered, r.value)
    ensures r.Some? ==> forall k :: from <= k < r.value ==> !Claimable(ids, devices, joyIndex, registered, k)
    ensures r.None? ==> forall k :: from <= k < |ids| ==> !Claimable(ids, devices, joyIndex, registered, k)
    decreases |ids| - from
  {
    if from == |ids| then None
    else if Claimable(ids, devices, joyIndex, registered, from) then Some(from)
    else FirstClaimable(ids, devices, joyIndex, registered, from + 1)
  }

  /** A claimable entry with no claimable entry before it is the one chosen. */
  lemma FirstClaimableIsUnique(ids: seq<int>, devices: map<int, InputDevice>, joyIndex: nat, registered: set<int>, j: nat)
    requires j < |ids| && Claimable(ids, devices, joyIndex, registered, j)
    requires forall k :: 0 <= k < j ==> !Claimable(ids, devices, joyIndex, registered, k)
    ensures FirstClaimable(ids, devices, joyIndex, registered, 0) == Some(j)
  {
  }

  /**
   * The device id `open(joyIndex)` settles on, before it reads that device's
   * capabilities, when `registered` holds the ids already in the shared map.
   */
  function SelectedDevice(joyIndex: nat, p: Platform, registered: set<int>): (r: Option<int>)
    ensures joyIndex >= Count || !p.jniAvailable || p.deviceIds.None? ==> r.None?
    ensures r.Some? ==> r.value !in registered && IsGamepad(p.devices, r.value)
    ensures r.Some? ==> p.deviceIds.Some? && r.value in p.deviceIds.value
    ensures r.None? && joyIndex < Count && p.jniAvailable && p.deviceIds.Some? ==>
      forall k :: 0 <= k < |p.deviceIds.value| ==> !Claimable(p.deviceIds.value, p.devices, joyIndex, registered, k)
  {
    if joyIndex >= Count || !p.jniAvailable || p.deviceIds.None? then None
    else
      var ids := p.deviceIds.value;
      match FirstClaimable(ids, p.devices, joyIndex, registered, 0)
      case None => None
      case Some(i) => Some(ids[i])
  }

  /**
   * The selected device is the first entry of the id list that is a gamepad, has
   * at least `joyIndex` gamepads before it and is unregistered: every gamepad past
   * the first `joyIndex` that comes earlier is already registered.
   */
  lemma SelectedIsFirstCandidate(joyIndex: nat, p: Platform, registered: set<int>)
    requires SelectedDevice(joyIndex, p, registered).Some?
    ensures p.deviceIds.Some?
    ensures exists i :: (0 <= i < |p.deviceIds.value| && p.deviceIds.value[i] == SelectedDevice(joyIndex, p, registered).value
      && GamepadsIn(p.deviceIds.value[..i], p.devices) >= joyIndex
      && (forall k :: 0 <= k < i && IsGamepad(p.devices, p.deviceIds.value[k]) && GamepadsIn(p.deviceIds.value[..k], p.devices) >= joyIndex
            ==> p.deviceIds.value[k] in registered))
  {
    var ids := p.deviceIds.value;
    var i := FirstClaimable(ids, p.devices, joyIndex, registered, 0).value;
    forall k | 0 <= k < i && IsGamepad(p.devices, ids[k]) && GamepadsIn(ids[..k], p.devices) >= joyIndex
      ensures ids[k] in registered
    {
      assert !Claimable(ids, p.devices, joyIndex, registered, k);
    }
    assert ids[i] == SelectedDevice(joyIndex, p, registered).value;
  }

  /** `open(joyIndex)` succeeds: a device is selected and its capabilities can be read. */
  predicate OpenSucceeds(joyIndex: nat, p: Platform, registered: set<int>)
  {
    var selected := SelectedDevice(joyIndex, p, registered);
    selected.Some? && selected.value in p.devices && CapabilitiesOf(p.devices[selected.value].motionRanges).Some?
  }

  /** The claimed device sits at a position no smaller than `joyIndex` in the id list. */
  lemma ClaimedAfterSkipped(ids: seq<int>, devices: map<int, InputDevice>, joyIndex: nat, registered: set<int>)
    requires FirstClaimable(ids, devices, joyIndex, registered, 0).Some?
    ensures FirstClaimable(ids, devices, joyIndex, registered, 0).value >= joyIndex
  {
  }

  /** With no gamepad in the id list, no device is ever selected. */
  lemma NoGamepadNoSelection(joyIndex: nat, p: Platform, registered: set<int>)
    requires p.deviceIds.Some?
    requires forall i :: 0 <= i < |p.deviceIds.value| ==> !IsGamepad(p.devices, p.deviceIds.value[i])
    ensures SelectedDevice(joyIndex, p, registered).None?
  {
  }

  /**
   * Once a device is selected and registered, no later `open` on the same platform
   * snapshot selects it again, whatever index it asks for.
   */
  lemma SelectionsAreDistinct(joyIndex1: nat, joyIndex2: nat, p: Platform, registered: set<int>)
    requires SelectedDevice(joyIndex1, p, registered).Some?
    ensures SelectedDevice(joyIndex2, p, registered + {SelectedDevice(joyIndex1, p, registered).value})
      != SelectedDevice(joyIndex1, p, registered)
  {
  }

  /** Among unregistered devices, the index counts gamepads: index `n` picks the `n`-th gamepad. */
  lemma {:induction false} SelectsNthGamepad(joyIndex: nat, p: Platform, i: nat)
    requires joyIndex < Count && p.jniAvailable && p.deviceIds.Some?
    requires i < |p.deviceIds.value| && IsGamepad(p.devices, p.deviceIds.value[i])
    requires GamepadsIn(p.deviceIds.value[..i], p.devices) == joyIndex
    ensures SelectedDevice(joyIndex, p, {}) == Some(p.deviceIds.value[i])
  {
    var ids := p.deviceIds.value;
    forall k | 0 <= k < i
      ensures !Claimable(ids, p.devices, joyIndex, {}, k)
    {
      GamepadsPrefixMonotone(ids, p.devices, k, i);
    }
    FirstClaimableIsUnique(ids, p.devices, joyIndex, {}, i);
  }

  /** A prefix never contains more gamepads than the prefix it starts; a gamepad at `k` adds one. */
  lemma {:induction false} GamepadsPrefixMonotone(ids: seq<int>, devices: map<int, InputDevice>, k: nat, i: nat)
    requires k < i <= |ids|
    ensures GamepadsIn(ids[..k], devices) + (if IsGamepad(devices, ids[k]) then 1 else 0) <= GamepadsIn(ids[..i], devices)
    decreases i - k
  {
    GamepadsInStep(ids, devices, k);
    if k + 1 < i {
      GamepadsPrefixGrow(ids, devices, k + 1, i);
    }
  }

  /** Longer prefixes hold at least as many gamepads. */
  lemma {:induction false} GamepadsPrefixGrow(ids: seq<int>, devices: map<int, InputDevice>, k: nat, i: nat)
    requires k <= i <= |ids|
    ensures GamepadsIn(ids[..k], devices) <= GamepadsIn(ids[..i], devices)
    decreases i - k
  {
    if k < i {
      GamepadsInStep(ids, devices, k);
      GamepadsPrefixGrow(ids, devices, k + 1, i);
    }
  }
}
