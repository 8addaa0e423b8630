/**
 * The Android joystick backend (`sf::priv::JoystickImpl`) and the part of the
 * process-wide activity state it shares with every other joystick slot.
 */
module AndroidJoystick {
  import opened Wrappers
  import opened Joystick
  import opened Platform
  import opened Capabilities
  import opened DeviceClaim

  /**
   * The activity-wide state shared by all joystick slots; only the map from device
   * id to running state matters to the backend.
   */
  class ActivityStates {
    var joystickStates: map<int, DeviceState>

    constructor()
      ensures joystickStates == map[]
    {
      joystickStates := map[];
    }
  }

  /** One joystick slot of the engine, bound to at most one Android device id. */
  class JoystickImpl {
    var capabilities: JoystickCaps
    var identification: Identification
    var currentDeviceIdx: int

    /** The recorded capabilities always describe every axis of the enumeration. */
    ghost predicate Valid()
      reads this
    {
      |capabilities.axes| == AxisCount
    }

    constructor()
      ensures Valid()
      ensures capabilities == NoCapabilities() && identification == NoIdentification() && currentDeviceIdx == 0
    {
      capabilities := NoCapabilities();
      identification := NoIdentification();
      currentDeviceIdx := 0;
    }

    /**
     * `JoystickImpl::isConnected`: the prefilter the engine runs before `open`.
     * It accepts every index below `Joystick::Count`.
     */
    static function IsConnected(index: nat): (r: bool)
      ensures r <==> index < Count
    {
      index < Count
    }

    /** The prefilter never rejects an index that `open` would accept. */
    static lemma IsConnectedPrefilter(joyIndex: nat, p: Platform, registered: set<int>)
      requires OpenSucceeds(joyIndex, p, registered)
      ensures IsConnected(joyIndex)
    {
    }

    /**
     * `JoystickImpl::open`: claim the device described in `DeviceClaim`, record its
     * capabilities, identification and id, and register a default running state
     * for it. Any failure leaves the slot and the shared map as they were.
     */
    method Open(joyIndex: nat, states: ActivityStates, platform: Platform) returns (ok: bool)
      requires Valid()
      modifies this, states
      ensures Valid()
      ensures ok <==> OpenSucceeds(joyIndex, platform, old(states.joystickStates).Keys)
      ensures joyIndex >= Count || !platform.jniAvailable || platform.deviceIds.None? ==> !ok
      ensures ok ==>
        var id := SelectedDevice(joyIndex, platform, old(states.joystickStates).Keys).value;
        && currentDeviceIdx == id
        && id !in old(states.joystickStates)
        && id in platform.devices
        && capabilities == CapabilitiesOf(platform.devices[id].motionRanges).value
        && identification == Identification(platform.devices[id].name, platform.devices[id].vendorId, platform.devices[id].productId)
        && states.joystickStates == old(states.joystickStates)[id := DefaultDeviceState()]
      ensures !ok ==> states.joystickStates == old(states.joystickStates) && unchanged(this)
    {
      if joyIndex >= Count {
        return false;
      }
      if !platform.jniAvailable {
        return false;
      }
      if platform.deviceIds.None? {
        return false;
      }
      var deviceIds := platform.deviceIds.value;
      ghost var registered := states.joystickStates.Keys;
      var foundGamepadsSoFar: nat := 0;
      for i := 0 to |deviceIds|
        invariant states.joystickStates == old(states.joystickStates) && unchanged(this)
        invariant foundGamepadsSoFar == if GamepadsIn(deviceIds[..i], platform.devices) < joyIndex
                                         then GamepadsIn(deviceIds[..i], platform.devices) else joyIndex
        invariant forall k :: 0 <= k < i ==> !Claimable(deviceIds, platform.devices, joyIndex, registered, k)
      {
        GamepadsInStep(deviceIds, platform.devices, i);
        var deviceId := deviceIds[i];
        var inputDevice := platform.GetDevice(deviceId);
        if inputDevice.None? {
          continue;
        }
        if !inputDevice.value.supportsGamepadJoystick {
          continue;
        }
        if foundGamepadsSoFar < joyIndex {
          foundGamepadsSoFar := foundGamepadsSoFar + 1;
          continue;
        }
        // The device may already belong to another joystick slot: look further.
        if deviceId in states.joystickStates {
          continue;
        }
        FirstClaimableIsUnique(deviceIds, platform.devices, joyIndex, registered, i);
        var caps := GetCapabilitiesFromJni(inputDevice.value.motionRanges);
        if caps.None? {
          return false;
        }
        capabilities := caps.value;
        identification := Identification(inputDevice.value.name, inputDevice.value.vendorId, inputDevice.value.productId);
        currentDeviceIdx := deviceId;
        states.joystickStates := states.joystickStates[currentDeviceIdx := DefaultDeviceState()];
        return true;
      }
      return false;
    }

    /**
     * `JoystickImpl::close`: drop this slot's device from the shared map; every other
     * entry stays, and a device id that is not there leaves the map as it was.
     */
    method Close(states: ActivityStates)
      modifies states
      ensures states.joystickStates == old(states.joystickStates) - {currentDeviceIdx}
      ensures currentDeviceIdx !in states.joystickStates
      ensures forall id :: id in old(states.joystickStates) && id != currentDeviceIdx ==>
        id in states.joystickStates && states.joystickStates[id] == old(states.joystickStates)[id]
      ensures old(currentDeviceIdx !in states.joystickStates) ==> states.joystickStates == old(states.joystickStates)
    {
      states.joystickStates := states.joystickStates - {currentDeviceIdx};
    }

    /** `JoystickImpl::getCapabilities`: what the last successful `open` recorded. */
    function GetCapabilities(): (caps: JoystickCaps)
      requires Valid()
      reads this
      ensures caps == capabilities && |caps.axes| == AxisCount
    {
      capabilities
    }

    /** `JoystickImpl::getIdentification`: what the last successful `open` recorded. */
    function GetIdentification(): (ident: Identification)
      reads this
      ensures ident == identification
    {
      identification
    }

    /**
     * `JoystickImpl::update`: report disconnected when JNI is unusable or the shared
     * map has no entry for this slot's device; otherwise hand back that entry, marked
     * connected exactly when the device id still resolves to a device. The shared map
     * is only read.
     */
    method Update(states: ActivityStates, platform: Platform) returns (s: JoystickState)
      ensures !platform.jniAvailable ==> s == Disconnected()
      ensures currentDeviceIdx !in states.joystickStates ==> s == Disconnected()
      ensures platform.jniAvailable && currentDeviceIdx in states.joystickStates ==>
        && s.connected == (currentDeviceIdx in platform.devices)
        && s.axes == states.joystickStates[currentDeviceIdx].axes
        && s.buttons == states.joystickStates[currentDeviceIdx].buttons
      ensures s.connected ==> currentDeviceIdx in states.joystickStates && currentDeviceIdx in platform.devices
    {
      if !platform.jniAvailable {
        return Disconnected();
      }
      var isConnected := platform.GetDevice(currentDeviceIdx).Some?;
      if currentDeviceIdx !in states.joystickStates {
        // The entry can vanish for a frame while another device (dis)connects.
        return Disconnected();
      }
      var entry := states.joystickStates[currentDeviceIdx];
      s := JoystickState(isConnected, entry.axes, entry.buttons);
    }
  }

  /** Closing a slot right after it opened gives the shared map back as it was. */
  method OpenThenClose(joystick: JoystickImpl, states: ActivityStates, platform: Platform, joyIndex: nat) returns (ok: bool)
    requires joystick.Valid()
    modifies joystick, states
    ensures ok <==> OpenSucceeds(joyIndex, platform, old(states.joystickStates).Keys)
    ensures states.joystickStates == old(states.joystickStates)
  {
    ok := joystick.Open(joyIndex, states, platform);
    if ok {
      joystick.Close(states);
    }
  }

  /** A successful `open` registers exactly one new key, the slot's device id. */
  method OpenAddsOneEntry(joystick: JoystickImpl, states: ActivityStates, platform: Platform, joyIndex: nat) returns (ok: bool)
    requires joystick.Valid()
    modifies joystick, states
    ensures ok ==> joystick.currentDeviceIdx !in old(states.joystickStates)
    ensures ok ==> states.joystickStates.Keys == old(states.joystickStates).Keys + {joystick.currentDeviceIdx}
    ensures ok ==> |states.joystickStates| == |old(states.joystickStates)| + 1
    ensures !ok ==> states.joystickStates == old(states.joystickStates)
  {
    ok := joystick.Open(joyIndex, states, platform);
  }
}
