/**
 * What the backend learns from the Java side through JNI, as a plain value.
 * Each backend call receives one snapshot of it.
 */
module Platform {
  import opened Wrappers

  /**
   * An `android.view.InputDevice` as the backend reads it: its name, vendor and
   * product ids, the raw answer to the single combined query
   * `supportsSource(AINPUT_SOURCE_GAMEPAD | AINPUT_SOURCE_JOYSTICK)`, and its motion
   * ranges. `motionRanges` is `None` when the list cannot be obtained; an element is
   * `None` when that motion range cannot be read, otherwise it is its axis code.
   */
  datatype InputDevice = InputDevice(
    name: string,
    vendorId: nat,
    productId: nat,
    supportsGamepadJoystick: bool,
    motionRanges: Option<seq<Option<int>>>)

  /**
   * The Java side as seen by one backend call: whether attaching the thread and
   * resolving `android/view/InputDevice` succeed, the result of `getDeviceIds`
   * (`None` for a null array), and the devices `getDevice` resolves (an id
   * missing from `devices` is one for which `getDevice` yields nothing).
   */
  datatype Platform = Platform(
    jniAvailable: bool,
    deviceIds: Option<seq<int>>,
    devices: map<int, InputDevice>)
  {
    /** `JniInputDeviceClass::getDevice`. */
    function GetDevice(deviceId: int): (d: Option<InputDevice>)
    {
      if deviceId in devices then Some(devices[deviceId]) else None
    }
  }
}
