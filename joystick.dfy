/**
 * The engine-side joystick vocabulary the Android backend fills in:
 * the limits of `sf::Joystick`, its axis enumeration, and the records
 * the backend hands back (capabilities, identification, state snapshot).
 */
module Joystick {

  /** Maximum number of joysticks the engine manages (`Joystick::Count`). */
  const Count: nat := 8
  /** Maximum number of buttons of one joystick (`Joystick::ButtonCount`). */
  const ButtonCount: nat := 32
  /** Number of axes in `Joystick::Axis` (`Joystick::AxisCount`). */
  const AxisCount: nat := 8

  /** `Joystick::Axis`, in declaration order. */
  datatype Axis = X | Y | Z | R | U | V | PovX | PovY
  {
    /** Position of the axis in the enumeration; per-axis arrays are indexed by it. */
    function Index(): (k: nat)
      ensures k < AxisCount
    {
      match this
      case X => 0
      case Y => 1
      case Z => 2
      case R => 3
      case U => 4
      case V => 5
      case PovX => 6
      case PovY => 7
    }
  }

  /** The axis stored at position `k` of a per-axis array. */
  function AxisAt(k: nat): (a: Axis)
    requires k < AxisCount
    ensures a.Index() == k
  {
    [X, Y, Z, R, U, V, PovX, PovY][k]
  }

  lemma AxisAtIndex(a: Axis)
    ensures AxisAt(a.Index()) == a
  {
  }

  /** `JoystickCaps`: the number of buttons and, per axis index, whether the axis exists. */
  datatype JoystickCaps = JoystickCaps(buttonCount: nat, axes: seq<bool>)

  /** A value-initialised `JoystickCaps`: no buttons, no axes. */
  function NoCapabilities(): (caps: JoystickCaps)
  {
    JoystickCaps(0, seq(AxisCount, _ => false))
  }

  /** `Joystick::Identification`: the device's name, vendor id and product id. */
  datatype Identification = Identification(name: string, vendorId: nat, productId: nat)

  /** A default `Joystick::Identification`. */
  function NoIdentification(): (ident: Identification)
  {
    Identification("No Joystick", 0, 0)
  }

  /**
   * The per-device running state kept in the shared activity map: axis positions
   * and button flags, written by the input-event path outside this backend.
   */
  datatype DeviceState = DeviceState(axes: seq<real>, buttons: seq<bool>)

  /** The value-initialised entry `{}` inserted when a device is claimed. */
  function DefaultDeviceState(): (state: DeviceState)
  {
    DeviceState(seq(AxisCount, _ => 0.0), seq(ButtonCount, _ => false))
  }

  /** `JoystickState`: the snapshot returned by `update`. */
  datatype JoystickState = JoystickState(connected: bool, axes: seq<real>, buttons: seq<bool>)

  /** The snapshot `{false}`: disconnected, every other member value-initialised. */
  function Disconnected(): (state: JoystickState)
  {
    JoystickState(false, seq(AxisCount, _ => 0.0), seq(ButtonCount, _ => false))
  }
}
